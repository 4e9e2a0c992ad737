/** Drag-to-reorder of the table's rows: `handleDragEnd` copies the row list,
    takes the dragged row out with one `splice` and puts it back at the drop
    target's former index with a second one. */
module RowReorder {

  /** The list after `splice(from, 1)` followed by `splice(to, 0, removed)`. */
  function Move<T>(s: seq<T>, from: nat, to: nat): seq<T>
    requires from < |s| && to < |s|
  {
    var rest := s[..from] + s[from + 1..];
    rest[..to] + [s[from]] + rest[to..]
  }

  /** Where the element found at position `k` after the move came from. */
  function Origin(from: nat, to: nat, k: nat): nat {
    if k == to then from
    else if from < to && from <= k < to then k + 1
    else if to < from && to < k <= from then k - 1
    else k
  }

  /** `Origin` is a bijection on the indices: the move back from `to` to
      `from` sends every index to the one it came from. */
  lemma OriginRoundTrip(from: nat, to: nat, i: nat, n: nat)
    requires from < n && to < n && i < n
    ensures Origin(to, from, i) < n && Origin(from, to, Origin(to, from, i)) == i
  {
  }

  /** Position by position: the moved element lands on `to`, the elements
      between the two indices shift one step toward the vacated slot, and
      every other element stays where it was. */
  lemma MoveAt<T>(s: seq<T>, from: nat, to: nat, k: nat)
    requires from < |s| && to < |s| && k < |s|
    ensures |Move(s, from, to)| == |s|
    ensures Origin(from, to, k) < |s|
    ensures Move(s, from, to)[k] == s[Origin(from, to, k)]
  {
  }

  /** A reorder keeps the length and the multiset of rows: it is a permutation. */
  lemma MovePermutes<T>(s: seq<T>, from: nat, to: nat)
    requires from < |s| && to < |s|
    ensures |Move(s, from, to)| == |s|
    ensures multiset(Move(s, from, to)) == multiset(s)
  {
    var rest := s[..from] + s[from + 1..];
    assert s == s[..from] + [s[from]] + s[from + 1..];
    assert multiset(s) == multiset(rest) + multiset{s[from]};
    assert rest == rest[..to] + rest[to..];
    assert multiset(rest) == multiset(rest[..to]) + multiset(rest[to..]);
  }

  /** The dragged row ends up at the drop target's former index. */
  lemma MoveLands<T>(s: seq<T>, from: nat, to: nat)
    requires from < |s| && to < |s|
    ensures |Move(s, from, to)| == |s| && Move(s, from, to)[to] == s[from]
  {
  }

  /** Rows outside the closed range between the two indices keep their
      positions; rows inside it shift by one toward the vacated slot. */
  lemma MoveShifts<T>(s: seq<T>, from: nat, to: nat)
    requires from < |s| && to < |s|
    ensures |Move(s, from, to)| == |s|
    ensures forall k :: 0 <= k < |s| && (k < from || k > to) && (k < to || k > from) ==>
      Move(s, from, to)[k] == s[k]
    ensures from < to ==> forall k :: from <= k < to ==> Move(s, from, to)[k] == s[k + 1]
    ensures to < from ==> forall k :: to < k <= from ==> Move(s, from, to)[k] == s[k - 1]
  {
  }

  /** Dropping a row on itself changes nothing. */
  lemma MoveToSelf<T>(s: seq<T>, i: nat)
    requires i < |s|
    ensures Move(s, i, i) == s
  {
  }

  /** Dragging the row back from where it landed to where it came from
      restores the original order. */
  lemma MoveUndo<T>(s: seq<T>, from: nat, to: nat)
    requires from < |s| && to < |s|
    ensures |Move(s, from, to)| == |s|
    ensures Move(Move(s, from, to), to, from) == s
  {
    MoveAt(s, from, to, 0);
    var m := Move(s, from, to);
    forall k | 0 <= k < |s| ensures Move(m, to, from)[k] == s[k] {
      MoveAt(m, to, from, k);
      MoveAt(s, from, to, Origin(to, from, k));
    }
  }

  /** The worked example: with four rows, dropping the first on the third
      gives [B, C, A, D]. */
  lemma MoveExample<T>(a: T, b: T, c: T, d: T)
    ensures Move([a, b, c, d], 0, 2) == [b, c, a, d]
  {
  }

  /** The two splices performed on the copy, as one in place pass over a
      fixed-length array: the elements between the two indices are shifted
      one step toward the vacated slot and the removed element is written at
      `to`. */
  method SpliceMove<T>(a: array<T>, from: nat, to: nat)
    requires from < a.Length && to < a.Length
    modifies a
    ensures a[..] == Move(old(a[..]), from, to)
  {
    ghost var s := a[..];
    var removed := a[from];
    if from < to {
      var k := from;
      while k < to
        invariant from <= k <= to
        invariant forall j :: 0 <= j < a.Length && (j < from || j >= k) ==> a[j] == s[j]
        invariant forall j :: from <= j < k ==> a[j] == s[j + 1]
      {
        a[k] := a[k + 1];
        k := k + 1;
      }
    } else if to < from {
      var k := from;
      while k > to
        invariant to <= k <= from
        invariant forall j :: 0 <= j < a.Length && (j <= k || j > from) ==> a[j] == s[j]
        invariant forall j :: k < j <= from ==> a[j] == s[j - 1]
      {
        a[k] := a[k - 1];
        k := k - 1;
      }
    }
    a[to] := removed;
    forall k | 0 <= k < a.Length ensures a[k] == Move(s, from, to)[k] {
      MoveAt(s, from, to, k);
    }
  }
}
