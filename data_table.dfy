/** The `DataTable` component's own state and event handlers: the row list it
    keeps (and reorders on a drag end), the row-selection state and the
    column-visibility state it hands to the table library. */
module DataTable {
  import opened Js
  import opened RowReorder
  import opened Selection
  import opened Columns

  /** One record of the table (`tableSchema`). Its `type` field is named
      `category` here because `type` is a Dafny keyword. */
  datatype Row = Row(id: int, header: string, category: string, status: string,
                     target: string, limit: string, reviewer: string)

  /** Some row carries the id. */
  predicate HasId(items: seq<Row>, id: int) {
    exists i :: 0 <= i < |items| && items[i].id == id
  }

  /** The index `items.findIndex(item => item.id == id)` returns when the id
      occurs: the first row carrying it. */
  function FirstIndexOf(items: seq<Row>, id: int): (i: nat)
    requires HasId(items, id)
    ensures i < |items| && items[i].id == id
    ensures forall j :: 0 <= j < i ==> items[j].id != id
  {
    if items[0].id == id then 0
    else
      assert HasId(items[1..], id) by {
        var k :| 0 <= k < |items| && items[k].id == id;
        assert items[1..][k - 1] == items[k];
      }
      1 + FirstIndexOf(items[1..], id)
  }

  /** `items.findIndex(...)`: the first index carrying the id, or -1. */
  method FindIndex(items: seq<Row>, id: int) returns (r: int)
    ensures HasId(items, id) ==> r == FirstIndexOf(items, id)
    ensures !HasId(items, id) ==> r == -1
  {
    var i := 0;
    while i < |items|
      invariant 0 <= i <= |items|
      invariant forall j :: 0 <= j < i ==> items[j].id != id
    {
      if items[i].id == id {
        assert HasId(items, id);
        ghost var f := FirstIndexOf(items, id);
        assert f == i by {
          assert !(f < i);
          assert !(i < f);
        }
        return i;
      }
      i := i + 1;
    }
    return -1;
  }

  /** The state updater `handleDragEnd` passes to `setData`: find both rows,
      copy the list, take the dragged row out and put it back at the drop
      target's former index. */
  method ReorderRows(items: seq<Row>, activeId: int, overId: int) returns (newItems: seq<Row>)
    requires HasId(items, activeId) && HasId(items, overId)
    ensures newItems == Move(items, FirstIndexOf(items, activeId), FirstIndexOf(items, overId))
    ensures multiset(newItems) == multiset(items)
    ensures newItems[FirstIndexOf(items, overId)] == items[FirstIndexOf(items, activeId)]
  {
    var oldIndex := FindIndex(items, activeId);
    var newIndex := FindIndex(items, overId);
    var copy := new Row[|items|](i requires 0 <= i < |items| => items[i]);
    assert copy[..] == items;
    SpliceMove(copy, oldIndex, newIndex);
    newItems := copy[..];
    MovePermutes(items, oldIndex, newIndex);
    MoveLands(items, oldIndex, newIndex);
  }

  /** The records the selection marks: the rows at the selected indices. */
  function SelectedRecords(items: seq<Row>, selection: set<RowKey>): set<Row> {
    set k | k in selection && k < |items| :: items[k]
  }

  /** The counterexample to a selection that follows its records: with B
      selected in [A, B, C, D], dropping A on C gives [B, C, A, D], and the
      unchanged selection now marks C. */
  lemma DragLeavesSelectionOnPositions(a: Row, b: Row, c: Row, d: Row)
    requires b != c
    ensures SelectedRecords([a, b, c, d], {1}) == {b}
    ensures Move([a, b, c, d], 0, 2) == [b, c, a, d]
    ensures SelectedRecords([b, c, a, d], {1}) == {c}
  {
    MoveExample(a, b, c, d);
  }

  /** The selection carried along with a move: index `k` is selected
      afterwards exactly when the row that moved to `k` was selected. */
  function FollowMove(selection: set<RowKey>, n: nat, from: nat, to: nat): set<RowKey>
    requires from < n && to < n
  {
    set k: nat | k < n && Origin(from, to, k) in selection
  }

  /** Carried along, the selection marks the same records after the move as
      before it. */
  lemma FollowMoveKeepsRecords(items: seq<Row>, selection: set<RowKey>, from: nat, to: nat)
    requires from < |items| && to < |items|
    ensures SelectedRecords(Move(items, from, to), FollowMove(selection, |items|, from, to))
      == SelectedRecords(items, selection)
  {
    var n := |items|;
    var moved := Move(items, from, to);
    var follow := FollowMove(selection, n, from, to);
    MovePermutes(items, from, to);
    forall r | r in SelectedRecords(moved, follow) ensures r in SelectedRecords(items, selection) {
      var k :| k in follow && k < n && moved[k] == r;
      MoveAt(items, from, to, k);
      assert items[Origin(from, to, k)] == r;
    }
    forall r | r in SelectedRecords(items, selection) ensures r in SelectedRecords(moved, follow) {
      var i :| i in selection && i < n && items[i] == r;
      var k := Origin(to, from, i);
      OriginRoundTrip(from, to, i, n);
      MoveAt(items, from, to, k);
      assert k in follow && moved[k] == r;
    }
  }

  /** The component: `data`, `rowSelection` and `columnVisibility` are the
      state it replaces on each event. */
  class Table {
    var data: seq<Row>
    var rowSelection: set<RowKey>
    var columnVisibility: map<string, bool>

    /** Mounting: the rows passed in, nothing selected, every column visible. */
    constructor (initialData: seq<Row>)
      ensures data == initialData && rowSelection == {} && columnVisibility == map[]
    {
      data := initialData;
      rowSelection := {};
      columnVisibility := map[];
    }

    /** `handleDragEnd`: nothing happens without a drop target or when a row
        is dropped on itself; otherwise the rows are reordered. The rows are
        looked up by id, so both must be present. */
    method HandleDragEnd(activeId: int, overId: Option<int>)
      requires overId.Some? && activeId != overId.value ==> HasId(data, activeId) && HasId(data, overId.value)
      modifies this
      ensures overId.None? || activeId == overId.value ==> data == old(data)
      ensures overId.Some? && activeId != overId.value ==>
        data == Move(old(data), FirstIndexOf(old(data), activeId), FirstIndexOf(old(data), overId.value))
      ensures rowSelection == old(rowSelection) && columnVisibility == old(columnVisibility)
    {
      if overId.Some? && activeId != overId.value {
        data := ReorderRows(data, activeId, overId.value);
      }
    }

    /** `handleDragEnd` as evidently intended: the selection moves with the
        rows, so it marks the same records afterwards. */
    method HandleDragEndKeepingSelection(activeId: int, overId: Option<int>)
      requires overId.Some? && activeId != overId.value ==> HasId(data, activeId) && HasId(data, overId.value)
      modifies this
      ensures overId.None? || activeId == overId.value ==> data == old(data) && rowSelection == old(rowSelection)
      ensures overId.Some? && activeId != overId.value ==>
        && data == Move(old(data), FirstIndexOf(old(data), activeId), FirstIndexOf(old(data), overId.value))
        && rowSelection == FollowMove(old(rowSelection), |old(data)|, FirstIndexOf(old(data), activeId), FirstIndexOf(old(data), overId.value))
        && SelectedRecords(data, rowSelection) == SelectedRecords(old(data), old(rowSelection))
      ensures columnVisibility == old(columnVisibility)
    {
      if overId.Some? && activeId != overId.value {
        var from := FirstIndexOf(data, activeId);
        var to := FirstIndexOf(data, overId.value);
        FollowMoveKeepsRecords(data, rowSelection, from, to);
        rowSelection := FollowMove(rowSelection, |data|, from, to);
        data := ReorderRows(data, activeId, overId.value);
      }
    }

    /** The header checkbox of the "select" column for the rows of the
        current page. */
    function HeaderCheckbox(page: seq<RowKey>): CheckedState
      reads this
    {
      HeaderState(page, rowSelection)
    }

    /** A row's checkbox. */
    function RowCheckbox(key: RowKey): bool
      reads this
    {
      key in rowSelection
    }

    /** The header checkbox's `onCheckedChange`: the current page's rows are
        all selected or all unselected. */
    method ToggleAllPageRowsSelected(page: seq<RowKey>, value: CheckedState)
      modifies this
      ensures rowSelection == SetPageSelected(old(rowSelection), page, IsOn(value))
      ensures data == old(data) && columnVisibility == old(columnVisibility)
    {
      rowSelection := SetPageSelected(rowSelection, page, IsOn(value));
    }

    /** A row checkbox's `onCheckedChange`: only that row changes. */
    method ToggleRowSelected(key: RowKey, value: CheckedState)
      modifies this
      ensures rowSelection == SetRowSelected(old(rowSelection), key, IsOn(value))
      ensures data == old(data) && columnVisibility == old(columnVisibility)
    {
      rowSelection := SetRowSelected(rowSelection, key, IsOn(value));
    }

    /** Whether a column is shown. */
    function ColumnVisible(id: string): bool
      reads this
    {
      IsVisible(columnVisibility, id)
    }

    /** A "View" menu entry's `onCheckedChange`. */
    method ToggleColumnVisibility(c: Column, value: bool)
      requires c in TableColumns && c.id in ViewMenu(TableColumns)
      modifies this
      ensures columnVisibility == ToggleVisibility(old(columnVisibility), c, value)
      ensures data == old(data) && rowSelection == old(rowSelection)
    {
      columnVisibility := ToggleVisibility(columnVisibility, c, value);
    }
  }

  /** The worked example: rows A, B, C, D with A dropped on C become
      B, C, A, D. */
  method DragExample(a: Row, b: Row, c: Row, d: Row)
    requires a.id == 1 && b.id == 2 && c.id == 3 && d.id == 4
  {
    var t := new Table([a, b, c, d]);
    assert t.data[0].id == 1 && t.data[2].id == 3;
    t.HandleDragEnd(1, Some(3));
    assert FirstIndexOf([a, b, c, d], 1) == 0;
    assert FirstIndexOf([a, b, c, d], 3) == 2;
    MoveExample(a, b, c, d);
    assert t.data == [b, c, a, d];
    t.HandleDragEnd(2, None);
    assert t.data == [b, c, a, d];
  }
}
