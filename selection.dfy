/** The "select" column: a header checkbox that reflects and toggles the
    selection of the rows on the current page, and one checkbox per row. */
module Selection {

  /** The key the table's row-selection state uses for a row. The table is
      given no `getRowId`, so the library keys each row by its index in
      `data`, written in decimal; distinct indices give distinct keys, so the
      index itself stands for the key here. */
  type RowKey = nat

  /** The three values a checkbox shows (`checked` is `true`, `false` or
      "indeterminate"), which are also the values `onCheckedChange` passes. */
  datatype CheckedState = Checked | Indeterminate | Unchecked

  /** `!!value` on a checkbox value: "indeterminate" is a non-empty string and
      so counts as true. */
  predicate IsOn(v: CheckedState) {
    v != Unchecked
  }

  /** `getIsAllPageRowsSelected() || (getIsSomePageRowsSelected() &&
      "indeterminate")`: checked when the page has rows and every one is
      selected, indeterminate when only some are, unchecked when none is. */
  function HeaderState(page: seq<RowKey>, selected: set<RowKey>): (c: CheckedState)
    ensures c == Checked <==> page != [] && forall k :: k in page ==> k in selected
    ensures c == Indeterminate <==> (exists k :: k in page && k in selected) && (exists k :: k in page && k !in selected)
    ensures c == Unchecked <==> forall k :: k in page ==> k !in selected
  {
    if page != [] && forall k :: k in page ==> k in selected then
      assert page[0] in page;
      Checked
    else if exists k :: k in page && k in selected then Indeterminate
    else Unchecked
  }

  /** `toggleAllPageRowsSelected(value)`: every row of the page is selected
      (or unselected) and no other row's selection changes. */
  function SetPageSelected(selected: set<RowKey>, page: seq<RowKey>, value: bool): (r: set<RowKey>)
    ensures forall k :: k in page ==> (k in r <==> value)
    ensures forall k :: k !in page ==> (k in r <==> k in selected)
  {
    var onPage := set k | k in page;
    if value then selected + onPage else selected - onPage
  }

  /** `row.toggleSelected(value)`: only that row's selection changes. */
  function SetRowSelected(selected: set<RowKey>, key: RowKey, value: bool): (r: set<RowKey>)
    ensures key in r <==> value
    ensures forall k :: k != key ==> (k in r <==> k in selected)
  {
    if value then selected + {key} else selected - {key}
  }

  /** Toggling the header settles it: switching it on makes it checked and
      switching it off makes it unchecked, whatever was selected before. */
  lemma HeaderToggleSettles(page: seq<RowKey>, selected: set<RowKey>)
    requires page != []
    ensures HeaderState(page, SetPageSelected(selected, page, true)) == Checked
    ensures HeaderState(page, SetPageSelected(selected, page, false)) == Unchecked
  {
  }

  /** A row checkbox reports its own row: after toggling, the row's box shows
      the value it was given, and the header is checked only if every other
      row on the page was already selected. */
  lemma RowToggleReflected(page: seq<RowKey>, selected: set<RowKey>, key: RowKey, value: bool)
    requires key in page
    ensures value ==> HeaderState(page, SetRowSelected(selected, key, value)) != Unchecked
    ensures !value ==> HeaderState(page, SetRowSelected(selected, key, value)) != Checked
    ensures HeaderState(page, SetRowSelected(selected, key, value)) == Checked <==>
      value && forall k :: k in page && k != key ==> k in selected
  {
  }
}
