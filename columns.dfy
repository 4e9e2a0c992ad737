/** The table's column definitions as far as hiding goes: which columns may be
    hidden, which therefore appear in the "View" menu, and how a column's
    visibility is read and toggled from that menu. */
module Columns {

  /** A column's id and its `enableHiding` flag (absent means true). */
  datatype Column = Column(id: string, enableHiding: bool)

  /** The column list of the data table, in order. */
  const TableColumns: seq<Column> := [
    Column("drag", true),
    Column("select", false),
    Column("header", false),
    Column("type", true),
    Column("status", true),
    Column("target", true),
    Column("limit", true),
    Column("origin", true),
    Column("actions", true)
  ]

  /** `column.getCanHide()` with the table-level hiding option left on. */
  predicate CanHide(c: Column) {
    c.enableHiding
  }

  /** The ids the "View" menu lists: `getAllColumns().filter(c =>
      c.getCanHide())`, in column order. */
  function ViewMenu(columns: seq<Column>): seq<string> {
    if columns == [] then []
    else if CanHide(columns[0]) then [columns[0].id] + ViewMenu(columns[1..])
    else ViewMenu(columns[1..])
  }

  /** The menu lists exactly the ids of the hideable columns. */
  lemma {:induction false} ViewMenuLists(columns: seq<Column>, id: string)
    ensures |ViewMenu(columns)| <= |columns|
    ensures id in ViewMenu(columns) <==> exists c :: c in columns && CanHide(c) && c.id == id
  {
    if columns != [] {
      ViewMenuLists(columns[1..], id);
      assert forall c :: c in columns[1..] ==> c in columns;
      assert forall c :: c in columns && c != columns[0] ==> c in columns[1..];
    }
  }

  /** The row-selector and product-name columns never appear in the menu;
      the seven other columns do, in their table order. */
  lemma TableViewMenu()
    ensures ViewMenu(TableColumns) == ["drag", "type", "status", "target", "limit", "origin", "actions"]
    ensures "select" !in ViewMenu(TableColumns) && "header" !in ViewMenu(TableColumns)
  {
  }

  /** `column.getIsVisible()`: a column is visible unless the visibility
      state says false for its id. */
  function IsVisible(visibility: map<string, bool>, id: string): bool {
    if id in visibility then visibility[id] else true
  }

  /** `column.toggleVisibility(!!value)` from a "View" menu entry: records
      the new value for that column only. */
  function ToggleVisibility(visibility: map<string, bool>, c: Column, value: bool): (r: map<string, bool>)
    ensures IsVisible(r, c.id) == value
    ensures forall id :: id != c.id ==> IsVisible(r, id) == IsVisible(visibility, id)
  {
    visibility[c.id := value]
  }

  /** Whatever is toggled from the menu, the row-selector and product-name
      columns stay visible. */
  lemma {:induction false} FixedColumnsStayVisible(visibility: map<string, bool>, toggles: seq<(Column, bool)>)
    requires forall i :: 0 <= i < |toggles| ==> toggles[i].0 in TableColumns && toggles[i].0.id in ViewMenu(TableColumns)
    requires IsVisible(visibility, "select") && IsVisible(visibility, "header")
    ensures IsVisible(ApplyToggles(visibility, toggles), "select")
    ensures IsVisible(ApplyToggles(visibility, toggles), "header")
    decreases |toggles|
  {
    if toggles != [] {
      var (c, v) := toggles[0];
      TableViewMenu();
      assert c.id != "select" && c.id != "header";
      var next := ToggleVisibility(visibility, c, v);
      assert IsVisible(next, "select") && IsVisible(next, "header");
      FixedColumnsStayVisible(next, toggles[1..]);
    }
  }

  /** A run of menu toggles, applied in order. */
  function ApplyToggles(visibility: map<string, bool>, toggles: seq<(Column, bool)>): map<string, bool>
    decreases |toggles|
  {
    if toggles == [] then visibility
    else ApplyToggles(ToggleVisibility(visibility, toggles[0].0, toggles[0].1), toggles[1..])
  }

  /** On mount the visibility state is empty, so every column is shown. */
  lemma AllVisibleOnMount(id: string)
    ensures IsVisible(map[], id)
  {
  }

  /** A column that no toggle names keeps its visibility. */
  lemma {:induction false} UntouchedColumnKeepsVisibility(visibility: map<string, bool>, toggles: seq<(Column, bool)>, id: string)
    requires forall j :: 0 <= j < |toggles| ==> toggles[j].0.id != id
    ensures IsVisible(ApplyToggles(visibility, toggles), id) == IsVisible(visibility, id)
    decreases |toggles|
  {
    if toggles != [] {
      var next := ToggleVisibility(visibility, toggles[0].0, toggles[0].1);
      UntouchedColumnKeepsVisibility(next, toggles[1..], id);
    }
  }

  /** The last toggle of a column decides whether it is shown. */
  lemma {:induction false} LastToggleWins(visibility: map<string, bool>, toggles: seq<(Column, bool)>, i: nat)
    requires i < |toggles|
    requires forall j :: i < j < |toggles| ==> toggles[j].0.id != toggles[i].0.id
    ensures IsVisible(ApplyToggles(visibility, toggles), toggles[i].0.id) == toggles[i].1
    decreases |toggles|
  {
    var next := ToggleVisibility(visibility, toggles[0].0, toggles[0].1);
    if i == 0 {
      UntouchedColumnKeepsVisibility(next, toggles[1..], toggles[0].0.id);
    } else {
      LastToggleWins(next, toggles[1..], i - 1);
    }
  }
}
