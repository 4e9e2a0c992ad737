/** The "Order Status" badge: the status string selects a colour palette from a
    table of four known statuses, and anything else gets the gray default. */
module StatusPalette {
  import opened Js

  /** The three Tailwind class strings a palette contributes. */
  datatype Palette = Palette(bg: string, text: string, border: string)

  const Emerald := Palette("bg-emerald-100 dark:bg-emerald-900/30", "text-emerald-800 dark:text-emerald-400", "border-emerald-200 dark:border-emerald-800")
  const Amber := Palette("bg-amber-100 dark:bg-amber-900/30", "text-amber-800 dark:text-amber-400", "border-amber-200 dark:border-amber-800")
  const Rose := Palette("bg-rose-100 dark:bg-rose-900/30", "text-rose-800 dark:text-rose-400", "border-rose-200 dark:border-rose-800")
  const Blue := Palette("bg-blue-100 dark:bg-blue-900/30", "text-blue-800 dark:text-blue-400", "border-blue-200 dark:border-blue-800")
  const Gray := Palette("bg-gray-100 dark:bg-gray-800", "text-gray-800 dark:text-gray-300", "border-gray-200 dark:border-gray-700")

  /** The own entries of the `statusColors` object literal. */
  const StatusTable: map<string, Palette> :=
    map["Delivered" := Emerald, "Processing" := Amber, "On Hold" := Rose, "In Transit" := Blue]

  /** The status lookup with the gray default: each listed status gets its
      table palette, which is gray for none of them and shared with no other
      listed status; every other string gets gray. */
  function StatusColors(status: string): (p: Palette)
    ensures status in StatusTable ==> p == StatusTable[status]
    ensures p == Gray <==> status !in {"Delivered", "Processing", "On Hold", "In Transit"}
    ensures status in StatusTable ==> forall t :: t in StatusTable && t != status ==> StatusTable[t] != p
  {
    if status in StatusTable then StatusTable[status] else Gray
  }

  /** The four palettes the source lists, one per known status, with their
      class strings. */
  lemma KnownStatusPalettes()
    ensures StatusColors("Delivered") == Emerald && StatusColors("Processing") == Amber
    ensures StatusColors("On Hold") == Rose && StatusColors("In Transit") == Blue
    ensures Emerald.bg == "bg-emerald-100 dark:bg-emerald-900/30" && Amber.bg == "bg-amber-100 dark:bg-amber-900/30"
    ensures Rose.bg == "bg-rose-100 dark:bg-rose-900/30" && Blue.bg == "bg-blue-100 dark:bg-blue-900/30"
    ensures StatusColors("Cancelled") == Gray && Gray.bg == "bg-gray-100 dark:bg-gray-800"
  {
  }

  /** The names every plain object inherits from Object.prototype
      (ECMA-262 section 20.1.3 and Annex B.2.2). */
  const ObjectPrototypeKeys: set<string> := {
    "constructor", "hasOwnProperty", "isPrototypeOf", "propertyIsEnumerable",
    "toLocaleString", "toString", "valueOf", "__proto__",
    "__defineGetter__", "__defineSetter__", "__lookupGetter__", "__lookupSetter__"
  }

  /** What `statusColors[status]` reads from the object literal. */
  datatype Lookup = Own(palette: Palette) | Inherited | Missing

  /** Property access on the object literal: its own entries first, then the
      members of Object.prototype, which are all truthy. */
  function LookupAsWritten(status: string): Lookup {
    if status in StatusTable then Own(StatusTable[status])
    else if status in ObjectPrototypeKeys then Inherited
    else Missing
  }

  /** `statusColors[status] || gray`, as written: an inherited member is truthy
      and wins over the default, and its `bg`, `text` and `border` are
      undefined, so the badge gets no palette classes at all (`None`). */
  function ColorsAsWritten(status: string): Option<Palette> {
    match LookupAsWritten(status)
    case Own(palette) => Some(palette)
    case Inherited => None
    case Missing => Some(Gray)
  }

  /** The lookup as written agrees with the intended one exactly on the
      statuses that are not inherited names; on those it loses the palette. */
  lemma AsWrittenAgreesElsewhere(status: string)
    ensures ColorsAsWritten(status) == Some(StatusColors(status)) <==> status !in ObjectPrototypeKeys
    ensures ColorsAsWritten(status).None? <==> status in ObjectPrototypeKeys
  {
  }

  /** The discrepancy: a row whose status is "constructor" gets a badge with
      no colour classes instead of the gray default. */
  lemma InheritedNameLosesDefault()
    ensures ColorsAsWritten("constructor") == None
    ensures StatusColors("constructor") == Gray
  {
  }
}
