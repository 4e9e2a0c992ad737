/** The JavaScript values and built-ins that the modelled code relies on. */
module Js {

  datatype Option<+T> = None | Some(value: T)

  /** A JavaScript value as far as the modelled code inspects it: a request-body
      field, a search parameter or a property of a thrown error. Numbers are
      integral here; the code never looks at fractional ones. */
  datatype Value = Undefined | Null | Bool(b: bool) | Number(n: int) | NaN | Str(s: string) | Object

  /** `!!v`: ToBoolean of ECMA-262 section 7.1.2. */
  predicate Truthy(v: Value) {
    match v
    case Undefined => false
    case Null => false
    case Bool(b) => b
    case Number(n) => n != 0
    case NaN => false
    case Str(s) => s != ""
    case Object => true
  }

  /** `!!x` for a value that is either a string or absent (`null`). */
  predicate Present(x: Option<string>) {
    x.Some? && x.value != ""
  }

  /** `x || fallback` for a string that may be absent. */
  function OrElse(x: Option<string>, fallback: string): string {
    if x.Some? && x.value != "" then x.value else fallback
  }

  /** `s.startsWith(prefix)` (ECMA-262 section 22.1.3.23). */
  predicate StartsWith(s: string, prefix: string) {
    |prefix| <= |s| && s[..|prefix|] == prefix
  }

  /** The number of UTF-16 code units a string occupies, which is what
      `s.length` reports: characters outside the Basic Multilingual Plane take
      a surrogate pair. */
  function Utf16Length(s: string): (n: nat)
    ensures |s| <= n <= 2 * |s|
    ensures (forall i :: 0 <= i < |s| ==> s[i] as int <= 0xFFFF) ==> n == |s|
  {
    if s == [] then 0
    else (if s[0] as int > 0xFFFF then 2 else 1) + Utf16Length(s[1..])
  }
}
