/** The "Quantity (MT)" cell: the stored quantity string is in kilograms; the
    cell strips its thousands separators, reads it with `parseInt`, maps an
    unreadable value to 0 and shows the value in metric tonnes rounded with
    `Math.round`. */
module Quantity {
  import opened Js

  /** `s.replace(/,/g, '')`. */
  function RemoveCommas(s: string): string {
    if s == [] then []
    else (if s[0] == ',' then [] else [s[0]]) + RemoveCommas(s[1..])
  }

  /** No comma survives, and text without commas is left as it is. */
  lemma {:induction false} RemoveCommasRemovesAll(s: string)
    ensures ',' !in RemoveCommas(s)
    ensures ',' !in s ==> RemoveCommas(s) == s
  {
    if s != [] {
      RemoveCommasRemovesAll(s[1..]);
      assert ',' !in s ==> ',' !in s[1..];
      assert s == [s[0]] + s[1..];
    }
  }

  /** Removing the commas of a concatenation removes them piece by piece. */
  lemma {:induction false} RemoveCommasAppend(a: string, b: string)
    ensures RemoveCommas(a + b) == RemoveCommas(a) + RemoveCommas(b)
  {
    if a != [] {
      assert (a + b)[0] == a[0] && (a + b)[1..] == a[1..] + b;
      RemoveCommasAppend(a[1..], b);
    } else {
      assert a + b == b;
    }
  }

  /** The characters `parseInt` skips before the number: WhiteSpace and
      LineTerminator of ECMA-262 sections 12.2 and 12.3 (the Unicode category
      Zs among them). */
  predicate IsStrWhiteSpace(c: char) {
    var n := c as int;
    n == 0x09 || n == 0x0A || n == 0x0B || n == 0x0C || n == 0x0D || n == 0x20 ||
    n == 0xA0 || n == 0x1680 || 0x2000 <= n <= 0x200A || n == 0x2028 || n == 0x2029 ||
    n == 0x202F || n == 0x205F || n == 0x3000 || n == 0xFEFF
  }

  /** TrimString(s, start). */
  function TrimStart(s: string): (r: string)
    ensures r == [] || !IsStrWhiteSpace(r[0])
    ensures (s == [] || !IsStrWhiteSpace(s[0])) ==> r == s
  {
    if s != [] && IsStrWhiteSpace(s[0]) then TrimStart(s[1..]) else s
  }

  /** Only leading white space is removed: the result is a suffix of the
      input and everything cut off is white space. */
  lemma {:induction false} TrimStartDropsOnlySpace(s: string)
    ensures |TrimStart(s)| <= |s| && TrimStart(s) == s[|s| - |TrimStart(s)|..]
    ensures forall i :: 0 <= i < |s| - |TrimStart(s)| ==> IsStrWhiteSpace(s[i])
  {
    if s != [] && IsStrWhiteSpace(s[0]) {
      TrimStartDropsOnlySpace(s[1..]);
      assert forall i :: 1 <= i < |s| ==> s[1..][i - 1] == s[i];
    }
  }

  /** The value of `c` as a digit of radix 10 or 16, if it is one. */
  function DigitValue(c: char, radix: nat): (d: Option<nat>)
    requires radix == 10 || radix == 16
    ensures d.Some? ==> d.value < radix
    ensures radix == 10 ==> (d.Some? <==> '0' <= c <= '9')
  {
    var v :=
      if '0' <= c <= '9' then Some(c as int - '0' as int)
      else if 'a' <= c <= 'z' then Some(c as int - 'a' as int + 10)
      else if 'A' <= c <= 'Z' then Some(c as int - 'A' as int + 10)
      else None;
    if v.Some? && v.value < radix then Some(v.value) else None
  }

  /** The length of the longest prefix of `s` made of digits of `radix`. */
  function DigitRun(s: string, radix: nat): (n: nat)
    requires radix == 10 || radix == 16
    ensures n <= |s|
    ensures forall i :: 0 <= i < n ==> DigitValue(s[i], radix).Some?
    ensures n < |s| ==> DigitValue(s[n], radix).None?
  {
    if s != [] && DigitValue(s[0], radix).Some? then 1 + DigitRun(s[1..], radix) else 0
  }

  /** The mathematical value of a string of digits of `radix`, most
      significant first. */
  function DigitsValue(s: string, radix: nat): nat
    requires radix == 10 || radix == 16
    requires forall i :: 0 <= i < |s| ==> DigitValue(s[i], radix).Some?
  {
    if s == [] then 0
    else DigitsValue(s[..|s| - 1], radix) * radix + DigitValue(s[|s| - 1], radix).value
  }

  /** `parseInt(s)` without a radix argument (ECMA-262 section 19.2.5): skip
      leading white space, take one optional sign, then read the magnitude.
      `None` is NaN: no digit at all. The sign of zero is not kept, since the
      cell maps -0 to 0 anyway. */
  function ParseInt(input: string): Option<int> {
    var s := TrimStart(input);
    match ParseMagnitude(Unsigned(s))
    case None => None
    case Some(v) =>
      var signed: int := if s != [] && s[0] == '-' then -(v as int) else v as int;
      Some(signed)
  }

  /** The text after one optional leading sign. */
  function Unsigned(s: string): string {
    if s != [] && (s[0] == '-' || s[0] == '+') then s[1..] else s
  }

  /** After a "0x" or "0X" prefix the digits are read in radix 16, otherwise
      in radix 10; reading stops at the first character that is not a digit of
      that radix. */
  function ParseMagnitude(u: string): Option<nat> {
    var hex := |u| >= 2 && u[0] == '0' && (u[1] == 'x' || u[1] == 'X');
    var radix := if hex then 16 else 10;
    var digits := if hex then u[2..] else u;
    var n := DigitRun(digits, radix);
    if n == 0 then None else Some(DigitsValue(digits[..n], radix))
  }

  /** The decimal numeral of `n`, as `String(n)` writes a non-negative
      integer. */
  function Decimal(n: nat): (s: string)
    ensures |s| >= 1
    ensures forall i :: 0 <= i < |s| ==> '0' <= s[i] <= '9'
    ensures |s| > 1 ==> s[0] != '0'
  {
    if n < 10 then [('0' as int + n) as char]
    else Decimal(n / 10) + [('0' as int + n % 10) as char]
  }

  /** Reading a decimal numeral back gives its number. */
  lemma {:induction false} DecimalValue(n: nat)
    ensures forall i :: 0 <= i < |Decimal(n)| ==> DigitValue(Decimal(n)[i], 10).Some?
    ensures DigitsValue(Decimal(n), 10) == n
  {
    var s := Decimal(n);
    if n >= 10 {
      DecimalValue(n / 10);
      assert s[..|s| - 1] == Decimal(n / 10);
    }
  }

  /** Text that starts with a decimal digit has no white space or sign to
      skip. */
  lemma ParseIntFromDigit(s: string)
    requires s != [] && '0' <= s[0] <= '9'
    ensures ParseInt(s) == ParseMagnitude(s)
  {
  }

  /** Without a hex prefix the magnitude is the decimal run at the start. */
  lemma DecimalMagnitude(s: string, n: nat)
    requires !(|s| >= 2 && s[0] == '0' && (s[1] == 'x' || s[1] == 'X'))
    requires n == DigitRun(s, 10) && n > 0
    ensures ParseMagnitude(s) == Some(DigitsValue(s[..n], 10))
  {
  }

  /** A run of decimal digits followed by text that does not begin with a digit
      (or an "x" that would turn a leading "0" into a hex prefix) reads as the
      digits' value: `parseInt` stops at the first non-digit. */
  lemma DigitsThenRest(d: string, rest: string)
    requires |d| >= 1 && forall i :: 0 <= i < |d| ==> '0' <= d[i] <= '9'
    requires rest == [] || (DigitValue(rest[0], 10).None? && rest[0] != 'x' && rest[0] != 'X')
    requires |d| > 1 ==> d[1] != 'x' && d[1] != 'X'
    ensures ParseInt(d + rest) == Some(DigitsValue(d, 10))
  {
    var s := d + rest;
    assert s[0] == d[0];
    ParseIntFromDigit(s);
    assert |s| >= 2 ==> s[1] != 'x' && s[1] != 'X' by {
      if |d| == 1 && |s| >= 2 { assert s[1] == rest[0]; }
    }
    DigitRunOf(d, rest);
    assert s[..|d|] == d;
    DecimalMagnitude(s, |d|);
  }

  lemma {:induction false} DigitRunOf(d: string, rest: string)
    requires forall i :: 0 <= i < |d| ==> '0' <= d[i] <= '9'
    requires rest == [] || DigitValue(rest[0], 10).None?
    ensures DigitRun(d + rest, 10) == |d|
  {
    if d != [] {
      assert (d + rest)[1..] == d[1..] + rest;
      DigitRunOf(d[1..], rest);
    } else {
      assert d + rest == rest;
    }
  }

  /** The round trip: a non-negative integer written in decimal, possibly
      followed by a fractional part or other non-digit text, parses back to
      itself. */
  lemma ParseDecimal(n: nat, rest: string)
    requires rest == [] || (DigitValue(rest[0], 10).None? && rest[0] != 'x' && rest[0] != 'X')
    ensures ParseInt(Decimal(n) + rest) == Some(n)
  {
    DecimalValue(n);
    DigitsThenRest(Decimal(n), rest);
  }

  /** The magnitude `parseInt` reads after a sign. */
  lemma DecimalMagnitudeOf(n: nat, rest: string)
    requires rest == [] || (DigitValue(rest[0], 10).None? && rest[0] != 'x' && rest[0] != 'X')
    ensures ParseMagnitude(Decimal(n) + rest) == Some(n)
  {
    ParseDecimal(n, rest);
    ParseIntFromDigit(Decimal(n) + rest);
  }

  /** A leading minus sign negates the magnitude read after it. */
  lemma MinusNegates(u: string, v: nat)
    requires ParseMagnitude(u) == Some(v)
    ensures ParseInt("-" + u) == Some(-(v as int))
  {
    var s := "-" + u;
    assert s[0] == '-' && s[1..] == u;
    assert TrimStart(s) == s;
    assert Unsigned(s) == u;
  }

  /** A negative decimal number reads back as itself. */
  lemma ParseNegativeDecimal(n: nat, rest: string)
    requires rest == [] || (DigitValue(rest[0], 10).None? && rest[0] != 'x' && rest[0] != 'X')
    ensures ParseInt("-" + Decimal(n) + rest) == Some(-(n as int))
  {
    assert "-" + Decimal(n) + rest == "-" + (Decimal(n) + rest);
    DecimalMagnitudeOf(n, rest);
    MinusNegates(Decimal(n) + rest, n);
  }

  /** A leading plus sign changes nothing. */
  lemma ParsePositiveDecimal(n: nat, rest: string)
    requires rest == [] || (DigitValue(rest[0], 10).None? && rest[0] != 'x' && rest[0] != 'X')
    ensures ParseInt("+" + Decimal(n) + rest) == Some(n as int)
  {
    var d := Decimal(n) + rest;
    var s := "+" + Decimal(n) + rest;
    assert s == "+" + d && s[0] == '+' && s[1..] == d;
    assert TrimStart(s) == s;
    DecimalMagnitudeOf(n, rest);
  }

  /** White space before the number is skipped. */
  lemma LeadingWhiteSpaceSkipped(c: char, s: string)
    requires IsStrWhiteSpace(c)
    ensures ParseInt([c] + s) == ParseInt(s)
  {
    assert ([c] + s)[1..] == s;
  }

  /** Without a radix, a "0x" prefix switches `parseInt` to hexadecimal, so a
      quantity written "0x10" reads as 16 kilograms. */
  lemma HexPrefixExample()
    ensures QuantityKg("0x10") == 16
  {
    assert RemoveCommas("0x10") == "0x10";
    assert TrimStart("0x10") == "0x10";
    assert Unsigned("0x10") == "0x10";
    assert "0x10"[2..] == "10";
    assert DigitRun("10", 16) == 2;
    assert "10"[..2] == "10";
    assert DigitsValue("10", 16) == 16;
  }

  /** `Math.round(kg / 1000)` (ECMA-262 section 21.3.2.28): the integer
      nearest to kg/1000, halves going toward +infinity. */
  function RoundKgToTonnes(kg: int): (t: int)
    ensures 1000 * t - 500 <= kg < 1000 * t + 500
  {
    (kg + 500) / 1000
  }

  /** Only one integer is that close to kg/1000, so the rounding is exactly
      `Math.round`'s. */
  lemma RoundingIsNearest(kg: int, t: int)
    requires 1000 * t - 500 <= kg < 1000 * t + 500
    ensures RoundKgToTonnes(kg) == t
  {
  }

  /** `parseInt(String(target).replace(/,/g, '')) || 0`: NaN becomes 0. */
  function QuantityKg(target: string): int {
    match ParseInt(RemoveCommas(target))
    case None => 0
    case Some(v) => v
  }

  /** The number the cell shows (before thousands grouping). */
  function QuantityTonnes(target: string): (t: int)
    ensures 1000 * t - 500 <= QuantityKg(target) < 1000 * t + 500
  {
    RoundKgToTonnes(QuantityKg(target))
  }

  /** The shown value depends only on the text left after the commas are
      removed. */
  lemma SameDigitsSameQuantity(x: string, y: string)
    requires RemoveCommas(x) == RemoveCommas(y)
    ensures QuantityTonnes(x) == QuantityTonnes(y)
  {
  }

  /** Thousands separators do not change the shown value. */
  lemma CommasIgnored(a: string, b: string)
    ensures QuantityTonnes(a + "," + b) == QuantityTonnes(a + b)
  {
    assert RemoveCommas(a + "," + b) == RemoveCommas(a + b) by {
      assert RemoveCommas(",") == [];
      RemoveCommasAppend(a + ",", b);
      RemoveCommasAppend(a, ",");
      RemoveCommasAppend(a, b);
    }
    SameDigitsSameQuantity(a + "," + b, a + b);
  }

  /** Text with no digit to read shows 0 rather than an "N/A" placeholder. */
  lemma UnreadableShowsZero(target: string)
    requires ParseInt(RemoveCommas(target)).None?
    ensures QuantityTonnes(target) == 0
  {
  }

  /** A plain kilogram count, with or without a fractional part, shows as the
      nearest whole number of tonnes. */
  lemma KilogramsToTonnes(n: nat, rest: string)
    requires ',' !in rest
    requires rest == [] || (DigitValue(rest[0], 10).None? && rest[0] != 'x' && rest[0] != 'X')
    ensures 1000 * QuantityTonnes(Decimal(n) + rest) - 500 <= n < 1000 * QuantityTonnes(Decimal(n) + rest) + 500
  {
    var s := Decimal(n) + rest;
    assert ',' !in Decimal(n);
    RemoveCommasRemovesAll(s);
    assert ',' !in s by {
      forall i | 0 <= i < |s| ensures s[i] != ',' {
        if i >= |Decimal(n)| { assert s[i] == rest[i - |Decimal(n)|]; }
      }
    }
    ParseDecimal(n, rest);
  }

  lemma Decimal150000()
    ensures Decimal(150000) == "150000"
  {
  }

  lemma Decimal150500()
    ensures Decimal(150500) == "150500"
  {
  }

  /** Worked example: "150000" kg shows 150 tonnes. */
  lemma WholeTonnesExample()
    ensures QuantityTonnes("150000") == 150
  {
    Kg150000();
    RoundingIsNearest(150000, 150);
  }

  lemma Kg150000()
    ensures QuantityKg("150000") == 150000
  {
    var d := Decimal(150000);
    Decimal150000();
    ParseDecimal(150000, "");
    assert d + "" == d;
    RemoveCommasRemovesAll(d);
  }

  /** Worked example: "150,500" kg shows 151 tonnes, the half rounding up. */
  lemma HalfTonneRoundsUpExample()
    ensures QuantityTonnes("150,500") == 151
  {
    Kg150500();
    RoundingIsNearest(150500, 151);
  }

  lemma Kg150500()
    ensures QuantityKg("150,500") == 150500
  {
    var d := Decimal(150500);
    Decimal150500();
    ParseDecimal(150500, "");
    assert d + "" == d;
    RemoveCommasRemovesAll(d);
    assert RemoveCommas("150,500") == RemoveCommas(d) by {
      CommasIgnored150500();
    }
  }

  lemma CommasIgnored150500()
    ensures RemoveCommas("150,500") == "150500"
  {
    assert "150,500" == "150" + ",500";
    RemoveCommasAppend("150", ",500");
    RemoveCommasRemovesAll("150");
    assert ",500"[1..] == "500";
    RemoveCommasRemovesAll("500");
  }

  lemma NotANumberUnreadable()
    ensures ParseInt(RemoveCommas("N/A")).None?
  {
  }

  /** Worked example: "N/A" has no digit and shows 0. */
  lemma NotANumberExample()
    ensures QuantityTonnes("N/A") == 0
  {
  }
}
