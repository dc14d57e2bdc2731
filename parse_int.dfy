/**
 * `parseInt` as the controllers call it on query-string values: `parseInt(v, 10)` in the
 * engine's pagination and `parseInt(v)` (radix left out, so a "0x" prefix means hexadecimal)
 * in the admin listing. `None` stands for `NaN`.
 */
module JsNumber {
  import opened Wrappers
  import opened Json

  /** `parseInt(s, 10)` or `parseInt(s)`. */
  datatype Radix = Decimal | Unspecified

  /** The white-space and line-terminator characters `parseInt` skips before the number. */
  predicate IsSpace(c: char) {
    || c == ' ' || c == '\t' || c == '\n' || c == '\r' || c == '\U{000B}' || c == '\U{000C}'
    || c == '\U{00A0}' || c == '\U{FEFF}' || c == '\U{1680}' || ('\U{2000}' <= c <= '\U{200A}')
    || c == '\U{2028}' || c == '\U{2029}' || c == '\U{202F}' || c == '\U{205F}' || c == '\U{3000}'
  }

  function TrimStart(s: string): (t: string)
    ensures |t| <= |s|
    ensures t == s[|s| - |t|..]
    ensures t != [] ==> !IsSpace(t[0])
  {
    if s != [] && IsSpace(s[0]) then TrimStart(s[1..]) else s
  }

  /** The value of a digit in bases up to 16, letters in either case; 16 (a digit of no base used here) otherwise. */
  function DigitValue(c: char): (d: nat)
    ensures d <= 16
  {
    if '0' <= c <= '9' then c as int - '0' as int
    else if 'a' <= c <= 'f' then c as int - 'a' as int + 10
    else if 'A' <= c <= 'F' then c as int - 'A' as int + 10
    else 16
  }

  predicate IsDigitIn(c: char, base: nat) {
    DigitValue(c) < base
  }

  /** The length of the longest prefix of `s` made of digits of `base`. */
  function DigitRun(s: string, base: nat): (n: nat)
    ensures n <= |s|
    ensures forall i :: 0 <= i < n ==> IsDigitIn(s[i], base)
    ensures n < |s| ==> !IsDigitIn(s[n], base)
  {
    if s != [] && IsDigitIn(s[0], base) then 1 + DigitRun(s[1..], base) else 0
  }

  /** The number a string of digits of `base` denotes, most significant digit first. */
  function ValueOf(ds: string, base: nat): nat
    decreases |ds|
  {
    if ds == [] then 0
    else Shifted(ValueOf(ds[..|ds| - 1], base), base, DigitValue(ds[|ds| - 1]))
  }

  /** One more digit `d` after the value `v`. */
  function Shifted(v: nat, base: nat, d: nat): nat {
    v * base + d
  }

  /** The longest run of digits of `base` at the start of `w`; `NaN` when there is none. */
  function ParseDigits(w: string, base: nat): Option<nat> {
    var n := DigitRun(w, base);
    if n == 0 then None else Some(ValueOf(w[..n], base))
  }

  /** `"0x"` or `"0X"` at the start of `u`. */
  predicate HasHexPrefix(u: string) {
    |u| >= 2 && u[0] == '0' && (u[1] == 'x' || u[1] == 'X')
  }

  /** The unsigned part: with the radix left out a hexadecimal prefix selects base 16. */
  function ParseUnsigned(u: string, radix: Radix): Option<nat> {
    if radix == Unspecified && HasHexPrefix(u) then ParseDigits(u[2..], 16) else ParseDigits(u, 10)
  }

  function Negate(r: Option<nat>): Option<int> {
    if r.Some? then Some(0 - r.value as int) else None
  }

  /**
   * `parseInt(s, radix)`: skip leading white space, read an optional sign, then (radix left
   * out only) an optional "0x"/"0X" prefix, then the longest run of digits; no digit at all
   * gives `NaN`.
   */
  function ParseInt(s: string, radix: Radix): Option<int> {
    var t := TrimStart(s);
    if t != [] && t[0] == '-' then Negate(ParseUnsigned(t[1..], radix))
    else if t != [] && t[0] == '+' then
      var r := ParseUnsigned(t[1..], radix);
      if r.Some? then Some(r.value) else None
    else
      var r := ParseUnsigned(t, radix);
      if r.Some? then Some(r.value) else None
  }

  /** `parseInt(req.query[key], radix)`; an absent query parameter is `undefined`, which parses to `NaN`. */
  function ParseQuery(query: map<string, string>, key: string, radix: Radix): Option<int> {
    if key in query then ParseInt(query[key], radix) else None
  }

  /**
   * `parseInt(...) || fallback`: `NaN` and `0` both fall back, so the result is never 0
   * unless the fallback is.
   */
  function OrDefault(parsed: Option<int>, fallback: int): (r: int)
    ensures parsed.Some? && parsed.value != 0 ==> r == parsed.value
    ensures parsed.None? || parsed.value == 0 ==> r == fallback
    ensures fallback != 0 ==> r != 0
    ensures r == fallback || parsed == Some(r)
  {
    if parsed.Some? && parsed.value != 0 then parsed.value else fallback
  }

  lemma {:induction false} ValueOfDecimal(n: nat)
    ensures forall i :: 0 <= i < |DecimalString(n)| ==> IsDigitIn(DecimalString(n)[i], 10)
    ensures ValueOf(DecimalString(n), 10) == n
    decreases n
  {
    var ds := DecimalString(n);
    if n >= 10 {
      ValueOfDecimal(n / 10);
      assert ds[..|ds| - 1] == DecimalString(n / 10);
    }
  }

  lemma {:induction false} DigitRunOfDigits(ds: string, rest: string, base: nat)
    requires forall i :: 0 <= i < |ds| ==> IsDigitIn(ds[i], base)
    requires rest == [] || !IsDigitIn(rest[0], base)
    ensures DigitRun(ds + rest, base) == |ds|
    decreases |ds|
  {
    if ds != [] {
      assert (ds + rest)[1..] == ds[1..] + rest;
      DigitRunOfDigits(ds[1..], rest, base);
    } else {
      assert ds + rest == rest;
    }
  }

  lemma NoLeadingSpace(s: string)
    requires s != [] && !IsSpace(s[0])
    ensures TrimStart(s) == s
  {
  }

  lemma DigitsPrefix(ds: string, rest: string, base: nat)
    requires ds != []
    requires forall i :: 0 <= i < |ds| ==> IsDigitIn(ds[i], base)
    requires rest == [] || !IsDigitIn(rest[0], base)
    ensures ParseDigits(ds + rest, base) == Some(ValueOf(ds, base))
  {
    DigitRunOfDigits(ds, rest, base);
    assert (ds + rest)[..|ds|] == ds;
  }

  /**
   * Parsing stops at the first character that is not a digit, so the decimal rendering
   * of `n` followed by anything that does not start with a digit parses back to `n`,
   * with or without a radix.
   */
  lemma ParseDecimalPrefix(n: nat, rest: string, radix: Radix)
    requires rest == [] || !IsDigitIn(rest[0], 10)
    requires radix == Unspecified && rest != [] ==> rest[0] != 'x' && rest[0] != 'X'
    ensures ParseUnsigned(DecimalString(n) + rest, radix) == Some(n)
    ensures ParseInt(DecimalString(n) + rest, radix) == Some(n)
  {
    var ds := DecimalString(n);
    ValueOfDecimal(n);
    DigitsPrefix(ds, rest, 10);
    if radix == Unspecified {
      NoHexPrefix(n, rest);
    }
    assert ParseUnsigned(ds + rest, radix) == Some(n);
    UnsignedStart(ds + rest, radix);
  }

  /** A string that starts with a decimal digit has no space or sign to skip: `parseInt` reads its unsigned part. */
  lemma UnsignedStart(s: string, radix: Radix)
    requires s != [] && '0' <= s[0] <= '9'
    ensures ParseUnsigned(s, radix).Some? ==> ParseInt(s, radix) == Some(ParseUnsigned(s, radix).value)
    ensures ParseUnsigned(s, radix).None? ==> ParseInt(s, radix).None?
  {
    NoLeadingSpace(s);
  }

  /** A minus sign followed by a decimal digit negates the unsigned part after it. */
  lemma NegativeStart(s: string, radix: Radix)
    requires |s| >= 2 && s[0] == '-' && '0' <= s[1] <= '9'
    ensures ParseInt(s, radix) == Negate(ParseUnsigned(s[1..], radix))
  {
    NoLeadingSpace(s);
  }

  /** A decimal rendering starts with "0" only for zero, so it is hexadecimal-prefixed only when followed by "x" or "X". */
  lemma NoHexPrefix(n: nat, rest: string)
    requires rest != [] ==> rest[0] != 'x' && rest[0] != 'X'
    ensures !HasHexPrefix(DecimalString(n) + rest)
  {
    var ds := DecimalString(n);
    var s := ds + rest;
    if |s| >= 2 && s[0] == '0' {
      assert n == 0 && ds == "0";
      assert s[1] == rest[0];
    }
  }

  /** The round trip: `parseInt(String(n), 10) === n` for every integer. */
  lemma ParseIntString(n: int)
    ensures ParseInt(IntString(n), Decimal) == Some(n)
  {
    if n < 0 {
      ParseNegativeString(n);
    } else {
      ParsePlainDecimal(n);
    }
  }

  /** The round trip for a negative integer, whose rendering is "-" and the digits of its magnitude. */
  lemma ParseNegativeString(n: int)
    requires n < 0
    ensures ParseInt(IntString(n), Decimal) == Some(n)
  {
    var ds := DecimalString(-n);
    ParseMagnitude(-n);
    var s := "-" + ds;
    assert s[1..] == ds;
    MinusDigits(s, -n);
    assert IntString(n) == s;
  }

  /** The digits of `m` alone read back as `m`. */
  lemma ParseMagnitude(m: nat)
    ensures ParseUnsigned(DecimalString(m), Decimal) == Some(m)
  {
    ParseDecimalPrefix(m, [], Decimal);
    assert DecimalString(m) + [] == DecimalString(m);
  }

  /** A minus sign in front of digits that read as `m` reads as `-m`. */
  lemma MinusDigits(s: string, m: nat)
    requires |s| >= 2 && s[0] == '-' && '0' <= s[1] <= '9'
    requires ParseUnsigned(s[1..], Decimal) == Some(m)
    ensures ParseInt(s, Decimal) == Some(-(m as int))
  {
    NegativeStart(s, Decimal);
  }

  /** `parseInt(String(m), 10) === m`. */
  lemma ParsePlainDecimal(m: nat)
    ensures ParseInt(DecimalString(m), Decimal) == Some(m)
  {
    ParseDecimalPrefix(m, [], Decimal);
    assert DecimalString(m) + [] == DecimalString(m);
  }

  /** A "0x" prefix is hexadecimal when the radix is left out... */
  lemma HexPrefixWithoutRadix()
    ensures ParseInt("0x10", Unspecified) == Some(16)
  {
    var s := "0x10";
    assert HasHexPrefix(s) && s[2..] == "10";
    HexTen();
    UnsignedStart(s, Unspecified);
  }

  /** "10" in base 16 is sixteen. */
  lemma HexTen()
    ensures ParseDigits("10", 16) == Some(16)
  {
    assert ValueOf("10", 16) == 16 by {
      assert "10"[..1] == "1";
      assert "1"[..0] == [];
    }
    DigitsPrefix("10", [], 16);
    assert "10" + [] == "10";
  }

  /** ...and with radix 10 parsing stops at the "x". */
  lemma HexPrefixWithDecimalRadix()
    ensures ParseInt("0x10", Decimal) == Some(0)
  {
    DecimalStopsAtX();
    UnsignedStart("0x10", Decimal);
  }

  /** The decimal digits of "0x10" end before the "x". */
  lemma DecimalStopsAtX()
    ensures ParseDigits("0x10", 10) == Some(0)
  {
    assert "0x10"[1..] == "x10";
    assert DigitRun("x10", 10) == 0;
    assert DigitRun("0x10", 10) == 1;
    assert "0x10"[..1] == "0" && "0"[..0] == [];
    assert ValueOf("0", 10) == 0;
  }
}
