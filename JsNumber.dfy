/**
 * The two number/string conversions the pages rely on: `String(n)` for an
 * integer (the 404 page prints its countdown) and `parseInt(s, 10)` (the
 * submit page converts the port field).
 */
module JsNumber {

  predicate IsDigit(c: char)
  {
    '0' <= c <= '9'
  }

  predicate AllDigits(s: string)
  {
    forall i :: 0 <= i < |s| ==> IsDigit(s[i])
  }

  function DigitValue(c: char): (d: nat)
    requires IsDigit(c)
    ensures d < 10
  {
    c as int - '0' as int
  }

  function DigitChar(d: nat): (c: char)
    requires d < 10
    ensures IsDigit(c) && DigitValue(c) == d
  {
    ('0' as int + d) as char
  }

  /** `String(n)` for a non-negative integer: its decimal digits, without leading zeros. */
  function NatToString(n: nat): (s: string)
    ensures |s| > 0 && AllDigits(s)
    ensures |s| > 1 ==> s[0] != '0'
  {
    if n < 10 then [DigitChar(n)] else NatToString(n / 10) + [DigitChar(n % 10)]
  }

  /** `String(n)` for any integer: a minus sign before the digits of a negative number. */
  function IntToString(n: int): (s: string)
    ensures |s| > 0
    ensures s[0] == '-' <==> n < 0
  {
    if n < 0 then "-" + NatToString(-n) else NatToString(n)
  }

  /** The value of a run of decimal digits read most significant digit first. */
  function DigitsValue(s: string): nat
    requires AllDigits(s)
  {
    if s == [] then 0 else DigitsValue(s[..|s| - 1]) * 10 + DigitValue(s[|s| - 1])
  }

  /**
   * StrWhiteSpaceChar of ECMAScript: TAB, VT, FF, SP, NBSP, ZWNBSP, the
   * space separators (category Zs) and the line terminators LF, CR, LS, PS.
   */
  predicate IsWhiteSpace(c: char)
  {
    c == '\t' || c == '\n' || c == '\r' || c == ' '
    || c as int == 0x0B || c as int == 0x0C || c as int == 0xA0 || c as int == 0xFEFF
    || c as int == 0x1680 || 0x2000 <= c as int <= 0x200A || c as int == 0x2028
    || c as int == 0x2029 || c as int == 0x202F || c as int == 0x205F || c as int == 0x3000
  }

  /** `s` with its leading white space removed. */
  function TrimStart(s: string): (r: string)
    ensures |r| <= |s| && r == s[|s| - |r|..]
    ensures r == [] || !IsWhiteSpace(r[0])
    ensures forall i :: 0 <= i < |s| - |r| ==> IsWhiteSpace(s[i])
  {
    if s != [] && IsWhiteSpace(s[0]) then
      var r := TrimStart(s[1..]);
      assert forall i :: 0 < i < |s| - |r| ==> s[i] == s[1..][i - 1];
      r
    else s
  }

  /** The longest prefix of `s` made of decimal digits. */
  function LeadingDigits(s: string): (d: string)
    ensures |d| <= |s| && d == s[..|d|] && AllDigits(d)
    ensures |d| == |s| || !IsDigit(s[|d|])
  {
    if s != [] && IsDigit(s[0]) then [s[0]] + LeadingDigits(s[1..]) else []
  }

  /** The result of `parseInt`: an integer, or NaN when no digit could be read. */
  datatype Number = NaN | Int(value: int)

  /** The longest run of digits at the front of `u`, read as a number; NaN when there is none. */
  function ParseDigits(u: string): (r: Number)
    ensures r.NaN? <==> u == [] || !IsDigit(u[0])
    ensures r.Int? ==> r.value >= 0
  {
    var d := LeadingDigits(u);
    if d == [] then NaN else Int(DigitsValue(d))
  }

  /** `-x`, which leaves NaN as it is. */
  function Negate(x: Number): Number
  {
    match x
    case NaN => NaN
    case Int(v) => Int(-v)
  }

  /** An optional sign, then the digits. */
  function ParseSigned(t: string): Number
  {
    if t != [] && t[0] == '-' then Negate(ParseDigits(t[1..]))
    else if t != [] && t[0] == '+' then ParseDigits(t[1..])
    else ParseDigits(t)
  }

  /**
   * `parseInt(s, 10)`: skip leading white space, read an optional sign, then
   * the longest run of decimal digits; anything after the digits is ignored,
   * and no digit at all gives NaN.
   */
  function ParseInt(s: string): (r: Number)
    ensures r.NaN? <==> (var t := TrimStart(s);
      var u := if t != [] && (t[0] == '-' || t[0] == '+') then t[1..] else t;
      u == [] || !IsDigit(u[0]))
  {
    ParseSigned(TrimStart(s))
  }

  /** Reading back the digits `String(n)` writes gives `n`. */
  lemma {:induction false} DigitsOfNatToString(n: nat)
    ensures DigitsValue(NatToString(n)) == n
  {
    var s := NatToString(n);
    if n >= 10 {
      DigitsOfNatToString(n / 10);
      assert s[..|s| - 1] == NatToString(n / 10);
    }
  }

  /** The digit run at the front of `d + rest` is `d` itself when `rest` does not start with a digit. */
  lemma {:induction false} LeadingDigitsOfConcat(d: string, rest: string)
    requires AllDigits(d)
    requires rest == [] || !IsDigit(rest[0])
    ensures LeadingDigits(d + rest) == d
  {
    if d != [] {
      assert (d + rest)[1..] == d[1..] + rest;
      LeadingDigitsOfConcat(d[1..], rest);
    } else {
      assert d + rest == rest;
    }
  }

  /** Text that opens with a digit is read from its first character. */
  lemma ParseIntOfLeadingDigit(s: string)
    requires s != [] && IsDigit(s[0])
    ensures ParseInt(s) == ParseDigits(s)
  {
    assert !IsWhiteSpace(s[0]);
    assert TrimStart(s) == s;
  }

  /** Text that opens with a minus sign is read as the negated digits after it. */
  lemma ParseIntOfLeadingMinus(s: string)
    requires s != [] && s[0] == '-'
    ensures ParseInt(s) == Negate(ParseDigits(s[1..]))
  {
    assert !IsWhiteSpace(s[0]);
    assert TrimStart(s) == s;
  }

  /** Digits that open the text are read as they stand. */
  lemma ParseIntOfDigits(d: string, rest: string)
    requires d != [] && AllDigits(d)
    requires rest == [] || !IsDigit(rest[0])
    ensures ParseInt(d + rest) == Int(DigitsValue(d))
  {
    assert (d + rest)[0] == d[0];
    ParseIntOfLeadingDigit(d + rest);
    LeadingDigitsOfConcat(d, rest);
  }

  /** A minus sign before the opening digits negates them. */
  lemma ParseIntOfNegatedDigits(d: string, rest: string)
    requires d != [] && AllDigits(d)
    requires rest == [] || !IsDigit(rest[0])
    ensures ParseInt("-" + d + rest) == Int(-(DigitsValue(d) as int))
  {
    SignThenRest(d, rest);
    ParseIntOfLeadingMinus("-" + d + rest);
    LeadingDigitsOfConcat(d, rest);
  }

  lemma SignThenRest(d: string, rest: string)
    ensures ("-" + d + rest)[0] == '-' && ("-" + d + rest)[1..] == d + rest
  {
  }

  /**
   * `parseInt(String(n) + rest, 10) == n` for every integer `n`, as long as
   * `rest` does not begin with a digit: the text a number is printed into
   * gives the number back.
   */
  lemma ParseIntOfIntToString(n: int, rest: string)
    requires rest == [] || !IsDigit(rest[0])
    ensures ParseInt(IntToString(n) + rest) == Int(n)
  {
    if n < 0 {
      DigitsOfNatToString(-n);
      ParseIntOfNegatedDigits(NatToString(-n), rest);
    } else {
      DigitsOfNatToString(n);
      ParseIntOfDigits(NatToString(n), rest);
    }
  }
}
