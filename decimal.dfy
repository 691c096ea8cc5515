/**
 * Decimal text of integers, as Python's `str(n)` writes it and as Python's
 * `int(s)` reads it back.  The driver builds every numeric SCPI argument with
 * `str(n)` and reads the calibration code with `int(reply)`.
 */
module Decimal {
  import opened Wrappers

  predicate IsDigit(c: char) {
    '0' <= c <= '9'
  }

  function DigitChar(d: nat): (c: char)
    requires d < 10
    ensures IsDigit(c)
  {
    ('0' as int + d) as char
  }

  function DigitValue(c: char): (d: nat)
    requires IsDigit(c)
    ensures d < 10 && DigitChar(d) == c
  {
    c as int - '0' as int
  }

  predicate AllDigits(s: string) {
    forall i :: 0 <= i < |s| ==> IsDigit(s[i])
  }

  /** Python's `str(n)` for a non-negative integer: no sign, no leading zero. */
  function NatToString(n: nat): (s: string)
    ensures |s| >= 1 && AllDigits(s)
    ensures s[0] == '0' ==> n == 0 && s == "0"
  {
    if n < 10 then [DigitChar(n)] else NatToString(n / 10) + [DigitChar(n % 10)]
  }

  /** Python's `str(i)` for any integer: a `-` before the digits of a negative one. */
  function IntToString(i: int): (s: string)
    ensures |s| >= 1
    ensures i < 0 <==> s[0] == '-'
    ensures forall k :: 0 < k < |s| ==> IsDigit(s[k])
  {
    if i < 0 then "-" + NatToString(-i) else NatToString(i)
  }

  /** The value of a string of decimal digits, most significant first. */
  function DigitsValue(s: string): nat
    requires AllDigits(s)
  {
    if s == [] then 0 else DigitsValue(s[..|s| - 1]) * 10 + DigitValue(s[|s| - 1])
  }

  lemma {:induction false} DigitsValueOfNatToString(n: nat)
    ensures DigitsValue(NatToString(n)) == n
  {
    var s := NatToString(n);
    if n >= 10 {
      DigitsValueOfNatToString(n / 10);
      assert s[..|s| - 1] == NatToString(n / 10);
    }
  }

  /**
   * The ASCII characters that Python's `int()` skips around its argument:
   * space, tab, line feed, vertical tab, form feed and carriage return.
   */
  predicate IsSpace(c: char) {
    c == ' ' || 9 <= c as int <= 13
  }

  predicate AllSpace(w: string) {
    forall i :: 0 <= i < |w| ==> IsSpace(w[i])
  }

  function StripLeft(s: string): (r: string)
    ensures |r| <= |s| && r == s[|s| - |r|..]
    ensures r != [] ==> !IsSpace(r[0])
  {
    if s != [] && IsSpace(s[0]) then StripLeft(s[1..]) else s
  }

  function StripRight(s: string): (r: string)
    ensures |r| <= |s| && r == s[..|r|]
    ensures r != [] ==> !IsSpace(r[|r| - 1])
  {
    if s != [] && IsSpace(s[|s| - 1]) then StripRight(s[..|s| - 1]) else s
  }

  /**
   * A run of digits as Python's `int()` accepts it in base 10: it starts and
   * ends with a digit, and single underscores may separate digits.
   */
  predicate IsDigitRun(s: string) {
    && |s| >= 1
    && IsDigit(s[0])
    && IsDigit(s[|s| - 1])
    && (forall i :: 0 <= i < |s| ==> IsDigit(s[i]) || s[i] == '_')
    && (forall i :: 0 <= i < |s| - 1 ==> IsDigit(s[i]) || IsDigit(s[i + 1]))
  }

  function RemoveUnderscores(s: string): (r: string)
    requires forall i :: 0 <= i < |s| ==> IsDigit(s[i]) || s[i] == '_'
    ensures AllDigits(r)
    ensures AllDigits(s) ==> r == s
  {
    if s == [] then []
    else if s[0] == '_' then RemoveUnderscores(s[1..])
    else [s[0]] + RemoveUnderscores(s[1..])
  }

  function ParseDigitRun(s: string): (r: Option<nat>)
    ensures r.Some? <==> IsDigitRun(s)
  {
    if IsDigitRun(s) then Some(DigitsValue(RemoveUnderscores(s))) else None
  }

  /**
   * Python's `int(s)` in base 10: surrounding whitespace is stripped, an
   * optional sign is read, then a run of digits; `None` stands for the
   * `ValueError` Python raises on any other text.
   */
  function ParseInt(s: string): (r: Option<int>)
    ensures r.Some? ==> exists k :: 0 <= k < |s| && IsDigit(s[k])
  {
    var t := StripRight(StripLeft(s));
    var r := ParseSigned(t);
    if r.Some? then
      var k :| 0 <= k < |t| && IsDigit(t[k]);
      assert IsDigit(s[|s| - |StripLeft(s)| + k]);
      r
    else r
  }

  /** An optional sign and a run of digits, with nothing around them. */
  function ParseSigned(t: string): (r: Option<int>)
    ensures r.Some? ==> exists k :: 0 <= k < |t| && IsDigit(t[k])
  {
    if t != [] && (t[0] == '-' || t[0] == '+') then
      match ParseDigitRun(t[1..])
      case None => None
      case Some(v) =>
        assert IsDigit(t[1]);
        var value: int := if t[0] == '-' then 0 - v else v;
        Some(value)
    else
      match ParseDigitRun(t)
      case None => None
      case Some(v) => assert IsDigit(t[0]); Some(v)
  }

  /** A digit string of `str`'s making is one run of digits worth its value. */
  lemma ParseDigitRunOfNatToString(n: nat)
    ensures ParseDigitRun(NatToString(n)) == Some(n)
  {
    var digits := NatToString(n);
    DigitsValueOfNatToString(n);
    assert IsDigitRun(digits);
  }

  /** Leading whitespace is skipped up to the first other character. */
  lemma {:induction false} StripLeftSpaces(w: string, s: string)
    requires AllSpace(w) && s != [] && !IsSpace(s[0])
    ensures StripLeft(w + s) == s
  {
    if w != [] {
      assert (w + s)[1..] == w[1..] + s;
      StripLeftSpaces(w[1..], s);
    }
  }

  /** Trailing whitespace is skipped back to the last other character. */
  lemma {:induction false} StripRightSpaces(s: string, w: string)
    requires AllSpace(w) && s != [] && !IsSpace(s[|s| - 1])
    ensures StripRight(s + w) == s
  {
    if w != [] {
      assert (s + w)[..|s + w| - 1] == s + w[..|w| - 1];
      StripRightSpaces(s, w[..|w| - 1]);
    } else {
      assert s + w == s;
    }
  }

  /** Whitespace around text that neither starts nor ends with whitespace is stripped, and nothing else. */
  lemma StripAround(w1: string, s: string, w2: string)
    requires AllSpace(w1) && AllSpace(w2)
    requires s != [] && !IsSpace(s[0]) && !IsSpace(s[|s| - 1])
    ensures StripRight(StripLeft(w1 + s + w2)) == s
  {
    assert w1 + s + w2 == w1 + (s + w2);
    StripLeftSpaces(w1, s + w2);
    StripRightSpaces(s, w2);
  }

  lemma NegativeRoundTrip(i: int)
    requires i < 0
    ensures ParseSigned(IntToString(i)) == Some(i)
  {
    var t := IntToString(i);
    ParseDigitRunOfNatToString(-i);
    assert t[1..] == NatToString(-i);
    assert ParseDigitRun(t[1..]) == Some(-i);
    assert t[0] == '-';
  }

  lemma NonNegativeRoundTrip(i: int)
    requires i >= 0
    ensures ParseSigned(IntToString(i)) == Some(i)
  {
    var t := IntToString(i);
    var n: nat := i;
    assert t == NatToString(n);
    ParseDigitRunOfNatToString(n);
    assert t[0] != '-' && t[0] != '+';
    assert ParseDigitRun(t) == Some(i);
  }

  /**
   * Python's `int` reads the decimal text of a number back as that number,
   * whatever whitespace surrounds it (a reply that ends in a newline, say).
   */
  lemma PaddedRoundTrip(w1: string, i: int, w2: string)
    requires AllSpace(w1) && AllSpace(w2)
    ensures ParseInt(w1 + IntToString(i) + w2) == Some(i)
  {
    var s := IntToString(i);
    StripAround(w1, s, w2);
    if i < 0 {
      NegativeRoundTrip(i);
    } else {
      NonNegativeRoundTrip(i);
    }
  }

  /** Reading back what `str` wrote gives the number: `int(str(i)) == i`. */
  lemma IntToStringRoundTrip(i: int)
    ensures ParseInt(IntToString(i)) == Some(i)
  {
    var s := IntToString(i);
    assert [] + s + [] == s;
    PaddedRoundTrip([], i, []);
  }

  /** `str` is injective on integers: distinct numbers give distinct text. */
  lemma IntToStringInjective(i: int, j: int)
    requires IntToString(i) == IntToString(j)
    ensures i == j
  {
    IntToStringRoundTrip(i);
    IntToStringRoundTrip(j);
  }
}
