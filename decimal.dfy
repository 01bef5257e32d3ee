/** Base-10 text of integers: Python's `str(int)` (used for the signing timestamp)
    and Python's `int(str)` (used on a StatusCode that arrives as a string). */
module Decimal {
  import opened Wrappers

  predicate IsDigit(c: char) { '0' <= c <= '9' }

  predicate AllDigits(s: string) { forall i :: 0 <= i < |s| ==> IsDigit(s[i]) }

  /** What `str(n)` produces for n >= 0: digits only, and no leading zero except in "0". */
  predicate Canonical(s: string)
  {
    |s| > 0 && AllDigits(s) && (s[0] == '0' ==> |s| == 1)
  }

  function DigitChar(d: nat): (c: char)
    requires d < 10
    ensures IsDigit(c)
  {
    ('0' as int + d) as char
  }

  function DigitValue(c: char): (d: nat)
    requires IsDigit(c)
    ensures d < 10 && DigitChar(d) == c
    ensures d == 0 <==> c == '0'
  {
    c as int - '0' as int
  }

  /** `str(n)` for a non-negative integer. */
  function DecimalString(n: nat): (s: string)
    ensures Canonical(s)
    ensures n < 10 <==> |s| == 1
  {
    if n < 10 then [DigitChar(n)]
    else DecimalString(n / 10) + [DigitChar(n % 10)]
  }

  /** The number a string of digits denotes, most significant digit first
      (leading zeros allowed, as `int("007") == 7`). */
  function DigitsValue(s: string): (n: nat)
    requires AllDigits(s)
  {
    if |s| == 0 then 0
    else DigitsValue(s[..|s| - 1]) * 10 + DigitValue(s[|s| - 1])
  }

  /** `int(str(n)) == n`. */
  lemma {:induction false} DigitsValueOfDecimalString(n: nat)
    ensures DigitsValue(DecimalString(n)) == n
  {
    if n >= 10 {
      DigitsValueOfDecimalString(n / 10);
      var s := DecimalString(n);
      assert s[..|s| - 1] == DecimalString(n / 10);
    }
  }

  lemma {:induction false} DigitsValuePositive(s: string)
    requires |s| > 0 && AllDigits(s) && s[0] != '0'
    ensures DigitsValue(s) > 0
  {
    if |s| > 1 {
      DigitsValuePositive(s[..|s| - 1]);
    }
  }

  /** `str(int(s)) == s` for every canonical digit string: `str` and `int` are
      inverse bijections between naturals and canonical strings. */
  lemma {:induction false} DecimalStringOfDigitsValue(s: string)
    requires Canonical(s)
    ensures DecimalString(DigitsValue(s)) == s
  {
    if |s| > 1 {
      var p := s[..|s| - 1];
      assert p[0] == s[0];
      DigitsValuePositive(p);
      DecimalStringOfDigitsValue(p);
      var n := DigitsValue(s);
      assert n / 10 == DigitsValue(p) && n % 10 == DigitValue(s[|s| - 1]);
      assert s == p + [s[|s| - 1]];
    }
  }

  /** `str(n)` is one-to-one: two instants never share a timestamp string. */
  lemma DecimalStringInjective(m: nat, n: nat)
    requires DecimalString(m) == DecimalString(n)
    ensures m == n
  {
    DigitsValueOfDecimalString(m);
    DigitsValueOfDecimalString(n);
  }

  /** Strings `int()` accepts in this model: an optional sign, then one or more digits. */
  predicate IntLiteral(s: string)
  {
    if |s| > 0 && (s[0] == '-' || s[0] == '+') then |s| > 1 && AllDigits(s[1..])
    else |s| > 0 && AllDigits(s)
  }

  /** `int(s)` for a string; None where Python raises ValueError. */
  function ParseInt(s: string): (r: Option<int>)
    ensures r.Some? <==> IntLiteral(s)
    ensures r.Some? && AllDigits(s) ==> r.value == DigitsValue(s)
    ensures r.Some? && (s[0] == '-' || s[0] == '+') ==>
              r.value == (if s[0] == '-' then -(DigitsValue(s[1..]) as int) else DigitsValue(s[1..]) as int)
  {
    if |s| > 0 && (s[0] == '-' || s[0] == '+') then
      if |s| > 1 && AllDigits(s[1..]) then
        var magnitude: int := DigitsValue(s[1..]);
        Some(if s[0] == '-' then -magnitude else magnitude)
      else None
    else if |s| > 0 && AllDigits(s) then Some(DigitsValue(s))
    else None
  }

  /** `str(i)` for any integer. */
  function IntString(i: int): (s: string)
    ensures IntLiteral(s)
    ensures i >= 0 ==> s == DecimalString(i)
  {
    if i < 0 then "-" + DecimalString(-i) else DecimalString(i)
  }

  /** `int(str(i)) == i` for every integer. */
  lemma ParseIntOfIntString(i: int)
    ensures ParseInt(IntString(i)) == Some(i)
  {
    var s := IntString(i);
    if i < 0 {
      var digits := DecimalString(-i);
      assert s == "-" + digits && s[0] == '-' && s[1..] == digits;
      DigitsValueOfDecimalString(-i);
      assert ParseInt(s).value == -(DigitsValue(digits) as int);
    } else {
      DigitsValueOfDecimalString(i);
      assert s[0] != '-' && s[0] != '+';
    }
  }

  /** A non-empty run of zeros denotes 0. */
  lemma {:induction false} ZerosValueZero(s: string)
    requires |s| > 0 && forall i :: 0 <= i < |s| ==> s[i] == '0'
    ensures DigitsValue(s) == 0
  {
    if |s| > 1 {
      ZerosValueZero(s[..|s| - 1]);
    }
  }

  /** The zero strings `int()` maps to 0, with or without a sign and with any number of zeros. */
  lemma ZerosParseToZero(s: string)
    requires |s| > 0 && forall i :: 0 <= i < |s| ==> s[i] == '0'
    ensures ParseInt(s) == Some(0)
    ensures ParseInt("-" + s) == Some(0)
    ensures ParseInt("+" + s) == Some(0)
  {
    ZerosValueZero(s);
    assert ("-" + s)[1..] == s;
    assert ("+" + s)[1..] == s;
  }
}
