/**
 * The pieces of Swift's numeric semantics the app relies on, over unbounded
 * `int` and exact `real` (Double is modelled as `real`).
 */
module Numerics {
  import opened Wrappers

  /** Swift's `Int(x)` for a Double: the integer part, rounding toward zero. */
  function Trunc(x: real): (r: int)
    ensures 0.0 <= x ==> r as real <= x < r as real + 1.0
    ensures x < 0.0 ==> r as real - 1.0 < x <= r as real
  {
    if x >= 0.0 then x.Floor else -((-x).Floor)
  }

  /** Swift's `x.rounded()`: the nearest integer, ties away from zero. */
  function RoundHalfAway(x: real): (r: int)
    ensures 0.0 <= x ==> x - 0.5 < r as real <= x + 0.5
    ensures x < 0.0 ==> x - 0.5 <= r as real < x + 0.5
  {
    if x >= 0.0 then (x + 0.5).Floor else -((-x + 0.5).Floor)
  }

  lemma TruncMonotone(x: real, y: real)
    requires x <= y
    ensures Trunc(x) <= Trunc(y)
  {
  }

  lemma RoundHalfAwayMonotone(x: real, y: real)
    requires x <= y
    ensures RoundHalfAway(x) <= RoundHalfAway(y)
  {
  }

  /** Swift's `a / b` on Int for a positive divisor: the quotient rounded toward zero. */
  function TruncDiv(a: int, b: int): (q: int)
    requires b > 0
    ensures 0 <= a ==> 0 <= q && 0 <= a - q * b < b
    ensures a < 0 ==> q <= 0 && -b < a - q * b <= 0
  {
    if a >= 0 then
      DivBounds(a, b);
      a / b
    else
      var p := (-a) / b;
      DivBounds(-a, b);
      NegTimes(p, b);
      -p
  }

  /** Euclidean division of a non-negative number leaves a remainder below the divisor. */
  lemma DivBounds(n: int, b: int)
    requires n >= 0 && b > 0
    ensures 0 <= n - (n / b) * b < b
  {
    assert n == b * (n / b) + n % b;
  }

  lemma NegTimes(p: int, b: int)
    ensures (-p) * b == -(p * b)
  {
  }

  // ---- "\(n)": the decimal text of an Int, and its parse-back partner ----

  predicate IsDigit(c: char) {
    '0' <= c <= '9'
  }

  predicate AllDigits(s: string) {
    forall i :: 0 <= i < |s| ==> IsDigit(s[i])
  }

  function DigitChar(d: nat): (c: char)
    requires d < 10
    ensures IsDigit(c)
  {
    (d + '0' as int) as char
  }

  function DigitValue(c: char): (d: nat)
    requires IsDigit(c)
    ensures d < 10
  {
    c as int - '0' as int
  }

  /** The digits of a natural number, most significant first, without leading zeros. */
  function NatDigits(n: nat): (s: string)
    ensures |s| >= 1 && AllDigits(s)
  {
    if n < 10 then [DigitChar(n)] else NatDigits(n / 10) + [DigitChar(n % 10)]
  }

  /** The value of a string of decimal digits, read most significant first. */
  function DigitsValue(s: string): nat
    requires AllDigits(s)
  {
    if s == [] then 0 else DigitsValue(s[..|s| - 1]) * 10 + DigitValue(s[|s| - 1])
  }

  lemma {:induction false} NatDigitsRoundTrip(n: nat)
    ensures DigitsValue(NatDigits(n)) == n
  {
    var s := NatDigits(n);
    if n >= 10 {
      NatDigitsRoundTrip(n / 10);
      assert s[..|s| - 1] == NatDigits(n / 10);
    }
  }

  /** Reads back an optionally signed decimal integer; None when `s` is not one. */
  function ParseDecimal(s: string): Option<int> {
    if |s| >= 2 && s[0] == '-' && AllDigits(s[1..]) then Some(0 - DigitsValue(s[1..]))
    else if |s| >= 1 && AllDigits(s) then Some(DigitsValue(s))
    else None
  }

  /** Swift's string interpolation of an Int: reading the text back gives the number. */
  function Decimal(n: int): (s: string)
    ensures ParseDecimal(s) == Some(n)
    ensures |s| >= 1 && (IsDigit(s[0]) || s[0] == '-') && AllDigits(s[1..])
  {
    if n < 0 then
      NatDigitsRoundTrip(-n);
      var s := "-" + NatDigits(-n);
      assert s[1..] == NatDigits(-n);
      s
    else
      NatDigitsRoundTrip(n);
      NatDigits(n)
  }

  lemma DecimalInjective(m: int, n: int)
    requires Decimal(m) == Decimal(n)
    ensures m == n
  {
    assert ParseDecimal(Decimal(m)) == Some(m);
  }

  /** A string that holds a character that is neither a digit nor, at the front, '-' is no number. */
  lemma {:induction false} ParseDecimalRejects(s: string, i: int)
    requires 0 < i < |s| && !IsDigit(s[i])
    ensures ParseDecimal(s) == None
  {
    assert s[1..][i - 1] == s[i];
  }
}
