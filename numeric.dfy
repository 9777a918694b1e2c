/**
 * The Python built-ins the agents apply to numbers: `round(x, 2)`, `int(x)`
 * and `str(n)` for an integer. Numbers are exact reals here; binary floating
 * point is not modelled.
 */
module Numeric {

  /** Python's `round` to an integer on an exact value: nearest integer, ties to even. */
  function RoundHalfEven(c: real): (n: int)
    ensures -0.5 <= n as real - c <= 0.5
    ensures n as real - c == 0.5 || n as real - c == -0.5 ==> n % 2 == 0
  {
    var f := c.Floor;
    var frac := c - f as real;
    if frac < 0.5 then f
    else if frac > 0.5 then f + 1
    else if f % 2 == 0 then f
    else f + 1
  }

  /** `round(x, 2)`: the nearest multiple of 0.01, ties to the even cent. */
  function Round2(x: real): (r: real)
    ensures -0.005 <= r - x <= 0.005
    ensures IsCents(r)
  {
    var n := RoundHalfEven(x * 100.0);
    var r := n as real / 100.0;
    assert r * 100.0 == n as real;
    assert r - x == (n as real - x * 100.0) / 100.0;
    assert (r * 100.0).Floor == n;
    r
  }

  /** `r` is a whole number of cents. */
  predicate IsCents(r: real) {
    (r * 100.0).Floor as real == r * 100.0
  }

  /** A value that already is a whole number of cents is left unchanged by `round(·, 2)`. */
  lemma Round2Cents(x: real)
    requires IsCents(x)
    ensures Round2(x) == x
  {
    var c := x * 100.0;
    assert c.Floor as real == c;
    assert RoundHalfEven(c) == c.Floor;
  }

  /** `int(x)` on a number: truncation toward zero. */
  function Trunc(x: real): (n: int)
    ensures 0.0 <= x ==> 0 <= n && n as real <= x < n as real + 1.0
    ensures x < 0.0 ==> n <= 0 && n as real - 1.0 < x <= n as real
  {
    if x >= 0.0 then x.Floor else -((-x).Floor)
  }

  // ---------------------------------------------------------------------------
  // str(n) for an integer n, and the parser that undoes it.

  predicate IsDigit(c: char) {
    '0' <= c <= '9'
  }

  predicate IsDigits(s: string) {
    forall i :: 0 <= i < |s| ==> IsDigit(s[i])
  }

  function DigitChar(d: nat): (c: char)
    requires d < 10
    ensures IsDigit(c) && (c as int) - ('0' as int) == d
  {
    ((('0' as int) + d) as char)
  }

  /** Decimal digits of `n`, most significant first, no leading zero. */
  function NatToString(n: nat): string
    decreases n
  {
    if n < 10 then [DigitChar(n)] else NatToString(n / 10) + [DigitChar(n % 10)]
  }

  /** `str(i)` for a Python int. */
  function IntToString(i: int): string {
    if i < 0 then "-" + NatToString(-i) else NatToString(i)
  }

  /** The value of a string of decimal digits. */
  function DigitsValue(s: string): nat
    requires IsDigits(s)
  {
    if s == [] then 0
    else DigitsValue(s[..|s| - 1]) * 10 + ((s[|s| - 1] as int) - ('0' as int))
  }

  /** A Python integer literal: an optional minus sign and at least one digit. */
  predicate IsIntLiteral(s: string) {
    if |s| > 0 && s[0] == '-' then |s| > 1 && IsDigits(s[1..]) else |s| > 0 && IsDigits(s)
  }

  /** `int(s)` on an integer literal. */
  function ParseInt(s: string): int
    requires IsIntLiteral(s)
  {
    if s[0] == '-' then -(DigitsValue(s[1..]) as int) else DigitsValue(s)
  }

  lemma {:induction false} NatToStringDigits(n: nat)
    ensures |NatToString(n)| > 0 && IsDigits(NatToString(n))
    ensures DigitsValue(NatToString(n)) == n
    ensures NatToString(n)[0] == '0' ==> n == 0
    decreases n
  {
    if n >= 10 {
      NatToStringDigits(n / 10);
      var s := NatToString(n / 10) + [DigitChar(n % 10)];
      assert s[..|s| - 1] == NatToString(n / 10);
    }
  }

  /** `str` on integers is undone by `int`: the id of a campaign determines its number. */
  lemma IntToStringRoundTrip(i: int)
    ensures IsIntLiteral(IntToString(i))
    ensures ParseInt(IntToString(i)) == i
  {
    if i < 0 {
      NatToStringDigits(-i);
      assert IntToString(i)[1..] == NatToString(-i);
    } else {
      NatToStringDigits(i);
    }
  }

  /** Different integers have different string forms. */
  lemma IntToStringInjective(i: int, j: int)
    requires IntToString(i) == IntToString(j)
    ensures i == j
  {
    IntToStringRoundTrip(i);
    IntToStringRoundTrip(j);
  }
}
