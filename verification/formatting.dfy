/** `Number.prototype.toFixed(1)` on an exact value: the sign, the decimal
    digits of the integer part, a point and one digit of tenths, the tenths
    rounded to the nearest with ties away from zero (section 21.1.3.3 of
    ECMA-262: the larger of two equally near candidates is taken for the
    magnitude). */
module Formatting {

  predicate IsDigit(c: char)
  {
    '0' <= c <= '9'
  }

  predicate AllDigits(s: string)
  {
    forall i :: 0 <= i < |s| ==> IsDigit(s[i])
  }

  function DigitChar(d: nat): (c: char)
    requires d < 10
    ensures IsDigit(c)
  {
    "0123456789"[d]
  }

  function DigitValue(c: char): nat
    requires IsDigit(c)
  {
    (c as int - '0' as int) as nat
  }

  /** The value a string of decimal digits denotes. */
  function DigitsValue(s: string): nat
    requires AllDigits(s)
  {
    if s == [] then 0 else 10 * DigitsValue(s[..|s| - 1]) + DigitValue(s[|s| - 1])
  }

  /** The shortest decimal digits of `n`. */
  function Digits(n: nat): (s: string)
    ensures |s| >= 1 && AllDigits(s)
    ensures n < 10 <==> |s| == 1
    ensures n >= 10 ==> s[0] != '0'
  {
    if n < 10 then [DigitChar(n)] else Digits(n / 10) + [DigitChar(n % 10)]
  }

  lemma DigitRoundTrip(d: nat)
    requires d < 10
    ensures DigitValue(DigitChar(d)) == d
  {
  }

  /** Reading the digits back gives the number. */
  lemma {:induction false} DigitsRoundTrip(n: nat)
    ensures DigitsValue(Digits(n)) == n
  {
    var s := Digits(n);
    if n < 10 {
      DigitRoundTrip(n);
      assert s[..0] == [];
    } else {
      DigitsRoundTrip(n / 10);
      DigitRoundTrip(n % 10);
      assert s[..|s| - 1] == Digits(n / 10);
    }
  }

  function Abs(x: real): real
  {
    if x < 0.0 then -x else x
  }

  /** The nearest whole number to a non-negative `y`, halves rounded up. */
  function RoundHalfUp(y: real): (m: nat)
    requires y >= 0.0
    ensures (m as real) - 0.5 <= y < (m as real) + 0.5
  {
    (y + 0.5).Floor
  }

  /** The magnitude of `x` in tenths, as `toFixed(1)` rounds it. */
  function MagnitudeTenths(x: real): nat
  {
    RoundHalfUp(10.0 * Abs(x))
  }

  /** The tenths a well-formed unsigned `d...d.d` text denotes. */
  predicate WellFormedUnsigned(body: string)
  {
    |body| >= 3 && body[|body| - 2] == '.' && IsDigit(body[|body| - 1]) && AllDigits(body[..|body| - 2])
  }

  function TenthsOf(body: string): nat
    requires WellFormedUnsigned(body)
  {
    10 * DigitsValue(body[..|body| - 2]) + DigitValue(body[|body| - 1])
  }

  /** `x.toFixed(1)`: a minus sign exactly for negative `x`, then a
      well-formed unsigned text denoting the magnitude of `x` rounded to the
      nearest tenth, with no leading zero before a second integer digit. */
  function ToFixed1(x: real): (s: string)
    ensures (|s| > 0 && s[0] == '-') <==> x < 0.0
    ensures var body := if x < 0.0 then s[1..] else s;
      WellFormedUnsigned(body) && TenthsOf(body) == MagnitudeTenths(x)
      && (|body| == 3 || body[0] != '0')
  {
    var m := MagnitudeTenths(x);
    var body := Digits(m / 10) + "." + [DigitChar(m % 10)];
    UnsignedText(m);
    assert body[0] == Digits(m / 10)[0];
    var s := (if x < 0.0 then "-" else "") + body;
    assert (if x < 0.0 then s[1..] else s) == body;
    s
  }

  lemma UnsignedText(m: nat)
    ensures var body := Digits(m / 10) + "." + [DigitChar(m % 10)];
      WellFormedUnsigned(body) && TenthsOf(body) == m && body[0] != '-'
  {
    var d, c := Digits(m / 10), DigitChar(m % 10);
    DigitsRoundTrip(m / 10);
    DigitRoundTrip(m % 10);
    PointText(d, c);
  }

  /** `d.c` is well formed and denotes `10 * d + c` tenths. */
  lemma PointText(d: string, c: char)
    requires |d| >= 1 && AllDigits(d) && IsDigit(c)
    ensures var body := d + "." + [c];
      WellFormedUnsigned(body) && TenthsOf(body) == 10 * DigitsValue(d) + DigitValue(c) && body[0] != '-'
  {
    var body := d + "." + [c];
    assert body[..|body| - 2] == d;
    assert body[|body| - 2] == '.' && body[|body| - 1] == c;
    assert body[0] == d[0];
  }
}
