/** The Kotlin numeric conversions the chart code uses, stated on unbounded reals and integers. */
module Numerics {

  /** Kotlin's 64-bit `Long`, used for the time-series dates. */
  newtype Long = x: int | -0x8000_0000_0000_0000 <= x < 0x8000_0000_0000_0000

  function Abs(r: real): (a: real)
    ensures a >= 0.0 && (a == r || a == -r)
  {
    if r < 0.0 then -r else r
  }

  /** `Float.roundToInt()`: the nearest integer, ties rounded towards positive infinity. */
  function RoundToInt(r: real): (n: int)
    ensures n as real - 0.5 <= r < n as real + 0.5
  {
    (r + 0.5).Floor
  }

  /** `Float.toInt()`: the integer part, rounding towards zero. */
  function Trunc(r: real): (n: int)
    ensures 0.0 <= r ==> 0 <= n && n as real <= r < n as real + 1.0
    ensures r < 0.0 ==> n <= 0 && n as real - 1.0 < r <= n as real
  {
    if r >= 0.0 then r.Floor else -((-r).Floor)
  }

  /** The whole multiple `k * b`. */
  function Multiple(k: int, b: real): real
  {
    k as real * b
  }

  /** Float `%`: the remainder of a truncating division, carrying the sign of the dividend. */
  function Rem(a: real, b: real): (r: real)
    requires b != 0.0
    ensures 0.0 <= a ==> 0.0 <= r < Abs(b)
    ensures a < 0.0 ==> -Abs(b) < r <= 0.0
    ensures exists k: int :: a - r == Multiple(k, b)
  {
    var q := Trunc(a / b);
    TruncQuotientBounds(a, b);
    assert a - (a - b * q as real) == Multiple(q, b);
    a - b * q as real
  }

  /** The product `b * Trunc(a / b)` lies between zero and `a`, less than one `|b|` away from it. */
  lemma TruncQuotientBounds(a: real, b: real)
    requires b != 0.0
    ensures var m := b * Trunc(a / b) as real;
      (0.0 <= a ==> 0.0 <= a - m < Abs(b)) && (a < 0.0 ==> -Abs(b) < a - m <= 0.0)
  {
    var q := a / b;
    var t := Trunc(q) as real;
    var d := q - t;
    var e := a - b * t;
    assert a == b * q;
    assert e == d * b;
    if b > 0.0 {
      if a >= 0.0 {
        assert q >= 0.0;
        ScaledFraction(d, b, e);
        assert 0.0 <= e < b;
      } else {
        assert q < 0.0;
        ScaledFraction(-d, b, -e);
        assert -b < e <= 0.0;
      }
    } else {
      if a >= 0.0 {
        assert q <= 0.0;
        ScaledFraction(-d, -b, e);
        assert 0.0 <= e < -b;
      } else {
        assert q > 0.0;
        ScaledFraction(d, -b, -e);
        assert b < e <= 0.0;
      }
    }
  }

  /** A fraction in [0, 1) of a positive quantity stays in [0, that quantity). */
  lemma ScaledFraction(f: real, b: real, e: real)
    requires 0.0 <= f < 1.0 && b > 0.0 && e == f * b
    ensures 0.0 <= e < b
  {
  }
}
