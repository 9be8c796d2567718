/** Python's `round(x, ndigits=6)`, taken on exact real numbers: the nearest
    multiple of one millionth, with an exact tie going to the even multiple
    (banker's rounding). */
module Rounding {

  /** Six decimal digits: one unit is a millionth. */
  const Scale: real := 1000000.0

  /** Half a millionth: the largest distance rounding moves a value. */
  const HalfUnit: real := 0.0000005

  /** `n` is the integer nearest to `y`, the even one on a tie. */
  predicate IsNearestEven(y: real, n: int) {
    -0.5 <= y - n as real <= 0.5 &&
    ((y - n as real == 0.5 || y - n as real == -0.5) ==> n % 2 == 0)
  }

  /** Round half to even, to an integer. */
  function RoundHalfEven(y: real): (n: int)
    ensures IsNearestEven(y, n)
  {
    var f := y.Floor;
    var d := y - f as real;
    if d < 0.5 then f
    else if d > 0.5 then f + 1
    else if f % 2 == 0 then f
    else f + 1
  }

  /** At most one integer is nearest-even to a real. */
  lemma NearestEvenUnique(y: real, n: int, m: int)
    requires IsNearestEven(y, n) && IsNearestEven(y, m)
    ensures n == m
  {
  }

  /** Rounding half to even is symmetric about zero. */
  lemma RoundHalfEvenNegate(y: real)
    ensures RoundHalfEven(-y) == -RoundHalfEven(y)
  {
    var n := RoundHalfEven(y);
    if n % 2 == 0 {
      assert -n == 2 * (-(n / 2));
    }
    assert IsNearestEven(-y, -n);
    NearestEvenUnique(-y, RoundHalfEven(-y), -n);
  }

  /** `round(x, ndigits=6)`: a whole number of millionths within half a
      millionth of `x`. */
  function Round6(x: real): (r: real)
    ensures -HalfUnit <= r - x <= HalfUnit
    ensures (r * Scale).Floor as real == r * Scale
  {
    RoundHalfEven(x * Scale) as real / Scale
  }

  /** `round(-x, 6) == -round(x, 6)`. */
  lemma Round6Negate(x: real)
    ensures Round6(-x) == -Round6(x)
  {
    assert -x * Scale == -(x * Scale);
    RoundHalfEvenNegate(x * Scale);
  }

  /** The sign of the rounded value: positive exactly above half a millionth,
      negative exactly below minus half a millionth, zero in between (the
      ties at plus and minus half a millionth go to the even value, zero). */
  lemma Round6Sign(x: real)
    ensures Round6(x) > 0.0 <==> x > HalfUnit
    ensures Round6(x) < 0.0 <==> x < -HalfUnit
    ensures Round6(x) == 0.0 <==> -HalfUnit <= x <= HalfUnit
  {
    var y := x * Scale;
    var n := RoundHalfEven(y);
    assert Round6(x) == n as real / Scale;
    assert x > HalfUnit <==> y > 0.5;
    assert x < -HalfUnit <==> y < -0.5;
    if y == 0.5 {
      assert n == 0 || n == 1;
      assert 1 % 2 == 1;
    }
    if y == -0.5 {
      assert n == 0 || n == -1;
      assert (-1) % 2 == 1;
    }
  }

  /** On a whole number of millionths, rounding changes nothing. */
  lemma Round6Exact(x: real)
    requires (x * Scale).Floor as real == x * Scale
    ensures Round6(x) == x
  {
    assert RoundHalfEven(x * Scale) == (x * Scale).Floor;
  }
}
