/**
  Python's `round(x, 2)`, taken on exact reals: the value is rounded to
  the nearest hundredth, and a value exactly half-way between two
  hundredths goes to the one whose last digit is even (banker's rounding).
  Binary floating point is not modelled.
 */
module Rounding {

  /** The integer nearest to `y`; at an exact half the even neighbour. */
  function RoundHalfEven(y: real): int
  {
    var f := y.Floor;
    var frac := y - f as real;
    if frac < 0.5 then f
    else if frac > 0.5 then f + 1
    else if f % 2 == 0 then f
    else f + 1
  }

  /**
    Round-half-even stated without computing it: the result is at most a
    half away, and exactly a half away only when it is even.
   */
  lemma RoundHalfEvenSpec(y: real)
    ensures -0.5 <= RoundHalfEven(y) as real - y <= 0.5
    ensures (RoundHalfEven(y) as real - y == 0.5 || y - RoundHalfEven(y) as real == 0.5)
            ==> RoundHalfEven(y) % 2 == 0
  {
  }

  /** The two properties above pin the rounded integer down uniquely. */
  lemma RoundHalfEvenUnique(y: real, k: int)
    requires -0.5 <= k as real - y <= 0.5
    requires (k as real - y == 0.5 || y - k as real == 0.5) ==> k % 2 == 0
    ensures k == RoundHalfEven(y)
  {
    RoundHalfEvenSpec(y);
  }

  /** `round(x, 2)`. */
  function Round2(x: real): real
  {
    RoundHalfEven(x * 100.0) as real / 100.0
  }

  /** A hundredth-multiple: what `Round2` always yields. */
  predicate IsHundredths(x: real)
  {
    (x * 100.0).Floor as real == x * 100.0
  }

  /** The rounded value is a whole number of hundredths within half a hundredth of `x`. */
  lemma Round2Near(x: real)
    ensures IsHundredths(Round2(x))
    ensures -0.005 <= Round2(x) - x <= 0.005
  {
    var y := x * 100.0;
    var k := RoundHalfEven(y);
    RoundHalfEvenSpec(y);
    var r := Round2(x);
    assert r == k as real / 100.0;
    assert r * 100.0 == k as real;
    assert (r * 100.0).Floor == k;
  }

  /** Rounding leaves an amount that already has two decimals unchanged. */
  lemma Round2OfHundredths(x: real)
    requires IsHundredths(x)
    ensures Round2(x) == x
  {
    var k := (x * 100.0).Floor;
    RoundHalfEvenUnique(x * 100.0, k);
  }

  /** Rounding twice is rounding once. */
  lemma Round2Idempotent(x: real)
    ensures Round2(Round2(x)) == Round2(x)
  {
    Round2Near(x);
    Round2OfHundredths(Round2(x));
  }

  /** Rounding never reverses the order of two amounts. */
  lemma RoundHalfEvenMonotone(y: real, z: real)
    requires y <= z
    ensures RoundHalfEven(y) <= RoundHalfEven(z)
  {
    var fy, fz := y.Floor, z.Floor;
    if fy == fz {
      assert y - fy as real <= z - fz as real;
    } else {
      assert fy < fz;
      assert RoundHalfEven(y) <= fy + 1 <= fz <= RoundHalfEven(z);
    }
  }

  lemma Round2Monotone(x: real, y: real)
    requires x <= y
    ensures Round2(x) <= Round2(y)
  {
    RoundHalfEvenMonotone(x * 100.0, y * 100.0);
  }

  /** Half-way cases go to the even hundredth, in both directions. */
  lemma Round2HalfWayCases()
    ensures Round2(0.125) == 0.12
    ensures Round2(0.135) == 0.14
    ensures Round2(-0.125) == -0.12
  {
    assert RoundHalfEven(12.5) == 12 by { assert (12.5).Floor == 12; }
    assert RoundHalfEven(13.5) == 14 by { assert (13.5).Floor == 13; }
    assert RoundHalfEven(-12.5) == -12 by { assert (-12.5).Floor == -13; }
  }
}
