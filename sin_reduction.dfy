/** The double-precision constants of the sine family and the argument
    handling the CORDIC and Chebyshev variants share: the snap of inputs next
    to +-pi to an exact zero, and the reduction of any angle into [-pi, pi] by
    Java's `%` followed by one correction of a whole turn. */
module SinReduction {
  import opened JavaNumerics

  /** `Math.PI`, as the exact rational its decimal expansion names. */
  const MATH_PI: real := 3.141592653589793
  const MATH_TWO_PI: real := 2.0 * MATH_PI
  const MATH_HALF_PI: real := MATH_PI / 2.0

  /** Inputs closer than this to pi or -pi are answered with exactly 0. */
  const PI_SNAP_EPSILON: real := 1e-14

  predicate NearPi(x: real)
  {
    Abs(x - MATH_PI) < PI_SNAP_EPSILON || Abs(x + MATH_PI) < PI_SNAP_EPSILON
  }

  /** `x % MATH_TWO_PI`, then one whole turn added or removed when the
      remainder left [-pi, pi]. */
  function ReduceAngle(x: real): (r: real)
    ensures -MATH_PI <= r <= MATH_PI
    ensures x >= 0.0 ==> r > -MATH_PI
    ensures x <= 0.0 ==> r < MATH_PI
  {
    var rem := JavaRem(x, MATH_TWO_PI);
    if rem > MATH_PI then rem - MATH_TWO_PI
    else if rem < -MATH_PI then rem + MATH_TWO_PI
    else rem
  }

  /** The reduction removes a whole number of turns. */
  lemma ReduceAngleRemovesWholeTurns(x: real) returns (turns: int)
    ensures x - ReduceAngle(x) == turns as real * MATH_TWO_PI
  {
    var rem := JavaRem(x, MATH_TWO_PI);
    var q := Truncate(x / MATH_TWO_PI);
    assert x - rem == q as real * MATH_TWO_PI;
    if rem > MATH_PI {
      turns := q + 1;
    } else if rem < -MATH_PI {
      turns := q - 1;
    } else {
      turns := q;
    }
  }

  /** Angles already in [-pi, pi] pass through the reduction unchanged. */
  lemma ReduceAngleFixesPrincipalRange(x: real)
    requires -MATH_PI <= x <= MATH_PI
    ensures ReduceAngle(x) == x
  {
    var q := Truncate(x / MATH_TWO_PI);
    if x >= 0.0 {
      assert x / MATH_TWO_PI < 1.0;
    } else {
      assert x / MATH_TWO_PI > -1.0;
    }
    assert q == 0;
  }

  /** Reduction commutes with negation. */
  lemma ReduceAngleIsOdd(x: real)
    ensures ReduceAngle(-x) == -ReduceAngle(x)
  {
    JavaRemIsOdd(x, MATH_TWO_PI);
  }

  /** Two angles in [-pi, pi] that differ by whole turns are equal unless they
      are the two ends of that interval. */
  lemma SameTurnClass(a: real, b: real, n: int)
    requires -MATH_PI < a < MATH_PI && -MATH_PI <= b <= MATH_PI
    requires b - a == n as real * MATH_TWO_PI
    ensures a == b
  {
    if n != 0 {
      assert false;
    }
  }

  /** Away from the ends of [-pi, pi], the reduction is 2*pi-periodic. */
  lemma ReduceAngleIsPeriodic(x: real, k: int)
    requires -MATH_PI < ReduceAngle(x) < MATH_PI
    ensures ReduceAngle(x + k as real * MATH_TWO_PI) == ReduceAngle(x)
  {
    var y := x + k as real * MATH_TWO_PI;
    var i := ReduceAngleRemovesWholeTurns(x);
    var j := ReduceAngleRemovesWholeTurns(y);
    assert ReduceAngle(y) - ReduceAngle(x) == (k + i - j) as real * MATH_TWO_PI;
    SameTurnClass(ReduceAngle(x), ReduceAngle(y), k + i - j);
  }
}
