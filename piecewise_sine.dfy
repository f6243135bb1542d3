/** The "Piecewise 32-bit sine approximation" variant: round to the nearest
    number of whole turns, return tiny reduced angles unchanged, otherwise fold
    the angle by sign and by reflections about pi and pi/2 while tracking the
    sign of the result, and evaluate one of three odd polynomials chosen by the
    size of the folded angle. Single-precision rounding is not modelled: the
    declared float constants are taken as the exact decimals they spell. */
module PiecewiseSine {
  import opened JavaNumerics
  import opened OddPolynomials

  const TWO_PI: real := 6.28318530
  const PI: real := 3.14159265
  const HALF_PI: real := 1.57079632

  /** Reduced angles smaller than this in magnitude are returned unchanged. */
  const SMALL_ANGLE: real := 1e-5

  /** Folded angles below this use the degree-7 polynomial. */
  const LOW_BUCKET: real := 0.5
  /** Folded angles below this (and not below LOW_BUCKET) use the degree-9 one. */
  const MID_BUCKET: real := 1.3

  function Max(a: real, b: real): real
  {
    if a >= b then a else b
  }

  /** `(int)(x * (1 / TWO_PI) + (x >= 0 ? 0.5 : -0.5))`: x / TWO_PI rounded
      to the nearest integer, with halves rounded away from zero. */
  function PeriodCount(x: real): (n: int)
    ensures x >= 0.0 ==> n as real - 0.5 <= x / TWO_PI < n as real + 0.5
    ensures x < 0.0 ==> n as real - 0.5 < x / TWO_PI <= n as real + 0.5
  {
    assert x * (1.0 / TWO_PI) == x / TWO_PI;
    Truncate(x * (1.0 / TWO_PI) + (if x >= 0.0 then 0.5 else -0.5))
  }

  /** `xFloat - n * TWO_PI`. In exact arithmetic the reduced angle is at most
      PI in magnitude (the declared PI is exactly half the declared TWO_PI). */
  function ReduceTurns(x: real): (r: real)
    ensures x >= 0.0 ==> -PI <= r < PI
    ensures x < 0.0 ==> -PI < r <= PI
  {
    var q, n := x / TWO_PI, PeriodCount(x) as real;
    assert x == q * TWO_PI;
    assert x - n * TWO_PI == (q - n) * TWO_PI;
    x - n * TWO_PI
  }

  /** Rounding half away from zero is symmetric, so the reduction is odd. */
  lemma ReduceTurnsIsOdd(x: real)
    ensures ReduceTurns(-x) == -ReduceTurns(x)
  {
    var t := x * (1.0 / TWO_PI);
    assert -x * (1.0 / TWO_PI) == -t;
    if x > 0.0 {
      TruncateIsOdd(t + 0.5);
      assert -t - 0.5 == -(t + 0.5);
    } else if x < 0.0 {
      TruncateIsOdd(t - 0.5);
      assert -t + 0.5 == -(t - 0.5);
    }
  }

  /** The folded angle and the `negate` flag after the three folds. */
  datatype Folded = Folded(angle: real, negate: bool)

  /** The folds as the variant applies them, one after another: by sign (which
      sets `negate`), by reflection about PI (which toggles it) and by
      reflection about HALF_PI (which leaves it alone). The result is at most
      max(HALF_PI, PI - HALF_PI); for angles of magnitude up to TWO_PI it is
      non-negative, and `negate` is set exactly when one, but not both, of
      "negative" and "beyond PI in magnitude" holds. */
  function Fold(r: real): (f: Folded)
    ensures f.angle <= Max(HALF_PI, PI - HALF_PI)
    ensures Abs(r) <= TWO_PI ==> 0.0 <= f.angle
    ensures Abs(r) <= TWO_PI ==> (f.negate <==> ((r < 0.0) != (Abs(r) > PI)))
  {
    var bySign := if r < 0.0 then Folded(-r, true) else Folded(r, false);
    var byPi := if bySign.angle > PI then Folded(TWO_PI - bySign.angle, !bySign.negate) else bySign;
    if byPi.angle > HALF_PI then Folded(PI - byPi.angle, byPi.negate) else byPi
  }

  /** On reduced angles the reflection about PI never fires, so `negate` is
      just the sign of the reduced angle. */
  lemma FoldOfReducedAngle(x: real)
    ensures Fold(ReduceTurns(x)).negate <==> ReduceTurns(x) < 0.0
  {
  }

  /** A negated angle folds to the same angle with the opposite flag. */
  lemma FoldOfNegation(r: real)
    requires r != 0.0
    ensures Fold(-r).angle == Fold(r).angle
    ensures Fold(-r).negate == !Fold(r).negate
  {
  }

  /** The nested coefficients of the three Horner-form polynomials, of
      degree 7, 9 and 11, as declared. */
  const DEGREE_7: seq<real> := [1.0, 0.16666666, 0.00833333, 0.00019841]
  const DEGREE_9: seq<real> := [1.0, 0.16666667, 0.00833333, 0.00019841, 0.00000276]
  const DEGREE_11: seq<real> := [1.0, 0.16666667, 0.00833333, 0.00019841, 0.00000276, 0.00000002]

  /** The degree of the polynomial used for a folded angle: exactly one of the
      three, by the thresholds LOW_BUCKET and MID_BUCKET. */
  function PolynomialDegree(a: real): (d: nat)
    ensures d == 7 || d == 9 || d == 11
    ensures d == 7 <==> a < LOW_BUCKET
    ensures d == 9 <==> LOW_BUCKET <= a < MID_BUCKET
    ensures d == 11 <==> MID_BUCKET <= a
  {
    if a < LOW_BUCKET then 7 else if a < MID_BUCKET then 9 else 11
  }

  function Coefficients(degree: nat): seq<real>
  {
    if degree == 7 then DEGREE_7 else if degree == 9 then DEGREE_9 else DEGREE_11
  }

  function Polynomial(a: real): real
  {
    OddHorner(Coefficients(PolynomialDegree(a)), a)
  }

  /** The variant as a function of its input: a tiny reduced angle is
      returned unchanged; otherwise the chosen polynomial of the folded angle,
      negated exactly when the reduced angle is negative. */
  function PiecewiseSin(x: real): (result: real)
    ensures var r := ReduceTurns(x);
      && (Abs(r) < SMALL_ANGLE ==> result == r)
      && (Abs(r) >= SMALL_ANGLE ==>
            result == (if r < 0.0 then -Polynomial(Fold(r).angle) else Polynomial(Fold(r).angle)))
  {
    var r := ReduceTurns(x);
    if Abs(r) < SMALL_ANGLE then r
    else
      var f := Fold(r);
      if f.negate then -Polynomial(f.angle) else Polynomial(f.angle)
  }

  /** The lambda, step by step: reduce, return tiny angles as they are, fold
      while toggling `negate`, pick a polynomial, apply the sign. */
  method ComputePiecewiseSin(x: real) returns (result: real)
    ensures result == PiecewiseSin(x)
  {
    var n := Truncate(x * (1.0 / TWO_PI) + (if x >= 0.0 then 0.5 else -0.5));
    var xNormalized := x - n as real * TWO_PI;
    if Abs(xNormalized) < SMALL_ANGLE {
      return xNormalized;
    }
    var negate := false;
    if xNormalized < 0.0 {
      xNormalized := -xNormalized;
      negate := true;
    }
    if xNormalized > PI {
      xNormalized := TWO_PI - xNormalized;
      negate := !negate;
    }
    if xNormalized > HALF_PI {
      xNormalized := PI - xNormalized;
    }
    assert Folded(xNormalized, negate) == Fold(ReduceTurns(x));
    if xNormalized < LOW_BUCKET {
      result := OddHorner(DEGREE_7, xNormalized);
    } else if xNormalized < MID_BUCKET {
      result := OddHorner(DEGREE_9, xNormalized);
    } else {
      result := OddHorner(DEGREE_11, xNormalized);
    }
    if negate {
      result := -result;
    }
  }

  /** Input 0 gives exactly 0. */
  lemma PiecewiseSinAtZero()
    ensures PiecewiseSin(0.0) == 0.0
  {
    assert PeriodCount(0.0) == 0;
  }

  /** In exact arithmetic the variant is an odd function of its input. */
  lemma PiecewiseSinIsOdd(x: real)
    ensures PiecewiseSin(-x) == -PiecewiseSin(x)
  {
    var r := ReduceTurns(x);
    ReduceTurnsIsOdd(x);
    if Abs(r) >= SMALL_ANGLE {
      FoldOfNegation(r);
      OddHornerIsOdd(Coefficients(PolynomialDegree(Fold(r).angle)), Fold(r).angle);
    }
  }
}
