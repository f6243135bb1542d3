/** The "Chebyshev polynomial sine approximation" variant: snap next to +-pi,
    reduce into [-pi, pi] and evaluate a degree-9 odd polynomial in Horner form,
    with no quadrant folding. */
module ChebyshevSine {
  import opened JavaNumerics
  import opened SinReduction
  import opened OddPolynomials

  /** The nested coefficients 1, 1/6, 1/120, 1/5040, 1/362880 of
      `x * (1 - x2 * (1/6 - x2 * (1/120 - x2 * (1/5040 - x2/362880))))`. */
  const CHEBYSHEV_COEFFICIENTS: seq<real> := [1.0, 1.0 / 6.0, 1.0 / 120.0, 1.0 / 5040.0, 1.0 / 362880.0]

  function ChebyshevPolynomial(a: real): real
  {
    OddHorner(CHEBYSHEV_COEFFICIENTS, a)
  }

  function Factorial(n: nat): (r: nat)
    ensures r >= 1
  {
    if n == 0 then 1 else n * Factorial(n - 1)
  }

  /** The polynomial is the degree-9 Taylor polynomial of sine:
      `x - x^3/3! + x^5/5! - x^7/7! + x^9/9!`. */
  lemma ChebyshevPolynomialIsTaylor(a: real)
    ensures ChebyshevPolynomial(a) == a * PowerSum(CHEBYSHEV_COEFFICIENTS, a * a, 5)
    ensures forall k :: 0 <= k < 5 ==> CHEBYSHEV_COEFFICIENTS[k] * Factorial(2 * k + 1) as real == 1.0
  {
    HornerIsPowerSum(CHEBYSHEV_COEFFICIENTS, a * a);
    assert Factorial(3) == 6;
    assert Factorial(5) == 120;
    assert Factorial(7) == 5040;
    assert Factorial(9) == 362880;
  }

  /** The polynomial is an odd function and vanishes at 0. */
  lemma ChebyshevPolynomialIsOdd(a: real)
    ensures ChebyshevPolynomial(-a) == -ChebyshevPolynomial(a)
    ensures ChebyshevPolynomial(0.0) == 0.0
  {
    OddHornerIsOdd(CHEBYSHEV_COEFFICIENTS, a);
  }

  /** The variant as a whole. */
  function ChebyshevSin(x: real): (r: real)
    ensures NearPi(x) ==> r == 0.0
  {
    if NearPi(x) then 0.0 else ChebyshevPolynomial(ReduceAngle(x))
  }

  /** On the principal range the polynomial is applied to the input itself. */
  lemma ChebyshevSinOnPrincipalRange(x: real)
    requires -MATH_PI <= x <= MATH_PI && !NearPi(x)
    ensures ChebyshevSin(x) == ChebyshevPolynomial(x)
  {
    ReduceAngleFixesPrincipalRange(x);
  }

  /** Input 0 gives exactly 0. */
  lemma ChebyshevSinAtZero()
    ensures ChebyshevSin(0.0) == 0.0
  {
    ReduceAngleFixesPrincipalRange(0.0);
    ChebyshevPolynomialIsOdd(0.0);
  }

  /** In exact arithmetic the variant is an odd function of its input. */
  lemma ChebyshevSinIsOdd(x: real)
    ensures ChebyshevSin(-x) == -ChebyshevSin(x)
  {
    if !NearPi(x) {
      assert !NearPi(-x);
      ReduceAngleIsOdd(x);
      ChebyshevPolynomialIsOdd(ReduceAngle(x));
    }
  }

  /** Whole turns added to an input whose reduced angle is not an end of
      [-pi, pi] leave the value unchanged, as long as neither input is snapped. */
  lemma ChebyshevSinIsPeriodic(x: real, k: int)
    requires -MATH_PI < ReduceAngle(x) < MATH_PI
    requires !NearPi(x) && !NearPi(x + k as real * MATH_TWO_PI)
    ensures ChebyshevSin(x + k as real * MATH_TWO_PI) == ChebyshevSin(x)
  {
    ReduceAngleIsPeriodic(x, k);
  }
}
