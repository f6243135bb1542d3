/** The sine family: its name, its default test range, its three
    approximation algorithms and its single reference implementation
    (`Math.sin`, an uninterpreted function here), registered once by the base
    constructor and once more by the family's own constructor. */
module SinFamily {
  import opened SinReduction
  import opened Registry
  import opened PiecewiseSine
  import opened CordicSine
  import opened ChebyshevSine

  const FAMILY_NAME: string := "Sin Approximations"

  const PIECEWISE_NAME: string := "Piecewise 32-bit sine approximation"
  const CORDIC_NAME: string := "CORDIC sine approximation"
  const CHEBYSHEV_NAME: string := "Chebyshev polynomial sine approximation"

  /** The default range starts at -pi: unchanged by the angle reduction, and
      one of the points every variant with a snap maps to exactly 0. */
  function DefaultStartRange(): (start: real)
    ensures start < 0.0 && ReduceAngle(start) == start && NearPi(start)
  {
    ReduceAngleFixesPrincipalRange(-MATH_PI);
    -MATH_PI
  }

  /** The default range ends at pi, likewise fixed and snapped. */
  function DefaultEndRange(): (end: real)
    ensures end == -DefaultStartRange() && ReduceAngle(end) == end && NearPi(end)
  {
    ReduceAngleFixesPrincipalRange(MATH_PI);
    MATH_PI
  }

  /** The default range is exactly the principal range of the angle
      reduction: every input in it reaches the polynomials unreduced. */
  lemma DefaultRangeIsNotReduced(x: real)
    requires DefaultStartRange() <= x <= DefaultEndRange()
    ensures ReduceAngle(x) == x
  {
    ReduceAngleFixesPrincipalRange(x);
  }

  /** The three algorithms, in the order the family lists them. */
  function GetApproximationAlgorithms(): (algorithms: seq<ApproximationAlgorithm>)
    ensures |algorithms| == 3
    ensures forall i, j :: 0 <= i < j < |algorithms| ==> algorithms[i].name != algorithms[j].name
  {
    [ ApproximationAlgorithm(PIECEWISE_NAME, PiecewiseSin),
      ApproximationAlgorithm(CORDIC_NAME, CordicSin),
      ApproximationAlgorithm(CHEBYSHEV_NAME, ChebyshevSin) ]
  }

  /** At input 0 the piecewise and Chebyshev algorithms return exactly 0,
      while CORDIC returns a small negative value: its first micro-rotation
      treats z = 0 as non-negative. */
  lemma AlgorithmsAtZero(x: real)
    requires x == 0.0
    ensures GetApproximationAlgorithms()[0].fn(x) == 0.0
    ensures GetApproximationAlgorithms()[1].fn(x) < 0.0
    ensures GetApproximationAlgorithms()[2].fn(x) == 0.0
  {
    PiecewiseSinAtZero();
    CordicSinAtZero(x);
    ChebyshevSinAtZero();
  }

  /** The family's reference initialiser adds `sin` once: on an empty table
      that leaves exactly `{"sin": sin}`. */
  function SinReferences(sin: real -> real): (references: seq<real -> real>)
    ensures AfterAdds(map[], references) == map[REFERENCE_KEY := sin]
  {
    AddsFromEmptyLeaveOneEntry([sin]);
    [sin]
  }

  /** The family constructor: the base constructor (name, then the reference
      initialiser, then the algorithm initialiser), then both initialisers
      once more. The second `sin` overwrites the first, leaving one entry. */
  method NewSinApproximationFunctions(sin: real -> real) returns (family: ApproximationFunction)
    ensures fresh(family) && fresh(family.referenceImplementations)
    ensures family.name == FAMILY_NAME
    ensures family.referenceImplementations.entries == map[REFERENCE_KEY := sin]
  {
    family := new ApproximationFunction(FAMILY_NAME, SinReferences(sin));
    family.InitializeReferenceImplementations(SinReferences(sin));
    family.InitializeApproximationAlgorithms();
    AddsFromEmptyLeaveOneEntry(SinReferences(sin) + SinReferences(sin));
    assert AfterAdds(AfterAdds(map[], [sin]), [sin]) == AfterAdds(map[], [sin, sin]);
  }
}
