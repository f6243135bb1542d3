# GNOM test framework core, modelled in Dafny

GNOM is a small Java workbench that compares approximations of a mathematical
function with a reference implementation. This project models its core and proves properties of the model:

- **The tester** (`ApproximationTester`). It holds an optional reference
  function and a table of named approximations. The accuracy test samples a
  uniform grid and gathers, for each approximation, the average absolute
  error, the largest absolute error with its input, and the largest relative
  error with its input. The performance test calls every implementation
  `iterations` times on a pool of 1000 random test values.
  - Modules `ApproximationTesting`, `AccuracyStatistics` and `PerformanceRun`.
- **The function registry** (`ApproximationFunction`). A family has a name and
  a live table of reference implementations. Every reference is stored under
  the key `"sin"`.
  - Module `Registry`.
- **The sine family** (`SinApproximationFunctions`). It has three
  approximations of `Math.sin`: a piecewise single-precision one, a 16-step
  CORDIC one and a degree-9 polynomial one. It also has a default range of
  [-pi, pi] and one reference, which is registered twice.
  - Modules `SinFamily`, `PiecewiseSine`, `CordicSine`, `ChebyshevSine`,
    `SinReduction`, `OddPolynomials` and `JavaNumerics`.

How the Java is represented:

- Doubles and floats are represented as `real`. Each declared decimal constant
  is the exact rational it spells. For example, `Math.PI` is
  3.141592653589793 and the float `6.28318530f` is 6.28318530.
- Java's `%` on doubles is a truncated remainder (`JavaNumerics.JavaRem`). The
  `(int)` cast truncates toward zero (`JavaNumerics.Truncate`).
- The reference function and the approximations are uninterpreted
  `real -> real` values. `Math.sin` is one of them.
- Stateful objects are Dafny classes:
  - `ApproximationTester` has fields for the reference, its name and the
    approximation table.
  - `ApproximationFunction` owns a `ReferenceMap` object. The getter returns
    that same object, so aliasing is visible.
- The sampling loop, the performance loops and the CORDIC loop are methods
  with loops, and the piecewise lambda is a method with step-by-step
  assignments. Each is proved equal to a specification function, and the
  properties are stated on that function and in lemmas about it.
- The printed reports are returned as values:
  - `TestRange` returns a map from approximation name to `ErrorStatistics`.
  - `TestPerformance` returns the reference sum and a map from name to sum.
  - No iteration order over names is assumed.
- Guard failures are an explicit `Result` error:
  - the reference is unset;
  - no approximation is registered;
  - for the accuracy test, `points == 0`.

Behaviour of the code worth knowing:

- **Non-positive point counts.** The code never checks `points`: `points == 0`
  divides by zero and yields NaN, while a negative count runs no sample and
  reports zeros.
  - The model makes `points == 0` an explicit `NoSamplePoints` error, because
    no NaN is modelled.
  - A negative count yields all-zero statistics, as the code computes
    (`AccuracyStatistics.NoSamplesForNegativePoints`).
- **CORDIC at 0.** The CORDIC variant does not return 0 at input 0, unlike
  the other two: at residual angle 0 its first micro-rotation
  still turns, because `z >= 0` selects +1, and the result is about -1.76e-5
  (`CordicSine.CordicSinAtZero`).
- **The polynomial variant** is called "Chebyshev". Its coefficients are
  those of the degree-9 Taylor polynomial of sine
  (`ChebyshevSine.ChebyshevPolynomialIsTaylor`).

## Model

Source paths are relative to the repository root.

| member | source | states |
|---|---|---|
| ApproximationTesting.ApproximationTester.constructor | src/main/java/de/zonlykroks/ApproximationTester.java:9-18 | a new tester has the given name, no reference, no reference name and no approximations |
| ApproximationTesting.ApproximationTester.SetReferenceFunction | src/main/java/de/zonlykroks/ApproximationTester.java:20-23 | replaces both the reference function and its name; the approximation table is unchanged |
| ApproximationTesting.ApproximationTester.RegisterApproximation | src/main/java/de/zonlykroks/ApproximationTester.java:25-27 | the table becomes the old table with `name` bound to the new function: one entry per name, a re-registration replaces, nothing else changes |
| ApproximationTesting.ApproximationTester.TestRange | src/main/java/de/zonlykroks/ApproximationTester.java:29-84 | each guard failure (no reference, no approximations, zero points) is reported iff it occurs, in the code's order, before any function is evaluated; otherwise the result has exactly the registered names as keys, and each maps to the statistics of the sampling loop for that approximation |
| ApproximationTesting.ApproximationTester.TestPerformance | src/main/java/de/zonlykroks/ApproximationTester.java:103-149 | the two guards are reported iff they occur, and the result is a success iff neither does; then the reference and every registered approximation are each summed over exactly the calls `CallInputs` lists on the pool of scaled draws, keyed by name |
| AccuracyStatistics.MeasureAccuracy | src/main/java/de/zonlykroks/ApproximationTester.java:56-82 | the five loop variables after `points` iterations (none when `points <= 0`) equal `Accumulate` of that many samples |
| AccuracyStatistics.SampleAt | src/main/java/de/zonlykroks/ApproximationTester.java:63 | defines sample i of the grid as `start + i * step` |
| AccuracyStatistics.Step | src/main/java/de/zonlykroks/ApproximationTester.java:40 | the spacing `(end - start) / points`: `points` steps of it span the range exactly |
| AccuracyStatistics.Report | src/main/java/de/zonlykroks/ApproximationTester.java:84 | the reported average times `points` is the loop's total; the maxima and their inputs are reported as the loop left them |
| AccuracyStatistics.Observe | src/main/java/de/zonlykroks/ApproximationTester.java:63-81 | one loop pass adds the absolute error to the total; each maximum never shrinks and ends at least the new (relative) error; the absolute maximum either keeps its value and input or takes the new error with input x; the relative maximum either keeps its value and input or, only for a measurable reference, takes the new relative error with input x, and a sample whose reference is at most 1e-10 in magnitude leaves it unchanged |
| AccuracyStatistics.Accumulate | src/main/java/de/zonlykroks/ApproximationTester.java:56-82 | the loop variables after n samples: the total and both maxima are never negative |
| AccuracyStatistics.Statistics | src/main/java/de/zonlykroks/ApproximationTester.java:56-84 | the reported average and both maxima are never negative, for either sign of `points` |
| AccuracyStatistics.TotalIsSumOfErrors | src/main/java/de/zonlykroks/ApproximationTester.java:56-68 | the running total is the sum of the absolute errors of all samples, whether or not their reference value is measurable |
| AccuracyStatistics.MaxErrorBoundsEverySample | src/main/java/de/zonlykroks/ApproximationTester.java:57-73 | the largest absolute error is non-negative and at least every sample's absolute error |
| AccuracyStatistics.MaxErrorIsFirstAttained | src/main/java/de/zonlykroks/ApproximationTester.java:57-73 | the largest absolute error is either 0 with its input still 0.0, or the error of the first sample to reach it, and its input is that sample |
| AccuracyStatistics.MaxRelativeErrorBoundsMeasurableSamples | src/main/java/de/zonlykroks/ApproximationTester.java:59-81 | the largest relative error is non-negative and at least the relative error of every sample whose reference exceeds 1e-10 in magnitude |
| AccuracyStatistics.MaxRelativeErrorIsFirstAttained | src/main/java/de/zonlykroks/ApproximationTester.java:59-81 | the largest relative error is either 0 with its input still 0.0, or the relative error of the first measurable sample to reach it, and its input is that sample |
| AccuracyStatistics.ExactAgreementGivesZeroStatistics | src/main/java/de/zonlykroks/ApproximationTester.java:56-81 | if the approximation equals the reference at every sample, all statistics and both worst-case inputs stay 0 |
| AccuracyStatistics.AverageIsMeanError | src/main/java/de/zonlykroks/ApproximationTester.java:56-84 | for a positive point count, the average times `points` is the sum of the absolute errors, and the average is non-negative |
| AccuracyStatistics.NoSamplesForNegativePoints | src/main/java/de/zonlykroks/ApproximationTester.java:62-84 | a negative point count samples nothing and reports all-zero statistics |
| AccuracyStatistics.SamplesStopBeforeEnd | src/main/java/de/zonlykroks/ApproximationTester.java:40-63 | sample i, `start + i * ((end - start) / points)`, lies between `start` (included) and `end` (excluded) for `start != end` |
| AccuracyStatistics.AbsoluteError | src/main/java/de/zonlykroks/ApproximationTester.java:67 | absolute errors are non-negative |
| AccuracyStatistics.RelativeError | src/main/java/de/zonlykroks/ApproximationTester.java:75-76 | relative errors, taken only where the reference is measurable, are non-negative |
| PerformanceRun.ScaledDraws | src/main/java/de/zonlykroks/ApproximationTester.java:120-123 | defines the pool as each draw times 10, one value per draw |
| PerformanceRun.MakeTestValues | src/main/java/de/zonlykroks/ApproximationTester.java:120-123 | a fresh 1000-element array holding each draw times 10, so every value lies in [0, 10) |
| PerformanceRun.SumOverCalls | src/main/java/de/zonlykroks/ApproximationTester.java:126-130 | the loop's sum is `SumOf` over the inputs of its `iterations` calls (none when `iterations <= 0`) |
| PerformanceRun.CallInputs | src/main/java/de/zonlykroks/ApproximationTester.java:126-128 | n calls have n inputs |
| PerformanceRun.CallInputsCycle | src/main/java/de/zonlykroks/ApproximationTester.java:127-128 | call i reads the pool at `i % 1000` |
| PerformanceRun.FirstPassReadsPoolInOrder | src/main/java/de/zonlykroks/ApproximationTester.java:127-128 | the first pass over the pool reads every value once, in order |
| PerformanceRun.WholePassAppendsPool | src/main/java/de/zonlykroks/ApproximationTester.java:127-128 | after a whole number of passes, the next pass appends the pool itself to the inputs |
| PerformanceRun.WholePassAddsPoolSum | src/main/java/de/zonlykroks/ApproximationTester.java:126-149 | each whole pass over the pool adds exactly the sum of f over the pool |
| PerformanceRun.SumOfConcat | src/main/java/de/zonlykroks/ApproximationTester.java:129 | the in-order sum over two runs of calls is the sum of their sums |
| Registry.ReferenceMap.constructor | src/main/java/de/zonlykroks/ApproximationFunction.java:10 | a new table is empty |
| Registry.ReferenceMap.Put | src/main/java/de/zonlykroks/ApproximationFunction.java:37 | the table becomes the old table with `key` bound to the function |
| Registry.ApproximationFunction.constructor | src/main/java/de/zonlykroks/ApproximationFunction.java:12-16 | sets the name, creates a fresh table and leaves it as the family's reference initialiser's additions made it; the algorithm initialiser changes nothing |
| Registry.ApproximationFunction.GetName | src/main/java/de/zonlykroks/ApproximationFunction.java:18-20 | returns the name given to the constructor |
| Registry.ApproximationFunction.GetReferenceImplementations | src/main/java/de/zonlykroks/ApproximationFunction.java:22-24 | returns the table object itself, not a copy |
| Registry.ApproximationFunction.AddReferenceImplementation | src/main/java/de/zonlykroks/ApproximationFunction.java:36-38 | the table becomes the old table with "sin" bound to the function, whatever the family or function |
| Registry.ApproximationFunction.InitializeReferenceImplementations | src/main/java/de/zonlykroks/ApproximationFunction.java:14-38 | adding a list of references in order leaves the table `AfterAdds` of them |
| Registry.ApproximationFunction.InitializeApproximationAlgorithms | src/main/java/de/zonlykroks/ApproximationFunction.java:34 | the default algorithm initialiser leaves the table unchanged |
| Registry.AddsKeepOnlyTheLast | src/main/java/de/zonlykroks/ApproximationFunction.java:10-38 | one or more additions leave only the last function added, under "sin"; every other entry is as before |
| Registry.AddsFromEmptyLeaveOneEntry | src/main/java/de/zonlykroks/ApproximationFunction.java:10-38 | from an empty table, one or more additions leave exactly one entry |
| Registry.AddedReferenceShowsThroughEarlierTable | src/main/java/de/zonlykroks/ApproximationFunction.java:22-38 | a table obtained before an addition is the live table and shows that addition |
| SinFamily.SinReferences | src/main/java/de/zonlykroks/algorithm/sin/SinApproximationFunctions.java:226-229 | the family's reference initialiser adds `Math.sin` once; on an empty table that leaves exactly `{"sin": sin}` |
| SinFamily.NewSinApproximationFunctions | src/main/java/de/zonlykroks/algorithm/sin/SinApproximationFunctions.java:35-39 | after the base constructor and the second initialisation, the family is named "Sin Approximations" and its table is exactly `{"sin": sin}` |
| SinFamily.DefaultStartRange | src/main/java/de/zonlykroks/algorithm/sin/SinApproximationFunctions.java:41-44 | the range starts at a negative angle that the reduction leaves unchanged and that lies within the snap distance of -pi |
| SinFamily.DefaultEndRange | src/main/java/de/zonlykroks/algorithm/sin/SinApproximationFunctions.java:46-49 | the range ends at the negation of its start, likewise unchanged by the reduction and within the snap distance of pi |
| SinFamily.DefaultRangeIsNotReduced | src/main/java/de/zonlykroks/algorithm/sin/SinApproximationFunctions.java:41-49 | the default range [-pi, pi] is the principal range: its inputs pass through the angle reduction unchanged |
| SinFamily.GetApproximationAlgorithms | src/main/java/de/zonlykroks/algorithm/sin/SinApproximationFunctions.java:51-223 | three algorithms with pairwise distinct names |
| SinFamily.AlgorithmsAtZero | src/main/java/de/zonlykroks/algorithm/sin/SinApproximationFunctions.java:51-223 | at input 0 the piecewise and polynomial algorithms return 0 and the CORDIC one returns a negative value |
| JavaNumerics.Truncate | src/main/java/de/zonlykroks/algorithm/sin/SinApproximationFunctions.java:65 | the `(int)` cast of an in-range value is the integer next to it toward zero |
| JavaNumerics.TruncateIsOdd | src/main/java/de/zonlykroks/algorithm/sin/SinApproximationFunctions.java:65 | the cast commutes with negation |
| JavaNumerics.JavaRem | src/main/java/de/zonlykroks/algorithm/sin/SinApproximationFunctions.java:142 | `x % m` has the dividend's sign, is smaller than m in magnitude, and differs from x by a whole multiple of m |
| JavaNumerics.JavaRemIsOdd | src/main/java/de/zonlykroks/algorithm/sin/SinApproximationFunctions.java:142 | the remainder of `-x` is minus the remainder of `x` |
| SinReduction.NearPi | src/main/java/de/zonlykroks/algorithm/sin/SinApproximationFunctions.java:138-140 | defines the snap test: the input is within 1e-14 of pi or of -pi |
| SinReduction.ReduceAngle | src/main/java/de/zonlykroks/algorithm/sin/SinApproximationFunctions.java:142-148 | `%` by 2*pi then one correction leaves the angle in [-pi, pi]; -pi only for negative inputs and pi only for positive ones |
| SinReduction.ReduceAngleRemovesWholeTurns | src/main/java/de/zonlykroks/algorithm/sin/SinApproximationFunctions.java:142-148 | the reduction removes a whole number of turns |
| SinReduction.ReduceAngleFixesPrincipalRange | src/main/java/de/zonlykroks/algorithm/sin/SinApproximationFunctions.java:142-148 | angles already in [-pi, pi] are unchanged |
| SinReduction.ReduceAngleIsOdd | src/main/java/de/zonlykroks/algorithm/sin/SinApproximationFunctions.java:142-148 | the reduction commutes with negation |
| SinReduction.ReduceAngleIsPeriodic | src/main/java/de/zonlykroks/algorithm/sin/SinApproximationFunctions.java:142-148 | away from the ends of [-pi, pi], adding whole turns does not change the reduced angle |
| OddPolynomials.HornerIsPowerSum | src/main/java/de/zonlykroks/algorithm/sin/SinApproximationFunctions.java:212-214 | the nested Horner form equals the expanded alternating polynomial |
| OddPolynomials.OddHornerIsOdd | src/main/java/de/zonlykroks/algorithm/sin/SinApproximationFunctions.java:87-120 | an odd Horner polynomial is an odd function and vanishes at 0 |
| ChebyshevSine.ChebyshevPolynomial | src/main/java/de/zonlykroks/algorithm/sin/SinApproximationFunctions.java:212-214 | defines the degree-9 odd polynomial in Horner form over the declared coefficients; its meaning is the lemma below |
| ChebyshevSine.ChebyshevPolynomialIsTaylor | src/main/java/de/zonlykroks/algorithm/sin/SinApproximationFunctions.java:212-214 | the polynomial is `x - x^3/3! + x^5/5! - x^7/7! + x^9/9!` |
| ChebyshevSine.ChebyshevPolynomialIsOdd | src/main/java/de/zonlykroks/algorithm/sin/SinApproximationFunctions.java:212-214 | the polynomial is odd and vanishes at 0 |
| ChebyshevSine.ChebyshevSin | src/main/java/de/zonlykroks/algorithm/sin/SinApproximationFunctions.java:201-203 | inputs within 1e-14 of pi or -pi give exactly 0 |
| ChebyshevSine.ChebyshevSinOnPrincipalRange | src/main/java/de/zonlykroks/algorithm/sin/SinApproximationFunctions.java:200-215 | on [-pi, pi], away from the snap, the polynomial is applied to the input itself |
| ChebyshevSine.ChebyshevSinAtZero | src/main/java/de/zonlykroks/algorithm/sin/SinApproximationFunctions.java:200-215 | input 0 gives exactly 0 |
| ChebyshevSine.ChebyshevSinIsOdd | src/main/java/de/zonlykroks/algorithm/sin/SinApproximationFunctions.java:200-215 | the variant is an odd function |
| ChebyshevSine.ChebyshevSinIsPeriodic | src/main/java/de/zonlykroks/algorithm/sin/SinApproximationFunctions.java:200-215 | whole turns added to an input leave the value unchanged, away from the ends of the range and the snap |
| CordicSine.Quadrant | src/main/java/de/zonlykroks/algorithm/sin/SinApproximationFunctions.java:150-162 | the quadrant is one of 1 to 4 |
| CordicSine.QuadrantsPartitionPrincipalRange | src/main/java/de/zonlykroks/algorithm/sin/SinApproximationFunctions.java:150-162 | on [-pi, pi] the four quadrant tests are exhaustive and disjoint, each the interval it names (iff) |
| CordicSine.FoldQuadrant | src/main/java/de/zonlykroks/algorithm/sin/SinApproximationFunctions.java:150-162 | on [-pi, pi] the folded angle lies in [-pi/2, pi/2]; it is non-positive in quadrant 3 and non-negative elsewhere |
| CordicSine.StepScaleIsReciprocal | src/main/java/de/zonlykroks/algorithm/sin/SinApproximationFunctions.java:174 | the step scale of micro-rotation i is `1.0 / (1 << i)` |
| CordicSine.RunMicroRotations | src/main/java/de/zonlykroks/algorithm/sin/SinApproximationFunctions.java:164-179 | the 16-step loop, one step per table entry, ends in `RotateFrom` of the start state |
| CordicSine.MicroRotationUnfolds | src/main/java/de/zonlykroks/algorithm/sin/SinApproximationFunctions.java:168-178 | the loop body with `sign` = +1 iff `z >= 0` is the micro-rotation: z moves by `sign * CORDIC_TABLE[i]` |
| CordicSine.MicroRotation | src/main/java/de/zonlykroks/algorithm/sin/SinApproximationFunctions.java:169-178 | the step moves the residual angle toward 0 by the table entry: its new magnitude is the distance of the old magnitude from `CORDIC_TABLE[i]` |
| CordicSine.RotateFrom | src/main/java/de/zonlykroks/algorithm/sin/SinApproximationFunctions.java:164-179 | defines the run of micro-rotations i, i + 1, ..., 15 in order; `RunMicroRotations` is proved equal to it |
| CordicSine.MicroRotationNorm | src/main/java/de/zonlykroks/algorithm/sin/SinApproximationFunctions.java:171-176 | each micro-rotation multiplies `x0^2 + y0^2` by exactly `1 + 4^-i`, whichever way it turns |
| CordicSine.ComputeCordicSin | src/main/java/de/zonlykroks/algorithm/sin/SinApproximationFunctions.java:135-188 | the lambda step by step equals `CordicSin` |
| CordicSine.CordicSin | src/main/java/de/zonlykroks/algorithm/sin/SinApproximationFunctions.java:135-188 | inputs within 1e-14 of pi or -pi give exactly 0; the other properties are the lemmas below |
| CordicSine.CordicSinOnFirstQuadrant | src/main/java/de/zonlykroks/algorithm/sin/SinApproximationFunctions.java:150-187 | on [0, pi/2] the input is rotated as it is and returned scaled by K without a sign change |
| CordicSine.ZeroRunFrom | src/main/java/de/zonlykroks/algorithm/sin/SinApproximationFunctions.java:164-179 | from residual angle 0 the run passes through the listed exact states |
| CordicSine.CordicSinAtZero | src/main/java/de/zonlykroks/algorithm/sin/SinApproximationFunctions.java:169-181 | input 0 gives a negative value, not 0 |
| PiecewiseSine.PeriodCount | src/main/java/de/zonlykroks/algorithm/sin/SinApproximationFunctions.java:64-65 | the period count is `x / TWO_PI` rounded to nearest, halves away from zero |
| PiecewiseSine.ReduceTurns | src/main/java/de/zonlykroks/algorithm/sin/SinApproximationFunctions.java:64-66 | the reduced angle has magnitude at most PI: in [-PI, PI) for non-negative inputs and (-PI, PI] for negative ones |
| PiecewiseSine.ReduceTurnsIsOdd | src/main/java/de/zonlykroks/algorithm/sin/SinApproximationFunctions.java:64-66 | the reduction commutes with negation |
| PiecewiseSine.Fold | src/main/java/de/zonlykroks/algorithm/sin/SinApproximationFunctions.java:72-85 | the folds leave an angle of at most max(HALF_PI, PI - HALF_PI), and for inputs of magnitude up to TWO_PI at least 0; there `negate` is set iff exactly one of "negative" and "beyond PI" holds |
| PiecewiseSine.FoldOfReducedAngle | src/main/java/de/zonlykroks/algorithm/sin/SinApproximationFunctions.java:72-81 | on a reduced angle the reflection about PI never fires, so `negate` iff the reduced angle is negative |
| PiecewiseSine.FoldOfNegation | src/main/java/de/zonlykroks/algorithm/sin/SinApproximationFunctions.java:72-85 | a negated non-zero angle folds to the same angle with the opposite flag |
| PiecewiseSine.PolynomialDegree | src/main/java/de/zonlykroks/algorithm/sin/SinApproximationFunctions.java:90-108 | exactly one of the three polynomials is chosen, by the thresholds 0.5 and 1.3 (each iff) |
| PiecewiseSine.Polynomial | src/main/java/de/zonlykroks/algorithm/sin/SinApproximationFunctions.java:87-120 | defines the polynomial applied to a folded angle: the odd Horner polynomial of the degree `PolynomialDegree` picks |
| PiecewiseSine.ComputePiecewiseSin | src/main/java/de/zonlykroks/algorithm/sin/SinApproximationFunctions.java:57-123 | the lambda step by step equals `PiecewiseSin` |
| PiecewiseSine.PiecewiseSin | src/main/java/de/zonlykroks/algorithm/sin/SinApproximationFunctions.java:57-123 | a reduced angle below 1e-5 in magnitude is returned unchanged; otherwise the chosen polynomial of the folded angle, negated iff the reduced angle is negative |
| PiecewiseSine.PiecewiseSinAtZero | src/main/java/de/zonlykroks/algorithm/sin/SinApproximationFunctions.java:57-70 | input 0 gives exactly 0 |
| PiecewiseSine.PiecewiseSinIsOdd | src/main/java/de/zonlykroks/algorithm/sin/SinApproximationFunctions.java:57-122 | the variant is an odd function |

## Left out

- The Swing user interface, chart plotting and output redirection
  (`MathApproximationFramework.java`) are not part of this model. The
  approximation table they populate is covered by `RegisterApproximation`.
- Printing and number formatting are left out. That includes the "worst cases"
  block: it only evaluates both functions again at the recorded inputs in order
  to print them. The `reportWorst` flag has no other effect, so `TestRange` has
  no such parameter.
- Wall-clock timing (`System.nanoTime`) and the speedup ratio are left out.
- The random draws (`Math.random`) are a parameter of `TestPerformance`: 1000
  values in [0, 1).
- IEEE single- and double-precision rounding is left out, so no accuracy bound
  against `Math.sin` is stated. The `(float)` conversion of the piecewise input
  is the identity on reals. The `(int)` cast saturates for huge inputs; the
  model leaves that out and truncates.
- `HashMap` iteration order is left out. Results are maps keyed by name, and
  the loops over names pick any remaining name.
- A `null` function passed to `setReferenceFunction` or
  `registerApproximation` is not modelled. Function values are never null here.
- `ApproximationAlgorithm` is the datatype `Registry.ApproximationAlgorithm`,
  with a name and a function. The anonymous subclasses' `getName` overrides
  return the same names as their constructor arguments.
- CordicSine.MicroRotationNorm: the growth of `x0^2 + y0^2` is proved per
  micro-rotation only. The product over all sixteen steps is not stated as a
  lemma.
- ApproximationTesting.ApproximationTester.TestRange: for `points == 0` it
  returns an error, where the Java code computes a NaN average. A NaN cannot
  be represented over reals.
- PerformanceRun.WholePassAddsPoolSum: the sum over k whole passes is stated
  pass by pass, not as a closed form `k * sum`.
