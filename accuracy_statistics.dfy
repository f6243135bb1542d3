/** The statistics the accuracy test gathers for one approximation against the
    reference over a uniform grid of sample points: the running total of
    absolute errors, the largest absolute error with the first input that
    reached it, and the largest relative error (only where the reference is
    clearly away from zero) with the first input that reached it. */
module AccuracyStatistics {
  import opened JavaNumerics

  /** Relative errors are only measured where |reference| exceeds this. */
  const RELATIVE_THRESHOLD: real := 1e-10

  /** Sample i of the grid: `start + i * step`. */
  function SampleAt(start: real, step: real, i: nat): real
  {
    start + i as real * step
  }

  function AbsoluteError(reference: real -> real, approximation: real -> real, x: real): (e: real)
    ensures e >= 0.0
  {
    Abs(reference(x) - approximation(x))
  }

  /** The reference value is large enough for a relative error to be taken. */
  predicate Measurable(reference: real -> real, x: real)
  {
    Abs(reference(x)) > RELATIVE_THRESHOLD
  }

  function RelativeError(reference: real -> real, approximation: real -> real, x: real): (e: real)
    requires Measurable(reference, x)
    ensures e >= 0.0
  {
    NonNegativeQuotient(AbsoluteError(reference, approximation, x), Abs(reference(x)));
    AbsoluteError(reference, approximation, x) / Abs(reference(x))
  }

  lemma NonNegativeQuotient(a: real, b: real)
    requires a >= 0.0 && b > 0.0
    ensures a / b >= 0.0
  {
  }

  /** The five variables of the sampling loop. */
  datatype Accumulator = Accumulator(
    totalError: real,
    maxError: real,
    maxErrorInput: real,
    maxRelativeError: real,
    maxRelativeErrorInput: real)

  /** Their values before the first sample. */
  const INITIAL: Accumulator := Accumulator(0.0, 0.0, 0.0, 0.0, 0.0)

  /** One pass of the loop body at input x: add the absolute error to the
      total, take it as the new maximum only when strictly larger, and do the
      same for the relative error when the reference value is measurable.
      The total grows by the absolute error; each maximum never shrinks, ends
      at least the new error, and either stays with its input or moves to x. */
  function Observe(acc: Accumulator, referenceValue: real, approximationValue: real, x: real): (next: Accumulator)
    ensures next.totalError == acc.totalError + Abs(referenceValue - approximationValue)
    ensures next.maxError >= acc.maxError && next.maxError >= Abs(referenceValue - approximationValue)
    ensures (next.maxError, next.maxErrorInput) == (acc.maxError, acc.maxErrorInput)
            || (next.maxError, next.maxErrorInput) == (Abs(referenceValue - approximationValue), x)
    ensures next.maxRelativeError >= acc.maxRelativeError
    ensures Abs(referenceValue) > RELATIVE_THRESHOLD ==>
              next.maxRelativeError >= Abs(referenceValue - approximationValue) / Abs(referenceValue)
    ensures (next.maxRelativeError, next.maxRelativeErrorInput) == (acc.maxRelativeError, acc.maxRelativeErrorInput)
            || (&& Abs(referenceValue) > RELATIVE_THRESHOLD
                && (next.maxRelativeError, next.maxRelativeErrorInput)
                   == (Abs(referenceValue - approximationValue) / Abs(referenceValue), x))
    ensures Abs(referenceValue) <= RELATIVE_THRESHOLD ==>
              (next.maxRelativeError, next.maxRelativeErrorInput) == (acc.maxRelativeError, acc.maxRelativeErrorInput)
  {
    var absError := Abs(referenceValue - approximationValue);
    var total := acc.totalError + absError;
    var maxError := if absError > acc.maxError then absError else acc.maxError;
    var maxErrorInput := if absError > acc.maxError then x else acc.maxErrorInput;
    if Abs(referenceValue) > RELATIVE_THRESHOLD && absError / Abs(referenceValue) > acc.maxRelativeError then
      Accumulator(total, maxError, maxErrorInput, absError / Abs(referenceValue), x)
    else
      Accumulator(total, maxError, maxErrorInput, acc.maxRelativeError, acc.maxRelativeErrorInput)
  }

  /** The loop variables after the first n samples; the total and both
      maxima start at 0 and never go below it. */
  function Accumulate(reference: real -> real, approximation: real -> real, start: real, step: real, n: nat): (acc: Accumulator)
    ensures acc.totalError >= 0.0 && acc.maxError >= 0.0 && acc.maxRelativeError >= 0.0
  {
    if n == 0 then INITIAL
    else
      var x := SampleAt(start, step, n - 1);
      Observe(Accumulate(reference, approximation, start, step, n - 1), reference(x), approximation(x), x)
  }

  /** The sum of the absolute errors of the first n samples. */
  function SumOfErrors(reference: real -> real, approximation: real -> real, start: real, step: real, n: nat): real
  {
    if n == 0 then 0.0
    else SumOfErrors(reference, approximation, start, step, n - 1) + AbsoluteError(reference, approximation, SampleAt(start, step, n - 1))
  }

  /** The total is the sum of the absolute errors of all samples, including
      those whose reference value is too small for a relative error. */
  lemma {:induction false} TotalIsSumOfErrors(reference: real -> real, approximation: real -> real, start: real, step: real, n: nat)
    ensures Accumulate(reference, approximation, start, step, n).totalError == SumOfErrors(reference, approximation, start, step, n)
  {
    if n > 0 {
      TotalIsSumOfErrors(reference, approximation, start, step, n - 1);
    }
  }

  /** The largest absolute error is non-negative and bounds every sampled
      absolute error. */
  lemma {:induction false} MaxErrorBoundsEverySample(reference: real -> real, approximation: real -> real, start: real, step: real, n: nat)
    ensures var acc := Accumulate(reference, approximation, start, step, n);
      && acc.maxError >= 0.0
      && forall i :: 0 <= i < n ==> AbsoluteError(reference, approximation, SampleAt(start, step, i)) <= acc.maxError
  {
    if n > 0 {
      MaxErrorBoundsEverySample(reference, approximation, start, step, n - 1);
    }
  }

  /** Sample i is the first one whose absolute error reaches e. */
  predicate FirstWithError(reference: real -> real, approximation: real -> real, start: real, step: real, i: nat, e: real)
  {
    && AbsoluteError(reference, approximation, SampleAt(start, step, i)) == e
    && forall j :: 0 <= j < i ==> AbsoluteError(reference, approximation, SampleAt(start, step, j)) < e
  }

  /** The largest absolute error is either 0, with its input still 0.0, or
      the error of a sample that is the first to reach it, and its input is
      that sample (the update uses a strict comparison). */
  lemma {:induction false} MaxErrorIsFirstAttained(reference: real -> real, approximation: real -> real, start: real, step: real, n: nat)
    ensures var acc := Accumulate(reference, approximation, start, step, n);
      && (acc.maxError == 0.0 ==> acc.maxErrorInput == 0.0)
      && (acc.maxError != 0.0 ==>
            exists i :: 0 <= i < n && acc.maxErrorInput == SampleAt(start, step, i)
                     && FirstWithError(reference, approximation, start, step, i, acc.maxError))
  {
    if n > 0 {
      var previous := Accumulate(reference, approximation, start, step, n - 1);
      var acc := Accumulate(reference, approximation, start, step, n);
      MaxErrorIsFirstAttained(reference, approximation, start, step, n - 1);
      MaxErrorBoundsEverySample(reference, approximation, start, step, n - 1);
      var e := AbsoluteError(reference, approximation, SampleAt(start, step, n - 1));
      if e > previous.maxError {
        assert FirstWithError(reference, approximation, start, step, n - 1, acc.maxError);
      } else if acc.maxError != 0.0 {
        var i :| 0 <= i < n - 1 && previous.maxErrorInput == SampleAt(start, step, i)
                 && FirstWithError(reference, approximation, start, step, i, previous.maxError);
        assert 0 <= i < n && acc.maxErrorInput == SampleAt(start, step, i);
      }
    }
  }

  /** The largest relative error is non-negative and bounds the relative error
      of every measurable sample. */
  lemma {:induction false} MaxRelativeErrorBoundsMeasurableSamples(reference: real -> real, approximation: real -> real, start: real, step: real, n: nat)
    ensures var acc := Accumulate(reference, approximation, start, step, n);
      && acc.maxRelativeError >= 0.0
      && forall i :: 0 <= i < n && Measurable(reference, SampleAt(start, step, i)) ==>
           RelativeError(reference, approximation, SampleAt(start, step, i)) <= acc.maxRelativeError
  {
    if n > 0 {
      MaxRelativeErrorBoundsMeasurableSamples(reference, approximation, start, step, n - 1);
    }
  }

  /** Sample i is the first measurable one whose relative error reaches e. */
  predicate FirstWithRelativeError(reference: real -> real, approximation: real -> real, start: real, step: real, i: nat, e: real)
  {
    && Measurable(reference, SampleAt(start, step, i))
    && RelativeError(reference, approximation, SampleAt(start, step, i)) == e
    && forall j :: 0 <= j < i && Measurable(reference, SampleAt(start, step, j)) ==>
         RelativeError(reference, approximation, SampleAt(start, step, j)) < e
  }

  /** The largest relative error is either 0, with its input still 0.0, or the
      relative error of a measurable sample that is the first to reach it, and
      its input is that sample. */
  lemma {:induction false} MaxRelativeErrorIsFirstAttained(reference: real -> real, approximation: real -> real, start: real, step: real, n: nat)
    ensures var acc := Accumulate(reference, approximation, start, step, n);
      && (acc.maxRelativeError == 0.0 ==> acc.maxRelativeErrorInput == 0.0)
      && (acc.maxRelativeError != 0.0 ==>
            exists i :: 0 <= i < n && acc.maxRelativeErrorInput == SampleAt(start, step, i)
                     && FirstWithRelativeError(reference, approximation, start, step, i, acc.maxRelativeError))
  {
    if n > 0 {
      var previous := Accumulate(reference, approximation, start, step, n - 1);
      var acc := Accumulate(reference, approximation, start, step, n);
      var x := SampleAt(start, step, n - 1);
      MaxRelativeErrorIsFirstAttained(reference, approximation, start, step, n - 1);
      MaxRelativeErrorBoundsMeasurableSamples(reference, approximation, start, step, n - 1);
      if Measurable(reference, x) && RelativeError(reference, approximation, x) > previous.maxRelativeError {
        assert FirstWithRelativeError(reference, approximation, start, step, n - 1, acc.maxRelativeError);
      } else if acc.maxRelativeError != 0.0 {
        var i :| 0 <= i < n - 1 && previous.maxRelativeErrorInput == SampleAt(start, step, i)
                 && FirstWithRelativeError(reference, approximation, start, step, i, previous.maxRelativeError);
        assert 0 <= i < n && acc.maxRelativeErrorInput == SampleAt(start, step, i);
      }
    }
  }

  /** When the approximation agrees with the reference at every sample, every
      statistic and both worst-case inputs stay at their initial 0. */
  lemma {:induction false} ExactAgreementGivesZeroStatistics(reference: real -> real, approximation: real -> real, start: real, step: real, n: nat)
    requires forall i :: 0 <= i < n ==> reference(SampleAt(start, step, i)) == approximation(SampleAt(start, step, i))
    ensures Accumulate(reference, approximation, start, step, n) == INITIAL
  {
    if n > 0 {
      ExactAgreementGivesZeroStatistics(reference, approximation, start, step, n - 1);
      var x := SampleAt(start, step, n - 1);
      assert reference(x) == approximation(x);
    }
  }

  /** The sampling loop as the accuracy test runs it for one approximation,
      for `points` iterations (none when `points` is not positive). */
  method MeasureAccuracy(reference: real -> real, approximation: real -> real, start: real, step: real, points: int)
    returns (acc: Accumulator)
    ensures acc == Accumulate(reference, approximation, start, step, if points > 0 then points else 0)
  {
    var totalError := 0.0;
    var maxError := 0.0;
    var maxErrorInput := 0.0;
    var maxRelativeError := 0.0;
    var maxRelativeErrorInput := 0.0;
    var i := 0;
    while i < points
      invariant 0 <= i && (points > 0 ==> i <= points) && (points <= 0 ==> i == 0)
      invariant Accumulator(totalError, maxError, maxErrorInput, maxRelativeError, maxRelativeErrorInput)
        == Accumulate(reference, approximation, start, step, i)
    {
      ghost var before := Accumulator(totalError, maxError, maxErrorInput, maxRelativeError, maxRelativeErrorInput);
      var x := start + i as real * step;
      var referenceValue := reference(x);
      var approximationValue := approximation(x);
      var absError := Abs(referenceValue - approximationValue);
      totalError := totalError + absError;
      if absError > maxError {
        maxError := absError;
        maxErrorInput := x;
      }
      if Abs(referenceValue) > RELATIVE_THRESHOLD {
        var relativeError := absError / Abs(referenceValue);
        if relativeError > maxRelativeError {
          maxRelativeError := relativeError;
          maxRelativeErrorInput := x;
        }
      }
      assert Accumulator(totalError, maxError, maxErrorInput, maxRelativeError, maxRelativeErrorInput)
        == Observe(before, referenceValue, approximationValue, x);
      assert x == SampleAt(start, step, i);
      assert Accumulate(reference, approximation, start, step, i + 1)
        == Observe(Accumulate(reference, approximation, start, step, i), reference(x), approximation(x), x);
      i := i + 1;
    }
    acc := Accumulator(totalError, maxError, maxErrorInput, maxRelativeError, maxRelativeErrorInput);
  }

  /** What the accuracy test reports for one approximation. */
  datatype ErrorStatistics = ErrorStatistics(
    averageError: real,
    maxError: real,
    maxErrorInput: real,
    maxRelativeError: real,
    maxRelativeErrorInput: real)

  /** The grid spacing `(end - start) / points`: `points` steps of it span
      the range exactly. */
  function Step(start: real, end: real, points: int): (step: real)
    requires points != 0
    ensures step * points as real == end - start
  {
    (end - start) / points as real
  }

  /** What the test reports from the loop variables: the total divided by
      `points`, so that the average times `points` is the total; the maxima
      and their inputs as the loop left them. */
  function Report(acc: Accumulator, points: int): (s: ErrorStatistics)
    requires points != 0
    ensures s.averageError * points as real == acc.totalError
    ensures (s.maxError, s.maxErrorInput) == (acc.maxError, acc.maxErrorInput)
    ensures (s.maxRelativeError, s.maxRelativeErrorInput) == (acc.maxRelativeError, acc.maxRelativeErrorInput)
  {
    ErrorStatistics(acc.totalError / points as real, acc.maxError, acc.maxErrorInput, acc.maxRelativeError, acc.maxRelativeErrorInput)
  }

  /** The report for one approximation over [start, end] with `points`
      samples: the loop's statistics, the total divided by `points`. The
      average and both maxima are never negative, whatever the sign of
      `points`. */
  function Statistics(reference: real -> real, approximation: real -> real, start: real, end: real, points: int): (s: ErrorStatistics)
    requires points != 0
    ensures s.averageError >= 0.0 && s.maxError >= 0.0 && s.maxRelativeError >= 0.0
  {
    var acc := Accumulate(reference, approximation, start, Step(start, end, points), if points > 0 then points else 0);
    assert points < 0 ==> acc.totalError == 0.0;
    Report(acc, points)
  }

  /** For a positive number of points the average is the mean of the absolute
      errors of all samples, and so non-negative. */
  lemma AverageIsMeanError(reference: real -> real, approximation: real -> real, start: real, end: real, points: int)
    requires points > 0
    ensures var s := Statistics(reference, approximation, start, end, points);
      && s.averageError * points as real == SumOfErrors(reference, approximation, start, Step(start, end, points), points)
      && s.averageError >= 0.0
  {
    var total := SumOfErrors(reference, approximation, start, Step(start, end, points), points);
    TotalIsSumOfErrors(reference, approximation, start, Step(start, end, points), points);
    SumOfErrorsIsNonNegative(reference, approximation, start, Step(start, end, points), points);
    MeanTimesCount(total, points as real);
  }

  lemma {:induction false} SumOfErrorsIsNonNegative(reference: real -> real, approximation: real -> real, start: real, step: real, n: nat)
    ensures SumOfErrors(reference, approximation, start, step, n) >= 0.0
  {
    if n > 0 {
      SumOfErrorsIsNonNegative(reference, approximation, start, step, n - 1);
    }
  }

  lemma MeanTimesCount(total: real, count: real)
    requires total >= 0.0 && count > 0.0
    ensures (total / count) * count == total && total / count >= 0.0
  {
  }

  /** With a negative number of points nothing is sampled, and every
      statistic is 0. */
  lemma NoSamplesForNegativePoints(reference: real -> real, approximation: real -> real, start: real, end: real, points: int)
    requires points < 0
    ensures Statistics(reference, approximation, start, end, points) == ErrorStatistics(0.0, 0.0, 0.0, 0.0, 0.0)
  {
  }

  /** The samples run from `start` toward `end` and stop one step short of it:
      for start != end, `end` itself is never sampled. */
  lemma SamplesStopBeforeEnd(start: real, end: real, points: int, i: nat)
    requires 0 <= i < points
    ensures var x := SampleAt(start, Step(start, end, points), i);
      && (start < end ==> start <= x < end)
      && (start > end ==> end < x <= start)
      && (start == end ==> x == start)
  {
    var step := Step(start, end, points);
    var n := points as real;
    assert step * n == end - start;
    var k := i as real;
    assert 0.0 <= k <= n - 1.0;
    if start < end {
      assert step > 0.0;
      assert k * step <= (n - 1.0) * step;
    } else if start > end {
      assert step < 0.0;
      assert k * step >= (n - 1.0) * step;
    }
  }
}
