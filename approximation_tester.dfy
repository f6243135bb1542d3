/** The accuracy and performance tester: a reference function and a table of
    named approximations of it, compared over a uniform grid of inputs
    (accuracy) or over repeated calls on a pool of test values (performance).
    Reports are returned as values keyed by approximation name instead of
    being printed; no order of the names is promised. */
module ApproximationTesting {
  import opened Wrappers
  import opened AccuracyStatistics
  import opened PerformanceRun

  /** Why a test stops before evaluating any function. */
  datatype TestError =
    | ReferenceNotSet
    | NoApproximations
      /** `points == 0`: the grid spacing and the average would divide by zero. */
    | NoSamplePoints

  /** The sums the performance test accumulates (the timings are not modelled). */
  datatype PerformanceReport = PerformanceReport(referenceSum: real, approximationSums: map<string, real>)

  class ApproximationTester {
    const functionName: string
    var referenceFunction: Option<real -> real>
    var referenceName: Option<string>
    var approximations: map<string, real -> real>

    /** A tester with no reference and no approximations. */
    constructor(functionName: string)
      ensures this.functionName == functionName
      ensures referenceFunction == None && referenceName == None
      ensures approximations == map[]
    {
      this.functionName := functionName;
      referenceFunction := None;
      referenceName := None;
      approximations := map[];
    }

    /** Replaces both the reference function and its name. */
    method SetReferenceFunction(fn: real -> real, name: string)
      modifies this
      ensures referenceFunction == Some(fn) && referenceName == Some(name)
      ensures approximations == old(approximations)
    {
      referenceFunction := Some(fn);
      referenceName := Some(name);
    }

    /** Adds an approximation, replacing any earlier one of the same name. */
    method RegisterApproximation(fn: real -> real, name: string)
      modifies this
      ensures approximations == old(approximations)[name := fn]
      ensures referenceFunction == old(referenceFunction) && referenceName == old(referenceName)
    {
      approximations := approximations[name := fn];
    }

    /** The accuracy test over [start, end] with `points` samples. Without a
        reference or without approximations it stops before evaluating any
        function; otherwise every registered approximation gets exactly the
        statistics of the sampling loop, under its own name. */
    method TestRange(start: real, end: real, points: int) returns (result: Result<map<string, ErrorStatistics>, TestError>)
      ensures referenceFunction.None? <==> result == Err(ReferenceNotSet)
      ensures referenceFunction.Some? && approximations == map[] <==> result == Err(NoApproximations)
      ensures referenceFunction.Some? && approximations != map[] && points == 0 <==> result == Err(NoSamplePoints)
      ensures result.Ok? ==>
        && referenceFunction.Some? && points != 0
        && result.value.Keys == approximations.Keys
        && forall name :: name in result.value ==>
             result.value[name] == Statistics(referenceFunction.value, approximations[name], start, end, points)
    {
      if referenceFunction.None? {
        return Err(ReferenceNotSet);
      }
      if approximations == map[] {
        return Err(NoApproximations);
      }
      if points == 0 {
        return Err(NoSamplePoints);
      }
      var reference := referenceFunction.value;
      var step := Step(start, end, points);
      var results: map<string, ErrorStatistics> := map[];
      var remaining := approximations.Keys;
      while remaining != {}
        invariant remaining <= approximations.Keys
        invariant results.Keys == approximations.Keys - remaining
        invariant forall name :: name in results ==>
          results[name] == Statistics(reference, approximations[name], start, end, points)
        decreases remaining
      {
        var name :| name in remaining;
        var acc := MeasureAccuracy(reference, approximations[name], start, step, points);
        results := results[name := Report(acc, points)];
        remaining := remaining - {name};
      }
      return Ok(results);
    }

    /** The performance test: with a reference and at least one
        approximation, the pool of 1000 scaled draws is filled and every
        implementation is called `iterations` times on it, call i on
        `pool[i % 1000]`; the report holds the sums of the results. */
    method TestPerformance(iterations: int, draws: seq<real>) returns (result: Result<PerformanceReport, TestError>)
      requires |draws| == TEST_VALUE_COUNT
      requires forall i :: 0 <= i < |draws| ==> 0.0 <= draws[i] < 1.0
      ensures referenceFunction.None? <==> result == Err(ReferenceNotSet)
      ensures referenceFunction.Some? && approximations == map[] <==> result == Err(NoApproximations)
      ensures referenceFunction.Some? && approximations != map[] <==> result.Ok?
      ensures result.Ok? ==>
        var calls := CallInputs(ScaledDraws(draws), if iterations > 0 then iterations else 0);
        && referenceFunction.Some?
        && result.value.referenceSum == SumOf(referenceFunction.value, calls)
        && result.value.approximationSums.Keys == approximations.Keys
        && forall name :: name in result.value.approximationSums ==>
             result.value.approximationSums[name] == SumOf(approximations[name], calls)
    {
      if referenceFunction.None? {
        return Err(ReferenceNotSet);
      }
      if approximations == map[] {
        return Err(NoApproximations);
      }
      var testValues := MakeTestValues(draws);
      ghost var pool := testValues[..];
      ghost var calls := CallInputs(pool, if iterations > 0 then iterations else 0);
      var referenceSum := SumOverCalls(referenceFunction.value, testValues, iterations);
      var sums: map<string, real> := map[];
      var remaining := approximations.Keys;
      while remaining != {}
        invariant remaining <= approximations.Keys
        invariant sums.Keys == approximations.Keys - remaining
        invariant testValues[..] == pool
        invariant forall name :: name in sums ==> sums[name] == SumOf(approximations[name], calls)
        decreases remaining
      {
        var name :| name in remaining;
        var sum := SumOverCalls(approximations[name], testValues, iterations);
        sums := sums[name := sum];
        remaining := remaining - {name};
      }
      return Ok(PerformanceReport(referenceSum, sums));
    }
  }
}
