/** The deterministic part of the performance test: a pool of 1000 test values
    drawn once, and for every implementation a loop of `iterations` calls whose
    i-th call reads the pool at `i % 1000`, summing the results so that the
    calls cannot be optimised away. Wall-clock timing is not modelled; the
    random draws are a parameter. */
module PerformanceRun {

  /** The size of the test-value pool. */
  const TEST_VALUE_COUNT: nat := 1000

  /** The inputs of the first n calls: call i reads `pool[i % |pool|]`. */
  function CallInputs(pool: seq<real>, n: nat): (inputs: seq<real>)
    requires |pool| > 0
    ensures |inputs| == n
  {
    if n == 0 then [] else CallInputs(pool, n - 1) + [pool[(n - 1) % |pool|]]
  }

  /** Call i, for every i below n, reads the pool at `i % |pool|`. */
  lemma {:induction false} CallInputsCycle(pool: seq<real>, n: nat)
    requires |pool| > 0
    ensures forall i :: 0 <= i < n ==> CallInputs(pool, n)[i] == pool[i % |pool|]
  {
    if n > 0 {
      CallInputsCycle(pool, n - 1);
    }
  }

  /** The sum of f over xs, added in order. */
  function SumOf(f: real -> real, xs: seq<real>): real
  {
    if |xs| == 0 then 0.0 else SumOf(f, xs[..|xs| - 1]) + f(xs[|xs| - 1])
  }

  lemma {:induction false} SumOfConcat(f: real -> real, xs: seq<real>, ys: seq<real>)
    ensures SumOf(f, xs + ys) == SumOf(f, xs) + SumOf(f, ys)
    decreases |ys|
  {
    if |ys| > 0 {
      var last := |ys| - 1;
      assert (xs + ys)[..|xs + ys| - 1] == xs + ys[..last];
      SumOfConcat(f, xs, ys[..last]);
    } else {
      assert xs + ys == xs;
    }
  }

  /** Call n adds f of the pool value at `n % |pool|` to the sum. */
  lemma SumOfNextCall(f: real -> real, pool: seq<real>, n: nat)
    requires |pool| > 0
    ensures SumOf(f, CallInputs(pool, n + 1)) == SumOf(f, CallInputs(pool, n)) + f(pool[n % |pool|])
  {
    SumOfAppend(f, CallInputs(pool, n), pool[n % |pool|]);
  }

  /** After n = k whole passes, one more pass appends the pool itself. */
  lemma WholePassAppendsPool(pool: seq<real>, k: nat, n: nat)
    requires |pool| > 0 && n == k * |pool|
    ensures CallInputs(pool, n + |pool|) == CallInputs(pool, n) + pool
  {
    var m := |pool|;
    var longer := CallInputs(pool, n + m);
    var shorter := CallInputs(pool, n);
    CallInputsCycle(pool, n + m);
    CallInputsCycle(pool, n);
    forall i | 0 <= i < n + m
      ensures longer[i] == (shorter + pool)[i]
    {
      if i >= n {
        ModUnique(i, m, k, i - n);
      }
    }
  }

  /** The Euclidean remainder is the only r in [0, m) with a == q * m + r. */
  lemma ModUnique(a: int, m: int, q: int, r: int)
    requires m > 0 && 0 <= r < m && a == q * m + r
    ensures a % m == r
  {
    var q', r' := a / m, a % m;
    assert a == q' * m + r';
    assert (q - q') * m == r' - r;
    if q > q' {
      MulAtLeast(q - q', m);
    } else if q < q' {
      MulAtLeast(q' - q, m);
    }
  }

  lemma MulAtLeast(d: int, m: int)
    requires d >= 1 && m > 0
    ensures d * m >= m
  {
  }

  /** The first |pool| calls read the pool once, in order. */
  lemma FirstPassReadsPoolInOrder(pool: seq<real>)
    requires |pool| > 0
    ensures CallInputs(pool, |pool|) == pool
  {
    CallInputsCycle(pool, |pool|);
    forall i | 0 <= i < |pool|
      ensures CallInputs(pool, |pool|)[i] == pool[i]
    {
      ModUnique(i, |pool|, 0, i);
    }
  }

  /** Every whole pass over the pool adds exactly the sum of f over the pool:
      with n a multiple of the pool size, n + |pool| calls sum to the first n
      calls plus one pass. */
  lemma WholePassAddsPoolSum(f: real -> real, pool: seq<real>, k: nat, n: nat)
    requires |pool| > 0 && n == k * |pool|
    ensures SumOf(f, CallInputs(pool, n + |pool|)) == SumOf(f, CallInputs(pool, n)) + SumOf(f, pool)
  {
    WholePassAppendsPool(pool, k, n);
    SumOfConcat(f, CallInputs(pool, n), pool);
  }

  lemma SumOfAppend(f: real -> real, xs: seq<real>, x: real)
    ensures SumOf(f, xs + [x]) == SumOf(f, xs) + f(x)
  {
    assert (xs + [x])[..|xs|] == xs;
  }

  /** Each random draw scaled by 10. */
  function ScaledDraws(draws: seq<real>): (pool: seq<real>)
    ensures |pool| == |draws|
  {
    seq(|draws|, i requires 0 <= i < |draws| => draws[i] * 10.0)
  }

  /** The pool: each random draw in [0, 1) scaled by 10, written into a fresh
      array of 1000 values. */
  method MakeTestValues(draws: seq<real>) returns (testValues: array<real>)
    requires |draws| == TEST_VALUE_COUNT
    requires forall i :: 0 <= i < |draws| ==> 0.0 <= draws[i] < 1.0
    ensures fresh(testValues) && testValues.Length == TEST_VALUE_COUNT
    ensures testValues[..] == ScaledDraws(draws)
    ensures forall i :: 0 <= i < TEST_VALUE_COUNT ==> 0.0 <= testValues[i] < 10.0
  {
    testValues := new real[TEST_VALUE_COUNT];
    var i := 0;
    while i < testValues.Length
      invariant 0 <= i <= testValues.Length
      invariant forall j :: 0 <= j < i ==> testValues[j] == draws[j] * 10.0
    {
      testValues[i] := draws[i] * 10.0;
      i := i + 1;
    }
  }

  /** One timed loop: `iterations` calls of f, the i-th on
      `testValues[i % testValues.Length]`, summed in order (no call when
      `iterations` is not positive). */
  method SumOverCalls(f: real -> real, testValues: array<real>, iterations: int) returns (sum: real)
    requires testValues.Length > 0
    ensures sum == SumOf(f, CallInputs(testValues[..], if iterations > 0 then iterations else 0))
  {
    sum := 0.0;
    var i := 0;
    while i < iterations
      invariant 0 <= i && (iterations > 0 ==> i <= iterations) && (iterations <= 0 ==> i == 0)
      invariant sum == SumOf(f, CallInputs(testValues[..], i))
    {
      var x := testValues[i % testValues.Length];
      SumOfNextCall(f, testValues[..], i);
      sum := sum + f(x);
      i := i + 1;
    }
  }
}
