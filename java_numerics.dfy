/** The pieces of Java arithmetic the sine variants rely on, over exact reals:
    `Math.abs`, the `(int)` cast of an in-range value (truncation toward zero),
    the remainder operator `%` on doubles (truncated division), and powers. */
module JavaNumerics {

  /** `Math.abs`. */
  function Abs(x: real): (r: real)
    ensures r >= 0.0
    ensures r == x || r == -x
  {
    if x < 0.0 then -x else x
  }

  /** The `(int)` cast of a value within `int` range: rounds toward zero. */
  function Truncate(q: real): (n: int)
    ensures q >= 0.0 ==> 0.0 <= n as real <= q < n as real + 1.0
    ensures q < 0.0 ==> n as real - 1.0 < q <= n as real <= 0.0
  {
    if q >= 0.0 then q.Floor else -((-q).Floor)
  }

  /** Truncation commutes with negation, so the cast is an odd function. */
  lemma TruncateIsOdd(q: real)
    ensures Truncate(-q) == -Truncate(q)
  {
    if q > 0.0 {
      assert -q < 0.0;
    } else if q < 0.0 {
      assert -q > 0.0;
    }
  }

  /** Java's `x % m` on doubles, for a positive modulus: the remainder of the
      division truncated toward zero. It carries the dividend's sign, is smaller
      than the modulus in magnitude, and differs from `x` by a whole multiple of
      the modulus. */
  function JavaRem(x: real, m: real): (r: real)
    requires m > 0.0
    ensures x >= 0.0 ==> 0.0 <= r < m
    ensures x <= 0.0 ==> -m < r <= 0.0
    ensures x - r == (Truncate(x / m) as real) * m
  {
    TruncatedQuotient(x, m);
    x - (Truncate(x / m) as real) * m
  }

  lemma TruncatedQuotient(x: real, m: real)
    requires m > 0.0
    ensures var r := x - (Truncate(x / m) as real) * m;
      && (x >= 0.0 ==> 0.0 <= r < m)
      && (x <= 0.0 ==> -m < r <= 0.0)
  {
    var t := x / m;
    var q := Truncate(t) as real;
    assert x == t * m;
    if x > 0.0 {
      RemainderBelow(x, m, t, q);
    } else if x < 0.0 {
      RemainderAbove(x, m, t, q);
    } else {
      assert t == 0.0 && q == 0.0;
    }
  }

  /** The remainder left by a quotient truncated down lies in [0, m). */
  lemma RemainderBelow(x: real, m: real, t: real, q: real)
    requires m > 0.0 && x == t * m && 0.0 <= t - q < 1.0
    ensures 0.0 <= x - q * m < m
  {
    var d := t - q;
    assert x - q * m == d * m;
    assert (1.0 - d) * m > 0.0;
  }

  /** The remainder left by a quotient truncated up lies in (-m, 0]. */
  lemma RemainderAbove(x: real, m: real, t: real, q: real)
    requires m > 0.0 && x == t * m && -1.0 < t - q <= 0.0
    ensures -m < x - q * m <= 0.0
  {
    var d := q - t;
    assert q * m - x == d * m;
    assert (1.0 - d) * m > 0.0;
  }

  /** The remainder of a negated dividend is the negated remainder. */
  lemma JavaRemIsOdd(x: real, m: real)
    requires m > 0.0
    ensures JavaRem(-x, m) == -JavaRem(x, m)
  {
    assert -x / m == -(x / m);
    TruncateIsOdd(x / m);
  }

  /** `x` raised to a natural power. */
  function Pow(x: real, n: nat): real
  {
    if n == 0 then 1.0 else x * Pow(x, n - 1)
  }

  /** 2 raised to a natural power, as an integer (`1 << i` for small `i`). */
  function Pow2(n: nat): (r: nat)
    ensures r >= 1
  {
    if n == 0 then 1 else 2 * Pow2(n - 1)
  }
}
