/** Odd polynomials in Horner form, as the sine variants evaluate them:
    `a * (c0 - s * (c1 - s * (c2 - ...)))` with `s = a * a`. */
module OddPolynomials {
  import opened JavaNumerics

  /** `c0 - s * (c1 - s * (c2 - ... - s * c(n-1)))`. */
  function Horner(c: seq<real>, s: real): real
  {
    if c == [] then 0.0 else c[0] - s * Horner(c[1..], s)
  }

  /** The k-th term of the expanded form: `c[k] * (-s)^k`. */
  function Term(c: seq<real>, s: real, k: nat): real
    requires k < |c|
  {
    c[k] * Pow(-s, k)
  }

  /** The sum of the first n terms of the expanded form. */
  function PowerSum(c: seq<real>, s: real, n: nat): real
    requires n <= |c|
  {
    if n == 0 then 0.0 else PowerSum(c, s, n - 1) + Term(c, s, n - 1)
  }

  /** Dropping the leading coefficient shifts every later term down one power
      and flips its sign. */
  lemma TermShift(c: seq<real>, s: real, k: nat)
    requires k + 1 < |c|
    ensures Term(c, s, k + 1) == -s * Term(c[1..], s, k)
  {
    assert c[1..][k] == c[k + 1];
    ScaleInside(c[k + 1], -s, Pow(-s, k));
  }

  lemma ScaleInside(a: real, b: real, p: real)
    ensures a * (b * p) == b * (a * p)
  {
  }

  lemma {:induction false} PowerSumShift(c: seq<real>, s: real, n: nat)
    requires n < |c|
    ensures PowerSum(c, s, n + 1) == c[0] - s * PowerSum(c[1..], s, n)
  {
    if n == 0 {
      PowerSumShiftBase(c, s);
    } else {
      PowerSumShift(c, s, n - 1);
      PowerSumShiftStep(c, s, n);
    }
  }

  lemma PowerSumShiftBase(c: seq<real>, s: real)
    requires 0 < |c|
    ensures PowerSum(c, s, 1) == c[0] - s * PowerSum(c[1..], s, 0)
  {
    assert PowerSum(c, s, 1) == Term(c, s, 0);
    assert PowerSum(c[1..], s, 0) == 0.0;
  }

  /** One induction step of PowerSumShift: from n terms to n + 1. */
  lemma PowerSumShiftStep(c: seq<real>, s: real, n: nat)
    requires 0 < n < |c|
    requires PowerSum(c, s, n) == c[0] - s * PowerSum(c[1..], s, n - 1)
    ensures PowerSum(c, s, n + 1) == c[0] - s * PowerSum(c[1..], s, n)
  {
    TermShift(c, s, n - 1);
    PowerSumUnfold(c, s, n + 1);
    PowerSumUnfold(c[1..], s, n);
    AppendTerm(PowerSum(c, s, n + 1), PowerSum(c, s, n), Term(c, s, n),
               PowerSum(c[1..], s, n), PowerSum(c[1..], s, n - 1), Term(c[1..], s, n - 1), c[0], s);
  }

  lemma PowerSumUnfold(c: seq<real>, s: real, n: nat)
    requires 0 < n <= |c|
    ensures PowerSum(c, s, n) == PowerSum(c, s, n - 1) + Term(c, s, n - 1)
  {
  }

  /** The algebra of one induction step of PowerSumShift, on plain numbers. */
  lemma AppendTerm(total: real, sum: real, term: real, shifted: real, rest: real, last: real, c0: real, s: real)
    requires total == sum + term && shifted == rest + last
    requires sum == c0 - s * rest && term == -s * last
    ensures total == c0 - s * shifted
  {
  }

  /** Horner evaluation computes the expanded polynomial
      `c0 - c1 * s + c2 * s^2 - ...`. */
  lemma {:induction false} HornerIsPowerSum(c: seq<real>, s: real)
    ensures Horner(c, s) == PowerSum(c, s, |c|)
  {
    if c != [] {
      HornerIsPowerSum(c[1..], s);
      PowerSumShift(c, s, |c| - 1);
    }
  }

  /** `a * Horner(c, a * a)`: an odd polynomial in `a`. */
  function OddHorner(c: seq<real>, a: real): real
  {
    a * Horner(c, a * a)
  }

  /** It depends on `a` only through its square, so it is an odd function,
      and it vanishes at 0. */
  lemma OddHornerIsOdd(c: seq<real>, a: real)
    ensures OddHorner(c, -a) == -OddHorner(c, a)
    ensures OddHorner(c, 0.0) == 0.0
  {
    assert (-a) * (-a) == a * a;
  }
}
