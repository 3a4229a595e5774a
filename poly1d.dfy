/**
  Evaluation of a polynomial given by its coefficients, highest-order term
  first, as numpy's `poly1d` object evaluates it (app.py builds one from the
  fitted coefficients and applies it to the future years). Evaluation is
  Horner's rule; `PowerSum` is the textbook definition of the same value,
  and `HornerIsPowerSum` proves the two agree on every input.
*/
module Poly1d {

  /** The value at `x` of the polynomial `coef[0]*x^(n-1) + ... + coef[n-1]`
      (n = |coef|), computed by Horner's rule: the last coefficient is the
      constant term, and an empty coefficient list is the zero polynomial. */
  function Horner(coef: seq<real>, x: real): real
    decreases |coef|
  {
    if |coef| == 0 then 0.0
    else Horner(coef[..|coef| - 1], x) * x + coef[|coef| - 1]
  }

  /** `x` raised to the natural power `n`. */
  function Pow(x: real, n: nat): real
  {
    if n == 0 then 1.0 else x * Pow(x, n - 1)
  }

  /** Reference definition: the sum over i of coef[i] * x^(|coef|-1-i). */
  function PowerSum(coef: seq<real>, x: real): real
    decreases |coef|
  {
    if |coef| == 0 then 0.0
    else coef[0] * Pow(x, |coef| - 1) + PowerSum(coef[1..], x)
  }

  /** One unfolding of `Horner`, stated once so that proofs need not unfold it. */
  lemma HornerStep(coef: seq<real>, x: real)
    requires |coef| > 0
    ensures Horner(coef, x) == Horner(coef[..|coef| - 1], x) * x + coef[|coef| - 1]
  {
  }

  /** One unfolding of `PowerSum`. */
  lemma PowerSumStep(coef: seq<real>, x: real)
    requires |coef| > 0
    ensures PowerSum(coef, x) == coef[0] * Pow(x, |coef| - 1) + PowerSum(coef[1..], x)
  {
  }

  /** One unfolding of `Pow`. */
  lemma PowStep(x: real, n: nat)
    requires n > 0
    ensures Pow(x, n) == x * Pow(x, n - 1)
  {
  }

  /** The ring identity that moves one factor `x` out of a sum. */
  lemma Regroup(a: real, p: real, t: real, x: real, d: real)
    ensures a * (x * p) + (t * x + d) == (a * p + t) * x + d
  {
  }

  /** Appending a new lowest-order coefficient multiplies the old polynomial
      by `x` and adds the new constant term. */
  lemma {:induction false} PowerSumAppend(coef: seq<real>, d: real, x: real)
    ensures PowerSum(coef + [d], x) == PowerSum(coef, x) * x + d
    decreases |coef|
  {
    if |coef| == 0 {
      assert coef + [d] == [d];
      PowerSumStep([d], x);
    } else {
      var c := coef + [d];
      var n := |coef|;
      assert c[0] == coef[0];
      assert c[1..] == coef[1..] + [d];
      PowerSumAppend(coef[1..], d, x);
      PowerSumStep(c, x);
      PowerSumStep(coef, x);
      PowStep(x, n);
      Regroup(coef[0], Pow(x, n - 1), PowerSum(coef[1..], x), x, d);
    }
  }

  /** Horner's rule computes the polynomial's value: the result equals the
      sum of every coefficient times the matching power of `x`. */
  lemma {:induction false} HornerIsPowerSum(coef: seq<real>, x: real)
    ensures Horner(coef, x) == PowerSum(coef, x)
    decreases |coef|
  {
    if |coef| > 0 {
      var init := coef[..|coef| - 1];
      var last := coef[|coef| - 1];
      HornerStep(coef, x);
      HornerIsPowerSum(init, x);
      assert init + [last] == coef;
      PowerSumAppend(init, last, x);
    }
  }

  /** For the degree-2 fit app.py asks for by default, the curve is
      a*x^2 + b*x + c. */
  lemma HornerDegreeTwo(a: real, b: real, c: real, x: real)
    ensures Horner([a, b, c], x) == a * x * x + b * x + c
  {
    assert [a, b, c][..2] == [a, b];
    assert [a, b][..1] == [a];
    assert [a][..0] == [];
    assert Horner([a], x) == a;
    assert Horner([a, b], x) == a * x + b;
    calc {
      Horner([a, b, c], x);
      (a * x + b) * x + c;
      a * x * x + b * x + c;
    }
  }
}
