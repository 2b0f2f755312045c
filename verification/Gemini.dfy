/**
 The Gemini fold loop of shplemini.rs: reconstructing the positive fold
 evaluations from the batched evaluation and the negative ones.
 */
module Gemini {
  import opened PrimeFields
  import opened Polynomials
  import opened Multilinear

  /** r, r^2, r^4, ... */
  function RPower(r: int, j: nat): int {
    if j == 0 then r else RPower(r, j - 1) * RPower(r, j - 1)
  }

  /** The denominator of fold round `j`: r^(2^j) (1 - u_j) + u_j. */
  function FoldDenominator(r: int, us: seq<int>, j: nat): int
    requires j < |us|
  {
    RPower(r, j) * (1 - us[j]) + us[j]
  }

  /** The evaluation the fold of round `j` starts from. */
  function Above(n: nat, batched: int, fold: seq<int>, j: nat): int
    requires j < n <= |fold|
  {
    if j + 1 < n then fold[j + 1] else batched
  }

  /** `fold` solves the downward recurrence of the fold loop. */
  ghost predicate SolvesFolds(f: Field, n: nat, r: int, us: seq<int>, negative: seq<int>, batched: int, fold: seq<int>)
    requires n <= |us| && n <= |negative| && n <= |fold|
  {
    forall j :: 0 <= j < n ==> SolvesFold(f, n, r, us, negative, batched, fold, j)
  }

  /** The equation of round `j`. */
  ghost predicate SolvesFold(f: Field, n: nat, r: int, us: seq<int>, negative: seq<int>, batched: int, fold: seq<int>, j: nat)
    requires j < n <= |us| && n <= |negative| && n <= |fold|
  {
    f.Eq(FoldDenominator(r, us, j) * fold[j],
         2 * RPower(r, j) * Above(n, batched, fold, j) - negative[j] * (RPower(r, j) * (1 - us[j]) - us[j]))
  }

  /** The claims a prover makes about table `t`: its evaluation and the negative fold evaluations. */
  ghost predicate HonestClaims(f: Field, t: seq<int>, n: nat, r: int, us: seq<int>, negative: seq<int>, batched: int)
    requires n <= |us| && n <= |negative| && |t| == Pow2(n)
  {
    && f.Eq(batched, Mle(t, us[..n]))
    && forall j :: 0 <= j < n ==> f.Eq(negative[j], Eval(FoldTo(t, us, j), -RPower(r, j)))
  }

  /**
   From the multilinear evaluation and A_j(-r^(2^j)) the loop reconstructs
   A_j(r^(2^j)) for every round.
   */
  lemma {:induction false} FoldsReconstruct(f: PrimeField, t: seq<int>, n: nat, r: int, us: seq<int>,
                                            negative: seq<int>, batched: int, fold: seq<int>, j: nat)
    requires j < n <= |us| && n <= |negative| && n <= |fold| && |t| == Pow2(n)
    requires forall k :: 0 <= k < n ==> !f.Eq(FoldDenominator(r, us, k), 0)
    requires HonestClaims(f, t, n, r, us, negative, batched)
    requires SolvesFolds(f, n, r, us, negative, batched, fold)
    ensures f.Eq(fold[j], Eval(FoldTo(t, us, j), RPower(r, j)))
    decreases n - j
  {
    hide Field.Red, Field.Eq, IsPrime, Eval, Fold, Mle, SolvesFolds, HonestClaims;
    var x, u, tj, next := RPower(r, j), us[j], FoldTo(t, us, j), Above(n, batched, fold, j);
    Round(f, t, n, r, us, negative, batched, fold, j);
    if j + 1 < n {
      FoldsReconstruct(f, t, n, r, us, negative, batched, fold, j + 1);
    } else {
      LastFold(t, us, n, x * x);
    }
    assert f.Eq(next, Eval(Fold(tj, u), x * x));
    FoldToLength(t, us, n, j);
    FoldIdentity(tj, u, x);
    FoldStep(f, x, u, next, Eval(Fold(tj, u), x * x), negative[j], Eval(tj, -x), Eval(tj, x), fold[j]);
  }

  /** What the hypotheses say about round `j`. */
  lemma Round(f: PrimeField, t: seq<int>, n: nat, r: int, us: seq<int>, negative: seq<int>, batched: int, fold: seq<int>, j: nat)
    requires j < n <= |us| && n <= |negative| && n <= |fold| && |t| == Pow2(n)
    requires forall k :: 0 <= k < n ==> !f.Eq(FoldDenominator(r, us, k), 0)
    requires HonestClaims(f, t, n, r, us, negative, batched) && SolvesFolds(f, n, r, us, negative, batched, fold)
    ensures !f.Eq(FoldDenominator(r, us, j), 0) && SolvesFold(f, n, r, us, negative, batched, fold, j)
    ensures f.Eq(negative[j], Eval(FoldTo(t, us, j), -RPower(r, j))) && f.Eq(batched, Mle(t, us[..n]))
  {
    hide Field.Eq, IsPrime, Eval, FoldTo, Mle, FoldDenominator, SolvesFold, RPower;
  }

  lemma FoldStep(f: PrimeField, x: int, u: int, next: int, e: int, neg: int, minus: int, plus: int, folded: int)
    requires f.Eq(next, e) && f.Eq(neg, minus)
    requires 2 * x * e == (x * (1 - u) + u) * plus + (x * (1 - u) - u) * minus
    requires f.Eq((x * (1 - u) + u) * folded, 2 * x * next - neg * (x * (1 - u) - u))
    requires !f.Eq(x * (1 - u) + u, 0)
    ensures f.Eq(folded, plus)
  {
    hide Field.Red, IsPrime;
    var d, h := x * (1 - u) + u, x * (1 - u) - u;
    EqMul(f, 2 * x, 2 * x, next, e);
    EqMul(f, neg, minus, h, h);
    EqSub(f, 2 * x * next, 2 * x * e, neg * h, minus * h);
    assert 2 * x * e - minus * h == d * plus;
    Cancel(f, d, folded, plus);
  }

  lemma LastFold(t: seq<int>, us: seq<int>, n: nat, x: int)
    requires n <= |us| && |t| == Pow2(n)
    ensures Eval(FoldTo(t, us, n), x) == Mle(t, us[..n])
  {
    FoldAll(t, us[..n]);
    FoldToPrefix(t, us, n, n);
    var v := Mle(t, us[..n]);
    assert Eval([v], x) == v + x * Eval([v][1..], x);
  }

  lemma {:induction false} FoldToPrefix(t: seq<int>, us: seq<int>, n: nat, j: nat)
    requires j <= n <= |us|
    ensures FoldTo(t, us[..n], j) == FoldTo(t, us, j)
  {
    if j > 0 { FoldToPrefix(t, us, n, j - 1); }
  }
}
