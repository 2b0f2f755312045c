/** Challenges that happen to be roots of a polynomial fixed before they were drawn. */
module LuckyChallenges {
  import opened PrimeFields
  import opened Polynomials

  function Coefficient(c: seq<int>, i: nat): int { if i < |c| then c[i] else 0 }

  ghost predicate NonZero(f: Field, c: seq<int>) { exists i: nat :: i < |c| && !f.Eq(Coefficient(c, i), 0) }

  /** `x` is a root of a polynomial that is not zero. */
  ghost predicate Lucky(f: Field, c: seq<int>, x: int) { NonZero(f, c) && f.Eq(Eval(c, x), 0) }

  lemma {:induction false} ZeroEverywhere(f: Field, c: seq<int>, x: int)
    requires !NonZero(f, c)
    ensures f.Eq(Eval(c, x), 0)
  {
    hide Field.Red;
    if c != [] {
      var d := c[1..];
      forall i: nat | i < |d| ensures f.Eq(Coefficient(d, i), 0) { assert f.Eq(Coefficient(c, i + 1), 0); }
      ZeroEverywhere(f, d, x);
      assert f.Eq(Coefficient(c, 0), 0);
      EqMul(f, x, x, Eval(d, x), 0);
      EqAdd(f, c[0], 0, x * Eval(d, x), 0);
    }
  }

  /** A polynomial that vanishes everywhere has only zero coefficients, in a field with enough elements. */
  lemma {:induction false} ZeroCoefficients(f: PrimeField, c: seq<int>, i: nat)
    requires |c| <= f.p && i < |c| && forall x :: f.Eq(Eval(c, x), 0)
    ensures f.Eq(c[i], 0)
  {
    hide Field.Red, IsPrime;
    if i == 0 {
      assert f.Eq(Eval(c, 0), 0);
    } else {
      var d := c[1..];
      var points := seq(|d|, k requires 0 <= k => k + 1);
      forall j, k | 0 <= j < k < |points| ensures !f.Eq(points[j], points[k]) { SmallDistinct(f, points[j], points[k]); }
      forall k | 0 <= k < |points| ensures f.Eq(Eval(d, points[k]), 0) {
        var x := points[k];
        assert f.Eq(Eval(c, x), 0) && f.Eq(Eval(c, 0), 0);
        ShiftedRoot(f, c, x);
      }
      forall x ensures f.Eq(Eval(d, x), 0) { TooManyRoots(f, d, points, x); }
      ZeroCoefficients(f, d, i - 1);
    }
  }

  lemma ShiftedRoot(f: PrimeField, c: seq<int>, x: int)
    requires c != [] && 0 < x < f.p && f.Eq(Eval(c, x), 0) && f.Eq(Eval(c, 0), 0)
    ensures f.Eq(Eval(c[1..], x), 0)
  {
    hide Field.Red, IsPrime;
    assert Eval(c, 0) == c[0];
    EqSub(f, Eval(c, x), 0, c[0], 0);
    SmallDistinct(f, x, 0);
    NoZeroDivisors(f, x, Eval(c[1..], x));
  }

  /** There are fewer lucky challenges than coefficients. */
  lemma FewLucky(f: PrimeField, c: seq<int>, roots: seq<int>)
    requires |c| <= f.p && Distinct(f, roots) && forall i :: 0 <= i < |roots| ==> Lucky(f, c, roots[i])
    ensures |roots| == 0 || |roots| < |c|
  {
    hide Field.Red, IsPrime, Eval;
    if |roots| > 0 && |roots| >= |c| {
      assert Lucky(f, c, roots[0]);
      var i: nat :| i < |c| && !f.Eq(Coefficient(c, i), 0);
      forall k | 0 <= k < |roots| ensures f.Eq(Eval(c, roots[k]), 0) { assert Lucky(f, c, roots[k]); }
      forall x ensures f.Eq(Eval(c, x), 0) { TooManyRoots(f, c, roots, x); }
      ZeroCoefficients(f, c, i);
    }
  }
}
