/**
 Univariate polynomials over the prime field, as coefficient sequences with the
 constant term first.  Evaluation is over the integers; statements about field
 values use `f.Eq`.
 */
module Polynomials {
  import opened PrimeFields

  function Eval(c: seq<int>, x: int): int {
    if c == [] then 0 else c[0] + x * Eval(c[1..], x)
  }

  ghost predicate Distinct(f: Field, xs: seq<int>) {
    forall i, j :: 0 <= i < j < |xs| ==> !f.Eq(xs[i], xs[j])
  }

  lemma {:induction false} EqEval(f: Field, c: seq<int>, x: int, y: int)
    requires f.Eq(x, y)
    ensures f.Eq(Eval(c, x), Eval(c, y))
  {
    hide Field.Red;
    if c != [] {
      EqEval(f, c[1..], x, y);
      EqMul(f, x, y, Eval(c[1..], x), Eval(c[1..], y));
      EqAdd(f, c[0], c[0], x * Eval(c[1..], x), y * Eval(c[1..], y));
    }
  }

  // ---- Division by a linear factor ----

  /** The quotient of `c` by `X - r`. */
  function Quotient(c: seq<int>, r: int): (q: seq<int>)
    ensures |q| == if c == [] then 0 else |c| - 1
  {
    if |c| <= 1 then [] else [Eval(c[1..], r)] + Quotient(c[1..], r)
  }

  lemma {:induction false} DivisionIdentity(c: seq<int>, r: int, x: int)
    ensures Eval(c, x) == Eval(c, r) + (x - r) * Eval(Quotient(c, r), x)
  {
    if |c| > 1 {
      DivisionIdentity(c[1..], r, x);
      var q := Quotient(c, r);
      assert q[1..] == Quotient(c[1..], r);
      var e, d := Eval(c[1..], r), Eval(Quotient(c[1..], r), x);
      assert Eval(q, x) == e + x * d;
      assert x * (e + (x - r) * d) - r * e == (x - r) * (e + x * d);
    } else if |c| == 1 {
      assert c[1..] == [];
    }
  }

  /** A polynomial with as many roots as coefficients vanishes everywhere. */
  lemma {:induction false} TooManyRoots(f: PrimeField, c: seq<int>, roots: seq<int>, x: int)
    requires Distinct(f, roots) && |roots| >= |c|
    requires forall i :: 0 <= i < |roots| ==> f.Eq(Eval(c, roots[i]), 0)
    ensures f.Eq(Eval(c, x), 0)
    decreases |c|
  {
    hide Field.Red, IsPrime;
    if c != [] {
      var r, rest, q := roots[0], roots[1..], Quotient(c, roots[0]);
      forall i | 0 <= i < |rest| ensures f.Eq(Eval(q, rest[i]), 0) {
        RootOfQuotient(f, c, r, roots[i + 1]);
      }
      TooManyRoots(f, q, rest, x);
      DivisionIdentity(c, r, x);
      EqMul(f, x - r, x - r, Eval(q, x), 0);
      EqAdd(f, Eval(c, r), 0, (x - r) * Eval(q, x), 0);
    }
  }

  lemma RootOfQuotient(f: PrimeField, c: seq<int>, r: int, s: int)
    requires f.Eq(Eval(c, r), 0) && f.Eq(Eval(c, s), 0) && !f.Eq(r, s)
    ensures f.Eq(Eval(Quotient(c, r), s), 0)
  {
    hide Field.Red, IsPrime;
    var q := Eval(Quotient(c, r), s);
    DivisionIdentity(c, r, s);
    EqSub(f, Eval(c, s), 0, Eval(c, r), 0);
    NoZeroDivisors(f, s - r, q);
    EqDifference(f, s, r);
  }

  // ---- Sums, scalings and products ----

  function Scale(k: int, c: seq<int>): (r: seq<int>)
    ensures |r| == |c|
  {
    if c == [] then [] else [k * c[0]] + Scale(k, c[1..])
  }

  lemma {:induction false} EvalScale(k: int, c: seq<int>, x: int)
    ensures Eval(Scale(k, c), x) == k * Eval(c, x)
  {
    if c != [] {
      EvalScale(k, c[1..], x);
      assert Scale(k, c)[1..] == Scale(k, c[1..]);
      assert k * (c[0] + x * Eval(c[1..], x)) == k * c[0] + x * (k * Eval(c[1..], x));
    }
  }

  /** The sum of two polynomials, as long as the longer one. */
  function Plus(c: seq<int>, d: seq<int>): (r: seq<int>)
    ensures |r| == if |c| < |d| then |d| else |c|
  {
    if c == [] then d
    else if d == [] then c
    else [c[0] + d[0]] + Plus(c[1..], d[1..])
  }

  lemma {:induction false} EvalPlus(c: seq<int>, d: seq<int>, x: int)
    ensures Eval(Plus(c, d), x) == Eval(c, x) + Eval(d, x)
    decreases |c|
  {
    if c != [] && d != [] {
      EvalPlus(c[1..], d[1..], x);
      assert Plus(c, d)[1..] == Plus(c[1..], d[1..]);
      assert x * (Eval(c[1..], x) + Eval(d[1..], x)) == x * Eval(c[1..], x) + x * Eval(d[1..], x);
    }
  }

  function Minus(c: seq<int>, d: seq<int>): (r: seq<int>)
    ensures |r| == if |c| < |d| then |d| else |c|
  {
    Plus(c, Scale(-1, d))
  }

  lemma EvalMinus(c: seq<int>, d: seq<int>, x: int)
    ensures Eval(Minus(c, d), x) == Eval(c, x) - Eval(d, x)
  {
    EvalScale(-1, d, x);
    EvalPlus(c, Scale(-1, d), x);
  }

  function Times(c: seq<int>, d: seq<int>): seq<int> {
    if c == [] then [] else Plus(Scale(c[0], d), [0] + Times(c[1..], d))
  }

  lemma {:induction false} EvalTimes(c: seq<int>, d: seq<int>, x: int)
    ensures Eval(Times(c, d), x) == Eval(c, x) * Eval(d, x)
  {
    if c != [] {
      var t := Times(c[1..], d);
      EvalTimes(c[1..], d, x);
      EvalPlus(Scale(c[0], d), [0] + t, x);
      EvalScale(c[0], d, x);
      assert ([0] + t)[1..] == t;
      ProductStep(c[0], Eval(c[1..], x), Eval(d, x), x);
    }
  }

  lemma ProductStep(a: int, c: int, d: int, x: int)
    ensures a * d + x * (c * d) == (a + x * c) * d
  {
    assert x * (c * d) == x * c * d;
  }

  /** Two polynomials that agree at as many points as they have coefficients agree everywhere. */
  lemma AgreeEverywhere(f: PrimeField, c: seq<int>, d: seq<int>, points: seq<int>, x: int)
    requires Distinct(f, points) && |points| >= |c| && |points| >= |d|
    requires forall i :: 0 <= i < |points| ==> f.Eq(Eval(c, points[i]), Eval(d, points[i]))
    ensures f.Eq(Eval(c, x), Eval(d, x))
  {
    hide Field.Red, IsPrime;
    hide Eval, Plus, Scale;
    var e := Minus(c, d);
    forall i | 0 <= i < |points| ensures f.Eq(Eval(e, points[i]), 0) {
      EvalMinus(c, d, points[i]);
      EqDifference(f, Eval(c, points[i]), Eval(d, points[i]));
    }
    TooManyRoots(f, e, points, x);
    EvalMinus(c, d, x);
    EqDifference(f, Eval(c, x), Eval(d, x));
  }

  /** The product of `x - p` over the points. */
  function Vanish(points: seq<int>, x: int): int {
    if points == [] then 1 else (x - points[0]) * Vanish(points[1..], x)
  }

  /** The coefficients of `Vanish(points, X)`. */
  function VanishPoly(points: seq<int>): (c: seq<int>)
    ensures |c| == |points| + 1
  {
    if points == [] then [1]
    else
      var c := VanishPoly(points[1..]);
      Plus([0] + c, Scale(-points[0], c))
  }

  lemma {:induction false} EvalVanishPoly(points: seq<int>, x: int)
    ensures Eval(VanishPoly(points), x) == Vanish(points, x)
  {
    if points == [] {
      assert Eval([1], x) == 1 + x * Eval([], x);
    } else {
      var c := VanishPoly(points[1..]);
      EvalVanishPoly(points[1..], x);
      assert ([0] + c)[1..] == c;
      EvalScale(-points[0], c, x);
      EvalPlus([0] + c, Scale(-points[0], c), x);
      assert x * Eval(c, x) + -points[0] * Eval(c, x) == (x - points[0]) * Eval(c, x);
    }
  }

  lemma {:induction false} VanishAt(f: Field, points: seq<int>, i: nat, x: int)
    requires i < |points| && f.Eq(x, points[i])
    ensures f.Eq(Vanish(points, x), 0)
  {
    hide Field.Red;
    var rest := Vanish(points[1..], x);
    if i == 0 {
      EqDifference(f, x, points[0]);
      EqMul(f, x - points[0], 0, rest, rest);
    } else {
      VanishAt(f, points[1..], i - 1, x);
      EqMul(f, x - points[0], x - points[0], rest, 0);
    }
  }

  lemma {:induction false} VanishNonzero(f: PrimeField, points: seq<int>, x: int)
    requires forall i :: 0 <= i < |points| ==> !f.Eq(x, points[i])
    ensures !f.Eq(Vanish(points, x), 0)
  {
    hide Field.Red, IsPrime;
    if points == [] {
      SmallDistinct(f, 1, 0);
    } else {
      VanishNonzero(f, points[1..], x);
      EqDifference(f, x, points[0]);
      NoZeroDivisors(f, x - points[0], Vanish(points[1..], x));
    }
  }

  // ---- Lagrange interpolation ----

  function Without(points: seq<int>, i: nat): (r: seq<int>)
    requires i < |points|
    ensures |r| == |points| - 1
  {
    points[..i] + points[i + 1..]
  }

  /** The Lagrange denominator of point `i`: the product of `points[i] - points[j]`, j other than i. */
  function Weight(points: seq<int>, i: nat): int
    requires i < |points|
  {
    Vanish(Without(points, i), points[i])
  }

  lemma WeightNonzero(f: PrimeField, points: seq<int>, i: nat)
    requires i < |points| && Distinct(f, points)
    ensures !f.Eq(Weight(points, i), 0)
  {
    hide Field.Red, IsPrime;
    var w := Without(points, i);
    forall k | 0 <= k < |w| ensures !f.Eq(points[i], w[k]) {
      assert w[k] == points[if k < i then k else k + 1];
    }
    VanishNonzero(f, w, points[i]);
  }

  lemma {:induction false} VanishSplit(points: seq<int>, i: nat, x: int)
    requires i < |points|
    ensures Vanish(points, x) == (x - points[i]) * Vanish(Without(points, i), x)
  {
    if i == 0 {
      assert Without(points, 0) == points[1..];
    } else {
      VanishSplit(points[1..], i - 1, x);
      var w := Without(points, i);
      assert w[1..] == Without(points[1..], i - 1);
      SwapFactors(x - points[0], x - points[i], Vanish(w[1..], x));
    }
  }

  lemma SwapFactors(a: int, b: int, c: int)
    ensures a * (b * c) == b * (a * c)
  {
  }

  /** The first `n` terms of the Lagrange interpolant of `values` at `points`. */
  function Partial(f: Field, points: seq<int>, values: seq<int>, n: nat): (c: seq<int>)
    requires |points| == |values| && n <= |points|
    ensures |c| == if n == 0 then 0 else |points|
  {
    if n == 0 then []
    else
      var i := n - 1;
      Plus(Partial(f, points, values, i),
           Scale(values[i] * f.Inv(Weight(points, i)), VanishPoly(Without(points, i))))
  }

  /** The polynomial of degree below `|points|` through the given values. */
  function Interpolant(f: Field, points: seq<int>, values: seq<int>): (c: seq<int>)
    requires |points| == |values|
    ensures |c| == |points|
  {
    Partial(f, points, values, |points|)
  }

  /** Term `i` of the Lagrange sum at `x`. */
  function Term(f: Field, points: seq<int>, values: seq<int>, i: nat, x: int): int
    requires |points| == |values| && i < |points|
  {
    values[i] * f.Inv(Weight(points, i)) * Vanish(Without(points, i), x)
  }

  lemma PartialStep(f: Field, points: seq<int>, values: seq<int>, i: nat, x: int)
    requires |points| == |values| && i < |points|
    ensures Eval(Partial(f, points, values, i + 1), x)
         == Eval(Partial(f, points, values, i), x) + Term(f, points, values, i, x)
  {
    var k, v := values[i] * f.Inv(Weight(points, i)), VanishPoly(Without(points, i));
    EvalPlus(Partial(f, points, values, i), Scale(k, v), x);
    EvalScale(k, v, x);
    EvalVanishPoly(Without(points, i), x);
  }

  lemma {:induction false} PartialValue(f: PrimeField, points: seq<int>, values: seq<int>, n: nat, k: nat)
    requires |points| == |values| && n <= |points| && k < |points| && Distinct(f, points)
    ensures f.Eq(Eval(Partial(f, points, values, n), points[k]), if k < n then values[k] else 0)
  {
    hide Field.Red, Field.Inv, IsPrime;
    if n > 0 {
      var i, x := n - 1, points[k];
      PartialValue(f, points, values, i, k);
      PartialStep(f, points, values, i, x);
      var term, inv := Term(f, points, values, i, x), f.Inv(Weight(points, i));
      if i == k {
        WeightNonzero(f, points, i);
        Inverse(f, Weight(points, i));
        EqMul(f, values[i], values[i], Weight(points, i) * inv, 1);
        assert term == values[i] * (Weight(points, i) * inv);
        EqAdd(f, Eval(Partial(f, points, values, i), x), 0, term, values[i]);
      } else {
        var w := Without(points, i);
        VanishAt(f, w, if k < i then k else k - 1, x);
        EqMul(f, values[i] * inv, values[i] * inv, Vanish(w, x), 0);
        var before := Eval(Partial(f, points, values, i), x);
        EqAdd(f, before, before, term, 0);
      }
    }
  }

  /** The interpolant takes the given values. */
  lemma InterpolantValue(f: PrimeField, points: seq<int>, values: seq<int>, k: nat)
    requires |points| == |values| && k < |points| && Distinct(f, points)
    ensures f.Eq(Eval(Interpolant(f, points, values), points[k]), values[k])
  {
    PartialValue(f, points, values, |points|, k);
  }

  /** Any polynomial of low enough degree with those values is the interpolant. */
  lemma InterpolantUnique(f: PrimeField, points: seq<int>, values: seq<int>, c: seq<int>, x: int)
    requires |points| == |values| && |c| <= |points| && Distinct(f, points)
    requires forall i :: 0 <= i < |points| ==> f.Eq(Eval(c, points[i]), values[i])
    ensures f.Eq(Eval(c, x), Eval(Interpolant(f, points, values), x))
  {
    hide Field.Red, IsPrime;
    forall i | 0 <= i < |points|
      ensures f.Eq(Eval(c, points[i]), Eval(Interpolant(f, points, values), points[i]))
    {
      InterpolantValue(f, points, values, i);
    }
    AgreeEverywhere(f, c, Interpolant(f, points, values), points, x);
  }
}
