/** Completeness and soundness of the Libra identity, as an identity of polynomials on the subgroup. */
module LibraProofs {
  import opened PrimeFields
  import opened Polynomials
  import opened Libra
  import opened LibraTables

  /** What the prover opens: the table's polynomial, the grand sum and the quotient. */
  datatype LibraPolys = LibraPolys(concat: seq<int>, grandSum: seq<int>, quotient: seq<int>)

  // ---- Polynomials ----

  /** The polynomial `c(w X)`. */
  function Stretch(c: seq<int>, w: int): seq<int> {
    if c == [] then [] else [c[0]] + Scale(w, Stretch(c[1..], w))
  }

  lemma {:induction false} EvalStretch(c: seq<int>, w: int, x: int)
    ensures Eval(Stretch(c, w), x) == Eval(c, w * x)
  {
    if c != [] {
      var t := Stretch(c[1..], w);
      EvalStretch(c[1..], w, x);
      EvalScale(w, t, x);
      assert Stretch(c, w)[1..] == Scale(w, t);
      assert x * (w * Eval(t, x)) == w * x * Eval(t, x);
    }
  }

  /** Dividing by `X - p` for all points in turn. */
  function Quotients(c: seq<int>, points: seq<int>): seq<int>
    decreases |points|
  {
    if points == [] then c else Quotients(Quotient(c, points[0]), points[1..])
  }

  /** A polynomial that vanishes at different points is the product of their factors and the last quotient. */
  lemma {:induction false} ExactQuotient(f: PrimeField, c: seq<int>, points: seq<int>, x: int)
    requires Distinct(f, points) && forall i :: 0 <= i < |points| ==> f.Eq(Eval(c, points[i]), 0)
    ensures f.Eq(Eval(c, x), Vanish(points, x) * Eval(Quotients(c, points), x))
    decreases |points|
  {
    hide Field.Red, IsPrime, Eval, Quotient;
    if points != [] {
      var (p, rest, q) := (points[0], points[1..], Quotient(c, points[0]));
      forall i | 0 <= i < |rest| ensures f.Eq(Eval(q, rest[i]), 0) { RootOfQuotient(f, c, p, points[i + 1]); }
      ExactQuotient(f, q, rest, x);
      DivisionIdentity(c, p, x);
      EqMul(f, x - p, x - p, Eval(q, x), Vanish(rest, x) * Eval(Quotients(q, rest), x));
      EqAdd(f, Eval(c, p), 0, (x - p) * Eval(q, x), (x - p) * (Vanish(rest, x) * Eval(Quotients(q, rest), x)));
      Associate(x - p, Vanish(rest, x), Eval(Quotients(q, rest), x));
    }
  }

  lemma Associate(a: int, b: int, c: int)
    ensures a * (b * c) == a * b * c
  {
  }

  lemma {:induction false} LastCoefficient(c: seq<int>, r: int)
    requires |c| >= 2
    ensures Quotient(c, r)[|c| - 2] == c[|c| - 1]
  {
    if |c| > 2 {
      LastCoefficient(c[1..], r);
    } else {
      assert c[1..][1..] == [] && Eval(c[1..], r) == c[1];
    }
  }

  lemma {:induction false} LastQuotient(c: seq<int>, points: seq<int>)
    requires |c| == |points| + 1
    ensures Quotients(c, points) == [c[|c| - 1]]
    decreases |points|
  {
    hide Quotient;
    if points != [] {
      LastCoefficient(c, points[0]);
      LastQuotient(Quotient(c, points[0]), points[1..]);
    }
  }

  /** X^n - 1. */
  function PowerLessOne(n: nat): (c: seq<int>)
    ensures |c| == n + 1
  {
    if n == 0 then [0] else [-1] + seq(n - 1, _ => 0) + [1]
  }

  lemma {:induction false} EvalZeroPadded(n: nat, x: int)
    ensures Eval(seq(n, _ => 0) + [1], x) == IntPow(x, n)
  {
    var c := seq(n, _ => 0) + [1];
    if n == 0 {
      assert c == [1] && [1][1..] == [];
    } else {
      EvalZeroPadded(n - 1, x);
      assert c[1..] == seq(n - 1, _ => 0) + [1];
    }
  }

  lemma EvalPowerLessOne(n: nat, x: int)
    requires n > 0
    ensures Eval(PowerLessOne(n), x) == IntPow(x, n) - 1
  {
    EvalZeroPadded(n - 1, x);
    assert PowerLessOne(n)[1..] == seq(n - 1, _ => 0) + [1];
  }

  /** The factors of all subgroup points make up x^n - 1. */
  lemma SubgroupVanish(f: PrimeField, w: int, n: nat, x: int)
    requires HasOrder(f, w, n)
    ensures f.Eq(Vanish(Subgroup(w, n), x), IntPow(x, n) - 1)
  {
    hide Field.Red, IsPrime, IntPow, Eval, PowerLessOne, Quotients, Vanish;
    var (c, points) := (PowerLessOne(n), Subgroup(w, n));
    SubgroupDistinct(f, w, n);
    forall i | 0 <= i < n ensures f.Eq(Eval(c, points[i]), 0) {
      EvalPowerLessOne(n, points[i]);
      PowerOfPower(f, w, i, n);
      EqDifference(f, IntPow(points[i], n), 1);
    }
    ExactQuotient(f, c, points, x);
    LastQuotient(c, points);
    EvalPowerLessOne(n, x);
    LastIsOne(n);
    EvalOne(x);
  }

  lemma LastIsOne(n: nat)
    requires n > 0
    ensures PowerLessOne(n)[n] == 1
  {
  }

  lemma EvalOne(x: int)
    ensures Eval([1], x) == 1
  {
    assert [1][1..] == [];
  }

  // ---- The identity ----

  /** The left side of the identity: first value, steps, last value. */
  function Numerator(f: Field, w: int, winv: int, values: seq<int>, p: LibraPolys, claimed: int): seq<int>
    requires |values| == SUBGROUP_SIZE
  {
    Plus(Plus(Times(OnSubgroup(f, w, Unit(0)), p.grandSum),
              Times([-winv, 1], Minus(Minus(Stretch(p.grandSum, w), p.grandSum), Times(p.concat, OnSubgroup(f, w, values))))),
         Times(OnSubgroup(f, w, Unit(SUBGROUP_SIZE - 1)), Minus(p.grandSum, [claimed])))
  }

  lemma EvalNumerator(f: Field, w: int, winv: int, values: seq<int>, p: LibraPolys, claimed: int, x: int)
    requires |values| == SUBGROUP_SIZE
    ensures Eval(Numerator(f, w, winv, values, p, claimed), x)
      == Eval(OnSubgroup(f, w, Unit(0)), x) * Eval(p.grandSum, x)
         + (x - winv) * (Eval(p.grandSum, w * x) - Eval(p.grandSum, x) - Eval(p.concat, x) * Eval(OnSubgroup(f, w, values), x))
         + Eval(OnSubgroup(f, w, Unit(SUBGROUP_SIZE - 1)), x) * (Eval(p.grandSum, x) - claimed)
  {
    hide OnSubgroup, Times, Plus, Minus, Stretch, Unit;
    var (a, g, c) := (p.grandSum, p.concat, OnSubgroup(f, w, values));
    var (l, m, h) := (Times(OnSubgroup(f, w, Unit(0)), a), Minus(Minus(Stretch(a, w), a), Times(g, c)),
                      Times(OnSubgroup(f, w, Unit(SUBGROUP_SIZE - 1)), Minus(a, [claimed])));
    EvalPlus(Plus(l, Times([-winv, 1], m)), h, x);
    EvalPlus(l, Times([-winv, 1], m), x);
    EvalTimes(OnSubgroup(f, w, Unit(0)), a, x);
    EvalTimes([-winv, 1], m, x);
    EvalMinus(Minus(Stretch(a, w), a), Times(g, c), x);
    EvalMinus(Stretch(a, w), a, x);
    EvalStretch(a, w, x);
    EvalTimes(g, c, x);
    EvalTimes(OnSubgroup(f, w, Unit(SUBGROUP_SIZE - 1)), Minus(a, [claimed]), x);
    EvalMinus(a, [claimed], x);
    EvalTwo(-winv, 1, x);
    EvalSingle(claimed, x);
  }

  lemma EvalTwo(a: int, b: int, x: int)
    ensures Eval([a, b], x) == a + x * b
  {
    EvalSingle(b, x);
    assert [a, b][1..] == [b];
  }

  lemma EvalSingle(a: int, x: int)
    ensures Eval([a], x) == a
  {
    assert [a][1..] == [];
  }

  /** The quotient divides the left side by X^256 - 1. */
  ghost predicate Divides(f: Field, w: int, winv: int, values: seq<int>, p: LibraPolys, claimed: int)
    requires |values| == SUBGROUP_SIZE
  {
    forall x :: f.Eq(Eval(Numerator(f, w, winv, values, p, claimed), x), (IntPow(x, SUBGROUP_SIZE) - 1) * Eval(p.quotient, x))
  }

  /** The table's polynomial takes the table's entries on the subgroup. */
  ghost predicate OpensTable(f: Field, w: int, table: seq<int>, p: LibraPolys) {
    |table| == SUBGROUP_SIZE && forall i :: 0 <= i < SUBGROUP_SIZE ==> f.Eq(Eval(p.concat, IntPow(w, i)), table[i])
  }

  /** The grand sum at subgroup point `i` is the inner product of the first `i` entries. */
  ghost predicate IsGrandSum(f: Field, w: int, table: seq<int>, values: seq<int>, p: LibraPolys)
    requires |table| == |values| == SUBGROUP_SIZE
  {
    forall i :: 0 <= i < SUBGROUP_SIZE ==> f.Eq(Eval(p.grandSum, IntPow(w, i)), Inner(table, values, i))
  }

  /** What the left side is at subgroup point `i`. */
  function StepAt(w: int, winv: int, values: seq<int>, table: seq<int>, p: LibraPolys, claimed: int, i: nat): int
    requires |values| == |table| == SUBGROUP_SIZE && i < SUBGROUP_SIZE
  {
    (if i == 0 then Eval(p.grandSum, IntPow(w, 0)) else 0)
      + (IntPow(w, i) - winv) * (Eval(p.grandSum, IntPow(w, i + 1)) - Eval(p.grandSum, IntPow(w, i)) - table[i] * values[i])
      + (if i == SUBGROUP_SIZE - 1 then Eval(p.grandSum, IntPow(w, i)) - claimed else 0)
  }

  lemma UnitOnSubgroup(f: PrimeField, w: int, k: nat, i: nat)
    requires HasOrder(f, w, SUBGROUP_SIZE) && k < SUBGROUP_SIZE && i < SUBGROUP_SIZE
    ensures f.Eq(Eval(OnSubgroup(f, w, Unit(k)), IntPow(w, i)), if i == k then 1 else 0)
  {
    hide Field.Red, IsPrime, IntPow, Eval, Interpolant;
    SubgroupDistinct(f, w, SUBGROUP_SIZE);
    InterpolantValue(f, Subgroup(w, SUBGROUP_SIZE), Unit(k), i);
  }

  lemma ValueOnSubgroup(f: PrimeField, w: int, values: seq<int>, i: nat)
    requires HasOrder(f, w, SUBGROUP_SIZE) && |values| == SUBGROUP_SIZE && i < SUBGROUP_SIZE
    ensures f.Eq(Eval(OnSubgroup(f, w, values), IntPow(w, i)), values[i])
  {
    hide Field.Red, IsPrime, IntPow, Eval, Interpolant;
    SubgroupDistinct(f, w, SUBGROUP_SIZE);
    InterpolantValue(f, Subgroup(w, SUBGROUP_SIZE), values, i);
  }

  lemma NumeratorAt(f: PrimeField, w: int, winv: int, values: seq<int>, table: seq<int>, p: LibraPolys, claimed: int, i: nat)
    requires HasOrder(f, w, SUBGROUP_SIZE) && |values| == SUBGROUP_SIZE && OpensTable(f, w, table, p) && i < SUBGROUP_SIZE
    ensures f.Eq(Eval(Numerator(f, w, winv, values, p, claimed), IntPow(w, i)), StepAt(w, winv, values, table, p, claimed, i))
  {
    hide Field.Red, IsPrime, Eval, OnSubgroup, Unit, Numerator;
    var (x, a) := (IntPow(w, i), p.grandSum);
    EvalNumerator(f, w, winv, values, p, claimed, x);
    assert w * x == IntPow(w, i + 1);
    hide IntPow;
    UnitOnSubgroup(f, w, 0, i);
    UnitOnSubgroup(f, w, SUBGROUP_SIZE - 1, i);
    ValueOnSubgroup(f, w, values, i);
    var (u, v, c, g) := (Eval(OnSubgroup(f, w, Unit(0)), x), Eval(OnSubgroup(f, w, Unit(SUBGROUP_SIZE - 1)), x),
                         Eval(OnSubgroup(f, w, values), x), Eval(p.concat, x));
    EqMul(f, u, if i == 0 then 1 else 0, Eval(a, x), Eval(a, x));
    EqMul(f, v, if i == SUBGROUP_SIZE - 1 then 1 else 0, Eval(a, x) - claimed, Eval(a, x) - claimed);
    EqMul(f, g, table[i], c, values[i]);
    MiddleCongruent(f, x - winv, Eval(a, IntPow(w, i + 1)) - Eval(a, x), g * c, table[i] * values[i]);
    ThreeTerms(f, u * Eval(a, x), if i == 0 then Eval(a, x) else 0,
               (x - winv) * (Eval(a, IntPow(w, i + 1)) - Eval(a, x) - g * c),
               (x - winv) * (Eval(a, IntPow(w, i + 1)) - Eval(a, x) - table[i] * values[i]),
               v * (Eval(a, x) - claimed), if i == SUBGROUP_SIZE - 1 then Eval(a, x) - claimed else 0);
  }

  lemma MiddleCongruent(f: Field, d: int, b: int, m: int, n: int)
    requires f.Eq(m, n)
    ensures f.Eq(d * (b - m), d * (b - n))
  {
    hide Field.Red;
    EqSub(f, b, b, m, n);
    EqMul(f, d, d, b - m, b - n);
  }

  lemma ThreeTerms(f: Field, a: int, a': int, b: int, b': int, c: int, c': int)
    requires f.Eq(a, a') && f.Eq(b, b') && f.Eq(c, c')
    ensures f.Eq(a + b + c, a' + b' + c')
  {
    hide Field.Red;
    EqAdd(f, a, a', b, b');
    EqAdd(f, a + b, a' + b', c, c');
  }

  // ---- Completeness ----

  lemma InversePoint(f: PrimeField, w: int, winv: int)
    requires HasOrder(f, w, SUBGROUP_SIZE) && f.Eq(w * winv, 1)
    ensures f.Eq(IntPow(w, SUBGROUP_SIZE - 1), winv)
    ensures forall i :: 0 <= i < SUBGROUP_SIZE - 1 ==> !f.Eq(IntPow(w, i) - winv, 0)
  {
    hide Field.Red, IsPrime;
    var l := IntPow(w, SUBGROUP_SIZE - 1);
    assert IntPow(w, SUBGROUP_SIZE) == w * l;
    hide IntPow;
    EqMul(f, w * l, 1, winv, winv);
    EqMul(f, w * winv, 1, l, l);
    assert w * l * winv == w * winv * l;
    forall i | 0 <= i < SUBGROUP_SIZE - 1 ensures !f.Eq(IntPow(w, i) - winv, 0) {
      PowersDiffer(f, w, SUBGROUP_SIZE, i, SUBGROUP_SIZE - 1);
      EqDifference(f, IntPow(w, i), winv);
    }
  }

  /** For the grand sum and the right claim the left side vanishes at every subgroup point. */
  lemma HonestStep(f: PrimeField, w: int, winv: int, values: seq<int>, table: seq<int>, p: LibraPolys, claimed: int, i: nat)
    requires HasOrder(f, w, SUBGROUP_SIZE) && f.Eq(w * winv, 1) && |values| == |table| == SUBGROUP_SIZE && i < SUBGROUP_SIZE
    requires IsGrandSum(f, w, table, values, p) && f.Eq(values[SUBGROUP_SIZE - 1], 0)
    requires f.Eq(claimed, Inner(table, values, SUBGROUP_SIZE))
    ensures f.Eq(StepAt(w, winv, values, table, p, claimed, i), 0)
  {
    hide Field.Red, IsPrime, IntPow, Eval;
    var (d, a, b) := (IntPow(w, i) - winv, Eval(p.grandSum, IntPow(w, i)), Eval(p.grandSum, IntPow(w, i + 1)));
    var term := table[i] * values[i];
    assert f.Eq(a, Inner(table, values, i));
    InversePoint(f, w, winv);
    if i < SUBGROUP_SIZE - 1 {
      assert f.Eq(b, Inner(table, values, i + 1));
      EqSub(f, b, Inner(table, values, i) + term, a, Inner(table, values, i));
      EqSub(f, b - a, term, term, term);
      EqMul(f, d, d, b - a - term, 0);
      EqAdd(f, if i == 0 then a else 0, 0, d * (b - a - term), 0);
    } else {
      EqSub(f, IntPow(w, i), winv, winv, winv);
      EqMul(f, d, 0, b - a - term, b - a - term);
      EqMul(f, table[i], table[i], values[i], 0);
      EqAdd(f, Inner(table, values, i), Inner(table, values, i), term, 0);
      EqSub(f, a, Inner(table, values, i), claimed, Inner(table, values, i));
      EqAdd(f, d * (b - a - term), 0, a - claimed, 0);
    }
  }

  /** The honest quotient. */
  function HonestQuotient(f: Field, w: int, winv: int, values: seq<int>, p: LibraPolys, claimed: int): seq<int>
    requires |values| == SUBGROUP_SIZE
  {
    Quotients(Numerator(f, w, winv, values, p, claimed), Subgroup(w, SUBGROUP_SIZE))
  }

  /** Whenever the left side vanishes on the subgroup, that quotient divides it exactly. */
  lemma QuotientDivides(f: PrimeField, w: int, winv: int, values: seq<int>, table: seq<int>, p: LibraPolys, claimed: int)
    requires HasOrder(f, w, SUBGROUP_SIZE) && |values| == SUBGROUP_SIZE && OpensTable(f, w, table, p)
    requires forall i :: 0 <= i < SUBGROUP_SIZE ==> f.Eq(StepAt(w, winv, values, table, p, claimed, i), 0)
    requires p.quotient == HonestQuotient(f, w, winv, values, p, claimed)
    ensures Divides(f, w, winv, values, p, claimed)
  {
    hide Field.Red, IsPrime, IntPow, Eval, StepAt, Numerator, Quotients, Vanish;
    var (c, points) := (Numerator(f, w, winv, values, p, claimed), Subgroup(w, SUBGROUP_SIZE));
    SubgroupDistinct(f, w, SUBGROUP_SIZE);
    forall i | 0 <= i < |points| ensures f.Eq(Eval(c, points[i]), 0) {
      NumeratorAt(f, w, winv, values, table, p, claimed, i);
    }
    forall x ensures f.Eq(Eval(c, x), (IntPow(x, SUBGROUP_SIZE) - 1) * Eval(p.quotient, x)) {
      ExactQuotient(f, c, points, x);
      SubgroupVanish(f, w, SUBGROUP_SIZE, x);
      EqMul(f, Vanish(points, x), IntPow(x, SUBGROUP_SIZE) - 1, Eval(p.quotient, x), Eval(p.quotient, x));
    }
  }

  /** An honest prover: the table, its grand sum over the powers of the challenges, the quotient and the claim. */
  ghost predicate HonestLibra(f: Field, w: int, winv: int, us: seq<int>, values: seq<int>, table: seq<int>, p: LibraPolys, claimed: int)
    requires |us| == ROUNDS
  {
    && ArePowers(f, us, values) && OpensTable(f, w, table, p) && IsGrandSum(f, w, table, values, p)
    && f.Eq(claimed, Inner(table, values, SUBGROUP_SIZE)) && p.quotient == HonestQuotient(f, w, winv, values, p, claimed)
  }

  lemma HonestDivides(f: PrimeField, w: int, winv: int, us: seq<int>, values: seq<int>, table: seq<int>, p: LibraPolys, claimed: int)
    requires HasOrder(f, w, SUBGROUP_SIZE) && f.Eq(w * winv, 1) && |us| == ROUNDS
    requires HonestLibra(f, w, winv, us, values, table, p, claimed)
    ensures Divides(f, w, winv, values, p, claimed)
  {
    hide Field.Red, IsPrime, IntPow, Eval, StepAt, HonestQuotient, Inner, Divides, HasOrder;
    forall i | 0 <= i < SUBGROUP_SIZE ensures f.Eq(StepAt(w, winv, values, table, p, claimed, i), 0) {
      HonestStep(f, w, winv, values, table, p, claimed, i);
    }
    QuotientDivides(f, w, winv, values, table, p, claimed);
  }

  /** The four openings of a prover's polynomials at `r`; the grand sum is also opened at the next point. */
  ghost predicate OpenedAt(f: Field, w: int, r: int, p: LibraPolys, evals: seq<int>) {
    && |evals| == 4 && f.Eq(evals[0], Eval(p.concat, r)) && f.Eq(evals[1], Eval(p.grandSum, w * r))
    && f.Eq(evals[2], Eval(p.grandSum, r)) && f.Eq(evals[3], Eval(p.quotient, r))
  }

  // ---- What the identity means ----

  /** Between the first and the last point the grand sum takes its steps. */
  lemma {:induction false} StepsUp(f: PrimeField, w: int, winv: int, values: seq<int>, table: seq<int>, p: LibraPolys, claimed: int,
                                   i: nat)
    requires HasOrder(f, w, SUBGROUP_SIZE) && f.Eq(w * winv, 1) && |values| == |table| == SUBGROUP_SIZE && 1 <= i < SUBGROUP_SIZE
    requires forall j :: 0 <= j < SUBGROUP_SIZE ==> f.Eq(StepAt(w, winv, values, table, p, claimed, j), 0)
    ensures f.Eq(Eval(p.grandSum, IntPow(w, i)), Eval(p.grandSum, IntPow(w, 1)) + Inner(table, values, i) - Inner(table, values, 1))
  {
    hide Field.Red, IsPrime, IntPow, Eval, HasOrder;
    if i > 1 {
      var j := i - 1;
      StepsUp(f, w, winv, values, table, p, claimed, j);
      InversePoint(f, w, winv);
      var (a, b, t) := (Eval(p.grandSum, IntPow(w, j)), Eval(p.grandSum, IntPow(w, i)), table[j] * values[j]);
      assert f.Eq(StepAt(w, winv, values, table, p, claimed, j), 0);
      NoZeroDivisors(f, IntPow(w, j) - winv, b - a - t);
      EqAdd(f, b - a - t, 0, a + t, a + t);
      var (e, o, n) := (Eval(p.grandSum, IntPow(w, 1)), Inner(table, values, 1), Inner(table, values, j));
      EqAdd(f, a, e + n - o, t, t);
    }
  }

  /**
   What an exact identity says: the claim differs from the inner product exactly by a multiple of the grand sum's first
   value, so it is the inner product if and only if that value is zero.
   */
  lemma IdentityMeans(f: PrimeField, w: int, winv: int, us: seq<int>, values: seq<int>, table: seq<int>, p: LibraPolys, claimed: int)
    requires HasOrder(f, w, SUBGROUP_SIZE) && f.Eq(w * winv, 1) && |us| == ROUNDS && ArePowers(f, us, values)
    requires OpensTable(f, w, table, p) && Divides(f, w, winv, values, p, claimed)
    ensures f.Eq((1 - winv) * (claimed - Inner(table, values, SUBGROUP_SIZE)), -winv * Eval(p.grandSum, 1))
    ensures f.Eq(claimed, Inner(table, values, SUBGROUP_SIZE)) <==> f.Eq(Eval(p.grandSum, 1), 0)
  {
    hide Field.Red, IsPrime, IntPow, Eval, StepAt, Numerator, HasOrder, Inner;
    forall j | 0 <= j < SUBGROUP_SIZE ensures f.Eq(StepAt(w, winv, values, table, p, claimed, j), 0) {
      IdentityStep(f, w, winv, values, table, p, claimed, j);
    }
    ClaimFromSteps(f, w, winv, values, table, p, claimed);
    InversePoint(f, w, winv);
    PointOne(w);
    var (first, d) := (Eval(p.grandSum, 1), claimed - Inner(table, values, SUBGROUP_SIZE));
    InverseNotZero(f, w, winv);
    if f.Eq(first, 0) {
      EqMul(f, -winv, -winv, first, 0);
      NoZeroDivisors(f, 1 - winv, d);
    }
    if f.Eq(d, 0) {
      EqMul(f, 1 - winv, 1 - winv, d, 0);
      NoZeroDivisors(f, -winv, first);
    }
    EqDifference(f, claimed, Inner(table, values, SUBGROUP_SIZE));
  }

  lemma PointOne(w: int)
    ensures IntPow(w, 0) == 1 && IntPow(w, 1) == w
  {
  }

  lemma InverseNotZero(f: PrimeField, w: int, winv: int)
    requires f.Eq(w * winv, 1)
    ensures !f.Eq(-winv, 0)
  {
    hide Field.Red, IsPrime;
    SmallDistinct(f, 1, 0);
    assert -w * -winv == w * winv;
    if f.Eq(-winv, 0) { EqMul(f, -w, -w, -winv, 0); }
  }

  lemma IdentityStep(f: PrimeField, w: int, winv: int, values: seq<int>, table: seq<int>, p: LibraPolys, claimed: int, i: nat)
    requires HasOrder(f, w, SUBGROUP_SIZE) && |values| == SUBGROUP_SIZE && OpensTable(f, w, table, p) && i < SUBGROUP_SIZE
    requires Divides(f, w, winv, values, p, claimed)
    ensures f.Eq(StepAt(w, winv, values, table, p, claimed, i), 0)
  {
    hide Field.Red, IsPrime, IntPow, Eval, StepAt, Numerator;
    var x := IntPow(w, i);
    NumeratorAt(f, w, winv, values, table, p, claimed, i);
    assert f.Eq(Eval(Numerator(f, w, winv, values, p, claimed), x), (IntPow(x, SUBGROUP_SIZE) - 1) * Eval(p.quotient, x));
    PowerOfPower(f, w, i, SUBGROUP_SIZE);
    EqDifference(f, IntPow(x, SUBGROUP_SIZE), 1);
    EqMul(f, IntPow(x, SUBGROUP_SIZE) - 1, 0, Eval(p.quotient, x), Eval(p.quotient, x));
  }

  lemma ClaimFromSteps(f: PrimeField, w: int, winv: int, values: seq<int>, table: seq<int>, p: LibraPolys, claimed: int)
    requires HasOrder(f, w, SUBGROUP_SIZE) && f.Eq(w * winv, 1) && |values| == |table| == SUBGROUP_SIZE
    requires f.Eq(values[SUBGROUP_SIZE - 1], 0)
    requires forall j :: 0 <= j < SUBGROUP_SIZE ==> f.Eq(StepAt(w, winv, values, table, p, claimed, j), 0)
    ensures f.Eq((1 - winv) * (claimed - Inner(table, values, SUBGROUP_SIZE)), -winv * Eval(p.grandSum, 1))
  {
    hide Field.Red, IsPrime, IntPow, Eval, HasOrder;
    var n := SUBGROUP_SIZE - 1;
    StepsUp(f, w, winv, values, table, p, claimed, n);
    InversePoint(f, w, winv);
    PointOne(w);
    assert f.Eq(StepAt(w, winv, values, table, p, claimed, 0), 0);
    assert f.Eq(StepAt(w, winv, values, table, p, claimed, n), 0);
    assert Inner(table, values, 1) == table[0] * values[0];
    EqMul(f, table[n], table[n], values[n], 0);
    LastPoint(f, IntPow(w, n), winv, Eval(p.grandSum, IntPow(w, n + 1)) - Eval(p.grandSum, IntPow(w, n)) - table[n] * values[n],
              Eval(p.grandSum, IntPow(w, n)), claimed);
    ClaimAlgebra(f, winv, Eval(p.grandSum, 1), Eval(p.grandSum, w), Eval(p.grandSum, IntPow(w, n)), table[0] * values[0],
                 Inner(table, values, n), table[n] * values[n], claimed);
  }

  lemma LastPoint(f: Field, x: int, winv: int, step: int, a: int, claimed: int)
    requires f.Eq(x, winv) && f.Eq((x - winv) * step + (a - claimed), 0)
    ensures f.Eq(a, claimed)
  {
    hide Field.Red;
    EqSub(f, x, winv, winv, winv);
    EqMul(f, x - winv, 0, step, step);
    EqSub(f, (x - winv) * step + (a - claimed), 0, (x - winv) * step, 0);
    EqDifference(f, a, claimed);
  }

  lemma ClaimAlgebra(f: Field, winv: int, first: int, second: int, last: int, t: int, n: int, e: int, claimed: int)
    requires f.Eq(first + (1 - winv) * (second - first - t), 0) && f.Eq(last, second + n - t) && f.Eq(e, 0) && f.Eq(last, claimed)
    ensures f.Eq((1 - winv) * (claimed - (n + e)), -winv * first)
  {
    hide Field.Red;
    EqAdd(f, n, n, e, 0);
    EqSub(f, claimed, second + n - t, n + e, n);
    EqMul(f, 1 - winv, 1 - winv, claimed - (n + e), second - t);
    EqSub(f, first + (1 - winv) * (second - first - t), 0, winv * first, winv * first);
    var k := 1 - winv;
    assert k * (second - first - t) == k * (second - t) - k * first;
    assert k * first == first - winv * first;
  }

  /** The grand sum with its first value chosen so that the last one is `claimed`. */
  function ShiftedSums(f: Field, w: int, winv: int, table: seq<int>, values: seq<int>, claimed: int): (s: seq<int>)
    requires |table| == |values| == SUBGROUP_SIZE
    ensures |s| == SUBGROUP_SIZE
  {
    var d := claimed - Inner(table, values, SUBGROUP_SIZE);
    seq(SUBGROUP_SIZE, i requires 0 <= i < SUBGROUP_SIZE => if i == 0 then -d * (1 - winv) * w else Inner(table, values, i) + d)
  }

  /** The identity by itself admits every claim: the first value of the grand sum makes up for the difference. */
  lemma EveryClaim(f: PrimeField, w: int, winv: int, us: seq<int>, values: seq<int>, table: seq<int>, claimed: int)
    returns (p: LibraPolys)
    requires HasOrder(f, w, SUBGROUP_SIZE) && f.Eq(w * winv, 1) && |us| == ROUNDS && ArePowers(f, us, values) && |table| == SUBGROUP_SIZE
    ensures OpensTable(f, w, table, p) && Divides(f, w, winv, values, p, claimed)
  {
    hide Field.Red, IsPrime, IntPow, Eval, StepAt, HonestQuotient, Inner, ShiftedSums, HasOrder, OnSubgroup;
    p := LibraPolys(OnSubgroup(f, w, table), OnSubgroup(f, w, ShiftedSums(f, w, winv, table, values, claimed)), []);
    var q := HonestQuotient(f, w, winv, values, p, claimed);
    SameQuotient(f, w, winv, values, p, q, claimed);
    p := p.(quotient := q);
    forall i | 0 <= i < SUBGROUP_SIZE ensures f.Eq(Eval(p.concat, IntPow(w, i)), table[i]) { ValueOnSubgroup(f, w, table, i); }
    forall i | 0 <= i < SUBGROUP_SIZE ensures f.Eq(StepAt(w, winv, values, table, p, claimed, i), 0) {
      ShiftedStep(f, w, winv, values, table, p, claimed, i);
    }
    QuotientDivides(f, w, winv, values, table, p, claimed);
  }

  lemma SameQuotient(f: Field, w: int, winv: int, values: seq<int>, p: LibraPolys, q: seq<int>, claimed: int)
    requires |values| == SUBGROUP_SIZE
    ensures HonestQuotient(f, w, winv, values, p.(quotient := q), claimed) == HonestQuotient(f, w, winv, values, p, claimed)
  {
  }

  lemma ShiftedStep(f: PrimeField, w: int, winv: int, values: seq<int>, table: seq<int>, p: LibraPolys, claimed: int, i: nat)
    requires HasOrder(f, w, SUBGROUP_SIZE) && f.Eq(w * winv, 1) && |values| == |table| == SUBGROUP_SIZE && i < SUBGROUP_SIZE
    requires f.Eq(values[SUBGROUP_SIZE - 1], 0)
    requires p.grandSum == OnSubgroup(f, w, ShiftedSums(f, w, winv, table, values, claimed))
    ensures f.Eq(StepAt(w, winv, values, table, p, claimed, i), 0)
  {
    hide Field.Red, IsPrime, IntPow, Eval, HasOrder, OnSubgroup;
    var (sums, n) := (ShiftedSums(f, w, winv, table, values, claimed), SUBGROUP_SIZE - 1);
    var (d, a, b, t) := (claimed - Inner(table, values, SUBGROUP_SIZE), Eval(p.grandSum, IntPow(w, i)),
                         Eval(p.grandSum, IntPow(w, i + 1)), table[i] * values[i]);
    ValueOnSubgroup(f, w, sums, i);
    InversePoint(f, w, winv);
    PointOne(w);
    if i < n { ValueOnSubgroup(f, w, sums, i + 1); }
    if i == 0 {
      assert Inner(table, values, 1) == Inner(table, values, 0) + t;
      ShiftedFirst(f, w, winv, d, a, b, t);
    } else if i < n {
      EqSub(f, b, Inner(table, values, i) + t + d, a, Inner(table, values, i) + d);
      EqSub(f, b - a, t, t, t);
      EqMul(f, IntPow(w, i) - winv, IntPow(w, i) - winv, b - a - t, 0);
    } else {
      EqSub(f, IntPow(w, i), winv, winv, winv);
      EqMul(f, IntPow(w, i) - winv, 0, b - a - t, b - a - t);
      EqMul(f, table[n], table[n], values[n], 0);
      EqSub(f, a, Inner(table, values, n) + d, claimed, claimed);
      EqSub(f, a - claimed, -t, -t, -t);
      EqAdd(f, a - claimed + t, 0, -t, 0) by { EqSub(f, 0, 0, t, 0); }
      EqAdd(f, (IntPow(w, i) - winv) * (b - a - t), 0, a - claimed, 0);
    }
  }

  lemma ShiftedFirst(f: Field, w: int, winv: int, d: int, a: int, b: int, t: int)
    requires f.Eq(w * winv, 1) && f.Eq(a, -d * (1 - winv) * w) && f.Eq(b, t + d)
    ensures f.Eq(a + (1 - winv) * (b - a - t), 0)
  {
    hide Field.Red;
    var k := d * (1 - winv);
    EqMul(f, a, -k * w, winv, winv);
    EqMul(f, w * winv, 1, -k, -k);
    assert -k * w * winv == w * winv * -k;
    assert -d * (1 - winv) == -k;
    EqSub(f, b, t + d, t, t);
    EqMul(f, b - t, d, 1 - winv, 1 - winv);
    EqAdd(f, a * winv, -k, (b - t) * (1 - winv), k);
    var h := 1 - winv;
    assert h * (b - a - t) == (b - t) * h - h * a;
    assert h * a == a - a * winv;
  }

  // ---- At one point ----

  /** What the check tests at `r`: left side less the quotient times X^256 - 1. */
  function Difference(f: Field, w: int, winv: int, values: seq<int>, p: LibraPolys, claimed: int): seq<int>
    requires |values| == SUBGROUP_SIZE
  {
    Minus(Numerator(f, w, winv, values, p, claimed), Times(PowerLessOne(SUBGROUP_SIZE), p.quotient))
  }

  lemma EvalDifference(f: Field, w: int, winv: int, values: seq<int>, p: LibraPolys, claimed: int, x: int)
    requires |values| == SUBGROUP_SIZE
    ensures Eval(Difference(f, w, winv, values, p, claimed), x)
      == Eval(Numerator(f, w, winv, values, p, claimed), x) - (IntPow(x, SUBGROUP_SIZE) - 1) * Eval(p.quotient, x)
  {
    hide Eval, Numerator, Times, Minus, IntPow, PowerLessOne;
    EvalMinus(Numerator(f, w, winv, values, p, claimed), Times(PowerLessOne(SUBGROUP_SIZE), p.quotient), x);
    EvalTimes(PowerLessOne(SUBGROUP_SIZE), p.quotient, x);
    EvalPowerLessOne(SUBGROUP_SIZE, x);
  }

  /** Interpolants of congruent values agree. */
  lemma SameOnSubgroup(f: PrimeField, w: int, values: seq<int>, other: seq<int>, x: int)
    requires HasOrder(f, w, SUBGROUP_SIZE) && |values| == |other| == SUBGROUP_SIZE
    requires forall i :: 0 <= i < SUBGROUP_SIZE ==> f.Eq(values[i], other[i])
    ensures f.Eq(Eval(OnSubgroup(f, w, values), x), Eval(OnSubgroup(f, w, other), x))
  {
    hide Field.Red, IsPrime, IntPow, Eval, OnSubgroup, HasOrder;
    var points := Subgroup(w, SUBGROUP_SIZE);
    SubgroupDistinct(f, w, SUBGROUP_SIZE);
    forall i | 0 <= i < |points|
      ensures f.Eq(Eval(OnSubgroup(f, w, values), points[i]), Eval(OnSubgroup(f, w, other), points[i]))
    {
      ValueOnSubgroup(f, w, values, i);
      ValueOnSubgroup(f, w, other, i);
    }
    AgreeEverywhere(f, OnSubgroup(f, w, values), OnSubgroup(f, w, other), points, x);
  }

  /** Two sequences of the powers of the same challenges are congruent. */
  lemma PowersAgree(f: Field, us: seq<int>, values: seq<int>, other: seq<int>, i: nat)
    requires |us| == ROUNDS && ArePowers(f, us, values) && ArePowers(f, us, other) && i < SUBGROUP_SIZE
    ensures f.Eq(values[i], other[i])
  {
    hide Field.Red, IntPow;
    if 0 < i < 253 {
      var (k, t) := ((i - 1) / LINES, (i - 1) % LINES);
      assert PowerAt(f, us, values, k, t) && PowerAt(f, us, other, k, t);
      assert 1 + LINES * k + t == i;
    }
  }

  lemma NumeratorsAgree(f: PrimeField, w: int, winv: int, us: seq<int>, values: seq<int>, other: seq<int>, p: LibraPolys,
                        claimed: int, x: int)
    requires HasOrder(f, w, SUBGROUP_SIZE) && |us| == ROUNDS && ArePowers(f, us, values) && ArePowers(f, us, other)
    ensures f.Eq(Eval(Numerator(f, w, winv, values, p, claimed), x), Eval(Numerator(f, w, winv, other, p, claimed), x))
  {
    hide Field.Red, IsPrime, IntPow, Eval, OnSubgroup, Numerator, Unit, HasOrder;
    forall i | 0 <= i < SUBGROUP_SIZE ensures f.Eq(values[i], other[i]) { PowersAgree(f, us, values, other, i); }
    SameOnSubgroup(f, w, values, other, x);
    EvalNumerator(f, w, winv, values, p, claimed, x);
    EvalNumerator(f, w, winv, other, p, claimed, x);
    var (g, c, d) := (Eval(p.concat, x), Eval(OnSubgroup(f, w, values), x), Eval(OnSubgroup(f, w, other), x));
    EqMul(f, g, g, c, d);
    MiddleCongruent(f, x - winv, Eval(p.grandSum, w * x) - Eval(p.grandSum, x), g * c, g * d);
    var (a, b) := (Eval(OnSubgroup(f, w, Unit(0)), x) * Eval(p.grandSum, x),
                   Eval(OnSubgroup(f, w, Unit(SUBGROUP_SIZE - 1)), x) * (Eval(p.grandSum, x) - claimed));
    ThreeTerms(f, a, a, (x - winv) * (Eval(p.grandSum, w * x) - Eval(p.grandSum, x) - g * c),
               (x - winv) * (Eval(p.grandSum, w * x) - Eval(p.grandSum, x) - g * d), b, b);
  }

  /** The openings satisfy the check. */
  ghost predicate HonestOpenings(f: Field, w: int, winv: int, r: int, us: seq<int>, evals: seq<int>, claimed: int)
    requires |us| == ROUNDS
  {
    exists values: seq<int>, table: seq<int>, p: LibraPolys ::
      HonestLibra(f, w, winv, us, values, table, p, claimed) && OpenedAt(f, w, r, p, evals)
  }
}
