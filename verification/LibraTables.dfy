/**
 What the Libra check is for: the inner product of the prover's table of masking coefficients with the powers of the
 round challenges, proved by a grand sum on the subgroup.
 */
module LibraTables {
  import opened PrimeFields
  import opened Polynomials
  import opened Libra

  // ---- The inner product ----

  function Inner(a: seq<int>, b: seq<int>, n: nat): int
    requires n <= |a| && n <= |b|
  {
    if n == 0 then 0 else Inner(a, b, n - 1) + a[n - 1] * b[n - 1]
  }

  /** One, then the powers 0 to 8 of each challenge, then zeros. */
  ghost predicate ArePowers(f: Field, us: seq<int>, values: seq<int>)
    requires |us| == ROUNDS
  {
    && |values| == SUBGROUP_SIZE && f.Eq(values[0], 1)
    && (forall k, t :: 0 <= k < ROUNDS && 0 <= t < LINES ==> PowerAt(f, us, values, k, t))
    && f.Eq(values[253], 0) && f.Eq(values[254], 0) && f.Eq(values[255], 0)
  }

  ghost predicate PowerAt(f: Field, us: seq<int>, values: seq<int>, k: nat, t: nat)
    requires k < |us| == ROUNDS && t < LINES && |values| == SUBGROUP_SIZE
  {
    f.Eq(values[1 + LINES * k + t], IntPow(us[k], t))
  }

  /** A univariate for each round: nine coefficients. */
  ghost predicate AreUnivariates(gs: seq<seq<int>>) { |gs| == ROUNDS && forall k :: 0 <= k < ROUNDS ==> |gs[k]| == LINES }

  /** The table: a constant, the coefficients of all rounds, zeros. */
  function TableOf(c: int, gs: seq<seq<int>>): (t: seq<int>)
    requires AreUnivariates(gs)
    ensures |t| == SUBGROUP_SIZE
  {
    seq(SUBGROUP_SIZE, i requires 0 <= i < SUBGROUP_SIZE =>
      if i == 0 then c else if i < 253 then gs[(i - 1) / LINES][(i - 1) % LINES] else 0)
  }

  /** The sum of the univariates at their challenges. */
  function RoundSum(gs: seq<seq<int>>, us: seq<int>, n: nat): int
    requires n <= |gs| && n <= |us|
  {
    if n == 0 then 0 else RoundSum(gs, us, n - 1) + Eval(gs[n - 1], us[n - 1])
  }

  lemma {:induction false} EvalAppend(c: seq<int>, a: int, x: int)
    ensures Eval(c + [a], x) == Eval(c, x) + a * IntPow(x, |c|)
  {
    if c == [] {
      assert c + [a] == [a] && [a][1..] == [];
    } else {
      EvalAppend(c[1..], a, x);
      assert (c + [a])[1..] == c[1..] + [a];
      AppendStep(Eval(c[1..], x), a, x, IntPow(x, |c| - 1));
    }
  }

  lemma AppendStep(e: int, a: int, x: int, p: int)
    ensures x * (e + a * p) == x * e + a * (x * p)
  {
  }

  /** The entries of round `k`, up to coefficient `t`. */
  lemma {:induction false} RoundInner(f: Field, us: seq<int>, values: seq<int>, c: int, gs: seq<seq<int>>, k: nat, t: nat)
    requires |us| == ROUNDS && ArePowers(f, us, values) && AreUnivariates(gs) && k < ROUNDS && t <= LINES
    ensures f.Eq(Inner(TableOf(c, gs), values, 1 + LINES * k + t),
                 Inner(TableOf(c, gs), values, 1 + LINES * k) + Eval(gs[k][..t], us[k]))
  {
    hide Field.Red, IntPow, Eval, TableOf;
    if t == 0 {
      EvalNone(us[k]);
      assert gs[k][..0] == [];
    } else {
      RoundInner(f, us, values, c, gs, k, t - 1);
      var (i, a) := (1 + LINES * k + t - 1, gs[k][t - 1]);
      TableAt(c, gs, k, t - 1);
      assert PowerAt(f, us, values, k, t - 1);
      EqMul(f, a, a, values[i], IntPow(us[k], t - 1));
      EvalAppend(gs[k][..t - 1], a, us[k]);
      assert gs[k][..t] == gs[k][..t - 1] + [a];
      EqAdd(f, Inner(TableOf(c, gs), values, i), Inner(TableOf(c, gs), values, 1 + LINES * k) + Eval(gs[k][..t - 1], us[k]),
            a * values[i], a * IntPow(us[k], t - 1));
    }
  }

  lemma EvalNone(x: int)
    ensures Eval([], x) == 0
  {
  }

  lemma TableAt(c: int, gs: seq<seq<int>>, k: nat, t: nat)
    requires AreUnivariates(gs) && k < ROUNDS && t < LINES
    ensures TableOf(c, gs)[1 + LINES * k + t] == gs[k][t]
  {
    var i := 1 + LINES * k + t;
    assert (i - 1) / LINES == k && (i - 1) % LINES == t;
  }

  lemma {:induction false} RoundsInner(f: Field, us: seq<int>, values: seq<int>, c: int, gs: seq<seq<int>>, k: nat)
    requires |us| == ROUNDS && ArePowers(f, us, values) && AreUnivariates(gs) && k <= ROUNDS
    ensures f.Eq(Inner(TableOf(c, gs), values, 1 + LINES * k), c + RoundSum(gs, us, k))
  {
    hide Field.Red, Eval;
    if k == 0 {
      assert Inner(TableOf(c, gs), values, 1) == Inner(TableOf(c, gs), values, 0) + c * values[0];
      EqMul(f, c, c, values[0], 1);
    } else {
      RoundsInner(f, us, values, c, gs, k - 1);
      RoundInner(f, us, values, c, gs, k - 1, LINES);
      assert gs[k - 1][..LINES] == gs[k - 1];
      EqAdd(f, Inner(TableOf(c, gs), values, 1 + LINES * (k - 1)), c + RoundSum(gs, us, k - 1),
            Eval(gs[k - 1], us[k - 1]), Eval(gs[k - 1], us[k - 1]));
    }
  }

  /**
   The inner product of a table with the powers of the challenges is its constant plus the sum of the round
   univariates at their challenges.
   */
  lemma PowersEvaluate(f: Field, us: seq<int>, values: seq<int>, c: int, gs: seq<seq<int>>)
    requires |us| == ROUNDS && ArePowers(f, us, values) && AreUnivariates(gs)
    ensures f.Eq(Inner(TableOf(c, gs), values, SUBGROUP_SIZE), c + RoundSum(gs, us, ROUNDS))
  {
    hide Field.Red, RoundSum;
    RoundsInner(f, us, values, c, gs, ROUNDS);
    var t := TableOf(c, gs);
    assert t[253] == t[254] == t[255] == 0;
    assert Inner(t, values, 254) == Inner(t, values, 253) + 0 * values[253];
    assert Inner(t, values, 255) == Inner(t, values, 254) + 0 * values[254];
    assert Inner(t, values, 256) == Inner(t, values, 255) + 0 * values[255];
  }
}
