/** `check_libra_evaluations_consistency` of shplemini.rs, loop by loop. */
module LibraCheck {
  import opened PrimeFields
  import opened Polynomials
  import opened BatchInversion
  import opened Libra
  import opened LibraTables
  import opened LibraProofs
  import opened LuckyChallenges

  /** 1, u, ..., u^8 as field elements. */
  function Line(f: Field, u: int): (s: seq<int>)
    ensures |s| == LINES
  {
    seq(LINES, t requires t >= 0 => f.Red(IntPow(u, t)))
  }

  /** A leading one and the power lines of the first `n` round challenges. */
  function Lines(f: Field, us: seq<int>, n: nat): (s: seq<int>)
    requires n <= |us|
    ensures |s| == 1 + LINES * n
  {
    if n == 0 then [1] else Lines(f, us, n - 1) + Line(f, us[n - 1])
  }

  /** `challenge_lagrange`: the values on the subgroup, padded with zeros. */
  function ChallengeLagrange(f: Field, us: seq<int>): (s: seq<int>)
    requires |us| == ROUNDS
    ensures |s| == SUBGROUP_SIZE
  {
    Lines(f, us, ROUNDS) + [0, 0, 0]
  }

  lemma {:induction false} LinesAt(f: Field, us: seq<int>, n: nat, k: nat, t: nat)
    requires k < n <= |us| && t < LINES
    ensures f.Eq(Lines(f, us, n)[1 + LINES * k + t], IntPow(us[k], t))
  {
    if k == n - 1 {
      RedEq(f, IntPow(us[k], t));
      assert Lines(f, us, n)[1 + LINES * k + t] == Line(f, us[k])[t];
    } else {
      LinesAt(f, us, n - 1, k, t);
    }
  }

  lemma {:induction false} LinesFirst(f: Field, us: seq<int>, n: nat)
    requires n <= |us|
    ensures Lines(f, us, n)[0] == 1
  {
    if n > 0 { LinesFirst(f, us, n - 1); }
  }

  /** The array holds one, the powers 0 to 8 of each round challenge, and zeros. */
  lemma ChallengePowers(f: Field, us: seq<int>)
    requires |us| == ROUNDS
    ensures ArePowers(f, us, ChallengeLagrange(f, us))
  {
    hide Field.Red, IntPow, Lines;
    LinesFirst(f, us, ROUNDS);
    var values := ChallengeLagrange(f, us);
    forall k, t | 0 <= k < ROUNDS && 0 <= t < LINES ensures PowerAt(f, us, values, k, t) { LinesAt(f, us, ROUNDS, k, t); }
  }

  method FillChallengeLagrange(f: Field, us: seq<int>) returns (values: array<int>)
    requires |us| == ROUNDS
    ensures fresh(values) && values[..] == ChallengeLagrange(f, us) && ArePowers(f, us, values[..])
  {
    ChallengePowers(f, us);
    hide Field.Red, IntPow, Line;
    values := new int[SUBGROUP_SIZE](_ => 0);
    values[0] := 1;
    for round := 0 to ROUNDS
      invariant values[..1 + LINES * round] == Lines(f, us, round)
      invariant forall k :: 1 + LINES * round <= k < SUBGROUP_SIZE ==> values[k] == 0
    {
      var current := 1 + LINES * round;
      ghost var before := values[..current];
      FillLine(f, us[round], values, current);
      assert values[..current] == before;
      assert values[..current + LINES] == values[..current] + values[current..current + LINES];
    }
    assert values[..] == values[..253] + [values[253], values[254], values[255]];
  }

  /** The inner loop: the powers of one challenge, from `current` on. */
  method FillLine(f: Field, u: int, values: array<int>, current: nat)
    requires current + LINES <= values.Length
    modifies values
    ensures values[current..current + LINES] == Line(f, u)
    ensures forall k :: 0 <= k < values.Length && !(current <= k < current + LINES) ==> values[k] == old(values[k])
  {
    hide Field.Red, IntPow;
    values[current] := 1;
    FirstOfLine(f, u);
    for index := current + 1 to current + LINES
      invariant forall t :: current <= t < index ==> values[t] == Line(f, u)[t - current]
      invariant forall k :: 0 <= k < values.Length && !(current <= k < current + LINES) ==> values[k] == old(values[k])
    {
      NextOfLine(f, u, index - current);
      values[index] := f.Mul(values[index - 1], u);
    }
  }

  lemma FirstOfLine(f: Field, u: int)
    ensures Line(f, u)[..1] == [1]
  {
    RedCanonical(f, 1);
  }

  lemma NextOfLine(f: Field, u: int, t: nat)
    requires 0 < t < LINES
    ensures f.Mul(Line(f, u)[t - 1], u) == Line(f, u)[t]
  {
    hide Field.Red;
    RedEq(f, IntPow(u, t - 1));
    EqMul(f, Line(f, u)[t - 1], IntPow(u, t - 1), u, u);
    assert IntPow(u, t - 1) * u == IntPow(u, t);
  }

  /** The denominators winv^i r - 1. */
  method FillDenominators(f: Field, winv: int, r: int) returns (denominators: seq<int>)
    ensures |denominators| == SUBGROUP_SIZE && f.HasAll(denominators)
    ensures AreDenominators(f, winv, r, denominators)
  {
    hide Field.Red;
    denominators := [];
    var rootPower := 1;
    for i := 0 to SUBGROUP_SIZE
      invariant |denominators| == i && f.HasAll(denominators)
      invariant AreDenominators(f, winv, r, denominators)
      invariant f.Eq(rootPower, IntPow(winv, i))
    {
      Ops(f, rootPower, IntPow(winv, i), r, r);
      Ops(f, f.Mul(rootPower, r), IntPow(winv, i) * r, 1, 1);
      denominators := denominators + [f.Sub(f.Mul(rootPower, r), 1)];
      Ops(f, rootPower, IntPow(winv, i), winv, winv);
      assert IntPow(winv, i) * winv == IntPow(winv, i + 1);
      rootPower := f.Mul(rootPower, winv);
    }
  }

  method SumWeighted(f: Field, values: seq<int>, inverses: seq<int>) returns (sum: int)
    requires |values| == |inverses|
    ensures f.Eq(sum, WeightedSum(values, inverses, |values|))
  {
    hide Field.Red;
    sum := 0;
    for i := 0 to |values|
      invariant f.Eq(sum, WeightedSum(values, inverses, i))
    {
      RedEq(f, values[i] * inverses[i]);
      Ops(f, sum, WeightedSum(values, inverses, i), f.Mul(values[i], inverses[i]), values[i] * inverses[i]);
      sum := f.Add(sum, f.Mul(values[i], inverses[i]));
    }
  }

  lemma {:induction false} UnitSum(k: nat, inverses: seq<int>, m: nat)
    requires k < SUBGROUP_SIZE == |inverses| && m <= SUBGROUP_SIZE
    ensures WeightedSum(Unit(k), inverses, m) == if k < m then inverses[k] else 0
  {
    if m > 0 { UnitSum(k, inverses, m - 1); }
  }

  /** The identity the four Libra openings must satisfy at `r`. */
  function LibraIdentity(f: Field, w: int, winv: int, r: int, us: seq<int>, evals: seq<int>, claimed: int): int
    requires |us| == ROUNDS && |evals| == 4
  {
    var first := Eval(OnSubgroup(f, w, Unit(0)), r);
    var last := Eval(OnSubgroup(f, w, Unit(SUBGROUP_SIZE - 1)), r);
    var challenge := Eval(OnSubgroup(f, w, ChallengeLagrange(f, us)), r);
    first * evals[2] + (r - winv) * (evals[1] - evals[2] - evals[0] * challenge)
      + last * (evals[2] - claimed) - (IntPow(r, SUBGROUP_SIZE) - 1) * evals[3]
  }

  /** The identity is the value at `r` of left side less quotient. */
  lemma IdentityIsDifference(f: Field, w: int, winv: int, r: int, us: seq<int>, evals: seq<int>, claimed: int, p: LibraPolys)
    requires |us| == ROUNDS && OpenedAt(f, w, r, p, evals)
    ensures f.Eq(LibraIdentity(f, w, winv, r, us, evals, claimed),
                 Eval(Difference(f, w, winv, ChallengeLagrange(f, us), p, claimed), r))
  {
    hide Field.Red, IntPow, Eval, OnSubgroup, Unit, ChallengeLagrange, Numerator, Difference;
    var values := ChallengeLagrange(f, us);
    EvalDifference(f, w, winv, values, p, claimed, r);
    EvalNumerator(f, w, winv, values, p, claimed, r);
    var (u, v, c, n) := (Eval(OnSubgroup(f, w, Unit(0)), r), Eval(OnSubgroup(f, w, Unit(SUBGROUP_SIZE - 1)), r),
                         Eval(OnSubgroup(f, w, values), r), IntPow(r, SUBGROUP_SIZE) - 1);
    var (g, a, b, q) := (Eval(p.concat, r), Eval(p.grandSum, r), Eval(p.grandSum, w * r), Eval(p.quotient, r));
    IdentityCongruent(f, u, v, c, n, r - winv, evals[0], g, evals[1], b, evals[2], a, evals[3], q, claimed);
  }

  lemma IdentityCongruent(f: Field, u: int, v: int, c: int, n: int, d: int, e0: int, g: int, e1: int, b: int, e2: int, a: int,
                          e3: int, q: int, claimed: int)
    requires f.Eq(e0, g) && f.Eq(e1, b) && f.Eq(e2, a) && f.Eq(e3, q)
    ensures f.Eq(u * e2 + d * (e1 - e2 - e0 * c) + v * (e2 - claimed) - n * e3,
                 u * a + d * (b - a - g * c) + v * (a - claimed) - n * q)
  {
    hide Field.Red;
    EqMul(f, u, u, e2, a);
    EqMul(f, e0, g, c, c);
    EqSub(f, e1, b, e2, a);
    EqSub(f, e1 - e2, b - a, e0 * c, g * c);
    EqMul(f, d, d, e1 - e2 - e0 * c, b - a - g * c);
    EqSub(f, e2, a, claimed, claimed);
    EqMul(f, v, v, e2 - claimed, a - claimed);
    EqMul(f, n, n, e3, q);
    EqAdd(f, u * e2, u * a, d * (e1 - e2 - e0 * c), d * (b - a - g * c));
    EqAdd(f, u * e2 + d * (e1 - e2 - e0 * c), u * a + d * (b - a - g * c), v * (e2 - claimed), v * (a - claimed));
    EqSub(f, u * e2 + d * (e1 - e2 - e0 * c) + v * (e2 - claimed), u * a + d * (b - a - g * c) + v * (a - claimed), n * e3, n * q);
  }

  /** Honest openings satisfy the identity. */
  lemma HonestAccepted(f: PrimeField, w: int, winv: int, r: int, us: seq<int>, evals: seq<int>, claimed: int)
    requires HasOrder(f, w, SUBGROUP_SIZE) && f.Eq(w * winv, 1) && |us| == ROUNDS
    requires HonestOpenings(f, w, winv, r, us, evals, claimed)
    ensures |evals| == 4 && f.Eq(LibraIdentity(f, w, winv, r, us, evals, claimed), 0)
  {
    hide Field.Red, IsPrime, IntPow, HasOrder, Eval, LibraIdentity, Numerator, Difference, ChallengeLagrange, OpensTable,
         IsGrandSum, HonestQuotient, Inner;
    var values: seq<int>, table: seq<int>, p: LibraPolys :|
      HonestLibra(f, w, winv, us, values, table, p, claimed) && OpenedAt(f, w, r, p, evals);
    HonestDivides(f, w, winv, us, values, table, p, claimed);
    ChallengePowers(f, us);
    var c := ChallengeLagrange(f, us);
    NumeratorsAgree(f, w, winv, us, values, c, p, claimed, r);
    IdentityIsDifference(f, w, winv, r, us, evals, claimed, p);
    EvalDifference(f, w, winv, c, p, claimed, r);
    var z := (IntPow(r, SUBGROUP_SIZE) - 1) * Eval(p.quotient, r);
    assert f.Eq(Eval(Numerator(f, w, winv, values, p, claimed), r), z);
    EqSub(f, Eval(Numerator(f, w, winv, c, p, claimed), r), z, z, z);
  }

  /**
   Soundness, for a prover who knows its polynomials: accepted openings mean that the claim is off the inner product
   exactly by the grand sum's first value, or that `r` is a root of a non-zero polynomial fixed before it was drawn.
   */
  lemma AcceptedLibra(f: PrimeField, w: int, winv: int, r: int, us: seq<int>, evals: seq<int>, claimed: int, table: seq<int>, p: LibraPolys)
    requires HasOrder(f, w, SUBGROUP_SIZE) && f.Eq(w * winv, 1) && |us| == ROUNDS
    requires OpensTable(f, w, table, p) && OpenedAt(f, w, r, p, evals) && f.Eq(LibraIdentity(f, w, winv, r, us, evals, claimed), 0)
    ensures Lucky(f, Difference(f, w, winv, ChallengeLagrange(f, us), p, claimed), r)
            || (f.Eq(claimed, Inner(table, ChallengeLagrange(f, us), SUBGROUP_SIZE)) <==> f.Eq(Eval(p.grandSum, 1), 0))
  {
    hide Field.Red, IsPrime, IntPow, HasOrder, Eval, LibraIdentity, Numerator, Difference, ChallengeLagrange, ArePowers, Inner, NonZero;
    var c := ChallengeLagrange(f, us);
    IdentityIsDifference(f, w, winv, r, us, evals, claimed, p);
    if !NonZero(f, Difference(f, w, winv, c, p, claimed)) {
      forall x ensures f.Eq(Eval(Numerator(f, w, winv, c, p, claimed), x), (IntPow(x, SUBGROUP_SIZE) - 1) * Eval(p.quotient, x)) {
        ZeroEverywhere(f, Difference(f, w, winv, c, p, claimed), x);
        EvalDifference(f, w, winv, c, p, claimed, x);
        EqDifference(f, Eval(Numerator(f, w, winv, c, p, claimed), x), (IntPow(x, SUBGROUP_SIZE) - 1) * Eval(p.quotient, x));
      }
      ChallengePowers(f, us);
      IdentityMeans(f, w, winv, us, c, table, p, claimed);
    }
  }

  method CheckLibraEvaluations(f: PrimeField, ghost w: int, winv: int, r: int, us: seq<int>,
                               evals: seq<int>, claimed: int) returns (result: Result<()>)
    requires f.p > SUBGROUP_SIZE && HasOrder(f, w, SUBGROUP_SIZE) && f.Eq(w * winv, 1)
    requires |us| == ROUNDS && |evals| == 4 && f.HasAll(evals)
    ensures f.Eq(IntPow(r, SUBGROUP_SIZE), 1) ==> result == Err("gemini challenge is in the Libra subgroup")
    ensures !f.Eq(IntPow(r, SUBGROUP_SIZE), 1) ==>
      result == if f.Eq(LibraIdentity(f, w, winv, r, us, evals, claimed), 0) then Ok(())
                else Err("Libra evaluations are inconsistent")
    ensures !f.Eq(IntPow(r, SUBGROUP_SIZE), 1) && HonestOpenings(f, w, winv, r, us, evals, claimed) ==> result == Ok(())
  {
    hide Field.Red, Field.Inv, IsPrime, IntPow, HasOrder, Eval, OnSubgroup, LibraIdentity, HonestOpenings, ArePowers;
    if HonestOpenings(f, w, winv, r, us, evals, claimed) { HonestAccepted(f, w, winv, r, us, evals, claimed); }
    var vanishing := f.Sub(f.Pow(r, SUBGROUP_SIZE), 1);
    RedEq(f, IntPow(r, SUBGROUP_SIZE));
    Ops(f, f.Pow(r, SUBGROUP_SIZE), IntPow(r, SUBGROUP_SIZE), 1, 1);
    EqDifference(f, IntPow(r, SUBGROUP_SIZE), 1);
    RedCanonical(f, vanishing);
    RedCanonical(f, 0);
    if vanishing == 0 {
      return Err("gemini challenge is in the Libra subgroup");
    }

    var values := FillChallengeLagrange(f, us);
    var denominators := FillDenominators(f, winv, r);
    Libra.DenominatorsNonzero(f, w, winv, SUBGROUP_SIZE, r, denominators);
    var inverses := new int[SUBGROUP_SIZE];
    ghost var lagrange := values[..];
    var inversion := BatchInverse(f, denominators, inverses);
    if inversion.Err? {
      return Err("Libra denominator is zero");
    }
    assert values[..] == lagrange;
    var sum := SumWeighted(f, values[..], inverses[..]);

    SmallDistinct(f, SUBGROUP_SIZE, 0);
    Inverse(f, SUBGROUP_SIZE);
    var numerator := f.Mul(vanishing, f.Inv(SUBGROUP_SIZE));
    var challenge := f.Mul(sum, numerator);
    var first := f.Mul(inverses[0], numerator);
    var last := f.Mul(inverses[SUBGROUP_SIZE - 1], numerator);
    EvaluationsAtR(f, w, winv, r, us, denominators, inverses[..], vanishing, sum);
    var difference := f.Mul(first, evals[2]);
    difference := f.Add(difference,
      f.Mul(f.Sub(r, winv), f.Sub(f.Sub(evals[1], evals[2]), f.Mul(evals[0], challenge))));
    difference := f.Sub(f.Add(difference, f.Mul(last, f.Sub(evals[2], claimed))), f.Mul(vanishing, evals[3]));
    DifferenceIsIdentity(f, w, winv, r, us, evals, claimed, first, last, challenge, vanishing);
    RedCanonical(f, difference);
    if difference == 0 {
      return Ok(());
    }
    return Err("Libra evaluations are inconsistent");
  }

  /** The three weighted inverses are the three interpolants' values at `r`. */
  lemma EvaluationsAtR(f: PrimeField, w: int, winv: int, r: int, us: seq<int>, denominators: seq<int>,
                       inverses: seq<int>, vanishing: int, sum: int)
    requires f.p > SUBGROUP_SIZE && HasOrder(f, w, SUBGROUP_SIZE) && f.Eq(w * winv, 1) && |us| == ROUNDS
    requires |denominators| == SUBGROUP_SIZE && AreDenominators(f, winv, r, denominators)
    requires Inverts(f, denominators, inverses)
    requires f.Eq(vanishing, IntPow(r, SUBGROUP_SIZE) - 1)
    requires f.Eq(sum, WeightedSum(ChallengeLagrange(f, us), inverses, SUBGROUP_SIZE))
    ensures var numerator := f.Mul(vanishing, f.Inv(SUBGROUP_SIZE));
      && f.Eq(f.Mul(sum, numerator), Eval(OnSubgroup(f, w, ChallengeLagrange(f, us)), r))
      && f.Eq(f.Mul(inverses[0], numerator), Eval(OnSubgroup(f, w, Unit(0)), r))
      && f.Eq(f.Mul(inverses[SUBGROUP_SIZE - 1], numerator), Eval(OnSubgroup(f, w, Unit(SUBGROUP_SIZE - 1)), r))
  {
    hide Field.Red, Field.Inv, IsPrime, IntPow, HasOrder, Eval, OnSubgroup, ChallengeLagrange, Unit, WeightedSum;
    var numerator := f.Mul(vanishing, f.Inv(SUBGROUP_SIZE));
    var c := (IntPow(r, SUBGROUP_SIZE) - 1) * f.Inv(SUBGROUP_SIZE);
    SmallDistinct(f, SUBGROUP_SIZE, 0);
    Ops(f, vanishing, IntPow(r, SUBGROUP_SIZE) - 1, f.Inv(SUBGROUP_SIZE), f.Inv(SUBGROUP_SIZE));
    var challenges := ChallengeLagrange(f, us);
    SubgroupEvaluation(f, challenges, w, winv, r, denominators, inverses);
    Ops(f, sum, WeightedSum(challenges, inverses, SUBGROUP_SIZE), numerator, c);
    assert c * WeightedSum(challenges, inverses, SUBGROUP_SIZE) == WeightedSum(challenges, inverses, SUBGROUP_SIZE) * c;
    UnitEvaluation(f, w, winv, r, denominators, inverses, 0, numerator);
    UnitEvaluation(f, w, winv, r, denominators, inverses, SUBGROUP_SIZE - 1, numerator);
  }

  lemma UnitEvaluation(f: PrimeField, w: int, winv: int, r: int, denominators: seq<int>, inverses: seq<int>,
                       k: nat, numerator: int)
    requires f.p > SUBGROUP_SIZE && HasOrder(f, w, SUBGROUP_SIZE) && f.Eq(w * winv, 1) && k < SUBGROUP_SIZE
    requires |denominators| == SUBGROUP_SIZE && AreDenominators(f, winv, r, denominators)
    requires Inverts(f, denominators, inverses)
    requires f.Eq(numerator, (IntPow(r, SUBGROUP_SIZE) - 1) * f.Inv(SUBGROUP_SIZE))
    ensures f.Eq(f.Mul(inverses[k], numerator), Eval(OnSubgroup(f, w, Unit(k)), r))
  {
    hide Field.Red, Field.Inv, IsPrime, IntPow, HasOrder, Eval, OnSubgroup, Unit, WeightedSum;
    var c := (IntPow(r, SUBGROUP_SIZE) - 1) * f.Inv(SUBGROUP_SIZE);
    SmallDistinct(f, SUBGROUP_SIZE, 0);
    UnitSum(k, inverses, SUBGROUP_SIZE);
    SubgroupEvaluation(f, Unit(k), w, winv, r, denominators, inverses);
    Ops(f, inverses[k], inverses[k], numerator, c);
    assert c * inverses[k] == inverses[k] * c;
  }

  lemma DifferenceIsIdentity(f: Field, w: int, winv: int, r: int, us: seq<int>, evals: seq<int>, claimed: int,
                             first: int, last: int, challenge: int, vanishing: int)
    requires |us| == ROUNDS && |evals| == 4
    requires f.Eq(first, Eval(OnSubgroup(f, w, Unit(0)), r))
    requires f.Eq(last, Eval(OnSubgroup(f, w, Unit(SUBGROUP_SIZE - 1)), r))
    requires f.Eq(challenge, Eval(OnSubgroup(f, w, ChallengeLagrange(f, us)), r))
    requires f.Eq(vanishing, IntPow(r, SUBGROUP_SIZE) - 1)
    ensures f.Eq(
      f.Sub(f.Add(f.Add(f.Mul(first, evals[2]),
                        f.Mul(f.Sub(r, winv), f.Sub(f.Sub(evals[1], evals[2]), f.Mul(evals[0], challenge)))),
                  f.Mul(last, f.Sub(evals[2], claimed))),
            f.Mul(vanishing, evals[3])),
      LibraIdentity(f, w, winv, r, us, evals, claimed))
  {
    hide Field.Red, IntPow, Eval, OnSubgroup, Unit, ChallengeLagrange;
    var a, b, c := Eval(OnSubgroup(f, w, Unit(0)), r), Eval(OnSubgroup(f, w, Unit(SUBGROUP_SIZE - 1)), r),
                   Eval(OnSubgroup(f, w, ChallengeLagrange(f, us)), r);
    Ops(f, first, a, evals[2], evals[2]);
    MiddleTerm(f, r, winv, evals[0], evals[1], evals[2], challenge, c);
    RedEq(f, evals[2] - claimed);
    Ops(f, last, b, f.Sub(evals[2], claimed), evals[2] - claimed);
    Ops(f, vanishing, IntPow(r, SUBGROUP_SIZE) - 1, evals[3], evals[3]);
    FourTerms(f, f.Mul(first, evals[2]), a * evals[2],
              f.Mul(f.Sub(r, winv), f.Sub(f.Sub(evals[1], evals[2]), f.Mul(evals[0], challenge))),
              (r - winv) * (evals[1] - evals[2] - evals[0] * c),
              f.Mul(last, f.Sub(evals[2], claimed)), b * (evals[2] - claimed),
              f.Mul(vanishing, evals[3]), (IntPow(r, SUBGROUP_SIZE) - 1) * evals[3]);
  }

  lemma MiddleTerm(f: Field, r: int, winv: int, e0: int, e1: int, e2: int, challenge: int, c: int)
    requires f.Eq(challenge, c)
    ensures f.Eq(f.Mul(f.Sub(r, winv), f.Sub(f.Sub(e1, e2), f.Mul(e0, challenge))), (r - winv) * (e1 - e2 - e0 * c))
  {
    hide Field.Red;
    RedEq(f, r - winv);
    RedEq(f, e1 - e2);
    Ops(f, e0, e0, challenge, c);
    Ops(f, f.Sub(e1, e2), e1 - e2, f.Mul(e0, challenge), e0 * c);
    Ops(f, f.Sub(r, winv), r - winv, f.Sub(f.Sub(e1, e2), f.Mul(e0, challenge)), e1 - e2 - e0 * c);
  }

  lemma FourTerms(f: Field, a: int, a': int, b: int, b': int, c: int, c': int, d: int, d': int)
    requires f.Eq(a, a') && f.Eq(b, b') && f.Eq(c, c') && f.Eq(d, d')
    ensures f.Eq(f.Sub(f.Add(f.Add(a, b), c), d), a' + b' + c' - d')
  {
    hide Field.Red;
    Ops(f, a, a', b, b');
    Ops(f, f.Add(a, b), a' + b', c, c');
    Ops(f, f.Add(f.Add(a, b), c), a' + b' + c', d, d');
  }
}
