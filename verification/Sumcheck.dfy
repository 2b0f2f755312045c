/**
 The sumcheck verifier of crates/ultrazk-soroban-verifier/src/sumcheck.rs.

 A round univariate is sent as its values at 0, 1, ..., 8.  The loops work on
 canonical residues; `UnivariateAt` says which polynomial those values stand for.
 */
module Sumcheck {
  import opened PrimeFields
  import opened Polynomials
  import opened BatchInversion

  const BATCHED_RELATION_PARTIAL_LENGTH: nat := 9
  const CONST_PROOF_SIZE_LOG_N: nat := 28

  /** `BARY_BYTES`, the precomputed Lagrange denominators, read as integers. */
  const BARY: seq<int> := [
    0x9d80,
    0x30644e72e131a029b85045b68181585d2833e84879b9709143e1f593efffec51,
    0x05a0,
    0x30644e72e131a029b85045b68181585d2833e84879b9709143e1f593effffd31,
    0x0240,
    0x30644e72e131a029b85045b68181585d2833e84879b9709143e1f593effffd31,
    0x05a0,
    0x30644e72e131a029b85045b68181585d2833e84879b9709143e1f593efffec51,
    0x9d80
  ]

  /** The evaluation domain 0..8. */
  function Nodes(): (s: seq<int>)
    ensures |s| == BATCHED_RELATION_PARTIAL_LENGTH
    ensures forall i :: 0 <= i < |s| ==> s[i] == i
  {
    [0, 1, 2, 3, 4, 5, 6, 7, 8]
  }

  lemma NodesDistinct(f: Field)
    requires f.p > 8
    ensures Distinct(f, Nodes())
  {
    hide Field.Red;
    forall i, j | 0 <= i < j < 9 ensures !f.Eq(Nodes()[i], Nodes()[j]) {
      SmallDistinct(f, i, j);
    }
  }

  /** A round message: nine field elements. */
  ghost predicate IsUnivariate(f: Field, u: seq<int>) {
    |u| == BATCHED_RELATION_PARTIAL_LENGTH && f.HasAll(u)
  }

  /** The value at `x` of the degree-8 polynomial a round message stands for. */
  function UnivariateAt(f: Field, u: seq<int>, x: int): int
    requires |u| == BATCHED_RELATION_PARTIAL_LENGTH
  {
    Eval(Interpolant(f, Nodes(), u), x)
  }

  /** `weights` are the Lagrange denominators of the domain. */
  ghost predicate AreWeights(f: Field, weights: seq<int>) {
    |weights| == BATCHED_RELATION_PARTIAL_LENGTH &&
    forall i :: 0 <= i < |weights| ==> f.Eq(weights[i], Weight(Nodes(), i))
  }

  /** The value of each Lagrange denominator of 0..8, as a product of integers. */
  lemma IntegerWeights(i: nat)
    requires i < 9
    ensures Weight(Nodes(), i) == [40320, -5040, 1440, -720, 576, -720, 1440, -5040, 40320][i]
  {
    hide Vanish;
    var w := Without(Nodes(), i);
    VanishEight(w, Nodes()[i]);
    if i == 0 { assert w == [1, 2, 3, 4, 5, 6, 7, 8]; }
    else if i == 1 { assert w == [0, 2, 3, 4, 5, 6, 7, 8]; }
    else if i == 2 { assert w == [0, 1, 3, 4, 5, 6, 7, 8]; }
    else if i == 3 { assert w == [0, 1, 2, 4, 5, 6, 7, 8]; }
    else if i == 4 { assert w == [0, 1, 2, 3, 5, 6, 7, 8]; }
    else if i == 5 { assert w == [0, 1, 2, 3, 4, 6, 7, 8]; }
    else if i == 6 { assert w == [0, 1, 2, 3, 4, 5, 7, 8]; }
    else if i == 7 { assert w == [0, 1, 2, 3, 4, 5, 6, 8]; }
    else { assert w == [0, 1, 2, 3, 4, 5, 6, 7]; }
  }

  lemma VanishTwo(w: seq<int>, k: nat, x: int)
    requires k + 2 <= |w|
    ensures Vanish(w[k..], x) == (x - w[k]) * ((x - w[k + 1]) * Vanish(w[k + 2..], x))
  {
    assert w[k..][1..] == w[k + 1..] && w[k + 1..][1..] == w[k + 2..];
  }

  lemma VanishEight(w: seq<int>, x: int)
    requires |w| == 8
    ensures Vanish(w, x) == (x - w[0]) * ((x - w[1]) * ((x - w[2]) * ((x - w[3]) *
                            ((x - w[4]) * ((x - w[5]) * ((x - w[6]) * (x - w[7])))))))
  {
    hide Vanish;
    VanishTwo(w, 0, x);
    VanishTwo(w, 2, x);
    VanishTwo(w, 4, x);
    VanishTwo(w, 6, x);
    VanishEmpty(x);
    assert w[0..] == w && w[8..] == [];
  }

  /** In the field the contracts use, the stored bytes are those denominators. */
  lemma BaryTableCorrect(f: Field)
    requires f.p == BN254_R
    ensures AreWeights(f, BARY) && f.HasAll(BARY)
  {
    hide Field.Red, Weight;
    forall i | 0 <= i < 9 ensures f.Eq(BARY[i], Weight(Nodes(), i)) {
      IntegerWeights(i);
      EqByMultiple(f, BARY[i], Weight(Nodes(), i), i % 2);
    }
  }

  // ---- One round ----

  /**
   Barycentric evaluation of a round message at the round challenge.  The result
   is the polynomial's value on both paths, and the error is never returned.
   */
  method ComputeNextTargetSum(f: PrimeField, univariate: seq<int>, challenge: int, weights: seq<int>)
    returns (r: Result<int>)
    requires f.p > 8 && IsUnivariate(f, univariate) && f.Has(challenge)
    requires AreWeights(f, weights)
    ensures r == Ok(f.Red(UnivariateAt(f, univariate, challenge)))
  {
    hide Field.Red, Field.Inv, IsPrime, Weight, Eval, Interpolant, Partial, Vanish;
    NodesDistinct(f);
    for i := 0 to BATCHED_RELATION_PARTIAL_LENGTH
      invariant forall k :: 0 <= k < i ==> Nodes()[k] != challenge
    {
      if challenge == i {
        InterpolantValue(f, Nodes(), univariate, i);
        RedCanonical(f, univariate[i]);
        return Ok(univariate[i]);
      }
    }

    var nodes := Nodes();
    var denoms: seq<int> := [];
    var bPoly := 1;
    assert nodes[..0] == [];
    VanishEmpty(challenge);
    for i := 0 to BATCHED_RELATION_PARTIAL_LENGTH
      invariant |denoms| == i && f.HasAll(denoms)
      invariant f.Eq(bPoly, Vanish(nodes[..i], challenge))
      invariant forall k :: 0 <= k < i ==> f.Eq(denoms[k], Weight(nodes, k) * (challenge - k))
    {
      var diff := f.Sub(challenge, i);
      RedEq(f, challenge - i);
      Ops(f, bPoly, Vanish(nodes[..i], challenge), diff, challenge - i);
      VanishAppend(nodes, i, challenge);
      Ops(f, weights[i], Weight(nodes, i), diff, challenge - i);
      bPoly := f.Mul(bPoly, diff);
      denoms := denoms + [f.Mul(weights[i], diff)];
    }
    assert nodes[..9] == nodes;

    DenominatorsNonzero(f, challenge, denoms);
    var invDenoms := new int[BATCHED_RELATION_PARTIAL_LENGTH];
    var outcome := BatchInverse(f, denoms, invDenoms);
    if outcome.Err? {
      return Err("sumcheck: barycentric denominator is zero");
    }

    var acc := 0;
    PartialEmpty(f, nodes, univariate, challenge);
    for i := 0 to BATCHED_RELATION_PARTIAL_LENGTH
      invariant Inverts(f, denoms, invDenoms[..])
      invariant f.Eq(Vanish(nodes, challenge) * acc, Eval(Partial(f, nodes, univariate, i), challenge))
    {
      BarycentricTerm(f, univariate, challenge, i, denoms[i], invDenoms[i]);
      Accumulate(f, Vanish(nodes, challenge), acc, univariate[i], invDenoms[i],
                 Eval(Partial(f, nodes, univariate, i), challenge), Term(f, nodes, univariate, i, challenge));
      PartialStep(f, nodes, univariate, i, challenge);
      acc := f.Add(acc, f.Mul(univariate[i], invDenoms[i]));
    }
    EqMul(f, bPoly, Vanish(nodes, challenge), acc, acc);
    InterpolantIsPartial(f, nodes, univariate);
    return Ok(f.Mul(bPoly, acc));
  }

  lemma VanishEmpty(x: int)
    ensures Vanish([], x) == 1
  {
  }

  lemma PartialEmpty(f: Field, points: seq<int>, values: seq<int>, x: int)
    requires |points| == |values|
    ensures Eval(Partial(f, points, values, 0), x) == 0
  {
  }

  lemma InterpolantIsPartial(f: Field, points: seq<int>, values: seq<int>)
    requires |points| == |values|
    ensures Interpolant(f, points, values) == Partial(f, points, values, |points|)
  {
  }

  lemma {:induction false} VanishAppend(points: seq<int>, i: nat, x: int)
    requires i < |points|
    ensures Vanish(points[..i + 1], x) == Vanish(points[..i], x) * (x - points[i])
  {
    var s := points[..i + 1];
    VanishSplit(s, i, x);
    assert Without(s, i) == points[..i];
  }

  lemma DenominatorsNonzero(f: PrimeField, x: int, denoms: seq<int>)
    requires f.p > 8 && f.Has(x) && |denoms| == 9
    requires forall k :: 0 <= k < 9 ==> Nodes()[k] != x
    requires forall k :: 0 <= k < 9 ==> f.Eq(denoms[k], Weight(Nodes(), k) * (x - k))
    ensures AllNonzero(f, denoms)
  {
    hide Field.Red, IsPrime, Weight;
    NodesDistinct(f);
    forall k | 0 <= k < 9 ensures !f.Eq(denoms[k], 0) {
      WeightNonzero(f, Nodes(), k);
      assert Nodes()[k] != x;
      SmallDistinct(f, x, k);
      EqDifference(f, x, k);
      NoZeroDivisors(f, Weight(Nodes(), k), x - k);
    }
  }

  /** `V(x) * u_i / (w_i (x - i))` is the Lagrange term of node `i`. */
  lemma BarycentricTerm(f: PrimeField, u: seq<int>, x: int, i: nat, d: int, inv: int)
    requires |u| == 9 && i < 9 && f.p > 8
    requires f.Eq(d, Weight(Nodes(), i) * (x - i)) && f.Eq(d * inv, 1)
    ensures f.Eq(Vanish(Nodes(), x) * (u[i] * inv), Term(f, Nodes(), u, i, x))
  {
    hide Field.Red, Field.Inv, IsPrime, Weight, Vanish, Without;
    var w, v := Weight(Nodes(), i), Vanish(Without(Nodes(), i), x);
    NodesDistinct(f);
    WeightNonzero(f, Nodes(), i);
    Inverse(f, w);
    EqMul(f, d, w * (x - i), inv, inv);
    assert w * (x - i) * inv == w * ((x - i) * inv);
    Cancel(f, w, (x - i) * inv, f.Inv(w));
    VanishSplit(Nodes(), i, x);
    EqMul(f, u[i] * v, u[i] * v, (x - i) * inv, f.Inv(w));
    assert (x - i) * v * (u[i] * inv) == u[i] * v * ((x - i) * inv);
    assert u[i] * f.Inv(w) * v == u[i] * v * f.Inv(w);
  }

  lemma Accumulate(f: Field, b: int, acc: int, u: int, inv: int, sum: int, term: int)
    requires f.Eq(b * acc, sum) && f.Eq(b * (u * inv), term)
    ensures f.Eq(b * f.Add(acc, f.Mul(u, inv)), sum + term)
  {
    hide Field.Red;
    RedEq(f, u * inv);
    Ops(f, acc, acc, f.Mul(u, inv), u * inv);
    EqMul(f, b, b, f.Add(acc, f.Mul(u, inv)), acc + u * inv);
    assert b * (acc + u * inv) == b * acc + b * (u * inv);
    EqAdd(f, b * acc, sum, b * (u * inv), term);
  }

  /** For every polynomial of degree at most 8, its values at 0..8 evaluate to it everywhere. */
  lemma UnivariateIsThePolynomial(f: PrimeField, c: seq<int>, u: seq<int>, x: int)
    requires f.p > 8 && |c| <= 9 && |u| == 9
    requires forall i :: 0 <= i < 9 ==> f.Eq(Eval(c, i), u[i])
    ensures f.Eq(UnivariateAt(f, u, x), Eval(c, x))
  {
    hide Field.Red, IsPrime;
    NodesDistinct(f);
    InterpolantUnique(f, Nodes(), u, c, x);
  }

  function CheckSum(f: Field, univariate: seq<int>, target: int): bool
    requires |univariate| == BATCHED_RELATION_PARTIAL_LENGTH
  {
    f.Add(univariate[0], univariate[1]) == target
  }

  function PartiallyEvaluatePow(f: Field, gate: int, pow: int, challenge: int): int {
    f.Mul(pow, f.Add(1, f.Mul(challenge, f.Sub(gate, 1))))
  }

  // ---- The round loop ----

  /** The messages of all rounds, one per variable of the padded circuit. */
  ghost predicate AreMessages(f: Field, messages: seq<seq<int>>) {
    |messages| == CONST_PROOF_SIZE_LOG_N && forall r :: 0 <= r < |messages| ==> IsUnivariate(f, messages[r])
  }

  /** The round target after `r` rounds. */
  function Target(f: Field, start: int, messages: seq<seq<int>>, us: seq<int>, r: nat): int
    requires r <= |messages| && r <= |us|
    requires forall k :: 0 <= k < |messages| ==> |messages[k]| == BATCHED_RELATION_PARTIAL_LENGTH
  {
    if r == 0 then start else f.Red(UnivariateAt(f, messages[r - 1], us[r - 1]))
  }

  /** Every one of the first `n` rounds satisfies S(0) + S(1) = target. */
  ghost predicate RoundsPass(f: Field, start: int, messages: seq<seq<int>>, us: seq<int>, n: nat)
    requires n <= |messages| && n <= |us|
    requires forall k :: 0 <= k < |messages| ==> |messages[k]| == BATCHED_RELATION_PARTIAL_LENGTH
  {
    forall r :: 0 <= r < n ==>
      f.Eq(messages[r][0] + messages[r][1], Target(f, start, messages, us, r))
  }

  /** The integer product the gate separator accumulates. */
  function GateProduct(gates: seq<int>, us: seq<int>, k: nat): int
    requires k <= |gates| && k <= |us|
  {
    if k == 0 then 1 else GateProduct(gates, us, k - 1) * (1 + us[k - 1] * (gates[k - 1] - 1))
  }

  /** The product of the challenges from index 2 on, which masks the relation sum. */
  function TailProduct(us: seq<int>, n: nat): int
    requires n <= |us|
  {
    if n <= 2 then 1 else TailProduct(us, n - 1) * us[n - 1]
  }

  datatype SumcheckInput = SumcheckInput(
    logN: int, messages: seq<seq<int>>, us: seq<int>, gates: seq<int>,
    libraChallenge: int, libraSum: int, libraClaimedEvaluation: int)

  ghost predicate IsInput(f: Field, s: SumcheckInput) {
    && AreMessages(f, s.messages)
    && |s.us| == |s.gates| == CONST_PROOF_SIZE_LOG_N
    && f.HasAll(s.us) && f.HasAll(s.gates)
    && f.Has(s.libraChallenge) && f.Has(s.libraSum) && f.Has(s.libraClaimedEvaluation)
  }

  /** The masked relation sum the last target is compared with. */
  function MaskedSum(f: Field, s: SumcheckInput, relation: int -> int): int
    requires 0 <= s.logN <= |s.us| && s.logN <= |s.gates|
  {
    relation(f.Red(GateProduct(s.gates, s.us, s.logN))) * (1 - TailProduct(s.us, s.logN))
      + s.libraClaimedEvaluation * s.libraChallenge
  }

  function Start(f: Field, s: SumcheckInput): int { f.Red(s.libraChallenge * s.libraSum) }

  ghost predicate InRange(s: SumcheckInput) { 1 <= s.logN <= CONST_PROOF_SIZE_LOG_N }

  ghost predicate AllRoundsPass(f: Field, s: SumcheckInput)
    requires IsInput(f, s) && InRange(s)
  {
    RoundsPass(f, Start(f, s), s.messages, s.us, s.logN)
  }

  /** The last target is the masked relation sum. */
  ghost predicate FinalCheck(f: Field, s: SumcheckInput, relation: int -> int)
    requires IsInput(f, s) && InRange(s)
  {
    f.Eq(MaskedSum(f, s, relation), Target(f, Start(f, s), s.messages, s.us, s.logN))
  }

  /**
   The whole verifier.  `relation` is the batched sum of the 26 subrelations at the
   claimed evaluations, as a function of the gate separator.
   */
  method VerifySumcheck(f: PrimeField, s: SumcheckInput, weights: seq<int>, relation: int -> int)
    returns (r: Result<()>)
    requires f.p > 8 && IsInput(f, s) && AreWeights(f, weights)
    ensures !(1 <= s.logN <= 28) ==> r == Err("sumcheck: log_circuit_size out of range")
    ensures InRange(s) && !AllRoundsPass(f, s) ==> r == Err("round failed")
    ensures InRange(s) && AllRoundsPass(f, s) ==>
      r == if FinalCheck(f, s, relation) then Ok(()) else Err("sumcheck final mismatch")
  {
    hide Field.Red, IsPrime, UnivariateAt, GateProduct, TailProduct;
    if s.logN <= 0 || s.logN > CONST_PROOF_SIZE_LOG_N {
      return Err("sumcheck: log_circuit_size out of range");
    }
    var start := f.Mul(s.libraChallenge, s.libraSum);
    var rounds := RunRounds(f, start, s, weights);
    if rounds.Err? {
      return Err(rounds.error);
    }
    var (target, pow) := rounds.value;
    var evaluation := MaskProduct(f, s.us, s.logN);
    var grand := relation(pow);
    var masked := f.Add(f.Mul(grand, f.Sub(1, evaluation)),
                        f.Mul(s.libraClaimedEvaluation, s.libraChallenge));
    MaskedCongruent(f, grand, evaluation, TailProduct(s.us, s.logN), s.libraClaimedEvaluation, s.libraChallenge);
    RedCanonical(f, masked);
    RedCanonical(f, target);
    if masked == target {
      return Ok(());
    }
    return Err("sumcheck final mismatch");
  }

  /** The round loop: the last target and the gate separator, or the failing round's error. */
  method RunRounds(f: PrimeField, start: int, s: SumcheckInput, weights: seq<int>)
    returns (r: Result<(int, int)>)
    requires f.p > 8 && IsInput(f, s) && InRange(s) && AreWeights(f, weights) && f.Has(start)
    ensures r.Ok? <==> RoundsPass(f, start, s.messages, s.us, s.logN)
    ensures r.Ok? ==> r.value == (Target(f, start, s.messages, s.us, s.logN), f.Red(GateProduct(s.gates, s.us, s.logN)))
                      && f.Has(r.value.0)
    ensures r.Err? ==> r.error == "round failed"
  {
    hide Field.Red, IsPrime, UnivariateAt, GateProduct, AreWeights;
    GateProductEmpty(s.gates, s.us);
    var target, pow := start, f.Red(1);
    RedEq(f, 1);
    for round := 0 to s.logN
      invariant target == Target(f, start, s.messages, s.us, round) && f.Has(target)
      invariant RoundsPass(f, start, s.messages, s.us, round)
      invariant pow == f.Red(GateProduct(s.gates, s.us, round))
    {
      var univariate := s.messages[round];
      RedEq(f, univariate[0] + univariate[1]);
      RedCanonical(f, target);
      if !CheckSum(f, univariate, target) {
        return Err("round failed");
      }
      var next := ComputeNextTargetSum(f, univariate, s.us[round], weights);
      target := next.value;
      RedEq(f, GateProduct(s.gates, s.us, round));
      PowStep(f, s.gates, s.us, round, pow);
      pow := PartiallyEvaluatePow(f, s.gates[round], pow, s.us[round]);
      RedCanonical(f, pow);
    }
    return Ok((target, pow));
  }

  method MaskProduct(f: Field, us: seq<int>, n: nat) returns (evaluation: int)
    requires n <= |us|
    ensures f.Eq(evaluation, TailProduct(us, n))
  {
    hide Field.Red;
    evaluation := 1;
    var k := 2;
    while k < n
      invariant n < 2 || k <= n
      invariant f.Eq(evaluation, TailProduct(us, if n < 2 then n else k))
    {
      Ops(f, evaluation, TailProduct(us, k), us[k], us[k]);
      evaluation := f.Mul(evaluation, us[k]);
      k := k + 1;
    }
  }

  lemma MaskedCongruent(f: Field, grand: int, e: int, tail: int, claimed: int, libra: int)
    requires f.Eq(e, tail)
    ensures f.Eq(f.Add(f.Mul(grand, f.Sub(1, e)), f.Mul(claimed, libra)), grand * (1 - tail) + claimed * libra)
  {
    hide Field.Red;
    Ops(f, 1, 1, e, tail);
    Ops(f, grand, grand, f.Sub(1, e), 1 - tail);
    RedEq(f, claimed * libra);
    Ops(f, f.Mul(grand, f.Sub(1, e)), grand * (1 - tail), f.Mul(claimed, libra), claimed * libra);
  }

  lemma GateProductEmpty(gates: seq<int>, us: seq<int>)
    ensures GateProduct(gates, us, 0) == 1
  {
  }

  lemma PowStep(f: Field, gates: seq<int>, us: seq<int>, k: nat, pow: int)
    requires k < |gates| && k < |us|
    requires f.Eq(pow, GateProduct(gates, us, k))
    ensures f.Eq(PartiallyEvaluatePow(f, gates[k], pow, us[k]), GateProduct(gates, us, k + 1))
  {
    hide Field.Red;
    var g, u := gates[k], us[k];
    RedEq(f, g - 1);
    Ops(f, u, u, f.Sub(g, 1), g - 1);
    Ops(f, 1, 1, f.Mul(u, f.Sub(g, 1)), u * (g - 1));
    Ops(f, pow, GateProduct(gates, us, k), f.Add(1, f.Mul(u, f.Sub(g, 1))), 1 + u * (g - 1));
  }
}
