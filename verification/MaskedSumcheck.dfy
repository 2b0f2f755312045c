/**
 What the sumcheck verifier accepts: proofs that a relation vanishes on every row of a table but the last four, masked by
 a Libra polynomial.
 */
module MaskedSumcheck {
  import opened PrimeFields
  import opened Sumcheck
  import opened SumcheckProtocol
  import opened Multilinear

  /** A function of the variables, as the prover's data are. */
  type Data = seq<int> -> int

  /** The sum of `h` over all boolean values of the variables after `xs`. */
  function CubeOf(h: Data, n: nat, xs: seq<int>): int
    requires |xs| <= n
    decreases n - |xs|
  {
    if |xs| == n then h(xs) else CubeOf(h, n, xs + [0]) + CubeOf(h, n, xs + [1])
  }

  /** `g` is the relation on the rows that count, plus the Libra polynomial times its challenge. */
  ghost predicate IsMasked(f: Field, g: MPoly, n: nat, relation: Data, libra: Data, challenge: int)
    requires Shape(g, n)
  {
    forall xs :: |xs| == n ==> f.Eq(Value(g, xs), Mle(MaskTable(n), xs) * relation(xs) + challenge * libra(xs))
  }

  /** The relation vanishes on every row but the last four. */
  ghost predicate VanishesOnRows(f: Field, n: nat, relation: Data) {
    forall xs :: |xs| == n && Boolean(xs) && Row(xs) + 4 < Pow2(n) ==> f.Eq(relation(xs), 0)
  }

  /** The claimed evaluations are those of the prover's data at the challenges. */
  ghost predicate ClaimsAtChallenges(f: Field, s: SumcheckInput, relation: Data, libra: Data, subrelations: int -> int)
    requires IsInput(f, s) && InRange(s)
  {
    && f.Eq(subrelations(f.Red(Mle(PowerTable(s.gates[..s.logN]), s.us[..s.logN]))), relation(s.us[..s.logN]))
    && f.Eq(s.libraClaimedEvaluation, libra(s.us[..s.logN]))
  }

  /** The masked relation sum of the verifier is g(u). */
  lemma MaskedSumIs(f: Field, s: SumcheckInput, g: MPoly, relation: Data, libra: Data, subrelations: int -> int)
    requires IsInput(f, s) && InRange(s) && Shape(g, s.logN)
    requires IsMasked(f, g, s.logN, relation, libra, s.libraChallenge) && ClaimsAtChallenges(f, s, relation, libra, subrelations)
    ensures f.Eq(MaskedSum(f, s, subrelations), Value(g, s.us[..s.logN]))
  {
    hide Field.Red, Mle, TailProduct, GateProduct, Value, Shape, PowerTable, MaskTable;
    var (us, n) := (s.us[..s.logN], s.logN);
    MaskIsMle(s.us, n);
    GateSeparatorIsMle(s.gates, s.us, n);
    var (grand, mask) := (subrelations(f.Red(GateProduct(s.gates, s.us, n))), Mle(MaskTable(n), us));
    EqMul(f, grand, relation(us), mask, mask);
    EqMul(f, s.libraClaimedEvaluation, libra(us), s.libraChallenge, s.libraChallenge);
    EqAdd(f, grand * mask, relation(us) * mask, s.libraClaimedEvaluation * s.libraChallenge, libra(us) * s.libraChallenge);
    assert f.Eq(Value(g, us), mask * relation(us) + s.libraChallenge * libra(us));
  }

  lemma {:induction false} CubeSumOf(f: Field, g: MPoly, h: Data, n: nat, xs: seq<int>)
    requires Shape(g, n) && |xs| <= n && forall ys :: |ys| == n ==> f.Eq(Value(g, ys), h(ys))
    ensures f.Eq(CubeSum(g, n, xs), CubeOf(h, n, xs))
    decreases n - |xs|
  {
    hide Field.Red, Shape, Value;
    if |xs| < n {
      CubeSumOf(f, g, h, n, xs + [0]);
      CubeSumOf(f, g, h, n, xs + [1]);
      EqAdd(f, CubeSum(g, n, xs + [0]), CubeOf(h, n, xs + [0]), CubeSum(g, n, xs + [1]), CubeOf(h, n, xs + [1]));
    }
  }

  function Combined(n: nat, relation: Data, libra: Data, challenge: int): Data {
    (xs: seq<int>) => Mle(MaskTable(n), xs) * relation(xs) + challenge * libra(xs)
  }

  /** On the cube only the Libra polynomial is left, if the relation vanishes on its rows. */
  lemma {:induction false} MaskedCube(f: Field, n: nat, relation: Data, libra: Data, challenge: int, xs: seq<int>)
    requires VanishesOnRows(f, n, relation) && Boolean(xs) && |xs| <= n
    ensures f.Eq(CubeOf(Combined(n, relation, libra, challenge), n, xs), challenge * CubeOf(libra, n, xs))
    decreases n - |xs|
  {
    hide Field.Red, Mle, MaskTable;
    if |xs| == n {
      RowTerm(f, n, relation, challenge * libra(xs), xs);
    } else {
      MaskedCube(f, n, relation, libra, challenge, xs + [0]);
      MaskedCube(f, n, relation, libra, challenge, xs + [1]);
      var h := Combined(n, relation, libra, challenge);
      var (a, b) := (CubeOf(libra, n, xs + [0]), CubeOf(libra, n, xs + [1]));
      SumOfMultiples(f, challenge, CubeOf(h, n, xs + [0]), a, CubeOf(h, n, xs + [1]), b);
    }
  }

  lemma SumOfMultiples(f: Field, k: int, x: int, a: int, y: int, b: int)
    requires f.Eq(x, k * a) && f.Eq(y, k * b)
    ensures f.Eq(x + y, k * (a + b))
  {
    hide Field.Red;
    EqAdd(f, x, k * a, y, k * b);
    assert k * a + k * b == k * (a + b);
  }

  lemma RowTerm(f: Field, n: nat, relation: Data, rest: int, xs: seq<int>)
    requires VanishesOnRows(f, n, relation) && Boolean(xs) && |xs| == n
    ensures f.Eq(Mle(MaskTable(n), xs) * relation(xs) + rest, rest)
  {
    hide Field.Red, Mle;
    var t := MaskTable(n);
    MleAtRow(t, xs);
    if Row(xs) + 4 < Pow2(n) {
      EqMul(f, t[Row(xs)], t[Row(xs)], relation(xs), 0);
    }
    EqAdd(f, Mle(t, xs) * relation(xs), 0, rest, rest);
  }

  /**
   Completeness of the sumcheck verifier: honest messages for a relation that vanishes on all rows but the last four,
   masked by a Libra polynomial whose cube sum is the one sent, pass every round and the final check.
   */
  lemma HonestProofAccepted(f: PrimeField, s: SumcheckInput, subrelations: int -> int, g: MPoly, relation: Data, libra: Data)
    requires f.p > 8 && IsInput(f, s) && 1 <= s.logN <= 28 && Shape(g, s.logN)
    requires forall k :: 0 <= k < s.logN ==> IsHonest(f, g, s.logN, s.us, k, s.messages[k])
    requires IsMasked(f, g, s.logN, relation, libra, s.libraChallenge) && ClaimsAtChallenges(f, s, relation, libra, subrelations)
    requires VanishesOnRows(f, s.logN, relation) && f.Eq(s.libraSum, CubeOf(libra, s.logN, []))
    ensures AllRoundsPass(f, s) && FinalCheck(f, s, subrelations)
  {
    hide Field.Red, IsPrime, CubeSum, CubeOf, RoundsPass, MaskedSum, IsHonest, VanishesOnRows, ClaimsAtChallenges, Mle, Value, Shape, Target;
    MaskedSumIs(f, s, g, relation, libra, subrelations);
    CubeSumOf(f, g, Combined(s.logN, relation, libra, s.libraChallenge), s.logN, []);
    MaskedCube(f, s.logN, relation, libra, s.libraChallenge, []);
    RedEq(f, s.libraChallenge * s.libraSum);
    EqMul(f, s.libraChallenge, s.libraChallenge, s.libraSum, CubeOf(libra, s.logN, []));
    HonestInputAccepted(f, s, subrelations, g);
  }

  /**
   Soundness: if the verifier accepts claimed evaluations that are true of the prover's data, the masked relation and the
   Libra polynomial add up to what was sent over the cube, or some round was lucky.
   */
  lemma AcceptedProofSound(f: PrimeField, s: SumcheckInput, subrelations: int -> int, g: MPoly, relation: Data, libra: Data)
    returns (r: nat)
    requires f.p > 8 && IsInput(f, s) && InRange(s) && Shape(g, s.logN)
    requires AllRoundsPass(f, s) && FinalCheck(f, s, subrelations)
    requires IsMasked(f, g, s.logN, relation, libra, s.libraChallenge) && ClaimsAtChallenges(f, s, relation, libra, subrelations)
    ensures f.Eq(CubeOf(Combined(s.logN, relation, libra, s.libraChallenge), s.logN, []), s.libraChallenge * s.libraSum)
            || (r < s.logN && Lucky(f, g, s.logN, s.messages, s.us, r))
  {
    hide Field.Red, IsPrime, CubeSum, CubeOf, RoundsPass, MaskedSum, Lucky, ClaimsAtChallenges, Mle, Value, Shape, Target;
    MaskedSumIs(f, s, g, relation, libra, subrelations);
    CubeSumOf(f, g, Combined(s.logN, relation, libra, s.libraChallenge), s.logN, []);
    RedEq(f, s.libraChallenge * s.libraSum);
    r := 0;
    if !f.Eq(Start(f, s), CubeSum(g, s.logN, [])) {
      r := AcceptedInputSound(f, s, subrelations, g);
    }
  }
}
