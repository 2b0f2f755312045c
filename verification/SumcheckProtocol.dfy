/**
 What the sumcheck rounds prove: completeness and soundness over the boolean cube
 for every polynomial of degree at most 8 in each variable.
 */
module SumcheckProtocol {
  import opened PrimeFields
  import opened Polynomials
  import opened Sumcheck

  /** A polynomial in several variables: coefficients in the first variable, constant term first. */
  datatype MPoly = Const(c: int) | Poly(coeffs: seq<MPoly>)

  /** `g` has `n` variables and degree at most 8 in each. */
  ghost predicate Shape(g: MPoly, n: nat)
    decreases n
  {
    if n == 0 then g.Const?
    else g.Poly? && |g.coeffs| <= BATCHED_RELATION_PARTIAL_LENGTH && forall i :: 0 <= i < |g.coeffs| ==> Shape(g.coeffs[i], n - 1)
  }

  ghost function Value(g: MPoly, xs: seq<int>): int
    requires Shape(g, |xs|)
    decreases |xs|, 1
  {
    if xs == [] then g.c else Eval(Values(g.coeffs, xs[1..]), xs[0])
  }

  ghost function Values(gs: seq<MPoly>, xs: seq<int>): (r: seq<int>)
    requires forall i :: 0 <= i < |gs| ==> Shape(gs[i], |xs|)
    ensures |r| == |gs|
    decreases |xs|, 2, |gs|
  {
    if gs == [] then [] else [Value(gs[0], xs)] + Values(gs[1..], xs)
  }

  /** The sum of `g` over all boolean values of the variables after `xs`. */
  ghost function CubeSum(g: MPoly, n: nat, xs: seq<int>): int
    requires |xs| <= n && Shape(g, n)
    decreases n - |xs|
  {
    if |xs| == n then Value(g, xs) else CubeSum(g, n, xs + [0]) + CubeSum(g, n, xs + [1])
  }

  // ---- The honest univariate is a polynomial ----

  /** The coefficients of `X -> Value(g, pre + [X] + suf)`. */
  ghost function Line(g: MPoly, pre: seq<int>, suf: seq<int>): (c: seq<int>)
    requires Shape(g, |pre| + 1 + |suf|)
    ensures |c| <= BATCHED_RELATION_PARTIAL_LENGTH
    decreases |pre|, 1
  {
    if pre == [] then Values(g.coeffs, suf)
    else Lines(g.coeffs, pre[1..], suf, pre[0])
  }

  /** The combination of the coefficient lines by powers of `x`. */
  ghost function Lines(gs: seq<MPoly>, pre: seq<int>, suf: seq<int>, x: int): (c: seq<int>)
    requires forall i :: 0 <= i < |gs| ==> Shape(gs[i], |pre| + 1 + |suf|)
    ensures |c| <= BATCHED_RELATION_PARTIAL_LENGTH
    decreases |pre|, 2, |gs|
  {
    if gs == [] then [] else Plus(Line(gs[0], pre, suf), Scale(x, Lines(gs[1..], pre, suf, x)))
  }

  lemma {:induction false} LineValue(g: MPoly, pre: seq<int>, suf: seq<int>, x: int)
    requires Shape(g, |pre| + 1 + |suf|)
    ensures Value(g, pre + [x] + suf) == Eval(Line(g, pre, suf), x)
    decreases |pre|, 1
  {
    var xs := pre + [x] + suf;
    if pre == [] {
      assert xs[1..] == suf;
    } else {
      assert xs[1..] == pre[1..] + [x] + suf;
      LinesValue(g.coeffs, pre[1..], suf, pre[0], x);
    }
  }

  lemma {:induction false} LinesValue(gs: seq<MPoly>, pre: seq<int>, suf: seq<int>, y: int, x: int)
    requires forall i :: 0 <= i < |gs| ==> Shape(gs[i], |pre| + 1 + |suf|)
    ensures Eval(Values(gs, pre + [x] + suf), y) == Eval(Lines(gs, pre, suf, y), x)
    decreases |pre|, 2, |gs|
  {
    if gs != [] {
      var rest := Lines(gs[1..], pre, suf, y);
      LineValue(gs[0], pre, suf, x);
      LinesValue(gs[1..], pre, suf, y, x);
      EvalPlus(Line(gs[0], pre, suf), Scale(y, rest), x);
      EvalScale(y, rest, x);
      var v := Values(gs, pre + [x] + suf);
      assert v[1..] == Values(gs[1..], pre + [x] + suf);
    }
  }

  /** The coefficients of the honest round univariate `X -> CubeSum(g, n, pre + [X] + suf)`. */
  ghost function Honest(g: MPoly, n: nat, pre: seq<int>, suf: seq<int>): (c: seq<int>)
    requires |pre| + 1 + |suf| <= n && Shape(g, n)
    ensures |c| <= BATCHED_RELATION_PARTIAL_LENGTH
    decreases n - |suf|
  {
    if |pre| + 1 + |suf| == n then Line(g, pre, suf)
    else Plus(Honest(g, n, pre, suf + [0]), Honest(g, n, pre, suf + [1]))
  }

  lemma {:induction false} HonestValue(g: MPoly, n: nat, pre: seq<int>, suf: seq<int>, x: int)
    requires |pre| + 1 + |suf| <= n && Shape(g, n)
    ensures CubeSum(g, n, pre + [x] + suf) == Eval(Honest(g, n, pre, suf), x)
    decreases n - |suf|
  {
    if |pre| + 1 + |suf| == n {
      LineValue(g, pre, suf, x);
    } else {
      HonestValue(g, n, pre, suf + [0], x);
      HonestValue(g, n, pre, suf + [1], x);
      assert pre + [x] + suf + [0] == pre + [x] + (suf + [0]);
      assert pre + [x] + suf + [1] == pre + [x] + (suf + [1]);
      EvalPlus(Honest(g, n, pre, suf + [0]), Honest(g, n, pre, suf + [1]), x);
    }
  }

  /** The message carries the honest univariate's values at 0..8. */
  ghost predicate IsHonest(f: Field, g: MPoly, n: nat, us: seq<int>, r: nat, message: seq<int>)
    requires r < n <= |us| && Shape(g, n) && |message| == BATCHED_RELATION_PARTIAL_LENGTH
  {
    forall i :: 0 <= i < |message| ==> f.Eq(message[i], CubeSum(g, n, us[..r] + [i]))
  }

  lemma HonestMessageValue(f: PrimeField, g: MPoly, n: nat, us: seq<int>, r: nat, message: seq<int>, x: int)
    requires f.p > 8 && r < n <= |us| && Shape(g, n) && |message| == BATCHED_RELATION_PARTIAL_LENGTH
    requires IsHonest(f, g, n, us, r, message)
    ensures f.Eq(UnivariateAt(f, message, x), CubeSum(g, n, us[..r] + [x]))
  {
    hide Field.Red, IsPrime, UnivariateAt, CubeSum, Honest, Eval;
    forall y ensures CubeSum(g, n, us[..r] + [y]) == Eval(Honest(g, n, us[..r], []), y) {
      HonestValue(g, n, us[..r], [], y);
      assert us[..r] + [y] + [] == us[..r] + [y];
    }
    UnivariateIsThePolynomial(f, Honest(g, n, us[..r], []), message, x);
  }

  /** A message other than the honest one agrees with it in at most 8 points. */
  lemma FewAgreements(f: PrimeField, g: MPoly, n: nat, us: seq<int>, r: nat, message: seq<int>, points: seq<int>)
    requires f.p > 8 && r < n <= |us| && Shape(g, n) && |message| == BATCHED_RELATION_PARTIAL_LENGTH
    requires !IsHonest(f, g, n, us, r, message)
    requires Distinct(f, points)
    requires forall k :: 0 <= k < |points| ==>
      f.Eq(UnivariateAt(f, message, points[k]), CubeSum(g, n, us[..r] + [points[k]]))
    ensures |points| <= 8
  {
    hide Field.Red, IsPrime, CubeSum, Honest, Eval, Interpolant, Shape;
    if |points| > 8 {
      var c, h := Interpolant(f, Nodes(), message), Honest(g, n, us[..r], []);
      NodesDistinct(f);
      forall y ensures CubeSum(g, n, us[..r] + [y]) == Eval(h, y) {
        HonestValue(g, n, us[..r], [], y);
        assert us[..r] + [y] + [] == us[..r] + [y];
      }
      forall i | 0 <= i < 9 ensures f.Eq(message[i], CubeSum(g, n, us[..r] + [i])) {
        AgreeEverywhere(f, c, h, points, i);
        InterpolantValue(f, Nodes(), message, i);
        assert Nodes()[i] == i;
      }
      assert false;
    }
  }

  // ---- Completeness ----

  /** Honest messages keep every round target equal to the partial cube sum. */
  lemma {:induction false} HonestTargets(f: PrimeField, g: MPoly, n: nat, start: int,
                                         messages: seq<seq<int>>, us: seq<int>, r: nat)
    requires f.p > 8 && AreMessages(f, messages) && r <= n <= |messages| && n <= |us| && Shape(g, n)
    requires forall k :: 0 <= k < n ==> IsHonest(f, g, n, us, k, messages[k])
    requires f.Eq(start, CubeSum(g, n, []))
    ensures f.Eq(Target(f, start, messages, us, r), CubeSum(g, n, us[..r]))
  {
    hide Field.Red, IsPrime, UnivariateAt, CubeSum;
    if r == 0 {
      assert us[..0] == [];
    } else {
      var k := r - 1;
      HonestMessageValue(f, g, n, us, k, messages[k], us[k]);
      assert us[..k] + [us[k]] == us[..r];
      RedEq(f, UnivariateAt(f, messages[k], us[k]));
    }
  }

  lemma CubeSumSplit(g: MPoly, n: nat, xs: seq<int>)
    requires |xs| < n && Shape(g, n)
    ensures CubeSum(g, n, xs) == CubeSum(g, n, xs + [0]) + CubeSum(g, n, xs + [1])
  {
  }

  /** Completeness: honest messages for the true sum pass every round and end at g(u). */
  lemma SumcheckComplete(f: PrimeField, g: MPoly, n: nat, start: int, messages: seq<seq<int>>, us: seq<int>)
    requires f.p > 8 && AreMessages(f, messages) && n <= |messages| && n <= |us| && Shape(g, n)
    requires forall k :: 0 <= k < n ==> IsHonest(f, g, n, us, k, messages[k])
    requires f.Eq(start, CubeSum(g, n, []))
    ensures RoundsPass(f, start, messages, us, n)
    ensures f.Eq(Target(f, start, messages, us, n), Value(g, us[..n]))
  {
    hide Field.Red, IsPrime, UnivariateAt, CubeSum, Target;
    forall r | 0 <= r < n
      ensures f.Eq(messages[r][0] + messages[r][1], Target(f, start, messages, us, r))
    {
      HonestTargets(f, g, n, start, messages, us, r);
      CubeSumSplit(g, n, us[..r]);
      EqAdd(f, messages[r][0], CubeSum(g, n, us[..r] + [0]), messages[r][1], CubeSum(g, n, us[..r] + [1]));
    }
    HonestTargets(f, g, n, start, messages, us, n);
    CubeSumFull(g, us[..n]);
  }

  lemma CubeSumFull(g: MPoly, xs: seq<int>)
    requires Shape(g, |xs|)
    ensures CubeSum(g, |xs|, xs) == Value(g, xs)
  {
  }

  // ---- Soundness ----

  /** Round `r` sent a univariate other than the honest one that agrees with it at the challenge. */
  ghost predicate Lucky(f: Field, g: MPoly, n: nat, messages: seq<seq<int>>, us: seq<int>, r: nat)
    requires r < n <= |messages| && n <= |us| && Shape(g, n)
    requires |messages[r]| == BATCHED_RELATION_PARTIAL_LENGTH
  {
    && !IsHonest(f, g, n, us, r, messages[r])
    && f.Eq(UnivariateAt(f, messages[r], us[r]), CubeSum(g, n, us[..r] + [us[r]]))
  }

  /**
   Soundness: if all rounds pass and the last target is g(u), then the starting
   target was the cube sum or some round was `Lucky`.  By `FewAgreements` a
   round has at most 8 such challenges.
   */
  lemma SumcheckSound(f: PrimeField, g: MPoly, n: nat, start: int, messages: seq<seq<int>>, us: seq<int>)
    returns (r: nat)
    requires f.p > 8 && AreMessages(f, messages) && n <= |messages| && n <= |us| && Shape(g, n)
    requires RoundsPass(f, start, messages, us, n)
    requires f.Eq(Target(f, start, messages, us, n), Value(g, us[..n]))
    requires !f.Eq(start, CubeSum(g, n, []))
    ensures r < n && Lucky(f, g, n, messages, us, r)
  {
    hide Field.Red, IsPrime, UnivariateAt, CubeSum, Target;
    CubeSumFull(g, us[..n]);
    TargetStart(f, start, messages, us);
    assert us[..0] == [];
    r := 0;
    while !f.Eq(Target(f, start, messages, us, r + 1), CubeSum(g, n, us[..r + 1]))
      invariant r < n
      invariant !f.Eq(Target(f, start, messages, us, r), CubeSum(g, n, us[..r]))
      decreases n - r
    {
      r := r + 1;
    }
    assert us[..r] + [us[r]] == us[..r + 1];
    TargetStep(f, start, messages, us, r);
    if IsHonest(f, g, n, us, r, messages[r]) {
      EqAdd(f, messages[r][0], CubeSum(g, n, us[..r] + [0]), messages[r][1], CubeSum(g, n, us[..r] + [1]));
      CubeSumSplit(g, n, us[..r]);
    }
  }

  lemma TargetStart(f: Field, start: int, messages: seq<seq<int>>, us: seq<int>)
    requires AreMessages(f, messages)
    ensures Target(f, start, messages, us, 0) == start
  {
  }

  lemma TargetStep(f: Field, start: int, messages: seq<seq<int>>, us: seq<int>, r: nat)
    requires AreMessages(f, messages) && r < |messages| && r < |us|
    ensures f.Eq(Target(f, start, messages, us, r + 1), UnivariateAt(f, messages[r], us[r]))
  {
    RedEq(f, UnivariateAt(f, messages[r], us[r]));
  }

  // ---- The verifier ----

  /**
   An input whose messages are honest for `g`, whose start is the cube sum of `g`, and whose masked
   relation sum is g(u), passes every round and the final check.
   */
  lemma HonestInputAccepted(f: PrimeField, s: SumcheckInput, relation: int -> int, g: MPoly)
    requires f.p > 8 && IsInput(f, s) && InRange(s) && Shape(g, s.logN)
    requires forall k :: 0 <= k < s.logN ==> IsHonest(f, g, s.logN, s.us, k, s.messages[k])
    requires f.Eq(Start(f, s), CubeSum(g, s.logN, [])) && f.Eq(MaskedSum(f, s, relation), Value(g, s.us[..s.logN]))
    ensures AllRoundsPass(f, s) && FinalCheck(f, s, relation)
  {
    hide Field.Red, IsPrime, UnivariateAt, CubeSum, Target, RoundsPass, MaskedSum, IsHonest;
    SumcheckComplete(f, g, s.logN, Start(f, s), s.messages, s.us);
  }

  /** An accepted input with a wrong start had a lucky round. */
  lemma AcceptedInputSound(f: PrimeField, s: SumcheckInput, relation: int -> int, g: MPoly) returns (r: nat)
    requires f.p > 8 && IsInput(f, s) && InRange(s) && Shape(g, s.logN)
    requires AllRoundsPass(f, s) && FinalCheck(f, s, relation)
    requires f.Eq(MaskedSum(f, s, relation), Value(g, s.us[..s.logN])) && !f.Eq(Start(f, s), CubeSum(g, s.logN, []))
    ensures r < s.logN && Lucky(f, g, s.logN, s.messages, s.us, r)
  {
    hide Field.Red, IsPrime, UnivariateAt, CubeSum, Target, RoundsPass, MaskedSum, Lucky;
    r := SumcheckSound(f, g, s.logN, Start(f, s), s.messages, s.us);
  }
}
