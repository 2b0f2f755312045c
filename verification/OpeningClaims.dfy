/** The opening claims of `verify_shplemini`, one by one. */
module OpeningClaims {
  import opened PrimeFields
  import opened Polynomials
  import opened Gemini
  import opened Multilinear
  import opened Shplonk

  /** The 35 commitments opened at r, in the order of their evaluations. */
  function UnshiftedList(c: Points): (s: seq<int>)
    requires |c.vk| == 27
    ensures |s| == 35
  {
    c.vk + [c.w1, c.w2, c.w3, c.w4, c.zPerm, c.lookupInverses, c.lookupReadCounts, c.lookupReadTags]
  }

  /** The five wires whose shifts are opened. */
  function ShiftedList(c: Points): seq<int> { [c.w1, c.w2, c.w3, c.w4, c.zPerm] }

  lemma {:induction false} EvalAppend(s: seq<int>, v: int, x: int)
    ensures Eval(s + [v], x) == Eval(s, x) + v * IntPow(x, |s|)
  {
    if s != [] {
      EvalAppend(s[1..], v, x);
      assert (s + [v])[1..] == s[1..] + [v];
      LiftPower(x, v, Eval(s[1..], x), IntPow(x, |s| - 1));
    } else {
      assert (s + [v])[1..] == [];
      assert Eval([], x) == 0;
      assert x * Eval([], x) == 0;
    }
  }

  lemma LiftPower(x: int, v: int, e: int, p: int)
    ensures x * (e + v * p) == x * e + v * (x * p)
  {
  }

  /** Entities [from, to) are batched by the powers rho^(from + 1), ..., rho^to. */
  lemma {:induction false} BatchIs(o: Opening, c: Points, s: seq<int>, from: nat, m: nat)
    requires |c.vk| == 27 && m <= |s| && from + |s| <= ENTITIES
    requires forall i :: 0 <= i < |s| ==> Entity(c, from + i) == s[i]
    ensures Batch(o, c, from, from + m) == IntPow(o.rho, from + 1) * Eval(s[..m], o.rho)
  {
    hide Entity;
    if m == 0 {
      assert Eval([], o.rho) == 0;
      assert IntPow(o.rho, from + 1) * Eval(s[..0], o.rho) == 0;
    } else {
      BatchIs(o, c, s, from, m - 1);
      assert s[..m] == s[..m - 1] + [s[m - 1]];
      EvalAppend(s[..m - 1], s[m - 1], o.rho);
      IntPowAdd(o.rho, from + 1, m - 1);
      Distribute(IntPow(o.rho, from + 1), Eval(s[..m - 1], o.rho), s[m - 1], IntPow(o.rho, m - 1));
      assert from + 1 + (m - 1) == from + m;
      assert Batch(o, c, from, from + m) == Batch(o, c, from, from + m - 1) + IntPow(o.rho, from + m) * s[m - 1];
    }
  }

  lemma Distribute(a: int, e: int, v: int, p: int)
    ensures a * (e + v * p) == a * e + (a * p) * v
  {
  }

  lemma EntitiesAre(c: Points)
    requires |c.vk| == 27
    ensures forall i :: 0 <= i < 35 ==> Entity(c, i) == UnshiftedList(c)[i]
    ensures forall i :: 0 <= i < 5 ==> Entity(c, 35 + i) == ShiftedList(c)[i]
  {
  }

  /** The folding starts from the evaluations batched in the same way. */
  lemma {:induction false} BatchedEvalIs(o: Opening, m: nat)
    requires m <= |o.evals|
    ensures BatchedEval(o, m) == o.hidingEval + o.rho * Eval(o.evals[..m], o.rho)
  {
    hide IntPow;
    if m == 0 {
      assert o.rho * Eval([], o.rho) == 0;
    } else {
      hide Eval;
      BatchedEvalIs(o, m - 1);
      assert o.evals[..m] == o.evals[..m - 1] + [o.evals[m - 1]];
      EvalAppend(o.evals[..m - 1], o.evals[m - 1], o.rho);
      LiftPower(o.rho, o.evals[m - 1], Eval(o.evals[..m - 1], o.rho), IntPow(o.rho, m - 1));
      FirstPower(o.rho, m);
    }
  }

  lemma {:induction false} RPowerIs(r: int, j: nat)
    ensures RPower(r, j) == IntPow(r, Pow2(j))
  {
    if j > 0 {
      RPowerIs(r, j - 1);
      IntPowAdd(r, Pow2(j - 1), Pow2(j - 1));
    } else {
      assert IntPow(r, 1) == r * IntPow(r, 0);
    }
  }

  lemma {:induction false} FoldClaimsAt(o: Opening, c: Points, w: Weights, fold: seq<int>, r: int, m: nat, j: nat)
    requires Shaped(o, c, w, fold) && 1 <= j < m <= o.n
    ensures FoldClaims(o, c, w, fold, r, m)[2 * j] == Claim(c.foldComs[j - 1], fold[j], RPower(r, j), 2 * j, w.pos[j])
    ensures FoldClaims(o, c, w, fold, r, m)[2 * j + 1]
      == Claim(c.foldComs[j - 1], o.aEvals[j], -RPower(r, j), 2 * j + 1, w.neg[j])
  {
    hide UnshiftedCom, ShiftedCom, RPower;
    if j < m - 1 { FoldClaimsAt(o, c, w, fold, r, m - 1, j); }
  }

  lemma {:induction false} FirstClaims(o: Opening, c: Points, w: Weights, fold: seq<int>, r: int, m: nat)
    requires Shaped(o, c, w, fold) && 1 <= m <= o.n
    ensures FoldClaims(o, c, w, fold, r, m)[..2] ==
      [Claim(UnshiftedCom(o, c) + w.rInv * ShiftedCom(o, c), fold[0], r, 0, w.pos[0]),
       Claim(UnshiftedCom(o, c) - w.rInv * ShiftedCom(o, c), o.aEvals[0], -r, 1, w.neg[0])]
  {
    hide UnshiftedCom, ShiftedCom, RPower;
    if m > 1 { FirstClaims(o, c, w, fold, r, m - 1); }
  }

  /**
   All 2n + 4 claims.  With U the hiding commitment plus the unshifted commitments times rho, ..., rho^35, and S the
   shifted ones times rho^36, ..., rho^40: U + S / r at r with power 0, U - S / r at -r with power 1; for each further
   fold j its commitment at r^(2^j) with power 2 j and at -r^(2^j) with power 2 j + 1; and the Libra openings at r, g r,
   r, r with powers 58 to 61.
   */
  lemma ClaimList(o: Opening, c: Points, w: Weights, fold: seq<int>, r: int, g: int)
    requires Shaped(o, c, w, fold)
    ensures var cs := Claims(o, c, w, fold, r, g);
      var u := c.hiding + o.rho * Eval(UnshiftedList(c), o.rho);
      var s := w.rInv * (IntPow(o.rho, 36) * Eval(ShiftedList(c), o.rho));
      && |cs| == 2 * o.n + 4
      && cs[0] == Claim(u + s, fold[0], r, 0, w.pos[0]) && cs[1] == Claim(u - s, o.aEvals[0], -r, 1, w.neg[0])
      && (forall j :: 1 <= j < o.n ==>
            && cs[2 * j] == Claim(c.foldComs[j - 1], fold[j], IntPow(r, Pow2(j)), 2 * j, w.pos[j])
            && cs[2 * j + 1] == Claim(c.foldComs[j - 1], o.aEvals[j], -IntPow(r, Pow2(j)), 2 * j + 1, w.neg[j]))
      && cs[2 * o.n..] == [Claim(c.libraConcat, o.libraEvals[0], r, 58, w.pos[0]),
                           Claim(c.libraGrandSum, o.libraEvals[1], g * r, 59, w.libra),
                           Claim(c.libraGrandSum, o.libraEvals[2], r, 60, w.pos[0]),
                           Claim(c.libraQuotient, o.libraEvals[3], r, 61, w.pos[0])]
  {
    hide FoldClaims, Entity, RPower, Eval, IntPow, Pow2;
    EntitiesAre(c);
    BatchIs(o, c, UnshiftedList(c), 0, 35);
    BatchIs(o, c, ShiftedList(c), 35, 5);
    assert UnshiftedList(c)[..35] == UnshiftedList(c) && ShiftedList(c)[..5] == ShiftedList(c);
    FirstPower(o.rho, 1);
    FirstClaims(o, c, w, fold, r, o.n);
    var (cs, fs) := (Claims(o, c, w, fold, r, g), FoldClaims(o, c, w, fold, r, o.n));
    assert cs[0] == fs[..2][0] && cs[1] == fs[..2][1];
    forall j | 1 <= j < o.n
      ensures cs[2 * j] == Claim(c.foldComs[j - 1], fold[j], IntPow(r, Pow2(j)), 2 * j, w.pos[j])
      ensures cs[2 * j + 1] == Claim(c.foldComs[j - 1], o.aEvals[j], -IntPow(r, Pow2(j)), 2 * j + 1, w.neg[j])
    {
      FoldClaimsAt(o, c, w, fold, r, o.n, j);
      RPowerIs(r, j);
    }
  }

  lemma FirstPower(a: int, m: nat)
    requires m > 0
    ensures IntPow(a, m) == a * IntPow(a, m - 1) && IntPow(a, 1) == a
  {
    assert IntPow(a, 1) == a * IntPow(a, 0);
  }
}
