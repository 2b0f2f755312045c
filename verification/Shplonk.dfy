/**
 The Shplonk batch opening of shplemini.rs: the flat multi-scalar multiplication
 and the opening claims it stands for.

 G1 is a one-dimensional module over the scalar field, so a point is written as
 the field element that multiplies the generator's logarithm.  Sums here are over
 the integers; the verifier's arrays agree with them up to `f.Eq`.
 */
module Shplonk {
  import opened PrimeFields
  import opened Gemini
  import opened Inversions

  const LOG_N: nat := 28
  const ENTITIES: nat := 40
  const UNSHIFTED: nat := 35
  const FOLD_BASE: nat := 42
  const LIBRA_BASE: nat := 69
  const TOTAL: nat := 74

  datatype Points = Points(
    vk: seq<int>, w1: int, w2: int, w3: int, w4: int, zPerm: int,
    lookupInverses: int, lookupReadCounts: int, lookupReadTags: int,
    hiding: int, shplonkQ: int, kzgQuotient: int, foldComs: seq<int>,
    libraConcat: int, libraGrandSum: int, libraQuotient: int, generator: int)

  datatype Opening = Opening(
    n: nat, rho: int, nu: int, z: int, hidingEval: int,
    evals: seq<int>, aEvals: seq<int>, libraEvals: seq<int>)

  /** The inverses read back from the packed array. */
  datatype Weights = Weights(pos: seq<int>, neg: seq<int>, rInv: int, libra: int)

  ghost predicate Shaped(o: Opening, c: Points, w: Weights, fold: seq<int>) {
    && 1 <= o.n <= LOG_N && |w.pos| == o.n && |w.neg| == o.n && |fold| == LOG_N
    && |o.evals| == ENTITIES && |o.aEvals| == LOG_N && |o.libraEvals| == 4
    && |c.vk| == 27 && |c.foldComs| == LOG_N - 1
  }

  /** Commitment of entity `i`: the key, the wires, and the shifted wires again. */
  function Entity(c: Points, i: nat): int
    requires i < ENTITIES && |c.vk| == 27
  {
    if i < 27 then c.vk[i]
    else [c.w1, c.w2, c.w3, c.w4, c.zPerm, c.lookupInverses, c.lookupReadCounts, c.lookupReadTags,
          c.w1, c.w2, c.w3, c.w4, c.zPerm][i - 27]
  }

  function Unshifted(o: Opening, w: Weights): int
    requires |w.pos| > 0 && |w.neg| > 0
  {
    o.nu * w.neg[0] + w.pos[0]
  }

  function Shifted(o: Opening, w: Weights): int
    requires |w.pos| > 0 && |w.neg| > 0
  {
    w.rInv * (w.pos[0] - o.nu * w.neg[0])
  }

  function EntityScalar(o: Opening, w: Weights, i: nat): int
    requires |w.pos| > 0 && |w.neg| > 0
  {
    -(if i < UNSHIFTED then Unshifted(o, w) else Shifted(o, w)) * IntPow(o.rho, i + 1)
  }

  /** The batched evaluation the folds start from. */
  function BatchedEval(o: Opening, m: nat): int
    requires m <= |o.evals|
  {
    if m == 0 then o.hidingEval else BatchedEval(o, m - 1) + o.evals[m - 1] * IntPow(o.rho, m)
  }

  function FoldPlus(o: Opening, w: Weights, j: nat): int
    requires j < |w.pos|
  {
    IntPow(o.nu, 2 * j) * w.pos[j]
  }

  function FoldMinus(o: Opening, w: Weights, j: nat): int
    requires j < |w.neg|
  {
    IntPow(o.nu, 2 * j + 1) * w.neg[j]
  }

  /** The fold rounds' part of the constant term. */
  function FoldConstant(o: Opening, w: Weights, fold: seq<int>, m: nat): int
    requires 1 <= m <= |w.pos| == |w.neg| && m <= |fold| && m <= |o.aEvals|
  {
    if m == 1 then fold[0] * w.pos[0] + o.aEvals[0] * o.nu * w.neg[0]
    else FoldConstant(o, w, fold, m - 1) + o.aEvals[m - 1] * FoldMinus(o, w, m - 1) + fold[m - 1] * FoldPlus(o, w, m - 1)
  }

  /** The scaling of Libra opening `k`; the second is at g r, the others at r. */
  function LibraScaling(o: Opening, w: Weights, k: nat): int
    requires |w.pos| > 0
  {
    (if k == 1 then w.libra else w.pos[0]) * IntPow(o.nu, 2 * LOG_N + 2 + k)
  }

  function LibraConstant(o: Opening, w: Weights, k: nat): int
    requires |w.pos| > 0 && k <= |o.libraEvals|
  {
    if k == 0 then 0 else LibraConstant(o, w, k - 1) + LibraScaling(o, w, k - 1) * o.libraEvals[k - 1]
  }

  function ConstantTerm(o: Opening, c: Points, w: Weights, fold: seq<int>): int
    requires Shaped(o, c, w, fold)
  {
    FoldConstant(o, w, fold, o.n) + LibraConstant(o, w, 4)
  }

  /** The scalar at slot `t` of the flat layout. */
  function ScalarAt(o: Opening, c: Points, w: Weights, fold: seq<int>, t: nat): int
    requires Shaped(o, c, w, fold) && t < TOTAL
  {
    if t == 0 then 1
    else if t == 1 then -Unshifted(o, w)
    else if t < FOLD_BASE then EntityScalar(o, w, t - 2)
    else if t < LIBRA_BASE then
      var j := t - (FOLD_BASE - 1);
      if j < o.n then -(FoldPlus(o, w, j) + FoldMinus(o, w, j)) else 0
    else if t == LIBRA_BASE then -LibraScaling(o, w, 0)
    else if t == LIBRA_BASE + 1 then -LibraScaling(o, w, 1) + -LibraScaling(o, w, 2)
    else if t == LIBRA_BASE + 2 then -LibraScaling(o, w, 3)
    else if t == LIBRA_BASE + 3 then ConstantTerm(o, c, w, fold)
    else o.z
  }

  /** The point at slot `t` of the flat layout. */
  function PointAt(c: Points, t: nat): int
    requires t < TOTAL && |c.vk| == 27 && |c.foldComs| == LOG_N - 1
  {
    if t == 0 then c.shplonkQ
    else if t == 1 then c.hiding
    else if t < FOLD_BASE then Entity(c, t - 2)
    else if t < LIBRA_BASE then c.foldComs[t - FOLD_BASE]
    else [c.libraConcat, c.libraGrandSum, c.libraQuotient, c.generator, c.kzgQuotient][t - LIBRA_BASE]
  }

  /** The first `m` terms of the multi-scalar multiplication. */
  function Msm(o: Opening, c: Points, w: Weights, fold: seq<int>, m: nat): int
    requires Shaped(o, c, w, fold) && m <= TOTAL
  {
    if m == 0 then 0 else Msm(o, c, w, fold, m - 1) + ScalarAt(o, c, w, fold, m - 1) * PointAt(c, m - 1)
  }

  // ---- The opening claims ----

  /** Commitment `com` opens to `value` at `point`, batched with nu^exponent; `inverse` is 1 / (z - point). */
  datatype Claim = Claim(com: int, value: int, point: int, exponent: nat, inverse: int)

  /** Entities [from, to) batched by powers of rho. */
  function Batch(o: Opening, c: Points, from: nat, to: nat): int
    requires from <= to <= ENTITIES && |c.vk| == 27
  {
    if from == to then 0 else Batch(o, c, from, to - 1) + IntPow(o.rho, to) * Entity(c, to - 1)
  }

  function UnshiftedCom(o: Opening, c: Points): int
    requires |c.vk| == 27
  {
    c.hiding + Batch(o, c, 0, UNSHIFTED)
  }

  function ShiftedCom(o: Opening, c: Points): int
    requires |c.vk| == 27
  {
    Batch(o, c, UNSHIFTED, ENTITIES)
  }

  /** The two claims of each Gemini polynomial A_0, ..., A_(m-1). */
  function FoldClaims(o: Opening, c: Points, w: Weights, fold: seq<int>, r: int, m: nat): (cs: seq<Claim>)
    requires Shaped(o, c, w, fold) && 1 <= m <= o.n
    ensures |cs| == 2 * m
  {
    if m == 1 then
      [Claim(UnshiftedCom(o, c) + w.rInv * ShiftedCom(o, c), fold[0], r, 0, w.pos[0]),
       Claim(UnshiftedCom(o, c) - w.rInv * ShiftedCom(o, c), o.aEvals[0], -r, 1, w.neg[0])]
    else
      var j := m - 1;
      FoldClaims(o, c, w, fold, r, j) +
      [Claim(c.foldComs[j - 1], fold[j], RPower(r, j), 2 * j, w.pos[j]),
       Claim(c.foldComs[j - 1], o.aEvals[j], -RPower(r, j), 2 * j + 1, w.neg[j])]
  }

  function LibraClaims(o: Opening, c: Points, w: Weights, r: int, g: int): (cs: seq<Claim>)
    requires |o.libraEvals| == 4 && |w.pos| > 0
    ensures |cs| == 4
  {
    [Claim(c.libraConcat, o.libraEvals[0], r, 2 * LOG_N + 2, w.pos[0]),
     Claim(c.libraGrandSum, o.libraEvals[1], g * r, 2 * LOG_N + 3, w.libra),
     Claim(c.libraGrandSum, o.libraEvals[2], r, 2 * LOG_N + 4, w.pos[0]),
     Claim(c.libraQuotient, o.libraEvals[3], r, 2 * LOG_N + 5, w.pos[0])]
  }

  function Claims(o: Opening, c: Points, w: Weights, fold: seq<int>, r: int, g: int): seq<Claim>
    requires Shaped(o, c, w, fold)
  {
    FoldClaims(o, c, w, fold, r, o.n) + LibraClaims(o, c, w, r, g)
  }

  /** The sum of nu^e (C - v G) / (z - x) over the claims. */
  function ClaimSum(nu: int, generator: int, cs: seq<Claim>): int {
    if cs == [] then 0
    else
      var k := cs[|cs| - 1];
      ClaimSum(nu, generator, cs[..|cs| - 1]) + IntPow(nu, k.exponent) * k.inverse * (k.com - k.value * generator)
  }

  lemma ClaimSumAppend(nu: int, generator: int, cs: seq<Claim>, k: Claim)
    ensures ClaimSum(nu, generator, cs + [k])
         == ClaimSum(nu, generator, cs) + IntPow(nu, k.exponent) * k.inverse * (k.com - k.value * generator)
  {
    assert (cs + [k])[..|cs|] == cs;
  }

  // ---- The multi-scalar multiplication is the claim sum ----

  lemma MsmStep(o: Opening, c: Points, w: Weights, fold: seq<int>, t: nat)
    requires Shaped(o, c, w, fold) && t < TOTAL
    ensures Msm(o, c, w, fold, t + 1) == Msm(o, c, w, fold, t) + ScalarAt(o, c, w, fold, t) * PointAt(c, t)
  {
  }

  lemma BatchTerm(k: int, b: int, p: int, e: int)
    ensures -k * p * e - k * b == -(k * (b + p * e))
  {
  }

  /** Slots of the unshifted entities. */
  lemma {:induction false} UnshiftedSegment(o: Opening, c: Points, w: Weights, fold: seq<int>, m: nat)
    requires Shaped(o, c, w, fold) && m <= UNSHIFTED
    ensures Msm(o, c, w, fold, 2 + m)
         == c.shplonkQ - Unshifted(o, w) * c.hiding - Unshifted(o, w) * Batch(o, c, 0, m)
  {
    hide Unshifted, Shifted, Entity, IntPow, Msm;
    if m == 0 {
      MsmStart(o, c, w, fold);
      MsmStep(o, c, w, fold, 0);
      MsmStep(o, c, w, fold, 1);
    } else {
      UnshiftedSegment(o, c, w, fold, m - 1);
      MsmStep(o, c, w, fold, 1 + m);
      BatchTerm(Unshifted(o, w), Batch(o, c, 0, m - 1), IntPow(o.rho, m), Entity(c, m - 1));
    }
  }

  lemma MsmStart(o: Opening, c: Points, w: Weights, fold: seq<int>)
    requires Shaped(o, c, w, fold)
    ensures Msm(o, c, w, fold, 0) == 0
  {
  }

  /** Slots of the shifted entities. */
  lemma {:induction false} ShiftedSegment(o: Opening, c: Points, w: Weights, fold: seq<int>, m: nat)
    requires Shaped(o, c, w, fold) && UNSHIFTED <= m <= ENTITIES
    ensures Msm(o, c, w, fold, 2 + m)
         == Msm(o, c, w, fold, 2 + UNSHIFTED) - Shifted(o, w) * Batch(o, c, UNSHIFTED, m)
  {
    hide Unshifted, Shifted, Entity, IntPow, Msm;
    if m > UNSHIFTED {
      ShiftedSegment(o, c, w, fold, m - 1);
      MsmStep(o, c, w, fold, 1 + m);
      BatchTerm(Shifted(o, w), Batch(o, c, UNSHIFTED, m - 1), IntPow(o.rho, m), Entity(c, m - 1));
    }
  }

  /** What the fold commitments contribute, after the first `m` rounds. */
  function FoldComs(o: Opening, c: Points, w: Weights, m: nat): int
    requires 1 <= m <= |w.pos| == |w.neg| && m <= LOG_N && |c.foldComs| == LOG_N - 1
  {
    if m == 1 then 0
    else FoldComs(o, c, w, m - 1) + (FoldPlus(o, w, m - 1) + FoldMinus(o, w, m - 1)) * c.foldComs[m - 2]
  }

  lemma {:induction false} FoldSegment(o: Opening, c: Points, w: Weights, fold: seq<int>, m: nat)
    requires Shaped(o, c, w, fold) && 1 <= m <= LOG_N
    ensures Msm(o, c, w, fold, FOLD_BASE - 1 + m)
         == Msm(o, c, w, fold, FOLD_BASE) - FoldComs(o, c, w, if m <= o.n then m else o.n)
  {
    hide FoldPlus, FoldMinus;
    if m > 1 {
      FoldSegment(o, c, w, fold, m - 1);
      var t, j := FOLD_BASE - 2 + m, m - 1;
      assert t == FOLD_BASE + (j - 1) && ScalarAt(o, c, w, fold, t) ==
        if j < o.n then -(FoldPlus(o, w, j) + FoldMinus(o, w, j)) else 0;
      if j < o.n {
        var k, e := FoldPlus(o, w, j) + FoldMinus(o, w, j), c.foldComs[j - 1];
        assert -k * e == -(k * e);
      }
    }
  }

  /** The fold claims: commitments minus the fold part of the constant term. */
  lemma {:induction false} FoldClaimSum(o: Opening, c: Points, w: Weights, fold: seq<int>, r: int, m: nat)
    requires Shaped(o, c, w, fold) && 1 <= m <= o.n
    ensures ClaimSum(o.nu, c.generator, FoldClaims(o, c, w, fold, r, m))
         == Unshifted(o, w) * UnshiftedCom(o, c) + Shifted(o, w) * ShiftedCom(o, c)
            + FoldComs(o, c, w, m) - FoldConstant(o, w, fold, m) * c.generator
  {
    hide UnshiftedCom, ShiftedCom;
    var nu, g := o.nu, c.generator;
    if m == 1 {
      var u, s := UnshiftedCom(o, c), ShiftedCom(o, c);
      var a := Claim(u + w.rInv * s, fold[0], r, 0, w.pos[0]);
      var b := Claim(u - w.rInv * s, o.aEvals[0], -r, 1, w.neg[0]);
      ClaimSumAppend(nu, g, [], a);
      ClaimSumAppend(nu, g, [a], b);
      assert [] + [a] == [a] && [a] + [b] == [a, b];
      assert IntPow(nu, 0) == 1 && IntPow(nu, 1) == nu;
      FirstClaims(u, s, w.rInv, w.pos[0], w.neg[0], nu, fold[0], o.aEvals[0], g);
    } else {
      var j := m - 1;
      FoldClaimSum(o, c, w, fold, r, j);
      var before := FoldClaims(o, c, w, fold, r, j);
      var a := Claim(c.foldComs[j - 1], fold[j], RPower(r, j), 2 * j, w.pos[j]);
      var b := Claim(c.foldComs[j - 1], o.aEvals[j], -RPower(r, j), 2 * j + 1, w.neg[j]);
      ClaimSumAppend(nu, g, before, a);
      ClaimSumAppend(nu, g, before + [a], b);
      assert before + [a] + [b] == before + [a, b];
      FoldPairTerms(FoldPlus(o, w, j), FoldMinus(o, w, j), c.foldComs[j - 1], fold[j], o.aEvals[j], g);
      DistributeConstant(FoldConstant(o, w, fold, j), o.aEvals[j] * FoldMinus(o, w, j), fold[j] * FoldPlus(o, w, j), g);
    }
  }

  lemma FirstClaims(u: int, s: int, rInv: int, p: int, n: int, nu: int, f0: int, a0: int, g: int)
    ensures 1 * p * (u + rInv * s - f0 * g) + nu * n * (u - rInv * s - a0 * g)
         == (nu * n + p) * u + rInv * (p - nu * n) * s - (f0 * p + a0 * nu * n) * g
  {
    var q, t := nu * n, rInv * s;
    assert rInv * (p - q) * s == p * t - q * t;
    assert a0 * nu * n == a0 * q;
  }

  lemma FoldPairTerms(p: int, q: int, e: int, v: int, a: int, g: int)
    ensures p * (e - v * g) + q * (e - a * g) == (p + q) * e - (a * q) * g - (v * p) * g
  {
  }

  lemma DistributeConstant(k: int, x: int, y: int, g: int)
    ensures (k + x + y) * g == k * g + x * g + y * g
  {
  }

  lemma LibraTerm(nu: int, generator: int, cs: seq<Claim>, k: Claim, s: int)
    requires s == k.inverse * IntPow(nu, k.exponent)
    ensures ClaimSum(nu, generator, cs + [k])
         == ClaimSum(nu, generator, cs) + s * k.com - s * k.value * generator
  {
    hide ClaimSum, IntPow;
    ClaimSumAppend(nu, generator, cs, k);
    var p := IntPow(nu, k.exponent) * k.inverse;
    assert p == s;
    assert p * (k.com - k.value * generator) == p * k.com - p * k.value * generator;
  }

  /** The four Libra claims. */
  lemma LibraClaimSum(o: Opening, c: Points, w: Weights, fold: seq<int>, r: int, g: int)
    requires Shaped(o, c, w, fold)
    ensures ClaimSum(o.nu, c.generator, Claims(o, c, w, fold, r, g))
         == ClaimSum(o.nu, c.generator, FoldClaims(o, c, w, fold, r, o.n))
            + LibraScaling(o, w, 0) * c.libraConcat
            + (LibraScaling(o, w, 1) + LibraScaling(o, w, 2)) * c.libraGrandSum
            + LibraScaling(o, w, 3) * c.libraQuotient
            - LibraConstant(o, w, 4) * c.generator
  {
    hide FoldClaims, LibraConstant, IntPow, ClaimSum;
    var nu, gen, s, l := o.nu, c.generator, FoldClaims(o, c, w, fold, r, o.n), LibraClaims(o, c, w, r, g);
    LibraTerm(nu, gen, s, l[0], LibraScaling(o, w, 0));
    LibraTerm(nu, gen, s + [l[0]], l[1], LibraScaling(o, w, 1));
    LibraTerm(nu, gen, s + [l[0]] + [l[1]], l[2], LibraScaling(o, w, 2));
    LibraTerm(nu, gen, s + [l[0]] + [l[1]] + [l[2]], l[3], LibraScaling(o, w, 3));
    assert s + l == s + [l[0]] + [l[1]] + [l[2]] + [l[3]];
    LibraConstantSum(o, w, gen);
    var a, b, e := LibraScaling(o, w, 1), LibraScaling(o, w, 2), c.libraGrandSum;
    assert (a + b) * e == a * e + b * e;
  }

  lemma LibraConstantSum(o: Opening, w: Weights, g: int)
    requires |w.pos| > 0 && |o.libraEvals| == 4
    ensures LibraConstant(o, w, 4) * g == LibraScaling(o, w, 0) * o.libraEvals[0] * g
      + LibraScaling(o, w, 1) * o.libraEvals[1] * g + LibraScaling(o, w, 2) * o.libraEvals[2] * g
      + LibraScaling(o, w, 3) * o.libraEvals[3] * g
  {
    hide LibraScaling;
    var t0, t1, t2, t3 := LibraScaling(o, w, 0) * o.libraEvals[0], LibraScaling(o, w, 1) * o.libraEvals[1],
                          LibraScaling(o, w, 2) * o.libraEvals[2], LibraScaling(o, w, 3) * o.libraEvals[3];
    assert LibraConstant(o, w, 1) == t0;
    assert LibraConstant(o, w, 2) == t0 + t1;
    assert LibraConstant(o, w, 3) == t0 + t1 + t2;
    assert LibraConstant(o, w, 4) == t0 + t1 + t2 + t3;
    DistributeConstant(t0 + t1, t2, t3, g);
    DistributeConstant(t0, t1, 0, g);
  }

  /** The last five slots. */
  lemma TailSegment(o: Opening, c: Points, w: Weights, fold: seq<int>)
    requires Shaped(o, c, w, fold)
    ensures Msm(o, c, w, fold, TOTAL) == Msm(o, c, w, fold, LIBRA_BASE)
      - LibraScaling(o, w, 0) * c.libraConcat
      - (LibraScaling(o, w, 1) + LibraScaling(o, w, 2)) * c.libraGrandSum
      - LibraScaling(o, w, 3) * c.libraQuotient
      + ConstantTerm(o, c, w, fold) * c.generator + o.z * c.kzgQuotient
  {
    hide LibraScaling, ConstantTerm;
    assert Msm(o, c, w, fold, 70) == Msm(o, c, w, fold, 69) + -LibraScaling(o, w, 0) * c.libraConcat;
    assert Msm(o, c, w, fold, 71) == Msm(o, c, w, fold, 70)
      + (-LibraScaling(o, w, 1) + -LibraScaling(o, w, 2)) * c.libraGrandSum;
    assert Msm(o, c, w, fold, 72) == Msm(o, c, w, fold, 71) + -LibraScaling(o, w, 3) * c.libraQuotient;
    assert Msm(o, c, w, fold, 73) == Msm(o, c, w, fold, 72) + ConstantTerm(o, c, w, fold) * c.generator;
    assert Msm(o, c, w, fold, 74) == Msm(o, c, w, fold, 73) + o.z * c.kzgQuotient;
  }

  /**
   The flat layout computes Q + z W minus the sum of nu^e (C - v G) / (z - x)
   over all opening claims.
   */
  lemma MsmIsClaimSum(o: Opening, c: Points, w: Weights, fold: seq<int>, r: int, g: int)
    requires Shaped(o, c, w, fold)
    ensures Msm(o, c, w, fold, TOTAL)
         == c.shplonkQ + o.z * c.kzgQuotient - ClaimSum(o.nu, c.generator, Claims(o, c, w, fold, r, g))
  {
    hide Msm, Claims, FoldClaims, ClaimSum, LibraScaling, FoldConstant, LibraConstant, Unshifted, Shifted, Batch, FoldComs;
    UnshiftedSegment(o, c, w, fold, UNSHIFTED);
    ShiftedSegment(o, c, w, fold, ENTITIES);
    FoldSegment(o, c, w, fold, LOG_N);
    TailSegment(o, c, w, fold);
    FoldClaimSum(o, c, w, fold, r, o.n);
    LibraClaimSum(o, c, w, fold, r, g);
    var u, h, b := Unshifted(o, w), c.hiding, Batch(o, c, 0, UNSHIFTED);
    assert u * (h + b) == u * h + u * b;
    var k, l := FoldConstant(o, w, fold, o.n), LibraConstant(o, w, 4);
    assert (k + l) * c.generator == k * c.generator + l * c.generator;
  }

  // ---- The claims are the right ones ----

  ghost predicate ExponentsDistinct(cs: seq<Claim>) {
    forall i, j :: 0 <= i < j < |cs| ==> cs[i].exponent != cs[j].exponent
  }

  lemma {:induction false} FoldExponents(o: Opening, c: Points, w: Weights, fold: seq<int>, r: int, m: nat)
    requires Shaped(o, c, w, fold) && 1 <= m <= o.n
    ensures forall i :: 0 <= i < 2 * m ==> FoldClaims(o, c, w, fold, r, m)[i].exponent == i
  {
    if m > 1 { FoldExponents(o, c, w, fold, r, m - 1); }
  }

  /** No two claims share a power of nu. */
  lemma ClaimExponents(o: Opening, c: Points, w: Weights, fold: seq<int>, r: int, g: int)
    requires Shaped(o, c, w, fold)
    ensures ExponentsDistinct(Claims(o, c, w, fold, r, g))
  {
    FoldExponents(o, c, w, fold, r, o.n);
    var cs := Claims(o, c, w, fold, r, g);
    forall i | 0 <= i < |cs| ensures cs[i].exponent == if i < 2 * o.n then i else 2 * LOG_N + 2 + (i - 2 * o.n) {
      if i < 2 * o.n { assert cs[i] == FoldClaims(o, c, w, fold, r, o.n)[i]; }
    }
  }

  /** `inverse` really is 1 / (z - point). */
  ghost predicate Sound(f: Field, z: int, k: Claim) {
    f.Eq((z - k.point) * k.inverse, 1)
  }

  /** The weights read from the packed array. */
  function WeightsOf(n: nat, inverted: seq<int>): (w: Weights)
    requires n > 0 && |inverted| == BatchSize(n)
    ensures |w.pos| == n && |w.neg| == n
  {
    LayoutBijective(n);
    Weights(seq(n, j requires 0 <= j < n => assert Valid(n, Pos(j)); inverted[SlotIndex(n, Pos(j))]),
            seq(n, j requires 0 <= j < n => assert Valid(n, Neg(j)); inverted[SlotIndex(n, Neg(j))]),
            inverted[SlotIndex(n, GeminiR)], inverted[SlotIndex(n, LibraDen)])
  }

  lemma {:induction false} FoldClaimsSound(f: Field, o: Opening, c: Points, inverted: seq<int>, fold: seq<int>,
                                           r: int, g: int, us: seq<int>, m: nat)
    requires 0 < o.n <= |us| && |inverted| == BatchSize(o.n)
    requires Shaped(o, c, WeightsOf(o.n, inverted), fold) && Answers(f, o.n, r, o.z, g, us, inverted) && 1 <= m <= o.n
    ensures forall k :: k in FoldClaims(o, c, WeightsOf(o.n, inverted), fold, r, m) ==> Sound(f, o.z, k)
  {
    hide Field.Red, UnshiftedCom, ShiftedCom, FoldDenominator;
    if m > 1 { FoldClaimsSound(f, o, c, inverted, fold, r, g, us, m - 1); }
    var j := m - 1;
    assert AnswersSlot(f, o.n, r, o.z, g, us, inverted, Pos(j));
    assert AnswersSlot(f, o.n, r, o.z, g, us, inverted, Neg(j));
  }

  /** Every claim's stored inverse inverts z minus its point. */
  lemma ClaimsSound(f: Field, o: Opening, c: Points, inverted: seq<int>, fold: seq<int>, r: int, g: int, us: seq<int>)
    requires 0 < o.n <= |us| && |inverted| == BatchSize(o.n)
    requires Shaped(o, c, WeightsOf(o.n, inverted), fold) && Answers(f, o.n, r, o.z, g, us, inverted)
    ensures forall k :: k in Claims(o, c, WeightsOf(o.n, inverted), fold, r, g) ==> Sound(f, o.z, k)
  {
    hide Field.Red, FoldClaims, FoldDenominator;
    FoldClaimsSound(f, o, c, inverted, fold, r, g, us, o.n);
    assert AnswersSlot(f, o.n, r, o.z, g, us, inverted, Pos(0));
    assert AnswersSlot(f, o.n, r, o.z, g, us, inverted, LibraDen);
  }
}
