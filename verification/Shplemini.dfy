/** `verify_shplemini`, step by step, refining the claim sum of module `Shplonk`. */
module Shplemini {
  import opened PrimeFields
  import opened BatchInversion
  import opened Gemini
  import opened Inversions
  import opened Shplonk
  import Libra
  import LibraCheck

  // ---- Filling the flat arrays ----

  /** The first `m` slots hold the right scalars and points. */
  ghost predicate Filled(f: Field, o: Opening, c: Points, w: Weights, fold: seq<int>,
                         scalars: seq<int>, coms: seq<int>, m: nat)
    requires Shaped(o, c, w, fold)
  {
    |scalars| == |coms| == TOTAL && m <= TOTAL &&
    forall t :: 0 <= t < m ==> SlotFilled(f, o, c, w, fold, scalars, coms, t)
  }

  ghost predicate SlotFilled(f: Field, o: Opening, c: Points, w: Weights, fold: seq<int>,
                             scalars: seq<int>, coms: seq<int>, t: nat)
    requires Shaped(o, c, w, fold) && |scalars| == |coms| == TOTAL && t < TOTAL
  {
    f.Eq(scalars[t], ScalarAt(o, c, w, fold, t)) && coms[t] == PointAt(c, t)
  }

  lemma FillOne(f: Field, o: Opening, c: Points, w: Weights, fold: seq<int>, scalars: seq<int>, coms: seq<int>,
                m: nat, s: int, p: int)
    requires Shaped(o, c, w, fold) && Filled(f, o, c, w, fold, scalars, coms, m) && m < TOTAL
    requires f.Eq(s, ScalarAt(o, c, w, fold, m)) && p == PointAt(c, m)
    ensures Filled(f, o, c, w, fold, scalars[m := s], coms[m := p], m + 1)
  {
    hide Field.Red, ScalarAt, PointAt;
    var scalars', coms' := scalars[m := s], coms[m := p];
    forall t | 0 <= t < m + 1 ensures SlotFilled(f, o, c, w, fold, scalars', coms', t) {
      if t < m { assert SlotFilled(f, o, c, w, fold, scalars, coms, t); }
    }
  }

  method Place(f: Field, ghost o: Opening, ghost c: Points, ghost w: Weights, ghost fold: seq<int>,
               scalars: array<int>, coms: array<int>, at: nat, s: int, p: int)
    requires scalars != coms && Shaped(o, c, w, fold) && at < TOTAL
    requires Filled(f, o, c, w, fold, scalars[..], coms[..], at)
    requires f.Eq(s, ScalarAt(o, c, w, fold, at)) && p == PointAt(c, at)
    modifies scalars, coms
    ensures Filled(f, o, c, w, fold, scalars[..], coms[..], at + 1)
  {
    FillOne(f, o, c, w, fold, scalars[..], coms[..], at, s, p);
    scalars[at] := s;
    coms[at] := p;
    assert scalars[..] == old(scalars[..])[at := s] && coms[..] == old(coms[..])[at := p];
  }

  /** The slots below the folds do not depend on the fold evaluations. */
  lemma FoldIndependent(f: Field, o: Opening, c: Points, w: Weights, fold: seq<int>, fold': seq<int>,
                        scalars: seq<int>, coms: seq<int>)
    requires Shaped(o, c, w, fold) && Shaped(o, c, w, fold')
    requires Filled(f, o, c, w, fold, scalars, coms, FOLD_BASE)
    ensures Filled(f, o, c, w, fold', scalars, coms, FOLD_BASE)
  {
    forall t | 0 <= t < FOLD_BASE ensures SlotFilled(f, o, c, w, fold', scalars, coms, t) {
      assert SlotFilled(f, o, c, w, fold, scalars, coms, t);
    }
  }

  // ---- Steps 3 to 6: weights, evaluations, entity slots ----

  method ShplonkWeights(f: Field, o: Opening, w: Weights) returns (negUnshifted: int, negShifted: int)
    requires |w.pos| > 0 && |w.neg| > 0
    ensures f.Eq(negUnshifted, -Unshifted(o, w)) && f.Eq(negShifted, -Shifted(o, w))
  {
    hide Field.Red;
    var unshifted := f.Add(f.Mul(o.nu, w.neg[0]), w.pos[0]);
    var shifted := f.Mul(w.rInv, f.Sub(w.pos[0], f.Mul(o.nu, w.neg[0])));
    RedEq(f, o.nu * w.neg[0]);
    Ops(f, f.Mul(o.nu, w.neg[0]), o.nu * w.neg[0], w.pos[0], w.pos[0]);
    Ops(f, w.pos[0], w.pos[0], f.Mul(o.nu, w.neg[0]), o.nu * w.neg[0]);
    Ops(f, w.rInv, w.rInv, f.Sub(w.pos[0], f.Mul(o.nu, w.neg[0])), w.pos[0] - o.nu * w.neg[0]);
    Ops(f, 0, 0, unshifted, Unshifted(o, w));
    Ops(f, 0, 0, shifted, Shifted(o, w));
    negUnshifted, negShifted := f.Neg(unshifted), f.Neg(shifted);
  }

  method EntityScalars(f: Field, o: Opening, w: Weights) returns (scalars: seq<int>, evalAcc: int, negUnshifted: int)
    requires |w.pos| > 0 && |w.neg| > 0 && |o.evals| == ENTITIES && f.Has(o.hidingEval)
    ensures |scalars| == ENTITIES && forall i :: 0 <= i < ENTITIES ==> f.Eq(scalars[i], EntityScalar(o, w, i))
    ensures f.Eq(evalAcc, BatchedEval(o, ENTITIES))
    ensures f.Eq(negUnshifted, -Unshifted(o, w))
  {
    hide Field.Red, IntPow, Unshifted, Shifted;
    var negShifted;
    negUnshifted, negShifted := ShplonkWeights(f, o, w);
    scalars := [];
    evalAcc := o.hidingEval;
    var rhoPow := o.rho;
    PowOne(o.rho);
    for i := 0 to ENTITIES
      invariant |scalars| == i && f.Eq(rhoPow, IntPow(o.rho, i + 1))
      invariant forall k :: 0 <= k < i ==> f.Eq(scalars[k], EntityScalar(o, w, k))
      invariant f.Eq(evalAcc, BatchedEval(o, i))
    {
      var weight := if i < UNSHIFTED then negUnshifted else negShifted;
      EntityStep(f, o, w, i, weight, rhoPow, evalAcc);
      scalars := scalars + [f.Mul(weight, rhoPow)];
      evalAcc := f.Add(evalAcc, f.Mul(o.evals[i], rhoPow));
      rhoPow := f.Mul(rhoPow, o.rho);
    }
  }

  /** One entity: its scalar, the batched evaluation and the next power of rho. */
  lemma EntityStep(f: Field, o: Opening, w: Weights, i: nat, weight: int, rhoPow: int, evalAcc: int)
    requires |w.pos| > 0 && |w.neg| > 0 && i < |o.evals|
    requires f.Eq(weight, -(if i < UNSHIFTED then Unshifted(o, w) else Shifted(o, w)))
    requires f.Eq(rhoPow, IntPow(o.rho, i + 1)) && f.Eq(evalAcc, BatchedEval(o, i))
    ensures f.Eq(f.Mul(weight, rhoPow), EntityScalar(o, w, i))
    ensures f.Eq(f.Add(evalAcc, f.Mul(o.evals[i], rhoPow)), BatchedEval(o, i + 1))
    ensures f.Eq(f.Mul(rhoPow, o.rho), IntPow(o.rho, i + 2))
  {
    hide Field.Red, IntPow, Unshifted, Shifted;
    Ops(f, weight, -(if i < UNSHIFTED then Unshifted(o, w) else Shifted(o, w)), rhoPow, IntPow(o.rho, i + 1));
    Ops(f, o.evals[i], o.evals[i], rhoPow, IntPow(o.rho, i + 1));
    Ops(f, evalAcc, BatchedEval(o, i), f.Mul(o.evals[i], rhoPow), o.evals[i] * IntPow(o.rho, i + 1));
    Ops(f, rhoPow, IntPow(o.rho, i + 1), o.rho, o.rho);
    PowNext(o.rho, i + 1);
  }

  lemma PowOne(a: int)
    ensures IntPow(a, 1) == a
  {
    assert IntPow(a, 1) == a * IntPow(a, 0);
  }

  lemma PowNext(a: int, e: nat)
    ensures IntPow(a, e + 1) == IntPow(a, e) * a
  {
  }

  method LoadEntities(f: Field, o: Opening, c: Points, w: Weights, ghost fold: seq<int>, entity: seq<int>,
                      negUnshifted: int, scalars: array<int>, coms: array<int>)
    requires scalars != coms && scalars.Length == coms.Length == TOTAL && Shaped(o, c, w, fold)
    requires |entity| == ENTITIES && forall i :: 0 <= i < ENTITIES ==> f.Eq(entity[i], EntityScalar(o, w, i))
    requires f.Eq(negUnshifted, -Unshifted(o, w))
    modifies scalars, coms
    ensures Filled(f, o, c, w, fold, scalars[..], coms[..], FOLD_BASE)
  {
    hide Field.Red, EntityScalar, Unshifted, Filled;
    NothingFilled(f, o, c, w, fold, scalars[..], coms[..]);
    Place(f, o, c, w, fold, scalars, coms, 0, 1, c.shplonkQ);
    Place(f, o, c, w, fold, scalars, coms, 1, negUnshifted, c.hiding);
    for k := 0 to 27
      invariant Filled(f, o, c, w, fold, scalars[..], coms[..], 2 + k)
    {
      Place(f, o, c, w, fold, scalars, coms, 2 + k, entity[k], c.vk[k]);
    }
    var wires := [c.w1, c.w2, c.w3, c.w4, c.zPerm, c.lookupInverses, c.lookupReadCounts, c.lookupReadTags];
    for k := 27 to UNSHIFTED
      invariant Filled(f, o, c, w, fold, scalars[..], coms[..], 2 + k)
    {
      Place(f, o, c, w, fold, scalars, coms, 2 + k, entity[k], wires[k - 27]);
    }
    for k := UNSHIFTED to ENTITIES
      invariant Filled(f, o, c, w, fold, scalars[..], coms[..], 2 + k)
    {
      Place(f, o, c, w, fold, scalars, coms, 2 + k, entity[k], wires[k - UNSHIFTED]);
    }
  }

  lemma NothingFilled(f: Field, o: Opening, c: Points, w: Weights, fold: seq<int>, scalars: seq<int>, coms: seq<int>)
    requires Shaped(o, c, w, fold) && |scalars| == |coms| == TOTAL
    ensures Filled(f, o, c, w, fold, scalars, coms, 0)
  {
  }

  // ---- Step 7: the fold loop ----

  method FoldLoop(f: Field, n: nat, ghost r: int, rPows: seq<int>, us: seq<int>, aEvals: seq<int>,
                  evalAcc: int, ghost batched: int, foldInv: seq<int>) returns (fold: array<int>)
    requires 1 <= n <= LOG_N && |rPows| == n && n <= |us| && n <= |aEvals| && |foldInv| == n
    requires forall i :: 0 <= i < n ==> f.Eq(rPows[i], RPower(r, i))
    requires forall j :: 0 <= j < n ==> f.Eq(FoldDenominator(r, us, j) * foldInv[n - 1 - j], 1)
    requires f.Eq(evalAcc, batched)
    ensures fresh(fold) && fold.Length == LOG_N
    ensures SolvesFolds(f, n, r, us, aEvals, batched, fold[..])
  {
    hide Field.Red, RPower;
    fold := new int[LOG_N](_ => 0);
    var cur := evalAcc;
    var j := n;
    while j > 0
      invariant 0 <= j <= n
      invariant f.Eq(cur, if j < n then fold[j] else batched)
      invariant forall k :: j <= k < n ==> SolvesFold(f, n, r, us, aEvals, batched, fold[..], k)
    {
      var r2, u := rPows[j - 1], us[j - 1];
      var foldLin := f.Sub(f.Mul(r2, f.Sub(1, u)), u);
      var num := f.Sub(f.Mul(f.Mul(r2, cur), 2), f.Mul(aEvals[j - 1], foldLin));
      ghost var above := if j < n then fold[j] else batched;
      assert f.Eq(FoldDenominator(r, us, j - 1) * foldInv[n - 1 - (j - 1)], 1);
      FoldValue(f, r2, RPower(r, j - 1), u, cur, above, aEvals[j - 1], foldInv[n - j]);
      cur := f.Mul(num, foldInv[n - j]);
      ghost var before := fold[..];
      fold[j - 1] := cur;
      assert fold[..] == before[j - 1 := cur];
      SolvesKept(f, n, r, us, aEvals, batched, before, fold[..], j);
      j := j - 1;
    }
  }

  lemma SolvesKept(f: Field, n: nat, r: int, us: seq<int>, negative: seq<int>, batched: int,
                   before: seq<int>, after: seq<int>, j: nat)
    requires 0 < j <= n <= |us| && n <= |negative| && n <= |before| == |after|
    requires after == before[j - 1 := after[j - 1]]
    requires forall k :: j <= k < n ==> SolvesFold(f, n, r, us, negative, batched, before, k)
    ensures forall k :: j <= k < n ==> SolvesFold(f, n, r, us, negative, batched, after, k)
  {
    hide Field.Red, FoldDenominator, RPower;
    forall k | j <= k < n ensures SolvesFold(f, n, r, us, negative, batched, after, k) {
      assert SolvesFold(f, n, r, us, negative, batched, before, k);
      assert after[k] == before[k] && Above(n, batched, after, k) == Above(n, batched, before, k);
    }
  }

  lemma FoldValue(f: Field, r2: int, x: int, u: int, cur: int, above: int, a: int, inv: int)
    requires f.Eq(r2, x) && f.Eq(cur, above) && f.Eq((x * (1 - u) + u) * inv, 1)
    ensures var num := f.Sub(f.Mul(f.Mul(r2, cur), 2), f.Mul(a, f.Sub(f.Mul(r2, f.Sub(1, u)), u)));
      f.Eq((x * (1 - u) + u) * f.Mul(num, inv), 2 * x * above - a * (x * (1 - u) - u))
  {
    hide Field.Red;
    RedEq(f, 1 - u);
    Ops(f, r2, x, f.Sub(1, u), 1 - u);
    Ops(f, f.Mul(r2, f.Sub(1, u)), x * (1 - u), u, u);
    Ops(f, a, a, f.Sub(f.Mul(r2, f.Sub(1, u)), u), x * (1 - u) - u);
    Ops(f, r2, x, cur, above);
    Ops(f, f.Mul(r2, cur), x * above, 2, 2);
    var lin := f.Mul(a, f.Sub(f.Mul(r2, f.Sub(1, u)), u));
    Ops(f, f.Mul(f.Mul(r2, cur), 2), x * above * 2, lin, a * (x * (1 - u) - u));
    assert x * above * 2 == 2 * x * above;
    TimesInverse(f, x * (1 - u) + u, inv, f.Sub(f.Mul(f.Mul(r2, cur), 2), lin), 2 * x * above - a * (x * (1 - u) - u));
  }

  lemma TimesInverse(f: Field, d: int, inv: int, num: int, value: int)
    requires f.Eq(d * inv, 1) && f.Eq(num, value)
    ensures f.Eq(d * f.Mul(num, inv), value)
  {
    hide Field.Red;
    Ops(f, num, value, inv, inv);
    EqMul(f, d, d, f.Mul(num, inv), value * inv);
    EqMul(f, value, value, d * inv, 1);
    assert d * (value * inv) == value * (d * inv);
  }

  // ---- Steps 8 and 9: constant term and fold slots ----

  method FoldSlots(f: Field, o: Opening, c: Points, w: Weights, fold: seq<int>,
                   scalars: array<int>, coms: array<int>) returns (constAcc: int)
    requires scalars != coms && Shaped(o, c, w, fold)
    requires Filled(f, o, c, w, fold, scalars[..], coms[..], FOLD_BASE)
    modifies scalars, coms
    ensures Filled(f, o, c, w, fold, scalars[..], coms[..], LIBRA_BASE)
    ensures f.Eq(constAcc, FoldConstant(o, w, fold, o.n))
  {
    hide Field.Red, Filled, IntPow, FoldConstant;
    var nuSq := f.Mul(o.nu, o.nu);
    constAcc := f.Add(f.Mul(fold[0], w.pos[0]), f.Mul(f.Mul(o.aEvals[0], o.nu), w.neg[0]));
    FirstConstant(f, o, w, fold);
    var vPow := nuSq;
    SquarePower(f, o.nu);
    for j := 1 to o.n
      invariant Filled(f, o, c, w, fold, scalars[..], coms[..], FOLD_BASE + j - 1)
      invariant f.Eq(vPow, IntPow(o.nu, 2 * j))
      invariant f.Eq(constAcc, FoldConstant(o, w, fold, j))
    {
      var sp := f.Mul(vPow, w.pos[j]);
      var sn := f.Mul(f.Mul(vPow, o.nu), w.neg[j]);
      FoldRound(f, o, w, fold, j, vPow, constAcc);
      constAcc := f.Add(f.Add(constAcc, f.Mul(o.aEvals[j], sn)), f.Mul(fold[j], sp));
      FoldSlotScalar(o, c, w, fold, FOLD_BASE + j - 1);
      Place(f, o, c, w, fold, scalars, coms, FOLD_BASE + j - 1, f.Neg(f.Add(sp, sn)), c.foldComs[j - 1]);
      vPow := f.Mul(vPow, nuSq);
    }
    for j := o.n to LOG_N
      invariant Filled(f, o, c, w, fold, scalars[..], coms[..], FOLD_BASE + j - 1)
    {
      FoldSlotScalar(o, c, w, fold, FOLD_BASE + j - 1);
      Place(f, o, c, w, fold, scalars, coms, FOLD_BASE + j - 1, 0, c.foldComs[j - 1]);
    }
  }

  lemma FoldSlotScalar(o: Opening, c: Points, w: Weights, fold: seq<int>, t: nat)
    requires Shaped(o, c, w, fold) && FOLD_BASE <= t < LIBRA_BASE
    ensures var j := t - (FOLD_BASE - 1);
      ScalarAt(o, c, w, fold, t) == if j < o.n then -(FoldPlus(o, w, j) + FoldMinus(o, w, j)) else 0
  {
  }

  lemma FirstConstant(f: Field, o: Opening, w: Weights, fold: seq<int>)
    requires |w.pos| == |w.neg| && |w.pos| > 0 && |fold| > 0 && |o.aEvals| > 0
    ensures f.Eq(f.Add(f.Mul(fold[0], w.pos[0]), f.Mul(f.Mul(o.aEvals[0], o.nu), w.neg[0])), FoldConstant(o, w, fold, 1))
  {
    hide Field.Red;
    RedEq(f, fold[0] * w.pos[0]);
    RedEq(f, o.aEvals[0] * o.nu);
    Ops(f, f.Mul(o.aEvals[0], o.nu), o.aEvals[0] * o.nu, w.neg[0], w.neg[0]);
    Ops(f, f.Mul(fold[0], w.pos[0]), fold[0] * w.pos[0],
        f.Mul(f.Mul(o.aEvals[0], o.nu), w.neg[0]), o.aEvals[0] * o.nu * w.neg[0]);
  }

  lemma SquarePower(f: Field, nu: int)
    ensures f.Eq(f.Mul(nu, nu), IntPow(nu, 2))
  {
    hide Field.Red;
    RedEq(f, nu * nu);
    assert IntPow(nu, 2) == nu * (nu * IntPow(nu, 0));
  }

  /** The scalars of one round. */
  lemma RoundScalars(f: Field, o: Opening, w: Weights, j: nat, vPow: int)
    requires 1 <= j < |w.pos| == |w.neg| && f.Eq(vPow, IntPow(o.nu, 2 * j))
    ensures f.Eq(f.Mul(vPow, w.pos[j]), FoldPlus(o, w, j))
    ensures f.Eq(f.Mul(f.Mul(vPow, o.nu), w.neg[j]), FoldMinus(o, w, j))
  {
    hide Field.Red, IntPow;
    var v := IntPow(o.nu, 2 * j);
    PowNext(o.nu, 2 * j);
    Ops(f, vPow, v, w.pos[j], w.pos[j]);
    Ops(f, vPow, v, o.nu, o.nu);
    Ops(f, f.Mul(vPow, o.nu), v * o.nu, w.neg[j], w.neg[j]);
  }

  lemma NextSquare(f: Field, nu: int, j: nat, vPow: int)
    requires f.Eq(vPow, IntPow(nu, 2 * j))
    ensures f.Eq(f.Mul(vPow, f.Mul(nu, nu)), IntPow(nu, 2 * (j + 1)))
  {
    hide Field.Red, IntPow;
    var v := IntPow(nu, 2 * j);
    PowNext(nu, 2 * j);
    PowNext(nu, 2 * j + 1);
    RedEq(f, nu * nu);
    Ops(f, vPow, v, f.Mul(nu, nu), nu * nu);
    Twice(v, nu);
  }

  lemma Twice(v: int, nu: int)
    ensures v * (nu * nu) == v * nu * nu
  {
  }

  /** One round of the constant-term loop. */
  lemma FoldRound(f: Field, o: Opening, w: Weights, fold: seq<int>, j: nat, vPow: int, constAcc: int)
    requires 1 <= j < |w.pos| == |w.neg| && j < |fold| && j < |o.aEvals|
    requires f.Eq(vPow, IntPow(o.nu, 2 * j)) && f.Eq(constAcc, FoldConstant(o, w, fold, j))
    ensures var (sp, sn) := (f.Mul(vPow, w.pos[j]), f.Mul(f.Mul(vPow, o.nu), w.neg[j]));
      && f.Eq(f.Neg(f.Add(sp, sn)), -(FoldPlus(o, w, j) + FoldMinus(o, w, j)))
      && f.Eq(f.Add(f.Add(constAcc, f.Mul(o.aEvals[j], sn)), f.Mul(fold[j], sp)), FoldConstant(o, w, fold, j + 1))
    ensures f.Eq(f.Mul(vPow, f.Mul(o.nu, o.nu)), IntPow(o.nu, 2 * (j + 1)))
  {
    hide Field.Red, IntPow, FoldConstant, FoldPlus, FoldMinus;
    var sp, sn := f.Mul(vPow, w.pos[j]), f.Mul(f.Mul(vPow, o.nu), w.neg[j]);
    var p, q := FoldPlus(o, w, j), FoldMinus(o, w, j);
    RoundScalars(f, o, w, j, vPow);
    NextSquare(f, o.nu, j, vPow);
    Ops(f, sp, p, sn, q);
    Ops(f, 0, 0, f.Add(sp, sn), p + q);
    ConstantStep(o, w, fold, j);
    Ops(f, o.aEvals[j], o.aEvals[j], sn, q);
    Ops(f, fold[j], fold[j], sp, p);
    Ops(f, constAcc, FoldConstant(o, w, fold, j), f.Mul(o.aEvals[j], sn), o.aEvals[j] * q);
    Ops(f, f.Add(constAcc, f.Mul(o.aEvals[j], sn)), FoldConstant(o, w, fold, j) + o.aEvals[j] * q,
        f.Mul(fold[j], sp), fold[j] * p);
  }

  lemma ConstantStep(o: Opening, w: Weights, fold: seq<int>, j: nat)
    requires 1 <= j < |w.pos| == |w.neg| && j < |fold| && j < |o.aEvals|
    ensures FoldConstant(o, w, fold, j + 1)
         == FoldConstant(o, w, fold, j) + o.aEvals[j] * FoldMinus(o, w, j) + fold[j] * FoldPlus(o, w, j)
  {
  }

  method LibraSlots(f: Field, o: Opening, c: Points, w: Weights, fold: seq<int>, constIn: int,
                    scalars: array<int>, coms: array<int>)
    requires scalars != coms && Shaped(o, c, w, fold)
    requires Filled(f, o, c, w, fold, scalars[..], coms[..], LIBRA_BASE)
    requires f.Eq(constIn, FoldConstant(o, w, fold, o.n))
    modifies scalars, coms
    ensures Filled(f, o, c, w, fold, scalars[..], coms[..], TOTAL)
  {
    hide Field.Red, Filled, IntPow, FoldConstant, LibraScaling, LibraConstant, Unshifted;
    var libraScalars, constAcc := LibraLoop(f, o, w, FoldConstant(o, w, fold, o.n), constIn);
    Place(f, o, c, w, fold, scalars, coms, LIBRA_BASE, libraScalars[0], c.libraConcat);
    Ops(f, libraScalars[1], -LibraScaling(o, w, 1), libraScalars[2], -LibraScaling(o, w, 2));
    Place(f, o, c, w, fold, scalars, coms, LIBRA_BASE + 1, f.Add(libraScalars[1], libraScalars[2]), c.libraGrandSum);
    Place(f, o, c, w, fold, scalars, coms, LIBRA_BASE + 2, libraScalars[3], c.libraQuotient);
    Place(f, o, c, w, fold, scalars, coms, LIBRA_BASE + 3, constAcc, c.generator);
    Place(f, o, c, w, fold, scalars, coms, LIBRA_BASE + 4, o.z, c.kzgQuotient);
  }

  method LibraLoop(f: Field, o: Opening, w: Weights, ghost folds: int, constIn: int)
    returns (libraScalars: seq<int>, constAcc: int)
    requires |w.pos| > 0 && |o.libraEvals| == 4 && f.Eq(constIn, folds)
    ensures |libraScalars| == 4 && forall i :: 0 <= i < 4 ==> f.Eq(libraScalars[i], -LibraScaling(o, w, i))
    ensures f.Eq(constAcc, folds + LibraConstant(o, w, 4))
  {
    hide Field.Red, IntPow, LibraScaling;
    constAcc := constIn;
    var power := f.Pow(o.nu, 2 * LOG_N + 2);
    RedEq(f, IntPow(o.nu, 2 * LOG_N + 2));
    libraScalars := [];
    for k := 0 to 4
      invariant |libraScalars| == k && f.Eq(power, IntPow(o.nu, 2 * LOG_N + 2 + k))
      invariant forall i :: 0 <= i < k ==> f.Eq(libraScalars[i], -LibraScaling(o, w, i))
      invariant f.Eq(constAcc, folds + LibraConstant(o, w, k))
    {
      var denominator := if k == 1 then w.libra else w.pos[0];
      var scaling := f.Mul(denominator, power);
      Ops(f, denominator, denominator, power, IntPow(o.nu, 2 * LOG_N + 2 + k));
      ScalingValue(o, w, k);
      Ops(f, 0, 0, scaling, LibraScaling(o, w, k));
      libraScalars := libraScalars + [f.Neg(scaling)];
      Ops(f, scaling, LibraScaling(o, w, k), o.libraEvals[k], o.libraEvals[k]);
      Ops(f, constAcc, folds + LibraConstant(o, w, k),
          f.Mul(scaling, o.libraEvals[k]), LibraScaling(o, w, k) * o.libraEvals[k]);
      constAcc := f.Add(constAcc, f.Mul(scaling, o.libraEvals[k]));
      Ops(f, power, IntPow(o.nu, 2 * LOG_N + 2 + k), o.nu, o.nu);
      PowNext(o.nu, 2 * LOG_N + 2 + k);
      power := f.Mul(power, o.nu);
    }
  }

  lemma ScalingValue(o: Opening, w: Weights, k: nat)
    requires |w.pos| > 0
    ensures LibraScaling(o, w, k) == (if k == 1 then w.libra else w.pos[0]) * IntPow(o.nu, 2 * LOG_N + 2 + k)
  {
  }

  // ---- Step 12: the multi-scalar multiplication ----

  /** `g1_msm`: terms with a zero scalar are skipped. */
  method G1Msm(f: Field, ghost o: Opening, ghost c: Points, ghost w: Weights, ghost fold: seq<int>,
               coms: seq<int>, scalars: seq<int>) returns (p: int)
    requires Shaped(o, c, w, fold) && Filled(f, o, c, w, fold, scalars, coms, TOTAL)
    ensures f.Has(p) && f.Eq(p, Msm(o, c, w, fold, TOTAL))
  {
    hide Field.Red, ScalarAt, PointAt;
    p := 0;
    for t := 0 to TOTAL
      invariant f.Has(p) && f.Eq(p, Msm(o, c, w, fold, t))
    {
      assert SlotFilled(f, o, c, w, fold, scalars, coms, t);
      Ops(f, scalars[t], ScalarAt(o, c, w, fold, t), coms[t], PointAt(c, t));
      Ops(f, p, Msm(o, c, w, fold, t), f.Mul(scalars[t], coms[t]), ScalarAt(o, c, w, fold, t) * PointAt(c, t));
      if scalars[t] != 0 {
        p := f.Add(p, f.Mul(scalars[t], coms[t]));
      } else {
        EqMul(f, ScalarAt(o, c, w, fold, t), 0, PointAt(c, t), PointAt(c, t));
        EqAdd(f, p, Msm(o, c, w, fold, t), 0, ScalarAt(o, c, w, fold, t) * PointAt(c, t));
      }
    }
  }

  // ---- The verifier ----

  datatype Challenge = Challenge(r: int, us: seq<int>, libraClaimed: int)

  /** The subgroup constants of the code: a generator of order 256 and its inverse. */
  ghost predicate IsGenerator(f: Field, g: int, gInv: int) {
    Libra.HasOrder(f, g, Libra.SUBGROUP_SIZE) && f.Eq(g * gInv, 1)
  }

  ghost predicate IsInput(f: Field, o: Opening, c: Points, t: Challenge) {
    && |o.evals| == ENTITIES && |o.aEvals| == LOG_N && |o.libraEvals| == 4 && f.HasAll(o.libraEvals)
    && |c.vk| == 27 && |c.foldComs| == LOG_N - 1 && |t.us| == LOG_N
    && f.Has(o.hidingEval) && f.Has(t.r) && f.Has(o.z)
  }

  /** Why the verifier can refuse before the pairing check. */
  ghost predicate Refused(f: Field, o: Opening, t: Challenge, g: int, gInv: int)
    requires |t.us| == LOG_N && |o.libraEvals| == 4
  {
    || !(1 <= o.n <= LOG_N)
    || ZeroDenominator(f, o.n, t.r, o.z, g, t.us)
    || f.Eq(IntPow(t.r, Libra.SUBGROUP_SIZE), 1)
    || !f.Eq(LibraCheck.LibraIdentity(f, g, gInv, t.r, t.us, o.libraEvals, t.libraClaimed), 0)
  }

  /** The inverses and fold evaluations the pairing point is built from. */
  ghost predicate IsWitness(f: Field, o: Opening, t: Challenge, g: int, inverted: seq<int>, fold: seq<int>)
    requires 1 <= o.n <= LOG_N && |t.us| == LOG_N && |o.aEvals| == LOG_N && |o.evals| == ENTITIES
  {
    && Answers(f, o.n, t.r, o.z, g, t.us, inverted)
    && |fold| == LOG_N
    && SolvesFolds(f, o.n, t.r, t.us, o.aEvals, BatchedEval(o, ENTITIES), fold)
  }

  /**
   The whole opening check.  Unless refused, the first pairing argument is
   Q + z W minus the sum of nu^e (C - v G) / (z - x) over the opening claims.
   */
  method VerifyShplemini(f: PrimeField, o: Opening, c: Points, t: Challenge, g: int, gInv: int,
                         pairing: (int, int) -> bool)
    returns (result: Result<()>, ghost inverted: seq<int>, ghost fold: seq<int>, p0: int)
    requires f.p > Libra.SUBGROUP_SIZE && IsInput(f, o, c, t) && IsGenerator(f, g, gInv)
    ensures Refused(f, o, t, g, gInv) || !(1 <= o.n <= 28) ==> result.Err?
    ensures !Refused(f, o, t, g, gInv) ==>
      && IsWitness(f, o, t, g, inverted, fold)
      && p0 == f.Red(c.shplonkQ + o.z * c.kzgQuotient
           - ClaimSum(o.nu, c.generator, Claims(o, c, WeightsOf(o.n, inverted), fold, t.r, g)))
      && result == if pairing(p0, f.Neg(c.kzgQuotient)) then Ok(()) else Err("Shplonk pairing check failed")
  {
    hide Field.Red, IsPrime, Answers, ZeroDenominator, Packed, SolvesFolds, Libra.HasOrder, LibraCheck.LibraIdentity,
      IsWitness, Claims, ClaimSum, WeightsOf, BatchedEval;
    inverted, fold, p0 := [], [], 0;
    if o.n == 0 || o.n > LOG_N {
      result := Err("shplemini: log_circuit_size out of range");
      return;
    }
    var rPows := RPowers(f, o.n, t.r);
    var toInvert := FillDenominators(f, o.n, t.r, o.z, g, t.us, rPows);
    var den := toInvert[..];
    var out := new int[BatchSize(o.n)];
    PackedShape(f, o.n, t.r, o.z, g, t.us, den);
    ZeroSomewhere(f, o.n, t.r, o.z, g, t.us, den);
    var inversion := BatchInverse(f, den, out);
    if inversion.Err? {
      result := Err("shplemini: batch inversion failed (zero denominator in shplonk/gemini/fold/libra)");
      return;
    }
    ReadBack(f, o.n, t.r, o.z, g, t.us, den, out[..]);
    inverted := out[..];
    var zeroResult := AnyZero(f, den, out[..]);
    if zeroResult {
      result := Err("shplemini: batch inversion produced zero result");
      return;
    }
    result, fold, p0 := Combine(f, o, c, t, g, gInv, pairing, rPows, out[..]);
  }

  lemma PackedShape(f: Field, n: nat, r: int, z: int, g: int, us: seq<int>, den: seq<int>)
    requires 0 < n <= |us| && Packed(f, n, r, z, g, us, den)
    ensures |den| == BatchSize(n) && f.HasAll(den)
  {
  }

  /** The defensive scan for zero inverses never finds one. */
  method AnyZero(f: Field, ghost den: seq<int>, inverted: seq<int>) returns (found: bool)
    requires Inverts(f, den, inverted)
    ensures !found
  {
    hide Field.Red;
    found := false;
    for i := 0 to |inverted|
      invariant !found
    {
      InverseNonzero(f, den[i], inverted[i]);
      if inverted[i] == 0 {
        found := true;
      }
    }
  }

  lemma InverseNonzero(f: Field, d: int, inv: int)
    requires f.Eq(d * inv, 1)
    ensures inv != 0
  {
    hide Field.Red;
    SmallDistinct(f, 1, 0);
    assert d * 0 == 0;
  }

  method Combine(f: PrimeField, o: Opening, c: Points, t: Challenge, g: int, gInv: int, pairing: (int, int) -> bool,
                 rPows: seq<int>, inverted: seq<int>)
    returns (result: Result<()>, ghost foldOut: seq<int>, p0: int)
    requires f.p > Libra.SUBGROUP_SIZE && IsInput(f, o, c, t) && IsGenerator(f, g, gInv) && 1 <= o.n <= LOG_N
    requires |rPows| == o.n && forall i :: 0 <= i < o.n ==> f.Eq(rPows[i], RPower(t.r, i))
    requires Answers(f, o.n, t.r, o.z, g, t.us, inverted) && |inverted| == BatchSize(o.n)
    requires !ZeroDenominator(f, o.n, t.r, o.z, g, t.us)
    ensures Refused(f, o, t, g, gInv) ==> result.Err?
    ensures !Refused(f, o, t, g, gInv) ==>
      && IsWitness(f, o, t, g, inverted, foldOut)
      && p0 == f.Red(c.shplonkQ + o.z * c.kzgQuotient
           - ClaimSum(o.nu, c.generator, Claims(o, c, WeightsOf(o.n, inverted), foldOut, t.r, g)))
      && result == if pairing(p0, f.Neg(c.kzgQuotient)) then Ok(()) else Err("Shplonk pairing check failed")
  {
    hide Field.Red, IsPrime, Answers, ZeroDenominator, SolvesFolds, Libra.HasOrder, LibraCheck.LibraIdentity, Filled,
      ClaimSum, Claims, IntPow, Msm, ScalarAt;
    p0 := 0;
    var w := WeightsOf(o.n, inverted);
    var scalars := new int[TOTAL](_ => 0);
    var coms := new int[TOTAL](_ => 0);
    var entity, evalAcc, negUnshifted := EntityScalars(f, o, w);
    ghost var none := seq(LOG_N, _ => 0);
    LoadEntities(f, o, c, w, none, entity, negUnshifted, scalars, coms);
    FoldInverses(f, o.n, t.r, o.z, g, t.us, inverted);
    var foldArr := FoldLoop(f, o.n, t.r, rPows, t.us, o.aEvals, evalAcc, BatchedEval(o, ENTITIES),
                            inverted[3..3 + o.n]);
    var fold := foldArr[..];
    foldOut := fold;
    FoldIndependent(f, o, c, w, none, fold, scalars[..], coms[..]);
    var constAcc := FoldSlots(f, o, c, w, fold, scalars, coms);
    LibraSlots(f, o, c, w, fold, constAcc, scalars, coms);
    var libra := LibraCheck.CheckLibraEvaluations(f, g, gInv, t.r, t.us, o.libraEvals, t.libraClaimed);
    if libra.Err? {
      return Err(libra.error), foldOut, p0;
    }
    p0 := G1Msm(f, o, c, w, fold, coms[..], scalars[..]);
    MsmIsClaimSum(o, c, w, fold, t.r, g);
    RedCanonical(f, p0);
    var p1 := f.Neg(c.kzgQuotient);
    if pairing(p0, p1) {
      result := Ok(());
    } else {
      result := Err("Shplonk pairing check failed");
    }
  }

  lemma FoldInverses(f: Field, n: nat, r: int, z: int, g: int, us: seq<int>, inverted: seq<int>)
    requires 0 < n <= |us| && Answers(f, n, r, z, g, us, inverted)
    ensures forall j :: 0 <= j < n ==> f.Eq(FoldDenominator(r, us, j) * inverted[3..3 + n][n - 1 - j], 1)
  {
    hide Field.Red, FoldDenominator;
    forall j | 0 <= j < n ensures f.Eq(FoldDenominator(r, us, j) * inverted[3..3 + n][n - 1 - j], 1) {
      assert AnswersSlot(f, n, r, z, g, us, inverted, FoldDen(j));
    }
  }
}
