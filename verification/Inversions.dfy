/**
 The packed inversion array of `verify_shplemini`: which slot holds which
 denominator, and the loops that fill it.
 */
module Inversions {
  import opened PrimeFields
  import opened BatchInversion
  import opened Gemini

  /** The denominators the opening needs. */
  datatype Slot = Pos(j: nat) | Neg(j: nat) | GeminiR | FoldDen(j: nat) | LibraDen

  ghost predicate Valid(n: nat, s: Slot) {
    match s
    case Pos(j) => j < n
    case Neg(j) => j < n
    case FoldDen(j) => j < n
    case GeminiR => true
    case LibraDen => true
  }

  function BatchSize(n: nat): nat { 3 * n + 2 }

  /** The index the code packs a denominator at. */
  function SlotIndex(n: nat, s: Slot): int {
    match s
    case Pos(j) => if j == 0 then 0 else 3 + n + 2 * (j - 1)
    case Neg(j) => if j == 0 then 1 else 3 + n + 2 * (j - 1) + 1
    case GeminiR => 2
    case FoldDen(j) => 3 + (n - 1 - j)
    case LibraDen => 3 * n + 1
  }

  /** What each denominator is: z -+ r^(2^j), r, the fold denominators, z - g r. */
  function Denominator(r: int, z: int, g: int, us: seq<int>, s: Slot): int
    requires s.FoldDen? ==> s.j < |us|
  {
    match s
    case Pos(j) => z - RPower(r, j)
    case Neg(j) => z + RPower(r, j)
    case GeminiR => r
    case FoldDen(j) => FoldDenominator(r, us, j)
    case LibraDen => z - g * r
  }

  /** The slot packed at an index. */
  function SlotAt(n: nat, t: nat): Slot
    requires n > 0 && t < BatchSize(n)
  {
    if t == 0 then Pos(0)
    else if t == 1 then Neg(0)
    else if t == 2 then GeminiR
    else if t < 3 + n then FoldDen(n - 1 - (t - 3))
    else if t < 3 * n + 1 then
      var k := t - (3 + n);
      if k % 2 == 0 then Pos(1 + k / 2) else Neg(1 + k / 2)
    else LibraDen
  }

  /** The layout is a bijection: every slot has its own index and every index is used. */
  lemma LayoutBijective(n: nat)
    requires n > 0
    ensures forall s :: Valid(n, s) ==> 0 <= SlotIndex(n, s) < BatchSize(n) && SlotAt(n, SlotIndex(n, s)) == s
    ensures forall t :: 0 <= t < BatchSize(n) ==> Valid(n, SlotAt(n, t)) && SlotIndex(n, SlotAt(n, t)) == t
  {
    forall s | Valid(n, s)
      ensures 0 <= SlotIndex(n, s) < BatchSize(n) && SlotAt(n, SlotIndex(n, s)) == s
    {
      if (s.Pos? || s.Neg?) && s.j > 0 {
        var k := SlotIndex(n, s) - (3 + n);
        assert k / 2 == s.j - 1;
      }
    }
  }

  /** The array holds, at every index, the denominator packed there. */
  ghost predicate Packed(f: Field, n: nat, r: int, z: int, g: int, us: seq<int>, den: seq<int>)
    requires 0 < n <= |us|
  {
    |den| == BatchSize(n) && f.HasAll(den) &&
    forall t :: 0 <= t < |den| ==> HoldsSlot(f, n, r, z, g, us, den, t)
  }

  ghost predicate HoldsSlot(f: Field, n: nat, r: int, z: int, g: int, us: seq<int>, den: seq<int>, t: nat)
    requires 0 < n <= |us| && |den| == BatchSize(n) && t < |den|
  {
    f.Eq(den[t], Denominator(r, z, g, us, SlotAt(n, t)))
  }

  method RPowers(f: Field, n: nat, r: int) returns (rPows: seq<int>)
    requires n > 0 && f.Has(r)
    ensures |rPows| == n && f.HasAll(rPows)
    ensures forall i :: 0 <= i < n ==> f.Eq(rPows[i], RPower(r, i))
  {
    hide Field.Red;
    rPows := [r];
    for i := 1 to n
      invariant |rPows| == i && f.HasAll(rPows)
      invariant forall k :: 0 <= k < i ==> f.Eq(rPows[k], RPower(r, k))
    {
      Ops(f, rPows[i - 1], RPower(r, i - 1), rPows[i - 1], RPower(r, i - 1));
      rPows := rPows + [f.Mul(rPows[i - 1], rPows[i - 1])];
    }
  }

  /** The first `m` entries are in place. */
  ghost predicate PackedTo(f: Field, n: nat, r: int, z: int, g: int, us: seq<int>, den: seq<int>, m: nat)
    requires 0 < n <= |us|
  {
    |den| == BatchSize(n) && m <= |den| && f.HasAll(den) &&
    forall t :: 0 <= t < m ==> HoldsSlot(f, n, r, z, g, us, den, t)
  }

  lemma PackOne(f: Field, n: nat, r: int, z: int, g: int, us: seq<int>, den: seq<int>, m: nat, v: int)
    requires 0 < n <= |us| && PackedTo(f, n, r, z, g, us, den, m) && m < |den|
    requires f.Has(v) && f.Eq(v, Denominator(r, z, g, us, SlotAt(n, m)))
    ensures PackedTo(f, n, r, z, g, us, den[m := v], m + 1)
  {
    hide Field.Red, Denominator;
    var next := den[m := v];
    forall t | 0 <= t < m + 1 ensures HoldsSlot(f, n, r, z, g, us, next, t) {
      if t < m { assert HoldsSlot(f, n, r, z, g, us, den, t); }
    }
  }

  method FillDenominators(f: Field, n: nat, r: int, z: int, g: int, us: seq<int>, rPows: seq<int>)
    returns (toInvert: array<int>)
    requires 0 < n <= |us| && |rPows| == n && f.Has(r)
    requires forall i :: 0 <= i < n ==> f.Eq(rPows[i], RPower(r, i))
    ensures fresh(toInvert) && Packed(f, n, r, z, g, us, toInvert[..])
  {
    hide Field.Red, FoldDenominator, HoldsSlot;
    toInvert := new int[BatchSize(n)](_ => 0);
    Ops(f, z, z, rPows[0], RPower(r, 0));
    Put(f, n, r, z, g, us, toInvert, 0, f.Sub(z, rPows[0]));
    Put(f, n, r, z, g, us, toInvert, 1, f.Add(z, rPows[0]));
    Put(f, n, r, z, g, us, toInvert, 2, r);
    FillFolds(f, n, r, z, g, us, rPows, toInvert);
    FillPairs(f, n, r, z, g, us, rPows, toInvert);
    RedEq(f, g * r);
    Ops(f, z, z, f.Mul(g, r), g * r);
    Put(f, n, r, z, g, us, toInvert, 3 * n + 1, f.Sub(z, f.Mul(g, r)));
  }

  method Put(f: Field, n: nat, r: int, z: int, g: int, us: seq<int>, toInvert: array<int>, at: nat, v: int)
    requires 0 < n <= |us| && PackedTo(f, n, r, z, g, us, toInvert[..], at) && at < toInvert.Length
    requires f.Has(v) && f.Eq(v, Denominator(r, z, g, us, SlotAt(n, at)))
    modifies toInvert
    ensures PackedTo(f, n, r, z, g, us, toInvert[..], at + 1)
  {
    PackOne(f, n, r, z, g, us, toInvert[..], at, v);
    toInvert[at] := v;
    assert toInvert[..] == old(toInvert[..])[at := v];
  }

  method FillFolds(f: Field, n: nat, r: int, z: int, g: int, us: seq<int>, rPows: seq<int>, toInvert: array<int>)
    requires 0 < n <= |us| && |rPows| == n
    requires forall i :: 0 <= i < n ==> f.Eq(rPows[i], RPower(r, i))
    requires PackedTo(f, n, r, z, g, us, toInvert[..], 3)
    modifies toInvert
    ensures PackedTo(f, n, r, z, g, us, toInvert[..], 3 + n)
  {
    hide Field.Red, FoldDenominator, RPower, HoldsSlot;
    var j := n;
    while j > 0
      invariant 0 <= j <= n
      invariant PackedTo(f, n, r, z, g, us, toInvert[..], 3 + (n - j))
    {
      FoldDenominatorValue(f, r, us, j - 1, rPows[j - 1]);
      Put(f, n, r, z, g, us, toInvert, 3 + (n - j), f.Add(f.Mul(rPows[j - 1], f.Sub(1, us[j - 1])), us[j - 1]));
      j := j - 1;
    }
  }

  method FillPairs(f: Field, n: nat, r: int, z: int, g: int, us: seq<int>, rPows: seq<int>, toInvert: array<int>)
    requires 0 < n <= |us| && |rPows| == n
    requires forall i :: 0 <= i < n ==> f.Eq(rPows[i], RPower(r, i))
    requires PackedTo(f, n, r, z, g, us, toInvert[..], 3 + n)
    modifies toInvert
    ensures PackedTo(f, n, r, z, g, us, toInvert[..], 3 * n + 1)
  {
    hide Field.Red, FoldDenominator, RPower, HoldsSlot;
    for k := 1 to n
      invariant PackedTo(f, n, r, z, g, us, toInvert[..], 3 + n + 2 * (k - 1))
    {
      var at := 3 + n + 2 * (k - 1);
      PairSlots(n, k);
      Ops(f, z, z, rPows[k], RPower(r, k));
      Put(f, n, r, z, g, us, toInvert, at, f.Sub(z, rPows[k]));
      Put(f, n, r, z, g, us, toInvert, at + 1, f.Add(z, rPows[k]));
    }
  }

  lemma PairSlots(n: nat, k: nat)
    requires 1 <= k < n
    ensures SlotAt(n, 3 + n + 2 * (k - 1)) == Pos(k) && SlotAt(n, 3 + n + 2 * (k - 1) + 1) == Neg(k)
  {
    assert (2 * (k - 1)) / 2 == k - 1 && (2 * (k - 1) + 1) / 2 == k - 1;
  }

  lemma FoldDenominatorValue(f: Field, r: int, us: seq<int>, j: nat, x: int)
    requires j < |us| && f.Eq(x, RPower(r, j))
    ensures f.Eq(f.Add(f.Mul(x, f.Sub(1, us[j])), us[j]), FoldDenominator(r, us, j))
  {
    hide Field.Red, RPower;
    RedEq(f, 1 - us[j]);
    Ops(f, x, RPower(r, j), f.Sub(1, us[j]), 1 - us[j]);
    Ops(f, f.Mul(x, f.Sub(1, us[j])), RPower(r, j) * (1 - us[j]), us[j], us[j]);
  }

  /** `inverted` answers every slot with the inverse of its denominator. */
  ghost predicate Answers(f: Field, n: nat, r: int, z: int, g: int, us: seq<int>, inverted: seq<int>)
    requires 0 < n <= |us|
  {
    |inverted| == BatchSize(n) && f.HasAll(inverted) &&
    forall s :: Valid(n, s) ==> AnswersSlot(f, n, r, z, g, us, inverted, s)
  }

  ghost predicate AnswersSlot(f: Field, n: nat, r: int, z: int, g: int, us: seq<int>, inverted: seq<int>, s: Slot)
    requires 0 < n <= |us| && |inverted| == BatchSize(n) && Valid(n, s)
  {
    LayoutBijective(n);
    f.Eq(Denominator(r, z, g, us, s) * inverted[SlotIndex(n, s)], 1)
  }

  /** Some denominator is zero. */
  ghost predicate ZeroDenominator(f: Field, n: nat, r: int, z: int, g: int, us: seq<int>)
    requires n <= |us|
  {
    exists s :: Valid(n, s) && f.Eq(Denominator(r, z, g, us, s), 0)
  }

  /** Reading the inverted array through the layout gives the inverse of each denominator. */
  lemma ReadBack(f: Field, n: nat, r: int, z: int, g: int, us: seq<int>, den: seq<int>, inverted: seq<int>)
    requires 0 < n <= |us| && Packed(f, n, r, z, g, us, den) && Inverts(f, den, inverted)
    ensures Answers(f, n, r, z, g, us, inverted)
  {
    hide Field.Red, FoldDenominator, RPower;
    LayoutBijective(n);
    forall s | Valid(n, s) ensures AnswersSlot(f, n, r, z, g, us, inverted, s) {
      var t := SlotIndex(n, s);
      assert HoldsSlot(f, n, r, z, g, us, den, t);
      EqMul(f, den[t], Denominator(r, z, g, us, s), inverted[t], inverted[t]);
    }
  }

  lemma ZeroSomewhere(f: Field, n: nat, r: int, z: int, g: int, us: seq<int>, den: seq<int>)
    requires 0 < n <= |us| && Packed(f, n, r, z, g, us, den)
    ensures AllNonzero(f, den) <==> !ZeroDenominator(f, n, r, z, g, us)
  {
    hide Field.Red, FoldDenominator, RPower;
    LayoutBijective(n);
    if AllNonzero(f, den) {
      forall s | Valid(n, s) ensures !f.Eq(Denominator(r, z, g, us, s), 0) {
        assert HoldsSlot(f, n, r, z, g, us, den, SlotIndex(n, s));
      }
    } else {
      var t :| 0 <= t < |den| && f.Eq(den[t], 0);
      assert HoldsSlot(f, n, r, z, g, us, den, t);
      assert Valid(n, SlotAt(n, t));
    }
  }
}
