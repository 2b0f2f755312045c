/**
 The Libra subgroup check of shplemini.rs: evaluating, from inverted denominators,
 a polynomial given by its values on a multiplicative subgroup.
 */
module Libra {
  import opened PrimeFields
  import opened Polynomials
  import opened BatchInversion

  const SUBGROUP_SIZE: nat := 256
  const LINES: nat := 9
  const ROUNDS: nat := 28
  const SUBGROUP_GENERATOR: int := 0x07b0c561a6148404f086204a9f36ffb0617942546750f230c893619174a57a76
  const SUBGROUP_GENERATOR_INVERSE: int := 0x204bd3277422fad364751ad938e2b5e6a54cf8c68712848a692c553d0329f5d6

  // ---- Powers ----

  lemma {:induction false} IntPowMul(a: int, m: nat, n: nat)
    ensures IntPow(a, m * n) == IntPow(IntPow(a, m), n)
  {
    if n > 0 {
      IntPowMul(a, m, n - 1);
      assert m * n == m + m * (n - 1);
      IntPowAdd(a, m, m * (n - 1));
    }
  }

  lemma {:induction false} IntPowProduct(a: int, b: int, n: nat)
    ensures IntPow(a * b, n) == IntPow(a, n) * IntPow(b, n)
  {
    if n > 0 {
      IntPowProduct(a, b, n - 1);
      Reorder(a, b, IntPow(a, n - 1), IntPow(b, n - 1));
    }
  }

  lemma Reorder(a: int, b: int, x: int, y: int)
    ensures a * b * (x * y) == a * x * (b * y)
  {
  }

  lemma {:induction false} IntPowOne(n: nat)
    ensures IntPow(1, n) == 1
  {
    if n > 0 { IntPowOne(n - 1); }
  }

  lemma {:induction false} OddPowerOfMinusOne(n: nat)
    requires n % 2 == 1
    ensures IntPow(-1, n) == -1
  {
    if n > 1 {
      OddPowerOfMinusOne(n - 2);
      assert IntPow(-1, n) == -1 * (-1 * IntPow(-1, n - 2));
    }
  }

  // ---- The order of the generator ----

  ghost predicate IsPow2(s: nat)
  {
    s == 1 || (s > 1 && s % 2 == 0 && IsPow2(s / 2))
  }

  /** `w` has order exactly `n`. */
  ghost predicate HasOrder(f: Field, w: int, n: nat) {
    n > 0 && f.Eq(IntPow(w, n), 1) && forall d :: 0 < d < n ==> !f.Eq(IntPow(w, d), 1)
  }

  /** If w^s = -1 with s a power of two, no smaller positive power than 2 s is 1. */
  lemma {:induction false} NoSmallerPower(f: Field, w: int, s: nat, d: nat)
    requires f.p > 2 && IsPow2(s) && f.Eq(IntPow(w, s), -1) && 0 < d < 2 * s
    ensures !f.Eq(IntPow(w, d), 1)
    decreases s
  {
    hide Field.Red, IntPow;
    SmallDistinct(f, -1, 1);
    if d % 2 == 0 {
      IntPowMul(w, 2, d / 2);
      IntPowMul(w, 2, s / 2);
      assert 2 * (d / 2) == d && 2 * (s / 2) == s;
      NoSmallerPower(f, IntPow(w, 2), s / 2, d / 2);
    } else if f.Eq(IntPow(w, d), 1) {
      IntPowMul(w, d, s);
      IntPowMul(w, s, d);
      assert d * s == s * d;
      EqPow(f, IntPow(w, d), 1, s);
      IntPowOne(s);
      EqPow(f, IntPow(w, s), -1, d);
      OddPowerOfMinusOne(d);
    }
  }

  lemma SquareStep(f: Field, x: int, k: nat, v: int, next: int)
    requires f.Eq(IntPow(x, k), v) && f.Eq(v * v, next)
    ensures f.Eq(IntPow(x, 2 * k), next)
  {
    hide Field.Red;
    IntPowAdd(x, k, k);
    EqMul(f, IntPow(x, k), v, IntPow(x, k), v);
  }

  lemma ByRemainder(f: Field, a: int, b: int)
    requires f.Has(b) && a % f.p == b
    ensures f.Eq(a, b)
  {
    RedCanonical(f, b);
  }

  /** The stored generator has order 256 in the BN254 scalar field and the stored inverse inverts it. */
  lemma StoredGenerator(f: PrimeField)
    requires f.p == BN254_R
    ensures HasOrder(f, SUBGROUP_GENERATOR, SUBGROUP_SIZE)
    ensures f.Eq(SUBGROUP_GENERATOR * SUBGROUP_GENERATOR_INVERSE, 1)
  {
    hide Field.Red, IsPrime, IntPow;
    var w := SUBGROUP_GENERATOR;
    ByRemainder(f, SUBGROUP_GENERATOR * SUBGROUP_GENERATOR_INVERSE, 1);
    var w2 := 0x16e73dfdad310991df5ce19ce85943e01dcb5564b6f24c799d0e470cba9d1811;
    var w4 := 0x1418144d5b080fcac24cdb7649bdadf246a6cb2426e324bedb94fb05118f023a;
    var w8 := 0x9c532c6306b93d29678200d47c0b2a99c18d51b838eeb1d3eed4c533bb512d0;
    var w16 := 0x21082ca216cbbf4e1c6e4f4594dd508c996dfbe1174efb98b11509c6e306460b;
    var w32 := 0x2b337de1c8c14f22ec9b9e2f96afef3652627366f8170a0a948dad4ac1bd5e80;
    var w64 := 0x30644e72e131a029048b6e193fd841045cea24f6fd736bec231204708f703636;
    var w128 := BN254_R - 1;
    PowOne(w);
    ByRemainder(f, w * w, w2);
    SquareStep(f, w, 1, w, w2);
    ByRemainder(f, w2 * w2, w4);
    SquareStep(f, w, 2, w2, w4);
    ByRemainder(f, w4 * w4, w8);
    SquareStep(f, w, 4, w4, w8);
    ByRemainder(f, w8 * w8, w16);
    SquareStep(f, w, 8, w8, w16);
    ByRemainder(f, w16 * w16, w32);
    SquareStep(f, w, 16, w16, w32);
    ByRemainder(f, w32 * w32, w64);
    SquareStep(f, w, 32, w32, w64);
    ByRemainder(f, w64 * w64, w128);
    SquareStep(f, w, 64, w64, w128);
    ByRemainder(f, w128 * w128, 1);
    SquareStep(f, w, 128, w128, 1);
    EqByMultiple(f, w128, -1, 1);
    OneTwentyEight();
    forall d | 0 < d < 256 ensures !f.Eq(IntPow(w, d), 1) {
      NoSmallerPower(f, w, 128, d);
    }
  }

  lemma PowOne(w: int)
    ensures IntPow(w, 1) == w
  {
    assert IntPow(w, 1) == w * IntPow(w, 0);
  }

  lemma OneTwentyEight()
    ensures IsPow2(128)
  {
    assert IsPow2(4) && IsPow2(16) && IsPow2(64);
  }

  // ---- The subgroup ----

  /** 1, w, w^2, ..., w^(n-1). */
  function Subgroup(w: int, n: nat): (s: seq<int>)
    ensures |s| == n
    ensures forall i :: 0 <= i < n ==> s[i] == IntPow(w, i)
  {
    seq(n, i requires i >= 0 => IntPow(w, i))
  }

  lemma SubgroupDistinct(f: PrimeField, w: int, n: nat)
    requires HasOrder(f, w, n)
    ensures Distinct(f, Subgroup(w, n))
  {
    hide Field.Red, IsPrime, IntPow;
    var s := Subgroup(w, n);
    forall i, j | 0 <= i < j < n ensures !f.Eq(s[i], s[j]) {
      PowersDiffer(f, w, n, i, j);
    }
  }

  lemma PowerNonzero(f: PrimeField, w: int, n: nat, i: nat)
    requires HasOrder(f, w, n)
    ensures !f.Eq(IntPow(w, i), 0)
  {
    hide Field.Red, IsPrime;
    SmallDistinct(f, 1, 0);
    if f.Eq(w, 0) {
      EqMul(f, w, 0, IntPow(w, n - 1), IntPow(w, n - 1));
    }
    PowerOfNonzero(f, w, i);
  }

  lemma {:induction false} PowerOfNonzero(f: PrimeField, w: int, i: nat)
    requires !f.Eq(w, 0)
    ensures !f.Eq(IntPow(w, i), 0)
  {
    hide Field.Red, IsPrime;
    if i == 0 {
      SmallDistinct(f, 1, 0);
    } else {
      PowerOfNonzero(f, w, i - 1);
      NoZeroDivisors(f, w, IntPow(w, i - 1));
    }
  }

  lemma PowersDiffer(f: PrimeField, w: int, n: nat, i: nat, j: nat)
    requires HasOrder(f, w, n) && i < j < n
    ensures !f.Eq(IntPow(w, i), IntPow(w, j))
  {
    hide Field.Red, IsPrime, IntPow;
    if f.Eq(IntPow(w, i), IntPow(w, j)) {
      IntPowAdd(w, i, j - i);
      assert i + (j - i) == j;
      PowerNonzero(f, w, n, i);
      assert IntPow(w, i) * 1 == IntPow(w, i);
      Cancel(f, IntPow(w, i), IntPow(w, j - i), 1);
    }
  }

  /** The powers of an inverse are the inverses of the powers. */
  lemma InversePowers(f: Field, w: int, winv: int, i: nat)
    requires f.Eq(w * winv, 1)
    ensures f.Eq(IntPow(w, i) * IntPow(winv, i), 1)
  {
    hide Field.Red, IntPow;
    IntPowProduct(w, winv, i);
    EqPow(f, w * winv, 1, i);
    IntPowOne(i);
  }

  /** winv^i x = 1 only for x = w^i. */
  lemma UnitProduct(f: PrimeField, w: int, winv: int, i: nat, x: int)
    requires f.Eq(w * winv, 1)
    ensures f.Eq(IntPow(winv, i) * x, 1) <==> f.Eq(x, IntPow(w, i))
  {
    hide Field.Red, IsPrime, IntPow;
    var a, b := IntPow(w, i), IntPow(winv, i);
    InversePowers(f, w, winv, i);
    if f.Eq(b * x, 1) {
      EqMul(f, a, a, b * x, 1);
      EqMul(f, a * b, 1, x, x);
      assert a * (b * x) == a * b * x;
    }
    if f.Eq(x, a) {
      EqMul(f, x, a, b, b);
      assert x * b == b * x;
    }
  }

  // ---- Geometric sums ----

  /** 1 + y + ... + y^(n-1). */
  function Geo(y: int, n: nat): int {
    if n == 0 then 0 else 1 + y * Geo(y, n - 1)
  }

  lemma {:induction false} GeoClosed(y: int, n: nat)
    ensures (y - 1) * Geo(y, n) == IntPow(y, n) - 1
  {
    if n > 0 {
      GeoClosed(y, n - 1);
      GeoStep(y, Geo(y, n - 1), IntPow(y, n - 1));
    }
  }

  lemma GeoStep(y: int, g: int, p: int)
    requires (y - 1) * g == p - 1
    ensures (y - 1) * (1 + y * g) == y * p - 1
  {
    assert (y - 1) * (1 + y * g) == y - 1 + y * ((y - 1) * g);
  }

  lemma {:induction false} EqGeo(f: Field, y: int, z: int, n: nat)
    requires f.Eq(y, z)
    ensures f.Eq(Geo(y, n), Geo(z, n))
  {
    hide Field.Red;
    if n > 0 {
      EqGeo(f, y, z, n - 1);
      EqMul(f, y, z, Geo(y, n - 1), Geo(z, n - 1));
      EqAdd(f, 1, 1, y * Geo(y, n - 1), z * Geo(z, n - 1));
    }
  }

  lemma {:induction false} GeoAtOne(n: nat)
    ensures Geo(1, n) == n
  {
    if n > 0 { GeoAtOne(n - 1); }
  }

  /** The coefficients k, k a, k a^2, ... of `X -> k * Geo(a X, n)`. */
  function GeoPoly(k: int, a: int, n: nat): (c: seq<int>)
    ensures |c| == n
    decreases n
  {
    if n == 0 then [] else [k] + GeoPoly(k * a, a, n - 1)
  }

  lemma {:induction false} EvalGeoPoly(k: int, a: int, n: nat, x: int)
    ensures Eval(GeoPoly(k, a, n), x) == k * Geo(a * x, n)
    decreases n
  {
    if n > 0 {
      EvalGeoPoly(k * a, a, n - 1, x);
      var c := GeoPoly(k, a, n);
      assert c[1..] == GeoPoly(k * a, a, n - 1);
      GeoPolyStep(k, a, x, Geo(a * x, n - 1));
    }
  }

  lemma GeoPolyStep(k: int, a: int, x: int, g: int)
    ensures k + x * (k * a * g) == k * (1 + a * x * g)
  {
  }

  // ---- Interpolation on the subgroup ----

  /** The first `m` terms of the interpolant of `values` on the subgroup. */
  function DftSum(f: Field, values: seq<int>, winv: int, m: nat): (c: seq<int>)
    requires m <= |values|
    ensures |c| == if m == 0 then 0 else |values|
  {
    if m == 0 then []
    else
      Plus(DftSum(f, values, winv, m - 1),
           GeoPoly(values[m - 1] * f.Inv(|values|), IntPow(winv, m - 1), |values|))
  }

  function DftTerm(f: Field, values: seq<int>, winv: int, i: nat, x: int): int
    requires i < |values|
  {
    values[i] * f.Inv(|values|) * Geo(IntPow(winv, i) * x, |values|)
  }

  lemma DftStep(f: Field, values: seq<int>, winv: int, i: nat, x: int)
    requires i < |values|
    ensures Eval(DftSum(f, values, winv, i + 1), x)
         == Eval(DftSum(f, values, winv, i), x) + DftTerm(f, values, winv, i, x)
  {
    var k, a, n := values[i] * f.Inv(|values|), IntPow(winv, i), |values|;
    EvalPlus(DftSum(f, values, winv, i), GeoPoly(k, a, n), x);
    EvalGeoPoly(k, a, n, x);
  }

  /** On the subgroup only the term of the point itself survives. */
  lemma DftTermOnSubgroup(f: PrimeField, values: seq<int>, w: int, winv: int, i: nat, k: nat)
    requires HasOrder(f, w, |values|) && f.Eq(w * winv, 1) && !f.Eq(|values|, 0)
    requires i < |values| && k < |values|
    ensures f.Eq(DftTerm(f, values, winv, i, IntPow(w, k)), if i == k then values[i] else 0)
  {
    hide Field.Red, Field.Inv, IsPrime, IntPow, Geo;
    var n, y := |values|, IntPow(winv, i) * IntPow(w, k);
    UnitProduct(f, w, winv, i, IntPow(w, k));
    Inverse(f, n);
    var c := values[i] * f.Inv(n);
    if i == k {
      EqGeo(f, y, 1, n);
      GeoAtOne(n);
      EqMul(f, c, c, Geo(y, n), n);
      EqMul(f, values[i], values[i], n * f.Inv(n), 1);
      assert c * n == values[i] * (n * f.Inv(n));
    } else {
      if i < k { PowersDiffer(f, w, n, i, k); } else { PowersDiffer(f, w, n, k, i); }
      SubgroupPower(f, w, winv, i, k, n);
      GeoClosed(y, n);
      EqDifference(f, IntPow(y, n), 1);
      EqDifference(f, y, 1);
      NoZeroDivisors(f, y - 1, Geo(y, n));
      EqMul(f, c, c, Geo(y, n), 0);
    }
  }

  lemma SubgroupPower(f: Field, w: int, winv: int, i: nat, k: nat, n: nat)
    requires f.Eq(IntPow(w, n), 1) && f.Eq(w * winv, 1)
    ensures f.Eq(IntPow(IntPow(winv, i) * IntPow(w, k), n), 1)
  {
    hide Field.Red, IntPow;
    IntPowProduct(IntPow(winv, i), IntPow(w, k), n);
    PowerOfPower(f, w, k, n);
    InversePowers(f, w, winv, n);
    EqMul(f, IntPow(w, n), 1, IntPow(winv, n), IntPow(winv, n));
    PowerOfPower(f, winv, i, n);
    EqMul(f, IntPow(IntPow(winv, i), n), 1, IntPow(IntPow(w, k), n), 1);
  }

  lemma PowerOfPower(f: Field, w: int, k: nat, n: nat)
    requires f.Eq(IntPow(w, n), 1)
    ensures f.Eq(IntPow(IntPow(w, k), n), 1)
  {
    hide Field.Red, IntPow;
    IntPowMul(w, k, n);
    IntPowMul(w, n, k);
    assert k * n == n * k;
    EqPow(f, IntPow(w, n), 1, k);
    IntPowOne(k);
  }

  lemma {:induction false} DftValue(f: PrimeField, values: seq<int>, w: int, winv: int, m: nat, k: nat)
    requires HasOrder(f, w, |values|) && f.Eq(w * winv, 1) && !f.Eq(|values|, 0)
    requires m <= |values| && k < |values|
    ensures f.Eq(Eval(DftSum(f, values, winv, m), IntPow(w, k)), if k < m then values[k] else 0)
  {
    hide Field.Red, Field.Inv, IsPrime, IntPow, Geo;
    if m > 0 {
      var i, x := m - 1, IntPow(w, k);
      DftValue(f, values, w, winv, i, k);
      DftStep(f, values, winv, i, x);
      DftTermOnSubgroup(f, values, w, winv, i, k);
      EqAdd(f, Eval(DftSum(f, values, winv, i), x), if k < i then values[k] else 0,
            DftTerm(f, values, winv, i, x), if i == k then values[i] else 0);
    }
  }

  /** The polynomial of degree below |values| through the values on the subgroup. */
  function OnSubgroup(f: Field, w: int, values: seq<int>): (c: seq<int>)
    ensures |c| == |values|
  {
    Interpolant(f, Subgroup(w, |values|), values)
  }

  /** The values of the Lagrange basis polynomial of subgroup point `k`. */
  function Unit(k: nat): (s: seq<int>)
    ensures |s| == SUBGROUP_SIZE
  {
    seq(SUBGROUP_SIZE, i => if i == k then 1 else 0)
  }

  lemma DftIsInterpolant(f: PrimeField, values: seq<int>, w: int, winv: int, x: int)
    requires HasOrder(f, w, |values|) && f.Eq(w * winv, 1) && !f.Eq(|values|, 0)
    ensures f.Eq(Eval(DftSum(f, values, winv, |values|), x), Eval(OnSubgroup(f, w, values), x))
  {
    hide Field.Red, Field.Inv, IsPrime, IntPow, Eval, DftSum;
    var n := |values|;
    SubgroupDistinct(f, w, n);
    forall k | 0 <= k < n ensures f.Eq(Eval(DftSum(f, values, winv, n), Subgroup(w, n)[k]), values[k]) {
      DftValue(f, values, w, winv, n, k);
    }
    DftLength(f, values, winv);
    InterpolantUnique(f, Subgroup(w, n), values, DftSum(f, values, winv, n), x);
  }

  lemma DftLength(f: Field, values: seq<int>, winv: int)
    ensures |DftSum(f, values, winv, |values|)| == |values|
  {
  }

  // ---- The verifier's formula ----

  /** (r^n - 1) / n times the sum of v_i / (winv^i r - 1), over the first `m` points. */
  function WeightedSum(values: seq<int>, inverses: seq<int>, m: nat): int
    requires m <= |values| && m <= |inverses|
  {
    if m == 0 then 0 else WeightedSum(values, inverses, m - 1) + values[m - 1] * inverses[m - 1]
  }

  ghost predicate AreDenominators(f: Field, winv: int, r: int, denominators: seq<int>) {
    forall i :: 0 <= i < |denominators| ==> f.Eq(denominators[i], IntPow(winv, i) * r - 1)
  }

  /** One weighted inverse is one term of the interpolant. */
  lemma WeightedTerm(f: PrimeField, values: seq<int>, w: int, winv: int, r: int, i: nat, d: int, inv: int)
    requires HasOrder(f, w, |values|) && f.Eq(w * winv, 1) && i < |values|
    requires f.Eq(d, IntPow(winv, i) * r - 1) && f.Eq(d * inv, 1)
    ensures f.Eq((IntPow(r, |values|) - 1) * f.Inv(|values|) * (values[i] * inv), DftTerm(f, values, winv, i, r))
  {
    hide Field.Red, Field.Inv, IsPrime, IntPow, Geo;
    var n, y, g, k := |values|, IntPow(winv, i) * r, Geo(IntPow(winv, i) * r, |values|), f.Inv(|values|);
    GeoClosed(y, n);
    // y^n = r^n
    IntPowProduct(IntPow(winv, i), r, n);
    InversePowers(f, w, winv, n);
    EqMul(f, IntPow(w, n), 1, IntPow(winv, n), IntPow(winv, n));
    PowerOfPower(f, winv, i, n);
    EqMul(f, IntPow(IntPow(winv, i), n), 1, IntPow(r, n), IntPow(r, n));
    EqSub(f, IntPow(y, n), IntPow(r, n), 1, 1);
    // (r^n - 1) inv = g
    EqMul(f, (y - 1) * g, IntPow(r, n) - 1, inv, inv);
    EqMul(f, d, y - 1, inv, inv);
    EqMul(f, (y - 1) * inv, 1, g, g);
    assert (y - 1) * g * inv == (y - 1) * inv * g;
    EqMul(f, values[i] * k, values[i] * k, (IntPow(r, n) - 1) * inv, g);
    Regroup(IntPow(r, n) - 1, k, values[i], inv);
  }

  lemma Regroup(a: int, k: int, v: int, i: int)
    ensures a * k * (v * i) == v * k * (a * i)
  {
  }

  lemma {:induction false} WeightedSumValue(f: PrimeField, values: seq<int>, w: int, winv: int, r: int,
                                            denominators: seq<int>, inverses: seq<int>, m: nat)
    requires HasOrder(f, w, |values|) && f.Eq(w * winv, 1) && m <= |values| == |denominators|
    requires AreDenominators(f, winv, r, denominators) && Inverts(f, denominators, inverses)
    ensures f.Eq((IntPow(r, |values|) - 1) * f.Inv(|values|) * WeightedSum(values, inverses, m),
                 Eval(DftSum(f, values, winv, m), r))
  {
    hide Field.Red, Field.Inv, IsPrime, IntPow, HasOrder;
    if m > 0 {
      var i := m - 1;
      WeightedSumValue(f, values, w, winv, r, denominators, inverses, i);
      WeightedTerm(f, values, w, winv, r, i, denominators[i], inverses[i]);
      DftStep(f, values, winv, i, r);
      var c := (IntPow(r, |values|) - 1) * f.Inv(|values|);
      var s, t := WeightedSum(values, inverses, i), values[i] * inverses[i];
      assert c * (s + t) == c * s + c * t;
      EqAdd(f, c * s, Eval(DftSum(f, values, winv, i), r), c * t, DftTerm(f, values, winv, i, r));
    }
  }

  /** Subgroup evaluation: the weighted sum is the interpolant's value at `r`. */
  lemma SubgroupEvaluation(f: PrimeField, values: seq<int>, w: int, winv: int, r: int,
                           denominators: seq<int>, inverses: seq<int>)
    requires HasOrder(f, w, |values|) && f.Eq(w * winv, 1) && !f.Eq(|values|, 0) && |values| == |denominators|
    requires AreDenominators(f, winv, r, denominators) && Inverts(f, denominators, inverses)
    ensures f.Eq((IntPow(r, |values|) - 1) * f.Inv(|values|) * WeightedSum(values, inverses, |values|),
                 Eval(OnSubgroup(f, w, values), r))
  {
    hide Field.Red, Field.Inv, IsPrime, IntPow;
    WeightedSumValue(f, values, w, winv, r, denominators, inverses, |values|);
    DftIsInterpolant(f, values, w, winv, r);
  }

  /** Outside the subgroup no denominator is zero. */
  lemma DenominatorsNonzero(f: PrimeField, w: int, winv: int, n: nat, r: int, denominators: seq<int>)
    requires HasOrder(f, w, n) && f.Eq(w * winv, 1) && |denominators| == n
    requires AreDenominators(f, winv, r, denominators)
    requires !f.Eq(IntPow(r, n), 1)
    ensures AllNonzero(f, denominators)
  {
    hide Field.Red, IsPrime, IntPow;
    forall i | 0 <= i < n ensures !f.Eq(denominators[i], 0) {
      if f.Eq(denominators[i], 0) {
        EqDifference(f, IntPow(winv, i) * r, 1);
        UnitProduct(f, w, winv, i, r);
        EqPow(f, r, IntPow(w, i), n);
        PowerOfPower(f, w, i, n);
      }
    }
  }
}
