/**
 Completeness of the batch opening: with honest commitments the two pairing arguments cancel.

 A polynomial is committed to by its value at the secret point `tau`, times the generator.  The pairing check accepts
 (a, b) when a + tau b is zero.
 */
module Openings {
  import opened PrimeFields
  import opened Polynomials
  import opened Multilinear
  import opened Gemini
  import opened Inversions
  import opened Shplonk
  import Libra
  import LibraCheck
  import LibraProofs
  import Shplemini

  /** The setup: the secret point and the generator. */
  datatype Setup = Setup(tau: int, generator: int) {
    function Commit(p: seq<int>): int { Eval(p, tau) * generator }

    /** e(a, 1) e(b, tau) = 1. */
    ghost predicate Pairing(f: Field, a: int, b: int) { f.Eq(a + tau * b, 0) }
  }

  /** The claim is about polynomial `p`: its commitment, and its value at the point. */
  ghost predicate IsClaimOf(f: Field, s: Setup, k: Claim, p: seq<int>) {
    f.Eq(k.com, s.Commit(p)) && f.Eq(k.value, Eval(p, k.point))
  }

  ghost predicate AreClaimsOf(f: Field, s: Setup, cs: seq<Claim>, ps: seq<seq<int>>) {
    |ps| == |cs| && forall i :: 0 <= i < |cs| ==> IsClaimOf(f, s, cs[i], ps[i])
  }

  ghost predicate AllSound(f: Field, z: int, cs: seq<Claim>) { forall i :: 0 <= i < |cs| ==> Sound(f, z, cs[i]) }

  // ---- The two quotients ----

  /** The batched quotient: the sum of nu^e (P - v) / (X - x) over the claims. */
  function BatchQuotient(nu: int, cs: seq<Claim>, ps: seq<seq<int>>): seq<int>
    requires |ps| == |cs|
  {
    if cs == [] then []
    else
      var (n, k) := (|cs| - 1, cs[|cs| - 1]);
      Plus(BatchQuotient(nu, cs[..n], ps[..n]), Scale(IntPow(nu, k.exponent), Quotient(ps[n], k.point)))
  }

  /** The batched quotient less the sum of nu^e (P - v) / (z - x), which vanishes at z. */
  function Rest(nu: int, cs: seq<Claim>, ps: seq<seq<int>>): seq<int>
    requires |ps| == |cs|
  {
    if cs == [] then []
    else
      var (n, k) := (|cs| - 1, cs[|cs| - 1]);
      Plus(Rest(nu, cs[..n], ps[..n]),
           Scale(IntPow(nu, k.exponent), Minus(Quotient(ps[n], k.point), Scale(k.inverse, Minus(ps[n], [k.value])))))
  }

  /** The honest second quotient. */
  function FinalQuotient(nu: int, z: int, cs: seq<Claim>, ps: seq<seq<int>>): seq<int>
    requires |ps| == |cs|
  {
    Quotient(Rest(nu, cs, ps), z)
  }

  lemma EvalConstant(v: int, x: int)
    ensures Eval([v], x) == v
  {
    assert Eval([v][1..], x) == 0;
  }

  /** One claim's share of the rest at `x`, and of the batched quotient. */
  function Share(nu: int, k: Claim, p: seq<int>, x: int): int {
    QuotientShare(nu, k, p, x) - IntPow(nu, k.exponent) * k.inverse * (Eval(p, x) - k.value)
  }

  function QuotientShare(nu: int, k: Claim, p: seq<int>, x: int): int {
    IntPow(nu, k.exponent) * Eval(Quotient(p, k.point), x)
  }

  lemma EvalScaledRest(w: int, q: seq<int>, i: int, p: seq<int>, v: int, x: int)
    ensures Eval(Scale(w, Minus(q, Scale(i, Minus(p, [v])))), x) == w * Eval(q, x) - w * i * (Eval(p, x) - v)
  {
    hide Eval, Minus, Scale;
    EvalScale(w, Minus(q, Scale(i, Minus(p, [v]))), x);
    EvalMinus(q, Scale(i, Minus(p, [v])), x);
    EvalScale(i, Minus(p, [v]), x);
    EvalMinus(p, [v], x);
    EvalConstant(v, x);
    var d := Eval(p, x) - v;
    assert w * (Eval(q, x) - i * d) == w * Eval(q, x) - w * i * d;
  }

  lemma RestStep(nu: int, cs: seq<Claim>, ps: seq<seq<int>>, x: int)
    requires |ps| == |cs| && cs != []
    ensures var n := |cs| - 1;
      Eval(Rest(nu, cs, ps), x) == Eval(Rest(nu, cs[..n], ps[..n]), x) + Share(nu, cs[n], ps[n], x)
  {
    hide Eval, Quotient, IntPow, Plus, Scale, Minus;
    var (n, k) := (|cs| - 1, cs[|cs| - 1]);
    var (w, q) := (IntPow(nu, k.exponent), Quotient(ps[n], k.point));
    EvalPlus(Rest(nu, cs[..n], ps[..n]), Scale(w, Minus(q, Scale(k.inverse, Minus(ps[n], [k.value])))), x);
    EvalScaledRest(w, q, k.inverse, ps[n], k.value, x);
  }

  lemma QuotientStep(nu: int, cs: seq<Claim>, ps: seq<seq<int>>, x: int)
    requires |ps| == |cs| && cs != []
    ensures var n := |cs| - 1;
      Eval(BatchQuotient(nu, cs, ps), x) == Eval(BatchQuotient(nu, cs[..n], ps[..n]), x) + QuotientShare(nu, cs[n], ps[n], x)
  {
    hide Eval, Quotient, IntPow, Plus, Scale;
    var (n, k) := (|cs| - 1, cs[|cs| - 1]);
    var (w, q) := (IntPow(nu, k.exponent), Quotient(ps[n], k.point));
    EvalPlus(BatchQuotient(nu, cs[..n], ps[..n]), Scale(w, q), x);
    EvalScale(w, q, x);
  }

  lemma EvalNothing(x: int)
    ensures Eval([], x) == 0
  {
  }

  /** A true claim's share of the rest vanishes at z. */
  lemma ShareAtZ(f: Field, s: Setup, nu: int, k: Claim, p: seq<int>, z: int)
    requires IsClaimOf(f, s, k, p) && Sound(f, z, k)
    ensures f.Eq(Share(nu, k, p, z), 0)
  {
    hide Field.Red, Eval, Quotient, IntPow;
    var (q, e, w) := (Eval(Quotient(p, k.point), z), Eval(p, k.point), IntPow(nu, k.exponent));
    DivisionIdentity(p, k.point, z);
    EqSub(f, Eval(p, z), Eval(p, z), k.value, e);
    EqMul(f, w * k.inverse, w * k.inverse, Eval(p, z) - k.value, (z - k.point) * q);
    EqMul(f, (z - k.point) * k.inverse, 1, w * q, w * q);
    Rearrange(w, k.inverse, z - k.point, q);
    EqSub(f, w * q, w * q, w * k.inverse * (Eval(p, z) - k.value), w * q);
  }

  lemma Rearrange(w: int, i: int, d: int, q: int)
    ensures w * i * (d * q) == d * i * (w * q)
  {
  }

  lemma {:induction false} RestAtZ(f: Field, s: Setup, nu: int, cs: seq<Claim>, ps: seq<seq<int>>, z: int)
    requires AreClaimsOf(f, s, cs, ps) && AllSound(f, z, cs)
    ensures f.Eq(Eval(Rest(nu, cs, ps), z), 0)
  {
    hide Field.Red, Eval, Share, IsClaimOf, Sound;
    if cs == [] {
      EvalNothing(z);
    } else {
      var n := |cs| - 1;
      RestAtZ(f, s, nu, cs[..n], ps[..n], z);
      RestStep(nu, cs, ps, z);
      ShareAtZ(f, s, nu, cs[n], ps[n], z);
      EqAdd(f, Eval(Rest(nu, cs[..n], ps[..n]), z), 0, Share(nu, cs[n], ps[n], z), 0);
    }
  }

  /** The claim's term of the claim sum. */
  function ClaimTerm(nu: int, g: int, k: Claim): int { IntPow(nu, k.exponent) * k.inverse * (k.com - k.value * g) }

  lemma ShareAtTau(f: Field, s: Setup, nu: int, k: Claim, p: seq<int>)
    requires f.Eq(k.com, s.Commit(p))
    ensures f.Eq(Share(nu, k, p, s.tau) * s.generator,
                 QuotientShare(nu, k, p, s.tau) * s.generator - ClaimTerm(nu, s.generator, k))
  {
    hide Field.Red, Eval, Quotient, IntPow, QuotientShare;
    var (e, g, i, q) := (Eval(p, s.tau), s.generator, IntPow(nu, k.exponent) * k.inverse, QuotientShare(nu, k, p, s.tau));
    EqSub(f, k.com, e * g, k.value * g, k.value * g);
    EqMul(f, i, i, k.com - k.value * g, e * g - k.value * g);
    EqSub(f, q * g, q * g, ClaimTerm(nu, g, k), i * (e * g - k.value * g));
    Factor(q, i, e, k.value, g);
  }

  lemma Factor(q: int, i: int, e: int, v: int, g: int)
    ensures (q - i * (e - v)) * g == q * g - i * (e * g - v * g)
  {
    var d := e - v;
    assert d * g == e * g - v * g;
    assert i * d * g == i * (d * g);
  }

  lemma NoRest(nu: int, ps: seq<seq<int>>, x: int)
    requires ps == []
    ensures Eval(Rest(nu, [], ps), x) == 0 && Eval(BatchQuotient(nu, [], ps), x) == 0
  {
  }

  /** The committed rest is the committed quotient less the claim sum. */
  lemma {:induction false} RestAtTau(f: Field, s: Setup, nu: int, cs: seq<Claim>, ps: seq<seq<int>>)
    requires AreClaimsOf(f, s, cs, ps)
    ensures f.Eq(s.Commit(Rest(nu, cs, ps)), s.Commit(BatchQuotient(nu, cs, ps)) - ClaimSum(nu, s.generator, cs))
  {
    hide Field.Red, Eval, Share, QuotientShare, Rest, BatchQuotient, IntPow;
    var (n, g) := (|cs| - 1, s.generator);
    if cs == [] {
      NoRest(nu, ps, s.tau);
    } else {
      RestAtTau(f, s, nu, cs[..n], ps[..n]);
      RestStep(nu, cs, ps, s.tau);
      QuotientStep(nu, cs, ps, s.tau);
      assert IsClaimOf(f, s, cs[n], ps[n]);
      ShareAtTau(f, s, nu, cs[n], ps[n]);
      Collected(f, Eval(Rest(nu, cs[..n], ps[..n]), s.tau), Eval(BatchQuotient(nu, cs[..n], ps[..n]), s.tau),
                Share(nu, cs[n], ps[n], s.tau), QuotientShare(nu, cs[n], ps[n], s.tau), g,
                ClaimSum(nu, g, cs[..n]), ClaimTerm(nu, g, cs[n]));
    }
  }

  lemma Collected(f: Field, rest: int, quotient: int, share: int, part: int, g: int, sum: int, term: int)
    requires f.Eq(rest * g, quotient * g - sum) && f.Eq(share * g, part * g - term)
    ensures f.Eq((rest + share) * g, (quotient + part) * g - (sum + term))
  {
    hide Field.Red;
    EqAdd(f, rest * g, quotient * g - sum, share * g, part * g - term);
    Distributed(rest, share, g);
    Distributed(quotient, part, g);
  }

  lemma Distributed(a: int, b: int, g: int)
    ensures (a + b) * g == a * g + b * g
  {
  }

  /** The honest quotients: Q commits to the batched quotient, W to the rest divided by X - z. */
  ghost predicate HonestQuotients(f: Field, s: Setup, nu: int, z: int, cs: seq<Claim>, ps: seq<seq<int>>, q: int, w: int)
    requires |ps| == |cs|
  {
    f.Eq(q, s.Commit(BatchQuotient(nu, cs, ps))) && f.Eq(w, s.Commit(FinalQuotient(nu, z, cs, ps)))
  }

  /** If every claim is true of the committed polynomial, the first pairing argument is tau times W. */
  lemma ClaimsOpen(f: Field, s: Setup, nu: int, z: int, cs: seq<Claim>, ps: seq<seq<int>>, q: int, w: int)
    requires |ps| == |cs| && AreClaimsOf(f, s, cs, ps) && AllSound(f, z, cs) && HonestQuotients(f, s, nu, z, cs, ps, q, w)
    ensures f.Eq(q + z * w - ClaimSum(nu, s.generator, cs), s.tau * w)
  {
    hide Field.Red, Eval, Quotient, Rest, BatchQuotient, AreClaimsOf, AllSound, ClaimSum;
    var (rest, g, sum) := (Rest(nu, cs, ps), s.generator, ClaimSum(nu, s.generator, cs));
    var d := Eval(FinalQuotient(nu, z, cs, ps), s.tau);
    RestAtZ(f, s, nu, cs, ps, z);
    RestAtTau(f, s, nu, cs, ps);
    DivisionIdentity(rest, z, s.tau);
    EqAdd(f, Eval(rest, z), 0, (s.tau - z) * d, (s.tau - z) * d);
    EqMul(f, Eval(rest, s.tau), (s.tau - z) * d, g, g);
    EqMul(f, s.tau - z, s.tau - z, w, d * g);
    assert (s.tau - z) * d * g == (s.tau - z) * (d * g);
    EqSub(f, q, s.Commit(BatchQuotient(nu, cs, ps)), sum, sum);
    EqAdd(f, q - sum, (s.tau - z) * w, z * w, z * w);
    assert (s.tau - z) * w + z * w == s.tau * w;
  }

  // ---- The honest prover ----

  /** `a` plus `k` times `b`, entry by entry. */
  function AddScaled(a: seq<int>, k: int, b: seq<int>): (r: seq<int>)
    requires |a| == |b|
    ensures |r| == |a|
  {
    if a == [] then [] else [a[0] + k * b[0]] + AddScaled(a[1..], k, b[1..])
  }

  lemma {:induction false} EvalAddScaled(a: seq<int>, k: int, b: seq<int>, x: int)
    requires |a| == |b|
    ensures Eval(AddScaled(a, k, b), x) == Eval(a, x) + k * Eval(b, x)
  {
    if a != [] {
      EvalAddScaled(a[1..], k, b[1..], x);
      assert AddScaled(a, k, b)[1..] == AddScaled(a[1..], k, b[1..]);
      ScaledStep(a[0], b[0], k, x, Eval(a[1..], x), Eval(b[1..], x));
    }
  }

  lemma ScaledStep(a: int, b: int, k: int, x: int, d: int, e: int)
    ensures (a + k * b) + x * (d + k * e) == (a + x * d) + k * (b + x * e)
  {
    assert x * (k * e) == k * (x * e);
  }

  lemma {:induction false} AddScaledAt(a: seq<int>, k: int, b: seq<int>, i: nat)
    requires |a| == |b| && i < |a|
    ensures AddScaled(a, k, b)[i] == a[i] + k * b[i]
  {
    if i > 0 { AddScaledAt(a[1..], k, b[1..], i - 1); }
  }

  lemma {:induction false} MleSumAddScaled(a: seq<int>, k: int, b: seq<int>, us: seq<int>, n: nat)
    requires |a| == |b| && n <= |a|
    ensures MleSum(AddScaled(a, k, b), us, n) == MleSum(a, us, n) + k * MleSum(b, us, n)
  {
    if n > 0 {
      MleSumAddScaled(a, k, b, us, n - 1);
      AddScaledAt(a, k, b, n - 1);
      WeightedStep(MleSum(a, us, n - 1), MleSum(b, us, n - 1), k, a[n - 1], b[n - 1], EqWeight(n - 1, us));
    }
  }

  lemma WeightedStep(m: int, l: int, k: int, a: int, b: int, w: int)
    ensures (m + k * l) + (a + k * b) * w == (m + a * w) + k * (l + b * w)
  {
    assert (a + k * b) * w == a * w + k * (b * w);
  }

  /** What the prover committed to: the hiding polynomial, the 35 entities, and the three Libra polynomials. */
  datatype Secrets = Secrets(hiding: seq<int>, polys: seq<seq<int>>, libra: seq<seq<int>>)

  /** Tables of 2^n entries; the five wires that are also opened shifted have constant term zero. */
  ghost predicate Proper(f: Field, p: Secrets, n: nat) {
    && Shape(p, n) && |p.libra| == 3
    && (forall i :: 27 <= i < 32 ==> f.Eq(p.polys[i][0], 0))
  }

  /** The polynomial entity `i` is committed by: the shifted entities share the commitment of their wire. */
  function PolyOf(p: Secrets, i: nat): seq<int>
    requires |p.polys| == UNSHIFTED && i < ENTITIES
  {
    p.polys[if i < UNSHIFTED then i else i - 8]
  }

  /** The table entity `i` is evaluated from. */
  function TableOf(p: Secrets, i: nat): seq<int>
    requires |p.polys| == UNSHIFTED && i < ENTITIES && |PolyOf(p, i)| > 0
  {
    if i < UNSHIFTED then PolyOf(p, i) else PolyOf(p, i)[1..] + [0]
  }

  lemma {:induction false} EvalPadded(c: seq<int>, x: int)
    ensures Eval(c + [0], x) == Eval(c, x)
  {
    if c == [] {
      EvalConstant(0, x);
      assert c + [0] == [0];
    } else {
      EvalPadded(c[1..], x);
      assert (c + [0])[1..] == c[1..] + [0];
    }
  }

  /** The batched table A_0 after the first `m` entities. */
  function BatchTable(p: Secrets, n: nat, rho: int, m: nat): (t: seq<int>)
    requires Shape(p, n) && m <= ENTITIES
    ensures |t| == Pow2(n)
  {
    if m == 0 then p.hiding else AddScaled(BatchTable(p, n, rho, m - 1), IntPow(rho, m), TableOf(p, m - 1))
  }

  predicate Shape(p: Secrets, n: nat) {
    |p.hiding| == Pow2(n) && |p.polys| == UNSHIFTED && forall i :: 0 <= i < UNSHIFTED ==> |p.polys[i]| == Pow2(n)
  }

  /** Entities [from, to) batched by powers of rho, as the verifier batches their commitments. */
  function BatchPoly(p: Secrets, n: nat, rho: int, from: nat, to: nat): (t: seq<int>)
    requires Shape(p, n) && from <= to <= ENTITIES
    ensures |t| == Pow2(n)
  {
    if from == to then Zeros(Pow2(n)) else AddScaled(BatchPoly(p, n, rho, from, to - 1), IntPow(rho, to), PolyOf(p, to - 1))
  }

  function Zeros(n: nat): (t: seq<int>)
    ensures |t| == n
  {
    if n == 0 then [] else [0] + Zeros(n - 1)
  }

  lemma {:induction false} EvalZeros(n: nat, x: int)
    ensures Eval(Zeros(n), x) == 0
  {
    if n > 0 {
      EvalZeros(n - 1, x);
      assert Zeros(n)[1..] == Zeros(n - 1);
    }
  }

  /** The polynomial behind the commitment of claims 0 and 1. */
  function Combined(p: Secrets, n: nat, rho: int, inverse: int): (t: seq<int>)
    requires Shape(p, n)
    ensures |t| == Pow2(n)
  {
    AddScaled(AddScaled(p.hiding, 1, BatchPoly(p, n, rho, 0, UNSHIFTED)), inverse, BatchPoly(p, n, rho, UNSHIFTED, ENTITIES))
  }

  lemma EvalCombined(p: Secrets, n: nat, rho: int, inverse: int, x: int)
    requires Shape(p, n)
    ensures Eval(Combined(p, n, rho, inverse), x)
      == Eval(p.hiding, x) + Eval(BatchPoly(p, n, rho, 0, UNSHIFTED), x) + inverse * Eval(BatchPoly(p, n, rho, UNSHIFTED, ENTITIES), x)
  {
    hide Eval, BatchPoly, AddScaled;
    EvalAddScaled(p.hiding, 1, BatchPoly(p, n, rho, 0, UNSHIFTED), x);
    EvalAddScaled(AddScaled(p.hiding, 1, BatchPoly(p, n, rho, 0, UNSHIFTED)), inverse, BatchPoly(p, n, rho, UNSHIFTED, ENTITIES), x);
  }

  /** At a point with the given inverse the combined polynomial takes the value of the batched table. */
  lemma CombinedValue(f: Field, p: Secrets, n: nat, rho: int, inverse: int, x: int)
    requires Proper(f, p, n) && f.Eq(x * inverse, 1)
    ensures f.Eq(Eval(Combined(p, n, rho, inverse), x), Eval(BatchTable(p, n, rho, ENTITIES), x))
  {
    hide Field.Red, Eval, BatchTable, BatchPoly, Combined;
    EvalCombined(p, n, rho, inverse, x);
    UnshiftedValue(p, n, rho, UNSHIFTED, x);
    ShiftedValue(f, p, n, rho, inverse, x, ENTITIES);
  }

  lemma {:induction false} UnshiftedValue(p: Secrets, n: nat, rho: int, m: nat, x: int)
    requires Shape(p, n) && m <= UNSHIFTED
    ensures Eval(BatchTable(p, n, rho, m), x) == Eval(p.hiding, x) + Eval(BatchPoly(p, n, rho, 0, m), x)
  {
    hide Eval, AddScaled, IntPow;
    if m == 0 {
      EvalZeros(Pow2(n), x);
    } else {
      UnshiftedValue(p, n, rho, m - 1, x);
      EvalAddScaled(BatchTable(p, n, rho, m - 1), IntPow(rho, m), PolyOf(p, m - 1), x);
      EvalAddScaled(BatchPoly(p, n, rho, 0, m - 1), IntPow(rho, m), PolyOf(p, m - 1), x);
    }
  }

  lemma {:induction false} ShiftedValue(f: Field, p: Secrets, n: nat, rho: int, inverse: int, x: int, m: nat)
    requires Proper(f, p, n) && f.Eq(x * inverse, 1) && UNSHIFTED <= m <= ENTITIES
    ensures f.Eq(Eval(BatchTable(p, n, rho, UNSHIFTED), x) + inverse * Eval(BatchPoly(p, n, rho, UNSHIFTED, m), x),
                 Eval(BatchTable(p, n, rho, m), x))
  {
    hide Field.Red, Eval, AddScaled, IntPow;
    if m == UNSHIFTED {
      EvalZeros(Pow2(n), x);
    } else {
      ShiftedValue(f, p, n, rho, inverse, x, m - 1);
      var (w, c, t) := (IntPow(rho, m), PolyOf(p, m - 1), TableOf(p, m - 1));
      EvalAddScaled(BatchTable(p, n, rho, m - 1), w, t, x);
      EvalAddScaled(BatchPoly(p, n, rho, UNSHIFTED, m - 1), w, c, x);
      ShiftAt(f, p, n, m - 1, inverse, x);
      EqMul(f, w, w, inverse * Eval(c, x), Eval(t, x));
      var (b, q) := (Eval(BatchTable(p, n, rho, UNSHIFTED), x), Eval(BatchPoly(p, n, rho, UNSHIFTED, m - 1), x));
      EqAdd(f, b + inverse * q, Eval(BatchTable(p, n, rho, m - 1), x), w * (inverse * Eval(c, x)), w * Eval(t, x));
      ShiftTerm(b, inverse, q, w, Eval(c, x));
    }
  }

  lemma ShiftTerm(b: int, i: int, q: int, w: int, c: int)
    ensures b + i * (q + w * c) == b + i * q + w * (i * c)
  {
    assert i * (w * c) == w * (i * c);
  }

  /** Dividing a polynomial without constant term by X is a shift of its coefficients. */
  lemma ShiftAt(f: Field, p: Secrets, n: nat, i: nat, inverse: int, x: int)
    requires Proper(f, p, n) && UNSHIFTED <= i < ENTITIES && f.Eq(x * inverse, 1)
    ensures f.Eq(inverse * Eval(PolyOf(p, i), x), Eval(TableOf(p, i), x))
  {
    hide Field.Red;
    var c := PolyOf(p, i);
    var e := Eval(c[1..], x);
    EvalPadded(c[1..], x);
    EqAdd(f, c[0], 0, x * e, x * e);
    EqMul(f, inverse, inverse, Eval(c, x), x * e);
    EqMul(f, x * inverse, 1, e, e);
    assert inverse * (x * e) == x * inverse * e;
  }

  /** The evaluations the prover sends for sumcheck are those of its tables. */
  ghost predicate HonestEvaluations(f: Field, p: Secrets, o: Opening, us: seq<int>)
    requires Shape(p, o.n) && |o.evals| == ENTITIES
  {
    && f.Eq(o.hidingEval, Mle(p.hiding, us))
    && forall i :: 0 <= i < ENTITIES ==> f.Eq(o.evals[i], Mle(TableOf(p, i), us))
  }

  lemma MleAddScaled(a: seq<int>, k: int, b: seq<int>, us: seq<int>)
    requires |b| == |a|
    ensures Mle(AddScaled(a, k, b), us) == Mle(a, us) + k * Mle(b, us)
  {
    hide MleSum;
    MleSumAddScaled(a, k, b, us, |a|);
  }

  lemma {:induction false} BatchedMle(f: Field, p: Secrets, o: Opening, us: seq<int>, m: nat)
    requires Shape(p, o.n) && |o.evals| == ENTITIES && HonestEvaluations(f, p, o, us) && m <= ENTITIES
    ensures f.Eq(BatchedEval(o, m), Mle(BatchTable(p, o.n, o.rho, m), us))
  {
    hide Field.Red, Mle, AddScaled, IntPow;
    if m > 0 {
      BatchedMle(f, p, o, us, m - 1);
      var (w, t) := (IntPow(o.rho, m), TableOf(p, m - 1));
      MleAddScaled(BatchTable(p, o.n, o.rho, m - 1), w, t, us);
      assert f.Eq(o.evals[m - 1], Mle(t, us));
      BatchedStep(f, BatchedEval(o, m - 1), Mle(BatchTable(p, o.n, o.rho, m - 1), us), o.evals[m - 1], Mle(t, us), w);
    }
  }

  lemma BatchedStep(f: Field, b: int, m: int, e: int, t: int, w: int)
    requires f.Eq(b, m) && f.Eq(e, t)
    ensures f.Eq(b + e * w, m + w * t)
  {
    hide Field.Red;
    EqMul(f, e, t, w, w);
    EqAdd(f, b, m, e * w, t * w);
  }

  /** The commitments are those of the secret polynomials. */
  ghost predicate HonestCommitments(f: Field, s: Setup, p: Secrets, o: Opening, c: Points, us: seq<int>)
    requires Shape(p, o.n) && |p.libra| == 3 && o.n <= LOG_N && o.n <= |us| && |c.vk| == 27 && |c.foldComs| == LOG_N - 1
  {
    && c.generator == s.generator && f.Eq(c.hiding, s.Commit(p.hiding))
    && (forall i :: 0 <= i < UNSHIFTED ==> f.Eq(Entity(c, i), s.Commit(p.polys[i])))
    && (forall j :: 0 < j < o.n ==> f.Eq(c.foldComs[j - 1], s.Commit(FoldTo(BatchTable(p, o.n, o.rho, ENTITIES), us, j))))
    && f.Eq(c.libraConcat, s.Commit(p.libra[0])) && f.Eq(c.libraGrandSum, s.Commit(p.libra[1]))
    && f.Eq(c.libraQuotient, s.Commit(p.libra[2]))
  }

  lemma {:induction false} BatchCommitted(f: Field, s: Setup, p: Secrets, o: Opening, c: Points, from: nat, to: nat)
    requires Shape(p, o.n) && |c.vk| == 27 && from <= to <= ENTITIES
    requires forall i :: 0 <= i < UNSHIFTED ==> f.Eq(Entity(c, i), s.Commit(p.polys[i]))
    ensures f.Eq(Batch(o, c, from, to), s.Commit(BatchPoly(p, o.n, o.rho, from, to)))
  {
    hide Field.Red, Eval, AddScaled, IntPow, Entity;
    if from == to {
      EvalZeros(Pow2(o.n), s.tau);
    } else {
      BatchCommitted(f, s, p, o, c, from, to - 1);
      var (w, q, t) := (IntPow(o.rho, to), PolyOf(p, to - 1), BatchPoly(p, o.n, o.rho, from, to - 1));
      EvalAddScaled(t, w, q, s.tau);
      EntityCommitted(f, s, p, o, c, to - 1);
      EqMul(f, w, w, Entity(c, to - 1), s.Commit(q));
      EqAdd(f, Batch(o, c, from, to - 1), s.Commit(t), w * Entity(c, to - 1), w * s.Commit(q));
      CommitStep(Eval(t, s.tau), w, Eval(q, s.tau), s.generator);
    }
  }

  lemma CommitStep(t: int, w: int, q: int, g: int)
    ensures (t + w * q) * g == t * g + w * (q * g)
  {
    assert w * q * g == w * (q * g);
  }

  lemma EntityCommitted(f: Field, s: Setup, p: Secrets, o: Opening, c: Points, i: nat)
    requires Shape(p, o.n) && |c.vk| == 27 && i < ENTITIES
    requires forall i :: 0 <= i < UNSHIFTED ==> f.Eq(Entity(c, i), s.Commit(p.polys[i]))
    ensures f.Eq(Entity(c, i), s.Commit(PolyOf(p, i)))
  {
    hide Field.Red, Eval;
    var k := if i < UNSHIFTED then i else i - 8;
    assert Entity(c, i) == Entity(c, k);
    assert f.Eq(Entity(c, k), s.Commit(p.polys[k]));
  }

  /** Claims 0 and 1 open the combined polynomial. */
  lemma CombinedCommitted(f: Field, s: Setup, p: Secrets, o: Opening, c: Points, inverse: int)
    requires Shape(p, o.n) && |c.vk| == 27 && f.Eq(c.hiding, s.Commit(p.hiding))
    requires forall i :: 0 <= i < UNSHIFTED ==> f.Eq(Entity(c, i), s.Commit(p.polys[i]))
    ensures f.Eq(UnshiftedCom(o, c) + inverse * ShiftedCom(o, c), s.Commit(Combined(p, o.n, o.rho, inverse)))
  {
    hide Field.Red, Eval, BatchPoly, Batch, Combined;
    BatchCommitted(f, s, p, o, c, 0, UNSHIFTED);
    BatchCommitted(f, s, p, o, c, UNSHIFTED, ENTITIES);
    EvalCombined(p, o.n, o.rho, inverse, s.tau);
    var (a, b) := (BatchPoly(p, o.n, o.rho, 0, UNSHIFTED), BatchPoly(p, o.n, o.rho, UNSHIFTED, ENTITIES));
    EqAdd(f, c.hiding, s.Commit(p.hiding), Batch(o, c, 0, UNSHIFTED), s.Commit(a));
    EqMul(f, inverse, inverse, ShiftedCom(o, c), s.Commit(b));
    EqAdd(f, UnshiftedCom(o, c), s.Commit(p.hiding) + s.Commit(a), inverse * ShiftedCom(o, c), inverse * s.Commit(b));
    CommitStep(Eval(p.hiding, s.tau) + Eval(a, s.tau), inverse, Eval(b, s.tau), s.generator);
    Distributed(Eval(p.hiding, s.tau), Eval(a, s.tau), s.generator);
  }

  /** The opening evaluations the prover sends are those of its polynomials. */
  ghost predicate HonestOpening(f: Field, p: Secrets, o: Opening, us: seq<int>, r: int, g: int)
    requires Shape(p, o.n) && |p.libra| == 3 && o.n <= |us| && o.n <= |o.aEvals| && |o.libraEvals| == 4
  {
    && (forall j :: 0 <= j < o.n ==>
          f.Eq(o.aEvals[j], Eval(FoldTo(BatchTable(p, o.n, o.rho, ENTITIES), us, j), -RPower(r, j))))
    && f.Eq(o.libraEvals[0], Eval(p.libra[0], r)) && f.Eq(o.libraEvals[1], Eval(p.libra[1], g * r))
    && f.Eq(o.libraEvals[2], Eval(p.libra[1], r)) && f.Eq(o.libraEvals[3], Eval(p.libra[2], r))
  }

  /** The polynomials behind the claims, in the order of the claims. */
  function FoldPolys(p: Secrets, o: Opening, us: seq<int>, rInv: int, m: nat): (ps: seq<seq<int>>)
    requires Shape(p, o.n) && 1 <= m <= o.n <= |us|
    ensures |ps| == 2 * m
  {
    if m == 1 then [Combined(p, o.n, o.rho, rInv), Combined(p, o.n, o.rho, -rInv)]
    else
      var a := FoldTo(BatchTable(p, o.n, o.rho, ENTITIES), us, m - 1);
      FoldPolys(p, o, us, rInv, m - 1) + [a, a]
  }

  function ClaimPolys(p: Secrets, o: Opening, us: seq<int>, rInv: int): (ps: seq<seq<int>>)
    requires Shape(p, o.n) && |p.libra| == 3 && 1 <= o.n <= |us|
    ensures |ps| == 2 * o.n + 4
  {
    FoldPolys(p, o, us, rInv, o.n) + [p.libra[0], p.libra[1], p.libra[1], p.libra[2]]
  }

  /** An honest prover's inputs for the challenges rho, u, r, with the fold values the verifier reconstructs. */
  ghost predicate Honest(f: Field, s: Setup, p: Secrets, o: Opening, c: Points, w: Weights, fold: seq<int>, us: seq<int>, r: int, g: int) {
    && Shaped(o, c, w, fold) && Proper(f, p, o.n) && |us| == LOG_N && f.Eq(r * w.rInv, 1)
    && HonestEvaluations(f, p, o, us[..o.n]) && HonestCommitments(f, s, p, o, c, us) && HonestOpening(f, p, o, us, r, g)
    && (forall k :: 0 <= k < o.n ==> !f.Eq(FoldDenominator(r, us, k), 0))
    && SolvesFolds(f, o.n, r, us, o.aEvals, BatchedEval(o, ENTITIES), fold)
  }

  /** The reconstructed fold values are those of the folded tables. */
  lemma FoldValues(f: PrimeField, s: Setup, p: Secrets, o: Opening, c: Points, w: Weights, fold: seq<int>, us: seq<int>, r: int,
                   g: int, j: nat)
    requires Honest(f, s, p, o, c, w, fold, us, r, g) && j < o.n
    ensures f.Eq(fold[j], Eval(FoldTo(BatchTable(p, o.n, o.rho, ENTITIES), us, j), RPower(r, j)))
    ensures f.Eq(o.aEvals[j], Eval(FoldTo(BatchTable(p, o.n, o.rho, ENTITIES), us, j), -RPower(r, j)))
  {
    hide Field.Red, IsPrime, Eval, Mle, FoldTo, BatchTable, RPower, HonestEvaluations, HonestCommitments, SolvesFolds, FoldDenominator;
    var t := BatchTable(p, o.n, o.rho, ENTITIES);
    BatchedMle(f, p, o, us[..o.n], ENTITIES);
    assert HonestClaims(f, t, o.n, r, us, o.aEvals, BatchedEval(o, ENTITIES));
    FoldsReconstruct(f, t, o.n, r, us, o.aEvals, BatchedEval(o, ENTITIES), fold, j);
  }

  /** Claims 0 and 1. */
  lemma FirstClaimsTrue(f: PrimeField, s: Setup, p: Secrets, o: Opening, c: Points, w: Weights, fold: seq<int>, us: seq<int>, r: int,
                        g: int)
    requires Honest(f, s, p, o, c, w, fold, us, r, g)
    ensures IsClaimOf(f, s, FoldClaims(o, c, w, fold, r, 1)[0], Combined(p, o.n, o.rho, w.rInv))
    ensures IsClaimOf(f, s, FoldClaims(o, c, w, fold, r, 1)[1], Combined(p, o.n, o.rho, -w.rInv))
  {
    hide Field.Red, IsPrime, Eval, Mle, BatchTable, Combined, HonestEvaluations, SolvesFolds, FoldDenominator, UnshiftedCom, ShiftedCom;
    FoldValues(f, s, p, o, c, w, fold, us, r, g, 0);
    CombinedCommitted(f, s, p, o, c, w.rInv);
    CombinedCommitted(f, s, p, o, c, -w.rInv);
    assert -r * -w.rInv == r * w.rInv;
    CombinedValue(f, p, o.n, o.rho, w.rInv, r);
    CombinedValue(f, p, o.n, o.rho, -w.rInv, -r);
    assert FoldTo(BatchTable(p, o.n, o.rho, ENTITIES), us, 0) == BatchTable(p, o.n, o.rho, ENTITIES);
    assert -w.rInv * ShiftedCom(o, c) == -(w.rInv * ShiftedCom(o, c));
  }

  lemma {:induction false} FoldClaimsTrue(f: PrimeField, s: Setup, p: Secrets, o: Opening, c: Points, w: Weights, fold: seq<int>,
                                          us: seq<int>, r: int, g: int, m: nat)
    requires Honest(f, s, p, o, c, w, fold, us, r, g) && 1 <= m <= o.n
    ensures AreClaimsOf(f, s, FoldClaims(o, c, w, fold, r, m), FoldPolys(p, o, us, w.rInv, m))
  {
    hide Field.Red, IsPrime, Eval, FoldTo, BatchTable, Combined, RPower, HonestEvaluations, SolvesFolds, FoldDenominator, UnshiftedCom,
         ShiftedCom;
    if m == 1 {
      FirstClaimsTrue(f, s, p, o, c, w, fold, us, r, g);
    } else {
      var j := m - 1;
      FoldClaimsTrue(f, s, p, o, c, w, fold, us, r, g, j);
      FoldValues(f, s, p, o, c, w, fold, us, r, g, j);
      var (cs, ps) := (FoldClaims(o, c, w, fold, r, m), FoldPolys(p, o, us, w.rInv, m));
      forall i | 0 <= i < 2 * m ensures IsClaimOf(f, s, cs[i], ps[i]) {
        if i < 2 * j {
          assert cs[i] == FoldClaims(o, c, w, fold, r, j)[i] && ps[i] == FoldPolys(p, o, us, w.rInv, j)[i];
        }
      }
    }
  }

  /** An honest prover makes true claims only. */
  lemma HonestClaimsTrue(f: PrimeField, s: Setup, p: Secrets, o: Opening, c: Points, w: Weights, fold: seq<int>, us: seq<int>, r: int,
                         g: int)
    requires Honest(f, s, p, o, c, w, fold, us, r, g)
    ensures AreClaimsOf(f, s, Claims(o, c, w, fold, r, g), ClaimPolys(p, o, us, w.rInv))
  {
    hide Field.Red, IsPrime, Eval, FoldClaims, FoldPolys, HonestEvaluations, SolvesFolds, FoldDenominator;
    FoldClaimsTrue(f, s, p, o, c, w, fold, us, r, g, o.n);
    var (cs, ps) := (Claims(o, c, w, fold, r, g), ClaimPolys(p, o, us, w.rInv));
    forall i | 0 <= i < |cs| ensures IsClaimOf(f, s, cs[i], ps[i]) {
      if i < 2 * o.n {
        assert cs[i] == FoldClaims(o, c, w, fold, r, o.n)[i] && ps[i] == FoldPolys(p, o, us, w.rInv, o.n)[i];
      }
    }
  }

  /** The inverses the verifier reads back. */
  lemma WeightsAnswer(f: PrimeField, o: Opening, c: Points, inverted: seq<int>, fold: seq<int>, t: Shplemini.Challenge, g: int)
    requires 1 <= o.n <= LOG_N && |t.us| == LOG_N && |inverted| == BatchSize(o.n)
    requires Shaped(o, c, WeightsOf(o.n, inverted), fold) && Answers(f, o.n, t.r, o.z, g, t.us, inverted)
    ensures AllSound(f, o.z, Claims(o, c, WeightsOf(o.n, inverted), fold, t.r, g))
    ensures f.Eq(t.r * WeightsOf(o.n, inverted).rInv, 1)
    ensures forall k :: 0 <= k < o.n ==> !f.Eq(FoldDenominator(t.r, t.us, k), 0)
  {
    hide Field.Red, IsPrime, Claims, FoldDenominator, Sound;
    ClaimsSound(f, o, c, inverted, fold, t.r, g, t.us);
    assert AnswersSlot(f, o.n, t.r, o.z, g, t.us, inverted, GeminiR);
    forall k | 0 <= k < o.n ensures !f.Eq(FoldDenominator(t.r, t.us, k), 0) {
      assert AnswersSlot(f, o.n, t.r, o.z, g, t.us, inverted, FoldDen(k));
      LayoutBijective(o.n);
      InvertibleNonzero(f, FoldDenominator(t.r, t.us, k), inverted[SlotIndex(o.n, FoldDen(k))]);
    }
  }

  lemma InvertibleNonzero(f: PrimeField, d: int, i: int)
    requires f.Eq(d * i, 1)
    ensures !f.Eq(d, 0)
  {
    hide Field.Red, IsPrime;
    SmallDistinct(f, 1, 0);
    if f.Eq(d, 0) { EqMul(f, d, 0, i, i); }
  }

  lemma IsHonest(f: PrimeField, s: Setup, p: Secrets, o: Opening, c: Points, inverted: seq<int>, fold: seq<int>,
                 t: Shplemini.Challenge, g: int)
    requires 1 <= o.n <= LOG_N && |o.evals| == ENTITIES && |o.aEvals| == LOG_N && |o.libraEvals| == 4 && |t.us| == LOG_N
    requires |inverted| == BatchSize(o.n) && Shaped(o, c, WeightsOf(o.n, inverted), fold)
    requires Shplemini.IsWitness(f, o, t, g, inverted, fold)
    requires Proper(f, p, o.n) && HonestEvaluations(f, p, o, t.us[..o.n]) && HonestCommitments(f, s, p, o, c, t.us)
    requires HonestOpening(f, p, o, t.us, t.r, g)
    ensures Honest(f, s, p, o, c, WeightsOf(o.n, inverted), fold, t.us, t.r, g) && c.generator == s.generator
  {
    hide Field.Red, IsPrime, Eval, WeightsOf, HonestEvaluations, HonestOpening, Proper, FoldDenominator, Answers, SolvesFolds;
    WeightsAnswer(f, o, c, inverted, fold, t, g);
  }

  /**
   Completeness: an honest prover's commitments, evaluations and quotients pass the pairing check, whatever the secret
   point, the tables and the challenges, as long as the verifier does not stop at a zero denominator before.
   */
  lemma OpeningComplete(f: PrimeField, s: Setup, p: Secrets, o: Opening, c: Points, inverted: seq<int>, fold: seq<int>,
                        t: Shplemini.Challenge, g: int)
    requires 1 <= o.n <= LOG_N && |o.evals| == ENTITIES && |o.aEvals| == LOG_N && |o.libraEvals| == 4 && |t.us| == LOG_N
    requires |inverted| == BatchSize(o.n) && Shaped(o, c, WeightsOf(o.n, inverted), fold)
    requires Shplemini.IsWitness(f, o, t, g, inverted, fold)
    requires Proper(f, p, o.n) && HonestEvaluations(f, p, o, t.us[..o.n]) && HonestCommitments(f, s, p, o, c, t.us)
    requires HonestOpening(f, p, o, t.us, t.r, g)
    requires var w := WeightsOf(o.n, inverted);
      HonestQuotients(f, s, o.nu, o.z, Claims(o, c, w, fold, t.r, g), ClaimPolys(p, o, t.us, w.rInv), c.shplonkQ, c.kzgQuotient)
    ensures s.Pairing(f, f.Red(c.shplonkQ + o.z * c.kzgQuotient
                               - ClaimSum(o.nu, c.generator, Claims(o, c, WeightsOf(o.n, inverted), fold, t.r, g))),
                      f.Neg(c.kzgQuotient))
  {
    hide Field.Red, IsPrime, Eval, Claims, ClaimPolys, ClaimSum, WeightsOf, HonestEvaluations, HonestCommitments, HonestOpening,
         HonestQuotients, FoldDenominator, Answers;
    var w := WeightsOf(o.n, inverted);
    var cs := Claims(o, c, w, fold, t.r, g);
    WeightsAnswer(f, o, c, inverted, fold, t, g);
    assert Honest(f, s, p, o, c, w, fold, t.us, t.r, g) && c.generator == s.generator by {
      IsHonest(f, s, p, o, c, inverted, fold, t, g);
    }
    HonestClaimsTrue(f, s, p, o, c, w, fold, t.us, t.r, g);
    ClaimsOpen(f, s, o.nu, o.z, cs, ClaimPolys(p, o, t.us, w.rInv), c.shplonkQ, c.kzgQuotient);
    PairingCancels(f, s, c.shplonkQ + o.z * c.kzgQuotient - ClaimSum(o.nu, c.generator, cs), c.kzgQuotient);
  }

  lemma PairingCancels(f: Field, s: Setup, a: int, w: int)
    requires f.Eq(a, s.tau * w)
    ensures s.Pairing(f, f.Red(a), f.Neg(w))
  {
    hide Field.Red;
    RedEq(f, a);
    RedEq(f, 0 - w);
    EqMul(f, s.tau, s.tau, f.Neg(w), 0 - w);
    EqAdd(f, f.Red(a), s.tau * w, s.tau * f.Neg(w), s.tau * (0 - w));
    assert s.tau * w + s.tau * (0 - w) == 0;
  }

  /** The Libra polynomials are those of an honest prover, whose grand sum ends in the claim. */
  ghost predicate HonestMasking(f: Field, p: Secrets, t: Shplemini.Challenge, g: int, gInv: int)
    requires |p.libra| == 3 && |t.us| == LOG_N
  {
    exists values: seq<int>, table: seq<int> ::
      LibraProofs.HonestLibra(f, g, gInv, t.us, values, table, LibraProofs.LibraPolys(p.libra[0], p.libra[1], p.libra[2]), t.libraClaimed)
  }

  /**
   An honest prover is not refused before the pairing check, as long as no denominator is zero and the Gemini challenge
   lies outside the subgroup.
   */
  lemma HonestNotRefused(f: PrimeField, p: Secrets, o: Opening, t: Shplemini.Challenge, g: int, gInv: int)
    requires 1 <= o.n <= LOG_N && |o.aEvals| == LOG_N && |o.libraEvals| == 4 && |t.us| == LOG_N && Shape(p, o.n) && |p.libra| == 3
    requires Shplemini.IsGenerator(f, g, gInv) && HonestMasking(f, p, t, g, gInv) && HonestOpening(f, p, o, t.us, t.r, g)
    requires !ZeroDenominator(f, o.n, t.r, o.z, g, t.us) && !f.Eq(IntPow(t.r, Libra.SUBGROUP_SIZE), 1)
    ensures !Shplemini.Refused(f, o, t, g, gInv)
  {
    hide Field.Red, IsPrime, IntPow, Eval, Libra.HasOrder, ZeroDenominator, LibraCheck.LibraIdentity, LibraProofs.HonestLibra, Shape;
    var polys := LibraProofs.LibraPolys(p.libra[0], p.libra[1], p.libra[2]);
    var values: seq<int>, table: seq<int> :|
      LibraProofs.HonestLibra(f, g, gInv, t.us, values, table, polys, t.libraClaimed);
    assert LibraProofs.OpenedAt(f, g, t.r, polys, o.libraEvals);
    assert LibraProofs.HonestOpenings(f, g, gInv, t.r, t.us, o.libraEvals, t.libraClaimed);
    LibraCheck.HonestAccepted(f, g, gInv, t.r, t.us, o.libraEvals, t.libraClaimed);
  }
}
