/**
 Soundness of the batch opening, for a prover who knows the polynomials behind its commitments: a false claim is
 accepted only if a challenge is a root of a polynomial that was fixed before the challenge was drawn.
 */
module OpeningSoundness {
  import opened PrimeFields
  import opened Polynomials
  import opened LuckyChallenges
  import opened Gemini
  import opened Inversions
  import opened Shplonk
  import opened Openings
  import Shplemini

  // ---- The secret point ----

  /** The commitments are those of the prover's polynomials; the claimed values may be anything. */
  ghost predicate AreCommitments(f: Field, s: Setup, cs: seq<Claim>, ps: seq<seq<int>>) {
    |ps| == |cs| && forall i :: 0 <= i < |cs| ==> f.Eq(cs[i].com, s.Commit(ps[i]))
  }

  /** The sum of nu^e (P - v) / (z - x) over the claims. */
  function Weighted(nu: int, cs: seq<Claim>, ps: seq<seq<int>>): seq<int>
    requires |ps| == |cs|
  {
    if cs == [] then []
    else
      var (n, k) := (|cs| - 1, cs[|cs| - 1]);
      Plus(Weighted(nu, cs[..n], ps[..n]), Scale(IntPow(nu, k.exponent) * k.inverse, Minus(ps[n], [k.value])))
  }

  /** What the check tests at the secret point: Q + (z - X) W less the weighted claims. */
  function TauPoly(nu: int, z: int, cs: seq<Claim>, ps: seq<seq<int>>, q: seq<int>, w: seq<int>): seq<int>
    requires |ps| == |cs|
  {
    Minus(Plus(q, Minus(Scale(z, w), [0] + w)), Weighted(nu, cs, ps))
  }

  lemma EvalTauPoly(nu: int, z: int, cs: seq<Claim>, ps: seq<seq<int>>, q: seq<int>, w: seq<int>, x: int)
    requires |ps| == |cs|
    ensures Eval(TauPoly(nu, z, cs, ps, q, w), x) == Eval(q, x) + (z - x) * Eval(w, x) - Eval(Weighted(nu, cs, ps), x)
  {
    hide Plus, Minus, Scale, Weighted;
    EvalMinus(Plus(q, Minus(Scale(z, w), [0] + w)), Weighted(nu, cs, ps), x);
    EvalPlus(q, Minus(Scale(z, w), [0] + w), x);
    EvalMinus(Scale(z, w), [0] + w, x);
    EvalScale(z, w, x);
    assert ([0] + w)[1..] == w;
    hide Eval;
  }

  /** One claim's share of the weighted sum. */
  function WeightedShare(nu: int, k: Claim, p: seq<int>, x: int): int {
    IntPow(nu, k.exponent) * k.inverse * (Eval(p, x) - k.value)
  }

  lemma WeightedStep(nu: int, cs: seq<Claim>, ps: seq<seq<int>>, x: int)
    requires |ps| == |cs| && cs != []
    ensures var n := |cs| - 1;
      Eval(Weighted(nu, cs, ps), x) == Eval(Weighted(nu, cs[..n], ps[..n]), x) + WeightedShare(nu, cs[n], ps[n], x)
  {
    hide Eval, IntPow, Plus, Scale, Minus;
    var (n, k) := (|cs| - 1, cs[|cs| - 1]);
    var i := IntPow(nu, k.exponent) * k.inverse;
    EvalPlus(Weighted(nu, cs[..n], ps[..n]), Scale(i, Minus(ps[n], [k.value])), x);
    EvalScale(i, Minus(ps[n], [k.value]), x);
    EvalMinus(ps[n], [k.value], x);
    EvalConstant(k.value, x);
  }

  /** The committed weighted sum is the claim sum of the verifier. */
  lemma {:induction false} WeightedCommitted(f: Field, s: Setup, nu: int, cs: seq<Claim>, ps: seq<seq<int>>)
    requires AreCommitments(f, s, cs, ps)
    ensures f.Eq(s.Commit(Weighted(nu, cs, ps)), ClaimSum(nu, s.generator, cs))
  {
    hide Field.Red, Eval, WeightedShare, IntPow;
    if cs == [] {
      EvalNothing(s.tau);
    } else {
      var n := |cs| - 1;
      WeightedCommitted(f, s, nu, cs[..n], ps[..n]);
      WeightedStep(nu, cs, ps, s.tau);
      ShareCommitted(f, s, nu, cs[n], ps[n]);
      var a := Eval(Weighted(nu, cs[..n], ps[..n]), s.tau);
      Distributed(a, WeightedShare(nu, cs[n], ps[n], s.tau), s.generator);
      EqAdd(f, a * s.generator, ClaimSum(nu, s.generator, cs[..n]),
            WeightedShare(nu, cs[n], ps[n], s.tau) * s.generator, ClaimTerm(nu, s.generator, cs[n]));
    }
  }

  lemma ShareCommitted(f: Field, s: Setup, nu: int, k: Claim, p: seq<int>)
    requires f.Eq(k.com, s.Commit(p))
    ensures f.Eq(WeightedShare(nu, k, p, s.tau) * s.generator, ClaimTerm(nu, s.generator, k))
  {
    hide Field.Red, Eval, IntPow;
    var (e, g, i) := (Eval(p, s.tau), s.generator, IntPow(nu, k.exponent) * k.inverse);
    EqSub(f, k.com, e * g, k.value * g, k.value * g);
    EqMul(f, i, i, k.com - k.value * g, e * g - k.value * g);
    FactorOut(i, e, k.value, g);
  }

  lemma FactorOut(i: int, e: int, v: int, g: int)
    ensures i * (e - v) * g == i * (e * g - v * g)
  {
    var d := e - v;
    assert d * g == e * g - v * g;
    assert i * d * g == i * (d * g);
  }

  /** An accepted check means the secret point is a root of that polynomial. */
  lemma AcceptedAtTau(f: PrimeField, s: Setup, nu: int, z: int, cs: seq<Claim>, ps: seq<seq<int>>, q: seq<int>, w: seq<int>)
    requires AreCommitments(f, s, cs, ps) && !f.Eq(s.generator, 0)
    requires f.Eq(s.Commit(q) + z * s.Commit(w) - ClaimSum(nu, s.generator, cs), s.tau * s.Commit(w))
    ensures |ps| == |cs| && f.Eq(Eval(TauPoly(nu, z, cs, ps, q, w), s.tau), 0)
  {
    hide Field.Red, IsPrime, Eval, Weighted, ClaimSum, TauPoly;
    var (g, sum, a, b, e) := (s.generator, ClaimSum(nu, s.generator, cs), Eval(q, s.tau), Eval(w, s.tau),
                              Eval(Weighted(nu, cs, ps), s.tau));
    EvalTauPoly(nu, z, cs, ps, q, w, s.tau);
    WeightedCommitted(f, s, nu, cs, ps);
    EqSub(f, a * g + z * (b * g) - sum, s.tau * (b * g), s.tau * (b * g), s.tau * (b * g));
    EqSub(f, sum, e * g, sum, sum);
    EqSub(f, a * g + z * (b * g) - sum - s.tau * (b * g), 0, e * g - sum, 0);
    TauFactor(a, b, e, z, s.tau, g);
    NoZeroDivisors(f, a + (z - s.tau) * b - e, g);
  }

  lemma TauFactor(a: int, b: int, e: int, z: int, tau: int, g: int)
    ensures (a + (z - tau) * b - e) * g == a * g + z * (b * g) - tau * (b * g) - e * g
  {
    assert (z - tau) * b * g == z * (b * g) - tau * (b * g);
  }

  // ---- The challenge z ----

  /** The claims by opening point: `xs` are the different points, and claim `k` is at point `at[k]`. */
  ghost predicate Grouped(f: Field, cs: seq<Claim>, xs: seq<int>, at: seq<nat>) {
    && |at| == |cs| && Distinct(f, xs)
    && forall k :: 0 <= k < |cs| ==> at[k] < |xs| && f.Eq(cs[k].point, xs[at[k]])
  }

  /** Claims can always be grouped. */
  lemma {:induction false} Grouping(f: Field, cs: seq<Claim>) returns (xs: seq<int>, at: seq<nat>)
    ensures Grouped(f, cs, xs, at)
  {
    hide Field.Red;
    if cs == [] {
      xs, at := [], [];
    } else {
      var (n, x) := (|cs| - 1, cs[|cs| - 1].point);
      xs, at := Grouping(f, cs[..n]);
      assert forall k :: 0 <= k < n ==> cs[..n][k] == cs[k];
      if i: nat :| i < |xs| && f.Eq(x, xs[i]) {
        at := at + [i];
      } else {
        xs, at := xs + [x], at + [|xs|];
      }
    }
  }

  /** The sum of nu^e (P - v), each times the factors of the other points. */
  function Numerators(nu: int, cs: seq<Claim>, ps: seq<seq<int>>, xs: seq<int>, at: seq<nat>): seq<int>
    requires |ps| == |cs| == |at| && forall k :: 0 <= k < |at| ==> at[k] < |xs|
  {
    if cs == [] then []
    else
      var (n, k) := (|cs| - 1, cs[|cs| - 1]);
      Plus(Numerators(nu, cs[..n], ps[..n], xs, at[..n]),
           Scale(IntPow(nu, k.exponent), Times(Minus(ps[n], [k.value]), VanishPoly(Without(xs, at[n])))))
  }

  /** Q times all factors less the numerators: zero exactly where Q is the sum of the quotients. */
  function ZPoly(nu: int, cs: seq<Claim>, ps: seq<seq<int>>, q: seq<int>, xs: seq<int>, at: seq<nat>): seq<int>
    requires |ps| == |cs| == |at| && forall k :: 0 <= k < |at| ==> at[k] < |xs|
  {
    Minus(Times(q, VanishPoly(xs)), Numerators(nu, cs, ps, xs, at))
  }

  lemma EvalZPoly(nu: int, cs: seq<Claim>, ps: seq<seq<int>>, q: seq<int>, xs: seq<int>, at: seq<nat>, x: int)
    requires |ps| == |cs| == |at| && forall k :: 0 <= k < |at| ==> at[k] < |xs|
    ensures Eval(ZPoly(nu, cs, ps, q, xs, at), x) == Eval(q, x) * Vanish(xs, x) - Eval(Numerators(nu, cs, ps, xs, at), x)
  {
    hide Eval, Times, Minus, VanishPoly, Numerators, Vanish;
    EvalMinus(Times(q, VanishPoly(xs)), Numerators(nu, cs, ps, xs, at), x);
    EvalTimes(q, VanishPoly(xs), x);
    EvalVanishPoly(xs, x);
  }

  /** One claim's numerator. */
  function Numerator(nu: int, k: Claim, p: seq<int>, xs: seq<int>, i: nat, x: int): int
    requires i < |xs|
  {
    IntPow(nu, k.exponent) * ((Eval(p, x) - k.value) * Vanish(Without(xs, i), x))
  }

  lemma NumeratorsStep(nu: int, cs: seq<Claim>, ps: seq<seq<int>>, xs: seq<int>, at: seq<nat>, x: int)
    requires |ps| == |cs| == |at| && cs != [] && forall k :: 0 <= k < |at| ==> at[k] < |xs|
    ensures var n := |cs| - 1;
      Eval(Numerators(nu, cs, ps, xs, at), x)
        == Eval(Numerators(nu, cs[..n], ps[..n], xs, at[..n]), x) + Numerator(nu, cs[n], ps[n], xs, at[n], x)
  {
    hide Eval, IntPow, Plus, Scale, Minus, Times, VanishPoly, Vanish, Without;
    var (n, k) := (|cs| - 1, cs[|cs| - 1]);
    var t := Times(Minus(ps[n], [k.value]), VanishPoly(Without(xs, at[n])));
    EvalPlus(Numerators(nu, cs[..n], ps[..n], xs, at[..n]), Scale(IntPow(nu, k.exponent), t), x);
    EvalScale(IntPow(nu, k.exponent), t, x);
    EvalTimes(Minus(ps[n], [k.value]), VanishPoly(Without(xs, at[n])), x);
    EvalMinus(ps[n], [k.value], x);
    EvalConstant(k.value, x);
    EvalVanishPoly(Without(xs, at[n]), x);
  }

  lemma AddProducts(f: Field, v: int, n: int, a: int, m: int, b: int)
    requires f.Eq(n, v * a) && f.Eq(m, v * b)
    ensures f.Eq(n + m, v * (a + b))
  {
    hide Field.Red;
    EqAdd(f, n, v * a, m, v * b);
    assert v * a + v * b == v * (a + b);
  }

  lemma NoNumerators(nu: int, ps: seq<seq<int>>, xs: seq<int>, at: seq<nat>, x: int)
    requires ps == [] && at == []
    ensures Eval(Numerators(nu, [], ps, xs, at), x) == 0 && Eval(Weighted(nu, [], ps), x) == 0
  {
  }

  /** At z the numerators are the weighted claims times all factors. */
  lemma {:induction false} NumeratorsAtZ(f: Field, nu: int, cs: seq<Claim>, ps: seq<seq<int>>, xs: seq<int>, at: seq<nat>, z: int)
    requires |ps| == |cs| && Grouped(f, cs, xs, at) && AllSound(f, z, cs)
    ensures f.Eq(Eval(Numerators(nu, cs, ps, xs, at), z), Vanish(xs, z) * Eval(Weighted(nu, cs, ps), z))
  {
    hide Field.Red, Eval, Weighted, WeightedShare, Numerators, Numerator, Vanish, Distinct, Sound;
    if cs == [] {
      NoNumerators(nu, ps, xs, at, z);
    } else {
      var n := |cs| - 1;
      NumeratorsAtZ(f, nu, cs[..n], ps[..n], xs, at[..n], z);
      NumeratorsStep(nu, cs, ps, xs, at, z);
      WeightedStep(nu, cs, ps, z);
      NumeratorAtZ(f, nu, cs[n], ps[n], xs, at[n], z);
      AddProducts(f, Vanish(xs, z), Eval(Numerators(nu, cs[..n], ps[..n], xs, at[..n]), z), Eval(Weighted(nu, cs[..n], ps[..n]), z),
                  Numerator(nu, cs[n], ps[n], xs, at[n], z), WeightedShare(nu, cs[n], ps[n], z));
    }
  }

  lemma NumeratorAtZ(f: Field, nu: int, k: Claim, p: seq<int>, xs: seq<int>, i: nat, z: int)
    requires i < |xs| && f.Eq(k.point, xs[i]) && Sound(f, z, k)
    ensures f.Eq(Numerator(nu, k, p, xs, i, z), Vanish(xs, z) * WeightedShare(nu, k, p, z))
  {
    hide Field.Red, Eval, IntPow, Vanish, Without;
    var (w, d, v, h) := (IntPow(nu, k.exponent), Eval(p, z) - k.value, Vanish(xs, z), Vanish(Without(xs, i), z));
    VanishSplit(xs, i, z);
    EqSub(f, z, z, k.point, xs[i]);
    EqMul(f, z - k.point, z - xs[i], h * k.inverse, h * k.inverse);
    EqMul(f, (z - k.point) * k.inverse, 1, h, h);
    Shuffle(z - k.point, z - xs[i], h, k.inverse);
    EqMul(f, v * k.inverse, h, w * d, w * d);
    Reorder(w, d, h, v, k.inverse);
  }

  lemma Shuffle(a: int, b: int, h: int, i: int)
    ensures a * (h * i) == a * i * h && b * (h * i) == b * h * i
  {
  }

  lemma Reorder(w: int, d: int, h: int, v: int, i: int)
    ensures w * (d * h) == h * (w * d) && v * (w * i * d) == v * i * (w * d)
  {
    assert w * (d * h) == w * d * h;
    assert w * i * d == i * (w * d);
    assert v * (i * (w * d)) == v * i * (w * d);
  }

  // ---- The challenge nu ----

  function Monomial(e: nat): (c: seq<int>)
    ensures |c| == e + 1
  {
    Zeros(e) + [1]
  }

  lemma {:induction false} EvalMonomial(e: nat, x: int)
    ensures Eval(Monomial(e), x) == IntPow(x, e)
  {
    if e == 0 {
      EvalConstant(1, x);
      assert Monomial(0) == [1];
    } else {
      EvalMonomial(e - 1, x);
      assert Monomial(e)[1..] == Monomial(e - 1);
    }
  }

  /** The errors of the claims at point `j`, by their powers of nu. */
  function NuPoly(cs: seq<Claim>, ps: seq<seq<int>>, xs: seq<int>, at: seq<nat>, j: nat): seq<int>
    requires |ps| == |cs| == |at| && j < |xs|
  {
    if cs == [] then []
    else
      var (n, k) := (|cs| - 1, cs[|cs| - 1]);
      Plus(NuPoly(cs[..n], ps[..n], xs, at[..n], j),
           if at[n] == j then Scale(Eval(ps[n], xs[j]) - k.value, Monomial(k.exponent)) else [])
  }

  /** What a claim at point `i` contributes to the errors at point `j`. */
  function NuShare(nu: int, k: Claim, p: seq<int>, xs: seq<int>, i: nat, j: nat): int
    requires j < |xs|
  {
    if i == j then (Eval(p, xs[j]) - k.value) * IntPow(nu, k.exponent) else 0
  }

  lemma NuStep(cs: seq<Claim>, ps: seq<seq<int>>, xs: seq<int>, at: seq<nat>, j: nat, nu: int)
    requires |ps| == |cs| == |at| && j < |xs| && cs != []
    ensures var (n, k) := (|cs| - 1, cs[|cs| - 1]);
      Eval(NuPoly(cs, ps, xs, at, j), nu) == Eval(NuPoly(cs[..n], ps[..n], xs, at[..n], j), nu)
        + NuShare(nu, k, ps[n], xs, at[n], j)
  {
    hide Eval, Plus, Scale, Monomial, IntPow;
    var (n, k) := (|cs| - 1, cs[|cs| - 1]);
    var (b, d) := (NuPoly(cs[..n], ps[..n], xs, at[..n], j), Eval(ps[n], xs[j]) - k.value);
    if at[n] == j {
      EvalPlus(b, Scale(d, Monomial(k.exponent)), nu);
      EvalScale(d, Monomial(k.exponent), nu);
      EvalMonomial(k.exponent, nu);
    } else {
      EvalPlus(b, [], nu);
      EvalNothing(nu);
    }
  }

  lemma NoErrors(ps: seq<seq<int>>, xs: seq<int>, at: seq<nat>, j: nat, nu: int)
    requires ps == [] && at == [] && j < |xs|
    ensures Eval(NuPoly([], ps, xs, at, j), nu) == 0
  {
  }

  /** At point `j` the numerators are the errors there, times a factor that is not zero. */
  lemma {:induction false} NumeratorsAt(f: PrimeField, nu: int, cs: seq<Claim>, ps: seq<seq<int>>, xs: seq<int>, at: seq<nat>, j: nat)
    requires |ps| == |cs| && Grouped(f, cs, xs, at) && j < |xs|
    ensures f.Eq(Eval(Numerators(nu, cs, ps, xs, at), xs[j]), Weight(xs, j) * Eval(NuPoly(cs, ps, xs, at, j), nu))
  {
    hide Field.Red, IsPrime, Eval, Numerators, Numerator, NuPoly, NuShare, Weight, Distinct;
    if cs == [] {
      NoNumerators(nu, ps, xs, at, xs[j]);
      NoErrors(ps, xs, at, j, nu);
    } else {
      var (n, k) := (|cs| - 1, cs[|cs| - 1]);
      NumeratorsAt(f, nu, cs[..n], ps[..n], xs, at[..n], j);
      NumeratorsStep(nu, cs, ps, xs, at, xs[j]);
      NuStep(cs, ps, xs, at, j, nu);
      NumeratorAt(f, nu, k, ps[n], xs, at[n], j);
      AddProducts(f, Weight(xs, j), Eval(Numerators(nu, cs[..n], ps[..n], xs, at[..n]), xs[j]),
                  Eval(NuPoly(cs[..n], ps[..n], xs, at[..n], j), nu), Numerator(nu, k, ps[n], xs, at[n], xs[j]),
                  NuShare(nu, k, ps[n], xs, at[n], j));
    }
  }

  lemma NumeratorAt(f: PrimeField, nu: int, k: Claim, p: seq<int>, xs: seq<int>, i: nat, j: nat)
    requires i < |xs| && j < |xs| && Distinct(f, xs)
    ensures f.Eq(Numerator(nu, k, p, xs, i, xs[j]),
                 Weight(xs, j) * NuShare(nu, k, p, xs, i, j))
  {
    hide Field.Red, IsPrime, Eval, IntPow, Vanish;
    var (w, d, h) := (IntPow(nu, k.exponent), Eval(p, xs[j]) - k.value, Vanish(Without(xs, i), xs[j]));
    if i == j {
      assert w * (d * h) == h * (d * w);
    } else {
      VanishAt(f, Without(xs, i), if j < i then j else j - 1, xs[j]);
      EqMul(f, w * d, w * d, h, 0);
      assert w * (d * h) == w * d * h;
    }
  }

  // ---- Coefficients of the errors ----

  lemma {:induction false} PlusCoefficient(c: seq<int>, d: seq<int>, i: nat)
    ensures Coefficient(Plus(c, d), i) == Coefficient(c, i) + Coefficient(d, i)
    decreases i
  {
    if c != [] && d != [] && i > 0 { PlusCoefficient(c[1..], d[1..], i - 1); }
  }

  lemma {:induction false} ScaledMonomial(k: int, e: nat, i: nat)
    ensures Coefficient(Scale(k, Monomial(e)), i) == if i == e then k else 0
  {
    ScaleCoefficient(k, Monomial(e), i);
    ZeroAt(e, i);
  }

  lemma {:induction false} ScaleCoefficient(k: int, c: seq<int>, i: nat)
    ensures Coefficient(Scale(k, c), i) == k * Coefficient(c, i)
  {
    if c != [] && i > 0 { ScaleCoefficient(k, c[1..], i - 1); }
  }

  lemma {:induction false} ZeroAt(n: nat, i: nat)
    ensures i < n ==> Zeros(n)[i] == 0
  {
    if 0 < i < n { ZeroAt(n - 1, i - 1); }
  }

  /** With different powers of nu, the error of a claim is the coefficient at its power. */
  lemma {:induction false} NuCoefficient(cs: seq<Claim>, ps: seq<seq<int>>, xs: seq<int>, at: seq<nat>, j: nat, e: nat)
    requires |ps| == |cs| == |at| && j < |xs| && ExponentsDistinct(cs)
    ensures (forall k :: 0 <= k < |cs| ==> cs[k].exponent != e) ==> Coefficient(NuPoly(cs, ps, xs, at, j), e) == 0
    ensures forall k :: 0 <= k < |cs| && cs[k].exponent == e ==>
      Coefficient(NuPoly(cs, ps, xs, at, j), e) == if at[k] == j then Eval(ps[k], xs[j]) - cs[k].value else 0
  {
    hide Eval, Plus, Scale, Monomial;
    if cs != [] {
      var (n, last) := (|cs| - 1, cs[|cs| - 1]);
      var (b, d) := (NuPoly(cs[..n], ps[..n], xs, at[..n], j), Eval(ps[n], xs[j]) - last.value);
      NuCoefficient(cs[..n], ps[..n], xs, at[..n], j, e);
      assert forall k :: 0 <= k < n ==> cs[..n][k] == cs[k] && ps[..n][k] == ps[k] && at[..n][k] == at[k];
      if at[n] == j {
        PlusCoefficient(b, Scale(d, Monomial(last.exponent)), e);
        ScaledMonomial(d, last.exponent, e);
      } else {
        PlusCoefficient(b, [], e);
      }
    }
  }

  // ---- The main result ----

  /** A claim that is false of the committed polynomial makes the errors at its point a non-zero polynomial. */
  lemma FalseClaimShows(f: PrimeField, cs: seq<Claim>, ps: seq<seq<int>>, xs: seq<int>, at: seq<nat>, k: nat)
    requires |ps| == |cs| && Grouped(f, cs, xs, at) && ExponentsDistinct(cs)
    requires k < |cs| && !f.Eq(cs[k].value, Eval(ps[k], cs[k].point))
    ensures NonZero(f, NuPoly(cs, ps, xs, at, at[k]))
  {
    hide Field.Red, IsPrime, Eval, NuPoly;
    var (j, c, v) := (at[k], NuPoly(cs, ps, xs, at, at[k]), Eval(ps[k], xs[at[k]]));
    NuCoefficient(cs, ps, xs, at, j, cs[k].exponent);
    EqEval(f, ps[k], cs[k].point, xs[j]);
    EqDifference(f, v, cs[k].value);
    assert Coefficient(c, cs[k].exponent) == v - cs[k].value;
  }

  /** If Q is the sum of the quotients everywhere, the errors at every point cancel. */
  lemma ErrorsCancel(f: PrimeField, nu: int, cs: seq<Claim>, ps: seq<seq<int>>, q: seq<int>, xs: seq<int>, at: seq<nat>, j: nat)
    requires |ps| == |cs| && Grouped(f, cs, xs, at) && j < |xs| && !NonZero(f, ZPoly(nu, cs, ps, q, xs, at))
    ensures f.Eq(Eval(NuPoly(cs, ps, xs, at, j), nu), 0)
  {
    hide Field.Red, IsPrime, Eval, Numerators, NuPoly, ZPoly, Weight, Vanish;
    var (n, e) := (Eval(Numerators(nu, cs, ps, xs, at), xs[j]), Eval(NuPoly(cs, ps, xs, at, j), nu));
    ZeroEverywhere(f, ZPoly(nu, cs, ps, q, xs, at), xs[j]);
    EvalZPoly(nu, cs, ps, q, xs, at, xs[j]);
    VanishAt(f, xs, j, xs[j]);
    EqMul(f, Eval(q, xs[j]), Eval(q, xs[j]), Vanish(xs, xs[j]), 0);
    EqSub(f, Eval(q, xs[j]) * Vanish(xs, xs[j]), 0, Eval(q, xs[j]) * Vanish(xs, xs[j]) - n, 0);
    NumeratorsAt(f, nu, cs, ps, xs, at, j);
    WeightNonzero(f, xs, j);
    NoZeroDivisors(f, Weight(xs, j), e);
  }

  /** If the check holds everywhere, z is a root of the second polynomial. */
  lemma AcceptedAtZ(f: PrimeField, nu: int, z: int, cs: seq<Claim>, ps: seq<seq<int>>, q: seq<int>, w: seq<int>, xs: seq<int>,
                    at: seq<nat>)
    requires |ps| == |cs| && Grouped(f, cs, xs, at) && AllSound(f, z, cs) && !NonZero(f, TauPoly(nu, z, cs, ps, q, w))
    ensures f.Eq(Eval(ZPoly(nu, cs, ps, q, xs, at), z), 0)
  {
    hide Field.Red, IsPrime, Eval, Numerators, Weighted, TauPoly, ZPoly, Vanish, AllSound;
    ZeroEverywhere(f, TauPoly(nu, z, cs, ps, q, w), z);
    EvalTauPoly(nu, z, cs, ps, q, w, z);
    EvalZPoly(nu, cs, ps, q, xs, at, z);
    NumeratorsAtZ(f, nu, cs, ps, xs, at, z);
    var (a, b, v) := (Eval(q, z), Eval(Weighted(nu, cs, ps), z), Vanish(xs, z));
    assert (z - z) * Eval(w, z) == 0;
    EqMul(f, a - b, 0, v, v);
    EqSub(f, a * v, a * v, Eval(Numerators(nu, cs, ps, xs, at), z), v * b);
    assert (a - b) * v == a * v - v * b;
  }

  /**
   Soundness: if the check accepts although some claim is false of the prover's polynomials, then the secret point, z or nu is
   a root of a non-zero polynomial.  The one for nu is fixed by commitments and claims, the one for z also by nu and
   Q, and the one for the secret point by everything the prover sent.
   */
  lemma FalseClaimNeedsLuck(f: PrimeField, s: Setup, nu: int, z: int, cs: seq<Claim>, ps: seq<seq<int>>, q: seq<int>, w: seq<int>,
                            xs: seq<int>, at: seq<nat>, k: nat)
    requires AreCommitments(f, s, cs, ps) && !f.Eq(s.generator, 0)
    requires AllSound(f, z, cs) && ExponentsDistinct(cs) && Grouped(f, cs, xs, at)
    requires f.Eq(s.Commit(q) + z * s.Commit(w) - ClaimSum(nu, s.generator, cs), s.tau * s.Commit(w))
    requires k < |cs| && !f.Eq(cs[k].value, Eval(ps[k], cs[k].point))
    ensures Lucky(f, TauPoly(nu, z, cs, ps, q, w), s.tau) || Lucky(f, ZPoly(nu, cs, ps, q, xs, at), z)
            || Lucky(f, NuPoly(cs, ps, xs, at, at[k]), nu)
  {
    hide Field.Red, IsPrime, Eval, TauPoly, ZPoly, NuPoly, NonZero, ClaimSum, ExponentsDistinct, AllSound;
    AcceptedAtTau(f, s, nu, z, cs, ps, q, w);
    if !NonZero(f, TauPoly(nu, z, cs, ps, q, w)) {
      AcceptedAtZ(f, nu, z, cs, ps, q, w, xs, at);
      if !NonZero(f, ZPoly(nu, cs, ps, q, xs, at)) {
        ErrorsCancel(f, nu, cs, ps, q, xs, at, at[k]);
        FalseClaimShows(f, cs, ps, xs, at, k);
      }
    }
  }

  // ---- The verifier's check ----

  /** All powers of nu in the claims are below 2 * 28 + 6. */
  lemma ExponentBound(o: Opening, c: Points, w: Weights, fold: seq<int>, r: int, g: int)
    requires Shaped(o, c, w, fold)
    ensures forall k :: 0 <= k < |Claims(o, c, w, fold, r, g)| ==> Claims(o, c, w, fold, r, g)[k].exponent < 2 * LOG_N + 6
  {
    hide FoldClaims;
    FoldExponents(o, c, w, fold, r, o.n);
    var cs := Claims(o, c, w, fold, r, g);
    forall k | 0 <= k < |cs| ensures cs[k].exponent < 2 * LOG_N + 6 {
      if k < 2 * o.n { assert cs[k] == FoldClaims(o, c, w, fold, r, o.n)[k]; }
    }
  }

  lemma {:induction false} NuPolyShort(cs: seq<Claim>, ps: seq<seq<int>>, xs: seq<int>, at: seq<nat>, j: nat, m: nat)
    requires |ps| == |cs| == |at| && j < |xs| && forall k :: 0 <= k < |cs| ==> cs[k].exponent < m
    ensures |NuPoly(cs, ps, xs, at, j)| <= m
  {
    hide Eval, Plus, Scale;
    if cs != [] { NuPolyShort(cs[..|cs| - 1], ps[..|cs| - 1], xs, at[..|cs| - 1], j, m); }
  }

  /** Some challenge is lucky for these claims and quotients. */
  ghost predicate SomeLuck(f: Field, s: Setup, o: Opening, cs: seq<Claim>, ps: seq<seq<int>>, q: seq<int>, w: seq<int>, xs: seq<int>,
                           at: seq<nat>)
    requires |ps| == |cs| && Grouped(f, cs, xs, at)
  {
    || Lucky(f, TauPoly(o.nu, o.z, cs, ps, q, w), s.tau) || Lucky(f, ZPoly(o.nu, cs, ps, q, xs, at), o.z)
    || exists k: nat :: k < |cs| && Lucky(f, NuPoly(cs, ps, xs, at, at[k]), o.nu)
  }

  /**
   If the pairing check accepts, every opening claim is true of the polynomials behind the commitments, or some challenge
   was lucky; for nu fewer than 62 values are, at each opening point.
   */
  lemma AcceptedOpening(f: PrimeField, s: Setup, o: Opening, c: Points, inverted: seq<int>, fold: seq<int>, t: Shplemini.Challenge,
                        g: int, ps: seq<seq<int>>, q: seq<int>, w: seq<int>) returns (xs: seq<int>, at: seq<nat>)
    requires 1 <= o.n <= LOG_N && |o.evals| == ENTITIES && |o.aEvals| == LOG_N && |t.us| == LOG_N && |inverted| == BatchSize(o.n)
    requires Shaped(o, c, WeightsOf(o.n, inverted), fold) && Shplemini.IsWitness(f, o, t, g, inverted, fold)
    requires c.generator == s.generator && !f.Eq(s.generator, 0)
    requires AreCommitments(f, s, Claims(o, c, WeightsOf(o.n, inverted), fold, t.r, g), ps)
    requires f.Eq(c.shplonkQ, s.Commit(q)) && f.Eq(c.kzgQuotient, s.Commit(w))
    requires s.Pairing(f, f.Red(c.shplonkQ + o.z * c.kzgQuotient
                                - ClaimSum(o.nu, c.generator, Claims(o, c, WeightsOf(o.n, inverted), fold, t.r, g))),
                       f.Neg(c.kzgQuotient))
    ensures var cs := Claims(o, c, WeightsOf(o.n, inverted), fold, t.r, g);
      && Grouped(f, cs, xs, at) && (AreClaimsOf(f, s, cs, ps) || SomeLuck(f, s, o, cs, ps, q, w, xs, at))
      && forall k :: 0 <= k < |cs| ==> |NuPoly(cs, ps, xs, at, at[k])| <= 2 * LOG_N + 6
  {
    hide Field.Red, IsPrime, Eval, Claims, ClaimSum, WeightsOf, FoldDenominator, Answers, TauPoly, ZPoly, NuPoly, NonZero, AllSound,
         ExponentsDistinct;
    var v := WeightsOf(o.n, inverted);
    var cs := Claims(o, c, v, fold, t.r, g);
    xs, at := Grouping(f, cs);
    WeightsAnswer(f, o, c, inverted, fold, t, g);
    ClaimExponents(o, c, v, fold, t.r, g);
    ExponentBound(o, c, v, fold, t.r, g);
    forall k | 0 <= k < |cs| ensures |NuPoly(cs, ps, xs, at, at[k])| <= 2 * LOG_N + 6 {
      NuPolyShort(cs, ps, xs, at, at[k], 2 * LOG_N + 6);
    }
    PairingMeans(f, s, c.shplonkQ, c.kzgQuotient, o.z, ClaimSum(o.nu, s.generator, cs), s.Commit(q), s.Commit(w));
    if !AreClaimsOf(f, s, cs, ps) {
      var k: nat :| k < |cs| && !IsClaimOf(f, s, cs[k], ps[k]);
      FalseClaimNeedsLuck(f, s, o.nu, o.z, cs, ps, q, w, xs, at, k);
    }
  }

  lemma PairingMeans(f: Field, s: Setup, q: int, w: int, z: int, sum: int, a: int, b: int)
    requires f.Eq(q, a) && f.Eq(w, b) && s.Pairing(f, f.Red(q + z * w - sum), f.Neg(w))
    ensures f.Eq(a + z * b - sum, s.tau * b)
  {
    hide Field.Red;
    var p := f.Red(q + z * w - sum);
    RedEq(f, q + z * w - sum);
    RedEq(f, 0 - w);
    EqMul(f, s.tau, s.tau, f.Neg(w), 0 - w);
    EqAdd(f, p, q + z * w - sum, s.tau * f.Neg(w), s.tau * (0 - w));
    EqMul(f, z, z, w, b);
    EqAdd(f, q, a, z * w, z * b);
    EqSub(f, q + z * w, a + z * b, sum, sum);
    EqMul(f, s.tau, s.tau, w, b);
    EqSub(f, q + z * w - sum, a + z * b - sum, s.tau * w, s.tau * b);
    assert s.tau * (0 - w) == -(s.tau * w);
    EqDifference(f, a + z * b - sum, s.tau * b);
  }
}
