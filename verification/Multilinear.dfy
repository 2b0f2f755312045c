/**
 Multilinear extensions of tables indexed by the boolean cube, the gate separator
 of sumcheck.rs and the even/odd folding of Gemini (shplemini.rs).

 Variable `i` belongs to bit `i` of the table index, lowest bit first.
 */
module Multilinear {
  import opened PrimeFields
  import opened Polynomials
  import opened Sumcheck

  function Pow2(n: nat): (r: nat)
    ensures r > 0
  {
    if n == 0 then 1 else 2 * Pow2(n - 1)
  }

  /** The product over the variables of eq(bit, u). */
  function EqWeight(b: nat, us: seq<int>): int {
    if us == [] then 1
    else (if b % 2 == 0 then 1 - us[0] else us[0]) * EqWeight(b / 2, us[1..])
  }

  /** The sum of `t[b] * EqWeight(b, us)` over the first `n` entries of the table. */
  function MleSum(t: seq<int>, us: seq<int>, n: nat): int
    requires n <= |t|
  {
    if n == 0 then 0 else MleSum(t, us, n - 1) + t[n - 1] * EqWeight(n - 1, us)
  }

  /** The multilinear extension of the table at `us`. */
  function Mle(t: seq<int>, us: seq<int>): int {
    MleSum(t, us, |t|)
  }

  // ---- Folding ----

  /** One Gemini fold: even entries weigh 1 - u, odd entries u. */
  function Fold(t: seq<int>, u: int): (r: seq<int>)
    ensures |r| == |t| / 2
  {
    if |t| < 2 then [] else [(1 - u) * t[0] + u * t[1]] + Fold(t[2..], u)
  }

  lemma {:induction false} FoldEntry(t: seq<int>, u: int, i: nat)
    requires i < |t| / 2
    ensures Fold(t, u)[i] == (1 - u) * t[2 * i] + u * t[2 * i + 1]
  {
    if i > 0 {
      FoldEntry(t[2..], u, i - 1);
      assert t[2..][2 * (i - 1)] == t[2 * i] && t[2..][2 * (i - 1) + 1] == t[2 * i + 1];
    }
  }

  lemma {:induction false} MleSumFold(t: seq<int>, us: seq<int>, n: nat)
    requires us != [] && 2 * n <= |t|
    ensures MleSum(t, us, 2 * n) == MleSum(Fold(t, us[0]), us[1..], n)
  {
    if n > 0 {
      var i := n - 1;
      MleSumFold(t, us, i);
      FoldEntry(t, us[0], i);
      var u, w := us[0], EqWeight(i, us[1..]);
      assert (2 * i) / 2 == i && (2 * i + 1) / 2 == i;
      assert EqWeight(2 * i, us) == (1 - u) * w;
      assert EqWeight(2 * i + 1, us) == u * w;
      assert MleSum(t, us, 2 * n) == MleSum(t, us, 2 * i) + t[2 * i] * ((1 - u) * w) + t[2 * i + 1] * (u * w);
      FoldWeights(t[2 * i], t[2 * i + 1], u, w);
    }
  }

  lemma FoldWeights(a: int, b: int, u: int, w: int)
    ensures a * ((1 - u) * w) + b * (u * w) == ((1 - u) * a + u * b) * w
  {
  }

  /** Folding by the first variable leaves the extension unchanged. */
  lemma MleFold(t: seq<int>, us: seq<int>)
    requires us != [] && |t| % 2 == 0
    ensures Mle(t, us) == Mle(Fold(t, us[0]), us[1..])
  {
    MleSumFold(t, us, |t| / 2);
  }

  /** The table after the first `j` folds. */
  function FoldTo(t: seq<int>, us: seq<int>, j: nat): (r: seq<int>)
    requires j <= |us|
  {
    if j == 0 then t else Fold(FoldTo(t, us, j - 1), us[j - 1])
  }

  lemma {:induction false} FoldToLength(t: seq<int>, us: seq<int>, n: nat, j: nat)
    requires j <= n <= |us| && |t| == Pow2(n)
    ensures |FoldTo(t, us, j)| == Pow2(n - j)
  {
    if j > 0 { FoldToLength(t, us, n, j - 1); }
  }

  lemma {:induction false} FoldToFront(t: seq<int>, us: seq<int>, j: nat)
    requires 0 < j <= |us|
    ensures FoldTo(t, us, j) == FoldTo(Fold(t, us[0]), us[1..], j - 1)
  {
    if j > 1 { FoldToFront(t, us, j - 1); }
  }

  /** Folding by every variable gives the multilinear evaluation. */
  lemma {:induction false} FoldAll(t: seq<int>, us: seq<int>)
    requires |t| == Pow2(|us|)
    ensures FoldTo(t, us, |us|) == [Mle(t, us)]
    decreases |us|
  {
    if us == [] {
      assert MleSum(t, us, 1) == MleSum(t, us, 0) + t[0] * EqWeight(0, us);
      assert t == [t[0]];
    } else {
      FoldAll(Fold(t, us[0]), us[1..]);
      FoldToFront(t, us, |us|);
      MleFold(t, us);
    }
  }

  /** Evaluations of a table, its mirror and its fold, as integers. */
  lemma {:induction false} FoldIdentity(t: seq<int>, u: int, x: int)
    requires |t| % 2 == 0
    ensures 2 * x * Eval(Fold(t, u), x * x)
         == (x * (1 - u) + u) * Eval(t, x) + (x * (1 - u) - u) * Eval(t, -x)
  {
    if t != [] {
      FoldIdentity(t[2..], u, x);
      TwoSteps(t, x);
      TwoSteps(t, -x);
      var fr := Fold(t, u);
      assert fr[1..] == Fold(t[2..], u);
      FoldIdentityStep(t[0], t[1], u, x, Eval(t[2..], x), Eval(t[2..], -x), Eval(Fold(t[2..], u), x * x));
    }
  }

  lemma TwoSteps(t: seq<int>, x: int)
    requires |t| >= 2
    ensures Eval(t, x) == t[0] + x * (t[1] + x * Eval(t[2..], x))
  {
    assert t[1..][1..] == t[2..];
  }

  lemma FoldIdentityStep(a: int, b: int, u: int, x: int, p: int, m: int, e: int)
    requires 2 * x * e == (x * (1 - u) + u) * p + (x * (1 - u) - u) * m
    ensures 2 * x * ((1 - u) * a + u * b + x * x * e)
         == (x * (1 - u) + u) * (a + x * (b + x * p)) + (x * (1 - u) - u) * (a + -x * (b + -x * m))
  {
    calc {
      (x * (1 - u) + u) * (a + x * (b + x * p)) + (x * (1 - u) - u) * (a + -x * (b + -x * m));
      { Expand(a, b, x, p); Expand(a, b, -x, m); }
      (x * (1 - u) + u) * (a + x * b + x * x * p) + (x * (1 - u) - u) * (a - x * b + x * x * m);
      { Regroup(a, x * b, x * (1 - u) + u, x * (1 - u) - u, x * x, p, m); }
      2 * (x * (1 - u)) * a + 2 * u * (x * b) + x * x * (2 * x * e);
      { Collect(a, b, u, x, e); }
      2 * x * ((1 - u) * a + u * b + x * x * e);
    }
  }

  lemma Expand(a: int, b: int, x: int, p: int)
    ensures a + x * (b + x * p) == a + x * b + x * x * p
  {
  }

  lemma Collect(a: int, b: int, u: int, x: int, e: int)
    ensures 2 * (x * (1 - u)) * a + 2 * u * (x * b) + x * x * (2 * x * e) == 2 * x * ((1 - u) * a + u * b + x * x * e)
  {
  }

  lemma Regroup(a: int, c: int, g: int, h: int, k: int, p: int, m: int)
    ensures g * (a + c + k * p) + h * (a - c + k * m) == (g + h) * a + (g - h) * c + k * (g * p + h * m)
  {
  }

  // ---- The gate separator ----

  /** Entry `b` of the power table: the product of the gate challenges at the bits of `b`. */
  function PowerEntry(b: nat, gates: seq<int>): int {
    if gates == [] then 1 else (if b % 2 == 0 then 1 else gates[0]) * PowerEntry(b / 2, gates[1..])
  }

  function PowerTable(gates: seq<int>): (t: seq<int>)
    ensures |t| == Pow2(|gates|)
  {
    seq(Pow2(|gates|), b requires b >= 0 => PowerEntry(b, gates))
  }

  lemma {:induction false} GateProductFront(gates: seq<int>, us: seq<int>, k: nat)
    requires 0 < k <= |gates| && k <= |us|
    ensures GateProduct(gates, us, k) == (1 + us[0] * (gates[0] - 1)) * GateProduct(gates[1..], us[1..], k - 1)
  {
    if k > 1 {
      GateProductFront(gates, us, k - 1);
      var a, b, c := 1 + us[0] * (gates[0] - 1), GateProduct(gates[1..], us[1..], k - 2),
                     1 + us[k - 1] * (gates[k - 1] - 1);
      assert a * b * c == a * (b * c);
    }
  }

  /** Folding the power table by one variable scales the table of the others. */
  lemma PowerTableFold(gates: seq<int>, u: int, i: nat)
    requires gates != [] && i < Pow2(|gates| - 1)
    ensures Fold(PowerTable(gates), u)[i] == (1 + u * (gates[0] - 1)) * PowerTable(gates[1..])[i]
  {
    var t, e := PowerTable(gates), PowerEntry(i, gates[1..]);
    FoldEntry(t, u, i);
    assert (2 * i) / 2 == i && (2 * i + 1) / 2 == i;
    assert t[2 * i] == 1 * e && t[2 * i + 1] == gates[0] * e;
    PowerWeights(e, u, gates[0]);
  }

  lemma PowerWeights(e: int, u: int, g: int)
    ensures (1 - u) * e + u * (g * e) == (1 + u * (g - 1)) * e
  {
  }

  lemma {:induction false} MleSumScaled(t: seq<int>, s: seq<int>, k: int, us: seq<int>, n: nat)
    requires n <= |t| && n <= |s| && forall i :: 0 <= i < n ==> t[i] == k * s[i]
    ensures MleSum(t, us, n) == k * MleSum(s, us, n)
  {
    if n > 0 {
      MleSumScaled(t, s, k, us, n - 1);
      var w := EqWeight(n - 1, us);
      assert k * s[n - 1] * w == k * (s[n - 1] * w);
      assert k * (MleSum(s, us, n - 1) + s[n - 1] * w) == k * MleSum(s, us, n - 1) + k * (s[n - 1] * w);
    }
  }

  lemma {:induction false} GateProductPrefix(gates: seq<int>, us: seq<int>, n: nat, k: nat)
    requires k <= n <= |gates| && n <= |us|
    ensures GateProduct(gates[..n], us[..n], k) == GateProduct(gates, us, k)
  {
    if k > 0 { GateProductPrefix(gates, us, n, k - 1); }
  }

  lemma {:induction false} WholeGateSeparator(gates: seq<int>, us: seq<int>)
    requires |gates| == |us|
    ensures GateProduct(gates, us, |us|) == Mle(PowerTable(gates), us)
  {
    var t := PowerTable(gates);
    if us == [] {
      assert MleSum(t, us, 1) == MleSum(t, us, 0) + t[0] * EqWeight(0, us);
    } else {
      GateProductFront(gates, us, |us|);
      WholeGateSeparator(gates[1..], us[1..]);
      MleFold(t, us);
      var k, s := 1 + us[0] * (gates[0] - 1), PowerTable(gates[1..]);
      forall i | 0 <= i < |s| ensures Fold(t, us[0])[i] == k * s[i] {
        PowerTableFold(gates, us[0], i);
      }
      MleSumScaled(Fold(t, us[0]), s, k, us[1..], |s|);
    }
  }

  /**
   The gate separator after `k` rounds, which looks at the first `k` entries of longer arrays, is the multilinear
   extension of the power table of those gate challenges.
   */
  lemma GateSeparatorIsMle(gates: seq<int>, us: seq<int>, k: nat)
    requires k <= |gates| && k <= |us|
    ensures GateProduct(gates, us, k) == Mle(PowerTable(gates[..k]), us[..k])
  {
    GateProductPrefix(gates, us, k, k);
    WholeGateSeparator(gates[..k], us[..k]);
  }

  // ---- The mask of the last four rows ----

  /** Rows of the table that carry a one: all but the last four. */
  function MaskTable(n: nat): (t: seq<int>)
    ensures |t| == Pow2(n)
  {
    seq(Pow2(n), b requires b >= 0 => if b + 4 >= Pow2(n) then 0 else 1)
  }

  function Ones(n: nat): (t: seq<int>)
    ensures |t| == n
  {
    seq(n, _ => 1)
  }

  /** All weights add up to one. */
  lemma {:induction false} OnesSum(us: seq<int>)
    ensures Mle(Ones(Pow2(|us|)), us) == 1
  {
    if us == [] {
      assert MleSum(Ones(1), us, 1) == MleSum(Ones(1), us, 0) + Ones(1)[0] * EqWeight(0, us);
    } else {
      var t := Ones(Pow2(|us|));
      OnesSum(us[1..]);
      MleFold(t, us);
      forall i | 0 <= i < Pow2(|us| - 1) ensures Fold(t, us[0])[i] == 1 { FoldEntry(t, us[0], i); }
      assert Fold(t, us[0]) == Ones(Pow2(|us| - 1));
    }
  }

  /** The last row's weight is the product of all variables. */
  lemma {:induction false} LastWeight(us: seq<int>, u: int)
    ensures EqWeight(Pow2(|us| + 1) - 1, us + [u]) == EqWeight(Pow2(|us|) - 1, us) * u
  {
    if us == [] {
      assert (us + [u])[1..] == [];
      assert EqWeight(1, [u]) == u * EqWeight(0, []);
      assert us + [u] == [u];
    } else {
      LastWeight(us[1..], u);
      assert (us + [u])[1..] == us[1..] + [u];
      assert (Pow2(|us| + 1) - 1) / 2 == Pow2(|us|) - 1 && (Pow2(|us|) - 1) / 2 == Pow2(|us| - 1) - 1;
      assert (Pow2(|us| + 1) - 1) % 2 == 1 && (Pow2(|us|) - 1) % 2 == 1;
      var e := EqWeight(Pow2(|us| - 1) - 1, us[1..]);
      assert us[0] * (e * u) == us[0] * e * u;
    }
  }

  /** The verifier's product, from index 2 on, is the weight of the last row of the other variables. */
  lemma {:induction false} TailIsWeight(us: seq<int>, n: nat)
    requires 2 <= n <= |us|
    ensures TailProduct(us, n) == EqWeight(Pow2(n - 2) - 1, us[2..n])
  {
    if n == 2 {
      assert us[2..2] == [];
    } else {
      TailIsWeight(us, n - 1);
      LastWeight(us[2..n - 1], us[n - 1]);
      assert us[2..n] == us[2..n - 1] + [us[n - 1]];
    }
  }

  /** The four rows with the same upper bits share their weight. */
  lemma FourRows(us: seq<int>, q: nat)
    requires |us| >= 2
    ensures EqWeight(4 * q, us) + EqWeight(4 * q + 1, us) + EqWeight(4 * q + 2, us) + EqWeight(4 * q + 3, us) == EqWeight(q, us[2..])
  {
    var (a, b, e) := (us[0], us[1], EqWeight(q, us[2..]));
    assert us[1..][1..] == us[2..] && us[1..][0] == b;
    assert (4 * q) / 2 == 2 * q && (4 * q + 1) / 2 == 2 * q && (4 * q + 2) / 2 == 2 * q + 1 && (4 * q + 3) / 2 == 2 * q + 1;
    assert EqWeight(2 * q, us[1..]) == (1 - b) * e && EqWeight(2 * q + 1, us[1..]) == b * e;
    FourWeights(a, b, e);
  }

  lemma FourWeights(a: int, b: int, e: int)
    ensures (1 - a) * ((1 - b) * e) + a * ((1 - b) * e) + (1 - a) * (b * e) + a * (b * e) == e
  {
    var (x, y) := ((1 - b) * e, b * e);
    assert (1 - a) * x + a * x == x && (1 - a) * y + a * y == y;
  }

  lemma {:induction false} MleSumSame(t: seq<int>, s: seq<int>, us: seq<int>, n: nat)
    requires n <= |t| && n <= |s| && forall i :: 0 <= i < n ==> t[i] == s[i]
    ensures MleSum(t, us, n) == MleSum(s, us, n)
  {
    if n > 0 { MleSumSame(t, s, us, n - 1); }
  }

  lemma {:induction false} MleSumZero(t: seq<int>, us: seq<int>, n: nat)
    requires n <= |t| && forall i :: 0 <= i < n ==> t[i] == 0
    ensures MleSum(t, us, n) == 0
  {
    if n > 0 { MleSumZero(t, us, n - 1); }
  }

  /**
   One minus the product of the challenges from index 2 on is the multilinear extension of the table that is zero on
   the last four rows and one on the others.
   */
  lemma MaskIsMle(us: seq<int>, n: nat)
    requires n <= |us|
    ensures 1 - TailProduct(us, n) == Mle(MaskTable(n), us[..n])
  {
    if n < 2 {
      assert Pow2(0) == 1 && Pow2(1) == 2;
      MleSumZero(MaskTable(n), us[..n], Pow2(n));
    } else {
      assert Pow2(n) == 4 * Pow2(n - 2);
      MaskSplit(us[..n], Pow2(n - 2) - 1);
      TailIsWeight(us, n);
      assert us[..n][2..] == us[2..n];
    }
  }

  lemma MaskSplit(us: seq<int>, q: nat)
    requires |us| >= 2 && Pow2(|us|) == 4 * q + 4
    ensures Mle(MaskTable(|us|), us) == 1 - EqWeight(q, us[2..])
  {
    hide EqWeight, Pow2, Mle, MleSum;
    var (t, o, m) := (MaskTable(|us|), Ones(Pow2(|us|)), 4 * q);
    OnesSum(us);
    MleSumSame(t, o, us, m);
    LastFour(t, us, m);
    LastFour(o, us, m);
    FourRows(us, q);
  }

  lemma LastFour(t: seq<int>, us: seq<int>, m: nat)
    requires |t| == m + 4
    ensures Mle(t, us) == MleSum(t, us, m) + t[m] * EqWeight(m, us) + t[m + 1] * EqWeight(m + 1, us)
                          + t[m + 2] * EqWeight(m + 2, us) + t[m + 3] * EqWeight(m + 3, us)
  {
    hide EqWeight;
    assert MleSum(t, us, m + 1) == MleSum(t, us, m) + t[m] * EqWeight(m, us);
    assert MleSum(t, us, m + 2) == MleSum(t, us, m + 1) + t[m + 1] * EqWeight(m + 1, us);
    assert MleSum(t, us, m + 3) == MleSum(t, us, m + 2) + t[m + 2] * EqWeight(m + 2, us);
    assert MleSum(t, us, m + 4) == MleSum(t, us, m + 3) + t[m + 3] * EqWeight(m + 3, us);
  }

  // ---- Rows ----

  ghost predicate Boolean(xs: seq<int>) { forall i :: 0 <= i < |xs| ==> xs[i] == 0 || xs[i] == 1 }

  /** The row a boolean point stands for. */
  function Row(xs: seq<int>): (b: nat)
    requires Boolean(xs)
    ensures b < Pow2(|xs|)
  {
    if xs == [] then 0 else xs[0] + 2 * Row(xs[1..])
  }

  /** At a boolean point the extension is the table entry. */
  lemma {:induction false} MleAtRow(t: seq<int>, xs: seq<int>)
    requires Boolean(xs) && |t| == Pow2(|xs|)
    ensures Mle(t, xs) == t[Row(xs)]
    decreases |xs|
  {
    if xs == [] {
      assert MleSum(t, xs, 1) == MleSum(t, xs, 0) + t[0] * EqWeight(0, xs);
    } else {
      var (u, b) := (xs[0], Row(xs[1..]));
      hide EqWeight, MleSum;
      MleFold(t, xs);
      MleAtRow(Fold(t, u), xs[1..]);
      FoldEntry(t, u, b);
      assert u == 0 || u == 1;
      FoldedEntry(u, t[2 * b], t[2 * b + 1]);
    }
  }

  lemma FoldedEntry(u: int, a: int, b: int)
    requires u == 0 || u == 1
    ensures (1 - u) * a + u * b == if u == 0 then a else b
  {
  }
}
