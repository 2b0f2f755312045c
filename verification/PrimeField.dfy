/**
 The prime field the verifier computes in (`Fr`), as residues modulo a prime.

 Every field operation returns the canonical residue, as the host functions do.
 The algebra is done over the integers: `f.Eq(a, b)` says that two integers name
 the same field element, and the lemmas below let sums and products be rewritten
 under it.  Two canonical residues that are `Eq` are equal.
 */
module PrimeFields {

  datatype Result<+T> = Ok(value: T) | Err(error: string)

  type Modulus = n: int | n > 1 witness 2

  ghost predicate IsPrime(p: int) {
    p > 1 && forall d {:trigger p % d} :: 1 < d < p ==> p % d != 0
  }

  /** The BN254 scalar modulus, the instance the contracts run with. */
  const BN254_R: int := 0x30644e72e131a029b85045b68181585d2833e84879b9709143e1f593f0000001

  datatype Field = Field(p: Modulus) {
    function Red(n: int): (r: int)
      ensures 0 <= r < p
    {
      n % p
    }

    function Add(a: int, b: int): int { Red(a + b) }
    function Sub(a: int, b: int): int { Red(a - b) }
    function Neg(a: int): int { Red(0 - a) }
    function Mul(a: int, b: int): int { Red(a * b) }

    /** `a` is a canonical residue, that is, a value of the Rust type `Fr`. */
    predicate Has(a: int) { 0 <= a < p }

    predicate HasAll(s: seq<int>) { forall i :: 0 <= i < |s| ==> Has(s[i]) }

    /** `a` and `b` name the same field element. */
    ghost predicate Eq(a: int, b: int) { Red(a) == Red(b) }

    function Inv(a: int): int {
      Red(Bezout(Red(a), p).x)
    }

    function Pow(a: int, e: nat): int {
      Red(IntPow(a, e))
    }
  }

  type PrimeField = f: Field | IsPrime(f.p) witness Field(2)

  function IntPow(a: int, e: nat): int {
    if e == 0 then 1 else a * IntPow(a, e - 1)
  }

  // ---- Congruence ----

  lemma MultipleBound(k: int, p: nat)
    ensures k >= 1 ==> k * p >= p
    ensures k <= -1 ==> k * p + p <= 0
  {
    if k >= 1 {
      assert (k - 1) * p >= 0;
    } else if k <= -1 {
      assert (k + 1) * p <= 0;
    }
  }

  lemma ModUnique(a: int, q: int, r: int, p: nat)
    requires a == q * p + r && 0 <= r < p
    ensures a % p == r
  {
    var k := a / p - q;
    assert k * p == r - a % p by { assert a == (a / p) * p + a % p; }
    MultipleBound(k, p);
  }

  lemma RedShift(f: Field, a: int, k: int)
    ensures f.Red(a + k * f.p) == f.Red(a)
  {
    ModUnique(a + k * f.p, a / f.p + k, a % f.p, f.p);
  }

  lemma RedDecompose(f: Field, a: int) returns (k: int)
    ensures a == f.Red(a) + k * f.p
  {
    k := a / f.p;
  }

  /** A canonical residue is its own reduction, so `Eq` is equality on them. */
  lemma RedCanonical(f: Field, a: int)
    requires f.Has(a)
    ensures f.Red(a) == a
  {
    ModUnique(a, 0, a, f.p);
  }

  lemma RedEq(f: Field, a: int)
    ensures f.Eq(f.Red(a), a)
  {
    RedCanonical(f, f.Red(a));
  }

  lemma EqIffMultiple(f: Field, a: int, b: int)
    ensures f.Eq(a, b) <==> exists k :: a == b + k * f.p
  {
    hide Field.Red;
    var i := RedDecompose(f, a);
    var j := RedDecompose(f, b);
    if f.Eq(a, b) {
      assert a == b + (i - j) * f.p;
    }
    if k :| a == b + k * f.p {
      RedShift(f, b, k);
    }
  }

  lemma EqByMultiple(f: Field, a: int, b: int, k: int)
    requires a == b + k * f.p
    ensures f.Eq(a, b)
  {
    hide Field.Red;
    RedShift(f, b, k);
  }

  lemma EqAdd(f: Field, a: int, b: int, c: int, d: int)
    requires f.Eq(a, b) && f.Eq(c, d)
    ensures f.Eq(a + c, b + d)
  {
    hide Field.Red;
    EqIffMultiple(f, a, b);
    EqIffMultiple(f, c, d);
    var k :| a == b + k * f.p;
    var l :| c == d + l * f.p;
    assert a + c == b + d + (k + l) * f.p;
    EqIffMultiple(f, a + c, b + d);
  }

  lemma EqMul(f: Field, a: int, b: int, c: int, d: int)
    requires f.Eq(a, b) && f.Eq(c, d)
    ensures f.Eq(a * c, b * d)
  {
    hide Field.Red;
    EqIffMultiple(f, a, b);
    EqIffMultiple(f, c, d);
    var k :| a == b + k * f.p;
    var l :| c == d + l * f.p;
    var m := b * l + k * d + k * l * f.p;
    assert a * c == b * d + m * f.p;
    EqIffMultiple(f, a * c, b * d);
  }

  lemma EqSub(f: Field, a: int, b: int, c: int, d: int)
    requires f.Eq(a, b) && f.Eq(c, d)
    ensures f.Eq(a - c, b - d)
  {
    hide Field.Red;
    EqMul(f, -1, -1, c, d);
    EqAdd(f, a, b, -c, -d);
  }

  /** One field operation applied to operands known up to congruence. */
  lemma Ops(f: Field, a: int, b: int, c: int, d: int)
    requires f.Eq(a, b) && f.Eq(c, d)
    ensures f.Eq(f.Add(a, c), b + d)
    ensures f.Eq(f.Sub(a, c), b - d)
    ensures f.Eq(f.Mul(a, c), b * d)
  {
    hide Field.Red;
    EqAdd(f, a, b, c, d);
    EqSub(f, a, b, c, d);
    EqMul(f, a, b, c, d);
    RedEq(f, a + c);
    RedEq(f, a - c);
    RedEq(f, a * c);
  }

  lemma EqDifference(f: Field, a: int, b: int)
    ensures f.Eq(a, b) <==> f.Eq(a - b, 0)
  {
    hide Field.Red;
    if f.Eq(a, b) { EqSub(f, a, b, b, b); }
    if f.Eq(a - b, 0) { EqAdd(f, a - b, 0, b, b); }
  }

  // ---- Inverses ----

  datatype BezoutResult = BezoutResult(g: nat, x: int, y: int)

  /** The extended Euclidean algorithm. */
  function Bezout(a: nat, b: nat): (r: BezoutResult)
    requires a > 0 || b > 0
    ensures r.g == r.x * a + r.y * b
    ensures r.g > 0 && a % r.g == 0 && b % r.g == 0
    decreases b
  {
    if b == 0 then
      assert a == 1 * a + 0;
      ModUnique(a, 1, 0, a);
      BezoutResult(a, 1, 0)
    else
      var s := Bezout(b, a % b);
      BezoutStep(a, b, s);
      BezoutResult(s.g, s.y, s.x - s.y * (a / b))
  }

  lemma BezoutStep(a: nat, b: nat, s: BezoutResult)
    requires b > 0 && s.g == s.x * b + s.y * (a % b)
    requires s.g > 0 && b % s.g == 0 && (a % b) % s.g == 0
    ensures s.g == s.y * a + (s.x - s.y * (a / b)) * b
    ensures a % s.g == 0
  {
    var q, m := a / b, a % b;
    assert a == q * b + m;
    assert s.y * a == s.y * (q * b) + s.y * m;
    var u, v := b / s.g, m / s.g;
    assert b == u * s.g && m == v * s.g;
    assert a == (q * u + v) * s.g;
    ModUnique(a, q * u + v, 0, s.g);
  }

  /** Every element other than zero has an inverse. */
  lemma Inverse(f: PrimeField, a: int)
    requires !f.Eq(a, 0)
    ensures f.Has(f.Inv(a)) && f.Eq(a * f.Inv(a), 1)
    ensures !f.Eq(f.Inv(a), 0)
  {
    var r := f.Red(a);
    assert r > 0 by { if r == 0 { RedCanonical(f, 0); } }
    var s := Bezout(r, f.p);
    if s.g > r { ModUnique(r, 0, r, s.g); }
    InverseOf(f, a, s);
  }

  lemma InverseOf(f: Field, a: int, s: BezoutResult)
    requires s == Bezout(f.Red(a), f.p)
    requires s.g == 1
    ensures f.Has(f.Inv(a)) && f.Eq(a * f.Inv(a), 1) && !f.Eq(f.Inv(a), 0)
  {
    hide Field.Red, Bezout;
    var r := f.Red(a);
    RedEq(f, a);
    assert s.x * r == 1 + (0 - s.y) * f.p;
    EqIffMultiple(f, s.x * r, 1);
    RedEq(f, s.x);
    EqMul(f, f.Inv(a), s.x, a, r);
    assert a * f.Inv(a) == f.Inv(a) * a;
    SmallDistinct(f, 1, 0);
    if f.Eq(f.Inv(a), 0) { EqMul(f, a, a, f.Inv(a), 0); }
  }

  lemma NoZeroDivisors(f: PrimeField, a: int, b: int)
    ensures f.Eq(a * b, 0) <==> f.Eq(a, 0) || f.Eq(b, 0)
  {
    hide Field.Red, Field.Inv, IsPrime;
    if f.Eq(a, 0) { EqMul(f, a, 0, b, b); }
    if f.Eq(b, 0) { EqMul(f, a, a, b, 0); }
    if f.Eq(a * b, 0) && !f.Eq(a, 0) {
      Inverse(f, a);
      EqMul(f, a * b, 0, f.Inv(a), f.Inv(a));
      EqMul(f, a * f.Inv(a), 1, b, b);
      assert a * b * f.Inv(a) == a * f.Inv(a) * b;
    }
  }

  lemma Cancel(f: PrimeField, c: int, a: int, b: int)
    requires f.Eq(c * a, c * b) && !f.Eq(c, 0)
    ensures f.Eq(a, b)
  {
    hide Field.Red, IsPrime;
    EqDifference(f, c * a, c * b);
    assert c * a - c * b == c * (a - b);
    NoZeroDivisors(f, c, a - b);
    EqDifference(f, a, b);
  }

  /** Integers closer together than the modulus are distinct elements. */
  lemma SmallDistinct(f: Field, a: int, b: int)
    requires a != b && a - b < f.p && b - a < f.p
    ensures !f.Eq(a, b)
  {
    hide Field.Red;
    EqIffMultiple(f, a, b);
    forall k ensures a != b + k * f.p { MultipleBound(k, f.p); }
  }

  lemma {:induction false} IntPowAdd(a: int, m: nat, n: nat)
    ensures IntPow(a, m + n) == IntPow(a, m) * IntPow(a, n)
  {
    if m > 0 {
      IntPowAdd(a, m - 1, n);
      assert IntPow(a, m + n) == a * IntPow(a, m - 1 + n);
    }
  }

  lemma {:induction false} EqPow(f: Field, a: int, b: int, e: nat)
    requires f.Eq(a, b)
    ensures f.Eq(IntPow(a, e), IntPow(b, e))
  {
    hide Field.Red;
    if e > 0 {
      EqPow(f, a, b, e - 1);
      EqMul(f, a, b, IntPow(a, e - 1), IntPow(b, e - 1));
    }
  }
}
