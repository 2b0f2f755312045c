/**
 `batch_inverse` of crates/ultrazk-soroban-verifier/src/field.rs: Montgomery's
 trick over a slice, filling the output buffer in place.
 */
module BatchInversion {
  import opened PrimeFields

  /** The integer product of a sequence. */
  function Product(s: seq<int>): int {
    if s == [] then 1 else Product(s[..|s| - 1]) * s[|s| - 1]
  }

  lemma ProductStep(s: seq<int>, i: nat)
    requires i < |s|
    ensures Product(s[..i + 1]) == Product(s[..i]) * s[i]
  {
    assert s[..i + 1][..i] == s[..i];
  }

  lemma ProductEmpty(s: seq<int>)
    ensures Product(s[..0]) == 1
  {
  }

  /** A product is zero in the field exactly when one of its factors is. */
  lemma {:induction false} ProductNonzero(f: PrimeField, s: seq<int>)
    ensures f.Eq(Product(s), 0) <==> exists i :: 0 <= i < |s| && f.Eq(s[i], 0)
  {
    hide Field.Red, IsPrime;
    if s == [] {
      SmallDistinct(f, 1, 0);
    } else {
      var n := |s| - 1;
      ProductNonzero(f, s[..n]);
      NoZeroDivisors(f, Product(s[..n]), s[n]);
    }
  }

  ghost predicate AllNonzero(f: Field, s: seq<int>) {
    forall i :: 0 <= i < |s| ==> !f.Eq(s[i], 0)
  }

  /** `inv` holds the canonical inverse of every element of `vals`. */
  ghost predicate Inverts(f: Field, vals: seq<int>, inv: seq<int>) {
    |inv| == |vals| &&
    forall i :: 0 <= i < |vals| ==> f.Has(inv[i]) && f.Eq(vals[i] * inv[i], 1)
  }

  /** Inverses are unique, so the whole buffer is determined by its inputs. */
  lemma InvertsUnique(f: PrimeField, vals: seq<int>, inv: seq<int>, other: seq<int>)
    requires Inverts(f, vals, inv) && Inverts(f, vals, other)
    ensures inv == other
  {
    hide Field.Red, IsPrime;
    forall i | 0 <= i < |vals| ensures inv[i] == other[i] { InverseUnique(f, vals[i], inv[i], other[i]); }
  }

  lemma InverseUnique(f: PrimeField, a: int, b: int, c: int)
    requires f.Eq(a * b, 1) && f.Eq(a * c, 1) && f.Has(b) && f.Has(c)
    ensures b == c
  {
    hide Field.Red, IsPrime;
    SmallDistinct(f, 1, 0);
    NoZeroDivisors(f, a, b);
    Cancel(f, a, b, c);
    RedCanonical(f, b);
    RedCanonical(f, c);
  }

  method BatchInverse(f: PrimeField, vals: seq<int>, out: array<int>) returns (r: Result<()>)
    requires out.Length == |vals| && f.HasAll(vals)
    modifies out
    ensures r.Ok? <==> AllNonzero(f, vals)
    ensures r.Ok? ==> Inverts(f, vals, out[..])
    ensures r.Err? ==> r.error == "denominator is zero"
  {
    hide Field.Red, Field.Inv, IsPrime, Product;
    var n := |vals|;
    if n == 0 {
      return Ok(());
    }

    // Prefix products.
    out[0] := vals[0];
    ProductEmpty(vals);
    ProductStep(vals, 0);
    for i := 1 to n
      invariant forall k :: 0 <= k < i ==> f.Has(out[k]) && f.Eq(out[k], Product(vals[..k + 1]))
    {
      out[i] := f.Mul(out[i - 1], vals[i]);
      ProductStep(vals, i);
      Ops(f, out[i - 1], Product(vals[..i]), vals[i], vals[i]);
    }

    // One inversion of the total product.
    assert vals[..n] == vals;
    ProductNonzero(f, vals);
    RedCanonical(f, 0);
    RedCanonical(f, out[n - 1]);
    if out[n - 1] == 0 {
      return Err("denominator is zero");
    }
    Inverse(f, out[n - 1]);
    var acc := f.Inv(out[n - 1]);
    EqMul(f, out[n - 1], Product(vals), acc, acc);

    // Backward sweep.
    var i := n - 1;
    while i > 0
      invariant 0 <= i < n && f.Has(acc)
      invariant f.Eq(Product(vals[..i + 1]) * acc, 1)
      invariant forall k :: 0 <= k < i ==> f.Has(out[k]) && f.Eq(out[k], Product(vals[..k + 1]))
      invariant forall k :: i < k < n ==> f.Has(out[k]) && f.Eq(vals[k] * out[k], 1)
    {
      ProductStep(vals, i);
      Sweep(f, Product(vals[..i]), vals[i], acc, out[i - 1]);
      out[i] := f.Mul(acc, out[i - 1]);
      acc := f.Mul(acc, vals[i]);
      i := i - 1;
    }
    out[0] := acc;
    ProductStep(vals, 0);
    return Ok(());
  }

  /** One step of the backward sweep: `acc` inverts `prefix * v`. */
  lemma Sweep(f: Field, prefix: int, v: int, acc: int, stored: int)
    requires f.Eq(prefix * v * acc, 1) && f.Eq(stored, prefix)
    ensures f.Eq(v * f.Mul(acc, stored), 1)
    ensures f.Eq(prefix * f.Mul(acc, v), 1)
  {
    hide Field.Red;
    Ops(f, acc, acc, stored, prefix);
    EqMul(f, v, v, f.Mul(acc, stored), acc * prefix);
    assert v * (acc * prefix) == prefix * v * acc;
    Ops(f, acc, acc, v, v);
    EqMul(f, prefix, prefix, f.Mul(acc, v), acc * v);
    assert prefix * (acc * v) == prefix * v * acc;
  }
}
