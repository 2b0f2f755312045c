/**
 Byte layouts of crates/ultrazk-soroban-verifier: the limb split of curve points
 (transcript.rs, utils.rs), big-endian sizes and flat buffers.
 */
module Encoding {

  type Byte = b: int | 0 <= b < 256
  type Bytes = seq<Byte>

  function Zeros(n: nat): (z: Bytes)
    ensures |z| == n
  {
    seq(n, _ => 0)
  }

  // ---- Numbers ----

  function FromBigEndian(b: Bytes): nat {
    if b == [] then 0 else FromBigEndian(b[..|b| - 1]) * 256 + b[|b| - 1]
  }

  function Power256(n: nat): nat {
    if n == 0 then 1 else 256 * Power256(n - 1)
  }

  const TWO_128: nat := 0x1_0000_0000_0000_0000_0000_0000_0000_0000
  const TWO_136: nat := 0x100_0000_0000_0000_0000_0000_0000_0000_0000

  lemma Powers()
    ensures Power256(8) == U64 && Power256(16) == TWO_128 && Power256(17) == TWO_136
  {
    assert Power256(8) == 256 * (256 * Power256(6)) && Power256(6) == 256 * (256 * Power256(4))
      && Power256(4) == 256 * (256 * Power256(2)) && Power256(2) == 256 * (256 * Power256(0));
    assert Power256(16) == 256 * (256 * Power256(14)) && Power256(14) == 256 * (256 * Power256(12))
      && Power256(12) == 256 * (256 * Power256(10)) && Power256(10) == 256 * (256 * Power256(8));
  }

  lemma {:induction false} BigEndianConcat(a: Bytes, b: Bytes)
    ensures FromBigEndian(a + b) == FromBigEndian(a) * Power256(|b|) + FromBigEndian(b)
  {
    if b == [] {
      assert a + b == a;
    } else {
      var n := |b| - 1;
      BigEndianConcat(a, b[..n]);
      assert (a + b)[..|a| + n] == a + b[..n];
      ScaleSum(FromBigEndian(a), Power256(n), FromBigEndian(b[..n]));
    }
  }

  lemma ScaleSum(a: int, p: int, b: int)
    ensures (a * p + b) * 256 == a * (256 * p) + b * 256
  {
  }

  lemma {:induction false} BigEndianBound(b: Bytes)
    ensures FromBigEndian(b) < Power256(|b|)
  {
    if b != [] { BigEndianBound(b[..|b| - 1]); }
  }

  lemma {:induction false} ZerosValue(n: nat)
    ensures FromBigEndian(Zeros(n)) == 0
  {
    if n > 0 {
      ZerosValue(n - 1);
      assert Zeros(n)[..n - 1] == Zeros(n - 1);
    }
  }

  lemma PaddedValue(n: nat, b: Bytes)
    ensures FromBigEndian(Zeros(n) + b) == FromBigEndian(b)
  {
    ZerosValue(n);
    BigEndianConcat(Zeros(n), b);
  }

  lemma {:induction false} PowerPositive(n: nat)
    ensures Power256(n) > 0
  {
    if n > 0 { PowerPositive(n - 1); }
  }

  /** The last `k` bytes are the remainder, the ones before the quotient. */
  lemma SplitNumber(b: Bytes, k: nat)
    requires k <= |b|
    ensures Power256(k) > 0
    ensures FromBigEndian(b[|b| - k..]) == FromBigEndian(b) % Power256(k)
    ensures FromBigEndian(b[..|b| - k]) == FromBigEndian(b) / Power256(k)
  {
    PowerPositive(k);
    hide FromBigEndian, Power256;
    var (hi, lo) := (b[..|b| - k], b[|b| - k..]);
    assert b == hi + lo;
    BigEndianConcat(hi, lo);
    BigEndianBound(lo);
    QuotientRemainder(FromBigEndian(hi), Power256(k), FromBigEndian(lo));
  }

  lemma QuotientRemainder(q: nat, d: nat, r: nat)
    requires r < d
    ensures (q * d + r) % d == r && (q * d + r) / d == q
  {
    var n := q * d + r;
    assert (n / d - q) * d == r - n % d;
    MultipleBound(n / d - q, d);
  }

  lemma MultipleBound(k: int, d: nat)
    ensures k >= 1 ==> k * d >= d
    ensures k <= -1 ==> k * d + d <= 0
  {
    if k >= 1 {
      assert (k - 1) * d >= 0;
    } else if k <= -1 {
      assert (k + 1) * d <= 0;
    }
  }

  // ---- Points ----

  /** `push_coord_halves`: low 17 bytes, then high 15 bytes, each in a 32-byte word. */
  function CoordHalves(coord: Bytes): (w: Bytes)
    requires |coord| == 32
    ensures |w| == 64
  {
    Zeros(15) + coord[15..] + (Zeros(17) + coord[..15])
  }

  /** `push_point`: both coordinates of a 64-byte affine point. */
  function PointBytes(pt: Bytes): (w: Bytes)
    requires |pt| == 64
    ensures |w| == 128
  {
    CoordHalves(pt[..32]) + CoordHalves(pt[32..])
  }

  /** `combine_limbs`. */
  function CombineLimbs(lo: Bytes, hi: Bytes): (coord: Bytes)
    requires |lo| == 32 && |hi| == 32
    ensures |coord| == 32
  {
    hi[17..] + lo[15..]
  }

  /** `g1_from_proof_chunk128`. */
  function PointFromChunk(b: Bytes): (pt: Bytes)
    requires |b| == 128
    ensures |pt| == 64
  {
    CombineLimbs(b[..32], b[32..64]) + CombineLimbs(b[64..96], b[96..])
  }

  lemma CombineHalves(coord: Bytes)
    requires |coord| == 32
    ensures CombineLimbs(CoordHalves(coord)[..32], CoordHalves(coord)[32..]) == coord
  {
    var w := CoordHalves(coord);
    assert w[..32][15..] == coord[15..];
    assert w[32..][17..] == coord[..15];
  }

  /** Reading a point back from its transcript layout gives the point. */
  lemma PointRoundTrip(pt: Bytes)
    requires |pt| == 64
    ensures PointFromChunk(PointBytes(pt)) == pt
  {
    var x, y, b := CoordHalves(pt[..32]), CoordHalves(pt[32..]), PointBytes(pt);
    CombineHalves(pt[..32]);
    CombineHalves(pt[32..]);
    assert b[..32] == x[..32] && b[32..64] == x[32..] && b[64..96] == y[..32] && b[96..] == y[32..];
  }

  /** The two words of a coordinate are its remainder and quotient by 2^136. */
  lemma LimbValues(coord: Bytes)
    requires |coord| == 32
    ensures FromBigEndian(CoordHalves(coord)[..32]) == FromBigEndian(coord) % TWO_136
    ensures FromBigEndian(CoordHalves(coord)[32..]) == FromBigEndian(coord) / TWO_136
  {
    Powers();
    SplitNumber(coord, 17);
    assert CoordHalves(coord)[..32] == Zeros(15) + coord[15..] && CoordHalves(coord)[32..] == Zeros(17) + coord[..15];
    PaddedValue(15, coord[15..]);
    PaddedValue(17, coord[..15]);
  }

  /** Two points with the same layout are the same point. */
  lemma PointBytesInjective(p: Bytes, q: Bytes)
    requires |p| == 64 && |q| == 64 && PointBytes(p) == PointBytes(q)
    ensures p == q
  {
    PointRoundTrip(p);
    PointRoundTrip(q);
  }

  // ---- Sizes ----

  /** The `n` low-order bytes of `x`, most significant first. */
  function BigEndian(x: nat, n: nat): (b: Bytes)
    ensures |b| == n
  {
    if n == 0 then [] else BigEndian(x / 256, n - 1) + [x % 256]
  }

  lemma {:induction false} BigEndianRoundTrip(x: nat, n: nat)
    requires x < Power256(n)
    ensures FromBigEndian(BigEndian(x, n)) == x
  {
    if n > 0 {
      BigEndianRoundTrip(x / 256, n - 1);
      var b := BigEndian(x, n);
      assert b[..n - 1] == BigEndian(x / 256, n - 1);
    }
  }

  const U64: nat := 0x1_0000_0000_0000_0000

  /** `u64_to_be32`. */
  function U64ToBe32(x: nat): (b: Bytes)
    ensures |b| == 32
  {
    Zeros(24) + BigEndian(x, 8)
  }

  /** The word of a size is its number. */
  lemma U64Value(x: nat)
    requires x < U64
    ensures FromBigEndian(U64ToBe32(x)) == x
  {
    Powers();
    BigEndianRoundTrip(x, 8);
    PaddedValue(24, BigEndian(x, 8));
  }

  lemma U64Injective(x: nat, y: nat)
    requires x < U64 && y < U64 && U64ToBe32(x) == U64ToBe32(y)
    ensures x == y
  {
    U64Value(x);
    U64Value(y);
  }

  // ---- Flat buffers ----

  function Flat(items: seq<Bytes>): Bytes {
    if items == [] then [] else Flat(items[..|items| - 1]) + items[|items| - 1]
  }

  lemma FlatAppend(items: seq<Bytes>, x: Bytes)
    ensures Flat(items + [x]) == Flat(items) + x
  {
    assert (items + [x])[..|items|] == items;
  }

  lemma {:induction false} FlatConcat(a: seq<Bytes>, b: seq<Bytes>)
    ensures Flat(a + b) == Flat(a) + Flat(b)
  {
    if b == [] {
      assert a + b == a;
    } else {
      var n := |b| - 1;
      FlatConcat(a, b[..n]);
      assert (a + b)[..|a| + n] == a + b[..n];
    }
  }

  lemma Slice(b: Bytes, l: Bytes, tail: Bytes, i: nat, j: nat)
    requires b == l + tail && i <= j <= |l|
    ensures b[i..j] == l[i..j]
  {
  }

  /** Items of `n` bytes each sit at multiples of `n`. */
  lemma {:induction false} FlatUniform(items: seq<Bytes>, n: nat, i: nat)
    requires i < |items| && forall k :: 0 <= k < |items| ==> |items[k]| == n
    ensures |Flat(items)| == |items| * n && 0 <= i * n <= i * n + n <= |Flat(items)|
    ensures Flat(items)[i * n..i * n + n] == items[i]
  {
    var m := |items| - 1;
    UniformSize(items, n);
    UniformSize(items[..m], n);
    assert Flat(items) == Flat(items[..m]) + items[m];
    assert m * n + n == |items| * n;
    if i < m {
      FlatUniform(items[..m], n, i);
      assert Flat(items)[i * n..i * n + n] == Flat(items[..m])[i * n..i * n + n];
    }
  }

  lemma {:induction false} UniformSize(items: seq<Bytes>, n: nat)
    requires forall k :: 0 <= k < |items| ==> |items[k]| == n
    ensures |Flat(items)| == |items| * n
  {
    if items != [] {
      UniformSize(items[..|items| - 1], n);
      assert (|items| - 1) * n + n == |items| * n;
    }
  }

  ghost predicate SameSizes(a: seq<Bytes>, b: seq<Bytes>) {
    |a| == |b| && forall i :: 0 <= i < |a| ==> |a[i]| == |b[i]|
  }

  /** A buffer determines its items once their sizes are known. */
  lemma {:induction false} FlatInjective(a: seq<Bytes>, b: seq<Bytes>)
    requires SameSizes(a, b) && Flat(a) == Flat(b)
    ensures a == b
  {
    if a != [] {
      var n := |a| - 1;
      assert |Flat(a[..n])| == |Flat(b[..n])|;
      assert Flat(a[..n]) == Flat(a)[..|Flat(a[..n])|] == Flat(b[..n]);
      assert a[n] == Flat(a)[|Flat(a[..n])|..] == b[n];
      FlatInjective(a[..n], b[..n]);
      assert a == a[..n] + [a[n]] && b == b[..n] + [b[n]];
    }
  }

  lemma {:induction false} FlatSize(a: seq<Bytes>, b: seq<Bytes>)
    requires SameSizes(a, b)
    ensures |Flat(a)| == |Flat(b)|
  {
    if a != [] { FlatSize(a[..|a| - 1], b[..|b| - 1]); }
  }
}
