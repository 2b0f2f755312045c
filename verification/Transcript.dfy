/**
 The Fiat-Shamir transcript of crates/ultrazk-soroban-verifier/src/transcript.rs as
 a chain of 77 hashes over an uninterpreted `hash_to_fr`.
 */
module Transcripts {
  import opened Encoding

  /** A field element in its canonical 32-byte form, and an affine point. */
  type Word = b: Bytes | |b| == 32 witness Zeros(32)
  type Point = b: Bytes | |b| == 64 witness Zeros(64)

  const LOG_N: nat := 28
  const ALPHAS: nat := 25
  const ENTITIES: nat := 40
  const UNIVARIATE: nat := 9
  const STEPS: nat := 77

  datatype Statement = Statement(circuitSize: nat, publicInputsSize: nat, offset: nat, publicInputs: Bytes)

  datatype Proof = Proof(
    pairing: seq<Word>, w1: Point, w2: Point, w3: Point, w4: Point,
    readCounts: Point, readTags: Point, inverses: Point, zPerm: Point,
    libraConcat: Point, libraSum: Word,
    univariates: seq<seq<Word>>, evaluations: seq<Word>, libraClaimed: Word,
    libraGrandSum: Point, libraQuotient: Point, hiding: Point, hidingEval: Word,
    foldComs: seq<Point>, aEvals: seq<Word>, libraEvals: seq<Word>,
    shplonkQ: Point, kzgQuotient: Point)

  /** `validate_proof` and the 64-bit sizes. */
  ghost predicate WellFormed(st: Statement, p: Proof) {
    && st.circuitSize < U64 && st.publicInputsSize < U64 && st.offset < U64
    && |p.pairing| == 16 && |p.univariates| == LOG_N
    && (forall r :: 0 <= r < LOG_N ==> |p.univariates[r]| == UNIVARIATE)
    && |p.evaluations| == ENTITIES && |p.foldComs| == LOG_N - 1 && |p.aEvals| == LOG_N && |p.libraEvals| == 4
  }

  function PointItems(ps: seq<Point>): (s: seq<Bytes>)
    ensures |s| == |ps| && forall i :: 0 <= i < |s| ==> s[i] == PointBytes(ps[i])
  {
    seq(|ps|, i requires 0 <= i < |ps| => PointBytes(ps[i]))
  }

  function Rest(p: Proof): seq<Bytes> {
    p.pairing + PointItems([p.w1, p.w2, p.w3])
  }

  function Sizes(st: Statement): seq<Bytes> {
    [U64ToBe32(st.circuitSize), U64ToBe32(st.publicInputsSize), U64ToBe32(st.offset), st.publicInputs]
  }

  /** What step `k` absorbs after the previous challenge. */
  function ItemsAt(st: Statement, p: Proof, k: nat): seq<Bytes>
    requires k < STEPS && |p.univariates| == LOG_N
  {
    if k == 0 then Sizes(st) + Rest(p)
    else if k == 1 then []
    else if k == 2 then PointItems([p.readCounts, p.readTags, p.w4])
    else if k == 3 then PointItems([p.inverses, p.zPerm])
    else if k < 44 then []
    else if k == 44 then PointItems([p.libraConcat]) + [p.libraSum]
    else if k < 73 then p.univariates[k - 45]
    else if k == 73 then
      p.evaluations + [p.libraClaimed] + PointItems([p.libraGrandSum, p.libraQuotient, p.hiding]) + [p.hidingEval]
    else if k == 74 then PointItems(p.foldComs)
    else if k == 75 then p.aEvals + p.libraEvals
    else PointItems([p.shplonkQ])
  }

  /** The buffer step `k` hashes. */
  function Buffer(H: Bytes -> Word, st: Statement, p: Proof, k: nat): Bytes
    requires k < STEPS && |p.univariates| == LOG_N
    decreases k, 0
  {
    (if k == 0 then [] else Chain(H, st, p, k - 1)) + Flat(ItemsAt(st, p, k))
  }

  /** The chained challenge after step `k`. */
  function Chain(H: Bytes -> Word, st: Statement, p: Proof, k: nat): Word
    requires k < STEPS && |p.univariates| == LOG_N
    decreases k, 1
  {
    H(Buffer(H, st, p, k))
  }

  /** `split_challenge`: the low and high 128 bits. */
  function Low(w: Word): (r: Word)
    ensures Value(r) == Value(w) % TWO_128
  {
    LowValue(w);
    Zeros(16) + w[16..]
  }

  function High(w: Word): (r: Word)
    ensures Value(r) == Value(w) / TWO_128
  {
    HighValue(w);
    Zeros(16) + w[..16]
  }

  /** The number a word stands for. */
  function Value(w: Word): nat { FromBigEndian(w) }

  lemma LowValue(w: Word)
    ensures FromBigEndian(Zeros(16) + w[16..]) == FromBigEndian(w) % TWO_128
  {
    Powers();
    SplitNumber(w, 16);
    PaddedValue(16, w[16..]);
  }

  lemma HighValue(w: Word)
    ensures FromBigEndian(Zeros(16) + w[..16]) == FromBigEndian(w) / TWO_128
  {
    Powers();
    SplitNumber(w, 16);
    PaddedValue(16, w[..16]);
  }

  datatype Transcript = Transcript(
    eta: Word, etaTwo: Word, etaThree: Word, beta: Word, gamma: Word,
    alphas: seq<Word>, gates: seq<Word>, libra: Word, us: seq<Word>,
    rho: Word, geminiR: Word, nu: Word, z: Word)

  function AlphaAt(H: Bytes -> Word, st: Statement, p: Proof, i: nat): Word
    requires i < ALPHAS && |p.univariates| == LOG_N
  {
    var w := Chain(H, st, p, 3 + i / 2);
    if i % 2 == 0 then Low(w) else High(w)
  }

  /** The first `n` alphas. */
  function AlphasOf(H: Bytes -> Word, st: Statement, p: Proof, n: nat): (s: seq<Word>)
    requires |p.univariates| == LOG_N && n <= ALPHAS
    ensures |s| == n && forall i :: 0 <= i < n ==> s[i] == AlphaAt(H, st, p, i)
  {
    if n == 0 then [] else AlphasOf(H, st, p, n - 1) + [AlphaAt(H, st, p, n - 1)]
  }

  /** The low halves of the `n` steps from `from` on. */
  function LowHalves(H: Bytes -> Word, st: Statement, p: Proof, from: nat, n: nat): (s: seq<Word>)
    requires |p.univariates| == LOG_N && from + n <= STEPS
    ensures |s| == n && forall i :: 0 <= i < n ==> s[i] == Low(Chain(H, st, p, from + i))
  {
    if n == 0 then [] else LowHalves(H, st, p, from, n - 1) + [Low(Chain(H, st, p, from + n - 1))]
  }

  /** Which step and half each challenge comes from. */
  function TranscriptOf(H: Bytes -> Word, st: Statement, p: Proof): Transcript
    requires |p.univariates| == LOG_N
  {
    Transcript(
      Low(Chain(H, st, p, 0)), High(Chain(H, st, p, 0)), Low(Chain(H, st, p, 1)),
      Low(Chain(H, st, p, 2)), High(Chain(H, st, p, 2)),
      AlphasOf(H, st, p, ALPHAS), LowHalves(H, st, p, 16, LOG_N), Low(Chain(H, st, p, 44)),
      LowHalves(H, st, p, 45, LOG_N),
      Low(Chain(H, st, p, 73)), Low(Chain(H, st, p, 74)), Low(Chain(H, st, p, 75)), Low(Chain(H, st, p, 76)))
  }

  // ---- The generators ----

  method AppendPoints(data: Bytes, ps: seq<Point>) returns (out: Bytes)
    ensures out == data + Flat(PointItems(ps))
  {
    hide Flat, PointBytes;
    FlatEmpty();
    out := data;
    var items := PointItems(ps);
    for i := 0 to |ps|
      invariant out == data + Flat(items[..i])
    {
      assert items[..i + 1] == items[..i] + [items[i]];
      FlatAppend(items[..i], items[i]);
      out := out + PointBytes(ps[i]);
    }
    assert items[..|ps|] == items;
  }

  lemma FlatEmpty()
    ensures Flat([]) == []
  {
  }

  method AppendWords(data: Bytes, ws: seq<Word>) returns (out: Bytes)
    ensures out == data + Flat(ws)
  {
    hide Flat;
    FlatEmpty();
    out := data;
    for i := 0 to |ws|
      invariant out == data + Flat(ws[..i])
    {
      assert ws[..i + 1] == ws[..i] + [ws[i]];
      FlatAppend(ws[..i], ws[i]);
      out := out + ws[i];
    }
    assert ws[..|ws|] == ws;
  }

  method GenerateEta(H: Bytes -> Word, st: Statement, p: Proof)
    returns (eta: Word, etaTwo: Word, etaThree: Word, second: Word)
    requires WellFormed(st, p)
    ensures second == Chain(H, st, p, 1)
    ensures eta == Low(Chain(H, st, p, 0)) && etaTwo == High(Chain(H, st, p, 0)) && etaThree == Low(second)
  {
    hide PointItems, Flat, Low, High, Chain, U64ToBe32;
    ChainIsHash(H, st, p, 0);
    ChainIsHash(H, st, p, 1);
    FlatEmpty();
    var data := U64ToBe32(st.circuitSize) + U64ToBe32(st.publicInputsSize) + U64ToBe32(st.offset) + st.publicInputs;
    SizesFlat(st);
    data := AppendWords(data, p.pairing);
    data := AppendPoints(data, [p.w1, p.w2, p.w3]);
    FlatConcat(p.pairing, PointItems([p.w1, p.w2, p.w3]));
    FlatConcat(Sizes(st), Rest(p));
    assert data == Buffer(H, st, p, 0);
    var first := H(data);
    eta, etaTwo := Low(first), High(first);
    second := H(first);
    assert Buffer(H, st, p, 1) == first;
    etaThree := Low(second);
  }

  lemma SizesFlat(st: Statement)
    ensures Flat(Sizes(st)) == U64ToBe32(st.circuitSize) + U64ToBe32(st.publicInputsSize) + U64ToBe32(st.offset)
                               + st.publicInputs
  {
    var a, b, c := U64ToBe32(st.circuitSize), U64ToBe32(st.publicInputsSize), U64ToBe32(st.offset);
    FlatAppend([], a);
    FlatAppend([a], b);
    FlatAppend([a, b], c);
    FlatAppend([a, b, c], st.publicInputs);
    assert [] + [a] == [a] && [a] + [b] == [a, b] && [a, b] + [c] == [a, b, c];
    assert [a, b, c] + [st.publicInputs] == Sizes(st);
  }

  /** One hash over the previous challenge and some points, as in most generators. */
  method HashPoints(H: Bytes -> Word, previous: Word, ps: seq<Point>) returns (next: Word)
    ensures next == H(previous + Flat(PointItems(ps)))
  {
    var data := AppendPoints(previous, ps);
    next := H(data);
  }

  method GenerateBetaGamma(H: Bytes -> Word, ghost st: Statement, p: Proof, previous: Word)
    returns (beta: Word, gamma: Word, next: Word)
    requires WellFormed(st, p) && previous == Chain(H, st, p, 1)
    ensures next == Chain(H, st, p, 2) && beta == Low(next) && gamma == High(next)
  {
    hide Chain, Flat, PointItems, Low, High;
    ChainIsHash(H, st, p, 2);
    next := HashPoints(H, previous, [p.readCounts, p.readTags, p.w4]);
    beta, gamma := Low(next), High(next);
  }

  method GenerateAlphas(H: Bytes -> Word, ghost st: Statement, p: Proof, previous: Word)
    returns (alphas: seq<Word>, next: Word)
    requires WellFormed(st, p) && previous == Chain(H, st, p, 2)
    ensures next == Chain(H, st, p, 15)
    ensures |alphas| == ALPHAS && forall i :: 0 <= i < ALPHAS ==> alphas[i] == AlphaAt(H, st, p, i)
  {
    hide Low, High, Chain, Flat, PointItems, ItemsAt;
    ThirdStep(H, st, p);
    next := HashPoints(H, previous, [p.inverses, p.zPerm]);
    alphas := [Low(next), High(next)];
    for i := 1 to ALPHAS / 2
      invariant |alphas| == 2 * i && next == Chain(H, st, p, 2 + i)
      invariant forall k :: 0 <= k < 2 * i ==> alphas[k] == AlphaAt(H, st, p, k)
    {
      EmptyStep(H, st, p, 3 + i);
      next := H(next);
      assert (2 * i) / 2 == i && (2 * i + 1) / 2 == i;
      alphas := alphas + [Low(next), High(next)];
    }
    EmptyStep(H, st, p, 15);
    next := H(next);
    alphas := alphas + [Low(next)];
  }

  lemma ThirdStep(H: Bytes -> Word, st: Statement, p: Proof)
    requires WellFormed(st, p)
    ensures Chain(H, st, p, 3) == H(Chain(H, st, p, 2) + Flat(PointItems([p.inverses, p.zPerm])))
  {
    hide Chain, Flat, PointItems;
    ChainIsHash(H, st, p, 3);
  }

  /** A step that absorbs nothing hashes the previous challenge alone. */
  lemma EmptyStep(H: Bytes -> Word, st: Statement, p: Proof, k: nat)
    requires WellFormed(st, p) && 4 <= k < 44
    ensures Chain(H, st, p, k) == H(Chain(H, st, p, k - 1))
  {
    hide Chain;
    assert Buffer(H, st, p, k) == Chain(H, st, p, k - 1);
    ChainIsHash(H, st, p, k);
  }

  lemma ChainIsHash(H: Bytes -> Word, st: Statement, p: Proof, k: nat)
    requires k < STEPS && |p.univariates| == LOG_N
    ensures Chain(H, st, p, k) == H(Buffer(H, st, p, k))
  {
  }

  method GenerateGates(H: Bytes -> Word, ghost st: Statement, ghost p: Proof, previous: Word)
    returns (gates: seq<Word>, next: Word)
    requires WellFormed(st, p) && previous == Chain(H, st, p, 15)
    ensures next == Chain(H, st, p, 43)
    ensures |gates| == LOG_N && forall i :: 0 <= i < LOG_N ==> gates[i] == Low(Chain(H, st, p, 16 + i))
  {
    hide Low;
    next := previous;
    gates := [];
    for i := 0 to LOG_N
      invariant |gates| == i && next == Chain(H, st, p, 15 + i)
      invariant forall k :: 0 <= k < i ==> gates[k] == Low(Chain(H, st, p, 16 + k))
    {
      EmptyStep(H, st, p, 16 + i);
      next := H(next);
      gates := gates + [Low(next)];
    }
  }

  method GenerateLibra(H: Bytes -> Word, ghost st: Statement, p: Proof, previous: Word)
    returns (libra: Word, next: Word)
    requires WellFormed(st, p) && previous == Chain(H, st, p, 43)
    ensures next == Chain(H, st, p, 44) && libra == Low(next)
  {
    hide Chain, Flat, PointItems, Low;
    ChainIsHash(H, st, p, 44);
    var data := AppendPoints(previous, [p.libraConcat]);
    data := data + p.libraSum;
    FlatAppend(PointItems([p.libraConcat]), p.libraSum);
    next := H(data);
    assert data == Buffer(H, st, p, 44);
    libra := Low(next);
  }

  method GenerateSumcheck(H: Bytes -> Word, ghost st: Statement, p: Proof, previous: Word)
    returns (us: seq<Word>, next: Word)
    requires WellFormed(st, p) && previous == Chain(H, st, p, 44)
    ensures next == Chain(H, st, p, 72)
    ensures |us| == LOG_N && forall i :: 0 <= i < LOG_N ==> us[i] == Low(Chain(H, st, p, 45 + i))
  {
    hide Low, Chain, Flat;
    next := previous;
    us := [];
    for r := 0 to LOG_N
      invariant |us| == r && next == Chain(H, st, p, 44 + r)
      invariant forall k :: 0 <= k < r ==> us[k] == Low(Chain(H, st, p, 45 + k))
    {
      ChainIsHash(H, st, p, 45 + r);
      var data := AppendWords(next, p.univariates[r]);
      assert data == Buffer(H, st, p, 45 + r);
      next := H(data);
      us := us + [Low(next)];
    }
  }

  method GenerateRho(H: Bytes -> Word, ghost st: Statement, p: Proof, previous: Word) returns (rho: Word, next: Word)
    requires WellFormed(st, p) && previous == Chain(H, st, p, 72)
    ensures next == Chain(H, st, p, 73) && rho == Low(next)
  {
    hide PointItems, Chain, Flat, Low;
    ChainIsHash(H, st, p, 73);
    var pts := [p.libraGrandSum, p.libraQuotient, p.hiding];
    var data := AppendWords(previous, p.evaluations);
    data := data + p.libraClaimed;
    data := AppendPoints(data, pts);
    data := data + p.hidingEval;
    FlatAppend(p.evaluations, p.libraClaimed);
    FlatConcat(p.evaluations + [p.libraClaimed], PointItems(pts));
    FlatAppend(p.evaluations + [p.libraClaimed] + PointItems(pts), p.hidingEval);
    next := H(data);
    assert data == Buffer(H, st, p, 73);
    rho := Low(next);
  }

  method GenerateGeminiR(H: Bytes -> Word, ghost st: Statement, p: Proof, previous: Word) returns (r: Word, next: Word)
    requires WellFormed(st, p) && previous == Chain(H, st, p, 73)
    ensures next == Chain(H, st, p, 74) && r == Low(next)
  {
    hide Chain, Flat, PointItems, Low, High;
    ChainIsHash(H, st, p, 74);
    next := HashPoints(H, previous, p.foldComs);
    r := Low(next);
  }

  method GenerateNu(H: Bytes -> Word, ghost st: Statement, p: Proof, previous: Word) returns (nu: Word, next: Word)
    requires WellFormed(st, p) && previous == Chain(H, st, p, 74)
    ensures next == Chain(H, st, p, 75) && nu == Low(next)
  {
    hide Chain, Flat, Low;
    ChainIsHash(H, st, p, 75);
    var data := AppendWords(previous, p.aEvals);
    data := AppendWords(data, p.libraEvals);
    FlatConcat(p.aEvals, p.libraEvals);
    next := H(data);
    assert data == Buffer(H, st, p, 75);
    nu := Low(next);
  }

  method GenerateZ(H: Bytes -> Word, ghost st: Statement, p: Proof, previous: Word) returns (z: Word, next: Word)
    requires WellFormed(st, p) && previous == Chain(H, st, p, 75)
    ensures next == Chain(H, st, p, 76) && z == Low(next)
  {
    hide Chain, Flat, PointItems, Low, High;
    ChainIsHash(H, st, p, 76);
    next := HashPoints(H, previous, [p.shplonkQ]);
    z := Low(next);
  }

  /** `generate_transcript`. */
  method GenerateTranscript(H: Bytes -> Word, st: Statement, p: Proof) returns (t: Transcript)
    requires WellFormed(st, p)
    ensures t == TranscriptOf(H, st, p) && AreChallenges(H, st, p, t)
  {
    hide Chain, Low, High, AreChallenges;
    ChallengeValues(H, st, p);
    var eta, etaTwo, etaThree, c := GenerateEta(H, st, p);
    var beta, gamma, alphas, gates, libra, us;
    beta, gamma, c := GenerateBetaGamma(H, st, p, c);
    alphas, c := GenerateAlphas(H, st, p, c);
    gates, c := GenerateGates(H, st, p, c);
    libra, c := GenerateLibra(H, st, p, c);
    us, c := GenerateSumcheck(H, st, p, c);
    var rho, r, nu, z;
    rho, c := GenerateRho(H, st, p, c);
    r, c := GenerateGeminiR(H, st, p, c);
    nu, c := GenerateNu(H, st, p, c);
    z, c := GenerateZ(H, st, p, c);
    t := Transcript(eta, etaTwo, etaThree, beta, gamma, alphas, gates, libra, us, rho, r, nu, z);
    var s := TranscriptOf(H, st, p);
    assert t.alphas == s.alphas && t.gates == s.gates && t.us == s.us;
  }

  // ---- What the challenges are ----

  /** Challenge `c` is the lower half of the hash of step `k`. */
  ghost predicate IsLow(H: Bytes -> Word, st: Statement, p: Proof, k: nat, c: Word)
    requires k < STEPS && |p.univariates| == LOG_N
  {
    Value(c) == Value(Chain(H, st, p, k)) % TWO_128
  }

  /** Two challenges make up the hash of step `k`, the lower half first. */
  ghost predicate AreHalves(H: Bytes -> Word, st: Statement, p: Proof, k: nat, low: Word, high: Word)
    requires k < STEPS && |p.univariates| == LOG_N
  {
    && Value(low) + TWO_128 * Value(high) == Value(Chain(H, st, p, k))
    && Value(low) < TWO_128 && Value(high) < TWO_128
  }

  /**
   The transcript's challenges as numbers: eta and eta two, beta and gamma, and the alphas in pairs are the halves
   of a hash, and every other challenge is its hash modulo 2^128.
   */
  ghost predicate AreChallenges(H: Bytes -> Word, st: Statement, p: Proof, t: Transcript)
    requires |p.univariates| == LOG_N
  {
    && AreHalves(H, st, p, 0, t.eta, t.etaTwo) && IsLow(H, st, p, 1, t.etaThree)
    && AreHalves(H, st, p, 2, t.beta, t.gamma)
    && |t.alphas| == ALPHAS && |t.gates| == |t.us| == LOG_N
    && (forall i :: 0 <= i < 12 ==> AreHalves(H, st, p, 3 + i, t.alphas[2 * i], t.alphas[2 * i + 1]))
    && IsLow(H, st, p, 15, t.alphas[24])
    && (forall i :: 0 <= i < LOG_N ==> IsLow(H, st, p, 16 + i, t.gates[i]))
    && IsLow(H, st, p, 44, t.libra)
    && (forall r :: 0 <= r < LOG_N ==> IsLow(H, st, p, 45 + r, t.us[r]))
    && IsLow(H, st, p, 73, t.rho) && IsLow(H, st, p, 74, t.geminiR) && IsLow(H, st, p, 75, t.nu) && IsLow(H, st, p, 76, t.z)
  }

  lemma ChallengeValues(H: Bytes -> Word, st: Statement, p: Proof)
    requires WellFormed(st, p)
    ensures AreChallenges(H, st, p, TranscriptOf(H, st, p))
  {
    hide Chain, Value, Low, High;
    HalvesValue(Chain(H, st, p, 0));
    HalvesValue(Chain(H, st, p, 2));
    var t := TranscriptOf(H, st, p);
    forall i | 0 <= i < 12 ensures AreHalves(H, st, p, 3 + i, t.alphas[2 * i], t.alphas[2 * i + 1]) {
      HalvesValue(Chain(H, st, p, 3 + i));
      assert (2 * i) / 2 == i && (2 * i + 1) / 2 == i && (2 * i) % 2 == 0 && (2 * i + 1) % 2 == 1;
      assert t.alphas[2 * i] == AlphaAt(H, st, p, 2 * i) && t.alphas[2 * i + 1] == AlphaAt(H, st, p, 2 * i + 1);
    }
    assert t.alphas[24] == AlphaAt(H, st, p, 24);
  }

  lemma HalvesValue(w: Word)
    ensures Value(Low(w)) + TWO_128 * Value(High(w)) == Value(w)
    ensures Value(Low(w)) < TWO_128 && Value(High(w)) < TWO_128
  {
    hide Low, High;
    Powers();
    assert Value(High(w)) < TWO_128 by {
      hide FromBigEndian;
      assert w == w[..16] + w[16..];
      SplitNumber(w, 16);
      BigEndianBound(w[..16]);
    }
  }

  // ---- What is hashed, byte by byte ----

  /** Bytes `at` to `at + 128` of the buffer are the point `q`, in its transcript layout. */
  ghost predicate PointSits(b: Bytes, at: nat, q: Point) { at + 128 <= |b| && PointFromChunk(b[at..at + 128]) == q }

  ghost predicate WordSits(b: Bytes, at: nat, w: Word) { at + 32 <= |b| && b[at..at + 32] == w }

  lemma PointsSit(previous: Bytes, ps: seq<Point>, i: nat)
    requires |previous| == 32 && i < |ps|
    ensures |previous + Flat(PointItems(ps))| == 32 + |ps| * 128
    ensures PointSits(previous + Flat(PointItems(ps)), 32 + i * 128, ps[i])
  {
    hide Flat, PointSits;
    PointInside(previous + Flat(PointItems(ps)), previous, ps, i);
  }

  lemma WordsSit(previous: Bytes, ws: seq<Word>, i: nat)
    requires i < |ws|
    ensures |previous + Flat(ws)| == |previous| + |ws| * 32
    ensures WordSits(previous + Flat(ws), |previous| + i * 32, ws[i])
  {
    hide Flat;
    FlatUniform(ws, 32, i);
    var (b, n) := (previous + Flat(ws), |previous|);
    assert b[n + i * 32..n + i * 32 + 32] == Flat(ws)[i * 32..i * 32 + 32];
  }

  /** The first buffer: three sizes, the public inputs, 16 pairing words, three wires. */
  lemma PreambleLayout(H: Bytes -> Word, st: Statement, p: Proof, i: nat)
    requires WellFormed(st, p) && i < 16
    ensures var (b, n) := (Buffer(H, st, p, 0), 96 + |st.publicInputs|);
      && |b| == n + 896
      && FromBigEndian(b[..32]) == st.circuitSize && FromBigEndian(b[32..64]) == st.publicInputsSize
      && FromBigEndian(b[64..96]) == st.offset && b[96..n] == st.publicInputs
      && WordSits(b, n + i * 32, p.pairing[i])
      && PointSits(b, n + 512, p.w1) && PointSits(b, n + 640, p.w2) && PointSits(b, n + 768, p.w3)
  {
    hide Flat, PointItems, Sizes, WordSits, PointSits;
    var ps := [p.w1, p.w2, p.w3];
    FlatConcat(Sizes(st), Rest(p));
    FlatConcat(p.pairing, PointItems(ps));
    HeadLayout(st);
    ThreeParts(Flat(Sizes(st)), p.pairing, ps, i);
    assert Buffer(H, st, p, 0) == Flat(Sizes(st)) + Flat(p.pairing) + Flat(PointItems(ps));
  }

  lemma HeadLayout(st: Statement)
    requires st.circuitSize < U64 && st.publicInputsSize < U64 && st.offset < U64
    ensures var b := Flat(Sizes(st));
      && |b| == 96 + |st.publicInputs| && FromBigEndian(b[..32]) == st.circuitSize
      && FromBigEndian(b[32..64]) == st.publicInputsSize && FromBigEndian(b[64..96]) == st.offset && b[96..] == st.publicInputs
  {
    hide Flat, U64ToBe32;
    SizesFlat(st);
    var b := Flat(Sizes(st));
    assert b[..32] == U64ToBe32(st.circuitSize) && b[32..64] == U64ToBe32(st.publicInputsSize)
      && b[64..96] == U64ToBe32(st.offset);
    U64Value(st.circuitSize);
    U64Value(st.publicInputsSize);
    U64Value(st.offset);
  }

  lemma HeadSlices(b: Bytes, head: Bytes, rest: Bytes)
    requires |head| >= 96 && b == head + rest
    ensures b[..32] == head[..32] && b[32..64] == head[32..64] && b[64..96] == head[64..96] && b[96..|head|] == head[96..]
  {
  }

  lemma WordInside(head: Bytes, ws: seq<Word>, tail: Bytes, i: nat)
    requires i < |ws|
    ensures WordSits(head + Flat(ws) + tail, |head| + i * 32, ws[i]) && |Flat(ws)| == |ws| * 32
  {
    hide Flat;
    var l := head + Flat(ws);
    WordsSit(head, ws, i);
    Slice(l + tail, l, tail, |head| + i * 32, |head| + i * 32 + 32);
  }

  lemma ThreeParts(head: Bytes, ws: seq<Word>, ps: seq<Point>, i: nat)
    requires |ws| == 16 && |ps| == 3 && i < 16 && |head| >= 96
    ensures var (b, n) := (head + Flat(ws) + Flat(PointItems(ps)), |head|);
      && |b| == n + 896 && b[..32] == head[..32] && b[32..64] == head[32..64] && b[64..96] == head[64..96] && b[96..n] == head[96..]
      && WordSits(b, n + i * 32, ws[i])
      && PointSits(b, n + 512, ps[0]) && PointSits(b, n + 640, ps[1]) && PointSits(b, n + 768, ps[2])
  {
    hide Flat, PointItems, PointSits, WordSits;
    var (l, tail) := (head + Flat(ws), Flat(PointItems(ps)));
    WordInside(head, ws, tail, i);
    WiresSit(l + tail, l, ps);
    HeadSlices(l + tail, head, Flat(ws) + tail) by { assert l + tail == head + (Flat(ws) + tail); }
  }

  lemma WiresSit(b: Bytes, head: Bytes, ps: seq<Point>)
    requires |ps| == 3 && b == head + Flat(PointItems(ps))
    ensures |b| == |head| + 384
    ensures PointSits(b, |head|, ps[0]) && PointSits(b, |head| + 128, ps[1]) && PointSits(b, |head| + 256, ps[2])
  {
    hide Flat, PointSits;
    PointInside(b, head, ps, 0);
    PointInside(b, head, ps, 1);
    PointInside(b, head, ps, 2);
  }

  lemma PointInside(b: Bytes, head: Bytes, ps: seq<Point>, i: nat)
    requires i < |ps| && b == head + Flat(PointItems(ps))
    ensures |b| == |head| + |ps| * 128 && PointSits(b, |head| + i * 128, ps[i])
  {
    hide Flat;
    var items := PointItems(ps);
    FlatUniform(items, 128, i);
    assert b[|head| + i * 128..|head| + i * 128 + 128] == Flat(items)[i * 128..i * 128 + 128];
    PointRoundTrip(ps[i]);
  }

  /** Every later buffer begins with the previous hash. */
  lemma Chained(H: Bytes -> Word, st: Statement, p: Proof, k: nat)
    requires WellFormed(st, p) && 0 < k < STEPS
    ensures WordSits(Buffer(H, st, p, k), 0, Chain(H, st, p, k - 1))
  {
    hide Chain, Flat;
  }

  /** The lookup and grand product commitments, and the Libra commitment with its sum. */
  lemma CommitmentLayout(H: Bytes -> Word, st: Statement, p: Proof)
    requires WellFormed(st, p)
    ensures var b := Buffer(H, st, p, 2);
      |b| == 416 && PointSits(b, 32, p.readCounts) && PointSits(b, 160, p.readTags) && PointSits(b, 288, p.w4)
    ensures var b := Buffer(H, st, p, 3); |b| == 288 && PointSits(b, 32, p.inverses) && PointSits(b, 160, p.zPerm)
    ensures var b := Buffer(H, st, p, 44); |b| == 192 && PointSits(b, 32, p.libraConcat) && WordSits(b, 160, p.libraSum)
    ensures var b := Buffer(H, st, p, 76); |b| == 160 && PointSits(b, 32, p.shplonkQ)
    ensures forall k :: k == 1 || 4 <= k < 44 ==> |Buffer(H, st, p, k)| == 32
  {
    hide Chain, Flat, PointItems;
    FlatEmpty();
    var (a, b, c, d) := ([p.readCounts, p.readTags, p.w4], [p.inverses, p.zPerm], [p.libraConcat], [p.shplonkQ]);
    PointsSit(Chain(H, st, p, 1), a, 0);
    PointsSit(Chain(H, st, p, 1), a, 1);
    PointsSit(Chain(H, st, p, 1), a, 2);
    PointsSit(Chain(H, st, p, 2), b, 0);
    PointsSit(Chain(H, st, p, 2), b, 1);
    PointsSit(Chain(H, st, p, 75), d, 0);
    PointsSit(Chain(H, st, p, 43), c, 0);
    FlatAppend(PointItems(c), p.libraSum);
    var l := Chain(H, st, p, 43) + Flat(PointItems(c));
    assert Buffer(H, st, p, 44) == l + p.libraSum;
    assert Buffer(H, st, p, 44)[32..160] == l[32..160];
  }

  /** The message of round `r`. */
  lemma RoundLayout(H: Bytes -> Word, st: Statement, p: Proof, r: nat, i: nat)
    requires WellFormed(st, p) && r < LOG_N && i < UNIVARIATE
    ensures var b := Buffer(H, st, p, 45 + r); |b| == 320 && WordSits(b, 32 + i * 32, p.univariates[r][i])
  {
    hide Chain, Flat;
    WordsSit(Chain(H, st, p, 44 + r), p.univariates[r], i);
  }

  /** The evaluations and the last three Libra and hiding commitments. */
  lemma EvaluationLayout(H: Bytes -> Word, st: Statement, p: Proof, i: nat)
    requires WellFormed(st, p) && i < ENTITIES
    ensures var b := Buffer(H, st, p, 73);
      && |b| == 1760 && WordSits(b, 32 + i * 32, p.evaluations[i]) && WordSits(b, 1312, p.libraClaimed)
      && PointSits(b, 1344, p.libraGrandSum) && PointSits(b, 1472, p.libraQuotient) && PointSits(b, 1600, p.hiding)
      && WordSits(b, 1728, p.hidingEval)
  {
    hide Chain, Flat, PointItems, WordSits, PointSits;
    var (c, pts) := (Chain(H, st, p, 72), [p.libraGrandSum, p.libraQuotient, p.hiding]);
    FlatAppend(p.evaluations, p.libraClaimed);
    FlatConcat(p.evaluations + [p.libraClaimed], PointItems(pts));
    FlatAppend(p.evaluations + [p.libraClaimed] + PointItems(pts), p.hidingEval);
    var (ws, tail) := (Flat(p.evaluations), Flat(PointItems(pts)));
    assert Buffer(H, st, p, 73) == c + ws + (p.libraClaimed + tail + p.hidingEval);
    WordInside(c, p.evaluations, p.libraClaimed + tail + p.hidingEval, i);
    EvaluationTail(c + ws, p.libraClaimed, pts, p.hidingEval);
    assert c + ws + (p.libraClaimed + tail + p.hidingEval) == c + ws + p.libraClaimed + tail + p.hidingEval;
  }

  lemma EvaluationTail(head: Bytes, claimed: Word, pts: seq<Point>, last: Word)
    requires |pts| == 3
    ensures var (b, n) := (head + claimed + Flat(PointItems(pts)) + last, |head|);
      && |b| == n + 448 && WordSits(b, n, claimed) && WordSits(b, n + 416, last)
      && PointSits(b, n + 32, pts[0]) && PointSits(b, n + 160, pts[1]) && PointSits(b, n + 288, pts[2])
  {
    hide Flat, PointItems;
    var (l, tail, n) := (head + claimed, Flat(PointItems(pts)), |head|);
    var m := l + tail;
    WiresSit(m, l, pts);
    Slice(m + last, m, last, n + 32, n + 160);
    Slice(m + last, m, last, n + 160, n + 288);
    Slice(m + last, m, last, n + 288, n + 416);
    assert (m + last)[n..n + 32] == claimed;
  }

  /** The fold commitments, then the fold and Libra evaluations. */
  lemma OpeningLayout(H: Bytes -> Word, st: Statement, p: Proof, i: nat)
    requires WellFormed(st, p)
    ensures i < LOG_N - 1 ==> PointSits(Buffer(H, st, p, 74), 32 + i * 128, p.foldComs[i])
    ensures i < LOG_N ==> WordSits(Buffer(H, st, p, 75), 32 + i * 32, p.aEvals[i])
    ensures i < 4 ==> WordSits(Buffer(H, st, p, 75), 928 + i * 32, p.libraEvals[i])
    ensures |Buffer(H, st, p, 74)| == 3488 && |Buffer(H, st, p, 75)| == 1056
  {
    hide Chain, Flat, PointItems;
    PointsSit(Chain(H, st, p, 73), p.foldComs, if i < LOG_N - 1 then i else 0);
    var (c, ws) := (Chain(H, st, p, 74), p.aEvals + p.libraEvals);
    WordsSit(c, ws, if i < LOG_N then i else 0);
    if i < 4 { WordsSit(c, ws, LOG_N + i); }
  }

  // ---- Binding ----

  ghost predicate Collision(H: Bytes -> Word, a: Bytes, b: Bytes) {
    a != b && H(a) == H(b)
  }

  /** Some step of the two runs hashes two different buffers to the same value. */
  ghost predicate CollisionAt(H: Bytes -> Word, st: Statement, p: Proof, st': Statement, p': Proof, k: nat)
    requires k < STEPS && |p.univariates| == |p'.univariates| == LOG_N
  {
    Collision(H, Buffer(H, st, p, k), Buffer(H, st', p', k))
  }

  /** Everything absorbed is equal: all inputs except the last quotient commitment. */
  ghost predicate SameAbsorbed(st: Statement, p: Proof, st': Statement, p': Proof) {
    st == st' && p.(kzgQuotient := p'.kzgQuotient) == p'
  }

  /** Equal challenges after step `k` mean equal buffers up to `k`, or a collision. */
  lemma {:induction false} ChainBinding(H: Bytes -> Word, st: Statement, p: Proof, st': Statement, p': Proof, k: nat)
    requires WellFormed(st, p) && WellFormed(st', p') && k < STEPS
    requires Chain(H, st, p, k) == Chain(H, st', p', k)
    requires forall j :: 0 <= j <= k ==> !CollisionAt(H, st, p, st', p', j)
    ensures forall j :: 0 <= j <= k ==> Flat(ItemsAt(st, p, j)) == Flat(ItemsAt(st', p', j))
  {
    hide Chain, ItemsAt;
    ChainIsHash(H, st, p, k);
    ChainIsHash(H, st', p', k);
    var a, b := Buffer(H, st, p, k), Buffer(H, st', p', k);
    assert !CollisionAt(H, st, p, st', p', k);
    assert a == b;
    if k > 0 {
      var x, y: Word := Chain(H, st, p, k - 1), Chain(H, st', p', k - 1);
      assert x == a[..32] == b[..32] == y;
      assert Flat(ItemsAt(st, p, k)) == a[32..] == b[32..] == Flat(ItemsAt(st', p', k));
      ChainBinding(H, st, p, st', p', k - 1);
    } else {
      assert a == Flat(ItemsAt(st, p, 0)) && b == Flat(ItemsAt(st', p', 0));
    }
  }

  lemma PointItemsInjective(ps: seq<Point>, qs: seq<Point>)
    requires |ps| == |qs| && Flat(PointItems(ps)) == Flat(PointItems(qs))
    ensures ps == qs
  {
    FlatInjective(PointItems(ps), PointItems(qs));
    forall i | 0 <= i < |ps| ensures ps[i] == qs[i] {
      assert PointBytes(ps[i]) == PointItems(ps)[i] == PointItems(qs)[i];
      PointBytesInjective(ps[i], qs[i]);
    }
  }

  /** The preamble determines the sizes, the public inputs and what follows them. */
  lemma PreambleInjective(st: Statement, p: Proof, st': Statement, p': Proof)
    requires WellFormed(st, p) && WellFormed(st', p')
    requires Flat(Sizes(st) + Rest(p)) == Flat(Sizes(st') + Rest(p'))
    ensures st == st' && p.pairing == p'.pairing && p.w1 == p'.w1 && p.w2 == p'.w2 && p.w3 == p'.w3
  {
    hide U64ToBe32, Flat;
    var a, b, r, r' := Sizes(st), Sizes(st'), Rest(p), Rest(p');
    FlatConcat(a, r);
    FlatConcat(b, r');
    FlatSize(r, r');
    SizesFlat(st);
    SizesFlat(st');
    assert |Flat(a)| == 96 + |st.publicInputs| && |Flat(b)| == 96 + |st'.publicInputs|;
    assert SameSizes(a, b);
    FlatInjective(a + r, b + r');
    assert a == (a + r)[..4] == (b + r')[..4] == b;
    assert r == (a + r)[4..] == (b + r')[4..] == r';
    assert a[0] == b[0] && a[1] == b[1] && a[2] == b[2] && a[3] == b[3];
    U64Injective(st.circuitSize, st'.circuitSize);
    U64Injective(st.publicInputsSize, st'.publicInputsSize);
    U64Injective(st.offset, st'.offset);
    assert p.pairing == r[..16] == r'[..16] == p'.pairing;
    assert PointItems([p.w1, p.w2, p.w3]) == r[16..] == r'[16..] == PointItems([p'.w1, p'.w2, p'.w3]);
    PointItemsInjective([p.w1, p.w2, p.w3], [p'.w1, p'.w2, p'.w3]);
    ThreePoints(p.w1, p.w2, p.w3, p'.w1, p'.w2, p'.w3);
  }

  lemma ThreePoints(a: Point, b: Point, c: Point, a': Point, b': Point, c': Point)
    requires [a, b, c] == [a', b', c']
    ensures a == a' && b == b' && c == c'
  {
    assert [a, b, c][0] == [a', b', c'][0] && [a, b, c][1] == [a', b', c'][1] && [a, b, c][2] == [a', b', c'][2];
  }

  lemma MiddleInjective(st: Statement, p: Proof, st': Statement, p': Proof)
    requires WellFormed(st, p) && WellFormed(st', p')
    requires forall k :: 0 <= k < STEPS ==> Flat(ItemsAt(st, p, k)) == Flat(ItemsAt(st', p', k))
    ensures p.readCounts == p'.readCounts && p.readTags == p'.readTags && p.w4 == p'.w4
    ensures p.inverses == p'.inverses && p.zPerm == p'.zPerm
    ensures p.libraConcat == p'.libraConcat && p.libraSum == p'.libraSum
    ensures p.univariates == p'.univariates
  {
    hide Flat, PointItems;
    assert Flat(ItemsAt(st, p, 2)) == Flat(ItemsAt(st', p', 2));
    PointItemsInjective([p.readCounts, p.readTags, p.w4], [p'.readCounts, p'.readTags, p'.w4]);
    ThreePoints(p.readCounts, p.readTags, p.w4, p'.readCounts, p'.readTags, p'.w4);
    assert Flat(ItemsAt(st, p, 3)) == Flat(ItemsAt(st', p', 3));
    PointItemsInjective([p.inverses, p.zPerm], [p'.inverses, p'.zPerm]);
    ThreePoints(p.inverses, p.zPerm, p.zPerm, p'.inverses, p'.zPerm, p'.zPerm) by {
      assert [p.inverses, p.zPerm][0] == [p'.inverses, p'.zPerm][0];
      assert [p.inverses, p.zPerm][1] == [p'.inverses, p'.zPerm][1];
    }
    assert Flat(ItemsAt(st, p, 44)) == Flat(ItemsAt(st', p', 44));
    var a, b := ItemsAt(st, p, 44), ItemsAt(st', p', 44);
    FlatInjective(a, b);
    assert a[0] == b[0] && a[1] == b[1];
    PointBytesInjective(p.libraConcat, p'.libraConcat);
    forall r | 0 <= r < LOG_N ensures p.univariates[r] == p'.univariates[r] {
      assert Flat(ItemsAt(st, p, 45 + r)) == Flat(ItemsAt(st', p', 45 + r));
      FlatInjective(p.univariates[r], p'.univariates[r]);
    }
  }

  lemma TailInjective(st: Statement, p: Proof, st': Statement, p': Proof)
    requires WellFormed(st, p) && WellFormed(st', p')
    requires forall k :: 0 <= k < STEPS ==> Flat(ItemsAt(st, p, k)) == Flat(ItemsAt(st', p', k))
    ensures p.evaluations == p'.evaluations && p.libraClaimed == p'.libraClaimed
    ensures p.libraGrandSum == p'.libraGrandSum && p.libraQuotient == p'.libraQuotient && p.hiding == p'.hiding
    ensures p.hidingEval == p'.hidingEval && p.foldComs == p'.foldComs
    ensures p.aEvals == p'.aEvals && p.libraEvals == p'.libraEvals && p.shplonkQ == p'.shplonkQ
  {
    hide Flat;
    assert Flat(ItemsAt(st, p, 73)) == Flat(ItemsAt(st', p', 73));
    var a, b := ItemsAt(st, p, 73), ItemsAt(st', p', 73);
    FlatInjective(a, b);
    assert p.evaluations == a[..40] == b[..40] == p'.evaluations;
    assert p.libraClaimed == a[40] == b[40] == p'.libraClaimed;
    assert PointBytes(p.libraGrandSum) == a[41] && PointBytes(p.libraQuotient) == a[42] && PointBytes(p.hiding) == a[43];
    assert PointBytes(p'.libraGrandSum) == b[41] && PointBytes(p'.libraQuotient) == b[42] && PointBytes(p'.hiding) == b[43];
    PointBytesInjective(p.libraGrandSum, p'.libraGrandSum);
    PointBytesInjective(p.libraQuotient, p'.libraQuotient);
    PointBytesInjective(p.hiding, p'.hiding);
    assert p.hidingEval == a[44] == b[44] == p'.hidingEval;
    assert Flat(ItemsAt(st, p, 74)) == Flat(ItemsAt(st', p', 74));
    PointItemsInjective(p.foldComs, p'.foldComs);
    assert Flat(ItemsAt(st, p, 75)) == Flat(ItemsAt(st', p', 75));
    FlatInjective(p.aEvals + p.libraEvals, p'.aEvals + p'.libraEvals);
    assert p.aEvals == (p.aEvals + p.libraEvals)[..LOG_N] == p'.aEvals;
    assert p.libraEvals == (p.aEvals + p.libraEvals)[LOG_N..] == p'.libraEvals;
    assert Flat(ItemsAt(st, p, 76)) == Flat(ItemsAt(st', p', 76));
    PointItemsInjective([p.shplonkQ], [p'.shplonkQ]);
    assert [p.shplonkQ][0] == [p'.shplonkQ][0];
  }

  /**
   Binding: two runs that end with the same chained hash absorbed the same
   statement and proof, or exhibit a hash collision at some step.
   */
  lemma TranscriptBinding(H: Bytes -> Word, st: Statement, p: Proof, st': Statement, p': Proof)
    requires WellFormed(st, p) && WellFormed(st', p')
    requires Chain(H, st, p, STEPS - 1) == Chain(H, st', p', STEPS - 1)
    ensures SameAbsorbed(st, p, st', p') || exists k :: 0 <= k < STEPS && CollisionAt(H, st, p, st', p', k)
  {
    hide Chain, Flat, PointItems;
    if forall k :: 0 <= k < STEPS ==> !CollisionAt(H, st, p, st', p', k) {
      ChainBinding(H, st, p, st', p', STEPS - 1);
      assert Flat(ItemsAt(st, p, 0)) == Flat(ItemsAt(st', p', 0));
      PreambleInjective(st, p, st', p');
      MiddleInjective(st, p, st', p');
      TailInjective(st, p, st', p');
    }
  }

  // ---- Causality ----

  /** What has been absorbed when u_r is drawn. */
  ghost predicate SameUpToRound(st: Statement, p: Proof, st': Statement, p': Proof, r: nat)
    requires r < LOG_N && |p.univariates| == |p'.univariates| == LOG_N
  {
    && st == st' && p.pairing == p'.pairing && p.w1 == p'.w1 && p.w2 == p'.w2 && p.w3 == p'.w3 && p.w4 == p'.w4
    && p.readCounts == p'.readCounts && p.readTags == p'.readTags && p.inverses == p'.inverses && p.zPerm == p'.zPerm
    && p.libraConcat == p'.libraConcat && p.libraSum == p'.libraSum
    && p.univariates[..r + 1] == p'.univariates[..r + 1]
  }

  lemma {:induction false} ChainCausal(H: Bytes -> Word, st: Statement, p: Proof, st': Statement, p': Proof, r: nat, k: nat)
    requires WellFormed(st, p) && WellFormed(st', p') && r < LOG_N && k <= 45 + r
    requires SameUpToRound(st, p, st', p', r)
    ensures Chain(H, st, p, k) == Chain(H, st', p', k)
  {
    hide Chain, Flat;
    ChainIsHash(H, st, p, k);
    ChainIsHash(H, st', p', k);
    if k > 0 { ChainCausal(H, st, p, st', p', r, k - 1); }
    if k >= 45 {
      assert p.univariates[k - 45] == p.univariates[..r + 1][k - 45] == p'.univariates[k - 45];
    }
    assert ItemsAt(st, p, k) == ItemsAt(st', p', k);
  }

  /** The challenge of round `r` depends only on messages up to round `r`. */
  lemma RoundChallengeCausal(H: Bytes -> Word, st: Statement, p: Proof, st': Statement, p': Proof, r: nat)
    requires WellFormed(st, p) && WellFormed(st', p') && r < LOG_N
    requires SameUpToRound(st, p, st', p', r)
    ensures TranscriptOf(H, st, p).us[..r + 1] == TranscriptOf(H, st', p').us[..r + 1]
    ensures TranscriptOf(H, st, p).gates == TranscriptOf(H, st', p').gates
    ensures TranscriptOf(H, st, p).libra == TranscriptOf(H, st', p').libra
  {
    hide Chain, Low, High;
    forall k | 0 <= k <= 45 + r ensures Chain(H, st, p, k) == Chain(H, st', p', k) {
      ChainCausal(H, st, p, st', p', r, k);
    }
  }
}
