/**
 The elliptic-curve gate of crates/ultrazk-soroban-verifier/src/relations.rs over
 the Grumpkin curve y^2 = x^3 - 17.
 */
module EllipticGate {
  import opened PrimeFields

  // Wire indices used by the gate.
  const QM: nat := 0
  const QL: nat := 2
  const Q_ELLIPTIC: nat := 9
  const WR: nat := 28
  const WO: nat := 29
  const WL_SHIFT: nat := 35
  const WR_SHIFT: nat := 36
  const WO_SHIFT: nat := 37
  const W4_SHIFT: nat := 38

  // ---- The four identities, as integer polynomials ----

  function XAdd(x1: int, y1: int, x2: int, y2: int, x3: int, sign: int): int {
    (x3 + x2 + x1) * (x2 - x1) * (x2 - x1) - y2 * y2 - y1 * y1 + 2 * (y1 * y2 * sign)
  }

  function YAdd(x1: int, y1: int, x2: int, y2: int, x3: int, y3: int, sign: int): int {
    (y1 + y3) * (x2 - x1) + (x3 - x1) * (y2 * sign - y1)
  }

  function XDouble(x1: int, y1: int, x3: int): int {
    (x3 + x1 + x1) * (4 * (y1 * y1)) - (y1 * y1 + 17) * x1 * 9
  }

  function YDouble(x1: int, y1: int, x3: int, y3: int): int {
    3 * x1 * x1 * (x1 - x3) - 2 * y1 * (y1 + y3)
  }

  /** What a gate with double selector `q` and factor `g` makes of its two identities. */
  function Gated(add: int, double: int, q: int, g: int): int {
    add * ((1 - q) * g) + double * (q * g)
  }

  ghost predicate Wires(f: Field, p: seq<int>) { |p| == 40 && f.HasAll(p) }

  /** `accumulate_elliptic_relation`: subrelations 10 and 11, every other slot untouched. */
  method AccumulateElliptic(f: Field, p: seq<int>, evals: array<int>, domainSep: int)
    requires f.p > 17 && Wires(f, p) && evals.Length == 26
    modifies evals
    ensures var (x1, y1, x2, y2, x3, y3) := (p[WR], p[WO], p[WL_SHIFT], p[W4_SHIFT], p[WR_SHIFT], p[WO_SHIFT]);
      && evals[10] == f.Red(Gated(XAdd(x1, y1, x2, y2, x3, p[QL]), XDouble(x1, y1, x3), p[QM], p[Q_ELLIPTIC] * domainSep))
      && evals[11] == f.Red(Gated(YAdd(x1, y1, x2, y2, x3, y3, p[QL]), YDouble(x1, y1, x3, y3), p[QM],
                                  p[Q_ELLIPTIC] * domainSep))
    ensures forall i :: 0 <= i < 26 && i != 10 && i != 11 ==> evals[i] == old(evals[i])
  {
    hide Field.Red, XAdd, YAdd, XDouble, YDouble;
    var (x1, y1, x2, y2, x3, y3) := (p[WR], p[WO], p[WL_SHIFT], p[W4_SHIFT], p[WR_SHIFT], p[WO_SHIFT]);
    var sign, double, gate := p[QL], p[QM], p[Q_ELLIPTIC];
    var deltaX := f.Sub(x2, x1);
    var y1Sq := f.Mul(y1, y1);
    var xAdd := AddX(f, x1, y1, x2, y2, x3, sign, deltaX, y1Sq);
    var yAdd := AddY(f, x1, y1, y2, x2, x3, y3, sign, deltaX);
    var xDouble := DoubleX(f, x1, y1, x3, y1Sq);
    var yDouble := DoubleY(f, x1, y1, x3, y3);
    var gateDom := f.Mul(gate, domainSep);
    var addFactor := f.Mul(f.Sub(1, double), gateDom);
    var doubleFactor := f.Mul(double, gateDom);
    evals[10] := f.Add(f.Mul(xAdd, addFactor), f.Mul(xDouble, doubleFactor));
    evals[11] := f.Add(f.Mul(yAdd, addFactor), f.Mul(yDouble, doubleFactor));
    GatedSum(f, xAdd, XAdd(x1, y1, x2, y2, x3, sign), xDouble, XDouble(x1, y1, x3), double, gate, domainSep);
    GatedSum(f, yAdd, YAdd(x1, y1, x2, y2, x3, y3, sign), yDouble, YDouble(x1, y1, x3, y3), double, gate, domainSep);
    RedCanonical(f, evals[10]);
    RedCanonical(f, evals[11]);
  }

  lemma GatedSum(f: Field, add: int, add': int, dbl: int, dbl': int, q: int, gate: int, sep: int)
    requires f.Eq(add, add') && f.Eq(dbl, dbl')
    ensures f.Eq(f.Add(f.Mul(add, f.Mul(f.Sub(1, q), f.Mul(gate, sep))), f.Mul(dbl, f.Mul(q, f.Mul(gate, sep)))),
                 Gated(add', dbl', q, gate * sep))
  {
    hide Field.Red;
    RedEq(f, gate * sep);
    RedEq(f, 1 - q);
    Ops(f, f.Sub(1, q), 1 - q, f.Mul(gate, sep), gate * sep);
    Ops(f, q, q, f.Mul(gate, sep), gate * sep);
    Ops(f, add, add', f.Mul(f.Sub(1, q), f.Mul(gate, sep)), (1 - q) * (gate * sep));
    Ops(f, dbl, dbl', f.Mul(q, f.Mul(gate, sep)), q * (gate * sep));
    Ops(f, f.Mul(add, f.Mul(f.Sub(1, q), f.Mul(gate, sep))), add' * ((1 - q) * (gate * sep)),
        f.Mul(dbl, f.Mul(q, f.Mul(gate, sep))), dbl' * (q * (gate * sep)));
  }

  method AddX(f: Field, x1: int, y1: int, x2: int, y2: int, x3: int, sign: int, deltaX: int, y1Sq: int)
    returns (r: int)
    requires deltaX == f.Sub(x2, x1) && y1Sq == f.Mul(y1, y1)
    ensures f.Eq(r, XAdd(x1, y1, x2, y2, x3, sign))
  {
    hide Field.Red;
    var y2Sq := f.Mul(y2, y2);
    var y1y2 := f.Mul(f.Mul(y1, y2), sign);
    var s := f.Add(f.Add(x3, x2), x1);
    r := f.Add(f.Add(f.Sub(f.Sub(f.Mul(f.Mul(s, deltaX), deltaX), y2Sq), y1Sq), y1y2), y1y2);
    RedEq(f, x2 - x1);
    RedEq(f, y2 * y2);
    RedEq(f, y1 * y1);
    RedEq(f, y1 * y2);
    Ops(f, f.Mul(y1, y2), y1 * y2, sign, sign);
    RedEq(f, x3 + x2);
    Ops(f, f.Add(x3, x2), x3 + x2, x1, x1);
    var d, t := x2 - x1, y1 * y2 * sign;
    Ops(f, s, x3 + x2 + x1, deltaX, d);
    Ops(f, f.Mul(s, deltaX), (x3 + x2 + x1) * d, deltaX, d);
    var m, q2, q1 := (x3 + x2 + x1) * d * d, y2 * y2, y1 * y1;
    FiveTerms(f, f.Mul(f.Mul(s, deltaX), deltaX), m, y2Sq, q2, y1Sq, q1, y1y2, t);
  }

  lemma FiveTerms(f: Field, m: int, m': int, a: int, a': int, b: int, b': int, t: int, t': int)
    requires f.Eq(m, m') && f.Eq(a, a') && f.Eq(b, b') && f.Eq(t, t')
    ensures f.Eq(f.Add(f.Add(f.Sub(f.Sub(m, a), b), t), t), m' - a' - b' + 2 * t')
  {
    hide Field.Red;
    Ops(f, m, m', a, a');
    Ops(f, f.Sub(m, a), m' - a', b, b');
    Ops(f, f.Sub(f.Sub(m, a), b), m' - a' - b', t, t');
    Ops(f, f.Add(f.Sub(f.Sub(m, a), b), t), m' - a' - b' + t', t, t');
  }

  method AddY(f: Field, x1: int, y1: int, y2: int, x2: int, x3: int, y3: int, sign: int, deltaX: int)
    returns (r: int)
    requires deltaX == f.Sub(x2, x1)
    ensures f.Eq(r, YAdd(x1, y1, x2, y2, x3, y3, sign))
  {
    hide Field.Red;
    var yDiff := f.Sub(f.Mul(y2, sign), y1);
    r := f.Add(f.Mul(f.Add(y1, y3), deltaX), f.Mul(f.Sub(x3, x1), yDiff));
    RedEq(f, x2 - x1);
    RedEq(f, y2 * sign);
    Ops(f, f.Mul(y2, sign), y2 * sign, y1, y1);
    RedEq(f, y1 + y3);
    RedEq(f, x3 - x1);
    TwoProducts(f, f.Add(y1, y3), y1 + y3, deltaX, x2 - x1, f.Sub(x3, x1), x3 - x1, yDiff, y2 * sign - y1);
  }

  lemma TwoProducts(f: Field, a: int, a': int, b: int, b': int, c: int, c': int, d: int, d': int)
    requires f.Eq(a, a') && f.Eq(b, b') && f.Eq(c, c') && f.Eq(d, d')
    ensures f.Eq(f.Add(f.Mul(a, b), f.Mul(c, d)), a' * b' + c' * d')
  {
    hide Field.Red;
    Ops(f, a, a', b, b');
    Ops(f, c, c', d, d');
    var p, q := a' * b', c' * d';
    Ops(f, f.Mul(a, b), p, f.Mul(c, d), q);
  }

  method DoubleX(f: Field, x1: int, y1: int, x3: int, y1Sq: int) returns (r: int)
    requires y1Sq == f.Mul(y1, y1)
    ensures f.Eq(r, XDouble(x1, y1, x3))
  {
    hide Field.Red;
    var q := y1 * y1;
    var xPow4 := f.Mul(f.Add(y1Sq, 17), x1);
    var y1Sq4 := f.Add(f.Add(f.Add(y1Sq, y1Sq), y1Sq), y1Sq);
    var s := f.Add(f.Add(x3, x1), x1);
    r := f.Sub(f.Mul(s, y1Sq4), f.Mul(xPow4, 9));
    RedEq(f, q);
    Ops(f, y1Sq, q, 17, 17);
    Ops(f, f.Add(y1Sq, 17), q + 17, x1, x1);
    Ops(f, y1Sq, q, y1Sq, q);
    Ops(f, f.Add(y1Sq, y1Sq), 2 * q, y1Sq, q);
    Ops(f, f.Add(f.Add(y1Sq, y1Sq), y1Sq), 3 * q, y1Sq, q);
    RedEq(f, x3 + x1);
    Ops(f, f.Add(x3, x1), x3 + x1, x1, x1);
    Ops(f, s, x3 + x1 + x1, y1Sq4, 4 * q);
    Ops(f, xPow4, (q + 17) * x1, 9, 9);
    Ops(f, f.Mul(s, y1Sq4), (x3 + x1 + x1) * (4 * q), f.Mul(xPow4, 9), (q + 17) * x1 * 9);
  }

  method DoubleY(f: Field, x1: int, y1: int, x3: int, y3: int) returns (r: int)
    ensures f.Eq(r, YDouble(x1, y1, x3, y3))
  {
    hide Field.Red;
    var x1Sq3 := f.Mul(f.Add(f.Add(x1, x1), x1), x1);
    r := f.Sub(f.Mul(x1Sq3, f.Sub(x1, x3)), f.Mul(f.Add(y1, y1), f.Add(y1, y3)));
    RedEq(f, x1 + x1);
    Ops(f, f.Add(x1, x1), 2 * x1, x1, x1);
    Ops(f, f.Add(f.Add(x1, x1), x1), 3 * x1, x1, x1);
    RedEq(f, x1 - x3);
    RedEq(f, y1 + y1);
    RedEq(f, y1 + y3);
    Ops(f, x1Sq3, 3 * x1 * x1, f.Sub(x1, x3), x1 - x3);
    Ops(f, f.Add(y1, y1), 2 * y1, f.Add(y1, y3), y1 + y3);
    Ops(f, f.Mul(x1Sq3, f.Sub(x1, x3)), 3 * x1 * x1 * (x1 - x3), f.Mul(f.Add(y1, y1), f.Add(y1, y3)),
        2 * y1 * (y1 + y3));
  }

  // ---- The curve ----

  ghost predicate OnCurve(f: Field, x: int, y: int) { f.Eq(y * y, x * x * x - 17) }

  /** (x3, y3) is the third intersection, reflected, of the line of slope `l` through (x1, y1) with x-sum `s`. */
  ghost predicate OnLine(f: Field, l: int, x1: int, y1: int, s: int, x3: int, y3: int) {
    f.Eq(x3, l * l - s) && f.Eq(y3, l * (x1 - x3) - y1)
  }

  /** (x3, y3) is the sum of two points with different abscissas. */
  ghost predicate ChordSum(f: Field, x1: int, y1: int, x2: int, y2: int, x3: int, y3: int) {
    OnLine(f, (y2 - y1) * f.Inv(x2 - x1), x1, y1, x1 + x2, x3, y3)
  }

  /** (x3, y3) is the double of (x1, y1). */
  ghost predicate TangentDouble(f: Field, x1: int, y1: int, x3: int, y3: int) {
    OnLine(f, 3 * x1 * x1 * f.Inv(2 * y1), x1, y1, 2 * x1, x3, y3)
  }

  /** An identity d^2 (x3 + s - l^2) vanishes exactly at x3 = l^2 - s. */
  lemma XIdentity(f: PrimeField, d: int, l: int, n: int, s: int, x3: int)
    requires !f.Eq(d, 0) && f.Eq(d * l, n)
    ensures f.Eq((x3 + s) * (d * d) - n * n, 0) <==> f.Eq(x3, l * l - s)
  {
    hide Field.Red, IsPrime;
    EqMul(f, d * l, n, d * l, n);
    var k := (x3 + s) * (d * d);
    EqSub(f, k, k, d * l * (d * l), n * n);
    Factor(d, l, s, x3);
    NoZeroDivisors(f, d, d);
    NoZeroDivisors(f, d * d, x3 + s - l * l);
    EqDifference(f, x3, l * l - s);
  }

  lemma Factor(d: int, l: int, s: int, x3: int)
    ensures (x3 + s) * (d * d) - d * l * (d * l) == d * d * (x3 + s - l * l)
  {
  }

  /** An identity d (y1 + y3 - l (x1 - x3)) vanishes exactly at y3 = l (x1 - x3) - y1. */
  lemma YIdentity(f: PrimeField, d: int, l: int, n: int, x1: int, y1: int, x3: int, y3: int)
    requires !f.Eq(d, 0) && f.Eq(d * l, n)
    ensures f.Eq((y1 + y3) * d + (x3 - x1) * n, 0) <==> f.Eq(y3, l * (x1 - x3) - y1)
  {
    hide Field.Red, IsPrime;
    EqMul(f, x3 - x1, x3 - x1, d * l, n);
    EqAdd(f, (y1 + y3) * d, (y1 + y3) * d, (x3 - x1) * (d * l), (x3 - x1) * n);
    assert (y1 + y3) * d + (x3 - x1) * (d * l) == d * (y1 + y3 + (x3 - x1) * l);
    assert y1 + y3 + (x3 - x1) * l == y3 - (l * (x1 - x3) - y1);
    NoZeroDivisors(f, d, y3 - (l * (x1 - x3) - y1));
    EqDifference(f, y3, l * (x1 - x3) - y1);
  }

  lemma SlopeOf(f: PrimeField, d: int, n: int)
    requires !f.Eq(d, 0)
    ensures f.Eq(d * (n * f.Inv(d)), n)
  {
    hide Field.Red, Field.Inv, IsPrime;
    Inverse(f, d);
    EqMul(f, n, n, d * f.Inv(d), 1);
    assert d * (n * f.Inv(d)) == n * (d * f.Inv(d));
  }

  /** With a sign of plus or minus one, XAdd is the identity for the signed second point. */
  lemma XAddSigned(f: Field, x1: int, y1: int, x2: int, y2: int, x3: int, sign: int)
    requires f.Eq(sign * sign, 1)
    ensures f.Eq(XAdd(x1, y1, x2, y2, x3, sign),
                 (x3 + (x1 + x2)) * ((x2 - x1) * (x2 - x1)) - (y2 * sign - y1) * (y2 * sign - y1))
  {
    hide Field.Red;
    var q := y2 * y2;
    EqMul(f, q, q, sign * sign, 1);
    EqSub(f, q, q, q * (sign * sign), q);
    var d := x2 - x1;
    XAddExpand(x1, y1, x2, y2, x3, sign);
    var rest := (x3 + (x1 + x2)) * (d * d) - (y2 * sign - y1) * (y2 * sign - y1);
    EqSub(f, rest, rest, q - q * (sign * sign), 0);
  }

  lemma XAddExpand(x1: int, y1: int, x2: int, y2: int, x3: int, sign: int)
    ensures XAdd(x1, y1, x2, y2, x3, sign) ==
      (x3 + (x1 + x2)) * ((x2 - x1) * (x2 - x1)) - (y2 * sign - y1) * (y2 * sign - y1)
        - (y2 * y2 - y2 * y2 * (sign * sign))
  {
    var d, s := x2 - x1, x3 + x2 + x1;
    assert s * d * d == s * (d * d);
    SquareOfDifference(y1, y2, sign);
  }

  lemma SquareOfDifference(y1: int, y2: int, sign: int)
    ensures (y2 * sign - y1) * (y2 * sign - y1) == y2 * y2 * (sign * sign) - 2 * (y1 * y2 * sign) + y1 * y1
  {
  }

  /** Add mode: both subrelations vanish exactly when (x3, y3) is the chord sum. */
  lemma AddModeExact(f: PrimeField, x1: int, y1: int, x2: int, y2: int, x3: int, y3: int, sign: int, q: int, g: int)
    requires f.Eq(q, 0) && !f.Eq(g, 0) && f.Eq(sign * sign, 1) && !f.Eq(x1, x2)
    ensures f.Eq(Gated(XAdd(x1, y1, x2, y2, x3, sign), XDouble(x1, y1, x3), q, g), 0) &&
            f.Eq(Gated(YAdd(x1, y1, x2, y2, x3, y3, sign), YDouble(x1, y1, x3, y3), q, g), 0)
       <==> ChordSum(f, x1, y1, x2, y2 * sign, x3, y3)
  {
    hide Field.Red, Field.Inv, IsPrime, XAdd, XDouble, YDouble, Gated;
    var d, n := x2 - x1, y2 * sign - y1;
    var l := n * f.Inv(d);
    EqDifference(f, x2, x1);
    SlopeOf(f, d, n);
    GatedAdd(f, XAdd(x1, y1, x2, y2, x3, sign), XDouble(x1, y1, x3), q, g);
    GatedAdd(f, YAdd(x1, y1, x2, y2, x3, y3, sign), YDouble(x1, y1, x3, y3), q, g);
    XAddSigned(f, x1, y1, x2, y2, x3, sign);
    XIdentity(f, d, l, n, x1 + x2, x3);
    YIdentity(f, d, l, n, x1, y1, x3, y3);
  }

  lemma GatedAdd(f: PrimeField, add: int, dbl: int, q: int, g: int)
    requires f.Eq(q, 0) && !f.Eq(g, 0)
    ensures f.Eq(Gated(add, dbl, q, g), 0) <==> f.Eq(add, 0)
  {
    hide Field.Red, IsPrime;
    EqSub(f, 1, 1, q, 0);
    EqMul(f, 1 - q, 1, g, g);
    EqMul(f, add, add, (1 - q) * g, g);
    EqMul(f, q, 0, g, g);
    EqMul(f, dbl, dbl, q * g, 0);
    EqAdd(f, add * ((1 - q) * g), add * g, dbl * (q * g), 0);
    NoZeroDivisors(f, add, g);
  }

  lemma GatedDouble(f: PrimeField, add: int, dbl: int, q: int, g: int)
    requires f.Eq(q, 1) && !f.Eq(g, 0)
    ensures f.Eq(Gated(add, dbl, q, g), 0) <==> f.Eq(dbl, 0)
  {
    hide Field.Red, IsPrime;
    EqSub(f, 1, 1, q, 1);
    EqMul(f, 1 - q, 0, g, g);
    EqMul(f, add, add, (1 - q) * g, 0);
    EqMul(f, q, 1, g, g);
    EqMul(f, dbl, dbl, q * g, g);
    EqAdd(f, add * ((1 - q) * g), 0, dbl * (q * g), dbl * g);
    NoZeroDivisors(f, dbl, g);
  }

  /** Double mode: for a curve point both subrelations vanish exactly when (x3, y3) is its double. */
  lemma DoubleModeExact(f: PrimeField, x1: int, y1: int, x2: int, y2: int, x3: int, y3: int, sign: int, q: int, g: int)
    requires f.p > 2 && f.Eq(q, 1) && !f.Eq(g, 0) && !f.Eq(y1, 0) && OnCurve(f, x1, y1)
    ensures f.Eq(Gated(XAdd(x1, y1, x2, y2, x3, sign), XDouble(x1, y1, x3), q, g), 0) &&
            f.Eq(Gated(YAdd(x1, y1, x2, y2, x3, y3, sign), YDouble(x1, y1, x3, y3), q, g), 0)
       <==> TangentDouble(f, x1, y1, x3, y3)
  {
    hide Field.Red, Field.Inv, IsPrime, XAdd, YAdd, XDouble, Gated;
    var d, n := 2 * y1, 3 * x1 * x1;
    var l := n * f.Inv(d);
    SmallDistinct(f, 2, 0);
    NoZeroDivisors(f, 2, y1);
    SlopeOf(f, d, n);
    GatedDouble(f, XAdd(x1, y1, x2, y2, x3, sign), XDouble(x1, y1, x3), q, g);
    GatedDouble(f, YAdd(x1, y1, x2, y2, x3, y3, sign), YDouble(x1, y1, x3, y3), q, g);
    XDoubleOnCurve(f, x1, y1, x3);
    XIdentity(f, d, l, n, 2 * x1, x3);
    YIdentity(f, d, l, n, x1, y1, x3, y3);
    YDoubleMirror(f, x1, y1, x3, y3);
  }

  lemma YDoubleMirror(f: Field, x1: int, y1: int, x3: int, y3: int)
    ensures f.Eq(YDouble(x1, y1, x3, y3), 0) <==>
            f.Eq((y1 + y3) * (2 * y1) + (x3 - x1) * (3 * x1 * x1), 0)
  {
    hide Field.Red;
    var v, m := YDouble(x1, y1, x3, y3), (y1 + y3) * (2 * y1) + (x3 - x1) * (3 * x1 * x1);
    assert v == -m by {
      var t := 3 * x1 * x1;
      assert t * (x1 - x3) == -((x3 - x1) * t);
      assert 2 * y1 * (y1 + y3) == (y1 + y3) * (2 * y1);
    }
    if f.Eq(m, 0) { EqMul(f, -1, -1, m, 0); }
    if f.Eq(v, 0) { EqMul(f, -1, -1, v, 0); }
  }

  lemma XDoubleOnCurve(f: Field, x1: int, y1: int, x3: int)
    requires OnCurve(f, x1, y1)
    ensures f.Eq(XDouble(x1, y1, x3),
                 (x3 + 2 * x1) * (2 * y1 * (2 * y1)) - 3 * x1 * x1 * (3 * x1 * x1))
  {
    hide Field.Red;
    var q, c := y1 * y1, x1 * x1 * x1;
    EqAdd(f, q, c - 17, 17, 17);
    EqMul(f, q + 17, c, x1 * 9, x1 * 9);
    assert (q + 17) * x1 * 9 == (q + 17) * (x1 * 9);
    assert c * (x1 * 9) == 3 * x1 * x1 * (3 * x1 * x1);
    assert 2 * y1 * (2 * y1) == 4 * q;
    var k := (x3 + x1 + x1) * (4 * q);
    EqSub(f, k, k, (q + 17) * (x1 * 9), c * (x1 * 9));
  }

  // ---- The result stays on the curve ----

  /** x^3 - 17 - (l (x - x1) + y1)^2. */
  function Residual(l: int, x1: int, y1: int, x: int): int {
    x * x * x - 17 - (l * (x - x1) + y1) * (l * (x - x1) + y1)
  }

  /** What is left of the residual after its three x-intercepts a, b, l^2 - a - b: linear in x. */
  lemma ResidualSplit(l: int, x1: int, y1: int, a: int, b: int, x: int)
    ensures var (m, c) := (y1 - l * x1, l * l - a - b);
      Residual(l, x1, y1, x) == (x - a) * (x - b) * (x - c)
        + (-2 * l * m - (a * b + a * c + b * c)) * x + (a * b * c - m * m - 17)
  {
    var (m, c) := (y1 - l * x1, l * l - a - b);
    assert l * (x - x1) + y1 == l * x + m;
    LineSquare(l, m, x);
    CubicRoots(a, b, c, x);
    assert (a + b + c) * (x * x) == l * l * (x * x);
  }

  lemma LineSquare(l: int, m: int, x: int)
    ensures (l * x + m) * (l * x + m) == l * l * (x * x) + 2 * l * m * x + m * m
  {
  }

  lemma CubicRoots(a: int, b: int, c: int, x: int)
    ensures (x - a) * (x - b) * (x - c) == x * x * x - (a + b + c) * (x * x) + (a * b + a * c + b * c) * x - a * b * c
  {
  }

  lemma LinearThreePoints(k: int, h: int, a: int, b: int, c: int)
    ensures (b - a) * (k * c + h) == (k * a + h) * (b - c) + (k * b + h) * (c - a)
  {
  }

  /** If the residual vanishes at two different points it vanishes at the third. */
  lemma ThirdIntersection(f: PrimeField, l: int, x1: int, y1: int, x2: int)
    requires f.Eq(Residual(l, x1, y1, x1), 0) && f.Eq(Residual(l, x1, y1, x2), 0) && !f.Eq(x1, x2)
    ensures f.Eq(Residual(l, x1, y1, l * l - x1 - x2), 0)
  {
    hide Field.Red, IsPrime, Residual;
    var m, c := y1 - l * x1, l * l - x1 - x2;
    var k, h := -2 * l * m - (x1 * x2 + x1 * c + x2 * c), x1 * x2 * c - m * m - 17;
    ResidualSplit(l, x1, y1, x1, x2, x1);
    ResidualSplit(l, x1, y1, x1, x2, x2);
    ResidualSplit(l, x1, y1, x1, x2, c);
    assert (x1 - x1) * (x1 - x2) * (x1 - c) == 0;
    assert (x2 - x1) * (x2 - x2) * (x2 - c) == 0;
    assert (c - x1) * (c - x2) * (c - c) == 0;
    LinearThreePoints(k, h, x1, x2, c);
    EqMul(f, k * x1 + h, 0, x2 - c, x2 - c);
    EqMul(f, k * x2 + h, 0, c - x1, c - x1);
    EqAdd(f, (k * x1 + h) * (x2 - c), 0, (k * x2 + h) * (c - x1), 0);
    EqDifference(f, x2, x1);
    NoZeroDivisors(f, x2 - x1, k * c + h);
  }

  /** If the residual vanishes twice at x1 it vanishes at the third point. */
  lemma TangentIntersection(f: Field, l: int, x1: int, y1: int)
    requires f.Eq(Residual(l, x1, y1, x1), 0) && f.Eq(2 * y1 * l, 3 * x1 * x1)
    ensures f.Eq(Residual(l, x1, y1, l * l - x1 - x1), 0)
  {
    hide Field.Red, Residual;
    var m, c := y1 - l * x1, l * l - x1 - x1;
    var k, h := -2 * l * m - (x1 * x1 + x1 * c + x1 * c), x1 * x1 * c - m * m - 17;
    ResidualSplit(l, x1, y1, x1, x1, x1);
    ResidualSplit(l, x1, y1, x1, x1, c);
    assert (x1 - x1) * (x1 - x1) * (x1 - c) == 0;
    assert (c - x1) * (c - x1) * (c - c) == 0;
    TangentSlope(l, x1, y1);
    EqSub(f, 3 * x1 * x1, 3 * x1 * x1, 2 * y1 * l, 3 * x1 * x1);
    EqMul(f, k, 0, c - x1, c - x1);
    assert k * c + h == (k * x1 + h) + k * (c - x1);
    EqAdd(f, k * x1 + h, 0, k * (c - x1), 0);
  }

  lemma TangentSlope(l: int, x1: int, y1: int)
    ensures var (m, c) := (y1 - l * x1, l * l - x1 - x1);
      -2 * l * m - (x1 * x1 + x1 * c + x1 * c) == 3 * x1 * x1 - 2 * y1 * l
  {
  }

  /** A point on the line with vanishing residual is a curve point after reflection. */
  lemma ReflectedOnCurve(f: Field, l: int, x1: int, y1: int, s: int, x3: int, y3: int)
    requires OnLine(f, l, x1, y1, s, x3, y3) && f.Eq(Residual(l, x1, y1, l * l - s), 0)
    ensures OnCurve(f, x3, y3)
  {
    hide Field.Red;
    var c := l * l - s;
    EqSub(f, x1, x1, x3, c);
    EqMul(f, l, l, x1 - x3, x1 - c);
    EqSub(f, l * (x1 - x3), l * (x1 - c), y1, y1);
    var t := l * (c - x1) + y1;
    assert l * (x1 - c) - y1 == -t;
    EqMul(f, y3, -t, y3, -t);
    assert -t * -t == t * t;
    EqMul(f, x3, c, x3, c);
    EqMul(f, x3 * x3, c * c, x3, c);
    EqSub(f, x3 * x3 * x3, c * c * c, 17, 17);
    EqDifference(f, c * c * c - 17, t * t);
  }

  /** The chord sum of two curve points is on the curve. */
  lemma ChordSumOnCurve(f: PrimeField, x1: int, y1: int, x2: int, y2: int, x3: int, y3: int)
    requires OnCurve(f, x1, y1) && OnCurve(f, x2, y2) && !f.Eq(x1, x2)
    requires ChordSum(f, x1, y1, x2, y2, x3, y3)
    ensures OnCurve(f, x3, y3)
  {
    hide Field.Red, Field.Inv, IsPrime;
    var d, n := x2 - x1, y2 - y1;
    var l := n * f.Inv(d);
    EqDifference(f, x2, x1);
    SlopeOf(f, d, n);
    ResidualAtPoint(f, l, x1, y1, x1, y1, 0);
    ResidualAtPoint(f, l, x1, y1, x2, y2, n);
    ThirdIntersection(f, l, x1, y1, x2);
    assert l * l - x1 - x2 == l * l - (x1 + x2);
    ReflectedOnCurve(f, l, x1, y1, x1 + x2, x3, y3);
  }

  lemma ResidualAtPoint(f: Field, l: int, x1: int, y1: int, x: int, y: int, n: int)
    requires OnCurve(f, x, y) && f.Eq((x - x1) * l, n) && y == n + y1
    ensures f.Eq(Residual(l, x1, y1, x), 0)
  {
    hide Field.Red;
    assert l * (x - x1) == (x - x1) * l;
    var t := l * (x - x1) + y1;
    EqAdd(f, l * (x - x1), n, y1, y1);
    EqMul(f, t, y, t, y);
    EqDifference(f, x * x * x - 17, y * y);
    EqSub(f, x * x * x - 17, x * x * x - 17, t * t, y * y);
  }

  /** The double of a curve point is on the curve. */
  lemma TangentDoubleOnCurve(f: PrimeField, x1: int, y1: int, x3: int, y3: int)
    requires f.p > 2 && OnCurve(f, x1, y1) && !f.Eq(y1, 0)
    requires TangentDouble(f, x1, y1, x3, y3)
    ensures OnCurve(f, x3, y3)
  {
    hide Field.Red, Field.Inv, IsPrime;
    var d, n := 2 * y1, 3 * x1 * x1;
    var l := n * f.Inv(d);
    SmallDistinct(f, 2, 0);
    NoZeroDivisors(f, 2, y1);
    SlopeOf(f, d, n);
    ResidualAtPoint(f, l, x1, y1, x1, y1, 0);
    TangentIntersection(f, l, x1, y1);
    assert l * l - x1 - x1 == l * l - 2 * x1;
    ReflectedOnCurve(f, l, x1, y1, 2 * x1, x3, y3);
  }

  /** A passing gate between curve points outputs a curve point, in add mode for either sign. */
  lemma AddGateOnCurve(f: PrimeField, x1: int, y1: int, x2: int, y2: int, x3: int, y3: int, sign: int, q: int, g: int)
    requires f.Eq(q, 0) && !f.Eq(g, 0) && f.Eq(sign * sign, 1) && !f.Eq(x1, x2)
    requires OnCurve(f, x1, y1) && OnCurve(f, x2, y2)
    requires f.Eq(Gated(XAdd(x1, y1, x2, y2, x3, sign), XDouble(x1, y1, x3), q, g), 0)
    requires f.Eq(Gated(YAdd(x1, y1, x2, y2, x3, y3, sign), YDouble(x1, y1, x3, y3), q, g), 0)
    ensures OnCurve(f, x3, y3)
  {
    hide Field.Red, IsPrime, XAdd, YAdd, XDouble, YDouble, Gated, ChordSum;
    AddModeExact(f, x1, y1, x2, y2, x3, y3, sign, q, g);
    EqMul(f, y2 * y2, y2 * y2, sign * sign, 1);
    SignedSquare(y2, sign);
    ChordSumOnCurve(f, x1, y1, x2, y2 * sign, x3, y3);
  }

  lemma SignedSquare(y: int, sign: int)
    ensures (y * sign) * (y * sign) == y * y * (sign * sign)
  {
  }

  /** And in double mode. */
  lemma DoubleGateOnCurve(f: PrimeField, x1: int, y1: int, x2: int, y2: int, x3: int, y3: int, sign: int, q: int, g: int)
    requires f.p > 2 && f.Eq(q, 1) && !f.Eq(g, 0) && !f.Eq(y1, 0) && OnCurve(f, x1, y1)
    requires f.Eq(Gated(XAdd(x1, y1, x2, y2, x3, sign), XDouble(x1, y1, x3), q, g), 0)
    requires f.Eq(Gated(YAdd(x1, y1, x2, y2, x3, y3, sign), YDouble(x1, y1, x3, y3), q, g), 0)
    ensures OnCurve(f, x3, y3)
  {
    hide Field.Red, IsPrime, XAdd, YAdd, XDouble, YDouble, Gated, TangentDouble, OnCurve;
    DoubleModeExact(f, x1, y1, x2, y2, x3, y3, sign, q, g);
    TangentDoubleOnCurve(f, x1, y1, x3, y3);
  }
}
