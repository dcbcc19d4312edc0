/** The second-order filters a catalogue entry becomes, over the reals: the peakingEQ, lowShelf and highShelf of "Audio
    EQ Cookbook". */
module Biquads {

  datatype Kind = PeakingEQ | LowShelf | HighShelf

  lemma {:induction false} Product(x: real, y: real, product: real)
    requires x > 0.0 && y > 0.0 && product == x * y
    ensures product > 0.0
  {
  }

  predicate Multiple(b: real, f: real, a: real) { b == f * a }

  /** A = 10^(gain/40), its square root `r`, the cosine of w0 and alpha = sin(w0)/(2Q). */
  datatype Params = Params(A: real, r: real, cosW0: real, alpha: real) {
    /** Any gain, a centre frequency between 0 and half the sample rate, and a positive Q. */
    predicate Valid() { r > 0.0 && A > 0.0 && A == r * r && -1.0 < cosW0 < 1.0 && alpha > 0.0 }

    /** The same filter with the gain negated. */
    function Opposite(): Params
      requires Valid()
    {
      Params(1.0 / A, 1.0 / r, cosW0, alpha)
    }
  }

  /** The coefficients of 1, z^-1 and z^-2. */
  datatype Poly = Poly(c0: real, c1: real, c2: real) {
    function Over(d: real): Poly
      requires d != 0.0
    {
      Poly(c0 / d, c1 / d, c2 / d)
    }
  }

  datatype Biquad = Biquad(a: Poly, b: Poly)

  function PeakA(A: real, c: real, alpha: real): Poly
    requires A != 0.0
  {
    Poly(1.0 + alpha / A, -2.0 * c, 1.0 - alpha / A)
  }

  function PeakB(A: real, c: real, alpha: real): Poly { Poly(1.0 + alpha * A, -2.0 * c, 1.0 - alpha * A) }

  /** `y` is 2 sqrt(A) alpha. */
  function LowA(A: real, c: real, y: real): Poly {
    Poly((A + 1.0) + (A - 1.0) * c + y, -2.0 * ((A - 1.0) + (A + 1.0) * c), (A + 1.0) + (A - 1.0) * c - y)
  }

  function LowB(A: real, c: real, y: real): Poly {
    Poly(A * ((A + 1.0) - (A - 1.0) * c + y), 2.0 * A * ((A - 1.0) - (A + 1.0) * c),
        A * ((A + 1.0) - (A - 1.0) * c - y))
  }

  function HighA(A: real, c: real, y: real): Poly {
    Poly((A + 1.0) - (A - 1.0) * c + y, 2.0 * ((A - 1.0) - (A + 1.0) * c), (A + 1.0) - (A - 1.0) * c - y)
  }

  function HighB(A: real, c: real, y: real): Poly {
    Poly(A * ((A + 1.0) + (A - 1.0) * c + y), -2.0 * A * ((A - 1.0) + (A + 1.0) * c),
        A * ((A + 1.0) + (A - 1.0) * c - y))
  }

  function Width(p: Params): real { 2.0 * p.r * p.alpha }

  function RawA(kind: Kind, p: Params): Poly
    requires p.Valid()
  {
    match kind
    case PeakingEQ => PeakA(p.A, p.cosW0, p.alpha)
    case LowShelf => LowA(p.A, p.cosW0, Width(p))
    case HighShelf => HighA(p.A, p.cosW0, Width(p))
  }

  function RawB(kind: Kind, p: Params): Poly {
    match kind
    case PeakingEQ => PeakB(p.A, p.cosW0, p.alpha)
    case LowShelf => LowB(p.A, p.cosW0, Width(p))
    case HighShelf => HighB(p.A, p.cosW0, Width(p))
  }

  /** Normalised so that a0 is 1. */
  function ComputeCoeffs(kind: Kind, p: Params): Biquad
    requires p.Valid()
  {
    RawAIsDominant(kind, p);
    var d := RawA(kind, p).c0;
    Biquad(RawA(kind, p).Over(d), RawB(kind, p).Over(d))
  }

  /** b0, b1, b2, a1 and a2 as a device wants them: the a terms negated, a0 left out. */
  function FormatBiquads(f: Biquad): seq<real> { [f.b.c0, f.b.c1, f.b.c2, -f.a.c1, -f.a.c2] }

  // ---- division ----

  lemma {:induction false} Reciprocal(d: real, x: real)
    requires d != 0.0
    ensures d * (1.0 / d) == 1.0 && x / d == x * (1.0 / d) && (d > 0.0 ==> 1.0 / d > 0.0)
  {
    var e, q := 1.0 / d, x / d;
    assert q * d == x;
    assert (q * d) * e == q * (d * e);
    if d > 0.0 && e < 0.0 { Product(d, -e, d * (-e)); }
  }

  lemma {:induction false} OverIsTimes(p: Poly, d: real)
    requires d != 0.0
    ensures p.Over(d) == Poly(p.c0 * (1.0 / d), p.c1 * (1.0 / d), p.c2 * (1.0 / d))
  {
    Reciprocal(d, p.c0);
    Reciprocal(d, p.c1);
    Reciprocal(d, p.c2);
  }

  // ---- stability ----

  lemma {:induction false} Between(x: real, c: real) returns (t: real)
    requires x > 0.0 && -1.0 < c < 1.0
    ensures t == x * c && -x < t < x
  {
    t := x * c;
    Product(x, 1.0 - c, x - t);
    Product(x, 1.0 + c, x + t);
  }

  /** a0 is the largest, and a1 lies between plus and minus the sum of a0 and a2. */
  predicate Dominant(a: Poly) { a.c0 > 0.0 && -a.c0 < a.c2 < a.c0 && -(a.c0 + a.c2) < a.c1 < a.c0 + a.c2 }

  lemma {:induction false} PeakIsDominant(A: real, c: real, alpha: real)
    requires A > 0.0 && -1.0 < c < 1.0 && alpha > 0.0
    ensures Dominant(PeakA(A, c, alpha))
  {
    Reciprocal(A, alpha);
    Product(alpha, 1.0 / A, alpha / A);
  }

  lemma {:induction false} ShelvesAreDominant(A: real, c: real, y: real)
    requires A > 0.0 && -1.0 < c < 1.0 && y > 0.0
    ensures Dominant(LowA(A, c, y)) && Dominant(HighA(A, c, y))
  {
    var t := Between(A, c);
    var n, m := (A + 1.0) * c, (A - 1.0) * c;
    assert n == t + c && m == t - c;
  }

  lemma {:induction false} WidthIsPositive(p: Params)
    requires p.Valid()
    ensures Width(p) > 0.0
  {
    Product(p.r, p.alpha, p.r * p.alpha);
    assert Width(p) == 2.0 * (p.r * p.alpha);
  }

  lemma {:induction false} RawAIsDominant(kind: Kind, p: Params)
    requires p.Valid()
    ensures Dominant(RawA(kind, p))
  {
    if kind == PeakingEQ {
      PeakIsDominant(p.A, p.cosW0, p.alpha);
    } else {
      WidthIsPositive(p);
      ShelvesAreDominant(p.A, p.cosW0, Width(p));
    }
  }

  /** Both roots of z^2 + a1 z + a2 lie inside the unit circle. */
  predicate Stable(a: Poly) { a.c0 == 1.0 && Dominant(a) }

  lemma {:induction false} DominantScales(x0: real, x1: real, x2: real, e: real)
    requires Dominant(Poly(x0, x1, x2)) && e > 0.0 && x0 * e == 1.0
    ensures Stable(Poly(x0 * e, x1 * e, x2 * e))
  {
    Product(x0 - x2, e, (x0 - x2) * e);
    Product(x0 + x2, e, (x0 + x2) * e);
    Product(x0 + x2 - x1, e, (x0 + x2 - x1) * e);
    Product(x0 + x2 + x1, e, (x0 + x2 + x1) * e);
    assert (x0 - x2) * e == x0 * e - x2 * e && (x0 + x2) * e == x0 * e + x2 * e;
    assert (x0 + x2 - x1) * e == x0 * e + x2 * e - x1 * e && (x0 + x2 + x1) * e == x0 * e + x2 * e + x1 * e;
  }

  lemma {:induction false} NormalisedIsStable(a: Poly)
    requires Dominant(a)
    ensures Stable(a.Over(a.c0))
  {
    OverIsTimes(a, a.c0);
    Reciprocal(a.c0, 1.0);
    DominantScales(a.c0, a.c1, a.c2, 1.0 / a.c0);
  }

  lemma {:induction false} AllFiltersAreStable(kind: Kind, p: Params)
    requires p.Valid()
    ensures Stable(ComputeCoeffs(kind, p).a)
  {
    RawAIsDominant(kind, p);
    NormalisedIsStable(RawA(kind, p));
  }

  lemma {:induction false} NotNegative(x: real, y: real)
    requires x >= 0.0 && y >= 0.0
    ensures x * y >= 0.0
  {
    if x > 0.0 && y > 0.0 { Product(x, y, x * y); }
  }

  /** z^2 + a1 z + a2 is positive from 1 on, and from -1 down. */
  lemma {:induction false} PositiveOutside(a1: real, a2: real, u: real)
    requires -1.0 < a2 < 1.0 && -(1.0 + a2) < a1 < 1.0 + a2 && (u >= 1.0 || u <= -1.0)
    ensures u * u + a1 * u + a2 > 0.0
  {
    if u >= 1.0 {
      Product(a1 + 1.0 + a2, u, (a1 + 1.0 + a2) * u);
      NotNegative(u - 1.0, u - a2);
      assert (u - 1.0) * (u - a2) + (a1 + 1.0 + a2) * u == u * u + a1 * u + a2;
    } else {
      Product(1.0 + a2 - a1, -u, (1.0 + a2 - a1) * (-u));
      NotNegative(-u - 1.0, -u - a2);
      assert (-u - 1.0) * (-u - a2) + (1.0 + a2 - a1) * -u == u * u + a1 * u + a2;
    }
  }

  lemma {:induction false} RealRootInside(a1: real, a2: real, u: real)
    requires -1.0 < a2 < 1.0 && -(1.0 + a2) < a1 < 1.0 + a2 && u * u + a1 * u + a2 == 0.0
    ensures -1.0 < u < 1.0
  {
    if u >= 1.0 || u <= -1.0 { PositiveOutside(a1, a2, u); }
  }

  lemma {:induction false} ComplexRootInside(a1: real, a2: real, u: real, v: real, norm: real)
    requires v != 0.0 && u * u - v * v + a1 * u + a2 == 0.0 && 2.0 * u * v + a1 * v == 0.0 && norm == u * u + v * v
    ensures norm == a2
  {
    assert (2.0 * u + a1) * v == 0.0;
    assert 2.0 * u + a1 == 0.0;
    assert a1 * u == -2.0 * (u * u);
  }

  lemma {:induction false} InsideOne(u: real, norm: real)
    requires -1.0 < u < 1.0 && norm == u * u
    ensures norm < 1.0
  {
    Product(1.0 - u, 1.0 + u, (1.0 - u) * (1.0 + u));
    assert (1.0 - u) * (1.0 + u) == 1.0 - u * u;
  }

  lemma {:induction false} RootInside(a1: real, a2: real, u: real, v: real, norm: real)
    requires -1.0 < a2 < 1.0 && -(1.0 + a2) < a1 < 1.0 + a2
    requires u * u - v * v + a1 * u + a2 == 0.0 && 2.0 * u * v + a1 * v == 0.0 && norm == u * u + v * v
    ensures norm < 1.0
  {
    if v == 0.0 {
      assert v * v == 0.0;
      RealRootInside(a1, a2, u);
      InsideOne(u, norm);
    } else {
      ComplexRootInside(a1, a2, u, v, norm);
    }
  }

  /** u + iv is a root of z^2 + a1 z + a2. */
  predicate Root(a: Poly, u: real, v: real) {
    u * u - v * v + a.c1 * u + a.c2 == 0.0 && 2.0 * u * v + a.c1 * v == 0.0
  }

  lemma {:induction false} RootsAreInside(a: Poly, u: real, v: real)
    requires Stable(a) && Root(a, u, v)
    ensures u * u + v * v < 1.0
  {
    RootInside(a.c1, a.c2, u, v, u * u + v * v);
  }

  /** The poles of every filter lie inside the unit circle. */
  lemma {:induction false} PolesInsideUnitCircle(kind: Kind, p: Params, u: real, v: real)
    requires p.Valid() && Root(ComputeCoeffs(kind, p).a, u, v)
    ensures u * u + v * v < 1.0
  {
    AllFiltersAreStable(kind, p);
    RootsAreInside(ComputeCoeffs(kind, p).a, u, v);
  }

  // ---- the opposite gain ----

  lemma {:induction false} Scale(x: real, y: real, c: real)
    requires x == y
    ensures x * c == y * c
  {
  }

  lemma {:induction false} Inverses(A: real, B: real, r: real, q: real)
    requires A == r * r && A * B == 1.0 && r * q == 1.0
    ensures B == q * q && A * q == r
  {
    Scale(A, r * r, q);
    Scale(r * q, 1.0, r);
    Scale(A * q, r, q);
    Scale(A * B, 1.0, q * q);
    Scale(A * (q * q), 1.0, B);
  }

  lemma {:induction false} OppositeRoot(p: Params)
    requires p.Valid()
    ensures p.Opposite().Valid() && p.r * p.Opposite().r == 1.0
    ensures p.A * p.Opposite().A == 1.0 && p.A * p.Opposite().r == p.r
  {
    Reciprocal(p.r, 1.0);
    Reciprocal(p.A, 1.0);
    Inverses(p.A, 1.0 / p.A, p.r, 1.0 / p.r);
  }

  /** A times the a terms of a shelf with gain 1/A gives the b terms of the shelf with gain A, up to another A. */
  lemma {:induction false} OneFactor(A: real, B: real, c: real, y: real, s: real)
    requires A * B == 1.0 && A * s == y
    ensures A * ((B + 1.0) + (B - 1.0) * c + s) == (A + 1.0) - (A - 1.0) * c + y
    ensures A * ((B + 1.0) - (B - 1.0) * c + s) == (A + 1.0) + (A - 1.0) * c + y
    ensures A * (-2.0 * ((B - 1.0) + (B + 1.0) * c)) == 2.0 * ((A - 1.0) - (A + 1.0) * c)
    ensures A * (2.0 * ((B - 1.0) - (B + 1.0) * c)) == -2.0 * ((A - 1.0) + (A + 1.0) * c)
  {
    Scale(A * B, 1.0, c);
  }

  lemma {:induction false} Lift(A: real, f: real, x: real, w: real, b: real)
    requires Multiple(w, A, x) && Multiple(b, A, w) && Multiple(f, A, A)
    ensures Multiple(b, f, x)
  {
    Scale(w, A * x, A);
    Scale(f, A * A, x);
  }

  lemma {:induction false} LowOuter(A: real, B: real, c: real, y: real, s: real) returns (x: real, w: real, b: real)
    requires A * B == 1.0 && A * s == y
    ensures x == LowA(B, c, s).c0 && b == LowB(A, c, y).c0 && Multiple(w, A, x) && Multiple(b, A, w)
  {
    OneFactor(A, B, c, y, s);
    x, w, b := LowA(B, c, s).c0, (A + 1.0) - (A - 1.0) * c + y, LowB(A, c, y).c0;
  }

  lemma {:induction false} LowMiddle(A: real, B: real, c: real, y: real, s: real) returns (x: real, w: real, b: real)
    requires A * B == 1.0 && A * s == y
    ensures x == LowA(B, c, s).c1 && b == LowB(A, c, y).c1 && Multiple(w, A, x) && Multiple(b, A, w)
  {
    OneFactor(A, B, c, y, s);
    x, w, b := LowA(B, c, s).c1, 2.0 * ((A - 1.0) - (A + 1.0) * c), LowB(A, c, y).c1;
  }

  /** The last terms are the first ones with 2 sqrt(A) alpha negated. */
  lemma {:induction false} Mirrored(A: real, c: real, y: real)
    ensures LowA(A, c, -y).c0 == LowA(A, c, y).c2 && LowB(A, c, -y).c0 == LowB(A, c, y).c2
  {
  }

  lemma {:induction false} LowIsOpposite(A: real, B: real, c: real, y: real, s: real, f: real)
    requires A * B == 1.0 && A * s == y && Multiple(f, A, A)
    ensures Times(LowB(A, c, y), f, LowA(B, c, s))
  {
    var x0, w0, b0 := LowOuter(A, B, c, y, s);
    var x1, w1, b1 := LowMiddle(A, B, c, y, s);
    var x2, w2, b2 := LowOuter(A, B, c, -y, -s);
    Mirrored(A, c, y);
    Mirrored(B, c, s);
    Lift(A, f, x0, w0, b0);
    Lift(A, f, x1, w1, b1);
    Lift(A, f, x2, w2, b2);
  }

  /** A high shelf is a low one with the cosine and the middle terms negated. */
  function Flipped(p: Poly): Poly { Poly(p.c0, -p.c1, p.c2) }

  lemma {:induction false} HighIsFlipped(A: real, c: real, y: real)
    ensures HighA(A, c, y) == Flipped(LowA(A, -c, y)) && HighB(A, c, y) == Flipped(LowB(A, -c, y))
  {
  }

  lemma {:induction false} FlippedTimes(b: Poly, f: real, a: Poly)
    requires Times(b, f, a)
    ensures Times(Flipped(b), f, Flipped(a))
  {
    assert f * -a.c1 == -(f * a.c1);
  }

  lemma {:induction false} HighIsOpposite(A: real, B: real, c: real, y: real, s: real, f: real)
    requires A * B == 1.0 && A * s == y && Multiple(f, A, A)
    ensures Times(HighB(A, c, y), f, HighA(B, c, s))
  {
    LowIsOpposite(A, B, -c, y, s, f);
    FlippedTimes(LowB(A, -c, y), f, LowA(B, -c, s));
    HighIsFlipped(A, c, y);
    HighIsFlipped(B, c, s);
  }

  /** The factor between b and the a of the opposite gain. */
  function Factor(kind: Kind, p: Params): real { if kind == PeakingEQ then 1.0 else p.A * p.A }

  predicate Times(b: Poly, f: real, a: Poly) {
    Multiple(b.c0, f, a.c0) && Multiple(b.c1, f, a.c1) && Multiple(b.c2, f, a.c2)
  }

  lemma {:induction false} OneTimes(b: Poly, f: real, a: Poly)
    requires f == 1.0 && b == a
    ensures Times(b, f, a)
  {
    Scale(f, 1.0, a.c0);
    Scale(f, 1.0, a.c1);
    Scale(f, 1.0, a.c2);
  }

  lemma {:induction false} PeakIsOpposite(kind: Kind, p: Params)
    requires p.Valid() && kind == PeakingEQ
    ensures p.Opposite().Valid() && Times(RawB(kind, p), Factor(kind, p), RawA(kind, p.Opposite()))
  {
    OppositeRoot(p);
    PeaksAreEqual(p.A, p.Opposite().A, p.cosW0, p.alpha);
    OneTimes(RawB(kind, p), Factor(kind, p), RawA(kind, p.Opposite()));
  }

  lemma {:induction false} PeaksAreEqual(A: real, B: real, c: real, alpha: real)
    requires A * B == 1.0 && B != 0.0
    ensures PeakB(A, c, alpha) == PeakA(B, c, alpha)
  {
    OneOver(A, B, alpha);
  }

  lemma {:induction false} OneOver(A: real, B: real, x: real)
    requires A * B == 1.0
    ensures B != 0.0 && x / B == x * A
  {
    var q := x / B;
    assert q * B == x;
    Scale(q * B, x, A);
    Scale(A * B, 1.0, q);
  }

  lemma {:induction false} WidthScales(p: Params)
    requires p.Valid() && p.Opposite().Valid() && p.A * p.Opposite().r == p.r
    ensures p.A * Width(p.Opposite()) == Width(p)
  {
    var A, q := p.A, p.Opposite().r;
    Scale(A * q, p.r, p.alpha);
    assert A * (2.0 * q * p.alpha) == 2.0 * ((A * q) * p.alpha);
  }

  lemma {:induction false} ShelfIsOpposite(kind: Kind, p: Params)
    requires p.Valid() && kind != PeakingEQ
    ensures p.Opposite().Valid() && Times(RawB(kind, p), Factor(kind, p), RawA(kind, p.Opposite()))
  {
    OppositeRoot(p);
    WidthScales(p);
    if kind == LowShelf {
      LowIsOpposite(p.A, p.Opposite().A, p.cosW0, Width(p), Width(p.Opposite()), Factor(kind, p));
    } else {
      HighIsOpposite(p.A, p.Opposite().A, p.cosW0, Width(p), Width(p.Opposite()), Factor(kind, p));
    }
  }

  /** b is, up to a factor, the a of the opposite gain. */
  lemma {:induction false} RawBIsOpposite(kind: Kind, p: Params)
    requires p.Valid()
    ensures p.Opposite().Valid() && Times(RawB(kind, p), Factor(kind, p), RawA(kind, p.Opposite()))
  {
    match kind
    case PeakingEQ => PeakIsOpposite(kind, p);
    case _ => ShelfIsOpposite(kind, p);
  }

  /** b of either is its b0 times the a of the other, and the two b0 are each other's inverses. */
  predicate Cancels(f: Biquad, g: Biquad) {
    Times(f.b, f.b.c0, g.a) && Times(g.b, g.b.c0, f.a) && Inverse(f.b.c0, g.b.c0)
  }

  predicate Inverse(x: real, e: real) { x * e == 1.0 }

  predicate Triple(v: real, f: real, x: real, e: real) { v == (f * x) * e }

  /** Two numbers in proportion stay so when each is divided by its own. */
  lemma {:induction false} ScaledTerm(b: real, f: real, x: real, e: real, x0: real, e0: real, v: real, n: real, m: real)
    requires Multiple(b, f, x) && Inverse(x0, e0) && Triple(v, f, x0, e) && Multiple(n, b, e) && Multiple(m, x, e0)
    ensures Multiple(n, v, m)
  {
    var t := x0 * e0;
    Scale(b, f * x, e);
    Scale(v, (f * x0) * e, m);
    Scale(m, x * e0, (f * x0) * e);
    assert ((f * x0) * e) * (x * e0) == ((f * x) * e) * t;
  }

  lemma {:induction false} OverTerms(p: Poly, d: real) returns (e: real)
    requires d > 0.0
    ensures Inverse(d, e) && Multiple(p.Over(d).c0, p.c0, e) && Multiple(p.Over(d).c1, p.c1, e)
        && Multiple(p.Over(d).c2, p.c2, e)
    ensures e == 1.0 / d
  {
    e := 1.0 / d;
    Reciprocal(d, 1.0);
    OverIsTimes(p, d);
  }

  lemma {:induction false} NormalisedTimes(b: Poly, f: real, a: Poly, d: real) returns (e: real, v: real)
    requires Times(b, f, a) && Dominant(a) && d > 0.0
    ensures Inverse(d, e) && Triple(v, f, a.c0, e) && v == b.Over(d).c0 && Times(b.Over(d), v, a.Over(a.c0))
  {
    e := OverTerms(b, d);
    var e0 := OverTerms(a, a.c0);
    var n, m := b.Over(d), a.Over(a.c0);
    v := n.c0;
    FirstTriple(b.c0, f, a.c0, e, v);
    ScaledTerm(b.c0, f, a.c0, e, a.c0, e0, v, n.c0, m.c0);
    ScaledTerm(b.c1, f, a.c1, e, a.c0, e0, v, n.c1, m.c1);
    ScaledTerm(b.c2, f, a.c2, e, a.c0, e0, v, n.c2, m.c2);
  }

  lemma {:induction false} FirstTriple(b: real, f: real, x: real, e: real, v: real)
    requires Multiple(b, f, x) && Multiple(v, b, e)
    ensures Triple(v, f, x, e)
  {
    Scale(b, f * x, e);
  }

  lemma {:induction false} FactorsCancel(kind: Kind, p: Params, f: real, g: real)
    requires p.Valid() && p.Opposite().Valid() && f == Factor(kind, p) && g == Factor(kind, p.Opposite())
    ensures Inverse(f, g)
  {
    OppositeRoot(p);
    if kind != PeakingEQ { SquaresCancel(p.A, p.Opposite().A, f, g); }
  }

  lemma {:induction false} SquaresCancel(A: real, B: real, f: real, g: real)
    requires A * B == 1.0 && f == A * A && g == B * B
    ensures Inverse(f, g)
  {
    var t := A * B;
    Scale(t, 1.0, t);
    Scale(f, A * A, g);
    Scale(g, B * B, A * A);
    assert (A * A) * (B * B) == t * t;
  }

  lemma {:induction false} CrossProduct(f: real, g: real, x: real, y: real, ex: real, ey: real, v: real, w: real)
    requires Inverse(f, g) && Inverse(x, ex) && Inverse(y, ey) && Triple(v, f, x, ey) && Triple(w, g, y, ex)
    ensures Inverse(v, w)
  {
    var t, k, l := f * g, x * ex, y * ey;
    Scale(v, (f * x) * ey, w);
    Scale(w, (g * y) * ex, (f * x) * ey);
    assert ((f * x) * ey) * ((g * y) * ex) == t * k * l;
  }

  lemma {:induction false} NormalisedCancel(
      a: Poly, b: Poly, a': Poly, b': Poly, f: real, f': real, left: Biquad, right: Biquad)
    requires Dominant(a) && Dominant(a') && Times(b, f, a') && Times(b', f', a) && Inverse(f, f')
    requires left == Biquad(a.Over(a.c0), b.Over(a.c0)) && right == Biquad(a'.Over(a'.c0), b'.Over(a'.c0))
    ensures Cancels(left, right)
  {
    var e, v := NormalisedTimes(b, f, a', a.c0);
    var e', w := NormalisedTimes(b', f', a, a'.c0);
    CrossProduct(f, f', a'.c0, a.c0, e', e, v, w);
  }

  lemma {:induction false} ReciprocalTwice(x: real)
    requires x != 0.0
    ensures 1.0 / x != 0.0 && 1.0 / (1.0 / x) == x
  {
    Reciprocal(x, 1.0);
    var e := 1.0 / x;
    Reciprocal(e, 1.0);
    Scale(x * e, 1.0, 1.0 / e);
    Scale(e * (1.0 / e), 1.0, x);
  }

  /** Twice negated, a gain is itself. */
  lemma {:induction false} OppositeTwice(p: Params)
    requires p.Valid()
    ensures p.Opposite().Valid() && p.Opposite().Opposite() == p
  {
    OppositeRoot(p);
    ReciprocalTwice(p.A);
    ReciprocalTwice(p.r);
  }

  /** b for a gain, a for the opposite one, and the factor between them. */
  lemma {:induction false} RawHalf(kind: Kind, p: Params) returns (b: Poly, a': Poly, f: real)
    requires p.Valid()
    ensures p.Opposite().Valid() && b == RawB(kind, p) && a' == RawA(kind, p.Opposite()) && f == Factor(kind, p)
    ensures Times(b, f, a') && Dominant(a')
  {
    b, a', f := RawB(kind, p), RawA(kind, p.Opposite()), Factor(kind, p);
    RawBIsOpposite(kind, p);
    RawAIsDominant(kind, p.Opposite());
  }

  /** The filters for a gain and its opposite cancel, coefficient by coefficient. */
  lemma {:induction false} OppositeGainsCancel(kind: Kind, p: Params)
    requires p.Valid()
    ensures p.Opposite().Valid() && Cancels(ComputeCoeffs(kind, p), ComputeCoeffs(kind, p.Opposite()))
  {
    OppositeTwice(p);
    var b, a', f := RawHalf(kind, p);
    var b', a, f' := RawHalf(kind, p.Opposite());
    FactorsCancel(kind, p, f, f');
    NormalisedCancel(a, b, a', b', f, f', ComputeCoeffs(kind, p), ComputeCoeffs(kind, p.Opposite()));
  }

  lemma {:induction false} RootOfMultiple(f: real, x: real)
    requires f != 0.0 && f * x == 0.0
    ensures x == 0.0
  {
  }

  /** b0 z^2 + b1 z + b2 vanishes at u + iv. */
  predicate Zero(b: Poly, u: real, v: real) {
    b.c0 * (u * u - v * v) + b.c1 * u + b.c2 == 0.0 && b.c0 * (2.0 * u * v) + b.c1 * v == 0.0
  }

  lemma {:induction false} ZeroIsRoot(b: Poly, a: Poly, u: real, v: real)
    requires Times(b, b.c0, a) && b.c0 != 0.0 && Zero(b, u, v)
    ensures Root(a, u, v)
  {
    var x, y := u * u - v * v + a.c1 * u + a.c2, 2.0 * u * v + a.c1 * v;
    assert b.c0 * x == b.c0 * (u * u - v * v) + (b.c0 * a.c1) * u + b.c0 * a.c2;
    assert b.c0 * y == b.c0 * (2.0 * u * v) + (b.c0 * a.c1) * v;
    RootOfMultiple(b.c0, x);
    RootOfMultiple(b.c0, y);
  }

  lemma {:induction false} CancelledZeros(f: Biquad, g: Biquad, u: real, v: real)
    requires Cancels(f, g) && Stable(g.a) && Zero(f.b, u, v)
    ensures u * u + v * v < 1.0
  {
    assert f.b.c0 != 0.0;
    ZeroIsRoot(f.b, g.a, u, v);
    RootsAreInside(g.a, u, v);
  }

  /** The zeros lie inside the unit circle too, being the poles of the opposite gain. */
  lemma {:induction false} ZerosInsideUnitCircle(kind: Kind, p: Params, u: real, v: real)
    requires p.Valid() && Zero(ComputeCoeffs(kind, p).b, u, v)
    ensures u * u + v * v < 1.0
  {
    OppositeGainsCancel(kind, p);
    AllFiltersAreStable(kind, p.Opposite());
    CancelledZeros(ComputeCoeffs(kind, p), ComputeCoeffs(kind, p.Opposite()), u, v);
  }

  // ---- gain at both ends and in between ----

  /** b0 + sign b1 + b2 is `gain` times the same sum of a: the gain for a constant signal (1) or an alternating one
      (-1). */
  predicate EndGain(f: Biquad, sign: real, gain: real) {
    && f.a.c0 + sign * f.a.c1 + f.a.c2 > 0.0
    && f.b.c0 + sign * f.b.c1 + f.b.c2 == gain * (f.a.c0 + sign * f.a.c1 + f.a.c2)
  }

  predicate Ends(kind: Kind, A: real, f: Biquad) {
    EndGain(f, 1.0, if kind == LowShelf then A * A else 1.0)
        && EndGain(f, -1.0, if kind == HighShelf then A * A else 1.0)
  }

  lemma {:induction false} EndSums(A: real, c: real, y: real)
    ensures ((A + 1.0) + (A - 1.0) * c + y) + ((A + 1.0) + (A - 1.0) * c - y) - 2.0 * ((A - 1.0) + (A + 1.0) * c) ==
        4.0 * (1.0 - c)
    ensures ((A + 1.0) + (A - 1.0) * c + y) + ((A + 1.0) + (A - 1.0) * c - y) + 2.0 * ((A - 1.0) + (A + 1.0) * c) ==
        4.0 * (A * (1.0 + c))
    ensures ((A + 1.0) - (A - 1.0) * c + y) + ((A + 1.0) - (A - 1.0) * c - y) - 2.0 * ((A - 1.0) - (A + 1.0) * c) ==
        4.0 * (1.0 + c)
    ensures ((A + 1.0) - (A - 1.0) * c + y) + ((A + 1.0) - (A - 1.0) * c - y) + 2.0 * ((A - 1.0) - (A + 1.0) * c) ==
        4.0 * (A * (1.0 - c))
  {
  }

  lemma {:induction false} LowShelfEnds(kind: Kind, A: real, c: real, y: real)
    requires kind == LowShelf && A > 0.0 && -1.0 < c < 1.0
    ensures Ends(kind, A, Biquad(LowA(A, c, y), LowB(A, c, y)))
  {
    EndSums(A, c, y);
    Product(A, 1.0 + c, A * (1.0 + c));
    var f := Biquad(LowA(A, c, y), LowB(A, c, y));
    var low, mid, high := (A + 1.0) - (A - 1.0) * c + y, 2.0 * ((A - 1.0) - (A + 1.0) * c),
        (A + 1.0) - (A - 1.0) * c - y;
    assert f.b.c0 + f.b.c1 + f.b.c2 == A * (low + mid + high);
    assert f.b.c0 - f.b.c1 + f.b.c2 == A * (low - mid + high);
    Scale(low + mid + high, 4.0 * (A * (1.0 - c)), A);
    Scale(low - mid + high, 4.0 * (1.0 + c), A);
  }

  lemma {:induction false} HighShelfEnds(kind: Kind, A: real, c: real, y: real)
    requires kind == HighShelf && A > 0.0 && -1.0 < c < 1.0
    ensures Ends(kind, A, Biquad(HighA(A, c, y), HighB(A, c, y)))
  {
    EndSums(A, c, y);
    Product(A, 1.0 - c, A * (1.0 - c));
    var f := Biquad(HighA(A, c, y), HighB(A, c, y));
    var low, mid, high := (A + 1.0) + (A - 1.0) * c + y, -2.0 * ((A - 1.0) + (A + 1.0) * c),
        (A + 1.0) + (A - 1.0) * c - y;
    assert f.b.c0 + f.b.c1 + f.b.c2 == A * (low + mid + high);
    assert f.b.c0 - f.b.c1 + f.b.c2 == A * (low - mid + high);
    Scale(low + mid + high, 4.0 * (1.0 - c), A);
    Scale(low - mid + high, 4.0 * (A * (1.0 + c)), A);
  }

  lemma {:induction false} PeakEnds(kind: Kind, A: real, c: real, alpha: real)
    requires kind == PeakingEQ && A > 0.0 && -1.0 < c < 1.0
    ensures Ends(kind, A, Biquad(PeakA(A, c, alpha), PeakB(A, c, alpha)))
  {
  }

  lemma {:induction false} RawEnds(kind: Kind, p: Params)
    requires p.Valid()
    ensures Ends(kind, p.A, Biquad(RawA(kind, p), RawB(kind, p)))
  {
    match kind
    case PeakingEQ => PeakEnds(kind, p.A, p.cosW0, p.alpha);
    case LowShelf => LowShelfEnds(kind, p.A, p.cosW0, Width(p));
    case HighShelf => HighShelfEnds(kind, p.A, p.cosW0, Width(p));
  }

  lemma {:induction false} NormalisedEnds(raw: Biquad, f: Biquad, sign: real, gain: real)
    requires EndGain(raw, sign, gain) && raw.a.c0 > 0.0 && f == Biquad(raw.a.Over(raw.a.c0), raw.b.Over(raw.a.c0))
    ensures EndGain(f, sign, gain)
  {
    var d := raw.a.c0;
    OverIsTimes(raw.a, d);
    OverIsTimes(raw.b, d);
    Reciprocal(d, 1.0);
    var e, sum, above := 1.0 / d, raw.a.c0 + sign * raw.a.c1 + raw.a.c2, raw.b.c0 + sign * raw.b.c1 + raw.b.c2;
    Product(sum, e, sum * e);
    assert raw.a.c0 * e + sign * (raw.a.c1 * e) + raw.a.c2 * e == sum * e;
    assert raw.b.c0 * e + sign * (raw.b.c1 * e) + raw.b.c2 * e == above * e;
    Scale(above, gain * sum, e);
    assert (gain * sum) * e == gain * (sum * e);
    Scale(raw.a.c0 * e + sign * (raw.a.c1 * e) + raw.a.c2 * e, sum * e, gain);
  }

  lemma {:induction false} NormalisedKeepsEnds(kind: Kind, A: real, raw: Biquad, f: Biquad)
    requires Ends(kind, A, raw) && Dominant(raw.a) && f == Biquad(raw.a.Over(raw.a.c0), raw.b.Over(raw.a.c0))
    ensures Ends(kind, A, f)
  {
    NormalisedEnds(raw, f, 1.0, if kind == LowShelf then A * A else 1.0);
    NormalisedEnds(raw, f, -1.0, if kind == HighShelf then A * A else 1.0);
  }

  /** At DC a low shelf has gain A^2 and the others 1; at half the sample rate a high shelf has A^2 and the others 1. */
  lemma {:induction false} EndsAreRight(kind: Kind, p: Params)
    requires p.Valid()
    ensures Ends(kind, p.A, ComputeCoeffs(kind, p))
  {
    RawEnds(kind, p);
    RawAIsDominant(kind, p);
    NormalisedKeepsEnds(kind, p.A, Biquad(RawA(kind, p), RawB(kind, p)), ComputeCoeffs(kind, p));
  }

  // ---- gain at the centre ----

  /** c0 z^2 + c1 z + c2 at z = c + is. */
  function Re(p: Poly, c: real, s: real): real { p.c0 * (c * c - s * s) + p.c1 * c + p.c2 }

  function Im(p: Poly, c: real, s: real): real { p.c0 * (2.0 * c * s) + p.c1 * s }

  lemma {:induction false} PeakAt(x: real, c: real, s: real, p: Poly)
    requires c * c + s * s == 1.0 && p == Poly(1.0 + x, -2.0 * c, 1.0 - x)
    ensures Multiple(Re(p, c, s), x, -2.0 * (s * s)) && Multiple(Im(p, c, s), x, 2.0 * c * s)
  {
    var k, l := c * c, s * s;
    assert Re(p, c, s) == (1.0 - (k + l)) + x * (k - l - 1.0);
    Scale(k - l - 1.0, -2.0 * l, x);
    assert Im(p, c, s) == x * (2.0 * c * s);
  }

  lemma {:induction false} SameMultiple(b: real, a: real, w: real, x: real, f: real, t: real)
    requires Multiple(b, w, t) && Multiple(a, x, t) && Multiple(w, f, x)
    ensures Multiple(b, f, a)
  {
    Scale(w, f * x, t);
    Scale(a, x * t, f);
  }

  lemma {:induction false} PeakFactor(A: real, alpha: real, x: real, w: real, f: real)
    requires A > 0.0 && x == alpha / A && w == alpha * A && Multiple(f, A, A)
    ensures Multiple(w, f, x)
  {
    assert x * A == alpha;
    Scale(x * A, alpha, A);
    Scale(f, A * A, x);
  }

  lemma {:induction false} ReOver(p: Poly, d: real, c: real, s: real) returns (e: real)
    requires d > 0.0
    ensures e == 1.0 / d && Multiple(Re(p.Over(d), c, s), e, Re(p, c, s))
        && Multiple(Im(p.Over(d), c, s), e, Im(p, c, s))
  {
    e := 1.0 / d;
    OverIsTimes(p, d);
  }

  lemma {:induction false} MultipleOver(b: real, a: real, f: real, e: real, n: real, m: real)
    requires Multiple(b, f, a) && Multiple(n, e, b) && Multiple(m, e, a)
    ensures Multiple(n, f, m)
  {
    Scale(b, f * a, e);
    Scale(m, e * a, f);
  }

  /** At its centre frequency a peaking filter multiplies by exactly A^2, with no shift in phase. */
  lemma {:induction false} PeakGainIsRight(p: Params, s: real, f: Biquad, A2: real)
    requires p.Valid() && p.cosW0 * p.cosW0 + s * s == 1.0 && f == ComputeCoeffs(PeakingEQ, p) && Multiple(A2, p.A, p.A)
    ensures Multiple(Re(f.b, p.cosW0, s), A2, Re(f.a, p.cosW0, s))
        && Multiple(Im(f.b, p.cosW0, s), A2, Im(f.a, p.cosW0, s))
  {
    var c, x, w, a, b := p.cosW0, p.alpha / p.A, p.alpha * p.A, RawA(PeakingEQ, p), RawB(PeakingEQ, p);
    PeakAt(x, c, s, a);
    PeakAt(w, c, s, b);
    PeakFactor(p.A, p.alpha, x, w, A2);
    SameMultiple(Re(b, c, s), Re(a, c, s), w, x, A2, -2.0 * (s * s));
    SameMultiple(Im(b, c, s), Im(a, c, s), w, x, A2, 2.0 * c * s);
    RawAIsDominant(PeakingEQ, p);
    var e := ReOver(a, a.c0, c, s);
    var e' := ReOver(b, a.c0, c, s);
    MultipleOver(Re(b, c, s), Re(a, c, s), A2, e, Re(f.b, c, s), Re(f.a, c, s));
    MultipleOver(Im(b, c, s), Im(a, c, s), A2, e, Im(f.b, c, s), Im(f.a, c, s));
  }

  // ---- signals ----

  /** The n-th sample, silence outside the signal. */
  function At(x: seq<real>, n: int): real { if 0 <= n < |x| then x[n] else 0.0 }

  /** The difference equation a filter stands for, at one sample: sum a_k y[n-k] = sum b_k x[n-k]. */
  predicate Obeys(f: Biquad, x0: real, x1: real, x2: real, y0: real, y1: real, y2: real) {
    y0 + f.a.c1 * y1 + f.a.c2 * y2 == f.b.c0 * x0 + f.b.c1 * x1 + f.b.c2 * x2
  }

  /** `y` is what the filter makes of `x`. */
  predicate Filters(f: Biquad, x: seq<real>, y: seq<real>) {
    |y| == |x| && forall n :: 0 <= n < |x| ==>
        Obeys(f, At(x, n), At(x, n - 1), At(x, n - 2), At(y, n), At(y, n - 1), At(y, n - 2))
  }

  /** What a device puts out next: it adds up all five of its terms. */
  function NextSample(bq: seq<real>, x0: real, x1: real, x2: real, y1: real, y2: real): real
    requires |bq| == 5
  {
    bq[0] * x0 + bq[1] * x1 + bq[2] * x2 + bq[3] * y1 + bq[4] * y2
  }

  function DeviceOutput(bq: seq<real>, x: seq<real>, n: int): real
    requires |bq| == 5
    decreases n + 1
  {
    if n < 0 then 0.0
    else NextSample(bq, At(x, n), At(x, n - 1), At(x, n - 2), DeviceOutput(bq, x, n - 1), DeviceOutput(bq, x, n - 2))
  }

  function DeviceFiltered(bq: seq<real>, x: seq<real>): seq<real>
    requires |bq| == 5
  {
    seq(|x|, n requires 0 <= n < |x| => DeviceOutput(bq, x, n))
  }

  lemma {:induction false} Negate(a: real, y: real)
    ensures -a * y == -(a * y)
  {
  }

  /** The next sample of a device sent the formatted numbers is the one the filter asks for, and no other is. */
  lemma {:induction false} FormattedIsObeyed(f: Biquad, x0: real, x1: real, x2: real, y0: real, y1: real, y2: real)
    ensures y0 == NextSample(FormatBiquads(f), x0, x1, x2, y1, y2) <==> Obeys(f, x0, x1, x2, y0, y1, y2)
  {
    Negate(f.a.c1, y1);
    Negate(f.a.c2, y2);
  }

  lemma {:induction false} OutputIsNext(bq: seq<real>, x: seq<real>, y: seq<real>, n: nat)
    requires |bq| == 5 && y == DeviceFiltered(bq, x) && n < |x|
    ensures At(y, n) == NextSample(bq, At(x, n), At(x, n - 1), At(x, n - 2), At(y, n - 1), At(y, n - 2))
  {
  }

  /** A device sent the formatted numbers, with the a terms negated, runs the filter. */
  lemma {:induction false} DeviceRunsFilter(f: Biquad, x: seq<real>)
    ensures Filters(f, x, DeviceFiltered(FormatBiquads(f), x))
  {
    var bq := FormatBiquads(f);
    var y := DeviceFiltered(bq, x);
    forall n | 0 <= n < |x|
      ensures Obeys(f, At(x, n), At(x, n - 1), At(x, n - 2), At(y, n), At(y, n - 1), At(y, n - 2))
    {
      OutputIsNext(bq, x, y, n);
      FormattedIsObeyed(f, At(x, n), At(x, n - 1), At(x, n - 2), At(y, n), At(y, n - 1), At(y, n - 2));
    }
  }

  lemma {:induction false} CancelStep(b: real, b': real, a1: real, a2: real, d1: real, d2: real, x0: real, x1: real,
      x2: real, y0: real, y1: real, y2: real)
    requires Inverse(b, b') && y0 + a1 * y1 + a2 * y2 == b * x0 + (b * d1) * x1 + (b * d2) * x2
    ensures b' * y0 + (b' * a1) * y1 + (b' * a2) * y2 == x0 + d1 * x1 + d2 * x2
  {
    var u, s := x0 + d1 * x1 + d2 * x2, y0 + a1 * y1 + a2 * y2;
    assert b * u == b * x0 + (b * d1) * x1 + (b * d2) * x2;
    assert b' * s == b' * y0 + (b' * a1) * y1 + (b' * a2) * y2;
    Scale(s, b * u, b');
    Scale(b * b', 1.0, u);
    assert (b * u) * b' == (b * b') * u;
  }

  /** If the two samples before came back, so does this one. */
  lemma {:induction false} SampleComesBack(
      f: Biquad, g: Biquad, x0: real, x1: real, x2: real, y0: real, y1: real, y2: real, w0: real)
    requires Cancels(f, g) && Obeys(f, x0, x1, x2, y0, y1, y2) && Obeys(g, y0, y1, y2, w0, x1, x2)
    ensures w0 == x0
  {
    var b, b', a1, a2, d1, d2 := f.b.c0, g.b.c0, f.a.c1, f.a.c2, g.a.c1, g.a.c2;
    Scale(f.b.c1, b * d1, x1);
    Scale(f.b.c2, b * d2, x2);
    Scale(g.b.c1, b' * a1, y1);
    Scale(g.b.c2, b' * a2, y2);
    CancelStep(b, b', a1, a2, d1, d2, x0, x1, x2, y0, y1, y2);
  }

  lemma {:induction false} SignalComesBack(f: Biquad, g: Biquad, x: seq<real>, y: seq<real>, w: seq<real>, n: int)
    requires Cancels(f, g) && Filters(f, x, y) && Filters(g, y, w) && n < |x|
    ensures At(w, n) == At(x, n)
    decreases n + 1
  {
    if n >= 0 {
      SignalComesBack(f, g, x, y, w, n - 1);
      SignalComesBack(f, g, x, y, w, n - 2);
      SampleComesBack(f, g, At(x, n), At(x, n - 1), At(x, n - 2), At(y, n), At(y, n - 1), At(y, n - 2), At(w, n));
    }
  }

  /** A signal filtered with a gain and then with its opposite is the signal itself. */
  lemma {:induction false} OppositeGainUndoes(kind: Kind, p: Params, x: seq<real>, y: seq<real>, w: seq<real>)
    requires p.Valid() && p.Opposite().Valid()
    requires Filters(ComputeCoeffs(kind, p), x, y) && Filters(ComputeCoeffs(kind, p.Opposite()), y, w)
    ensures w == x
  {
    OppositeGainsCancel(kind, p);
    forall n | 0 <= n < |x|
      ensures w[n] == x[n]
    {
      SignalComesBack(ComputeCoeffs(kind, p), ComputeCoeffs(kind, p.Opposite()), x, y, w, n);
      assert At(w, n) == w[n] && At(x, n) == x[n];
    }
  }

  lemma {:induction false} FlatRaw(kind: Kind, p: Params)
    requires p.Valid() && p.r == 1.0
    ensures RawB(kind, p) == RawA(kind, p)
  {
    assert p.A == 1.0;
    assert p.alpha / p.A == p.alpha;
  }

  /** Without gain a filter has equal a and b. */
  lemma {:induction false} ZeroGainIsFlat(kind: Kind, p: Params)
    requires p.Valid() && p.r == 1.0
    ensures ComputeCoeffs(kind, p).b == ComputeCoeffs(kind, p).a
  {
    FlatRaw(kind, p);
  }
}
