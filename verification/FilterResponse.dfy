/** What a filter does at every frequency: it is the analogue filter of its formula, H(s), taken to z by the bilinear
    transform that puts its centre frequency at s = i. */
module FilterResponse {
  import opened Biquads

  datatype Complex = Complex(re: real, im: real) {
    function Plus(w: Complex): Complex { Complex(re + w.re, im + w.im) }

    function Times(w: Complex): Complex { Complex(re * w.re - im * w.im, re * w.im + im * w.re) }

    function Scaled(k: real): Complex { Complex(k * re, k * im) }

    function Norm(): real { re * re + im * im }
  }

  /** A filter's polynomial at x = z^-1. */
  function Value(p: Poly, x: Complex): Complex {
    Complex(p.c0, 0.0).Plus(x.Scaled(p.c1)).Plus(x.Times(x).Scaled(p.c2))
  }

  /** n2 s^2 + n1 s + n0 */
  datatype Analogue = Analogue(n2: real, n1: real, n0: real) {
    function At(s: Complex): Complex { s.Times(s).Scaled(n2).Plus(s.Scaled(n1)).Plus(Complex(n0, 0.0)) }
  }

  /** What H(s) has above the line and below it; `r` is the square root of A. */
  datatype Transfer = Transfer(above: Analogue, below: Analogue)

  function H(kind: Kind, A: real, r: real, Q: real): Transfer
    requires A > 0.0 && Q > 0.0
  {
    Product(A, Q, A * Q);
    match kind
    case PeakingEQ => Transfer(Analogue(1.0, A / Q, 1.0), Analogue(1.0, 1.0 / (A * Q), 1.0))
    case LowShelf => Transfer(Analogue(A, A * (r / Q), A * A), Analogue(A, r / Q, 1.0))
    case HighShelf => Transfer(Analogue(A * A, A * (r / Q), A), Analogue(1.0, r / Q, A))
  }

  /** s = (1 - x) / (1 + x) / tan(w0/2), where tan(w0/2) = sin(w0) / (1 + cos(w0)). */
  predicate Bilinear(x: Complex, s: Complex, cosW0: real, sinW0: real) {
    Complex(1.0 - x.re, -x.im).Scaled(1.0 + cosW0) == s.Times(Complex(1.0 + x.re, x.im)).Scaled(sinW0)
  }

  // ---- complex numbers ----

  lemma {:induction false} Associate(a: Complex, b: Complex, c: Complex)
    ensures a.Times(b).Times(c) == a.Times(b.Times(c))
  {
  }

  lemma {:induction false} ScaleFactors(a: Complex, b: Complex, k: real, l: real)
    ensures a.Scaled(k).Times(b.Scaled(l)) == a.Times(b).Scaled(k * l)
  {
  }

  lemma {:induction false} ScaleTwice(a: Complex, k: real, l: real, m: real)
    requires m == k * l
    ensures a.Scaled(k).Scaled(l) == a.Scaled(m)
  {
  }

  lemma {:induction false} CancelScale(a: Complex, b: Complex, k: real)
    requires k != 0.0 && a.Scaled(k) == b.Scaled(k)
    ensures a == b
  {
    assert k * (a.re - b.re) == 0.0 && k * (a.im - b.im) == 0.0;
  }

  lemma {:induction false} Distribute(e: Complex, a: Complex, b: Complex)
    ensures e.Times(a.Plus(b)) == e.Times(a).Plus(e.Times(b))
  {
  }

  // ---- the transform ----

  /** The digital polynomial an analogue one becomes. */
  function Transformed(h: Analogue, k: real, t: real, sn: real): Poly {
    Combined(h.n2 * k, h.n1 * sn, h.n0 * t)
  }

  function Combined(p: real, m: real, n: real): Poly { Poly(p + m + n, 2.0 * (n - p), p - m + n) }

  /** In terms of 1 - x and 1 + x. */
  lemma {:induction false} Regrouped(p: real, m: real, n: real, x: Complex, d: Complex, u: Complex)
    requires d == Complex(1.0 - x.re, -x.im) && u == Complex(1.0 + x.re, x.im)
    ensures Value(Combined(p, m, n), x) ==
            d.Times(d).Scaled(p).Plus(d.Times(u).Scaled(m)).Plus(u.Times(u).Scaled(n))
  {
  }

  lemma {:induction false} MixedTerm(d: Complex, u: Complex, v: Complex, k: real, t: real, sn: real)
    requires k > 0.0 && k * t == sn * sn && d.Scaled(k) == v.Scaled(sn)
    ensures d.Times(u).Scaled(sn) == v.Times(u).Scaled(t)
  {
    ScaleFactors(d, u, k, 1.0);
    ScaleFactors(v, u, sn, 1.0);
    assert d.Times(u).Scaled(k) == v.Times(u).Scaled(sn);
    ScaleTwice(d.Times(u), sn, k, sn * k);
    ScaleTwice(d.Times(u), k, sn, sn * k);
    ScaleTwice(v.Times(u), sn, sn, sn * sn);
    ScaleTwice(v.Times(u), t, k, sn * sn);
    CancelScale(d.Times(u).Scaled(sn), v.Times(u).Scaled(t), k);
  }

  lemma {:induction false} SquareTerm(d: Complex, v: Complex, k: real, t: real, sn: real)
    requires k > 0.0 && k * t == sn * sn && d.Scaled(k) == v.Scaled(sn)
    ensures d.Times(d).Scaled(k) == v.Times(v).Scaled(t)
  {
    ScaleFactors(d, d, k, k);
    ScaleFactors(v, v, sn, sn);
    ScaleTwice(d.Times(d), k, k, k * k);
    ScaleTwice(v.Times(v), t, k, sn * sn);
    CancelScale(d.Times(d).Scaled(k), v.Times(v).Scaled(t), k);
  }

  lemma {:induction false} Commute(a: Complex, b: Complex)
    ensures a.Times(b) == b.Times(a)
  {
  }

  /** v = s u: products with it are products with u^2. */
  lemma {:induction false} Pulled(s: Complex, u: Complex, v: Complex, e: Complex)
    requires v == s.Times(u) && e == u.Times(u)
    ensures v.Times(u) == e.Times(s) && v.Times(v) == e.Times(s.Times(s))
  {
    Associate(s, u, u);
    Commute(s, e);
    Associate(s, u, v);
    Commute(u, v);
    Associate(e, s, s);
    Commute(s, e.Times(s));
  }

  lemma {:induction false} Term(a: Complex, z: Complex, e: Complex, k: real, t: real, n: real, p: real)
    requires a.Scaled(k) == e.Times(z).Scaled(t) && p == n * k
    ensures a.Scaled(p) == e.Scaled(t).Times(z.Scaled(n))
  {
    ScaleTwice(a, k, n, p);
    ScaleTwice(e.Times(z), t, n, t * n);
    ScaleFactors(e, z, t, n);
  }

  lemma {:induction false} Sum(w: Complex, a: Complex, b: Complex, c: Complex)
    ensures w.Times(a).Plus(w.Times(b)).Plus(w.Times(c)) == w.Times(a.Plus(b).Plus(c))
  {
    Distribute(w, a, b);
    Distribute(w, a.Plus(b), c);
  }

  lemma {:induction false} Circle(c: real, sn: real)
    requires c * c + sn * sn == 1.0
    ensures (1.0 + c) * (1.0 - c) == sn * sn
  {
  }

  lemma {:induction false} ThreeTerms(
      h: Analogue, s: Complex, d: Complex, u: Complex, k: real, t: real, sn: real, p: real, m: real, n: real)
    requires k > 0.0 && k * t == sn * sn && d.Scaled(k) == s.Times(u).Scaled(sn)
    requires p == h.n2 * k && m == h.n1 * sn && n == h.n0 * t
    ensures d.Times(d).Scaled(p).Plus(d.Times(u).Scaled(m)).Plus(u.Times(u).Scaled(n)) ==
            u.Times(u).Scaled(t).Times(h.At(s))
  {
    var v, e, one := s.Times(u), u.Times(u), Complex(1.0, 0.0);
    SquareTerm(d, v, k, t, sn);
    MixedTerm(d, u, v, k, t, sn);
    Pulled(s, u, v, e);
    Term(d.Times(d), s.Times(s), e, k, t, h.n2, p);
    Term(d.Times(u), s, e, sn, t, h.n1, m);
    assert e.Times(one) == e;
    Term(e, one, e, t, t, h.n0, n);
    assert one.Scaled(h.n0) == Complex(h.n0, 0.0);
    Sum(e.Scaled(t), s.Times(s).Scaled(h.n2), s.Scaled(h.n1), Complex(h.n0, 0.0));
  }

  /** Every transformed polynomial is the same multiple of the analogue one it comes from. */
  lemma {:induction false} TransformedValue(
      h: Analogue, x: Complex, s: Complex, d: Complex, u: Complex, k: real, t: real, sn: real)
    requires d == Complex(1.0 - x.re, -x.im) && u == Complex(1.0 + x.re, x.im)
    requires k > 0.0 && k * t == sn * sn && d.Scaled(k) == s.Times(u).Scaled(sn)
    ensures Value(Transformed(h, k, t, sn), x) == u.Times(u).Scaled(t).Times(h.At(s))
  {
    var p, m, n := h.n2 * k, h.n1 * sn, h.n0 * t;
    ThreeTerms(h, s, d, u, k, t, sn, p, m, n);
    Regrouped(p, m, n, x, d, u);
  }

  // ---- the coefficients are the transformed ones ----

  /** alpha is sin(w0)/(2Q): a slope n/Q times the sine is 2 alpha n. */
  lemma {:induction false} Slope(alpha: real, Q: real, sn: real, n: real, q: real)
    requires Q > 0.0 && alpha == sn / (2.0 * Q) && q == n / Q
    ensures q * sn == 2.0 * (alpha * n)
  {
    var twice := 2.0 * Q;
    assert alpha * twice == sn && q * Q == n;
    assert q * (alpha * twice) == 2.0 * (alpha * (q * Q));
  }

  lemma {:induction false} PeakSlope(alpha: real, A: real, Q: real, sn: real, q: real)
    requires Q > 0.0 && A > 0.0 && A * Q > 0.0 && alpha == sn / (2.0 * Q) && q == 1.0 / (A * Q)
    ensures q * sn == 2.0 * (alpha / A)
  {
    var e := 1.0 / A;
    Reciprocal(A, alpha);
    assert q * (A * Q) == 1.0;
    assert (q * Q) * A == 1.0;
    assert q * Q == e by {
      assert ((q * Q) * A) * e == (q * Q) * (A * e);
    }
    assert q == e / Q;
    Slope(alpha, Q, sn, e, q);
  }

  /** A filter's terms, `f` times, are those of its analogue filter transformed. */
  predicate Matches(h: Transfer, c: real, sn: real, f: real, b: Poly, a: Poly) {
    && Times(Transformed(h.above, 1.0 + c, 1.0 - c, sn), f, b)
    && Times(Transformed(h.below, 1.0 + c, 1.0 - c, sn), f, a)
  }

  lemma {:induction false} PeakMatches(A: real, c: real, alpha: real, m: real, q: real, sn: real, l: real)
    requires A > 0.0 && m * sn == 2.0 * (alpha * A) && q * sn == 2.0 * l && l == alpha / A
    ensures Matches(Transfer(Analogue(1.0, m, 1.0), Analogue(1.0, q, 1.0)), c, sn, 2.0,
                    PeakB(A, c, alpha), PeakA(A, c, alpha))
  {
  }

  lemma {:induction false} LowCombined(A: real, c: real, y: real)
    ensures Combined(A * (1.0 + c), A * y, (A * A) * (1.0 - c)) == LowB(A, c, y)
    ensures Combined(A * (1.0 + c), y, 1.0 * (1.0 - c)) == LowA(A, c, y)
  {
  }

  lemma {:induction false} HighCombined(A: real, c: real, y: real)
    ensures Combined((A * A) * (1.0 + c), A * y, A * (1.0 - c)) == HighB(A, c, y)
    ensures Combined(1.0 * (1.0 + c), y, A * (1.0 - c)) == HighA(A, c, y)
  {
  }

  lemma {:induction false} Slopes(A: real, q: real, sn: real, y: real)
    requires q * sn == y
    ensures (A * q) * sn == A * y
  {
    assert (A * q) * sn == A * (q * sn);
  }

  predicate Equals(h: Transfer, c: real, sn: real, b: Poly, a: Poly) {
    Transformed(h.above, 1.0 + c, 1.0 - c, sn) == b && Transformed(h.below, 1.0 + c, 1.0 - c, sn) == a
  }

  lemma {:induction false} LowEquals(h: Transfer, A: real, c: real, y: real, q: real, sn: real, b: Poly, a: Poly)
    requires q * sn == y && h == Transfer(Analogue(A, A * q, A * A), Analogue(A, q, 1.0))
    requires b == LowB(A, c, y) && a == LowA(A, c, y)
    ensures Equals(h, c, sn, b, a)
  {
    Slopes(A, q, sn, y);
    LowCombined(A, c, y);
  }

  lemma {:induction false} HighEquals(h: Transfer, A: real, c: real, y: real, q: real, sn: real, b: Poly, a: Poly)
    requires q * sn == y && h == Transfer(Analogue(A * A, A * q, A), Analogue(1.0, q, A))
    requires b == HighB(A, c, y) && a == HighA(A, c, y)
    ensures Equals(h, c, sn, b, a)
  {
    Slopes(A, q, sn, y);
    HighCombined(A, c, y);
  }

  /** A filter designed with the given Q at the frequency with the given sine. */
  predicate Designed(p: Params, Q: real, sinW0: real) {
    p.Valid() && Q > 0.0 && p.cosW0 * p.cosW0 + sinW0 * sinW0 == 1.0 && p.alpha == sinW0 / (2.0 * Q)
  }

  lemma {:induction false} PeakIsTransformed(p: Params, Q: real, sn: real)
    requires Designed(p, Q, sn)
    ensures Matches(H(PeakingEQ, p.A, p.r, Q), p.cosW0, sn, 2.0, RawB(PeakingEQ, p), RawA(PeakingEQ, p))
  {
    Product(p.A, Q, p.A * Q);
    Slope(p.alpha, Q, sn, p.A, p.A / Q);
    PeakSlope(p.alpha, p.A, Q, sn, 1.0 / (p.A * Q));
    PeakMatches(p.A, p.cosW0, p.alpha, p.A / Q, 1.0 / (p.A * Q), sn, p.alpha / p.A);
  }

  lemma {:induction false} WidthSlope(p: Params, Q: real, sn: real, q: real)
    requires Designed(p, Q, sn) && q == p.r / Q
    ensures q * sn == Width(p)
  {
    Slope(p.alpha, Q, sn, p.r, q);
    assert 2.0 * (p.alpha * p.r) == 2.0 * p.r * p.alpha;
  }

  lemma {:induction false} ShelfTransfer(kind: Kind, A: real, r: real, Q: real, q: real)
    requires A > 0.0 && Q > 0.0 && q == r / Q
    ensures kind == LowShelf ==> H(kind, A, r, Q) == Transfer(Analogue(A, A * q, A * A), Analogue(A, q, 1.0))
    ensures kind == HighShelf ==> H(kind, A, r, Q) == Transfer(Analogue(A * A, A * q, A), Analogue(1.0, q, A))
  {
  }

  lemma {:induction false} ShelfIsTransformed(kind: Kind, p: Params, Q: real, sn: real)
    requires Designed(p, Q, sn) && kind != PeakingEQ
    ensures Equals(H(kind, p.A, p.r, Q), p.cosW0, sn, RawB(kind, p), RawA(kind, p))
  {
    var q, h := p.r / Q, H(kind, p.A, p.r, Q);
    WidthSlope(p, Q, sn, q);
    ShelfTransfer(kind, p.A, p.r, Q, q);
    if kind == LowShelf {
      LowEquals(h, p.A, p.cosW0, Width(p), q, sn, RawB(kind, p), RawA(kind, p));
    } else {
      HighEquals(h, p.A, p.cosW0, Width(p), q, sn, RawB(kind, p), RawA(kind, p));
    }
  }

  // ---- the response ----

  lemma {:induction false} ValueTimes(b: Poly, f: real, a: Poly, x: Complex)
    requires Times(b, f, a)
    ensures Value(b, x) == Value(a, x).Scaled(f)
  {
  }

  lemma {:induction false} ValueOver(p: Poly, d: real, x: Complex)
    requires d > 0.0
    ensures Value(p.Over(d), x) == Value(p, x).Scaled(1.0 / d)
  {
    OverIsTimes(p, d);
    ValueTimes(p.Over(d), 1.0 / d, p, x);
  }

  /** From the transformed polynomial to the normalised one. */
  lemma {:induction false} Normalised(
      raw: Complex, over: Complex, h: Complex, w: Complex, f: real, g: real, e: real)
    requires raw.Scaled(f) == w.Times(h) && over == raw.Scaled(e) && f * g == 1.0
    ensures over == w.Scaled(g * e).Times(h)
  {
    ScaleTwice(raw, f, g, 1.0);
    assert raw == w.Times(h).Scaled(g);
    ScaleTwice(w.Times(h), g, e, g * e);
    ScaleFactors(w, h, g * e, 1.0);
  }

  /** s against z = 1/x, with d = 1 - x and u = 1 + x. */
  predicate Maps(x: Complex, s: Complex, d: Complex, u: Complex, k: real, t: real, sn: real) {
    && d == Complex(1.0 - x.re, -x.im) && u == Complex(1.0 + x.re, x.im)
    && k > 0.0 && k * t == sn * sn && d.Scaled(k) == s.Times(u).Scaled(sn)
  }

  lemma {:induction false} OneResponse(h: Analogue, raw: Poly, f: real, g: real, d0: real, e: real, x: Complex,
      s: Complex, d: Complex, u: Complex, k: real, t: real, sn: real)
    requires Times(Transformed(h, k, t, sn), f, raw) && f * g == 1.0 && d0 > 0.0 && e == 1.0 / d0
    requires Maps(x, s, d, u, k, t, sn)
    ensures Value(raw.Over(d0), x) == u.Times(u).Scaled(t).Scaled(g * e).Times(h.At(s))
  {
    TransformedValue(h, x, s, d, u, k, t, sn);
    ValueTimes(Transformed(h, k, t, sn), f, raw, x);
    ValueOver(raw, d0, x);
    Normalised(Value(raw, x), Value(raw.Over(d0), x), h.At(s), u.Times(u).Scaled(t), f, g, e);
  }

  lemma {:induction false} SquareOfSum(y: real, z: real)
    ensures (y + z) * (y + z) == y * y + 2.0 * (y * z) + z * z
  {
  }

  lemma {:induction false} SquareOfProduct(y: real, z: real)
    ensures (y * z) * (y * z) == (y * y) * (z * z)
  {
  }

  lemma {:induction false} FourSquares(a: real, b: real, c: real, d: real)
    ensures (a * c) * (b * d) == (a * d) * (b * c)
  {
  }

  lemma {:induction false} NormTimes(a: Complex, b: Complex, m: real, n: real)
    requires m == a.Norm() && n == b.Norm()
    ensures a.Times(b).Norm() == m * n
  {
    var p, q, r, s := a.re * a.re, a.im * a.im, b.re * b.re, b.im * b.im;
    var rr, ii, ri, ir := a.re * b.re, a.im * b.im, a.re * b.im, a.im * b.re;
    SquareOfSum(rr, -ii);
    SquareOfSum(ri, ir);
    SquareOfProduct(a.re, b.re);
    SquareOfProduct(a.im, b.im);
    SquareOfProduct(a.re, b.im);
    SquareOfProduct(a.im, b.re);
    FourSquares(a.re, a.im, b.re, b.im);
    Expand(p, q, r, s, m * n);
  }

  lemma {:induction false} Expand(p: real, q: real, r: real, s: real, product: real)
    requires product == (p + q) * (r + s)
    ensures product == p * r + p * s + q * r + q * s
  {
  }

  lemma {:induction false} SquareIsPositive(x: real, y: real)
    requires y == x * x
    ensures y >= 0.0 && (x != 0.0 <==> y > 0.0)
  {
    if x > 0.0 { Product(x, x, y); } else if x < 0.0 { Product(-x, -x, y); }
  }

  lemma {:induction false} NormIsPositive(u: Complex, n: real)
    requires n == u.Norm()
    ensures n > 0.0 <==> u != Complex(0.0, 0.0)
  {
    var x, y := u.re, u.im;
    var p, q := x * x, y * y;
    SquareIsPositive(x, p);
    SquareIsPositive(y, q);
    assert n == p + q && u == Complex(x, y);
  }

  lemma {:induction false} ScaledIsNotZero(u: Complex, k: real)
    requires u != Complex(0.0, 0.0) && k > 0.0
    ensures u.Scaled(k) != Complex(0.0, 0.0)
  {
    if u.Scaled(k) == Complex(0.0, 0.0) { CancelScale(u, Complex(0.0, 0.0), k); }
  }

  lemma {:induction false} SquareIsNotZero(u: Complex)
    requires u != Complex(0.0, 0.0)
    ensures u.Times(u) != Complex(0.0, 0.0)
  {
    var n := u.Norm();
    NormIsPositive(u, n);
    NormTimes(u, u, n, n);
    Product(n, n, n * n);
    NormIsPositive(u.Times(u), n * n);
  }

  lemma {:induction false} EqualsMatches(h: Transfer, c: real, sn: real, b: Poly, a: Poly)
    requires Equals(h, c, sn, b, a)
    ensures Matches(h, c, sn, 1.0, b, a)
  {
    OneTimes(b, 1.0, b);
    OneTimes(a, 1.0, a);
  }

  lemma {:induction false} RawIsTransformed(kind: Kind, p: Params, Q: real, sn: real, b: Poly, a: Poly)
    requires Designed(p, Q, sn) && b == RawB(kind, p) && a == RawA(kind, p)
    ensures Matches(H(kind, p.A, p.r, Q), p.cosW0, sn, if kind == PeakingEQ then 2.0 else 1.0, b, a)
  {
    if kind == PeakingEQ {
      PeakIsTransformed(p, Q, sn);
    } else {
      ShelfIsTransformed(kind, p, Q, sn);
      EqualsMatches(H(kind, p.A, p.r, Q), p.cosW0, sn, b, a);
    }
  }

  /** A filter's numerator and denominator are `w` times those of H(s), and w is not 0. */
  predicate Responds(f: Biquad, h: Transfer, x: Complex, s: Complex, w: Complex) {
    && w != Complex(0.0, 0.0)
    && Value(f.b, x) == w.Times(h.above.At(s)) && Value(f.a, x) == w.Times(h.below.At(s))
  }

  lemma {:induction false} BothRespond(h: Transfer, c: real, sn: real, f: real, g: real, b: Poly, a: Poly, x: Complex,
      s: Complex) returns (w: Complex)
    requires Matches(h, c, sn, f, b, a) && f * g == 1.0 && g > 0.0 && a.c0 > 0.0
    requires -1.0 < c < 1.0 && c * c + sn * sn == 1.0 && Bilinear(x, s, c, sn) && x != Complex(-1.0, 0.0)
    ensures Responds(Biquad(a.Over(a.c0), b.Over(a.c0)), h, x, s, w)
  {
    var d, u, e := Complex(1.0 - x.re, -x.im), Complex(1.0 + x.re, x.im), 1.0 / a.c0;
    Circle(c, sn);
    OneResponse(h.above, b, f, g, a.c0, e, x, s, d, u, 1.0 + c, 1.0 - c, sn);
    OneResponse(h.below, a, f, g, a.c0, e, x, s, d, u, 1.0 + c, 1.0 - c, sn);
    var share := g * e;
    w := u.Times(u).Scaled(1.0 - c).Scaled(share);
    Reciprocal(a.c0, 1.0);
    Product(g, e, share);
    SquareIsNotZero(u);
    ScaledIsNotZero(u.Times(u), 1.0 - c);
    ScaledIsNotZero(u.Times(u).Scaled(1.0 - c), share);
  }

  lemma {:induction false} FilterResponds(isPeak: bool, f: Biquad, h: Transfer, c: real, sn: real, b: Poly, a: Poly,
      x: Complex, s: Complex) returns (w: Complex)
    requires a.c0 > 0.0 && f == Biquad(a.Over(a.c0), b.Over(a.c0))
    requires Matches(h, c, sn, if isPeak then 2.0 else 1.0, b, a)
    requires -1.0 < c < 1.0 && c * c + sn * sn == 1.0 && Bilinear(x, s, c, sn) && x != Complex(-1.0, 0.0)
    ensures Responds(f, h, x, s, w)
  {
    if isPeak {
      w := BothRespond(h, c, sn, 2.0, 0.5, b, a, x, s);
    } else {
      w := BothRespond(h, c, sn, 1.0, 1.0, b, a, x, s);
    }
  }

  lemma {:induction false} Parts(kind: Kind, p: Params, Q: real, sn: real, f: Biquad, h: Transfer)
      returns (b: Poly, a: Poly)
    requires Designed(p, Q, sn) && f == ComputeCoeffs(kind, p) && h == H(kind, p.A, p.r, Q)
    ensures a.c0 > 0.0 && f == Biquad(a.Over(a.c0), b.Over(a.c0))
    ensures Matches(h, p.cosW0, sn, if kind == PeakingEQ then 2.0 else 1.0, b, a)
  {
    b, a := RawB(kind, p), RawA(kind, p);
    RawAIsDominant(kind, p);
    RawIsTransformed(kind, p, Q, sn, b, a);
  }

  /** At every z but -1 a filter multiplies by exactly H(s): its numerator and denominator are the same multiple of
      those of H(s), a multiple that is not 0. */
  lemma {:induction false} ResponseIsRight(
      kind: Kind, p: Params, Q: real, sinW0: real, f: Biquad, h: Transfer, x: Complex, s: Complex) returns (w: Complex)
    requires Designed(p, Q, sinW0) && f == ComputeCoeffs(kind, p) && h == H(kind, p.A, p.r, Q)
    requires Bilinear(x, s, p.cosW0, sinW0) && x != Complex(-1.0, 0.0)
    ensures Responds(f, h, x, s, w)
  {
    var b, a := Parts(kind, p, Q, sinW0, f, h);
    w := FilterResponds(kind == PeakingEQ, f, h, p.cosW0, sinW0, b, a, x, s);
  }

  // ---- a shelf at its centre ----

  /** The centre frequency, z = cos(w0) + i sin(w0), is where s = i. */
  lemma {:induction false} CentreIsI(c: real, sn: real)
    requires c * c + sn * sn == 1.0
    ensures Bilinear(Complex(c, -sn), Complex(0.0, 1.0), c, sn)
  {
    Circle(c, sn);
  }

  lemma {:induction false} ScaledI(k: real)
    ensures Complex(0.0, 1.0).Scaled(k) == Complex(0.0, k) && Complex(-1.0, 0.0).Scaled(k) == Complex(-k, 0.0)
  {
  }

  lemma {:induction false} SquareOfI(i: Complex)
    requires i == Complex(0.0, 1.0)
    ensures i.Times(i) == Complex(-1.0, 0.0)
  {
  }

  lemma {:induction false} Added(a: Complex, b: Complex, n2: real, n1: real, n0: real)
    requires a == Complex(-n2, 0.0) && b == Complex(0.0, n1)
    ensures a.Plus(b).Plus(Complex(n0, 0.0)) == Complex(n0 - n2, n1)
  {
  }

  lemma {:induction false} AtI(h: Analogue, i: Complex)
    requires i == Complex(0.0, 1.0)
    ensures h.At(i) == Complex(h.n0 - h.n2, h.n1)
  {
    SquareOfI(i);
    ScaledI(h.n2);
    ScaledI(h.n1);
    Added(i.Times(i).Scaled(h.n2), i.Scaled(h.n1), h.n2, h.n1, h.n0);
  }

  lemma {:induction false} Scaling(A: real, e: real, q: real, A2: real, square: real)
    requires A2 == A * A && square == e * e + q * q
    ensures Complex(A * e, A * q).Norm() == A2 * square
  {
    SquareOfProduct(A, e);
    SquareOfProduct(A, q);
    assert A2 * square == A2 * (e * e) + A2 * (q * q);
  }

  lemma {:induction false} OppositeNorm(e: real, q: real)
    ensures Complex(-e, q).Norm() == Complex(e, q).Norm()
  {
    assert (-e) * (-e) == e * e;
  }

  lemma {:induction false} ShelfAtI(
      kind: Kind, h: Transfer, A: real, q: real, A2: real, i: Complex, above: real, below: real)
    requires kind == LowShelf ==> h == Transfer(Analogue(A, A * q, A * A), Analogue(A, q, 1.0))
    requires kind == HighShelf ==> h == Transfer(Analogue(A * A, A * q, A), Analogue(1.0, q, A))
    requires kind != PeakingEQ && A2 == A * A && q > 0.0 && i == Complex(0.0, 1.0)
    requires above == h.above.At(i).Norm() && below == h.below.At(i).Norm()
    ensures above == A2 * below && below > 0.0
  {
    var e := A - 1.0;
    var up := A * e;
    AtI(h.above, i);
    AtI(h.below, i);
    assert up == A * A - A;
    OppositeNorm(e, q);
    OppositeNorm(up, A * q);
    Scaling(A, e, q, A2, Complex(e, q).Norm());
    NormIsPositive(Complex(e, q), Complex(e, q).Norm());
  }

  lemma {:induction false} PowerRatio(n: real, A2: real, above: real, below: real)
    requires above == A2 * below && n > 0.0 && below > 0.0
    ensures n * above == A2 * (n * below) && n * below > 0.0
  {
    assert n * (A2 * below) == A2 * (n * below);
    Product(n, below, n * below);
  }

  lemma {:induction false} ResponsePower(f: Biquad, h: Transfer, x: Complex, s: Complex, w: Complex, A2: real)
    requires Responds(f, h, x, s, w)
    requires h.above.At(s).Norm() == A2 * h.below.At(s).Norm() && h.below.At(s).Norm() > 0.0
    ensures Value(f.b, x).Norm() == A2 * Value(f.a, x).Norm() && Value(f.a, x).Norm() > 0.0
  {
    var a, b, n := h.above.At(s), h.below.At(s), w.Norm();
    NormIsPositive(w, n);
    NormTimes(w, a, n, a.Norm());
    NormTimes(w, b, n, b.Norm());
    PowerRatio(n, A2, a.Norm(), b.Norm());
  }

  lemma {:induction false} ShelfPower(kind: Kind, h: Transfer, A: real, r: real, Q: real, A2: real, i: Complex)
    requires A > 0.0 && r > 0.0 && Q > 0.0 && A2 == A * A && kind != PeakingEQ && h == H(kind, A, r, Q)
    requires i == Complex(0.0, 1.0)
    ensures h.above.At(i).Norm() == A2 * h.below.At(i).Norm() && h.below.At(i).Norm() > 0.0
  {
    var q := r / Q;
    Reciprocal(Q, r);
    Product(r, 1.0 / Q, q);
    ShelfTransfer(kind, A, r, Q, q);
    ShelfAtI(kind, h, A, q, A2, i, h.above.At(i).Norm(), h.below.At(i).Norm());
  }

  /** At its centre frequency a shelf multiplies the power by exactly A^2, half its gain in decibels. */
  lemma {:induction false} ShelfGainIsRight(
      kind: Kind, p: Params, Q: real, sinW0: real, f: Biquad, x: Complex, A2: real)
    requires Designed(p, Q, sinW0) && kind != PeakingEQ && f == ComputeCoeffs(kind, p)
    requires x == Complex(p.cosW0, -sinW0) && A2 == p.A * p.A
    ensures Value(f.b, x).Norm() == A2 * Value(f.a, x).Norm() && Value(f.a, x).Norm() > 0.0
  {
    var i, h := Complex(0.0, 1.0), H(kind, p.A, p.r, Q);
    CentreIsI(p.cosW0, sinW0);
    var w := ResponseIsRight(kind, p, Q, sinW0, f, h, x, i);
    ShelfPower(kind, h, p.A, p.r, Q, A2, i);
    ResponsePower(f, h, x, i, w, A2);
  }
}
