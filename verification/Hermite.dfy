/** One segment of a trajectory for one joint, in the unit u = (t - a.t) / span: the three
  * interpolations of sample_target. q0, v0, a0 and q1, v1, a1 are the waypoints' values,
  * with v and a already scaled to the unit segment.
  */
module Hermite {
  import opened Polynomial

  // ---- the code's formulas ----------------------------------------------------------------

  function LinearQ(q0: real, q1: real, u: real): real { q0 + u * (q1 - q0) }

  function CubicQ(q0: real, v0: real, q1: real, v1: real, u: real): real {
    var u2 := u * u;
    var u3 := u2 * u;
    (2.0 * u3 - 3.0 * u2 + 1.0) * q0 + (u3 - 2.0 * u2 + u) * v0 + (-2.0 * u3 + 3.0 * u2) * q1 + (u3 - u2) * v1
  }

  /** qd, before its rescaling by 1 / span. */
  function CubicRate(q0: real, v0: real, q1: real, v1: real, u: real): real {
    var u2 := u * u;
    (6.0 * u2 - 6.0 * u) * q0 + (3.0 * u2 - 4.0 * u + 1.0) * v0 + (-6.0 * u2 + 6.0 * u) * q1 + (3.0 * u2 - 2.0 * u) * v1
  }

  /** The quintic's coefficients. */
  function QuinticCurve(q0: real, v0: real, a0: real, q1: real, v1: real, a1: real): Poly {
    Poly(q0, v0, 0.5 * a0,
         10.0 * (q1 - q0) - 6.0 * v0 - 4.0 * v1 - 1.5 * a0 + 0.5 * a1,
         -15.0 * (q1 - q0) + 8.0 * v0 + 7.0 * v1 + 1.5 * a0 - 1.0 * a1,
         6.0 * (q1 - q0) - 3.0 * v0 - 3.0 * v1 - 0.5 * a0 + 0.5 * a1)
  }

  /** The sums that evaluate them. */
  function SumQ(p: Poly, u: real): real {
    p.c0 + p.c1 * u + p.c2 * (u * u) + p.c3 * (u * u * u) + p.c4 * (u * u * u * u) + p.c5 * (u * u * u * u * u)
  }

  function SumRate(p: Poly, u: real): real {
    p.c1 + 2.0 * p.c2 * u + 3.0 * p.c3 * (u * u) + 4.0 * p.c4 * (u * u * u) + 5.0 * p.c5 * (u * u * u * u)
  }

  /** qdd, before its rescaling by 1 / span^2. */
  function SumAccel(p: Poly, u: real): real {
    2.0 * p.c2 + 6.0 * p.c3 * u + 12.0 * p.c4 * (u * u) + 20.0 * p.c5 * (u * u * u)
  }

  lemma SumQIsEval(p: Poly, u: real)
    ensures SumQ(p, u) == Eval(p, u)
  {
  }

  lemma SumRateIsSlope(p: Poly, u: real)
    ensures SumRate(p, u) == Slope(p, u)
  {
  }

  lemma SumAccelIsBend(p: Poly, u: real)
    ensures SumAccel(p, u) == Bend(p, u)
  {
  }

  // ---- the cubic's curve --------------------------------------------------------------------

  function CubicCurve(q0: real, v0: real, q1: real, v1: real): Poly {
    Poly(q0, v0, 3.0 * (q1 - q0) - 2.0 * v0 - v1, -2.0 * (q1 - q0) + v0 + v1, 0.0, 0.0)
  }

  lemma CubicQRing(q0: real, v0: real, q1: real, v1: real, u: real)
    ensures CubicQ(q0, v0, q1, v1, u)
            == q0 + u * (v0 + u * ((3.0 * (q1 - q0) - 2.0 * v0 - v1) + u * (-2.0 * (q1 - q0) + v0 + v1)))
  {
  }

  lemma CubicRateRing(q0: real, v0: real, q1: real, v1: real, u: real)
    ensures CubicRate(q0, v0, q1, v1, u)
            == v0 + u * (2.0 * (3.0 * (q1 - q0) - 2.0 * v0 - v1) + u * (3.0 * (-2.0 * (q1 - q0) + v0 + v1)))
  {
  }

  lemma CubicEval(c0: real, c1: real, c2: real, c3: real, u: real)
    ensures Eval(Poly(c0, c1, c2, c3, 0.0, 0.0), u) == c0 + u * (c1 + u * (c2 + u * c3))
  {
  }

  lemma CubicSlope(c0: real, c1: real, c2: real, c3: real, u: real)
    ensures Slope(Poly(c0, c1, c2, c3, 0.0, 0.0), u) == c1 + u * (2.0 * c2 + u * (3.0 * c3))
  {
  }

  lemma CubicQOnCurve(q0: real, v0: real, q1: real, v1: real, u: real)
    ensures CubicQ(q0, v0, q1, v1, u) == Eval(CubicCurve(q0, v0, q1, v1), u)
  {
    CubicQRing(q0, v0, q1, v1, u);
    CubicEval(q0, v0, 3.0 * (q1 - q0) - 2.0 * v0 - v1, -2.0 * (q1 - q0) + v0 + v1, u);
  }

  lemma CubicRateIsSlope(q0: real, v0: real, q1: real, v1: real, u: real)
    ensures CubicRate(q0, v0, q1, v1, u) == Slope(CubicCurve(q0, v0, q1, v1), u)
  {
    CubicRateRing(q0, v0, q1, v1, u);
    CubicSlope(q0, v0, 3.0 * (q1 - q0) - 2.0 * v0 - v1, -2.0 * (q1 - q0) + v0 + v1, u);
  }

  // ---- the ends, and that they are enough ------------------------------------------------------

  lemma CubicEnds(q0: real, v0: real, q1: real, v1: real)
    ensures CubicQ(q0, v0, q1, v1, 0.0) == q0 && CubicQ(q0, v0, q1, v1, 1.0) == q1
    ensures CubicRate(q0, v0, q1, v1, 0.0) == v0 && CubicRate(q0, v0, q1, v1, 1.0) == v1
  {
  }

  lemma QuinticEnds(q0: real, v0: real, a0: real, q1: real, v1: real, a1: real)
    ensures var p := QuinticCurve(q0, v0, a0, q1, v1, a1);
            && Eval(p, 0.0) == q0 && Slope(p, 0.0) == v0 && Bend(p, 0.0) == a0
            && Eval(p, 1.0) == q1 && Slope(p, 1.0) == v1 && Bend(p, 1.0) == a1
  {
  }

  /** A polynomial is the quintic of its own ends. */
  lemma QuinticUnique(p: Poly)
    ensures QuinticCurve(Eval(p, 0.0), Slope(p, 0.0), Bend(p, 0.0), Eval(p, 1.0), Slope(p, 1.0), Bend(p, 1.0)) == p
  {
  }

  /** And of degree three the cubic of its own. */
  lemma CubicUnique(p: Poly)
    requires p.c4 == 0.0 && p.c5 == 0.0
    ensures CubicCurve(Eval(p, 0.0), Slope(p, 0.0), Eval(p, 1.0), Slope(p, 1.0)) == p
  {
  }

  // ---- in time ------------------------------------------------------------------------------

  /** The reference for one joint. */
  datatype Ref = Ref(q: real, qd: real, qdd: real)

  function Square(s: real): (r: real)
    ensures s > 0.0 ==> r > 0.0
  {
    var r := s * s;
    ProductPositive(s, s, r);
    r
  }

  lemma ProductPositive(x: real, y: real, r: real)
    requires r == x * y
    ensures x > 0.0 && y > 0.0 ==> r > 0.0
  {
  }

  function CubicRef(q0: real, v0: real, q1: real, v1: real, s: real, u: real): Ref
    requires s > 0.0
  {
    Ref(CubicQ(q0, v0, q1, v1, u), CubicRate(q0, v0, q1, v1, u) / s, 0.0)
  }

  function QuinticRef(c: Poly, s: real, u: real): Ref
    requires s > 0.0
  {
    Ref(SumQ(c, u), SumRate(c, u) / s, SumAccel(c, u) / Square(s))
  }

  /** The curves through waypoints, whose derivatives are scaled to the unit segment. */
  function CubicThrough(q0: real, qd0: real, q1: real, qd1: real, s: real): Poly {
    CubicCurve(q0, qd0 * s, q1, qd1 * s)
  }

  function QuinticThrough(q0: real, qd0: real, qdd0: real, q1: real, qd1: real, qdd1: real, s: real): Poly {
    QuinticCurve(q0, qd0 * s, qdd0 * s * s, q1, qd1 * s, qdd1 * s * s)
  }

  /** The references on them. */
  function CubicOf(q0: real, qd0: real, q1: real, qd1: real, s: real, u: real): Ref
    requires s > 0.0
  {
    CubicRef(q0, qd0 * s, q1, qd1 * s, s, u)
  }

  function QuinticOf(q0: real, qd0: real, qdd0: real, q1: real, qd1: real, qdd1: real, s: real, u: real): Ref
    requires s > 0.0
  {
    QuinticRef(QuinticThrough(q0, qd0, qdd0, q1, qd1, qdd1, s), s, u)
  }

  /** The curve's value, slope and bend, rescaled to time. */
  function InTime(c: Poly, s: real, u: real): Ref
    requires s > 0.0
  {
    Ref(Eval(c, u), Slope(c, u) / s, Bend(c, u) / Square(s))
  }

  lemma QuinticRefOnCurve(c: Poly, s: real, u: real)
    requires s > 0.0
    ensures QuinticRef(c, s, u) == InTime(c, s, u)
  {
    SumQIsEval(c, u);
    SumRateIsSlope(c, u);
    SumAccelIsBend(c, u);
  }

  lemma CubicRefOnCurve(q0: real, v0: real, q1: real, v1: real, s: real, u: real)
    requires s > 0.0
    ensures var r, c := InTime(CubicCurve(q0, v0, q1, v1), s, u), CubicRef(q0, v0, q1, v1, s, u);
            c.q == r.q && c.qd == r.qd
  {
    CubicQOnCurve(q0, v0, q1, v1, u);
    CubicRateIsSlope(q0, v0, q1, v1, u);
  }

  lemma CubicOfOnCurve(q0: real, qd0: real, q1: real, qd1: real, s: real, u: real)
    requires s > 0.0
    ensures var r, c := InTime(CubicThrough(q0, qd0, q1, qd1, s), s, u), CubicOf(q0, qd0, q1, qd1, s, u);
            c.q == r.q && c.qd == r.qd
  {
    CubicRefOnCurve(q0, qd0 * s, q1, qd1 * s, s, u);
  }

  lemma Ratio(v: real, x: real, s: real)
    requires s > 0.0 && v == x * s
    ensures v / s == x
  {
  }

  lemma RatioSquare(v: real, x: real, s: real)
    requires s > 0.0 && v == x * s * s
    ensures v / Square(s) == x
  {
    Regroup(x, s);
    Ratio(v, x, Square(s));
  }

  lemma Regroup(x: real, s: real)
    ensures x * s * s == x * Square(s)
  {
  }

  /** What a curve's values scaled by s and s^2 are in time. */
  lemma InTimeIs(c: Poly, s: real, u: real, q: real, qd: real, qdd: real)
    requires s > 0.0 && Eval(c, u) == q && Slope(c, u) == qd * s && Bend(c, u) == qdd * s * s
    ensures InTime(c, s, u) == Ref(q, qd, qdd)
  {
    Ratio(Slope(c, u), qd, s);
    RatioSquare(Bend(c, u), qdd, s);
  }

  // ---- polynomials are reproduced --------------------------------------------------------------

  /** The quintic through p's waypoints at t and b = t + s is p in the segment's unit. */
  lemma QuinticIsPolynomial(p: Poly, t: real, b: real, s: real)
    requires b == t + s
    ensures QuinticCurve(Eval(p, t), Slope(p, t) * s, Bend(p, t) * s * s, Eval(p, b), Slope(p, b) * s,
            Bend(p, b) * s * s)
            == InUnit(p, t, s)
  {
    EvalAt(p, t, s, 0.0, t);
    SlopeAt(p, t, s, 0.0, t);
    BendAt(p, t, s, 0.0, t);
    EvalAt(p, t, s, 1.0, b);
    SlopeAt(p, t, s, 1.0, b);
    BendAt(p, t, s, 1.0, b);
    QuinticEndsAre(InUnit(p, t, s), Eval(p, t), Slope(p, t) * s, Bend(p, t) * s * s, Eval(p, b), Slope(p, b) * s,
        Bend(p, b) * s * s);
  }

  lemma QuinticEndsAre(r: Poly, q0: real, v0: real, a0: real, q1: real, v1: real, a1: real)
    requires Eval(r, 0.0) == q0 && Slope(r, 0.0) == v0 && Bend(r, 0.0) == a0
    requires Eval(r, 1.0) == q1 && Slope(r, 1.0) == v1 && Bend(r, 1.0) == a1
    ensures QuinticCurve(q0, v0, a0, q1, v1, a1) == r
  {
    QuinticUnique(r);
  }

  lemma CubicIsPolynomial(p: Poly, t: real, b: real, s: real)
    requires b == t + s && p.c4 == 0.0 && p.c5 == 0.0
    ensures CubicCurve(Eval(p, t), Slope(p, t) * s, Eval(p, b), Slope(p, b) * s) == InUnit(p, t, s)
  {
    EvalAt(p, t, s, 0.0, t);
    SlopeAt(p, t, s, 0.0, t);
    EvalAt(p, t, s, 1.0, b);
    SlopeAt(p, t, s, 1.0, b);
    InUnitDegree(p, t, s);
    CubicEndsAre(InUnit(p, t, s), Eval(p, t), Slope(p, t) * s, Eval(p, b), Slope(p, b) * s);
  }

  lemma CubicEndsAre(r: Poly, q0: real, v0: real, q1: real, v1: real)
    requires r.c4 == 0.0 && r.c5 == 0.0
    requires Eval(r, 0.0) == q0 && Slope(r, 0.0) == v0 && Eval(r, 1.0) == q1 && Slope(r, 1.0) == v1
    ensures CubicCurve(q0, v0, q1, v1) == r
  {
    CubicUnique(r);
  }

  lemma InUnitDegree(p: Poly, t: real, s: real)
    requires p.c4 == 0.0 && p.c5 == 0.0
    ensures InUnit(p, t, s).c4 == 0.0 && InUnit(p, t, s).c5 == 0.0
  {
  }

  lemma SlopeInTime(p: Poly, t: real, s: real, u: real, x: real)
    requires s > 0.0 && x == t + s * u
    ensures Slope(InUnit(p, t, s), u) / s == Slope(p, x)
  {
    SlopeAt(p, t, s, u, x);
    Ratio(Slope(InUnit(p, t, s), u), Slope(p, x), s);
  }

  lemma BendInTime(p: Poly, t: real, s: real, u: real, x: real)
    requires s > 0.0 && x == t + s * u
    ensures Bend(InUnit(p, t, s), u) / Square(s) == Bend(p, x)
  {
    BendAt(p, t, s, u, x);
    RatioSquare(Bend(InUnit(p, t, s), u), Bend(p, x), s);
  }

  /** p in the segment's unit, seen in time, is p with its own derivatives. */
  lemma InUnitInTime(p: Poly, t: real, s: real, u: real, x: real)
    requires s > 0.0 && x == t + s * u
    ensures InTime(InUnit(p, t, s), s, u) == Ref(Eval(p, x), Slope(p, x), Bend(p, x))
  {
    EvalAt(p, t, s, u, x);
    SlopeInTime(p, t, s, u, x);
    BendInTime(p, t, s, u, x);
  }

  /** A segment through p's waypoints is p, with its derivatives: the quintic. */
  lemma QuinticReproduces(p: Poly, a: real, b: real, x: real, s: real, u: real)
    requires s > 0.0 && b == a + s && x == a + s * u
    ensures QuinticOf(Eval(p, a), Slope(p, a), Bend(p, a), Eval(p, b), Slope(p, b), Bend(p, b), s, u)
            == Ref(Eval(p, x), Slope(p, x), Bend(p, x))
  {
    QuinticIsPolynomial(p, a, b, s);
    QuinticRefOnCurve(InUnit(p, a, s), s, u);
    InUnitInTime(p, a, s, u, x);
  }

  /** The cubic, for degree three. */
  lemma CubicReproduces(p: Poly, a: real, b: real, x: real, s: real, u: real)
    requires s > 0.0 && p.c4 == 0.0 && p.c5 == 0.0 && b == a + s && x == a + s * u
    ensures var r := CubicOf(Eval(p, a), Slope(p, a), Eval(p, b), Slope(p, b), s, u);
            r.q == Eval(p, x) && r.qd == Slope(p, x)
  {
    CubicIsPolynomial(p, a, b, s);
    CubicRefOnCurve(Eval(p, a), Slope(p, a) * s, Eval(p, b), Slope(p, b) * s, s, u);
    InUnitInTime(p, a, s, u, x);
  }

  /** And the straight line. */
  lemma LinearReproduces(p: Poly, a: real, b: real, x: real, s: real, u: real)
    requires p.c2 == 0.0 && p.c3 == 0.0 && p.c4 == 0.0 && p.c5 == 0.0 && b == a + s && x == a + s * u
    ensures LinearQ(Eval(p, a), Eval(p, b), u) == Eval(p, x)
  {
  }

  // ---- the rates are the time derivatives -------------------------------------------------------

  /** h later in time is h / s later in the unit. */
  lemma UnitStep(a: real, s: real, t: real, h: real)
    requires s > 0.0
    ensures (t + h - a) / s == (t - a) / s + h / s && h / s * s == h
  {
  }

  /** x moved along the tangent v for h, and h^2 times a remainder. */
  function Along(x: real, v: real, h: real, rest: real): real { x + h * v + h * h * rest }

  /** A position that follows c in the unit u = (t - a) / s has exactly Slope / s as its time
    * derivative: h later, which is k = h / s in u, past the tangent there is only h^2 times a
    * polynomial. */
  lemma RateIsDerivative(c: Poly, s: real, u: real, h: real, k: real)
    requires s > 0.0 && k * s == h
    ensures Eval(c, u + k) == Along(Eval(c, u), Slope(c, u) / s, h, Past(c, u, k) / Square(s))
  {
    EvalTangent(c, u, k);
    TimeRatio(h, s, k, Eval(c, u + k), Eval(c, u), Slope(c, u), Past(c, u, k));
  }

  /** And Slope / s has Bend / s^2. */
  lemma AccelerationIsDerivative(c: Poly, s: real, u: real, h: real, k: real)
    requires s > 0.0 && k * s == h
    ensures Slope(c, u + k) / s == Along(Slope(c, u) / s, Bend(c, u) / Square(s), h, SlopePast(c, u, k) / s / Square(s))
  {
    SlopeTangent(c, u, k);
    RateStep(h, s, k, Slope(c, u + k), Slope(c, u), Bend(c, u), SlopePast(c, u, k));
  }

  lemma TimeRatio(h: real, s: real, k: real, f: real, e: real, d: real, r: real)
    requires s > 0.0 && k * s == h && f == e + k * d + k * k * r
    ensures f == Along(e, d / s, h, r / Square(s))
  {
    var x, y := d / s, r / Square(s);
    assert x * s == d && y * Square(s) == r;
    Regroup(y, s);
    TimeScaled(h, s, k, f, e, d, r, x, y);
  }

  lemma TimeScaled(h: real, s: real, k: real, f: real, e: real, d: real, r: real, x: real, y: real)
    requires k * s == h && d == x * s && r == y * s * s && f == e + k * d + k * k * r
    ensures f == e + h * x + h * h * y
  {
  }

  lemma RateStep(h: real, s: real, k: real, f: real, e: real, d: real, r: real)
    requires s > 0.0 && k * s == h && f == e + k * d + k * k * r
    ensures f / s == Along(e / s, d / Square(s), h, r / s / Square(s))
  {
    var z, w := r / s, e / s;
    var x, y := d / Square(s), z / Square(s);
    assert z * s == r && w * s == e;
    assert x * Square(s) == d && y * Square(s) == z;
    Regroup(x, s);
    Regroup(y, s);
    RateScaled(h, s, k, f, e, d, r, x, y, z, w);
    Ratio(f, w + h * x + h * h * y, s);
  }

  lemma RateScaled(h: real, s: real, k: real, f: real, e: real, d: real, r: real, x: real, y: real, z: real, w: real)
    requires k * s == h && d == x * s * s && r == z * s && z == y * s * s && e == w * s && f == e + k * d + k * k * r
    ensures f == (w + h * x + h * h * y) * s
  {
  }
}
