/** Polynomials of degree at most five, with their first two derivatives. */
module Polynomial {

  datatype Poly = Poly(c0: real, c1: real, c2: real, c3: real, c4: real, c5: real)

  function Eval(p: Poly, x: real): real {
    p.c0 + x * (p.c1 + x * (p.c2 + x * (p.c3 + x * (p.c4 + x * p.c5))))
  }

  function Slope(p: Poly, x: real): real {
    p.c1 + x * (2.0 * p.c2 + x * (3.0 * p.c3 + x * (4.0 * p.c4 + x * (5.0 * p.c5))))
  }

  function Bend(p: Poly, x: real): real {
    2.0 * p.c2 + x * (6.0 * p.c3 + x * (12.0 * p.c4 + x * (20.0 * p.c5)))
  }

  // ---- they are the derivatives -----------------------------------------------------------

  /** What is left of p(x + h) past its tangent at x, over h^2: itself a polynomial in x and h. */
  function Past(p: Poly, x: real, h: real): real {
    p.c2 + p.c3 * (3.0 * x + h) + p.c4 * (6.0 * x * x + 4.0 * x * h + h * h)
    + p.c5 * (10.0 * x * x * x + 10.0 * x * x * h + 5.0 * x * h * h + h * h * h)
  }

  /** And of its slope. */
  function SlopePast(p: Poly, x: real, h: real): real {
    3.0 * p.c3 + 4.0 * p.c4 * (3.0 * x + h) + 5.0 * p.c5 * (6.0 * x * x + 4.0 * x * h + h * h)
  }

  lemma EvalTangent(p: Poly, x: real, h: real)
    ensures Eval(p, x + h) == Eval(p, x) + h * Slope(p, x) + h * h * Past(p, x, h)
  {
  }

  lemma SlopeTangent(p: Poly, x: real, h: real)
    ensures Slope(p, x + h) == Slope(p, x) + h * Bend(p, x) + h * h * SlopePast(p, x, h)
  {
  }

  // ---- written out --------------------------------------------------------------------------

  lemma SlopeIs(p: Poly, x: real)
    ensures Slope(p, x) == p.c1 + x * (2.0 * p.c2 + x * (3.0 * p.c3 + x * (4.0 * p.c4 + x * (5.0 * p.c5))))
  {
  }

  lemma BendIs(p: Poly, x: real)
    ensures Bend(p, x) == 2.0 * p.c2 + x * (6.0 * p.c3 + x * (12.0 * p.c4 + x * (20.0 * p.c5)))
  {
  }

  lemma PastOf(c0: real, c1: real, c2: real, c3: real, c4: real, c5: real, h: real)
    ensures Past(Poly(c0, c1, c2, c3, c4, c5), 0.0, h) == c2 + h * (c3 + h * (c4 + h * c5))
  {
  }

  lemma SlopeOf(c0: real, c1: real, c2: real, c3: real, c4: real, c5: real, x: real)
    ensures Slope(Poly(c0, c1, c2, c3, c4, c5), x) ==
            c1 + x * (2.0 * c2 + x * (3.0 * c3 + x * (4.0 * c4 + x * (5.0 * c5))))
  {
  }

  lemma BendOf(c0: real, c1: real, c2: real, c3: real, c4: real, c5: real, x: real)
    ensures Bend(Poly(c0, c1, c2, c3, c4, c5), x) == 2.0 * c2 + x * (6.0 * c3 + x * (12.0 * c4 + x * (20.0 * c5)))
  {
  }

  // ---- in the unit of a segment ---------------------------------------------------------------

  /** p after u |-> t + s u. */
  function InUnit(p: Poly, t: real, s: real): Poly {
    Stretched(Eval(p, t), p.c1, p.c2, p.c3, p.c4, p.c5, t, s)
  }

  function Stretched(e: real, c1: real, c2: real, c3: real, c4: real, c5: real, t: real, s: real): Poly {
    Poly(e,
         s * (c1 + t * (2.0 * c2 + t * (3.0 * c3 + t * (4.0 * c4 + t * (5.0 * c5))))),
         s * s * (c2 + t * (3.0 * c3 + t * (6.0 * c4 + t * (10.0 * c5)))),
         s * s * s * (c3 + t * (4.0 * c4 + t * (10.0 * c5))),
         s * s * s * s * (c4 + 5.0 * t * c5),
         s * s * s * s * s * c5)
  }

  // The Stretched lemmas are identities on plain numbers; the rest only instantiates them.

  lemma StretchedSlope(c1: real, c2: real, c3: real, c4: real, c5: real, t: real, s: real, u: real)
    ensures var k1 := s * (c1 + t * (2.0 * c2 + t * (3.0 * c3 + t * (4.0 * c4 + t * (5.0 * c5)))));
            var k2 := s * s * (c2 + t * (3.0 * c3 + t * (6.0 * c4 + t * (10.0 * c5))));
            var k3 := s * s * s * (c3 + t * (4.0 * c4 + t * (10.0 * c5)));
            var k4 := s * s * s * s * (c4 + 5.0 * t * c5);
            var k5 := s * s * s * s * s * c5;
            k1 + u * (2.0 * k2 + u * (3.0 * k3 + u * (4.0 * k4 + u * (5.0 * k5))))
            == s * (c1 + (t + s * u) * (2.0 * c2 + (t + s * u) * (3.0 * c3
               + (t + s * u) * (4.0 * c4 + (t + s * u) * (5.0 * c5)))))
  {
  }

  lemma StretchedBend(c2: real, c3: real, c4: real, c5: real, t: real, s: real, u: real)
    ensures var k2 := s * s * (c2 + t * (3.0 * c3 + t * (6.0 * c4 + t * (10.0 * c5))));
            var k3 := s * s * s * (c3 + t * (4.0 * c4 + t * (10.0 * c5)));
            var k4 := s * s * s * s * (c4 + 5.0 * t * c5);
            var k5 := s * s * s * s * s * c5;
            2.0 * k2 + u * (6.0 * k3 + u * (12.0 * k4 + u * (20.0 * k5)))
            == s * s * (2.0 * c2 + (t + s * u) * (6.0 * c3 + (t + s * u) * (12.0 * c4 + (t + s * u) * (20.0 * c5))))
  {
  }

  lemma StretchedPast(c2: real, c3: real, c4: real, c5: real, t: real, s: real, u: real)
    ensures var k2 := s * s * (c2 + t * (3.0 * c3 + t * (6.0 * c4 + t * (10.0 * c5))));
            var k3 := s * s * s * (c3 + t * (4.0 * c4 + t * (10.0 * c5)));
            var k4 := s * s * s * s * (c4 + 5.0 * t * c5);
            var k5 := s * s * s * s * s * c5;
            k2 + u * (k3 + u * (k4 + u * k5))
            == s * s * (c2 + c3 * (3.0 * t + (s * u)) + c4 * (6.0 * t * t + 4.0 * t * (s * u) + (s * u) * (s * u))
               + c5 * (10.0 * t * t * t + 10.0 * t * t * (s * u) + 5.0 * t * (s * u) * (s * u)
                       + (s * u) * (s * u) * (s * u)))
  {
  }

  lemma PastStretched(e: real, c1: real, c2: real, c3: real, c4: real, c5: real, t: real, s: real, u: real)
    ensures Past(Stretched(e, c1, c2, c3, c4, c5, t, s), 0.0, u)
            == s * s * (c2 + c3 * (3.0 * t + (s * u)) + c4 * (6.0 * t * t + 4.0 * t * (s * u) + (s * u) * (s * u))
               + c5 * (10.0 * t * t * t + 10.0 * t * t * (s * u) + 5.0 * t * (s * u) * (s * u)
                       + (s * u) * (s * u) * (s * u)))
  {
    StretchedPast(c2, c3, c4, c5, t, s, u);
    PastOf(e,
           s * (c1 + t * (2.0 * c2 + t * (3.0 * c3 + t * (4.0 * c4 + t * (5.0 * c5))))),
           s * s * (c2 + t * (3.0 * c3 + t * (6.0 * c4 + t * (10.0 * c5)))),
           s * s * s * (c3 + t * (4.0 * c4 + t * (10.0 * c5))),
           s * s * s * s * (c4 + 5.0 * t * c5), s * s * s * s * s * c5, u);
  }

  lemma SlopeStretched(e: real, c1: real, c2: real, c3: real, c4: real, c5: real, t: real, s: real, u: real)
    ensures Slope(Stretched(e, c1, c2, c3, c4, c5, t, s), u)
            == s * (c1 + (t + s * u) * (2.0 * c2 + (t + s * u) * (3.0 * c3
               + (t + s * u) * (4.0 * c4 + (t + s * u) * (5.0 * c5)))))
  {
    StretchedSlope(c1, c2, c3, c4, c5, t, s, u);
    SlopeOf(e,
            s * (c1 + t * (2.0 * c2 + t * (3.0 * c3 + t * (4.0 * c4 + t * (5.0 * c5))))),
            s * s * (c2 + t * (3.0 * c3 + t * (6.0 * c4 + t * (10.0 * c5)))),
            s * s * s * (c3 + t * (4.0 * c4 + t * (10.0 * c5))),
            s * s * s * s * (c4 + 5.0 * t * c5), s * s * s * s * s * c5, u);
  }

  lemma BendStretched(e: real, c1: real, c2: real, c3: real, c4: real, c5: real, t: real, s: real, u: real)
    ensures Bend(Stretched(e, c1, c2, c3, c4, c5, t, s), u)
            == s * s * (2.0 * c2 + (t + s * u) * (6.0 * c3 + (t + s * u) * (12.0 * c4 + (t + s * u) * (20.0 * c5))))
  {
    StretchedBend(c2, c3, c4, c5, t, s, u);
    BendOf(e,
           s * (c1 + t * (2.0 * c2 + t * (3.0 * c3 + t * (4.0 * c4 + t * (5.0 * c5))))),
           s * s * (c2 + t * (3.0 * c3 + t * (6.0 * c4 + t * (10.0 * c5)))),
           s * s * s * (c3 + t * (4.0 * c4 + t * (10.0 * c5))),
           s * s * s * s * (c4 + 5.0 * t * c5), s * s * s * s * s * c5, u);
  }

  lemma Once(v: real, s: real, d: real, e: real)
    requires v == s * e && d == e
    ensures v == s * d
  {
  }

  lemma Twice(v: real, s: real, d: real, e: real)
    requires v == s * s * e && d == e
    ensures v == s * s * d
  {
  }

  /** The chain rule, twice. */
  lemma SlopeInUnit(p: Poly, t: real, s: real, u: real)
    ensures Slope(InUnit(p, t, s), u) == s * Slope(p, t + s * u)
  {
    SlopeStretched(Eval(p, t), p.c1, p.c2, p.c3, p.c4, p.c5, t, s, u);
    SlopeIs(p, t + s * u);
    Once(Slope(InUnit(p, t, s), u), s, Slope(p, t + s * u),
         p.c1 + (t + s * u) *
           (2.0 * p.c2 + (t + s * u) * (3.0 * p.c3 + (t + s * u) * (4.0 * p.c4 + (t + s * u) * (5.0 * p.c5)))));
  }

  lemma BendInUnit(p: Poly, t: real, s: real, u: real)
    ensures Bend(InUnit(p, t, s), u) == s * s * Bend(p, t + s * u)
  {
    BendStretched(Eval(p, t), p.c1, p.c2, p.c3, p.c4, p.c5, t, s, u);
    BendIs(p, t + s * u);
    Twice(Bend(InUnit(p, t, s), u), s, Bend(p, t + s * u),
          2.0 * p.c2 + (t + s * u) * (6.0 * p.c3 + (t + s * u) * (12.0 * p.c4 + (t + s * u) * (20.0 * p.c5))));
  }

  lemma PastIs(p: Poly, t: real, h: real)
    ensures Past(p, t, h) == p.c2 + p.c3 * (3.0 * t + h) + p.c4 * (6.0 * t * t + 4.0 * t * h + h * h)
                             + p.c5 * (10.0 * t * t * t + 10.0 * t * t * h + 5.0 * t * h * h + h * h * h)
  {
  }

  lemma PastInUnit(p: Poly, t: real, s: real, u: real)
    ensures Past(InUnit(p, t, s), 0.0, u) == s * s * Past(p, t, s * u)
  {
    PastStretched(Eval(p, t), p.c1, p.c2, p.c3, p.c4, p.c5, t, s, u);
    PastIs(p, t, s * u);
    Twice(Past(InUnit(p, t, s), 0.0, u), s, Past(p, t, s * u),
          p.c2 + p.c3 * (3.0 * t + (s * u)) + p.c4 * (6.0 * t * t + 4.0 * t * (s * u) + (s * u) * (s * u))
               + p.c5 * (10.0 * t * t * t + 10.0 * t * t * (s * u) + 5.0 * t * (s * u) * (s * u)
                       + (s * u) * (s * u) * (s * u)));
  }

  lemma Chained(v: real, e: real, d: real, r: real, s: real, u: real, d1: real, r1: real)
    requires v == e + u * d1 + u * u * r1 && d1 == s * d && r1 == s * s * r
    ensures v == e + s * u * d + s * u * (s * u) * r
  {
  }

  /** Substitution. */
  lemma EvalInUnit(p: Poly, t: real, s: real, u: real)
    ensures Eval(InUnit(p, t, s), u) == Eval(p, t + s * u)
  {
    var r := InUnit(p, t, s);
    assert Eval(r, 0.0) == Eval(p, t);
    EvalTangent(r, 0.0, u);
    EvalTangent(p, t, s * u);
    SlopeInUnit(p, t, s, 0.0);
    PastInUnit(p, t, s, u);
    Chained(Eval(r, u), Eval(p, t), Slope(p, t), Past(p, t, s * u), s, u, Slope(r, 0.0), Past(r, 0.0, u));
  }

  lemma OnceAt(v: real, s: real, d: real, e: real)
    requires v == s * e && d == e
    ensures v == d * s
  {
  }

  lemma TwiceAt(v: real, s: real, d: real, e: real)
    requires v == s * s * e && d == e
    ensures v == d * s * s
  {
  }

  /** The values of p at x, from the unit. */
  lemma SlopeAt(p: Poly, t: real, s: real, u: real, x: real)
    requires x == t + s * u
    ensures Slope(InUnit(p, t, s), u) == Slope(p, x) * s
  {
    SlopeInUnit(p, t, s, u);
    OnceAt(Slope(InUnit(p, t, s), u), s, Slope(p, x), Slope(p, t + s * u));
  }

  lemma BendAt(p: Poly, t: real, s: real, u: real, x: real)
    requires x == t + s * u
    ensures Bend(InUnit(p, t, s), u) == Bend(p, x) * s * s
  {
    BendInUnit(p, t, s, u);
    TwiceAt(Bend(InUnit(p, t, s), u), s, Bend(p, x), Bend(p, t + s * u));
  }

  lemma EvalAt(p: Poly, t: real, s: real, u: real, x: real)
    requires x == t + s * u
    ensures Eval(InUnit(p, t, s), u) == Eval(p, x)
  {
    EvalInUnit(p, t, s, u);
  }
}
