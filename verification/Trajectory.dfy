/** Trajectories and sample_target: pinned outside the span, and on each segment linear,
  * cubic or quintic, after what the plan carries.
  */
module Trajectory {
  import opened Basics
  import opened Polynomial
  import opened Hermite

  /** A double that may be NaN or infinite. */
  datatype Num = Finite(v: real) | NotFinite

  datatype Waypoint = Waypoint(q: Vec, at: Num, qd: Vec, qdd: Vec)

  datatype Trajectory = Trajectory(points: seq<Waypoint>, hasVelocities: bool, hasAccelerations: bool)

  const MIN_SEGMENT_SPAN: real := 0.00000001

  /** Every stamp is finite, and each at least MIN_SEGMENT_SPAN after the one before. */
  predicate ValidStamps(tr: Trajectory) {
    && (forall i :: 0 <= i < |tr.points| ==> tr.points[i].at.Finite?)
    && (forall i :: 0 < i < |tr.points| ==> tr.points[i].at.v - tr.points[i - 1].at.v >= MIN_SEGMENT_SPAN)
  }

  method ValidTimestamps(tr: Trajectory) returns (ok: bool)
    ensures ok == ValidStamps(tr)
  {
    for i := 0 to |tr.points|
      invariant forall k :: 0 <= k < i ==> tr.points[k].at.Finite?
      invariant forall k :: 0 < k < i ==> tr.points[k].at.v - tr.points[k - 1].at.v >= MIN_SEGMENT_SPAN
    {
      if !tr.points[i].at.Finite? { return false; }
      if i > 0 && !(tr.points[i].at.v - tr.points[i - 1].at.v >= MIN_SEGMENT_SPAN) { return false; }
    }
    return true;
  }

  /** What sample_target's segment search takes for granted. */
  predicate Sorted(tr: Trajectory) {
    && (forall i :: 0 <= i < |tr.points| ==> tr.points[i].at.Finite?)
    && (forall i, j :: 0 <= i <= j < |tr.points| ==> tr.points[i].at.v <= tr.points[j].at.v)
  }

  lemma {:induction false} StampsGrow(tr: Trajectory, i: nat, j: nat)
    requires ValidStamps(tr) && i < j < |tr.points|
    ensures tr.points[i].at.v < tr.points[j].at.v
  {
    if i < j - 1 { StampsGrow(tr, i, j - 1); }
  }

  lemma ValidIsSorted(tr: Trajectory)
    requires ValidStamps(tr)
    ensures Sorted(tr)
  {
    forall i, j | 0 <= i <= j < |tr.points| ensures tr.points[i].at.v <= tr.points[j].at.v {
      if i < j { StampsGrow(tr, i, j); }
    }
  }

  function At(tr: Trajectory, k: nat): real
    requires Sorted(tr) && k < |tr.points|
  {
    tr.points[k].at.v
  }

  function Duration(tr: Trajectory): real
    requires Sorted(tr)
  {
    if tr.points == [] then 0.0 else At(tr, |tr.points| - 1)
  }

  /** std::upper_bound: the first waypoint after t. */
  function After(tr: Trajectory, t: real, n: nat): (k: nat)
    requires Sorted(tr) && n <= |tr.points|
    ensures k <= n
    ensures forall j :: 0 <= j < k ==> At(tr, j) <= t
    ensures forall j :: k <= j < n ==> t < At(tr, j)
  {
    if n == 0 || At(tr, n - 1) <= t then n else After(tr, t, n - 1)
  }

  function Unit(tr: Trajectory, k: nat, t: real): real
    requires Sorted(tr) && 0 < k < |tr.points| && At(tr, k - 1) < At(tr, k)
  {
    (t - At(tr, k - 1)) / Span(tr, k)
  }

  function Span(tr: Trajectory, k: nat): real
    requires Sorted(tr) && 0 < k < |tr.points|
  {
    At(tr, k) - At(tr, k - 1)
  }

  /** The segment that ends at waypoint k, joint i, by the code's formulas. */
  function OnSegment(tr: Trajectory, k: nat, i: nat, t: real): Ref
    requires Sorted(tr) && 0 < k < |tr.points| && At(tr, k - 1) < At(tr, k) && i < JOINTS
  {
    var a, b, s, u := tr.points[k - 1], tr.points[k], Span(tr, k), Unit(tr, k, t);
    if !tr.hasVelocities then Ref(LinearQ(a.q[i], b.q[i], u), 0.0, 0.0)
    else if !tr.hasAccelerations then CubicOf(a.q[i], a.qd[i], b.q[i], b.qd[i], s, u)
    else QuinticOf(a.q[i], a.qd[i], a.qdd[i], b.q[i], b.qd[i], b.qdd[i], s, u)
  }

  /** sample_target, joint i. */
  function Sample(tr: Trajectory, i: nat, t: real): Ref
    requires Sorted(tr) && i < JOINTS
  {
    var n := |tr.points|;
    if n == 0 then Ref(0.0, 0.0, 0.0)
    else if t <= At(tr, 0) then Ref(tr.points[0].q[i], 0.0, 0.0)
    else if t >= At(tr, n - 1) then Ref(tr.points[n - 1].q[i], 0.0, 0.0)
    else OnSegment(tr, After(tr, t, n), i, t)
  }

  lemma UnitEnds(tr: Trajectory, k: nat)
    requires Sorted(tr) && 0 < k < |tr.points| && At(tr, k - 1) < At(tr, k)
    ensures Unit(tr, k, At(tr, k - 1)) == 0.0 && Unit(tr, k, At(tr, k)) == 1.0
  {
    Ratio(Span(tr, k), 1.0, Span(tr, k));
  }

  // ---- knots ---------------------------------------------------------------------------------------

  /** The reference is the waypoint's, in every derivative the plan carries. */
  predicate IsWaypoint(tr: Trajectory, k: nat, i: nat, r: Ref)
    requires k < |tr.points| && i < JOINTS
  {
    var w := tr.points[k];
    && r.q == w.q[i]
    && (tr.hasVelocities ==> r.qd == w.qd[i])
    && (tr.hasVelocities && tr.hasAccelerations ==> r.qdd == w.qdd[i])
  }

  lemma QuinticOfEnds(q0: real, qd0: real, qdd0: real, q1: real, qd1: real, qdd1: real, s: real)
    requires s > 0.0
    ensures QuinticOf(q0, qd0, qdd0, q1, qd1, qdd1, s, 0.0) == Ref(q0, qd0, qdd0)
    ensures QuinticOf(q0, qd0, qdd0, q1, qd1, qdd1, s, 1.0) == Ref(q1, qd1, qdd1)
  {
    var c := QuinticCurve(q0, qd0 * s, qdd0 * s * s, q1, qd1 * s, qdd1 * s * s);
    QuinticEnds(q0, qd0 * s, qdd0 * s * s, q1, qd1 * s, qdd1 * s * s);
    QuinticRefOnCurve(c, s, 0.0);
    QuinticRefOnCurve(c, s, 1.0);
    InTimeIs(c, s, 0.0, q0, qd0, qdd0);
    InTimeIs(c, s, 1.0, q1, qd1, qdd1);
  }

  lemma CubicOfEnds(q0: real, qd0: real, q1: real, qd1: real, s: real)
    requires s > 0.0
    ensures CubicOf(q0, qd0, q1, qd1, s, 0.0) == Ref(q0, qd0, 0.0)
    ensures CubicOf(q0, qd0, q1, qd1, s, 1.0) == Ref(q1, qd1, 0.0)
  {
    CubicEnds(q0, qd0 * s, q1, qd1 * s);
    Ratio(CubicRate(q0, qd0 * s, q1, qd1 * s, 0.0), qd0, s);
    Ratio(CubicRate(q0, qd0 * s, q1, qd1 * s, 1.0), qd1, s);
  }

  lemma SegmentEnds(tr: Trajectory, k: nat, i: nat)
    requires Sorted(tr) && 0 < k < |tr.points| && At(tr, k - 1) < At(tr, k) && i < JOINTS
    ensures IsWaypoint(tr, k - 1, i, OnSegment(tr, k, i, At(tr, k - 1)))
    ensures IsWaypoint(tr, k, i, OnSegment(tr, k, i, At(tr, k)))
  {
    var a, b, s := tr.points[k - 1], tr.points[k], Span(tr, k);
    UnitEnds(tr, k);
    if tr.hasVelocities && tr.hasAccelerations {
      QuinticOfEnds(a.q[i], a.qd[i], a.qdd[i], b.q[i], b.qd[i], b.qdd[i], s);
    } else if tr.hasVelocities {
      CubicOfEnds(a.q[i], a.qd[i], b.q[i], b.qd[i], s);
    }
  }

  /** At an interior knot the segments on either side, and the sample, are the waypoint. */
  lemma KnotsAgree(tr: Trajectory, k: nat, i: nat)
    requires ValidStamps(tr) && 0 < k < |tr.points| - 1 && i < JOINTS
    ensures Sorted(tr) && At(tr, k - 1) < At(tr, k) < At(tr, k + 1)
    ensures IsWaypoint(tr, k, i, OnSegment(tr, k, i, At(tr, k)))
    ensures IsWaypoint(tr, k, i, OnSegment(tr, k + 1, i, At(tr, k)))
    ensures IsWaypoint(tr, k, i, Sample(tr, i, At(tr, k)))
  {
    ValidIsSorted(tr);
    StampsGrow(tr, 0, k);
    StampsGrow(tr, k - 1, k);
    StampsGrow(tr, k, k + 1);
    StampsGrow(tr, k, |tr.points| - 1);
    SegmentEnds(tr, k, i);
    SegmentEnds(tr, k + 1, i);
    assert After(tr, At(tr, k), |tr.points|) == k + 1;
  }

  /** The segment search finds the one t is in, never an empty one. */
  lemma SampleIsOnSegment(tr: Trajectory, i: nat, t: real)
    requires Sorted(tr) && |tr.points| > 0 && i < JOINTS && At(tr, 0) < t < Duration(tr)
    ensures var k := After(tr, t, |tr.points|);
            0 < k < |tr.points| && At(tr, k - 1) <= t < At(tr, k) && Sample(tr, i, t) == OnSegment(tr, k, i, t)
  {
  }

  // ---- derivatives -----------------------------------------------------------------------------------

  /** The curve a segment's position follows, in its unit. */
  function PositionCurve(tr: Trajectory, k: nat, i: nat): Poly
    requires Sorted(tr) && 0 < k < |tr.points| && i < JOINTS && tr.hasVelocities
  {
    var a, b, s := tr.points[k - 1], tr.points[k], Span(tr, k);
    if tr.hasAccelerations
    then QuinticThrough(a.q[i], a.qd[i], a.qdd[i], b.q[i], b.qd[i], b.qdd[i], s)
    else CubicThrough(a.q[i], a.qd[i], b.q[i], b.qd[i], s)
  }

  /** The reported values are the curve's value, slope and bend, rescaled. */
  lemma OnCurve(tr: Trajectory, k: nat, i: nat, t: real)
    requires Sorted(tr) && 0 < k < |tr.points| && At(tr, k - 1) < At(tr, k) && i < JOINTS && tr.hasVelocities
    ensures var r, c := OnSegment(tr, k, i, t), InTime(PositionCurve(tr, k, i), Span(tr, k), Unit(tr, k, t));
            r.q == c.q && r.qd == c.qd && (tr.hasAccelerations ==> r.qdd == c.qdd)
  {
    var s, u := Span(tr, k), Unit(tr, k, t);
    if tr.hasAccelerations {
      QuinticRefOnCurve(PositionCurve(tr, k, i), s, u);
    } else {
      var a, b := tr.points[k - 1], tr.points[k];
      CubicOfOnCurve(a.q[i], a.qd[i], b.q[i], b.qd[i], s, u);
    }
  }

  /** What is left of q(t + h) past its tangent, over h^2: a polynomial in h. */
  function Bow(tr: Trajectory, k: nat, i: nat, t: real, h: real): real
    requires Sorted(tr) && 0 < k < |tr.points| && At(tr, k - 1) < At(tr, k) && i < JOINTS && tr.hasVelocities
  {
    Past(PositionCurve(tr, k, i), Unit(tr, k, t), h / Span(tr, k)) / Square(Span(tr, k))
  }

  /** And of qd(t + h). */
  function RateBow(tr: Trajectory, k: nat, i: nat, t: real, h: real): real
    requires Sorted(tr) && 0 < k < |tr.points| && At(tr, k - 1) < At(tr, k) && i < JOINTS && tr.hasVelocities
  {
    SlopePast(PositionCurve(tr, k, i), Unit(tr, k, t), h / Span(tr, k)) / Span(tr, k) / Square(Span(tr, k))
  }

  /** OnCurve, for one derivative at a time. */
  lemma SegmentValues(tr: Trajectory, k: nat, i: nat, t: real)
    requires Sorted(tr) && 0 < k < |tr.points| && At(tr, k - 1) < At(tr, k) && i < JOINTS && tr.hasVelocities
    ensures var r, c, s, u := OnSegment(tr, k, i, t), PositionCurve(tr, k, i), Span(tr, k), Unit(tr, k, t);
            && r.q == Eval(c, u) && r.qd == Slope(c, u) / s
            && (tr.hasAccelerations ==> r.qdd == Bend(c, u) / Square(s))
  {
    OnCurve(tr, k, i, t);
  }

  lemma UnitLater(tr: Trajectory, k: nat, t: real, h: real)
    requires Sorted(tr) && 0 < k < |tr.points| && At(tr, k - 1) < At(tr, k)
    ensures Unit(tr, k, t + h) == Unit(tr, k, t) + h / Span(tr, k) && h / Span(tr, k) * Span(tr, k) == h
  {
    UnitStep(At(tr, k - 1), Span(tr, k), t, h);
  }

  /** A position and a rate read off one curve, a step k of its unit apart. */
  lemma ReadAlong(c: Poly, s: real, u: real, w: real, k: real, h: real, q: real, qd: real, later: real, rest: real)
    requires s > 0.0 && k * s == h && w == u + k
    requires q == Eval(c, u) && qd == Slope(c, u) / s && later == Eval(c, w) && rest == Past(c, u, k) / Square(s)
    ensures later == Along(q, qd, h, rest)
  {
    RateIsDerivative(c, s, u, h, k);
  }

  lemma QMovesAlong(tr: Trajectory, k: nat, i: nat, t: real, h: real)
    requires Sorted(tr) && 0 < k < |tr.points| && At(tr, k - 1) < At(tr, k) && i < JOINTS && tr.hasVelocities
    ensures OnSegment(tr, k, i, t + h).q
            == Along(OnSegment(tr, k, i, t).q, OnSegment(tr, k, i, t).qd, h, Bow(tr, k, i, t, h))
  {
    SegmentValues(tr, k, i, t);
    SegmentValues(tr, k, i, t + h);
    UnitLater(tr, k, t, h);
    var now, later := OnSegment(tr, k, i, t), OnSegment(tr, k, i, t + h);
    ReadAlong(PositionCurve(tr, k, i), Span(tr, k), Unit(tr, k, t), Unit(tr, k, t + h), h / Span(tr, k), h,
              now.q, now.qd, later.q, Bow(tr, k, i, t, h));
  }

  lemma QdMovesAlong(tr: Trajectory, k: nat, i: nat, t: real, h: real)
    requires Sorted(tr) && 0 < k < |tr.points| && At(tr, k - 1) < At(tr, k) && i < JOINTS
    requires tr.hasVelocities && tr.hasAccelerations
    ensures OnSegment(tr, k, i, t + h).qd
            == Along(OnSegment(tr, k, i, t).qd, OnSegment(tr, k, i, t).qdd, h, RateBow(tr, k, i, t, h))
  {
    SegmentValues(tr, k, i, t);
    SegmentValues(tr, k, i, t + h);
    UnitLater(tr, k, t, h);
    AccelerationIsDerivative(PositionCurve(tr, k, i), Span(tr, k), Unit(tr, k, t), h, h / Span(tr, k));
  }

  /** The reported qd is the exact time derivative of the reported q, and qdd of qd: from t to
    * any t + h in its segment the sample moves along its own tangent, but for h^2 times a
    * polynomial in h. Without velocities, or accelerations, the plan reports zero instead. */
  lemma SampleHasDerivatives(tr: Trajectory, i: nat, t: real, h: real)
    requires Sorted(tr) && |tr.points| > 0 && i < JOINTS && tr.hasVelocities
    requires At(tr, 0) < t < Duration(tr) && At(tr, 0) < t + h < Duration(tr)
    requires After(tr, t + h, |tr.points|) == After(tr, t, |tr.points|)
    ensures var k := After(tr, t, |tr.points|);
            var now, later := Sample(tr, i, t), Sample(tr, i, t + h);
            && 0 < k < |tr.points| && At(tr, k - 1) < At(tr, k)
            && later.q == Along(now.q, now.qd, h, Bow(tr, k, i, t, h))
            && (tr.hasAccelerations ==> later.qd == Along(now.qd, now.qdd, h, RateBow(tr, k, i, t, h)))
  {
    SampleIsOnSegment(tr, i, t);
    SampleIsOnSegment(tr, i, t + h);
    var k := After(tr, t, |tr.points|);
    QMovesAlong(tr, k, i, t, h);
    if tr.hasAccelerations { QdMovesAlong(tr, k, i, t, h); }
  }

  // ---- reproduction ------------------------------------------------------------------------------------

  /** Joint i's waypoints are taken from p, with the derivatives the plan carries. */
  predicate TakenFrom(tr: Trajectory, i: nat, p: Poly)
    requires Sorted(tr) && i < JOINTS
  {
    forall k :: 0 <= k < |tr.points| ==>
      && tr.points[k].q[i] == Eval(p, At(tr, k))
      && (tr.hasVelocities ==> tr.points[k].qd[i] == Slope(p, At(tr, k)))
      && (tr.hasVelocities && tr.hasAccelerations ==> tr.points[k].qdd[i] == Bend(p, At(tr, k)))
  }

  /** The degree an interpolation can carry: five with accelerations, three with velocities
    * only, one with neither. */
  predicate OfOrder(tr: Trajectory, p: Poly) {
    if tr.hasVelocities && tr.hasAccelerations then true
    else if tr.hasVelocities then p.c4 == 0.0 && p.c5 == 0.0
    else p.c2 == 0.0 && p.c3 == 0.0 && p.c4 == 0.0 && p.c5 == 0.0
  }

  lemma FromUnit(tr: Trajectory, k: nat, t: real)
    requires Sorted(tr) && 0 < k < |tr.points| && At(tr, k - 1) < At(tr, k)
    ensures At(tr, k - 1) + Span(tr, k) * Unit(tr, k, t) == t
    ensures At(tr, k - 1) + Span(tr, k) == At(tr, k)
  {
    var s, u := Span(tr, k), Unit(tr, k, t);
    assert u * s == t - At(tr, k - 1);
  }

  /** A plan sampled from a polynomial the interpolation can carry is that polynomial at every
    * time strictly inside the span, with its derivatives. */
  lemma PlansAreReproduced(tr: Trajectory, i: nat, p: Poly, t: real)
    requires Sorted(tr) && |tr.points| > 0 && i < JOINTS && At(tr, 0) < t < Duration(tr)
    requires TakenFrom(tr, i, p) && OfOrder(tr, p)
    ensures Sample(tr, i, t).q == Eval(p, t)
    ensures tr.hasVelocities ==> Sample(tr, i, t).qd == Slope(p, t)
    ensures tr.hasVelocities && tr.hasAccelerations ==> Sample(tr, i, t).qdd == Bend(p, t)
  {
    SampleIsOnSegment(tr, i, t);
    var k := After(tr, t, |tr.points|);
    var a, s, u := At(tr, k - 1), Span(tr, k), Unit(tr, k, t);
    FromUnit(tr, k, t);
    if !tr.hasVelocities {
      LinearReproduces(p, a, At(tr, k), t, s, u);
    } else if !tr.hasAccelerations {
      CubicReproduces(p, a, At(tr, k), t, s, u);
    } else {
      QuinticReproduces(p, a, At(tr, k), t, s, u);
    }
  }
}
