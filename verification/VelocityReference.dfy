/** velocity_reference.h: the leashed velocity integrator and the velocity cap. On a
  * continuous joint the integrator works on angles in (-pi, pi]; what it is held against is
  * the same algorithm on the real line.
  */
module VelocityReference {
  import opened Basics
  import opened Circle

  /** A joint's URDF limits; continuous when both are infinite. */
  datatype Span = Span(lower: Option<real>, upper: Option<real>) {
    predicate Continuous() { lower.None? && upper.None? }
    predicate Valid() { lower.Some? && upper.Some? ==> lower.value <= upper.value }
  }

  function Within(s: Span, x: real): (r: real)
    ensures s.Valid() ==> (s.lower.Some? ==> s.lower.value <= r) && (s.upper.Some? ==> r <= s.upper.value)
  {
    if s.lower.Some? && x < s.lower.value then s.lower.value
    else if s.upper.Some? && s.upper.value < x then s.upper.value else x
  }

  function Lead(pi: real, s: Span, r: real, q: real): real
    requires pi > 0.0
  {
    if s.Continuous() then Wrap(pi, r - q) else r - q
  }

  /** One joint of integrate_leashed_reference, over a step dq = qd dt. */
  function Integrated(pi: real, s: Span, leash: real, r: real, dq: real, q: real): (x: real)
    requires pi > 0.0 && leash >= 0.0
    ensures s.Continuous() ==> OnCircle(pi, x)
  {
    var x := q + Clamp(Lead(pi, s, r + dq, q), -leash, leash);
    if s.Continuous() then Wrap(pi, x) else Within(s, x)
  }

  /** The same, from the velocity. */
  function Moved(pi: real, s: Span, leash: real, r: real, v: real, dt: real, q: real): real
    requires pi > 0.0 && leash >= 0.0
  {
    Integrated(pi, s, leash, r, v * dt, q)
  }

  /** The loop body. */
  method IntegrateJoint(pi: real, s: Span, leash: real, r: real, v: real, dt: real, q: real) returns (x: real)
    requires pi > 0.0 && leash >= 0.0
    ensures x == Moved(pi, s, leash, r, v, dt, q)
  {
    x := r + v * dt;
    var lead := x - q;
    if s.Continuous() { lead := WrapToPi(pi, lead); }
    x := q + Clamp(lead, -leash, leash);
    if s.Continuous() {
      x := WrapToPi(pi, x);
    } else {
      x := Within(s, x);
    }
  }

  /** The loop over the joints, in place. */
  method IntegrateLeashedReference(pi: real, qRef: array<real>, qd: Vec, dt: real, q: Vec, leash: real,
      spans: seq<Span>)
    requires pi > 0.0 && leash >= 0.0 && qRef.Length == JOINTS && |spans| == JOINTS
    modifies qRef
    ensures forall i :: 0 <= i < JOINTS ==> qRef[i] == Moved(pi, spans[i], leash, old(qRef[i]), qd[i], dt, q[i])
  {
    for i := 0 to JOINTS
      invariant forall k :: 0 <= k < i ==> qRef[k] == Moved(pi, spans[k], leash, old(qRef[k]), qd[k], dt, q[k])
      invariant forall k :: i <= k < JOINTS ==> qRef[k] == old(qRef[k])
    {
      qRef[i] := IntegrateJoint(pi, spans[i], leash, qRef[i], qd[i], dt, q[i]);
    }
  }

  // ---- the real line ---------------------------------------------------------------

  /** What a cycle brings: the velocity's step and the measurement, as an angle that does
    * not wrap. */
  datatype Cycle = Cycle(dq: real, y: real)

  function OnLine(leash: real, x: real, c: Cycle): real
    requires leash >= 0.0
  {
    c.y + Clamp(x + c.dq - c.y, -leash, leash)
  }

  function LineRun(leash: real, x: real, cs: seq<Cycle>): real
    requires leash >= 0.0
  {
    if cs == [] then x else OnLine(leash, LineRun(leash, x, cs[..|cs| - 1]), cs[|cs| - 1])
  }

  /** The lead the leash sees in cycle k of the line's run. */
  function LineLead(leash: real, x: real, cs: seq<Cycle>, k: nat): real
    requires leash >= 0.0 && k < |cs|
  {
    LineRun(leash, x, cs[..k]) + cs[k].dq - cs[k].y
  }

  /** The code's run: the transport reports each measurement wrapped. */
  function WrappedRun(pi: real, s: Span, leash: real, r: real, cs: seq<Cycle>): real
    requires pi > 0.0 && leash >= 0.0
  {
    if cs == [] then r
    else
      var c := cs[|cs| - 1];
      Integrated(pi, s, leash, WrappedRun(pi, s, leash, r, cs[..|cs| - 1]), c.dq, Wrap(pi, c.y))
  }

  function WrappedLead(pi: real, s: Span, leash: real, r: real, cs: seq<Cycle>, k: nat): real
    requires pi > 0.0 && leash >= 0.0 && k < |cs|
  {
    Lead(pi, s, WrappedRun(pi, s, leash, r, cs[..k]) + cs[k].dq, Wrap(pi, cs[k].y))
  }

  /** One cycle: the code sees the line's lead if and only if that lead is in the half-open
    * turn, and then its reference is the line's. */
  lemma StepRefinesLine(pi: real, s: Span, leash: real, x: real, r: real, c: Cycle)
    requires pi > 0.0 && leash >= 0.0 && s.Continuous() && Same(pi, r, x)
    ensures Lead(pi, s, r + c.dq, Wrap(pi, c.y)) == x + c.dq - c.y <==> OnCircle(pi, x + c.dq - c.y)
    ensures OnCircle(pi, x + c.dq - c.y) ==>
              Same(pi, Integrated(pi, s, leash, r, c.dq, Wrap(pi, c.y)), OnLine(leash, x, c))
  {
    var q := Wrap(pi, c.y);
    SameSelf(pi, c.y);
    SameAdd(pi, r, x, c.dq, c.dq);
    SameSub(pi, r + c.dq, x + c.dq, q, c.y);
    WrapId(pi, x + c.dq - c.y);
    var lead := Clamp(x + c.dq - c.y, -leash, leash);
    SameAdd(pi, q, c.y, lead, lead);
    SameSelf(pi, q + lead);
  }

  /** The line's leads stay in the half-open turn. */
  predicate Short(pi: real, leash: real, x: real, cs: seq<Cycle>)
    requires leash >= 0.0
  {
    forall k :: 0 <= k < |cs| ==> OnCircle(pi, LineLead(leash, x, cs, k))
  }

  /** The whole run: every lead the leash sees is the line's if and only if all of the line's
    * stay in the half-open turn; and then the wrapped reference is the line's modulo a turn. */
  lemma {:induction false} RunRefinesLine(pi: real, s: Span, leash: real, x: real, r: real, cs: seq<Cycle>)
    requires pi > 0.0 && leash >= 0.0 && s.Continuous() && Same(pi, r, x)
    ensures LeadsAgree(pi, s, leash, x, r, cs) <==> Short(pi, leash, x, cs)
    ensures Short(pi, leash, x, cs) ==> Same(pi, WrappedRun(pi, s, leash, r, cs), LineRun(leash, x, cs))
  {
    if cs != [] {
      var front := cs[..|cs| - 1];
      RunRefinesLine(pi, s, leash, x, r, front);
      FrontLeads(leash, x, cs);
      ShortFront(pi, leash, x, cs);
      LeadsOfFront(pi, s, leash, x, r, cs);
      if Short(pi, leash, x, front) {
        StepRefinesLine(pi, s, leash, LineRun(leash, x, front), WrappedRun(pi, s, leash, r, front), cs[|cs| - 1]);
      }
    }
  }

  lemma ShortFront(pi: real, leash: real, x: real, cs: seq<Cycle>)
    requires leash >= 0.0 && cs != []
    ensures Short(pi, leash, x, cs) <==>
            Short(pi, leash, x, cs[..|cs| - 1]) && OnCircle(pi, LineLead(leash, x, cs, |cs| - 1))
  {
    var front := cs[..|cs| - 1];
    FrontLeads(leash, x, cs);
    if Short(pi, leash, x, cs) {
      forall k | 0 <= k < |front| ensures OnCircle(pi, LineLead(leash, x, front, k)) {
        assert OnCircle(pi, LineLead(leash, x, cs, k));
      }
    }
    if Short(pi, leash, x, front) && OnCircle(pi, LineLead(leash, x, cs, |front|)) {
      forall k | 0 <= k < |cs| ensures OnCircle(pi, LineLead(leash, x, cs, k)) {
        if k < |front| { assert OnCircle(pi, LineLead(leash, x, front, k)); }
      }
    }
  }

  /** The lead in a cycle is the same in any longer run. */
  lemma FrontLeads(leash: real, x: real, cs: seq<Cycle>)
    requires leash >= 0.0 && cs != []
    ensures forall k :: 0 <= k < |cs| - 1 ==> LineLead(leash, x, cs[..|cs| - 1], k) == LineLead(leash, x, cs, k)
  {
    var front := cs[..|cs| - 1];
    forall k | 0 <= k < |front| ensures LineLead(leash, x, front, k) == LineLead(leash, x, cs, k) {
      assert front[..k] == cs[..k];
    }
  }

  /** The leash sees the line's leads. */
  predicate LeadsAgree(pi: real, s: Span, leash: real, x: real, r: real, cs: seq<Cycle>)
    requires pi > 0.0 && leash >= 0.0
  {
    forall k :: 0 <= k < |cs| ==> WrappedLead(pi, s, leash, r, cs, k) == LineLead(leash, x, cs, k)
  }

  lemma LeadsOfFront(pi: real, s: Span, leash: real, x: real, r: real, cs: seq<Cycle>)
    requires pi > 0.0 && leash >= 0.0 && cs != []
    ensures LeadsAgree(pi, s, leash, x, r, cs) <==>
            && LeadsAgree(pi, s, leash, x, r, cs[..|cs| - 1])
            && WrappedLead(pi, s, leash, r, cs, |cs| - 1) == LineLead(leash, x, cs, |cs| - 1)
  {
    var front := cs[..|cs| - 1];
    FrontLeads(leash, x, cs);
    forall k | 0 <= k < |front| ensures WrappedLead(pi, s, leash, r, front, k) == WrappedLead(pi, s, leash, r, cs, k) {
      assert front[..k] == cs[..k];
    }
  }

  /** The gap a cycle opens between the velocity's step and the arm's. */
  function Slip(y0: real, cs: seq<Cycle>, k: nat): real
    requires k < |cs|
  {
    cs[k].dq - (cs[k].y - (if k == 0 then y0 else cs[k - 1].y))
  }

  /** What keeps the lead short: no cycle slips by what the leash leaves of the half turn. */
  lemma {:induction false} SmallSlipsStayShort(pi: real, leash: real, x: real, y0: real, cs: seq<Cycle>)
    requires 0.0 <= leash < pi && Abs(x - y0) <= leash
    requires forall k :: 0 <= k < |cs| ==> Abs(Slip(y0, cs, k)) < pi - leash
    ensures Short(pi, leash, x, cs)
    ensures Abs(LineRun(leash, x, cs) - (if cs == [] then y0 else cs[|cs| - 1].y)) <= leash
  {
    if cs != [] {
      var n := |cs| - 1;
      var front := cs[..n];
      forall k | 0 <= k < n ensures Slip(y0, front, k) == Slip(y0, cs, k) {
      }
      SmallSlipsStayShort(pi, leash, x, y0, front);
      assert Abs(Slip(y0, cs, n)) < pi - leash;
      forall k | 0 <= k < |cs| ensures OnCircle(pi, LineLead(leash, x, cs, k)) {
        if k < n {
          assert front[..k] == cs[..k];
          assert OnCircle(pi, LineLead(leash, x, front, k));
        }
      }
    }
  }

  // ---- the velocity cap --------------------------------------------------------------

  /** The scale limit_joint_velocity finds over the first n joints. */
  function ScaleOf(vMax: Vec, qd: Vec, n: nat): real
    requires n <= JOINTS
  {
    if n == 0 then 1.0
    else
      Lowered(vMax[n - 1], qd[n - 1], ScaleOf(vMax, qd, n - 1))
  }

  /** The scale, lowered if this joint needs it. */
  function Lowered(v: real, x: real, s: real): real {
    if Abs(x) > v && Abs(x) > 0.0 then Min(s, v / Abs(x)) else s
  }

  predicate Caps(vMax: Vec) { forall i :: 0 <= i < JOINTS ==> vMax[i] >= 0.0 }

  predicate MeetsCaps(vMax: Vec, qd: Vec, s: real, n: nat)
    requires n <= JOINTS
  {
    forall i :: 0 <= i < n ==> Abs(Scaled(qd[i], s)) <= vMax[i]
  }

  function Scaled(x: real, s: real): real { x * s }

  lemma Scaling(a: real, s: real, t: real)
    requires 0.0 <= s <= t && a >= 0.0
    ensures 0.0 <= a * s <= a * t
  {
    assert a * (t - s) >= 0.0;
  }

  lemma AbsScaled(x: real, s: real)
    requires s >= 0.0
    ensures Abs(Scaled(x, s)) == Abs(x) * s
  {
    if x < 0.0 {
      Scaling(-x, 0.0, s);
      assert (-x) * s == -(x * s);
    } else {
      Scaling(x, 0.0, s);
    }
  }

  /** One joint's part: scale u meets its cap, and no larger scale does if it lowered s. */
  lemma CapOne(v: real, x: real, s: real, t: real)
    requires v >= 0.0 && 0.0 <= s <= 1.0
    ensures var u := Lowered(v, x, s);
            && 0.0 <= u <= s && Abs(Scaled(x, u)) <= v
            && (0.0 <= t <= s && Abs(Scaled(x, t)) <= v ==> t <= u)
  {
    var a, u := Abs(x), Lowered(v, x, s);
    CapMagnitude(a, v, s, u, t);
    AbsScaled(x, u);
    if t >= 0.0 { AbsScaled(x, t); }
  }

  lemma CapMagnitude(a: real, v: real, s: real, u: real, t: real)
    requires v >= 0.0 && a >= 0.0 && 0.0 <= s <= 1.0
    requires u == if a > v && a > 0.0 then Min(s, v / a) else s
    ensures 0.0 <= u <= s && a * u <= v
    ensures 0.0 <= t <= s && a * t <= v ==> t <= u
  {
    if a > v {
      Quotient(v, a);
      CapAt(a, v, v / a, s, u, t);
    } else {
      Scaling(a, u, 1.0);
    }
  }

  /** The same on the magnitude, at the ratio r that just meets the cap. */
  lemma CapAt(a: real, v: real, r: real, s: real, u: real, t: real)
    requires a > 0.0 && a * r == v && 0.0 <= r && 0.0 <= s && u == Min(s, r)
    ensures 0.0 <= u <= s && a * u <= v
    ensures t <= s && a * t <= v ==> t <= u
  {
    Scaling(a, u, r);
    if r < t { LargerMisses(a, r, t); }
  }

  lemma LargerMisses(a: real, s: real, t: real)
    requires a > 0.0 && s < t
    ensures a * s < a * t
  {
    var d := t - s;
    assert a * d > 0.0;
    assert a * t == a * s + a * d;
  }

  lemma SmallerMeets(v: real, x: real, u: real, s: real)
    requires 0.0 <= u <= s && Abs(Scaled(x, s)) <= v
    ensures Abs(Scaled(x, u)) <= v
  {
    AbsScaled(x, u);
    AbsScaled(x, s);
    Scaling(Abs(x), u, s);
  }

  lemma CapsStep(vMax: Vec, qd: Vec, n: nat, s: real, u: real)
    requires n < JOINTS && 0.0 <= u <= s && MeetsCaps(vMax, qd, s, n) && Abs(Scaled(qd[n], u)) <= vMax[n]
    ensures MeetsCaps(vMax, qd, u, n + 1)
  {
    forall i | 0 <= i < n ensures Abs(Scaled(qd[i], u)) <= vMax[i] {
      SmallerMeets(vMax[i], qd[i], u, s);
    }
  }

  /** It is the greatest scale in [0, 1] under which every joint keeps its cap. */
  lemma {:induction false} ScaleIsGreatest(vMax: Vec, qd: Vec, n: nat, t: real)
    requires Caps(vMax) && n <= JOINTS
    ensures 0.0 <= ScaleOf(vMax, qd, n) <= 1.0 && MeetsCaps(vMax, qd, ScaleOf(vMax, qd, n), n)
    ensures 0.0 <= t <= 1.0 && MeetsCaps(vMax, qd, t, n) ==> t <= ScaleOf(vMax, qd, n)
  {
    if n > 0 {
      ScaleIsGreatest(vMax, qd, n - 1, t);
      GreatestStep(vMax, qd, n - 1, ScaleOf(vMax, qd, n - 1), t);
    }
  }

  lemma GreatestStep(vMax: Vec, qd: Vec, n: nat, s: real, t: real)
    requires Caps(vMax) && n < JOINTS && 0.0 <= s <= 1.0 && MeetsCaps(vMax, qd, s, n)
    requires 0.0 <= t <= 1.0 && MeetsCaps(vMax, qd, t, n) ==> t <= s
    ensures var u := Lowered(vMax[n], qd[n], s);
            && 0.0 <= u <= 1.0 && MeetsCaps(vMax, qd, u, n + 1)
            && (0.0 <= t <= 1.0 && MeetsCaps(vMax, qd, t, n + 1) ==> t <= u)
  {
    CapOne(vMax[n], qd[n], s, t);
    CapsStep(vMax, qd, n, s, Lowered(vMax[n], qd[n], s));
  }

  lemma Quotient(v: real, a: real)
    requires a > 0.0 && v >= 0.0
    ensures a * (v / a) == v && v / a >= 0.0
  {
  }

  /** limit_joint_velocity: the direction is kept, every cap met, and the final clamp never
    * bites. */
  method LimitJointVelocity(vMax: Vec, qd: array<real>)
    requires Caps(vMax) && qd.Length == JOINTS
    modifies qd
    ensures forall i :: 0 <= i < JOINTS ==> qd[i] == Scaled(old(qd[i]), ScaleOf(vMax, old(qd[..]), JOINTS))
    ensures forall i :: 0 <= i < JOINTS ==> Abs(qd[i]) <= vMax[i]
  {
    ghost var was: Vec := qd[..];
    var s := FindScale(vMax, qd);
    ScaleIsGreatest(vMax, was, JOINTS, s);
    ScaleAll(qd, s);
    ghost var scaled: Vec := qd[..];
    ClampAll(vMax, qd);
    forall i | 0 <= i < JOINTS ensures qd[i] == Scaled(was[i], s) && Abs(qd[i]) <= vMax[i] {
      assert scaled[i] == Scaled(was[i], s);
    }
  }

  method FindScale(vMax: Vec, qd: array<real>) returns (s: real)
    requires Caps(vMax) && qd.Length == JOINTS
    ensures s == ScaleOf(vMax, qd[..], JOINTS)
  {
    s := 1.0;
    for i := 0 to JOINTS
      invariant s == ScaleOf(vMax, qd[..], i)
    {
      var a := Abs(qd[i]);
      if a > vMax[i] && a > 0.0 { s := Min(s, vMax[i] / a); }
    }
  }

  method ScaleAll(qd: array<real>, s: real)
    modifies qd
    ensures forall i :: 0 <= i < qd.Length ==> qd[i] == Scaled(old(qd[i]), s)
  {
    for i := 0 to qd.Length
      invariant forall k :: 0 <= k < i ==> qd[k] == Scaled(old(qd[k]), s)
      invariant forall k :: i <= k < qd.Length ==> qd[k] == old(qd[k])
    {
      qd[i] := qd[i] * s;
    }
  }

  method ClampAll(vMax: Vec, qd: array<real>)
    requires Caps(vMax) && qd.Length == JOINTS
    modifies qd
    ensures forall i :: 0 <= i < JOINTS ==> qd[i] == Clamp(old(qd[i]), -vMax[i], vMax[i])
  {
    for i := 0 to JOINTS
      invariant forall k :: 0 <= k < i ==> qd[k] == Clamp(old(qd[k]), -vMax[k], vMax[k])
      invariant forall k :: i <= k < JOINTS ==> qd[k] == old(qd[k])
    {
      qd[i] := Clamp(qd[i], -vMax[i], vMax[i]);
    }
  }
}
