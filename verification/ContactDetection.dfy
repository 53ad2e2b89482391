/** What the contact monitor detects, over every sequence of samples, clears, threshold
  * changes and run starts.
  */
module ContactDetection {
  import opened Basics
  import opened MomentumObserver
  import opened ContactMonitor

  datatype Event =
    | Sampled(sample: Sample, dt: real)
    | RunStart
    | ClearAsked
    | ThresholdsSet(theta: Vec)

  function Apply(cfg: Config, m: Monitor, e: Event): Monitor
    requires ValidConfig(cfg)
  {
    match e
    case Sampled(s, dt) => StepMonitor(cfg, m, s, dt)
    case RunStart => RunStartOf(m)
    case ClearAsked => m.(clearRequested := true)
    case ThresholdsSet(t) => m.(thetaNext := t)
  }

  // ---- the reference: what the samples since the last re-initialisation say --------

  type Flags = f: seq<bool> | |f| == JOINTS witness seq(JOINTS, _ => false)

  /** Good samples since the observer was last re-initialised, and, for each of them that
    * was settled and unlatched, which joints were over their threshold. */
  datatype Trace = Trace(goods: nat, armed: seq<Flags>)

  function OverFlags(r: Vec, theta: Vec): Flags {
    seq(JOINTS, i requires 0 <= i < JOINTS => Over(r, theta, i))
  }

  /** The length of joint i's unbroken run over threshold at the end of the trace. */
  function Trailing(armed: seq<Flags>, i: nat): nat
    requires i < JOINTS
  {
    if armed == [] || !armed[|armed| - 1][i] then 0 else 1 + Trailing(armed[..|armed| - 1], i)
  }

  /** The event is a good sample that is settled and not latched. */
  predicate CountsOn(cfg: Config, m: Monitor, e: Event)
    requires ValidConfig(cfg)
  {
    && e.Sampled? && e.sample.Good? && !TakeClear(m).latched
    && Observed(cfg, TakeClear(m), e.sample.p, e.sample.drift, e.dt).time >= 5.0 / cfg.gain
  }

  function Follow(cfg: Config, m: Monitor, t: Trace, e: Event): Trace
    requires ValidConfig(cfg)
  {
    match e
    case Sampled(s, dt) =>
      var u := if m.clearRequested then Trace(0, []) else t;
      if !s.Good? then u
      else if !CountsOn(cfg, m, e) then u.(goods := u.goods + 1)
      else Trace(u.goods + 1,
                 u.armed + [OverFlags(Observed(cfg, TakeClear(m), s.p, s.drift, dt).r, m.thetaNext)])
    case RunStart => Trace(0, [])
    case _ => t
  }

  /** Some joint's run over threshold is exactly the debounce count long. */
  predicate Reaches(cfg: Config, armed: seq<Flags>) {
    exists i: nat :: i < JOINTS && Trailing(armed, i) == cfg.debounce
  }

  // ---- refinement -------------------------------------------------------------------

  predicate CountsRefine(cfg: Config, count: Counts, armed: seq<Flags>) {
    forall i: nat :: i < JOINTS ==>
        count[i] == if Trailing(armed, i) < cfg.debounce then Trailing(armed, i) else cfg.debounce
  }

  /** The observer has integrated at most 1/K for every good sample but the seeding one. */
  predicate TimeBound(cfg: Config, o: Observer, goods: nat)
    requires ValidConfig(cfg)
  {
    && (o.seeded <==> goods > 0)
    && o.time <= (if goods == 0 then 0.0 else (goods - 1) as real * (1.0 / cfg.gain))
  }

  predicate Refines(cfg: Config, m: Monitor, t: Trace)
    requires ValidConfig(cfg)
  {
    && CountsRefine(cfg, m.count, t.armed)
    && TimeBound(cfg, m.obs, t.goods)
    && |t.armed| <= (if t.goods < 5 then 0 else t.goods - 5)
    && (m.latched ==> cfg.enforce)
  }

  lemma TrailingPush(armed: seq<Flags>, f: Flags, i: nat)
    requires i < JOINTS
    ensures Trailing(armed + [f], i) == if f[i] then 1 + Trailing(armed, i) else 0
  {
    assert (armed + [f])[..|armed|] == armed;
  }

  lemma {:induction false} TrailingShort(armed: seq<Flags>, i: nat)
    requires i < JOINTS
    ensures Trailing(armed, i) <= |armed|
  {
    if armed != [] { TrailingShort(armed[..|armed| - 1], i); }
  }

  lemma CountsPush(cfg: Config, count: Counts, armed: seq<Flags>, r: Vec, theta: Vec)
    requires ValidConfig(cfg) && CountsRefine(cfg, count, armed)
    ensures CountsRefine(cfg, CountsAfter(count, r, theta, cfg.debounce), armed + [OverFlags(r, theta)])
    ensures forall i: nat :: i < JOINTS ==>
              (Crosses(count, r, theta, cfg.debounce, i) <==>
               Trailing(armed + [OverFlags(r, theta)], i) == cfg.debounce)
  {
    var f := OverFlags(r, theta);
    forall i: nat | i < JOINTS
      ensures CountsAfter(count, r, theta, cfg.debounce)[i]
              == if Trailing(armed + [f], i) < cfg.debounce then Trailing(armed + [f], i) else cfg.debounce
      ensures Crosses(count, r, theta, cfg.debounce, i) <==> Trailing(armed + [f], i) == cfg.debounce
    {
      TrailingPush(armed, f, i);
    }
  }

  lemma TimeStep(cfg: Config, o: Observer, goods: nat, p: Vec, drift: Vec, dt: real)
    requires ValidConfig(cfg) && TimeBound(cfg, o, goods) && dt <= 1.0 / cfg.gain
    ensures TimeBound(cfg, StepOf(cfg.gain, o, p, drift, dt), goods + 1)
  {
    var unit := 1.0 / cfg.gain;
    if goods > 0 {
      assert (goods - 1) as real * unit + unit == goods as real * unit;
    }
  }

  lemma CancelUnit(a: real, b: real, unit: real)
    requires unit > 0.0 && a * unit >= b * unit
    ensures a >= b
  {
    assert (a - b) * unit >= 0.0;
  }

  /** A settled observer has seen six good samples. */
  lemma SettledLate(cfg: Config, o: Observer, goods: nat)
    requires ValidConfig(cfg) && TimeBound(cfg, o, goods) && o.time >= 5.0 / cfg.gain
    ensures goods >= 6
  {
    var unit := 1.0 / cfg.gain;
    assert 5.0 / cfg.gain == 5.0 * unit > 0.0;
    CancelUnit((goods - 1) as real, 5.0, unit);
  }

  lemma RefinesRestart(cfg: Config, m: Monitor)
    requires ValidConfig(cfg) && (m.latched ==> cfg.enforce)
    ensures Refines(cfg, Restart(m), Trace(0, []))
  {
  }

  lemma RefinesClear(cfg: Config, m: Monitor, t: Trace)
    requires ValidConfig(cfg) && Refines(cfg, m, t)
    ensures Refines(cfg, TakeClear(m), if m.clearRequested then Trace(0, []) else t)
  {
    if m.clearRequested { RefinesRestart(cfg, m.(latched := false, clearRequested := false)); }
  }

  lemma RefinesGood(cfg: Config, u: Monitor, t: Trace, p: Vec, drift: Vec, dt: real, cycle: nat)
    requires ValidConfig(cfg) && Refines(cfg, u, t)
    ensures var o := Observed(cfg, u, p, drift, dt);
      var n := OnGood(cfg, u, p, drift, dt, cycle);
      var armed := t.armed + [OverFlags(o.r, u.theta)];
      if u.latched || o.time < 5.0 / cfg.gain
      then Refines(cfg, n, t.(goods := t.goods + 1)) && n.wouldTrips == u.wouldTrips && n.latched == u.latched
      else
        && Refines(cfg, n, Trace(t.goods + 1, armed))
        && n.wouldTrips == u.wouldTrips + (if Reaches(cfg, armed) then 1 else 0)
        && n.latched == (cfg.enforce && Reaches(cfg, armed))
        && (Reaches(cfg, armed) ==>
              && n.trip.Some? && n.trip.value.joint < JOINTS && n.trip.value.cycle == cycle
              && Trailing(armed, n.trip.value.joint) == cfg.debounce
              && (forall i: nat :: i < n.trip.value.joint ==> Trailing(armed, i) != cfg.debounce))
  {
    var o := Observed(cfg, u, p, drift, dt);
    TimeStep(cfg, u.obs, t.goods, p, drift, Min(u.pending + dt, 1.0 / cfg.gain));
    if !u.latched && o.time >= 5.0 / cfg.gain {
      SettledLate(cfg, o, t.goods + 1);
      CountsPush(cfg, u.count, t.armed, o.r, u.theta);
      var f := FirstCrossing(u.count, o.r, u.theta, cfg.debounce, 0);
      if f.Some? { assert Crosses(u.count, o.r, u.theta, cfg.debounce, f.value); }
    }
  }

  // ---- one event ----------------------------------------------------------------------

  /** This event trips, by the trace alone. */
  predicate TripsOn(cfg: Config, m: Monitor, t: Trace, e: Event)
    requires ValidConfig(cfg)
  {
    CountsOn(cfg, m, e) && Reaches(cfg, Follow(cfg, m, t, e).armed)
  }

  predicate ConsumesClear(m: Monitor, e: Event) { m.clearRequested && (e.Sampled? || e.RunStart?) }

  /** The detector refines the trace predicate, event by event. A trip is counted exactly
    * when some joint's unbroken run over threshold reaches the debounce count; that takes
    * debounce + 5 good samples since the last re-initialisation; the latch is set by a
    * trip in enforce and falls only by a consumed clear. */
  lemma EventRefines(cfg: Config, m: Monitor, t: Trace, e: Event)
    requires ValidConfig(cfg) && Refines(cfg, m, t)
    ensures Refines(cfg, Apply(cfg, m, e), Follow(cfg, m, t, e))
    ensures Apply(cfg, m, e).wouldTrips == m.wouldTrips + (if TripsOn(cfg, m, t, e) then 1 else 0)
    ensures Apply(cfg, m, e).latched == ((m.latched && !ConsumesClear(m, e)) || (cfg.enforce && TripsOn(cfg, m, t, e)))
    ensures TripsOn(cfg, m, t, e) ==> Follow(cfg, m, t, e).goods >= cfg.debounce + 5
  {
    if e.Sampled? {
      SampledRefines(cfg, m, t, e);
      TripIsLate(cfg, Follow(cfg, m, t, e));
    } else if e.RunStart? {
      RefinesRestart(cfg, if m.clearRequested then m.(latched := false, clearRequested := false) else m);
    }
  }

  lemma SampledRefines(cfg: Config, m: Monitor, t: Trace, e: Event)
    requires ValidConfig(cfg) && Refines(cfg, m, t) && e.Sampled?
    ensures Refines(cfg, Apply(cfg, m, e), Follow(cfg, m, t, e))
    ensures Apply(cfg, m, e).wouldTrips == m.wouldTrips + (if TripsOn(cfg, m, t, e) then 1 else 0)
    ensures Apply(cfg, m, e).latched == ((m.latched && !ConsumesClear(m, e)) || (cfg.enforce && TripsOn(cfg, m, t, e)))
  {
    RefinesClear(cfg, m, t);
    if e.sample.Good? {
      GoodRefines(cfg, m, t, e);
    }
  }

  /** What the good-sample case of Follow and of the detector come to. */
  lemma GoodCase(cfg: Config, m: Monitor, t: Trace, e: Event)
    requires ValidConfig(cfg) && e.Sampled? && e.sample.Good?
    ensures var u := TakeClear(m).(cycle := m.cycle + 1, theta := m.thetaNext);
            var t0 := if m.clearRequested then Trace(0, []) else t;
            var o := Observed(cfg, u, e.sample.p, e.sample.drift, e.dt);
            && Apply(cfg, m, e) == OnGood(cfg, u, e.sample.p, e.sample.drift, e.dt, m.cycle)
            && CountsOn(cfg, m, e) == !(u.latched || o.time < 5.0 / cfg.gain)
            && Follow(cfg, m, t, e) == (if CountsOn(cfg, m, e)
                                        then Trace(t0.goods + 1, t0.armed + [OverFlags(o.r, u.theta)])
                                        else t0.(goods := t0.goods + 1))
  {
    var u := TakeClear(m).(cycle := m.cycle + 1, theta := m.thetaNext);
    assert Observed(cfg, u, e.sample.p, e.sample.drift, e.dt) ==
        Observed(cfg, TakeClear(m), e.sample.p, e.sample.drift, e.dt);
  }

  lemma RefinesRelabelled(cfg: Config, m: Monitor, t: Trace, u: Monitor)
    requires ValidConfig(cfg) && Refines(cfg, m, t) && u.count == m.count && u.obs == m.obs && u.latched == m.latched
    ensures Refines(cfg, u, t)
  {
  }

  lemma GoodRefines(cfg: Config, m: Monitor, t: Trace, e: Event)
    requires ValidConfig(cfg) && Refines(cfg, m, t) && e.Sampled? && e.sample.Good?
    ensures Refines(cfg, Apply(cfg, m, e), Follow(cfg, m, t, e))
    ensures Apply(cfg, m, e).wouldTrips == m.wouldTrips + (if TripsOn(cfg, m, t, e) then 1 else 0)
    ensures Apply(cfg, m, e).latched == ((m.latched && !ConsumesClear(m, e)) || (cfg.enforce && TripsOn(cfg, m, t, e)))
  {
    RefinesClear(cfg, m, t);
    GoodCase(cfg, m, t, e);
    var c := TakeClear(m);
    var u := c.(cycle := m.cycle + 1, theta := m.thetaNext);
    var t0 := if m.clearRequested then Trace(0, []) else t;
    RefinesRelabelled(cfg, c, t0, u);
    RefinesGood(cfg, u, t0, e.sample.p, e.sample.drift, e.dt, m.cycle);
    assert u.latched == (m.latched && !ConsumesClear(m, e)) && u.wouldTrips == m.wouldTrips;
  }

  lemma TripIsLate(cfg: Config, t: Trace)
    requires ValidConfig(cfg) && |t.armed| <= (if t.goods < 5 then 0 else t.goods - 5)
    ensures Reaches(cfg, t.armed) ==> t.goods >= cfg.debounce + 5
  {
    if Reaches(cfg, t.armed) {
      var i: nat :| i < JOINTS && Trailing(t.armed, i) == cfg.debounce;
      TrailingShort(t.armed, i);
    }
  }

  // ---- whole runs -----------------------------------------------------------------------

  function Exec(cfg: Config, m: Monitor, es: seq<Event>): Monitor
    requires ValidConfig(cfg)
    decreases |es|
  {
    if es == [] then m else Exec(cfg, Apply(cfg, m, es[0]), es[1..])
  }

  /** The trips the traces along a run call for. */
  function TripsAlong(cfg: Config, m: Monitor, t: Trace, es: seq<Event>): nat
    requires ValidConfig(cfg)
    decreases |es|
  {
    if es == [] then 0
    else (if TripsOn(cfg, m, t, es[0]) then 1 else 0)
         + TripsAlong(cfg, Apply(cfg, m, es[0]), Follow(cfg, m, t, es[0]), es[1..])
  }

  lemma {:induction false} TripsCounted(cfg: Config, m: Monitor, t: Trace, es: seq<Event>)
    requires ValidConfig(cfg) && Refines(cfg, m, t)
    ensures Exec(cfg, m, es).wouldTrips == m.wouldTrips + TripsAlong(cfg, m, t, es)
    decreases |es|
  {
    if es != [] {
      EventRefines(cfg, m, t, es[0]);
      TripsCounted(cfg, Apply(cfg, m, es[0]), Follow(cfg, m, t, es[0]), es[1..]);
    }
  }

  /** From construction: the trip count is the trace's, in every run. */
  lemma DetectorRefinesTrace(cfg: Config, theta: Vec, es: seq<Event>)
    requires ValidConfig(cfg)
    ensures Exec(cfg, Start(theta), es).wouldTrips == TripsAlong(cfg, Start(theta), Trace(0, []), es)
  {
    TripsCounted(cfg, Start(theta), Trace(0, []), es);
  }

  /** Restarts, misses, thresholds: nothing but a clear lowers the latch. */
  lemma {:induction false} LatchHoldsWithoutClear(cfg: Config, m: Monitor, t: Trace, es: seq<Event>)
    requires ValidConfig(cfg) && Refines(cfg, m, t)
    requires m.latched && !m.clearRequested && forall i :: 0 <= i < |es| ==> !es[i].ClearAsked?
    ensures Exec(cfg, m, es).latched
    decreases |es|
  {
    if es != [] {
      EventRefines(cfg, m, t, es[0]);
      LatchHoldsWithoutClear(cfg, Apply(cfg, m, es[0]), Follow(cfg, m, t, es[0]), es[1..]);
    }
  }

  // ---- an arm at rest -----------------------------------------------------------------------

  /** The arm does not move (its momentum is `p`, fixed) and each joint carries an external
    * torque of at most `band`; thresholds stay at or above the band. */
  predicate AtRest(p: Vec, band: Vec, e: Event) {
    match e
    case Sampled(Good(q, drift), dt) =>
      dt >= 0.0 && q == p && forall i :: 0 <= i < JOINTS ==> Abs(drift[i]) <= band[i]
    case Sampled(_, dt) => dt >= 0.0
    case ThresholdsSet(theta) => Above(theta, band)
    case _ => true
  }

  predicate Above(theta: Vec, band: Vec) { forall i :: 0 <= i < JOINTS ==> band[i] <= theta[i] }

  predicate InBand(o: Observer, band: Vec) { forall i :: 0 <= i < JOINTS ==> Abs(o.r[i]) <= band[i] }

  predicate Calm(cfg: Config, m: Monitor, p: Vec, band: Vec)
    requires ValidConfig(cfg)
  {
    && Tracks(cfg.gain, m.obs, p) && InBand(m.obs, band) && m.pending >= 0.0
    && Above(m.theta, band) && Above(m.thetaNext, band)
    && m.wouldTrips == 0 && !m.latched
  }

  /** At most 1/K of time: the gain times it is at most one. */
  lemma UnderOne(gain: real, dt: real)
    requires gain > 0.0 && 0.0 <= dt <= 1.0 / gain
    ensures 0.0 <= gain * dt <= 1.0
  {
    var cap := 1.0 / gain;
    assert gain * cap == 1.0;
    if dt > 0.0 { Positive(gain, dt); }
    if dt < cap { Positive(gain, cap - dt); }
  }

  lemma CalmJoint(gain: real, o: Observer, p: Vec, drift: Vec, dt: real, band: Vec, i: nat)
    requires gain > 0.0 && Tracks(gain, o, p) && i < JOINTS && 0.0 <= gain * dt <= 1.0
    requires Abs(o.r[i]) <= band[i] && Abs(drift[i]) <= band[i]
    ensures Abs(StepOf(gain, o, p, drift, dt).r[i]) <= band[i]
  {
    if o.seeded {
      Recurrence(gain, o, p, p, drift, dt, -drift[i], i);
      BandKept(gain, dt, o.r[i], -drift[i], StepOf(gain, o, p, drift, dt).r[i], band[i]);
    }
  }

  lemma CalmObserver(cfg: Config, o: Observer, p: Vec, drift: Vec, dt: real, band: Vec)
    requires ValidConfig(cfg) && Tracks(cfg.gain, o, p) && InBand(o, band)
    requires 0.0 <= dt <= 1.0 / cfg.gain
    requires forall i :: 0 <= i < JOINTS ==> Abs(drift[i]) <= band[i]
    ensures InBand(StepOf(cfg.gain, o, p, drift, dt), band)
  {
    UnderOne(cfg.gain, dt);
    forall i: nat | i < JOINTS ensures Abs(StepOf(cfg.gain, o, p, drift, dt).r[i]) <= band[i] {
      CalmJoint(cfg.gain, o, p, drift, dt, band, i);
    }
  }

  lemma CalmGood(cfg: Config, u: Monitor, p: Vec, drift: Vec, dt: real, cycle: nat, band: Vec)
    requires ValidConfig(cfg) && Calm(cfg, u, p, band) && AtRest(p, band, Sampled(Good(p, drift), dt))
    ensures Calm(cfg, OnGood(cfg, u, p, drift, dt, cycle), p, band)
  {
    var o := Observed(cfg, u, p, drift, dt);
    assert 1.0 / cfg.gain > 0.0;
    CalmObserver(cfg, u.obs, p, drift, Min(u.pending + dt, 1.0 / cfg.gain), band);
    StepTracks(cfg.gain, u.obs, p, drift, Min(u.pending + dt, 1.0 / cfg.gain));
    forall i: nat | i < JOINTS ensures !Over(o.r, u.theta, i) {
      assert Abs(o.r[i]) <= band[i] <= u.theta[i];
    }
  }

  lemma CalmEvent(cfg: Config, m: Monitor, p: Vec, band: Vec, e: Event)
    requires ValidConfig(cfg) && Calm(cfg, m, p, band) && AtRest(p, band, e)
    requires forall i :: 0 <= i < JOINTS ==> band[i] >= 0.0
    ensures Calm(cfg, Apply(cfg, m, e), p, band)
  {
    if e.Sampled? {
      var u := TakeClear(m).(cycle := m.cycle + 1, theta := m.thetaNext);
      assert Calm(cfg, u, p, band);
      if e.sample.Good? { CalmGood(cfg, u, p, e.sample.drift, e.dt, m.cycle, band); }
    }
  }

  /** An arm at rest under a torque within its thresholds never trips, whatever the gaps,
    * misses, bad samples, clears, restarts and (higher) thresholds. */
  lemma {:induction false} RestNeverTrips(cfg: Config, m: Monitor, p: Vec, band: Vec, es: seq<Event>)
    requires ValidConfig(cfg) && Calm(cfg, m, p, band)
    requires forall i :: 0 <= i < JOINTS ==> band[i] >= 0.0
    requires forall k :: 0 <= k < |es| ==> AtRest(p, band, es[k])
    ensures Exec(cfg, m, es).wouldTrips == 0 && !Exec(cfg, m, es).latched
    decreases |es|
  {
    if es != [] {
      CalmEvent(cfg, m, p, band, es[0]);
      RestNeverTrips(cfg, Apply(cfg, m, es[0]), p, band, es[1..]);
    }
  }

  lemma StartIsCalm(cfg: Config, theta: Vec, p: Vec, band: Vec)
    requires ValidConfig(cfg) && Above(theta, band)
    requires forall i :: 0 <= i < JOINTS ==> band[i] >= 0.0
    ensures Calm(cfg, Start(theta), p, band)
  {
  }
}
