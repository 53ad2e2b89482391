/** A goal from its adoption to its end, whatever the clock and the override do. */
module TrajectoryExecutorRuns {
  import opened Basics
  import opened Hermite
  import opened Trajectory
  import opened TrajectoryExecutor

  /** One tick's inputs; `now` may stall or step back. */
  datatype Beat = Beat(now: real, q: Vec, override: Num)

  datatype Arm = Arm(pi: real, continuous: seq<bool>)

  predicate ValidArm(m: Arm) { m.pi > 0.0 && |m.continuous| == JOINTS }

  predicate JustAdopted(e: Exec) { Valid(e) && e.active.Some? && !e.active.value.started }

  function Ticks(m: Arm, e: Exec, beats: seq<Beat>): (r: Exec)
    requires ValidArm(m) && Valid(e)
    ensures Valid(r)
  {
    if beats == [] then e
    else
      var b, before := beats[|beats| - 1], Ticks(m, e, beats[..|beats| - 1]);
      TickKeepsValid(m.pi, m.continuous, before, b.now, b.q, b.override);
      AfterTick(m.pi, m.continuous, before, b.now, b.q, b.override)
  }

  /** What tick k makes of the goal, if it is still there. */
  function OutcomeAt(m: Arm, e: Exec, beats: seq<Beat>, k: nat): Outcome
    requires ValidArm(m) && Valid(e) && k < |beats| && Ticks(m, e, beats[..k]).active.Some?
  {
    Ticked(m.pi, m.continuous, Ticks(m, e, beats[..k]), beats[k].now, beats[k].q, beats[k].override)
  }

  /** Wall time since the first tick, its backward steps not counted. */
  function Wall(beats: seq<Beat>): real {
    if |beats| <= 1 then 0.0
    else Wall(beats[..|beats| - 1]) + Forward(beats[|beats| - 1].now - beats[|beats| - 2].now)
  }

  lemma Between(dt: real, x: real, lo: real, hi: real)
    requires dt >= 0.0 && lo <= x <= hi
    ensures lo * dt <= dt * x <= hi * dt
  {
    Product(dt, x - lo);
    Product(dt, hi - x);
    assert dt * (x - lo) == dt * x - lo * dt;
    assert dt * (hi - x) == hi * dt - dt * x;
  }

  lemma Product(x: real, y: real)
    requires x >= 0.0 && y >= 0.0
    ensures x * y >= 0.0
  {
  }

  /** The goal is still the one adopted, with its own scale and tolerance. */
  predicate SameGoal(e: Exec, n: Exec) {
    n.active.Some? && e.active.Some? && n.active.value.tr == e.active.value.tr && n.scale == e.scale
        && n.pathTol == e.pathTol
  }

  /** The goal's clock alone, tick after tick. */
  function ClockOf(a: Active, scale: Num, beats: seq<Beat>): Active {
    if beats == [] then a
    else
      var b := beats[|beats| - 1];
      Clocked(ClockOf(a, scale, beats[..|beats| - 1]), b.now, EffectiveScale(scale, b.override))
  }

  /** While the goal runs, its clock is that clock. */
  lemma {:induction false} StillTheGoal(m: Arm, e: Exec, beats: seq<Beat>)
    requires ValidArm(m) && JustAdopted(e) && Ticks(m, e, beats).active.Some?
    ensures SameGoal(e, Ticks(m, e, beats))
    ensures Ticks(m, e, beats).active.value == ClockOf(e.active.value, e.scale, beats)
    ensures beats != [] ==> Ticks(m, e, beats[..|beats| - 1]).active.Some?
  {
    if beats != [] { StillTheGoal(m, e, beats[..|beats| - 1]); }
  }

  lemma ClockAtTick(m: Arm, e: Exec, beats: seq<Beat>, k: nat)
    requires ValidArm(m) && JustAdopted(e) && k < |beats| && Ticks(m, e, beats[..k]).active.Some?
    ensures OutcomeAt(m, e, beats, k).clock == ClockOf(e.active.value, e.scale, beats[..k + 1])
  {
    StillTheGoal(m, e, beats[..k]);
    assert beats[..k + 1][..k] == beats[..k];
  }

  /** What holds of the clock t after forward wall time w, at goal scale s. */
  predicate Dilated(t: real, w: real, s: real) {
    w >= 0.0 && MIN_SPEED_SCALE * w <= t <= s * w
  }

  lemma DilatedStep(t: real, w: real, s: real, dt: real, applied: real)
    requires Dilated(t, w, s) && dt >= 0.0 && MIN_SPEED_SCALE <= applied <= s
    ensures Dilated(t + dt * applied, w + dt, s)
  {
    Between(dt, applied, MIN_SPEED_SCALE, s);
    assert s * (w + dt) == s * w + s * dt;
  }

  lemma ClockStarts(a: Active, now: real, applied: real, s: real)
    requires !a.started
    ensures Clocked(a, now, applied) == a.(trajT := 0.0, lastNow := now, started := true) && Dilated(0.0, 0.0, s)
  {
  }

  lemma ClockSteps(c: Active, w: real, s: real, now: real, applied: real)
    requires c.started && Dilated(c.trajT, w, s) && MIN_SPEED_SCALE <= applied <= s
    ensures var n := Clocked(c, now, applied);
            n.started && n.lastNow == now && Dilated(n.trajT, w + Forward(now - c.lastNow), s)
  {
    DilatedStep(c.trajT, w, s, Forward(now - c.lastNow), applied);
  }

  lemma ScaleWithin(goal: Num, override: Num)
    requires ScaleOk(goal)
    ensures MIN_SPEED_SCALE <= EffectiveScale(goal, override) <= goal.v
  {
  }

  lemma WallOf(beats: seq<Beat>)
    ensures |beats| == 1 ==> Wall(beats) == 0.0
    ensures |beats| > 1 ==>
              Wall(beats) == Wall(beats[..|beats| - 1]) + Forward(beats[|beats| - 1].now - beats[|beats| - 2].now)
  {
  }

  /** The dilated clock: it never runs ahead of the goal's scale times the forward wall time,
    * and never behind MIN_SPEED_SCALE times it. */
  lemma {:induction false} ClockWithinWall(a: Active, scale: Num, beats: seq<Beat>)
    requires !a.started && ScaleOk(scale) && beats != []
    ensures var c := ClockOf(a, scale, beats);
            c.started && c.lastNow == beats[|beats| - 1].now && Dilated(c.trajT, Wall(beats), scale.v)
  {
    var front, b := beats[..|beats| - 1], beats[|beats| - 1];
    var applied := EffectiveScale(scale, b.override);
    WallOf(beats);
    if |beats| == 1 {
      ClockStarts(a, b.now, applied, scale.v);
    } else {
      ClockWithinWall(a, scale, front);
      ScaleWithin(scale, b.override);
      ClockSteps(ClockOf(a, scale, front), Wall(front), scale.v, b.now, applied);
    }
  }

  lemma ClockMoves(c: Active, now: real, applied: real)
    requires c.started && 0.0 <= applied <= 1.0
    ensures Clocked(c, now, applied).trajT >= c.trajT
  {
    Between(Forward(now - c.lastNow), applied, 0.0, 1.0);
  }

  /** It never goes back. */
  lemma ClockNeverGoesBack(a: Active, scale: Num, beats: seq<Beat>, b: Beat)
    requires !a.started && ScaleOk(scale) && beats != []
    ensures ClockOf(a, scale, beats).trajT <= ClockOf(a, scale, beats + [b]).trajT
  {
    hide EffectiveScale, Clocked;
    assert (beats + [b])[..|beats|] == beats;
    ClockWithinWall(a, scale, beats);
    ClockMoves(ClockOf(a, scale, beats), b.now, EffectiveScale(scale, b.override));
  }

  /** Every published reference is on the goal's own curve, at the goal's dilated clock, with
    * its rate in wall time. */
  lemma EveryReferenceOnCurve(m: Arm, e: Exec, beats: seq<Beat>, k: nat)
    requires ValidArm(m) && JustAdopted(e) && k < |beats| && Ticks(m, e, beats[..k]).active.Some?
    ensures var o, c := OutcomeAt(m, e, beats, k), ClockOf(e.active.value, e.scale, beats[..k + 1]);
            && Sorted(e.active.value.tr) && MIN_SPEED_SCALE <= o.applied <= e.scale.v
            && o.target == Published(e.active.value.tr, c.trajT, o.applied)
            && Dilated(c.trajT, Wall(beats[..k + 1]), e.scale.v)
  {
    StillTheGoal(m, e, beats[..k]);
    ClockAtTick(m, e, beats, k);
    ClockWithinWall(e.active.value, e.scale, beats[..k + 1]);
  }

  // ---- the end ------------------------------------------------------------------------------------

  /** At rest on the last waypoint. */
  predicate AtTheEnd(tr: Trajectory, target: Target) {
    && |tr.points| > 0 && |target.refs| == JOINTS
    && forall i :: 0 <= i < JOINTS ==> target.refs[i] == Ref(tr.points[|tr.points| - 1].q[i], 0.0, 0.0)
  }

  lemma PastTheEnd(tr: Trajectory, t: real, applied: real)
    requires ValidStamps(tr) && |tr.points| > 0 && Sorted(tr) && t >= Duration(tr)
    ensures AtTheEnd(tr, Published(tr, t, applied))
  {
    forall i | 0 <= i < JOINTS
      ensures Published(tr, t, applied).refs[i] == Ref(tr.points[|tr.points| - 1].q[i], 0.0, 0.0)
    {
      if |tr.points| > 1 { StampsGrow(tr, 0, |tr.points| - 1); }
      assert Sample(tr, i, t) == Ref(tr.points[|tr.points| - 1].q[i], 0.0, 0.0);
    }
  }

  /** The tick that completes a goal publishes the last waypoint, at rest. */
  lemma CompletionIsAtTheEnd(m: Arm, e: Exec, beats: seq<Beat>, k: nat)
    requires ValidArm(m) && JustAdopted(e) && k < |beats| && Ticks(m, e, beats[..k]).active.Some?
    requires OutcomeAt(m, e, beats, k).done
    ensures AtTheEnd(e.active.value.tr, OutcomeAt(m, e, beats, k).target)
  {
    StillTheGoal(m, e, beats[..k]);
    var o := OutcomeAt(m, e, beats, k);
    PastTheEnd(o.clock.tr, o.clock.trajT, o.applied);
  }

  /** Without a guard trip, once the forward wall time has come to duration / MIN_SPEED_SCALE
    * the goal has completed, with the last waypoint published at rest. */
  lemma {:induction false} GoalCompletes(m: Arm, e: Exec, beats: seq<Beat>) returns (k: nat)
    requires ValidArm(m) && JustAdopted(e) && beats != []
    requires ValidStamps(e.active.value.tr) && Sorted(e.active.value.tr)
    requires forall j :: 0 <= j < |beats| && Ticks(m, e, beats[..j]).active.Some? ==>
             !OutcomeAt(m, e, beats, j).violated
    requires MIN_SPEED_SCALE * Wall(beats) >= Duration(e.active.value.tr)
    ensures k < |beats| && Ticks(m, e, beats[..k]).active.Some? && OutcomeAt(m, e, beats, k).done
    ensures AtTheEnd(e.active.value.tr, OutcomeAt(m, e, beats, k).target)
    ensures Ticks(m, e, beats).active.None?
  {
    assert beats[..|beats|] == beats;
    if Ticks(m, e, beats[..|beats| - 1]).active.Some? {
      k := |beats| - 1;
      StillTheGoal(m, e, beats[..k]);
      ClockAtTick(m, e, beats, k);
      ClockWithinWall(e.active.value, e.scale, beats);
    } else {
      k := LastActive(m, e, beats, |beats| - 1);
    }
    CompletionIsAtTheEnd(m, e, beats, k);
  }

  /** The tick that ended the goal. */
  lemma {:induction false} LastActive(m: Arm, e: Exec, beats: seq<Beat>, n: nat) returns (k: nat)
    requires ValidArm(m) && JustAdopted(e) && n <= |beats| && Ticks(m, e, beats[..n]).active.None?
    requires forall j :: 0 <= j < |beats| && Ticks(m, e, beats[..j]).active.Some? ==>
             !OutcomeAt(m, e, beats, j).violated
    ensures k < n && Ticks(m, e, beats[..k]).active.Some? && OutcomeAt(m, e, beats, k).done
  {
    assert beats[..n][..n - 1] == beats[..n - 1];
    if Ticks(m, e, beats[..n - 1]).active.Some? {
      k := n - 1;
    } else {
      k := LastActive(m, e, beats, n - 1);
    }
  }

  /** An ended goal stays ended: nothing more is published for it. */
  lemma {:induction false} EndedStays(m: Arm, e: Exec, beats: seq<Beat>, more: seq<Beat>)
    requires ValidArm(m) && Valid(e) && Ticks(m, e, beats).active.None?
    ensures Ticks(m, e, beats + more).active.None?
  {
    if more == [] {
      assert beats + more == beats;
    } else {
      EndedStays(m, e, beats, more[..|more| - 1]);
      assert (beats + more)[..|beats + more| - 1] == beats + more[..|more| - 1];
    }
  }
}
