/** The trajectory executor: submission, and a tick that runs the goal's clock at the slower
  * of the goal's scale and the override, publishes the reference and guards the path.
  */
module TrajectoryExecutor {
  import opened Basics
  import opened Circle
  import opened Hermite
  import opened Trajectory
  import opened CommandQueue
  import S = Supervision

  const MIN_SPEED_SCALE: real := 0.01
  const SCALE_SLEW_PER_SEC: real := 2.0

  /** effective_scale: a non-finite request is no request. */
  function EffectiveScale(goal: Num, override: Num): (s: real)
    ensures MIN_SPEED_SCALE <= s <= 1.0
    ensures goal.Finite? && MIN_SPEED_SCALE <= goal.v ==> s <= goal.v
    ensures override.Finite? && MIN_SPEED_SCALE <= override.v ==> s <= override.v
    ensures goal.Finite? && override.Finite? && MIN_SPEED_SCALE <= goal.v <= 1.0 &&
            MIN_SPEED_SCALE <= override.v <= 1.0 ==>
              s == Min(goal.v, override.v)
  {
    var g := if goal.Finite? then goal.v else 1.0;
    var o := if override.Finite? then override.v else 1.0;
    var s := if g < o then g else o;
    if s > 1.0 then 1.0 else if s < MIN_SPEED_SCALE then MIN_SPEED_SCALE else s
  }

  function Forward(dt: real): real { if dt > 0.0 then dt else 0.0 }

  /** slew_scale. */
  function SlewScale(cur: real, target: real, dt: real): real {
    var step := SCALE_SLEW_PER_SEC * Forward(dt);
    if target > cur + step then cur + step else if target < cur - step then cur - step else target
  }

  function Slewed(cur: real, target: real, dts: seq<real>): real {
    if dts == [] then cur else SlewScale(Slewed(cur, target, dts[..|dts| - 1]), target, dts[|dts| - 1])
  }

  function ForwardTime(dts: seq<real>): real {
    if dts == [] then 0.0 else ForwardTime(dts[..|dts| - 1]) + Forward(dts[|dts| - 1])
  }

  /** Towards a fixed target the scale closes the gap at exactly the slew rate of forward
    * time, never overshoots, and a clock that stalls or steps back moves nothing. */
  lemma {:induction false} SlewClosesGap(cur: real, target: real, dts: seq<real>)
    ensures Abs(Slewed(cur, target, dts) - target) ==
            Max(0.0, Abs(cur - target) - SCALE_SLEW_PER_SEC * ForwardTime(dts))
    ensures if cur <= target then cur <= Slewed(cur, target, dts) <= target
            else target <= Slewed(cur, target, dts) <= cur
  {
    if dts != [] {
      SlewClosesGap(cur, target, dts[..|dts| - 1]);
      SlewOnce(cur, target, Slewed(cur, target, dts[..|dts| - 1]), dts[|dts| - 1], ForwardTime(dts[..|dts| - 1]));
    }
  }

  lemma SlewOnce(cur: real, target: real, now: real, dt: real, t: real)
    requires if cur <= target then cur <= now <= target else target <= now <= cur
    requires Abs(now - target) == Max(0.0, Abs(cur - target) - SCALE_SLEW_PER_SEC * t)
    ensures var next := SlewScale(now, target, dt);
            && Abs(next - target) == Max(0.0, Abs(cur - target) - SCALE_SLEW_PER_SEC * (t + Forward(dt)))
            && (if cur <= target then now <= next <= target else target <= next <= now)
  {
  }

  // ---- the executor's state --------------------------------------------------------------------

  datatype Active = Active(tr: Trajectory, trajT: real, lastNow: real, started: bool)

  datatype Exec = Exec(active: Option<Active>, mode: ModeKind, pathTol: Vec, scale: Num, applied: real)

  datatype Target = Target(refs: seq<Ref>, hasVelocity: bool, hasAcceleration: bool)

  datatype Status = Status(active: bool, completed: bool, fraction: real, violated: bool)

  /** What the executor keeps: the active goal passed every check of submit. */
  predicate Valid(e: Exec) {
    e.active.Some? ==>
      && ValidStamps(e.active.value.tr) && |e.active.value.tr.points| > 0
      && e.scale.Finite? && MIN_SPEED_SCALE <= e.scale.v <= 1.0
      && (!e.active.value.started ==> e.active.value.trajT == 0.0) && e.active.value.trajT >= 0.0
  }

  predicate ScaleOk(scale: Num) { scale.Finite? && MIN_SPEED_SCALE <= scale.v <= 1.0 }

  /** submit's verdict is the one the supervisor's machine takes. */
  function Verdict(e: Exec, tr: Trajectory, mode: ModeKind, queue: bool, scale: Num): S.SubmitResult {
    S.SubmitVerdict(e.active.Some?, e.mode, Goal(mode, queue, true, ValidStamps(tr), tr.points == [], ScaleOk(scale)))
  }

  /** An adopted goal starts its clock at zero; a refused one changes nothing. */
  function Submitted(e: Exec, tr: Trajectory, mode: ModeKind, queue: bool, tol: Vec, scale: Num): Exec {
    if Verdict(e, tr, mode, queue, scale) != S.SubmitResult.Accepted then e
    else Exec(Some(Active(tr, 0.0, 0.0, false)), mode, tol, scale, e.applied)
  }

  /** The goal's clock after a tick at `now`. */
  function Clocked(a: Active, now: real, applied: real): Active {
    var last := if a.started then a.lastNow else now;
    a.(trajT := (if a.started then a.trajT else 0.0) + Forward(now - last) * applied, lastNow := now, started := true)
  }

  /** The reference in wall time: the clock runs at `applied`. */
  function Published(tr: Trajectory, t: real, applied: real): Target
    requires Sorted(tr)
  {
    Target(seq(JOINTS, i requires 0 <= i < JOINTS =>
                 var r := Sample(tr, i, t);
                 Ref(r.q, r.qd * applied, r.qdd * (applied * applied))),
           tr.hasVelocities, tr.hasVelocities && tr.hasAccelerations)
  }

  predicate Diverged(pi: real, continuous: seq<bool>, tol: Vec, q: Vec, target: Target, i: nat)
    requires pi > 0.0 && |continuous| == JOINTS && |target.refs| == JOINTS && i < JOINTS
  {
    var err := q[i] - target.refs[i].q;
    tol[i] > 0.0 && Abs(if continuous[i] then Wrap(pi, err) else err) > tol[i]
  }

  predicate Trips(pi: real, continuous: seq<bool>, tol: Vec, q: Vec, target: Target)
    requires pi > 0.0 && |continuous| == JOINTS && |target.refs| == JOINTS
  {
    exists i :: 0 <= i < JOINTS && Diverged(pi, continuous, tol, q, target, i)
  }

  /** A tick of an active goal: the clock, the target, and whether the goal goes on. */
  datatype Outcome = Outcome(clock: Active, applied: real, target: Target, violated: bool, done: bool)

  function Ticked(pi: real, continuous: seq<bool>, e: Exec, now: real, q: Vec, override: Num): (o: Outcome)
    requires pi > 0.0 && |continuous| == JOINTS && Valid(e) && e.active.Some?
    ensures Sorted(e.active.value.tr) && o.clock.tr == e.active.value.tr
  {
    ValidIsSorted(e.active.value.tr);
    var applied := EffectiveScale(e.scale, override);
    var a := Clocked(e.active.value, now, applied);
    var target := Published(a.tr, a.trajT, applied);
    var violated := Trips(pi, continuous, e.pathTol, q, target);
    Outcome(a, applied, target, violated, !violated && a.trajT >= Duration(a.tr))
  }

  function AfterTick(pi: real, continuous: seq<bool>, e: Exec, now: real, q: Vec, override: Num): Exec
    requires pi > 0.0 && |continuous| == JOINTS && Valid(e)
  {
    if e.active.None? then e
    else
      var o := Ticked(pi, continuous, e, now, q, override);
      e.(active := if o.violated || o.done then None else Some(o.clock), applied := o.applied)
  }

  lemma ClockForward(a: Active, now: real, applied: real)
    requires MIN_SPEED_SCALE <= applied && a.trajT >= 0.0
    ensures Clocked(a, now, applied).trajT >= 0.0
    ensures a.started ==> Clocked(a, now, applied).trajT >= a.trajT
  {
  }

  lemma TickKeepsValid(pi: real, continuous: seq<bool>, e: Exec, now: real, q: Vec, override: Num)
    requires pi > 0.0 && |continuous| == JOINTS && Valid(e)
    ensures Valid(AfterTick(pi, continuous, e, now, q, override))
  {
    if e.active.Some? {
      ClockForward(e.active.value, now, EffectiveScale(e.scale, override));
    }
  }

  class Executor {
    const pi: real
    const continuous: seq<bool>
    var active: Option<Active>
    var mode: ModeKind
    var pathTol: Vec
    var scale: Num
    var applied: real
    var sink: Option<Target>     // what set_joint_target was last given

    function View(): Exec
      reads this
    {
      Exec(active, mode, pathTol, scale, applied)
    }

    ghost predicate Ready()
      reads this
    {
      pi > 0.0 && |continuous| == JOINTS && Valid(View())
    }

    constructor (pi: real, continuous: seq<bool>)
      requires pi > 0.0 && |continuous| == JOINTS
      ensures Ready() && active.None? && this.pi == pi && this.continuous == continuous && sink.None?
    {
      this.pi, this.continuous := pi, continuous;
      active, mode, pathTol, scale, applied, sink := None, Position, Zero(), Finite(1.0), 1.0, None;
    }

    method Submit(tr: Trajectory, mode: ModeKind, queue: bool, tol: Vec, scale: Num) returns (r: S.SubmitResult)
      requires Ready()
      modifies `active, `mode, `pathTol, `scale
      ensures Ready()
      ensures r == Verdict(old(View()), tr, mode, queue, scale)
      ensures View() == Submitted(old(View()), tr, mode, queue, tol, scale)
    {
      if tr.points == [] { return S.RejectedEmpty; }
      var ok := ValidTimestamps(tr);
      if !ok { return S.RejectedBadTimestamps; }
      if !(scale.Finite? && scale.v >= MIN_SPEED_SCALE && scale.v <= 1.0) { return S.RejectedSpeedScale; }
      if active.Some? && mode != this.mode { return S.RejectedModeChangeWhileMoving; }
      if active.None? {
        this.mode := mode;
      } else if queue {
        return S.RejectedQueueWhileActive;
      }
      active := Some(Active(tr, 0.0, 0.0, false));
      pathTol, this.scale := tol, scale;
      return S.SubmitResult.Accepted;
    }

    method Guard(target: Target, q: Vec) returns (trips: bool)
      requires Ready() && |target.refs| == JOINTS
      ensures trips == Trips(pi, continuous, pathTol, q, target)
    {
      for i := 0 to JOINTS
        invariant forall k :: 0 <= k < i ==> !Diverged(pi, continuous, pathTol, q, target, k)
      {
        var err := q[i] - target.refs[i].q;
        if continuous[i] { err := WrapToPi(pi, err); }
        if pathTol[i] > 0.0 && Abs(err) > pathTol[i] {
          assert Diverged(pi, continuous, pathTol, q, target, i);
          return true;
        }
      }
      return false;
    }

    /** The tick's first half: the clock runs and the reference goes out. */
    method Advance(now: real, override: Num) returns (target: Target)
      requires Ready() && active.Some?
      modifies `active, `applied, `sink
      ensures Ready() && active.Some? && mode == old(mode) && pathTol == old(pathTol) && scale == old(scale)
      ensures applied == EffectiveScale(scale, override)
      ensures active.value == Clocked(old(active.value), now, applied)
      ensures Sorted(active.value.tr) && sink == Some(target)
              && target == Published(active.value.tr, active.value.trajT, applied)
    {
      ClockForward(active.value, now, EffectiveScale(scale, override));
      ValidIsSorted(active.value.tr);
      var a := active.value;
      if !a.started {
        a := a.(lastNow := now, trajT := 0.0, started := true);
      }
      var dtWall := now - a.lastNow;
      a := a.(lastNow := now);
      applied := EffectiveScale(scale, override);
      if dtWall > 0.0 { a := a.(trajT := a.trajT + dtWall * applied); }
      active := Some(a);
      target := Published(a.tr, a.trajT, applied);
      sink := Some(target);
    }

    function Fraction(elapsed: real, dur: real): (f: real)
      ensures 0.0 <= f <= 1.0
    {
      if dur > 0.0 then Min(1.0, Max(0.0, elapsed / dur)) else 1.0
    }

    method Tick(now: real, q: Vec, override: Num) returns (status: Status)
      requires Ready()
      modifies `active, `applied, `sink
      ensures Ready() && View() == AfterTick(pi, continuous, old(View()), now, q, override)
      ensures old(active).None? ==> sink == old(sink) && status == Status(false, false, 0.0, false)
      ensures old(active).Some? ==>
                var o := Ticked(pi, continuous, old(View()), now, q, override);
                && sink == Some(o.target)
                && status.violated == o.violated && status.completed == (o.violated || o.done)
                && status.active == !status.completed && 0.0 <= status.fraction <= 1.0
                && (o.done ==> status.fraction == 1.0)
    {
      if active.None? { return Status(false, false, 0.0, false); }
      var target := Advance(now, override);
      var elapsed, dur := active.value.trajT, Duration(active.value.tr);
      var frac := Fraction(elapsed, dur);
      var trips := Guard(target, q);
      if trips {
        active := None;
        return Status(false, true, frac, true);
      }
      if elapsed >= dur {
        active := None;
        return Status(false, true, 1.0, false);
      }
      return Status(true, false, frac, false);
    }
  }
}
