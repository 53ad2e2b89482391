/** compute of the three modes that follow a streamed command, as far as the reference: what
  * the watchdog's cycle makes of the latch, the target and the reference, in place. The
  * solves of a pose and of a twist are arguments.
  */
module StreamModes {
  import opened Basics
  import opened Circle
  import opened CommandWatchdog
  import opened PoseFault
  import P = PositionReference
  import V = VelocityReference

  /** JointPositionMode. */
  class JointPositionMode {
    const pi: real
    const joints: seq<P.Joint>
    const leash: real
    const wd: CommandWatchdog
    const qRef: array<real>
    var entryQ: Vec
    var source: Source
    var target: Vec             // the active slot of the joint target
    var last: Source
    var seed: Vec               // refined in place by the solve
    var badFor: real
    var faulted: bool
    var speed: real

    ghost predicate Valid()
      reads this
    {
      && pi > 0.0 && |joints| == JOINTS && qRef.Length == JOINTS && speed >= 0.0
      && forall i :: 0 <= i < JOINTS ==> P.ValidJoint(joints[i])
    }

    function View(): Ik
      reads this
    {
      Ik(last, seed, badFor, faulted)
    }

    constructor (pi: real, joints: seq<P.Joint>, leash: real, speed: real)
      requires pi > 0.0 && |joints| == JOINTS && speed >= 0.0
      requires forall i :: 0 <= i < JOINTS ==> P.ValidJoint(joints[i])
      ensures Valid() && fresh(wd) && fresh(qRef) && source.Entry? && View() == PoseFault.OnEnter(Zero())
      ensures this.pi == pi && this.joints == joints && this.leash == leash && this.speed == speed
    {
      this.pi, this.joints, this.leash, this.speed := pi, joints, leash, speed;
      wd := new CommandWatchdog();
      qRef := new real[JOINTS](_ => 0.0);
      entryQ, target, source := Zero(), Zero(), Entry;
      last, seed, badFor, faulted := Entry, Zero(), 0.0, false;
    }

    /** Hold where we are; drop any target from before, and any fault. */
    method OnEnter(q: Vec)
      requires Valid()
      modifies `entryQ, `source, `last, `seed, `badFor, `faulted, qRef, wd
      ensures Valid() && qRef[..] == q && entryQ == q && source.Entry? && View() == PoseFault.OnEnter(q)
      ensures wd.View() == ResetAt(wd.count) && wd.count == old(wd.count) && wd.timeout == old(wd.timeout)
    {
      entryQ, source := q, Entry;
      last, seed, badFor, faulted := Entry, q, 0.0, false;
      SetReference(q);
      wd.Reset();
    }

    method SetReference(q: Vec)
      requires Valid()
      modifies qRef
      ensures qRef[..] == q
    {
      for i := 0 to JOINTS
        invariant forall k :: 0 <= k < i ==> qRef[k] == q[k]
      {
        qRef[i] := q[i];
      }
    }

    function Next(i: nat, r: real, q: real, goal: real, dt: real): real
      requires i < JOINTS && |joints| == JOINTS && pi > 0.0 && P.ValidJoint(joints[i]) && speed >= 0.0 && dt >= 0.0
      reads this
    {
      P.StepJoint(pi, joints[i], leash, r, q, goal, Travel(speed, joints[i].maxSpeed, dt))
    }

    /** Where this cycle heads: frozen or faulted, the measurement. */
    function Goal(stale: bool, q: Vec): Vec
      reads this
    {
      if stale || (source.Pose? && faulted) then q
      else match source { case Joint => target case Pose => seed case Entry => entryQ }
    }

    /** A stale cycle restarts both reference and target from the measurement; a pose is
      * solved for, and its fault kept, as PoseFault says. */
    method Compute(q: Vec, dt: real, limit: real, solve: Vec -> Solve) returns (stale: bool)
      requires Valid() && dt >= 0.0
      modifies `last, `seed, `badFor, `faulted, wd, qRef
      ensures Valid()
      ensures wd.View() == Ticked(old(wd.View()), old(wd.count), dt) && stale == IsStale(wd.View(), old(wd.timeout))
      ensures View() == Computed(old(View()), Cycle(stale, source, old(qRef[..]), dt, limit, solve, false, false))
      ensures forall i :: 0 <= i < JOINTS ==>
                qRef[i] == Next(i, if stale then q[i] else old(qRef[i]), q[i], Goal(stale, q)[i], dt)
    {
      stale := wd.Tick(dt);
      if stale {
        SetReference(q);
        badFor := 0.0;
      } else if source.Pose? {
        SolvePose(dt, limit, solve);
      } else {
        last := source;
      }
      Follow(q, Goal(stale, q), dt);
    }

    /** The pose case of the switch. */
    method SolvePose(dt: real, limit: real, solve: Vec -> Solve)
      requires Valid()
      modifies `last, `seed, `badFor, `faulted
      ensures var a := Anchored(old(View()), qRef[..]); View() == Solved(a, solve(a.seed), limit, dt)
    {
      if !last.Pose? { seed, badFor, faulted := qRef[..], 0.0, false; }
      last := Pose;
      var s := solve(seed);
      seed := s.q;
      if s.converged {
        badFor := 0.0;
      } else if limit > 0.0 {
        badFor := badFor + dt;
        if badFor >= limit { faulted := true; }
      }
    }

    /** The loop over the joints. */
    method Follow(q: Vec, goal: Vec, dt: real)
      requires Valid() && dt >= 0.0
      modifies qRef
      ensures forall i :: 0 <= i < JOINTS ==>
                qRef[i] == Next(i, old(qRef[i]), q[i], goal[i], dt)
    {
      for i := 0 to JOINTS
        invariant forall k :: 0 <= k < i ==>
                    qRef[k] == Next(k, old(qRef[k]), q[k], goal[k], dt)
        invariant forall k :: i <= k < JOINTS ==> qRef[k] == old(qRef[k])
      {
        qRef[i] := FollowJoint(pi, joints[i], leash, qRef[i], q[i], goal[i], Travel(speed, joints[i].maxSpeed, dt));
      }
    }
  }

  /** What the rate limit lets a reference move in one cycle. */
  function Travel(speed: real, cap: real, dt: real): (t: real)
    requires speed >= 0.0 && cap >= 0.0 && dt >= 0.0
    ensures t >= 0.0
  {
    Rate(speed, cap) * dt
  }

  function Rate(speed: real, cap: real): (r: real)
    requires speed >= 0.0 && cap >= 0.0
    ensures r >= 0.0
  {
    speed * cap
  }

  /** The body of JointPositionMode's loop, in its order. */
  method FollowJoint(pi: real, j: P.Joint, leash: real, ref: real, q: real, target: real, travel: real)
      returns (r: real)
    requires pi > 0.0 && P.ValidJoint(j) && travel >= 0.0
    ensures r == P.StepJoint(pi, j, leash, ref, q, target, travel)
  {
    r := ref;
    var tgt := target;
    if P.Bounded(j) { tgt := Clamp(tgt, j.lower.value, j.upper.value); }
    var err := tgt - r;
    if j.continuous { err := WrapToPi(pi, err); }
    r := r + Clamp(err, -travel, travel);
    if leash > 0.0 {
      var lead := r - q;
      if j.continuous { lead := WrapToPi(pi, lead); }
      r := q + Clamp(lead, -leash, leash);
    }
    if j.continuous { r := WrapToPi(pi, r); }
    if P.Bounded(j) { r := Clamp(r, j.lower.value, j.upper.value); }
  }

  /** The rate limiter of JointImpedanceMode, folded on a continuous joint. */
  function Slewed(pi: real, continuous: bool, prev: real, next: real, travel: real): real
    requires pi > 0.0 && travel >= 0.0
  {
    var step := if continuous then Wrap(pi, next - prev) else next - prev;
    var r := prev + Clamp(step, -travel, travel);
    if continuous then Wrap(pi, r) else r
  }

  /** With nothing resolved the slew holds. */
  lemma SlewHolds(pi: real, continuous: bool, q: real, travel: real)
    requires pi > 0.0 && travel >= 0.0 && (continuous ==> OnCircle(pi, q))
    ensures Slewed(pi, continuous, q, q, travel) == q
  {
    WrapId(pi, 0.0);
    WrapId(pi, q);
  }

  /** The feedback as the transport reports it: wrapped on a continuous joint. */
  predicate Reported(pi: real, continuous: seq<bool>, q: Vec)
    requires |continuous| == JOINTS
  {
    forall i :: 0 <= i < JOINTS ==> continuous[i] ==> OnCircle(pi, q[i])
  }

  /** A joint target with the profile it may carry. */
  datatype JointTarget = JointTarget(q: Vec, qd: Option<Vec>, qdd: Option<Vec>)

  /** The rate to feed forward: the profile's, within what the rate limiter allows. */
  function FedRate(t: Option<JointTarget>, i: nat, speed: real, cap: real): real
    requires i < JOINTS && speed >= 0.0 && cap >= 0.0
  {
    if t.Some? && t.value.qd.Some? then Clamp(t.value.qd.value[i], -Rate(speed, cap), Rate(speed, cap)) else 0.0
  }

  /** JointImpedanceMode's reference. `resolved` is what the target resolves to: the joint
    * target, or what the IK solve makes of a pose, or nothing before the first target. */
  class JointImpedanceMode {
    const pi: real
    const continuous: seq<bool>
    const speedCap: Vec
    const wd: CommandWatchdog
    const qd: array<real>
    const qdRef: array<real>    // the rate fed forward
    var qddFf: Option<Vec>      // and the acceleration
    var frozen: bool
    var speed: real

    ghost predicate Valid()
      reads this, qd
    {
      && pi > 0.0 && |continuous| == JOINTS && speed >= 0.0
      && qd.Length == JOINTS && qdRef.Length == JOINTS && qd != qdRef
      && (forall i :: 0 <= i < JOINTS ==> speedCap[i] >= 0.0)
      && (forall i :: 0 <= i < JOINTS ==> continuous[i] ==> OnCircle(pi, qd[i]))
    }

    constructor (pi: real, continuous: seq<bool>, speedCap: Vec, speed: real)
      requires pi > 0.0 && |continuous| == JOINTS && speed >= 0.0
      requires forall i :: 0 <= i < JOINTS ==> speedCap[i] >= 0.0
      ensures Valid() && fresh(wd) && fresh(qd) && fresh(qdRef) && !frozen
    {
      this.pi, this.continuous, this.speedCap, this.speed := pi, continuous, speedCap, speed;
      wd := new CommandWatchdog();
      qd := new real[JOINTS](_ => 0.0);
      qdRef := new real[JOINTS](_ => 0.0);
      frozen, qddFf := false, None;
    }

    method Set(q: Vec)
      requires qd.Length == JOINTS
      modifies qd
      ensures qd[..] == q
    {
      for i := 0 to JOINTS
        invariant forall k :: 0 <= k < i ==> qd[k] == q[k]
      {
        qd[i] := q[i];
      }
    }

    /** The watchdog's part of compute: the latch, and the freeze at the measurement. */
    method Watch(q: Vec, dt: real) returns (stale: bool)
      requires Valid() && Reported(pi, continuous, q)
      modifies `frozen, wd, qd
      ensures Valid()
      ensures wd.View() == Ticked(old(wd.View()), old(wd.count), dt) && stale == IsStale(wd.View(), old(wd.timeout))
      ensures frozen == Latch(old(frozen), wd.View(), stale)
      ensures qd[..] == if stale then q else old(qd[..])
    {
      stale := wd.Tick(dt);
      if wd.isNew { frozen := false; }
      if stale {
        frozen := true;
        Set(q);
      }
    }

    /** Frozen, the reference is held exactly and nothing is fed forward; otherwise it is slewed
      * towards what the target resolves to. */
    method Reference(q: Vec, dt: real, resolved: Option<JointTarget>) returns (stale: bool)
      requires Valid() && dt >= 0.0 && Reported(pi, continuous, q)
      modifies `frozen, `qddFf, wd, qd, qdRef
      ensures Valid()
      ensures wd.View() == Ticked(old(wd.View()), old(wd.count), dt) && stale == IsStale(wd.View(), old(wd.timeout))
      ensures frozen == Latch(old(frozen), wd.View(), stale)
      ensures frozen ==> qd[..] == if stale then q else old(qd[..])
      ensures !frozen ==> forall i :: 0 <= i < JOINTS ==>
                qd[i] == Slewed(pi, continuous[i], old(qd[i]),
                                   if resolved.Some? then resolved.value.q[i] else old(qd[i]),
                                   Travel(speed, speedCap[i], dt))
      ensures var t := if frozen then None else resolved;
              && (forall i :: 0 <= i < JOINTS ==> qdRef[i] == FedRate(t, i, speed, speedCap[i]))
              && qddFf == if t.Some? && t.value.qd.Some? then t.value.qdd else None
    {
      stale := Watch(q, dt);
      ghost var prev := qd[..];
      if !frozen && resolved.Some? {
        Slew(resolved.value.q, dt);
      } else {
        Slew(qd[..], dt);
        forall i | 0 <= i < JOINTS ensures qd[i] == prev[i] {
          SlewHolds(pi, continuous[i], prev[i], Travel(speed, speedCap[i], dt));
        }
      }
      FeedForward(if frozen then None else resolved);
    }

    method FeedForward(t: Option<JointTarget>)
      requires Valid()
      modifies `qddFf, qdRef
      ensures forall i :: 0 <= i < JOINTS ==> qdRef[i] == FedRate(t, i, speed, speedCap[i])
      ensures qddFf == if t.Some? && t.value.qd.Some? then t.value.qdd else None
    {
      var profiled := t.Some? && t.value.qd.Some?;
      qddFf := if profiled then t.value.qdd else None;
      for i := 0 to JOINTS
        invariant qddFf == if profiled then t.value.qdd else None
        invariant forall k :: 0 <= k < i ==> qdRef[k] == FedRate(t, k, speed, speedCap[k])
      {
        var cap := Rate(speed, speedCap[i]);
        qdRef[i] := if profiled then Clamp(t.value.qd.value[i], -cap, cap) else 0.0;
      }
    }

    /** The rate limiter and the wrap. */
    method Slew(next: Vec, dt: real)
      requires Valid() && dt >= 0.0
      modifies qd
      ensures Valid()
      ensures forall i :: 0 <= i < JOINTS ==>
                qd[i] == Slewed(pi, continuous[i], old(qd[i]), next[i], Travel(speed, speedCap[i], dt))
    {
      for i := 0 to JOINTS
        invariant forall k :: 0 <= k < i ==>
                    qd[k] == Slewed(pi, continuous[k], old(qd[k]), next[k], Travel(speed, speedCap[k], dt))
        invariant forall k :: i <= k < JOINTS ==> qd[k] == old(qd[k])
      {
        qd[i] := SlewJoint(pi, continuous[i], qd[i], next[i], Travel(speed, speedCap[i], dt));
      }
    }
  }

  method SlewJoint(pi: real, continuous: bool, prev: real, next: real, travel: real) returns (r: real)
    requires pi > 0.0 && travel >= 0.0
    ensures r == Slewed(pi, continuous, prev, next, travel)
  {
    var step := next - prev;
    if continuous { step := WrapToPi(pi, step); }
    r := prev + Clamp(step, -travel, travel);
    if continuous { r := WrapToPi(pi, r); }
  }

  /** Before its re-wrap a slewed reference has moved by at most its travel, the short way. */
  lemma SlewIsShort(pi: real, prev: real, next: real, travel: real)
    requires pi > 0.0 && travel >= 0.0 && OnCircle(pi, prev)
    ensures Abs(Wrap(pi, Slewed(pi, true, prev, next, travel) - prev)) <= travel
    ensures Abs(Wrap(pi, next - prev)) <= travel ==> Same(pi, Slewed(pi, true, prev, next, travel), next)
  {
    var step := Wrap(pi, next - prev);
    var c := Clamp(step, -travel, travel);
    SameSelf(pi, prev + c);
    SameSub(pi, Wrap(pi, prev + c), prev + c, prev, prev);
    assert (prev + c) - prev == c;
    WrapIsShortest(pi, c, 0);
    assert Turns(pi, 0) == 0.0;
    SameSelf(pi, next - prev);
    SameAdd(pi, step, next - prev, prev, prev);
    assert (next - prev) + prev == next;
  }

  datatype VelocitySource = NoTarget | JointRates | Twist

  type Vec6 = v: seq<real> | |v| == 6 witness seq(6, _ => 0.0)

  /** JointVelocityMode. */
  class JointVelocityMode {
    const pi: real
    const spans: seq<V.Span>
    const vMax: Vec
    const wd: CommandWatchdog
    const qRef: array<real>
    const qdCmd: array<real>
    var frozen: bool
    var speed: real
    var source: VelocitySource
    var ratesSlot: Vec          // the active slots
    var twistSlot: Vec6
    var qdTarget: Vec
    var twistTarget: Vec6

    ghost predicate Valid()
      reads this
    {
      && pi > 0.0 && |spans| == JOINTS && qRef.Length == JOINTS && qdCmd.Length == JOINTS && qRef != qdCmd
      && V.Caps(vMax) && 0.0 <= speed <= 1.0
    }

    constructor (pi: real, spans: seq<V.Span>, vMax: Vec, speed: real)
      requires pi > 0.0 && |spans| == JOINTS && V.Caps(vMax) && 0.0 <= speed <= 1.0
      ensures Valid() && fresh(wd) && fresh(qRef) && fresh(qdCmd) && !frozen && source.NoTarget?
    {
      this.pi, this.spans, this.vMax, this.speed := pi, spans, vMax, speed;
      wd := new CommandWatchdog();
      qRef := new real[JOINTS](_ => 0.0);
      qdCmd := new real[JOINTS](_ => 0.0);
      frozen, source, ratesSlot, qdTarget := false, NoTarget, Zero(), Zero();
      twistSlot, twistTarget := seq(6, _ => 0.0), seq(6, _ => 0.0);
    }

    method Set(a: array<real>, q: Vec)
      requires a.Length == JOINTS
      modifies a
      ensures a[..] == q
    {
      for i := 0 to JOINTS
        invariant forall k :: 0 <= k < i ==> a[k] == q[k]
      {
        a[i] := q[i];
      }
    }

    method Watch(dt: real)
      requires Valid()
      modifies `frozen, wd
      ensures wd.View() == Ticked(old(wd.View()), old(wd.count), dt)
      ensures frozen == Latch(old(frozen), wd.View(), IsStale(wd.View(), old(wd.timeout)))
    {
      var stale := wd.Tick(dt);
      if stale {
        frozen := true;
      } else if wd.isNew {
        frozen := false;
      }
    }

    /** The capped command, slowed: never over its share of any cap. */
    method Command(wanted: Vec)
      requires Valid()
      modifies qdCmd
      ensures forall i :: 0 <= i < JOINTS ==>
                qdCmd[i] == V.Scaled(V.Scaled(wanted[i], V.ScaleOf(vMax, wanted, JOINTS)), speed)
      ensures forall i :: 0 <= i < JOINTS ==> Abs(qdCmd[i]) <= vMax[i]
    {
      Set(qdCmd, wanted);
      V.LimitJointVelocity(vMax, qdCmd);
      ghost var limited: Vec := qdCmd[..];
      V.ScaleAll(qdCmd, speed);
      forall i | 0 <= i < JOINTS
        ensures qdCmd[i] == V.Scaled(V.Scaled(wanted[i], V.ScaleOf(vMax, wanted, JOINTS)), speed)
                && Abs(qdCmd[i]) <= vMax[i]
      {
        assert limited[i] == V.Scaled(wanted[i], V.ScaleOf(vMax, wanted, JOINTS)) && Abs(limited[i]) <= vMax[i];
        assert qdCmd[i] == V.Scaled(limited[i], speed);
        V.SmallerMeets(vMax[i], limited[i], speed, 1.0);
      }
    }

    /** What the source asks for, from the targets adopted. */
    function Wanted(solve: Vec6 -> Vec): Vec
      reads this
    {
      if source.Twist? then solve(twistTarget) else qdTarget
    }

    /** compute: frozen, the reference starts from the measurement and the velocity is zero;
      * a payload is adopted on a fresh cycle only, and by the source it belongs to. */
    method Compute(q: Vec, dt: real, leash: real, solve: Vec6 -> Vec)
      requires Valid() && leash >= 0.0
      modifies `frozen, `qdTarget, `twistTarget, wd, qRef, qdCmd
      ensures Valid()
      ensures wd.View() == Ticked(old(wd.View()), old(wd.count), dt)
      ensures frozen == Latch(old(frozen), wd.View(), IsStale(wd.View(), old(wd.timeout)))
      ensures qdTarget == if !frozen && source.JointRates? && wd.isNew then ratesSlot else old(qdTarget)
      ensures twistTarget == if !frozen && source.Twist? && wd.isNew then twistSlot else old(twistTarget)
      ensures frozen || source.NoTarget? ==> qdCmd[..] == Zero()
      ensures !frozen && !source.NoTarget? ==>
                var w := Wanted(solve);
                forall i :: 0 <= i < JOINTS ==>
                  qdCmd[i] == V.Scaled(V.Scaled(w[i], V.ScaleOf(vMax, w, JOINTS)), speed)
      ensures forall i :: 0 <= i < JOINTS ==> Abs(qdCmd[i]) <= vMax[i]
      ensures forall i :: 0 <= i < JOINTS ==>
                qRef[i] == V.Moved(pi, spans[i], leash, if frozen then q[i] else old(qRef[i]), qdCmd[i], dt, q[i])
    {
      Watch(dt);
      if frozen || source.NoTarget? {
        Set(qdCmd, Zero());
        if frozen { Set(qRef, q); }
      } else {
        if wd.isNew {
          if source.JointRates? { qdTarget := ratesSlot; } else { twistTarget := twistSlot; }
        }
        Command(Wanted(solve));
      }
      V.IntegrateLeashedReference(pi, qRef, qdCmd[..], dt, q, leash, spans);
    }
  }

  /** A frozen cycle commands the measurement itself, as far as the limits allow. */
  lemma FrozenTracksMeasured(pi: real, s: V.Span, leash: real, q: real, dt: real)
    requires pi > 0.0 && leash >= 0.0 && (s.Continuous() ==> OnCircle(pi, q))
    ensures V.Moved(pi, s, leash, q, 0.0, dt, q) == V.Within(s, q)
  {
    WrapId(pi, 0.0);
    WrapId(pi, q);
  }
}
