/** The guarantees, for every run from the initial state, any number of backend
  * threads, any interleaving and any outcome of the checks left open.
  */
module SupervisionTheorems {
  import opened Basics
  import opened CommandQueue
  import opened Supervision
  import opened SupervisionLocks
  import opened SupervisionStops
  import opened SupervisionGoals

  predicate Inv(s: State) {
    Locked(s) && StopInv(s) && RevokeInv(s) && LinkInv(s) && ContactInv(s) && GoalInv(s)
  }

  lemma InvStep(s: State, a: Action)
    requires Inv(s)
    ensures Inv(Next(s, a))
  {
    LocksKept(s, a);
    StopKept(s, a);
    RevokeKept(s, a);
    LinkKept(s, a);
    ContactKept(s, a);
    GoalsKept(s, a);
  }

  lemma {:induction false} InvRun(s: State, acts: seq<Action>)
    requires Inv(s)
    ensures Inv(Run(s, acts))
    decreases |acts|
  {
    if acts != [] {
      InvStep(s, acts[0]);
      InvRun(Next(s, acts[0]), acts[1..]);
    }
  }

  lemma InvAlways(enabled: bool, threads: nat, acts: seq<Action>)
    ensures Inv(Run(Init(enabled, threads), acts))
  {
    var s := Init(enabled, threads);
    assert GoalIds(s.sup.inbox) == [];
    assert UpTo(0) == multiset{};
    InvRun(s, acts);
  }

  // ---- settle exactly once ------------------------------------------------------

  /** Every accepted goal is in exactly one place, and settled at most once. */
  lemma SettledOnce(enabled: bool, threads: nat, acts: seq<Action>, id: nat)
    ensures var s := Run(Init(enabled, threads), acts);
      multiset(GoalIds(s.sup.inbox))[id] + InHand(s.smp.pc)[id] + ActiveIds(s.smp)[id] + s.hist.settled[id]
      == if id < s.hist.accepted then 1 else 0
  {
    InvAlways(enabled, threads, acts);
    var s := Run(Init(enabled, threads), acts);
    UpToCounts(s.hist.accepted, id);
    var all := multiset(GoalIds(s.sup.inbox)) + InHand(s.smp.pc) + ActiveIds(s.smp) + s.hist.settled;
    assert all[id] == UpTo(s.hist.accepted)[id];
  }

  /** The executor's own queue, mode and timestamp refusals never fire from the sampler. */
  lemma SubmitRefusals(enabled: bool, threads: nat, acts: seq<Action>)
    ensures var s := Run(Init(enabled, threads), acts);
      && (s.smp.active.Some? <==> s.smp.execActive)
      && (s.smp.pc.Submit? ==>
            SubmitVerdict(s.smp.execActive, s.smp.execMode, s.smp.pc.goal)
            in {SubmitResult.Accepted, RejectedEmpty, RejectedSpeedScale})
  {
    InvAlways(enabled, threads, acts);
  }

  // ---- a halt outruns all but one tick ----------------------------------------------

  predicate TicksAt(s: State, a: Action) { a.Sample? && s.smp.pc.Tick? && s.smp.active.Some? }

  /** How often a goal accepted before number `n` is ticked along a run. */
  function OldTicks(s: State, acts: seq<Action>, n: nat): nat
    decreases |acts|
  {
    if acts == [] then 0
    else (if TicksAt(s, acts[0]) && s.smp.active.value < n then 1 else 0) + OldTicks(Next(s, acts[0]), acts[1..], n)
  }

  /** How often any goal is ticked along a run. */
  function Ticks(s: State, acts: seq<Action>): nat
    decreases |acts|
  {
    if acts == [] then 0
    else (if TicksAt(s, acts[0]) then 1 else 0) + Ticks(Next(s, acts[0]), acts[1..])
  }

  /** A halt that covers the first `n` goals is pending or has been taken. */
  predicate Covered(s: State, n: nat) {
    s.hist.doomed >= n && (s.hist.outrun >= n || s.sup.haltPending)
  }
  function Budget(s: State, n: nat): int {
    if s.hist.outrun >= n then 0 else 1 - s.hist.ticks
  }

  lemma CoveredQueue(s: State, n: State, r: HaltReason, e: Inbound, k: nat)
    requires GoalInv(s) && Covered(s, k) && QueueStep(s, n, r, e)
    ensures Covered(n, k) && Budget(n, k) <= Budget(s, k)
  {
  }

  /** Popping and running goals only ever add a tick to the halt bookkeeping. */
  predicate SameHalts(s: State, n: State, ticks: nat) {
    && n.hist.doomed == s.hist.doomed && n.hist.outrun == s.hist.outrun
    && n.sup.haltPending == s.sup.haltPending && n.hist.ticks == s.hist.ticks + ticks
  }

  lemma DrainHalts(s: State, pick: bool)
    ensures SameHalts(s, DrainStep(s, pick), 0)
  {
  }

  lemma GoalHalts(s: State, pick: bool)
    ensures SameHalts(s, GoalStep(s, pick), if s.smp.pc.Tick? && s.smp.execActive then 1 else 0)
  {
  }

  lemma TakeHalts(s: State)
    ensures TakeStep(s).hist.doomed == s.hist.doomed && TakeStep(s).hist.ticks == s.hist.ticks
    ensures if s.smp.pc.Take? && s.locks.q.None? && s.sup.haltPending
            then TakeStep(s).hist.outrun == s.hist.doomed
            else TakeStep(s).hist.outrun == s.hist.outrun && TakeStep(s).sup.haltPending == s.sup.haltPending
  {
  }

  lemma CoveredSampler(s: State, pick: bool, n: nat)
    requires GoalInv(s) && Covered(s, n)
    ensures Covered(SamplerMove(s, pick), n)
    ensures Budget(SamplerMove(s, pick), n)
            + (if TicksAt(s, Sample(pick)) && s.smp.active.value < n then 1 else 0) <= Budget(s, n)
  {
    var u := SamplerMove(s, pick);
    match PhaseOf(s.smp.pc)
    case Edging => EdgeQueue(s); CoveredQueue(s, u, Contact, Cancel, n);
    case Stopping => TakeHalts(s); CoveredTake(s, u, n);
    case Draining => DrainHalts(s, pick); CoveredSame(s, u, 0, n);
    case Running => GoalHalts(s, pick); CoveredSame(s, u, if s.smp.pc.Tick? && s.smp.execActive then 1 else 0, n);
  }

  lemma CoveredTake(s: State, u: State, n: nat)
    requires GoalInv(s) && Covered(s, n)
    requires u.hist.doomed == s.hist.doomed && u.hist.ticks == s.hist.ticks
    requires u.hist.outrun == s.hist.doomed
             || (u.hist.outrun == s.hist.outrun && u.sup.haltPending == s.sup.haltPending)
    ensures Covered(u, n) && Budget(u, n) <= Budget(s, n)
  {
  }

  /** The tick of an old goal spends the one tick its halt leaves it. */
  lemma CoveredSame(s: State, u: State, ticks: nat, n: nat)
    requires GoalInv(s) && Covered(s, n) && SameHalts(s, u, ticks)
    requires s.smp.pc.Tick? && s.smp.execActive <==> ticks == 1
    ensures Covered(u, n)
    ensures Budget(u, n) + (if ticks == 1 && s.smp.active.value < n then 1 else 0) <= Budget(s, n)
  {
  }

  lemma CoveredStep(s: State, a: Action, n: nat)
    requires GoalInv(s) && Covered(s, n)
    ensures Covered(Next(s, a), n)
    ensures Budget(Next(s, a), n) + (if TicksAt(s, a) && s.smp.active.value < n then 1 else 0) <= Budget(s, n)
  {
    var u := Next(s, a);
    match a
    case Enter(t, op) => if t < |s.pcs| { BeginUntouched(s, t, op); CoveredQueue(s, u, Contact, Cancel, n); }
    case Move(t, pick) =>
      if t < |s.pcs| {
        BackendQueue(s, t, pick);
        CoveredQueue(s, u, HaltWhy(s.pcs[t]), Offered(s, s.pcs[t]), n);
      }
    case Sample(pick) => CoveredSampler(s, pick, n);
    case _ => OutsideQueue(s, a); CoveredQueue(s, u, ArmUnavailable, Cancel, n);
  }

  lemma {:induction false} OldTicksBounded(s: State, acts: seq<Action>, n: nat)
    requires Inv(s) && Covered(s, n)
    ensures OldTicks(s, acts, n) <= Budget(s, n) <= 1
    decreases |acts|
  {
    if acts != [] {
      InvStep(s, acts[0]);
      CoveredStep(s, acts[0], n);
      OldTicksBounded(Next(s, acts[0]), acts[1..], n);
    }
  }

  /** The step with which an on_halt takes effect on the queue. */
  predicate HaltLands(s: State, a: Action) {
    && s.locks.q.None?
    && ((a.Move? && a.t < |s.pcs| && s.pcs[a.t].Halting? && s.pcs[a.t].closed)
        || (a.Sample? && s.smp.pc.EdgeMarking?)
        || (a.LinkStep? && s.link.DropMarking?))
  }

  lemma HaltLandsMarks(s: State, a: Action)
    requires HaltLands(s, a)
    ensures exists r: HaltReason :: Marked(s, Next(s, a), r)
  {
    if a.Move? {
      var pc := s.pcs[a.t];
      HaltQueue(s, a.t, true, pc.why, pc.after);
      assert Marked(s, Next(s, a), pc.why);
    } else if a.Sample? {
      EdgeQueue(s);
      assert Marked(s, Next(s, a), Contact);
    } else {
      OutsideQueue(s, a);
      assert Marked(s, Next(s, a), ArmUnavailable);
    }
  }

  /** However a run continues after an on_halt, the goals accepted before it are ticked
    * once more at most. */
  lemma HaltOutrunsGoals(enabled: bool, threads: nat, before: seq<Action>, halt: Action, after: seq<Action>)
    requires HaltLands(Run(Init(enabled, threads), before), halt)
    ensures var s := Run(Init(enabled, threads), before);
      OldTicks(Next(s, halt), after, s.hist.accepted) <= 1
  {
    InvAlways(enabled, threads, before);
    var s := Run(Init(enabled, threads), before);
    InvStep(s, halt);
    HaltLandsMarks(s, halt);
    OldTicksBounded(Next(s, halt), after, s.hist.accepted);
  }

  /** Once the sampler has carried a halt out, the executor holds no goal accepted before it,
    * and the joint target of the mode the halt found running, if it has one, is not a sample
    * of such a goal. */
  lemma HaltHolds(enabled: bool, threads: nat, acts: seq<Action>)
    ensures var s := Run(Init(enabled, threads), acts);
      && (s.sup.haltPending ==> s.hist.ticks <= 1)
      && (!CarryingOut(s.smp.pc) ==>
            && (s.smp.active.Some? ==> s.smp.active.value >= s.hist.outrun)
            && (s.hist.outrun > 0 ==> s.smp.held.Some?)
            && (s.smp.held.Some? ==>
                  var target := s.smp.targets.Of(s.smp.held.value);
                  target.SampleOf? ==> target.id >= s.hist.outrun))
  {
    InvAlways(enabled, threads, acts);
  }

  // ---- the e-stop --------------------------------------------------------------------

  /** The second half of estop()'s second on_halt. */
  predicate StopLands(s: State, a: Action) {
    HaltLands(s, a) && a.Move? && s.pcs[a.t].after.StopDone?
  }
  /** The store of an estop_clear(). */
  predicate ClearLands(s: State, a: Action) {
    a.Move? && a.t < |s.pcs| && s.pcs[a.t].ClearWait? && s.locks.m.None?
  }
  predicate NeverCleared(s: State, acts: seq<Action>)
    decreases |acts|
  {
    acts == [] || (!ClearLands(s, acts[0]) && NeverCleared(Next(s, acts[0]), acts[1..]))
  }

  /** Only estop_clear ends what an estop established. */
  lemma QuietLasts(s: State, a: Action)
    requires s.hist.quiet && !ClearLands(s, a)
    ensures Next(s, a).hist.quiet
  {
    if a.Sample? {
      SamplerCalm(s, a.pick);
    } else if !a.Move? && !a.Enter? {
      OutsideCalm(s, a);
    } else if a.t < |s.pcs| && a.Move? {
      BackendQuiet(s, a.t, a.pick);
    }
  }

  lemma BackendQuiet(s: State, t: nat, pick: bool)
    requires t < |s.pcs| && s.hist.quiet && !ClearLands(s, Move(t, pick))
    ensures BackendMove(s, t, pick).hist.quiet
  {
  }

  lemma {:induction false} QuietRun(s: State, acts: seq<Action>)
    requires Inv(s) && s.hist.quiet && NeverCleared(s, acts)
    ensures var u := Run(s, acts);
      u.hist.quiet && u.hist.accepted == s.hist.accepted && Inv(u)
          && Ticks(s, acts) == OldTicks(s, acts, s.hist.accepted)
    decreases |acts|
  {
    if acts != [] {
      QuietLasts(s, acts[0]);
      InvStep(s, acts[0]);
      QuietAccepts(s, acts[0]);
      QuietRun(Next(s, acts[0]), acts[1..]);
    }
  }

  /** Nothing is accepted while an e-stop holds. */
  lemma QuietAccepts(s: State, a: Action)
    requires Inv(s) && s.hist.quiet && Next(s, a).hist.quiet
    ensures Next(s, a).hist.accepted == s.hist.accepted
  {
    InvStep(s, a);
    match a
    case Enter(t, op) => if t < |s.pcs| { BeginUntouched(s, t, op); }
    case Move(t, pick) => if t < |s.pcs| { BackendQueue(s, t, pick); }
    case Sample(pick) => SamplerCalm(s, pick);
    case _ => OutsideCalm(s, a);
  }

  /** From the moment estop() has delivered its second halt, and until an estop_clear():
    * no stream is open, no goal waits to run, no call is past its admission, nothing is
    * accepted, and the executor ticks once more at most. `before` is any interleaving,
    * with calls admitted just before the latch; so is `after`. */
  lemma EstopStills(enabled: bool, threads: nat, before: seq<Action>, stop: Action, after: seq<Action>)
    requires StopLands(Run(Init(enabled, threads), before), stop)
    requires NeverCleared(Next(Run(Init(enabled, threads), before), stop), after)
    ensures var s := Next(Run(Init(enabled, threads), before), stop);
      var u := Run(s, after);
      && Stilled(u) && NonePast(u.pcs) && u.gate.estopped
      && u.hist.accepted == s.hist.accepted
      && Ticks(s, after) <= 1
  {
    InvAlways(enabled, threads, before);
    var s := Run(Init(enabled, threads), before);
    InvStep(s, stop);
    HaltOutrunsGoals(enabled, threads, before, stop, after);
    StopLandsQuiet(s, stop);
    QuietRun(Next(s, stop), after);
  }

  lemma StopLandsQuiet(s: State, stop: Action)
    requires StopLands(s, stop)
    ensures Next(s, stop).hist.quiet && Next(s, stop).hist.accepted == s.hist.accepted
  {
  }

  // ---- revoke, a link drop, a contact trip -------------------------------------------

  lemma {:induction false} RunThen(s: State, acts: seq<Action>, a: Action)
    ensures Run(s, acts + [a]) == Next(Run(s, acts), a)
    decreases |acts|
  {
    if acts == [] {
      assert acts + [a] == [a] && [a][1..] == [];
    } else {
      assert (acts + [a])[1..] == acts[1..] + [a];
      RunThen(Next(s, acts[0]), acts[1..], a);
    }
  }

  /** One more step of a run. */
  lemma Extend(s0: State, acts: seq<Action>, s: State, a: Action) returns (more: seq<Action>, n: State)
    requires s == Run(s0, acts)
    ensures more == acts + [a] && n == Next(s, a) == Run(s0, more)
  {
    RunThen(s0, acts, a);
    more, n := acts + [a], Next(s, a);
  }

  /** Thread 0 is inside an admitted goal call; thread 1 stands at `stopper`. */
  predicate GoalCallStands(s: State, goal: Goal, stopper: Pc) {
    && s.pcs == [Past(Admitted(AcceptCall(goal, 0))), stopper] && s.locks == Locks(Some(0), None, None)
    && s.sup.ready && !s.sup.latched && s.sup.inbox == [] && s.hist.accepted == 0
  }

  lemma AdmitGoal(goal: Goal) returns (acts: seq<Action>, s: State)
    ensures s == Run(Init(false, 2), acts) && GoalCallStands(s, goal, Idle)
  {
    var s0 := Init(false, 2);
    acts, s := Extend(s0, [], s0, LinkRuns);
    acts, s := Extend(s0, acts, s, Enter(0, Delegate(AcceptCall(goal, 0))));
    acts, s := Extend(s0, acts, s, Move(0, false));
    acts, s := Extend(s0, acts, s, Move(0, false));
  }

  lemma StopOnce(before: seq<Action>, s: State, goal: Goal) returns (acts: seq<Action>, n: State)
    requires s == Run(Init(false, 2), before) && GoalCallStands(s, goal, Idle)
    ensures n == Run(Init(false, 2), acts) && GoalCallStands(n, goal, StopWait) && n.gate.estopped
  {
    var s0 := Init(false, 2);
    acts, n := Extend(s0, before, s, Enter(1, EStop));
    acts, n := Extend(s0, acts, n, Move(1, false));
    acts, n := Extend(s0, acts, n, Move(1, false));
  }

  lemma QueueLate(before: seq<Action>, s: State, goal: Goal) returns (acts: seq<Action>, n: State)
    requires s == Run(Init(false, 2), before) && GoalCallStands(s, goal, StopWait) && s.gate.estopped
    ensures n == Run(Init(false, 2), acts) && n.gate.estopped && n.pcs == [Returning, StopWait]
    ensures n.sup.inbox == [Entry(0, goal, false, true)] && n.locks == Locks(Some(0), None, None)
  {
    var s0 := Init(false, 2);
    acts, n := Extend(s0, before, s, Move(0, false));
    acts, n := Extend(s0, acts, n, Move(0, false));
  }

  /** estop()'s first halt is not enough: a goal admitted just before the latch is queued
    * live after it. The same run goes on to the second halt, which waits for m_: that is the
    * one EstopStills starts from. */
  lemma FirstHaltIsNotEnough(goal: Goal) returns (late: seq<Action>, rest: seq<Action>)
    ensures var s := Run(Init(false, 2), late);
            s.gate.estopped && |s.pcs| == 2 && s.pcs[1].StopWait? && !NoLiveGoal(s.sup.inbox)
    ensures late <= rest && StopLands(Run(Init(false, 2), rest), Move(1, false))
  {
    var acts, s := AdmitGoal(goal);
    acts, s := StopOnce(acts, s, goal);
    acts, s := QueueLate(acts, s, goal);
    late := acts;
    assert Live(s.sup.inbox[0]);
    rest := StopTwice(acts, s);
  }

  lemma StopTwice(before: seq<Action>, s: State) returns (acts: seq<Action>)
    requires s == Run(Init(false, 2), before) && s.pcs == [Returning, StopWait] && s.locks == Locks(Some(0), None, None)
    ensures before <= acts && StopLands(Run(Init(false, 2), acts), Move(1, false))
  {
    var s0 := Init(false, 2);
    var n;
    acts, n := Extend(s0, before, s, Move(0, false));
    acts, n := Extend(s0, acts, n, Move(1, false));
    acts, n := Extend(s0, acts, n, Move(1, false));
  }

  // ---- a halt while a mode without a joint target runs -------------------------------

  /** One backend thread, idle; the sampler at the top of its loop with nothing active. */
  predicate AtRest(s: State) {
    && s.pcs == [Idle] && s.locks == Locks(None, None, None) && s.smp.pc.Top? && s.smp.active.None? && !s.smp.execActive
    && s.sup.ready && !s.sup.latched && !s.sup.haltPending && !s.smp.wasLatched && !s.gate.estopped && !s.gate.enabled
  }

  /** One backend thread accepts a goal. */
  lemma AcceptOne(goal: Goal) returns (acts: seq<Action>, n: State)
    ensures n == Run(Init(false, 1), acts) && AtRest(n) && n.sup.inbox == [Entry(0, goal, false, true)]
            && !n.sup.streamOpen
    ensures n.sup.activeKind == Position && n.hist.accepted == 1 && n.smp == Init(false, 1).smp
  {
    var s0 := Init(false, 1);
    acts, n := AdmitCall([], s0, AcceptCall(goal, 0));
    acts, n := Extend(s0, acts, n, Move(0, false));
    acts, n := Extend(s0, acts, n, Move(0, false));
    acts, n := Extend(s0, acts, n, Move(0, false));
  }

  /** With arbitration off and no e-stop, a delegated call gets past its admission. */
  lemma AdmitCall(before: seq<Action>, s: State, call: Call) returns (acts: seq<Action>, n: State)
    requires s == Run(Init(false, 1), before) && AtRest(s)
    ensures n == Run(Init(false, 1), acts)
    ensures n == s.(pcs := [Past(Admitted(call))], locks := Locks(Some(0), None, None))
  {
    var s0 := Init(false, 1);
    acts, n := Extend(s0, before, s, Enter(0, Delegate(call)));
    acts, n := Extend(s0, acts, n, Move(0, false));
    acts, n := Extend(s0, acts, n, Move(0, false));
  }

  /** Past a contact edge that is not there. */
  lemma PassEdge(before: seq<Action>, s: State) returns (acts: seq<Action>, n: State)
    requires s == Run(Init(false, 1), before) && !s.sup.latched && s.smp.pc.Top?
    ensures n == Run(Init(false, 1), acts) && n.locks == s.locks && n.pcs == s.pcs && n.gate == s.gate
    ensures n.hist == s.hist && n.smp == s.smp.(pc := Take, wasLatched := false)
    ensures n.sup == s.sup.(contactCleared := false)
  {
    var s0 := Init(false, 1);
    acts, n := Extend(s0, before, s, Sample(false));
    acts, n := Extend(s0, acts, n, Sample(false));
  }

  lemma PopOne(before: seq<Action>, s: State, goal: Goal) returns (acts: seq<Action>, n: State)
    requires s == Run(Init(false, 1), before) && AtRest(s) && s.sup.inbox == [Entry(0, goal, false, true)]
    ensures n == Run(Init(false, 1), acts)
    ensures n.smp == s.smp.(pc := Got(s.sup.inbox[0])) && n.sup == s.sup.(inbox := [], contactCleared := false)
    ensures n.hist == s.hist && n.pcs == s.pcs && n.locks == s.locks && n.gate == s.gate
  {
    var s0 := Init(false, 1);
    acts, n := PassEdge(before, s);
    acts, n := Extend(s0, acts, n, Sample(false));
    acts, n := Extend(s0, acts, n, Sample(false));
    acts, n := Extend(s0, acts, n, Sample(false));
  }

  /** A goal that passes every check. */
  function GoodGoal(): Goal { Goal(Position, false, true, true, false, true) }

  lemma ArmOne(before: seq<Action>, s: State) returns (acts: seq<Action>, n: State)
    requires s == Run(Init(false, 1), before)
             && s.smp == Init(false, 1).smp.(pc := Got(Entry(0, GoodGoal(), false, true)))
    requires !s.sup.streamOpen && s.sup.activeKind == Position
    ensures n == Run(Init(false, 1), acts) && n == At(s, Armed(0, GoodGoal()))
  {
    var s0 := Init(false, 1);
    acts, n := Extend(s0, before, s, Sample(false));
    acts, n := Extend(s0, acts, n, Sample(false));
  }

  lemma StartOne(before: seq<Action>, s: State) returns (acts: seq<Action>, n: State)
    requires s == Run(Init(false, 1), before) && s.smp == Init(false, 1).smp.(pc := Armed(0, GoodGoal()))
    requires s.locks.q.None? && !s.sup.haltPending
    ensures n == Run(Init(false, 1), acts)
    ensures n == s.(smp := s.smp.(pc := Drain, active := Some(0), execActive := true, execMode := Position))
  {
    var s0 := Init(false, 1);
    acts, n := Extend(s0, before, s, Sample(false));
    acts, n := Extend(s0, acts, n, Sample(false));
  }

  /** One tick, with which the goal completes. */
  lemma FinishOne(before: seq<Action>, s: State) returns (acts: seq<Action>, n: State)
    requires s == Run(Init(false, 1), before) && s.locks.q.None? && s.sup.inbox == []
    requires s.smp.pc.Drain? && s.smp.active == Some(0) && s.smp.execActive && s.smp.boundKind.Position?
    ensures n == Run(Init(false, 1), acts) && n.sup == s.sup && n.locks == s.locks && n.pcs == s.pcs && n.gate == s.gate
    ensures n.smp.pc.Top? && n.smp.active.None? && !n.smp.execActive && n.smp.wasLatched == s.smp.wasLatched
    ensures n.smp.targets.position == SampleOf(0) && n.hist.accepted == s.hist.accepted
  {
    var s0 := Init(false, 1);
    acts, n := Extend(s0, before, s, Sample(false));
    acts, n := Extend(s0, acts, n, Sample(true));
  }

  /** A position goal is accepted, ticked once, and completes. */
  lemma RunOneGoal() returns (acts: seq<Action>, n: State)
    ensures n == Run(Init(false, 1), acts) && AtRest(n) && !n.sup.streamOpen && n.sup.activeKind == Position
    ensures n.hist.accepted == 1 && n.smp.targets.position == SampleOf(0)
  {
    acts, n := AcceptOne(GoodGoal());
    acts, n := PopOne(acts, n, GoodGoal());
    acts, n := ArmOne(acts, n);
    acts, n := StartOne(acts, n);
    acts, n := FinishOne(acts, n);
  }

  /** on_stream_open for a velocity stream, up to its mode request. */
  lemma RequestVelocity(before: seq<Action>, s: State) returns (acts: seq<Action>, n: State)
    requires s == Run(Init(false, 1), before) && AtRest(s) && s.sup.activeKind == Position && !s.sup.streamOpen
    ensures n == Run(Init(false, 1), acts) && n.smp == s.smp && n.hist == s.hist && n.gate == s.gate
    ensures n.sup == s.sup.(activeKind := Velocity)
    ensures n.locks == Locks(Some(0), None, None) && n.pcs == [Past(Opening(ModeRequested, Velocity))]
  {
    var s0 := Init(false, 1);
    acts, n := AdmitCall(before, s, OpenCall(Velocity, 0));
    acts, n := Extend(s0, acts, n, Move(0, false));
    acts, n := Extend(s0, acts, n, Move(0, false));
    acts, n := Extend(s0, acts, n, Move(0, true));
    acts, n := Extend(s0, acts, n, Move(0, false));
    acts, n := Extend(s0, acts, n, Move(0, false));
  }

  lemma CommitVelocity(before: seq<Action>, s: State) returns (acts: seq<Action>, n: State)
    requires s == Run(Init(false, 1), before) && s.locks == Locks(Some(0), None, None)
    requires s.pcs == [Past(Opening(ModeRequested, Velocity))]
    requires s.sup.ready && !s.sup.latched && s.sup.activeKind.Velocity?
    ensures n == Run(Init(false, 1), acts)
    ensures n == s.(locks := Locks(Some(0), None, Some(0)), pcs := [Past(Locking(SawMode, Velocity))])
  {
    var s0 := Init(false, 1);
    acts, n := Extend(s0, before, s, Move(0, false));
    acts, n := Extend(s0, acts, n, Move(0, false));
    acts, n := Extend(s0, acts, n, Move(0, false));
  }

  /** The rest of it: the stream is marked open. */
  lemma OpenVelocity(before: seq<Action>, s: State) returns (acts: seq<Action>, n: State)
    requires s == Run(Init(false, 1), before) && s.locks == Locks(Some(0), None, None)
    requires s.pcs == [Past(Opening(ModeRequested, Velocity))]
    requires s.sup.ready && !s.sup.latched && s.sup.activeKind.Velocity?
    ensures n == Run(Init(false, 1), acts) && n.pcs == [Idle] && n.locks == Locks(None, None, None)
    ensures n.smp == s.smp && n.hist == s.hist && n.gate == s.gate && n.sup == s.sup.(streamOpen := true)
  {
    var s0 := Init(false, 1);
    acts, n := CommitVelocity(before, s);
    acts, n := Extend(s0, acts, n, Move(0, false));
    acts, n := Extend(s0, acts, n, Move(0, false));
  }

  lemma HaltOnce(before: seq<Action>, s: State) returns (acts: seq<Action>, n: State)
    requires s == Run(Init(false, 1), before) && s.pcs == [Idle] && s.locks == Locks(None, None, None)
    ensures n == Run(Init(false, 1), acts) && n.locks == s.locks && n.smp == s.smp
    ensures n.sup.haltPending && n.hist.doomed == s.hist.accepted
    ensures n.sup.ready == s.sup.ready && n.sup.latched == s.sup.latched && n.sup.activeKind == s.sup.activeKind
  {
    var s0 := Init(false, 1);
    acts, n := Extend(s0, before, s, Enter(0, Halt(EmergencyStop)));
    acts, n := Extend(s0, acts, n, Move(0, false));
    acts, n := Extend(s0, acts, n, Move(0, false));
  }

  lemma TakeHalt(before: seq<Action>, s: State) returns (acts: seq<Action>, n: State)
    requires s == Run(Init(false, 1), before) && s.locks.q.None? && s.sup.haltPending && s.smp.pc.Take?
    ensures n == Run(Init(false, 1), acts) && n.sup == s.sup.(haltPending := false)
    ensures n.smp.pc.Resetting? && n.smp.targets == s.smp.targets && n.hist.outrun == s.hist.doomed
  {
    acts, n := Extend(Init(false, 1), before, s, Sample(false));
  }

  lemma CarryOut(before: seq<Action>, s: State) returns (acts: seq<Action>, n: State)
    requires s == Run(Init(false, 1), before) && s.smp.pc.Resetting? && s.sup.ready
    ensures n == Run(Init(false, 1), acts) && n.smp.pc.Expiry? && n.hist.outrun == s.hist.outrun
    ensures n.smp.held == Some(s.sup.activeKind) && n.smp.targets == s.smp.targets.Write(s.sup.activeKind, Hold)
  {
    var s0 := Init(false, 1);
    acts, n := Extend(s0, before, s, Sample(false));
    acts, n := Extend(s0, acts, n, Sample(false));
    acts, n := Extend(s0, acts, n, Sample(false));
  }

  /** HaltHolds needs a joint target: after a halt that finds velocity mode running, the
    * position mode's target can still be the sample of a goal accepted before it. */
  lemma VelocityHaltWritesNothing() returns (acts: seq<Action>)
    ensures var s := Run(Init(false, 1), acts);
      && !CarryingOut(s.smp.pc) && s.hist.outrun == 1
      && s.smp.held == Some(Velocity) && s.smp.targets.position == SampleOf(0)
  {
    var n;
    acts, n := RunOneGoal();
    acts, n := RequestVelocity(acts, n);
    acts, n := OpenVelocity(acts, n);
    acts, n := HaltOnce(acts, n);
    acts, n := PassEdge(acts, n);
    acts, n := TakeHalt(acts, n);
    acts, n := CarryOut(acts, n);
  }

  /** The on_halt of a revoke() or a re-grant lands, and nobody was granted since its drop. */
  predicate RevokeLands(s: State, a: Action) {
    HaltLands(s, a) && a.Move? && Since(s.pcs[a.t]) == Some(s.gate.generation)
  }
  /** The section of grant() that installs an owner. */
  predicate GrantLands(s: State, a: Action) {
    a.Move? && a.t < |s.pcs| && s.pcs[a.t].GrantTake? && s.locks.m.None? && !s.gate.estopped
  }
  predicate NeverGranted(s: State, acts: seq<Action>)
    decreases |acts|
  {
    acts == [] || (!GrantLands(s, acts[0]) && NeverGranted(Next(s, acts[0]), acts[1..]))
  }

  lemma RevokedLasts(s: State, a: Action)
    requires (s.hist.revoked && !GrantLands(s, a)) || RevokeLands(s, a)
    ensures Next(s, a).hist.revoked
  {
    if a.Sample? {
      SamplerCalm(s, a.pick);
    } else if !a.Move? && !a.Enter? {
      OutsideCalm(s, a);
    } else if a.t < |s.pcs| && a.Move? {
      BackendRevoked(s, a.t, a.pick);
    }
  }

  lemma BackendRevoked(s: State, t: nat, pick: bool)
    requires t < |s.pcs|
    requires (s.hist.revoked && !GrantLands(s, Move(t, pick))) || RevokeLands(s, Move(t, pick))
    ensures BackendMove(s, t, pick).hist.revoked
  {
  }

  lemma {:induction false} RevokedRun(s: State, acts: seq<Action>)
    requires Inv(s) && s.hist.revoked && NeverGranted(s, acts)
    ensures Run(s, acts).hist.revoked && Inv(Run(s, acts))
    decreases |acts|
  {
    if acts != [] {
      RevokedLasts(s, acts[0]);
      InvStep(s, acts[0]);
      RevokedRun(Next(s, acts[0]), acts[1..]);
    }
  }

  /** With arbitration on, a revoked owner leaves nothing behind until the next grant. */
  lemma RevokeStills(threads: nat, before: seq<Action>, halt: Action, after: seq<Action>)
    requires RevokeLands(Run(Init(true, threads), before), halt)
    requires NeverGranted(Next(Run(Init(true, threads), before), halt), after)
    ensures var u := Run(Next(Run(Init(true, threads), before), halt), after);
      Stilled(u) && !u.gate.owned && NonePast(u.pcs)
  {
    InvAlways(true, threads, before);
    var s := Run(Init(true, threads), before);
    InvStep(s, halt);
    RevokedLasts(s, halt);
    RevokedRun(Next(s, halt), after);
    EnabledLasts(Init(true, threads), before);
    EnabledLasts(Next(s, halt), after);
    EnabledStep(s, halt);
  }

  lemma EnabledStep(s: State, a: Action)
    ensures Next(s, a).gate.enabled == s.gate.enabled
  {
    if a.Sample? {
      SamplerCalm(s, a.pick);
    } else if !a.Move? && !a.Enter? {
      OutsideCalm(s, a);
    } else if a.t < |s.pcs| && a.Move? {
      BackendEnabled(s, a.t, a.pick);
    }
  }

  lemma BackendEnabled(s: State, t: nat, pick: bool)
    requires t < |s.pcs|
    ensures BackendMove(s, t, pick).gate.enabled == s.gate.enabled
  {
  }

  lemma {:induction false} EnabledLasts(s: State, acts: seq<Action>)
    ensures Run(s, acts).gate.enabled == s.gate.enabled
    decreases |acts|
  {
    if acts != [] {
      EnabledStep(s, acts[0]);
      EnabledLasts(Next(s, acts[0]), acts[1..]);
    }
  }

  /** While the link is down and its halt is over, no stream is open and no goal would run;
    * the same from a contact trip's halt until the latch falls. */
  lemma DropAndTripStill(enabled: bool, threads: nat, acts: seq<Action>)
    ensures var s := Run(Init(enabled, threads), acts);
      && (s.link.DropLining? || s.link.Down? ==> Stilled(s) && !s.sup.ready)
      && (s.hist.contactStage >= 3 ==> Stilled(s) && s.sup.latched)
  {
    InvAlways(enabled, threads, acts);
  }
}
