/** Every run of Supervision's machine keeps these invariants: one module a concern.
  * Locks says who holds what; Stops is what estop, revoke, a link drop and a contact
  * trip each establish; Goals is what happens to accepted goals.
  */
module SupervisionLocks {
  import opened Basics
  import opened CommandQueue
  import opened Arbiter
  import opened Supervision

  predicate LockedBy(s: State, t: nat)
    requires t < |s.pcs|
  {
    && (HoldsGate(s.pcs[t]) <==> s.locks.m == Some(t))
    && (HoldsQueue(s.pcs[t]) <==> s.locks.q == Some(t))
    && (HoldsStream(s.pcs[t]) <==> s.locks.sm == Some(t))
  }

  /** Each mutex is held by exactly the thread whose position says so. */
  predicate Locked(s: State) { forall t: nat :: t < |s.pcs| ==> LockedBy(s, t) }

  lemma LocksDelegate(s: State, t: nat)
    requires Locked(s) && t < |s.pcs|
    ensures Locked(DelegateMove(s, t))
  {
    assert LockedBy(s, t);
    var n := DelegateMove(s, t);
    forall i: nat | i < |n.pcs| ensures LockedBy(n, i) { assert LockedBy(s, i); }
  }

  lemma LocksOpen(s: State, t: nat, pick: bool)
    requires Locked(s) && t < |s.pcs| && s.pcs[t].Past? && s.pcs[t].work.Opening?
    ensures Locked(OpenMove(s, t, s.pcs[t].work.stage, s.pcs[t].work.kind, pick))
  {
    assert LockedBy(s, t);
    var n := OpenMove(s, t, s.pcs[t].work.stage, s.pcs[t].work.kind, pick);
    forall i: nat | i < |n.pcs| ensures LockedBy(n, i) { assert LockedBy(s, i); }
  }

  lemma LocksCommit(s: State, t: nat)
    requires Locked(s) && t < |s.pcs| && s.pcs[t].Past? && s.pcs[t].work.Locking?
    ensures Locked(CommitMove(s, t, s.pcs[t].work.at, s.pcs[t].work.kind))
  {
    assert LockedBy(s, t);
    var n := CommitMove(s, t, s.pcs[t].work.at, s.pcs[t].work.kind);
    forall i: nat | i < |n.pcs| ensures LockedBy(n, i) { assert LockedBy(s, i); }
  }

  lemma LocksHalt(s: State, t: nat)
    requires Locked(s) && t < |s.pcs| && s.pcs[t].Halting?
    ensures Locked(HaltMove(s, t, s.pcs[t].closed, s.pcs[t].why, s.pcs[t].after))
  {
    assert LockedBy(s, t);
    var n := HaltMove(s, t, s.pcs[t].closed, s.pcs[t].why, s.pcs[t].after);
    forall i: nat | i < |n.pcs| ensures LockedBy(n, i) { assert LockedBy(s, i); }
  }

  lemma LocksGate(s: State, t: nat)
    requires Locked(s) && t < |s.pcs| && !HoldsGate(s.pcs[t])
    ensures Locked(GateMove(s, t))
  {
    assert LockedBy(s, t);
    var n := GateMove(s, t);
    forall i: nat | i < |n.pcs| ensures LockedBy(n, i) { assert LockedBy(s, i); }
  }

  lemma LocksClear(s: State, t: nat)
    requires Locked(s) && t < |s.pcs| && s.pcs[t].Clearing?
    ensures Locked(ClearMove(s, t, s.pcs[t].stage))
  {
    assert LockedBy(s, t);
    var n := ClearMove(s, t, s.pcs[t].stage);
    forall i: nat | i < |n.pcs| ensures LockedBy(n, i) { assert LockedBy(s, i); }
  }

  lemma LocksBegin(s: State, t: nat, op: Op)
    requires Locked(s) && t < |s.pcs|
    ensures Locked(Begin(s, t, op))
  {
    assert LockedBy(s, t);
    var n := Begin(s, t, op);
    forall i: nat | i < |n.pcs| ensures LockedBy(n, i) { assert LockedBy(s, i); }
  }

  /** The inbox is the same, loses its head, or is marked by a halt. */
  predicate Shrinks(a: seq<Inbound>, b: seq<Inbound>) {
    b == a || (a != [] && b == a[1..]) || b == MarkHalted(a, Contact) || b == MarkHalted(a, ArmUnavailable)
  }

  lemma ShrinksKeepsNoLive(a: seq<Inbound>, b: seq<Inbound>)
    requires Shrinks(a, b) && NoLiveGoal(a)
    ensures NoLiveGoal(b)
  {
    MarkHaltedKeepsGoals(a, Contact);
    MarkHaltedKeepsGoals(a, ArmUnavailable);
  }

  /** What every step outside the backend threads has in common. */
  predicate Calmer(s: State, n: State) {
    && n.gate == s.gate && n.locks == s.locks && n.pcs == s.pcs
    && n.hist.accepted == s.hist.accepted && n.hist.quiet == s.hist.quiet && n.hist.revoked == s.hist.revoked
    && (n.sup.streamOpen ==> s.sup.streamOpen)
    && (n.hist.doomed == s.hist.doomed || n.hist.doomed == n.hist.accepted)
  }
  predicate SameLink(s: State, n: State) {
    n.link == s.link && n.sup.ready == s.sup.ready && n.sup.latched == s.sup.latched
  }

  lemma EdgeLookCalm(s: State)
    requires s.smp.pc.Top? || s.smp.pc.Edge?
    ensures Calmer(s, EdgeStep(s)) && SameLink(s, EdgeStep(s)) && EdgeStep(s).sup.inbox == s.sup.inbox
  {
  }

  lemma EdgeCloseCalm(s: State)
    requires s.smp.pc.EdgeClosing?
    ensures Calmer(s, EdgeStep(s)) && SameLink(s, EdgeStep(s)) && EdgeStep(s).sup.inbox == s.sup.inbox
  {
  }

  lemma EdgeMarkCalm(s: State)
    requires s.smp.pc.EdgeMarking?
    ensures Calmer(s, EdgeStep(s)) && SameLink(s, EdgeStep(s))
    ensures EdgeStep(s).sup.inbox == if s.locks.q.Some? then s.sup.inbox else MarkHalted(s.sup.inbox, Contact)
  {
  }

  lemma EdgeStepCalm(s: State)
    requires PhaseOf(s.smp.pc).Edging?
    ensures Calmer(s, EdgeStep(s)) && SameLink(s, EdgeStep(s))
    ensures EdgeStep(s).sup.inbox == s.sup.inbox || EdgeStep(s).sup.inbox == MarkHalted(s.sup.inbox, Contact)
  {
    match s.smp.pc {
      case EdgeClosing => EdgeCloseCalm(s);
      case EdgeMarking => EdgeMarkCalm(s);
      case _ => EdgeLookCalm(s);
    }
  }

  lemma TakeHaltCalm(s: State)
    requires s.smp.pc.Take?
    ensures Calmer(s, TakeStep(s)) && SameLink(s, TakeStep(s)) && TakeStep(s).hist.contactStage == s.hist.contactStage
    ensures TakeStep(s).sup.inbox == s.sup.inbox
  {
  }

  lemma TakeStepCalm(s: State)
    requires PhaseOf(s.smp.pc).Stopping?
    ensures Calmer(s, TakeStep(s)) && SameLink(s, TakeStep(s)) && TakeStep(s).hist.contactStage == s.hist.contactStage
    ensures TakeStep(s).sup.inbox == s.sup.inbox
  {
    if s.smp.pc.Take? { TakeHaltCalm(s); }
  }

  lemma PopCalm(s: State, pick: bool)
    requires s.smp.pc.Drain?
    ensures Calmer(s, DrainStep(s, pick)) && SameLink(s, DrainStep(s, pick))
    ensures Shrinks(s.sup.inbox, DrainStep(s, pick).sup.inbox)
    ensures DrainStep(s, pick).hist.contactStage == s.hist.contactStage
  {
  }

  lemma GotCalm(s: State, pick: bool)
    requires s.smp.pc.Got?
    ensures Calmer(s, DrainStep(s, pick)) && SameLink(s, DrainStep(s, pick))
    ensures DrainStep(s, pick).sup.inbox == s.sup.inbox
    ensures DrainStep(s, pick).hist.contactStage == s.hist.contactStage
  {
  }

  lemma ExpiryCalm(s: State, pick: bool)
    requires s.smp.pc.Expiry?
    ensures Calmer(s, DrainStep(s, pick)) && SameLink(s, DrainStep(s, pick))
    ensures DrainStep(s, pick).sup.inbox == s.sup.inbox
    ensures DrainStep(s, pick).hist.contactStage == s.hist.contactStage
  {
  }

  lemma DrainStepCalm(s: State, pick: bool)
    requires PhaseOf(s.smp.pc).Draining?
    ensures Calmer(s, DrainStep(s, pick)) && SameLink(s, DrainStep(s, pick))
    ensures Shrinks(s.sup.inbox, DrainStep(s, pick).sup.inbox)
    ensures DrainStep(s, pick).hist.contactStage == s.hist.contactStage
  {
    if s.smp.pc.Drain? { PopCalm(s, pick); } else if s.smp.pc.Got? { GotCalm(s, pick); } else { ExpiryCalm(s, pick); }
  }

  lemma SubmitCalm(s: State, pick: bool)
    requires s.smp.pc.Submit? || s.smp.pc.Tick?
    ensures Calmer(s, GoalStep(s, pick)) && SameLink(s, GoalStep(s, pick))
    ensures GoalStep(s, pick).sup.inbox == s.sup.inbox
    ensures GoalStep(s, pick).hist.contactStage == s.hist.contactStage
  {
  }

  lemma CheckCalm(s: State, pick: bool)
    requires !s.smp.pc.Submit? && !s.smp.pc.Tick?
    ensures Calmer(s, GoalStep(s, pick)) && SameLink(s, GoalStep(s, pick))
    ensures GoalStep(s, pick).sup.inbox == s.sup.inbox
    ensures GoalStep(s, pick).hist.contactStage == s.hist.contactStage
  {
  }

  lemma GoalStepCalm(s: State, pick: bool)
    ensures Calmer(s, GoalStep(s, pick)) && SameLink(s, GoalStep(s, pick))
    ensures GoalStep(s, pick).sup.inbox == s.sup.inbox
    ensures GoalStep(s, pick).hist.contactStage == s.hist.contactStage
  {
    if s.smp.pc.Submit? || s.smp.pc.Tick? {
      SubmitCalm(s, pick);
    } else {
      CheckCalm(s, pick);
    }
  }

  lemma LinkMoveCalm(s: State)
    ensures Calmer(s, LinkMove(s))
    ensures LinkMove(s).sup.inbox
            == if s.link.DropMarking? && s.locks.q.None? then MarkHalted(s.sup.inbox, ArmUnavailable) else s.sup.inbox
  {
  }

  lemma EnvironmentCalm(s: State, a: Action)
    requires !a.LinkStep?
    ensures Calmer(s, OutsideMove(s, a)) && OutsideMove(s, a).sup.inbox == s.sup.inbox
  {
  }

  lemma OutsideCalm(s: State, a: Action)
    ensures Calmer(s, OutsideMove(s, a))
    ensures Shrinks(s.sup.inbox, OutsideMove(s, a).sup.inbox)
  {
    if a.LinkStep? { LinkMoveCalm(s); } else { EnvironmentCalm(s, a); }
  }

  lemma SamplerCalm(s: State, pick: bool)
    ensures Calmer(s, SamplerMove(s, pick)) && SameLink(s, SamplerMove(s, pick))
    ensures Shrinks(s.sup.inbox, SamplerMove(s, pick).sup.inbox)
  {
    match PhaseOf(s.smp.pc)
    case Edging => EdgeStepCalm(s);
    case Stopping => TakeStepCalm(s);
    case Draining => DrainStepCalm(s, pick);
    case Running => GoalStepCalm(s, pick);
  }

  lemma LocksCalm(s: State, n: State)
    requires Locked(s) && Calmer(s, n)
    ensures Locked(n)
  {
    forall i: nat | i < |n.pcs| ensures LockedBy(n, i) { assert LockedBy(s, i); }
  }

  lemma LocksKept(s: State, a: Action)
    requires Locked(s)
    ensures Locked(Next(s, a))
  {
    match a
    case Enter(t, op) => if t < |s.pcs| { LocksBegin(s, t, op); }
    case Move(t, pick) =>
      if t < |s.pcs| {
        match s.pcs[t]
        case Past(Opening(_, _)) => LocksOpen(s, t, pick);
        case Past(Locking(_, _)) => LocksCommit(s, t);
        case Halting(_, _, _) => LocksHalt(s, t);
        case Clearing(_) => LocksClear(s, t);
        case pc => if HoldsGate(pc) || pc.Waiting? { LocksDelegate(s, t); } else { LocksGate(s, t); }
      }
    case Sample(pick) => SamplerCalm(s, pick); LocksCalm(s, Next(s, a));
    case _ => OutsideCalm(s, a); LocksCalm(s, Next(s, a));
  }
}

module SupervisionStops {
  import opened Basics
  import opened CommandQueue
  import opened Arbiter
  import opened Supervision
  import opened SupervisionLocks

  /** No stream is open and no goal in the inbox would run. */
  predicate Stilled(s: State) { !s.sup.streamOpen && NoLiveGoal(s.sup.inbox) }

  /** No delegated call is past its admit. */
  predicate NonePast(pcs: seq<Pc>) { forall t: nat :: t < |pcs| ==> !pcs[t].Past? }

  // ---- estop ------------------------------------------------------------------

  /** A thread in estop's second halt. */
  predicate StopPc(estopped: bool, open: bool, pc: Pc) {
    SecondHalt(pc) ==> estopped && (pc.closed ==> !open)
  }
  predicate StopPcs(estopped: bool, open: bool, pcs: seq<Pc>) {
    forall t: nat :: t < |pcs| ==> StopPc(estopped, open, pcs[t])
  }
  predicate StopInv(s: State) {
    && (s.hist.quiet ==> s.gate.estopped && Stilled(s) && NonePast(s.pcs) && s.hist.doomed == s.hist.accepted)
    && StopPcs(s.gate.estopped, s.sup.streamOpen, s.pcs)
  }

  lemma StopEntry(s: State, t: nat)
    requires Locked(s) && StopInv(s) && t < |s.pcs| && !s.pcs[t].Past?
    ensures StopInv(DelegateMove(s, t))
  {
    assert LockedBy(s, t);
    assert StopPc(s.gate.estopped, s.sup.streamOpen, s.pcs[t]);
  }

  lemma StopCancel(s: State, t: nat)
    requires Locked(s) && StopInv(s) && t < |s.pcs| && s.pcs[t].Past? && s.pcs[t].work.Admitted?
    requires s.pcs[t].work.call.CancelCall?
    ensures StopInv(DelegateMove(s, t))
  {
    assert LockedBy(s, t);
    assert StopPc(s.gate.estopped, s.sup.streamOpen, s.pcs[t]);
  }

  lemma StopClose(s: State, t: nat)
    requires Locked(s) && StopInv(s) && t < |s.pcs| && s.pcs[t].Past? && s.pcs[t].work.Admitted?
    requires s.pcs[t].work.call.CloseCall?
    ensures StopInv(DelegateMove(s, t))
  {
    assert LockedBy(s, t);
    assert StopPc(s.gate.estopped, s.sup.streamOpen, s.pcs[t]);
  }

  lemma StopAsk(s: State, t: nat)
    requires Locked(s) && StopInv(s) && t < |s.pcs| && s.pcs[t].Past? && s.pcs[t].work.Admitted?
    requires s.pcs[t].work.call.AcceptCall? || s.pcs[t].work.call.OpenCall?
    ensures StopInv(DelegateMove(s, t))
  {
    assert LockedBy(s, t);
    assert StopPc(s.gate.estopped, s.sup.streamOpen, s.pcs[t]);
  }

  lemma StopCall(s: State, t: nat)
    requires Locked(s) && StopInv(s) && t < |s.pcs| && s.pcs[t].Past? && s.pcs[t].work.Admitted?
    ensures StopInv(DelegateMove(s, t))
  {
    if s.pcs[t].work.call.CancelCall? {
      StopCancel(s, t);
    } else if s.pcs[t].work.call.CloseCall? {
      StopClose(s, t);
    } else {
      StopAsk(s, t);
    }
  }

  lemma StopEnqueue(s: State, t: nat)
    requires Locked(s) && StopInv(s) && t < |s.pcs| && s.pcs[t].Past? && s.pcs[t].work.Enqueueing?
    ensures StopInv(DelegateMove(s, t))
  {
    assert LockedBy(s, t);
    assert StopPc(s.gate.estopped, s.sup.streamOpen, s.pcs[t]);
  }

  lemma StopDelegate(s: State, t: nat)
    requires Locked(s) && StopInv(s) && t < |s.pcs|
    ensures StopInv(DelegateMove(s, t))
  {
    if !s.pcs[t].Past? {
      StopEntry(s, t);
    } else if s.pcs[t].work.Admitted? {
      StopCall(s, t);
    } else if s.pcs[t].work.Enqueueing? {
      StopEnqueue(s, t);
    }
  }

  lemma StopOpen(s: State, t: nat, pick: bool)
    requires Locked(s) && StopInv(s) && t < |s.pcs| && s.pcs[t].Past? && s.pcs[t].work.Opening?
    ensures StopInv(OpenMove(s, t, s.pcs[t].work.stage, s.pcs[t].work.kind, pick))
  {
  }

  lemma StopRefused(s: State, t: nat)
    requires Locked(s) && StopInv(s) && t < |s.pcs| && s.pcs[t].Past? && s.pcs[t].work.Locking?
             && !s.pcs[t].work.at.SawMode?
    ensures StopInv(CommitMove(s, t, s.pcs[t].work.at, s.pcs[t].work.kind))
  {
    assert LockedBy(s, t);
    forall i: nat | i < |s.pcs| ensures !SecondHalt(s.pcs[i]) { assert LockedBy(s, i); }
  }

  lemma StopOpened(s: State, t: nat)
    requires Locked(s) && StopInv(s) && t < |s.pcs| && s.pcs[t].Past? && s.pcs[t].work.Locking?
             && s.pcs[t].work.at.SawMode?
    ensures StopInv(CommitMove(s, t, s.pcs[t].work.at, s.pcs[t].work.kind))
  {
    assert LockedBy(s, t);
    forall i: nat | i < |s.pcs| ensures !SecondHalt(s.pcs[i]) { assert LockedBy(s, i); }
  }

  lemma StopCommit(s: State, t: nat)
    requires Locked(s) && StopInv(s) && t < |s.pcs| && s.pcs[t].Past? && s.pcs[t].work.Locking?
    ensures StopInv(CommitMove(s, t, s.pcs[t].work.at, s.pcs[t].work.kind))
  {
    if s.pcs[t].work.at.SawMode? { StopOpened(s, t); } else { StopRefused(s, t); }
  }

  lemma StopHaltOpen(s: State, t: nat)
    requires Locked(s) && StopInv(s) && t < |s.pcs| && s.pcs[t].Halting? && !s.pcs[t].closed
    ensures StopInv(HaltMove(s, t, false, s.pcs[t].why, s.pcs[t].after))
  {
    assert LockedBy(s, t);
    assert StopPc(s.gate.estopped, s.sup.streamOpen, s.pcs[t]);
  }

  lemma StopSecond(s: State, t: nat)
    requires Locked(s) && StopInv(s) && t < |s.pcs| && s.pcs[t].Halting? && s.pcs[t].closed
    requires s.pcs[t].after.StopDone?
    ensures StopInv(HaltMove(s, t, true, s.pcs[t].why, s.pcs[t].after))
  {
    assert LockedBy(s, t);
    assert StopPc(s.gate.estopped, s.sup.streamOpen, s.pcs[t]);
    forall i: nat | i < |s.pcs| && i != t ensures !HoldsGate(s.pcs[i]) { assert LockedBy(s, i); }
    MarkHaltedKeepsGoals(s.sup.inbox, s.pcs[t].why);
  }

  lemma StopOther(s: State, t: nat)
    requires Locked(s) && StopInv(s) && t < |s.pcs| && s.pcs[t].Halting? && s.pcs[t].closed
    requires !s.pcs[t].after.StopDone?
    ensures StopInv(HaltMove(s, t, true, s.pcs[t].why, s.pcs[t].after))
  {
    assert LockedBy(s, t);
    assert StopPc(s.gate.estopped, s.sup.streamOpen, s.pcs[t]);
    MarkHaltedKeepsGoals(s.sup.inbox, s.pcs[t].why);
  }

  lemma StopHaltClosed(s: State, t: nat)
    requires Locked(s) && StopInv(s) && t < |s.pcs| && s.pcs[t].Halting? && s.pcs[t].closed
    ensures StopInv(HaltMove(s, t, true, s.pcs[t].why, s.pcs[t].after))
  {
    if s.pcs[t].after.StopDone? {
      StopSecond(s, t);
    } else {
      StopOther(s, t);
    }
  }

  lemma StopHalt(s: State, t: nat)
    requires Locked(s) && StopInv(s) && t < |s.pcs| && s.pcs[t].Halting?
    ensures StopInv(HaltMove(s, t, s.pcs[t].closed, s.pcs[t].why, s.pcs[t].after))
  {
    if s.pcs[t].closed { StopHaltClosed(s, t); } else { StopHaltOpen(s, t); }
  }

  lemma StopGate(s: State, t: nat)
    requires Locked(s) && StopInv(s) && t < |s.pcs| && !HoldsGate(s.pcs[t])
    ensures StopInv(GateMove(s, t))
  {
    assert LockedBy(s, t);
    assert StopPc(s.gate.estopped, s.sup.streamOpen, s.pcs[t]);
    if s.locks.m.None? {
      forall i: nat | i < |s.pcs| ensures !HoldsGate(s.pcs[i]) { assert LockedBy(s, i); }
    }
  }

  lemma StopClear(s: State, t: nat)
    requires Locked(s) && StopInv(s) && t < |s.pcs| && s.pcs[t].Clearing?
    ensures StopInv(ClearMove(s, t, s.pcs[t].stage))
  {
  }

  lemma StopBegin(s: State, t: nat, op: Op)
    requires Locked(s) && StopInv(s) && t < |s.pcs|
    ensures StopInv(Begin(s, t, op))
  {
    assert LockedBy(s, t);
    assert StopPc(s.gate.estopped, s.sup.streamOpen, s.pcs[t]);
  }

  lemma StopCalm(s: State, n: State)
    requires StopInv(s) && Shrinks(s.sup.inbox, n.sup.inbox) && Calmer(s, n)
    ensures StopInv(n)
  {
    if NoLiveGoal(s.sup.inbox) { ShrinksKeepsNoLive(s.sup.inbox, n.sup.inbox); }
  }

  lemma StopBackend(s: State, t: nat, pick: bool)
    requires Locked(s) && StopInv(s) && t < |s.pcs|
    ensures StopInv(BackendMove(s, t, pick))
  {
    match s.pcs[t]
    case Past(Opening(_, _)) => StopOpen(s, t, pick);
    case Past(Locking(_, _)) => StopCommit(s, t);
    case Halting(_, _, _) => StopHalt(s, t);
    case Clearing(_) => StopClear(s, t);
    case pc => if HoldsGate(pc) || pc.Waiting? { StopDelegate(s, t); } else { StopGate(s, t); }
  }

  lemma StopKept(s: State, a: Action)
    requires Locked(s) && StopInv(s)
    ensures StopInv(Next(s, a))
  {
    match a
    case Enter(t, op) => if t < |s.pcs| { StopBegin(s, t, op); }
    case Move(t, pick) => if t < |s.pcs| { StopBackend(s, t, pick); }
    case Sample(pick) => SamplerCalm(s, pick); StopCalm(s, Next(s, a));
    case _ => OutsideCalm(s, a); StopCalm(s, Next(s, a));
  }

  // ---- revoke and re-grant -------------------------------------------------------

  /** The generation an ownership halt in progress was dropped at; none for other threads. */
  function Since(pc: Pc): Option<nat> {
    if !pc.Halting? then None
    else match pc.after
      case Granting(_, since) => Some(since)
      case Revoking(since) => Some(since)
      case _ => None
  }
  predicate RevokePc(generation: nat, owned: bool, open: bool, pc: Pc) {
    Since(pc).Some? ==>
      && Since(pc).value <= generation
      && (Since(pc).value == generation ==> !owned && (pc.closed ==> !open))
  }
  predicate RevokePcs(generation: nat, owned: bool, open: bool, pcs: seq<Pc>) {
    forall t: nat :: t < |pcs| ==> RevokePc(generation, owned, open, pcs[t])
  }
  predicate RevokeInv(s: State) {
    s.gate.enabled ==>
      && (!s.gate.owned ==> NonePast(s.pcs))
      && (s.hist.revoked ==> !s.gate.owned && Stilled(s))
      && RevokePcs(s.gate.generation, s.gate.owned, s.sup.streamOpen, s.pcs)
  }

  /** A thread's step that opens, queues and grants nothing, and drops no owner. */
  predicate Idles(s: State, n: State, t: nat)
    requires t < |s.pcs| == |n.pcs|
  {
    && n.gate == s.gate && n.hist.revoked == s.hist.revoked && (n.sup.streamOpen ==> s.sup.streamOpen)
    && n.pcs == s.pcs[t := n.pcs[t]] && !n.pcs[t].Past? && Since(n.pcs[t]).None?
  }

  lemma RevokeIdles(s: State, n: State, t: nat)
    requires RevokeInv(s) && t < |s.pcs| == |n.pcs| && Idles(s, n, t)
    requires n.sup.inbox == s.sup.inbox || NoLiveGoal(n.sup.inbox)
    ensures RevokeInv(n)
  {
  }

  lemma ClearIdles(s: State, t: nat)
    requires t < |s.pcs| && s.pcs[t].Clearing?
    ensures |ClearMove(s, t, s.pcs[t].stage).pcs| == |s.pcs| && Idles(s, ClearMove(s, t, s.pcs[t].stage), t)
    ensures ClearMove(s, t, s.pcs[t].stage).sup.inbox == s.sup.inbox
  {
  }

  lemma MarkIdles(s: State, t: nat, why: HaltReason, after: After)
    requires t < |s.pcs| && !after.Granting? && !after.Revoking? && s.locks.q.None?
    ensures |HaltMove(s, t, true, why, after).pcs| == |s.pcs| && Idles(s, HaltMove(s, t, true, why, after), t)
    ensures HaltMove(s, t, true, why, after).sup.inbox == MarkHalted(s.sup.inbox, why)
  {
  }

  lemma RevokeEntry(s: State, t: nat)
    requires Locked(s) && RevokeInv(s) && t < |s.pcs| && !s.pcs[t].Past?
    ensures RevokeInv(DelegateMove(s, t))
  {
    assert LockedBy(s, t);
    assert s.gate.enabled ==> RevokePc(s.gate.generation, s.gate.owned, s.sup.streamOpen, s.pcs[t]);
  }

  lemma RevokeCall(s: State, t: nat)
    requires Locked(s) && RevokeInv(s) && t < |s.pcs| && s.pcs[t].Past? && s.pcs[t].work.Admitted?
    ensures RevokeInv(DelegateMove(s, t))
  {
    assert LockedBy(s, t);
    assert s.gate.enabled ==> RevokePc(s.gate.generation, s.gate.owned, s.sup.streamOpen, s.pcs[t]);
  }

  lemma RevokeEnqueue(s: State, t: nat)
    requires Locked(s) && RevokeInv(s) && t < |s.pcs| && s.pcs[t].Past? && s.pcs[t].work.Enqueueing?
    ensures RevokeInv(DelegateMove(s, t))
  {
    assert LockedBy(s, t);
    assert s.gate.enabled ==> RevokePc(s.gate.generation, s.gate.owned, s.sup.streamOpen, s.pcs[t]);
  }

  lemma RevokeDelegate(s: State, t: nat)
    requires Locked(s) && RevokeInv(s) && t < |s.pcs|
    ensures RevokeInv(DelegateMove(s, t))
  {
    if !s.pcs[t].Past? {
      RevokeEntry(s, t);
    } else if s.pcs[t].work.Admitted? {
      RevokeCall(s, t);
    } else if s.pcs[t].work.Enqueueing? {
      RevokeEnqueue(s, t);
    }
  }

  lemma RevokeOpen(s: State, t: nat, pick: bool)
    requires Locked(s) && RevokeInv(s) && t < |s.pcs| && s.pcs[t].Past? && s.pcs[t].work.Opening?
    ensures RevokeInv(OpenMove(s, t, s.pcs[t].work.stage, s.pcs[t].work.kind, pick))
  {
    assert LockedBy(s, t);
    assert s.gate.enabled ==> RevokePc(s.gate.generation, s.gate.owned, s.sup.streamOpen, s.pcs[t]);
  }

  lemma RevokeRefused(s: State, t: nat)
    requires Locked(s) && RevokeInv(s) && t < |s.pcs| && s.pcs[t].Past? && s.pcs[t].work.Locking?
             && !s.pcs[t].work.at.SawMode?
    ensures RevokeInv(CommitMove(s, t, s.pcs[t].work.at, s.pcs[t].work.kind))
  {
    assert LockedBy(s, t);
    assert s.gate.enabled ==> RevokePc(s.gate.generation, s.gate.owned, s.sup.streamOpen, s.pcs[t]);
  }

  lemma RevokeOpened(s: State, t: nat)
    requires Locked(s) && RevokeInv(s) && t < |s.pcs| && s.pcs[t].Past? && s.pcs[t].work.Locking?
             && s.pcs[t].work.at.SawMode?
    ensures RevokeInv(CommitMove(s, t, s.pcs[t].work.at, s.pcs[t].work.kind))
  {
    assert LockedBy(s, t);
    assert s.gate.enabled ==> RevokePc(s.gate.generation, s.gate.owned, s.sup.streamOpen, s.pcs[t]);
  }

  lemma RevokeCommit(s: State, t: nat)
    requires Locked(s) && RevokeInv(s) && t < |s.pcs| && s.pcs[t].Past? && s.pcs[t].work.Locking?
    ensures RevokeInv(CommitMove(s, t, s.pcs[t].work.at, s.pcs[t].work.kind))
  {
    if s.pcs[t].work.at.SawMode? { RevokeOpened(s, t); } else { RevokeRefused(s, t); }
  }

  lemma RevokeHaltOpen(s: State, t: nat)
    requires Locked(s) && RevokeInv(s) && t < |s.pcs| && s.pcs[t].Halting? && !s.pcs[t].closed
    ensures RevokeInv(HaltMove(s, t, false, s.pcs[t].why, s.pcs[t].after))
  {
    assert LockedBy(s, t);
    assert s.gate.enabled ==> RevokePc(s.gate.generation, s.gate.owned, s.sup.streamOpen, s.pcs[t]);
  }

  lemma RevokeLanded(s: State, t: nat)
    requires Locked(s) && RevokeInv(s) && t < |s.pcs| && s.pcs[t].Halting? && s.pcs[t].closed
    requires Since(s.pcs[t]).Some?
    ensures RevokeInv(HaltMove(s, t, true, s.pcs[t].why, s.pcs[t].after))
  {
    assert LockedBy(s, t);
    assert s.gate.enabled ==> RevokePc(s.gate.generation, s.gate.owned, s.sup.streamOpen, s.pcs[t]);
    MarkHaltedKeepsGoals(s.sup.inbox, s.pcs[t].why);
  }

  lemma RevokeOther(s: State, t: nat)
    requires Locked(s) && RevokeInv(s) && t < |s.pcs| && s.pcs[t].Halting? && s.pcs[t].closed
    requires Since(s.pcs[t]).None?
    ensures RevokeInv(HaltMove(s, t, true, s.pcs[t].why, s.pcs[t].after))
  {
    if s.locks.q.None? {
      MarkIdles(s, t, s.pcs[t].why, s.pcs[t].after);
      MarkHaltedKeepsGoals(s.sup.inbox, s.pcs[t].why);
      RevokeIdles(s, HaltMove(s, t, true, s.pcs[t].why, s.pcs[t].after), t);
    }
  }

  lemma RevokeHaltClosed(s: State, t: nat)
    requires Locked(s) && RevokeInv(s) && t < |s.pcs| && s.pcs[t].Halting? && s.pcs[t].closed
    ensures RevokeInv(HaltMove(s, t, true, s.pcs[t].why, s.pcs[t].after))
  {
    if Since(s.pcs[t]).Some? {
      RevokeLanded(s, t);
    } else {
      RevokeOther(s, t);
    }
  }

  lemma RevokeHalt(s: State, t: nat)
    requires Locked(s) && RevokeInv(s) && t < |s.pcs| && s.pcs[t].Halting?
    ensures RevokeInv(HaltMove(s, t, s.pcs[t].closed, s.pcs[t].why, s.pcs[t].after))
  {
    if s.pcs[t].closed {
      RevokeHaltClosed(s, t);
    } else {
      RevokeHaltOpen(s, t);
    }
  }

  lemma RevokeStopSection(s: State, t: nat)
    requires Locked(s) && RevokeInv(s) && t < |s.pcs| && (s.pcs[t].StopWait? || s.pcs[t].ClearWait?)
    ensures RevokeInv(GateMove(s, t))
  {
    assert LockedBy(s, t);
    assert s.gate.enabled ==> RevokePc(s.gate.generation, s.gate.owned, s.sup.streamOpen, s.pcs[t]);
    if s.locks.m.None? {
      forall i: nat | i < |s.pcs| ensures !HoldsGate(s.pcs[i]) { assert LockedBy(s, i); }
    }
  }

  lemma RevokeDrop(s: State, t: nat)
    requires Locked(s) && RevokeInv(s) && t < |s.pcs| && (s.pcs[t].GrantWait? || s.pcs[t].RevokeWait?)
    ensures RevokeInv(GateMove(s, t))
  {
    assert LockedBy(s, t);
    assert s.gate.enabled ==> RevokePc(s.gate.generation, s.gate.owned, s.sup.streamOpen, s.pcs[t]);
    if s.locks.m.None? {
      forall i: nat | i < |s.pcs| ensures !HoldsGate(s.pcs[i]) { assert LockedBy(s, i); }
    }
  }

  lemma RevokeTake(s: State, t: nat)
    requires Locked(s) && RevokeInv(s) && t < |s.pcs| && s.pcs[t].GrantTake?
    ensures RevokeInv(GateMove(s, t))
  {
    assert LockedBy(s, t);
    assert s.gate.enabled ==> RevokePc(s.gate.generation, s.gate.owned, s.sup.streamOpen, s.pcs[t]);
    if s.locks.m.None? {
      forall i: nat | i < |s.pcs| ensures !HoldsGate(s.pcs[i]) { assert LockedBy(s, i); }
    }
  }

  lemma RevokeGate(s: State, t: nat)
    requires Locked(s) && RevokeInv(s) && t < |s.pcs| && !HoldsGate(s.pcs[t])
    ensures RevokeInv(GateMove(s, t))
  {
    match s.pcs[t]
    case StopWait => RevokeStopSection(s, t);
    case ClearWait => RevokeStopSection(s, t);
    case GrantWait(_) => RevokeDrop(s, t);
    case RevokeWait => RevokeDrop(s, t);
    case GrantTake(_) => RevokeTake(s, t);
    case _ =>
  }

  lemma RevokeClear(s: State, t: nat)
    requires Locked(s) && RevokeInv(s) && t < |s.pcs| && s.pcs[t].Clearing?
    ensures RevokeInv(ClearMove(s, t, s.pcs[t].stage))
  {
    ClearIdles(s, t);
    RevokeIdles(s, ClearMove(s, t, s.pcs[t].stage), t);
  }

  lemma RevokeBegin(s: State, t: nat, op: Op)
    requires Locked(s) && RevokeInv(s) && t < |s.pcs|
    ensures RevokeInv(Begin(s, t, op))
  {
    assert LockedBy(s, t);
    assert s.gate.enabled ==> RevokePc(s.gate.generation, s.gate.owned, s.sup.streamOpen, s.pcs[t]);
  }

  lemma RevokeCalm(s: State, n: State)
    requires RevokeInv(s) && Shrinks(s.sup.inbox, n.sup.inbox) && Calmer(s, n)
    ensures RevokeInv(n)
  {
    if NoLiveGoal(s.sup.inbox) { ShrinksKeepsNoLive(s.sup.inbox, n.sup.inbox); }
  }

  lemma RevokeBackend(s: State, t: nat, pick: bool)
    requires Locked(s) && RevokeInv(s) && t < |s.pcs|
    ensures RevokeInv(BackendMove(s, t, pick))
  {
    match s.pcs[t]
    case Past(Opening(_, _)) => RevokeOpen(s, t, pick);
    case Past(Locking(_, _)) => RevokeCommit(s, t);
    case Halting(_, _, _) => RevokeHalt(s, t);
    case Clearing(_) => RevokeClear(s, t);
    case pc => if HoldsGate(pc) || pc.Waiting? { RevokeDelegate(s, t); } else { RevokeGate(s, t); }
  }

  lemma RevokeKept(s: State, a: Action)
    requires Locked(s) && RevokeInv(s)
    ensures RevokeInv(Next(s, a))
  {
    match a
    case Enter(t, op) => if t < |s.pcs| { RevokeBegin(s, t, op); }
    case Move(t, pick) => if t < |s.pcs| { RevokeBackend(s, t, pick); }
    case Sample(pick) => SamplerCalm(s, pick); RevokeCalm(s, Next(s, a));
    case _ => OutsideCalm(s, a); RevokeCalm(s, Next(s, a));
  }

  // ---- a link drop and a contact trip --------------------------------------------

  /** on_stream_open saw the arm ready under stream_mtx_ and may still open. */
  predicate TrustsLink(pc: Pc) { pc.Past? && pc.work.Locking? && !pc.work.at.SawLinkDown? }
  /** on_stream_open saw the contact latch clear under stream_mtx_ and may still open. */
  predicate TrustsArm(pc: Pc) { pc.Past? && pc.work.Locking? && (pc.work.at.SawUnlatched? || pc.work.at.SawMode?) }

  predicate LinkClosed(s: State) { s.link.DropMarking? || s.link.DropLining? || s.link.Down? }
  predicate LinkHalted(s: State) { s.link.DropLining? || s.link.Down? }
  predicate LinkInv(s: State) {
    && (s.sup.ready <==> s.link.Up?)
    && (LinkClosed(s) ==> !s.sup.streamOpen && forall t: nat :: t < |s.pcs| ==> !TrustsLink(s.pcs[t]))
    && (LinkHalted(s) ==> NoLiveGoal(s.sup.inbox))
  }

  lemma LinkEntry(s: State, t: nat)
    requires Locked(s) && LinkInv(s) && t < |s.pcs| && !s.pcs[t].Past?
    ensures LinkInv(DelegateMove(s, t))
  {
    assert LockedBy(s, t);
  }

  lemma LinkCall(s: State, t: nat)
    requires Locked(s) && LinkInv(s) && t < |s.pcs| && s.pcs[t].Past? && s.pcs[t].work.Admitted?
    ensures LinkInv(DelegateMove(s, t))
  {
    assert LockedBy(s, t);
  }

  lemma LinkEnqueue(s: State, t: nat)
    requires Locked(s) && LinkInv(s) && t < |s.pcs| && s.pcs[t].Past? && s.pcs[t].work.Enqueueing?
    ensures LinkInv(DelegateMove(s, t))
  {
    assert LockedBy(s, t);
  }

  lemma LinkDelegate(s: State, t: nat)
    requires Locked(s) && LinkInv(s) && t < |s.pcs|
    ensures LinkInv(DelegateMove(s, t))
  {
    if !s.pcs[t].Past? {
      LinkEntry(s, t);
    } else if s.pcs[t].work.Admitted? {
      LinkCall(s, t);
    } else if s.pcs[t].work.Enqueueing? {
      LinkEnqueue(s, t);
    }
  }

  lemma LinkOpen(s: State, t: nat, pick: bool)
    requires Locked(s) && LinkInv(s) && t < |s.pcs| && s.pcs[t].Past? && s.pcs[t].work.Opening?
    ensures LinkInv(OpenMove(s, t, s.pcs[t].work.stage, s.pcs[t].work.kind, pick))
  {
    assert LockedBy(s, t);
  }

  lemma LinkCommit(s: State, t: nat)
    requires Locked(s) && LinkInv(s) && t < |s.pcs| && s.pcs[t].Past? && s.pcs[t].work.Locking?
    ensures LinkInv(CommitMove(s, t, s.pcs[t].work.at, s.pcs[t].work.kind))
  {
    assert LockedBy(s, t);
  }

  lemma LinkHaltOpen(s: State, t: nat)
    requires Locked(s) && LinkInv(s) && t < |s.pcs| && s.pcs[t].Halting? && !s.pcs[t].closed
    ensures LinkInv(HaltMove(s, t, false, s.pcs[t].why, s.pcs[t].after))
  {
    assert LockedBy(s, t);
  }

  lemma LinkHaltClosed(s: State, t: nat)
    requires Locked(s) && LinkInv(s) && t < |s.pcs| && s.pcs[t].Halting? && s.pcs[t].closed && s.locks.q.None?
    ensures LinkInv(HaltMove(s, t, true, s.pcs[t].why, s.pcs[t].after))
  {
    assert LockedBy(s, t);
    MarkHaltedKeepsGoals(s.sup.inbox, s.pcs[t].why);
  }

  lemma LinkHalt(s: State, t: nat)
    requires Locked(s) && LinkInv(s) && t < |s.pcs| && s.pcs[t].Halting?
    ensures LinkInv(HaltMove(s, t, s.pcs[t].closed, s.pcs[t].why, s.pcs[t].after))
  {
    if !s.pcs[t].closed { LinkHaltOpen(s, t); } else if s.locks.q.None? { LinkHaltClosed(s, t); }
  }

  lemma LinkGate(s: State, t: nat)
    requires Locked(s) && LinkInv(s) && t < |s.pcs| && !HoldsGate(s.pcs[t])
    ensures LinkInv(GateMove(s, t))
  {
    assert LockedBy(s, t);
  }

  lemma LinkClear(s: State, t: nat)
    requires Locked(s) && LinkInv(s) && t < |s.pcs| && s.pcs[t].Clearing?
    ensures LinkInv(ClearMove(s, t, s.pcs[t].stage))
  {
    assert LockedBy(s, t);
  }

  lemma LinkBegin(s: State, t: nat, op: Op)
    requires Locked(s) && LinkInv(s) && t < |s.pcs|
    ensures LinkInv(Begin(s, t, op))
  {
    assert LockedBy(s, t);
  }

  lemma LinkCalm(s: State, n: State)
    requires LinkInv(s) && Shrinks(s.sup.inbox, n.sup.inbox) && Calmer(s, n) && SameLink(s, n)
    ensures LinkInv(n)
  {
    if NoLiveGoal(s.sup.inbox) { ShrinksKeepsNoLive(s.sup.inbox, n.sup.inbox); }
  }

  lemma LinkCloses(s: State)
    requires Locked(s) && LinkInv(s)
    requires s.link.DropClosing?
    ensures LinkInv(LinkMove(s))
  {
    forall i: nat | i < |s.pcs| && s.locks.sm.None? ensures !TrustsLink(s.pcs[i]) { assert LockedBy(s, i); }
  }

  lemma LinkMarks(s: State)
    requires Locked(s) && LinkInv(s)
    requires s.link.DropMarking?
    ensures LinkInv(LinkMove(s))
  {
    MarkHaltedKeepsGoals(s.sup.inbox, ArmUnavailable);
  }

  lemma LinkRests(s: State)
    requires Locked(s) && LinkInv(s)
    requires !s.link.DropClosing? && !s.link.DropMarking?
    ensures LinkInv(LinkMove(s))
  {
  }

  lemma LinkStepKeeps(s: State)
    requires Locked(s) && LinkInv(s)
    ensures LinkInv(LinkMove(s))
  {
    if s.link.DropClosing? {
      LinkCloses(s);
    } else if s.link.DropMarking? {
      LinkMarks(s);
    } else {
      LinkRests(s);
    }
  }

  lemma LinkOutside(s: State, a: Action)
    requires Locked(s) && LinkInv(s)
    ensures LinkInv(OutsideMove(s, a))
  {
    if a.LinkStep? { LinkStepKeeps(s); }
  }

  lemma LinkBackend(s: State, t: nat, pick: bool)
    requires Locked(s) && LinkInv(s) && t < |s.pcs|
    ensures LinkInv(BackendMove(s, t, pick))
  {
    match s.pcs[t]
    case Past(Opening(_, _)) => LinkOpen(s, t, pick);
    case Past(Locking(_, _)) => LinkCommit(s, t);
    case Halting(_, _, _) => LinkHalt(s, t);
    case Clearing(_) => LinkClear(s, t);
    case pc => if HoldsGate(pc) || pc.Waiting? { LinkDelegate(s, t); } else { LinkGate(s, t); }
  }

  lemma LinkKept(s: State, a: Action)
    requires Locked(s) && LinkInv(s)
    ensures LinkInv(Next(s, a))
  {
    match a
    case Enter(t, op) => if t < |s.pcs| { LinkBegin(s, t, op); }
    case Move(t, pick) => if t < |s.pcs| { LinkBackend(s, t, pick); }
    case Sample(pick) => SamplerCalm(s, pick); LinkCalm(s, Next(s, a));
    case _ => LinkOutside(s, a);
  }

  predicate ContactInv(s: State) {
    && (s.hist.contactStage >= 1 ==> s.sup.latched)
    && (s.hist.contactStage >= 2 ==> !s.sup.streamOpen && forall t: nat :: t < |s.pcs| ==> !TrustsArm(s.pcs[t]))
    && (s.hist.contactStage >= 3 ==>
          && NoLiveGoal(s.sup.inbox)
          && forall t: nat :: t < |s.pcs| && HoldsQueue(s.pcs[t]) ==> s.pcs[t].work.sawLatch)
  }

  lemma ContactEntry(s: State, t: nat)
    requires Locked(s) && ContactInv(s) && t < |s.pcs| && !s.pcs[t].Past?
    ensures ContactInv(DelegateMove(s, t))
  {
    assert LockedBy(s, t);
  }

  lemma ContactCall(s: State, t: nat)
    requires Locked(s) && ContactInv(s) && t < |s.pcs| && s.pcs[t].Past? && s.pcs[t].work.Admitted?
    ensures ContactInv(DelegateMove(s, t))
  {
    assert LockedBy(s, t);
  }

  lemma ContactEnqueue(s: State, t: nat)
    requires Locked(s) && ContactInv(s) && t < |s.pcs| && s.pcs[t].Past? && s.pcs[t].work.Enqueueing?
    ensures ContactInv(DelegateMove(s, t))
  {
    assert LockedBy(s, t);
  }

  lemma ContactDelegate(s: State, t: nat)
    requires Locked(s) && ContactInv(s) && t < |s.pcs|
    ensures ContactInv(DelegateMove(s, t))
  {
    if !s.pcs[t].Past? {
      ContactEntry(s, t);
    } else if s.pcs[t].work.Admitted? {
      ContactCall(s, t);
    } else if s.pcs[t].work.Enqueueing? {
      ContactEnqueue(s, t);
    }
  }

  lemma ContactOpen(s: State, t: nat, pick: bool)
    requires Locked(s) && ContactInv(s) && t < |s.pcs| && s.pcs[t].Past? && s.pcs[t].work.Opening?
    ensures ContactInv(OpenMove(s, t, s.pcs[t].work.stage, s.pcs[t].work.kind, pick))
  {
    assert LockedBy(s, t);
  }

  lemma ContactCommit(s: State, t: nat)
    requires Locked(s) && ContactInv(s) && t < |s.pcs| && s.pcs[t].Past? && s.pcs[t].work.Locking?
    ensures ContactInv(CommitMove(s, t, s.pcs[t].work.at, s.pcs[t].work.kind))
  {
    assert LockedBy(s, t);
  }

  lemma ContactHaltOpen(s: State, t: nat)
    requires Locked(s) && ContactInv(s) && t < |s.pcs| && s.pcs[t].Halting? && !s.pcs[t].closed
    ensures ContactInv(HaltMove(s, t, false, s.pcs[t].why, s.pcs[t].after))
  {
    assert LockedBy(s, t);
  }

  lemma ContactHaltClosed(s: State, t: nat)
    requires Locked(s) && ContactInv(s) && t < |s.pcs| && s.pcs[t].Halting? && s.pcs[t].closed && s.locks.q.None?
    ensures ContactInv(HaltMove(s, t, true, s.pcs[t].why, s.pcs[t].after))
  {
    assert LockedBy(s, t);
    MarkHaltedKeepsGoals(s.sup.inbox, s.pcs[t].why);
  }

  lemma ContactHalt(s: State, t: nat)
    requires Locked(s) && ContactInv(s) && t < |s.pcs| && s.pcs[t].Halting?
    ensures ContactInv(HaltMove(s, t, s.pcs[t].closed, s.pcs[t].why, s.pcs[t].after))
  {
    if !s.pcs[t].closed { ContactHaltOpen(s, t); } else if s.locks.q.None? { ContactHaltClosed(s, t); }
  }

  lemma ContactGate(s: State, t: nat)
    requires Locked(s) && ContactInv(s) && t < |s.pcs| && !HoldsGate(s.pcs[t])
    ensures ContactInv(GateMove(s, t))
  {
    assert LockedBy(s, t);
  }

  lemma ContactClear(s: State, t: nat)
    requires Locked(s) && ContactInv(s) && t < |s.pcs| && s.pcs[t].Clearing?
    ensures ContactInv(ClearMove(s, t, s.pcs[t].stage))
  {
    assert LockedBy(s, t);
  }

  lemma ContactBegin(s: State, t: nat, op: Op)
    requires Locked(s) && ContactInv(s) && t < |s.pcs|
    ensures ContactInv(Begin(s, t, op))
  {
    assert LockedBy(s, t);
  }

  lemma ContactCalm(s: State, n: State)
    requires ContactInv(s) && Shrinks(s.sup.inbox, n.sup.inbox) && Calmer(s, n)
    requires (n.hist.contactStage == 0 || (n.hist.contactStage == s.hist.contactStage && n.sup.latched))
    ensures ContactInv(n)
  {
    if NoLiveGoal(s.sup.inbox) { ShrinksKeepsNoLive(s.sup.inbox, n.sup.inbox); }
  }

  lemma ContactEdgeStep(s: State)
    requires Locked(s) && ContactInv(s) && PhaseOf(s.smp.pc).Edging?
    ensures ContactInv(EdgeStep(s))
  {
    EdgeStepCalm(s);
    if s.smp.pc.EdgeClosing? {
      forall i: nat | i < |s.pcs| && s.locks.sm.None? ensures !TrustsArm(s.pcs[i]) { assert LockedBy(s, i); }
    } else if s.smp.pc.EdgeMarking? {
      MarkHaltedKeepsGoals(s.sup.inbox, Contact);
      forall i: nat | i < |s.pcs| && s.locks.q.None? ensures !HoldsQueue(s.pcs[i]) { assert LockedBy(s, i); }
    } else if !s.smp.pc.Edge? {
      ContactCalm(s, EdgeStep(s));
    }
  }

  lemma SamplerStage(s: State, pick: bool)
    requires !PhaseOf(s.smp.pc).Edging?
    ensures SamplerMove(s, pick).hist.contactStage == s.hist.contactStage
  {
    match PhaseOf(s.smp.pc)
    case Stopping => TakeStepCalm(s);
    case Draining => DrainStepCalm(s, pick);
    case _ => GoalStepCalm(s, pick);
  }

  lemma StageOutside(s: State, a: Action)
    ensures OutsideMove(s, a).hist.contactStage == 0
            || (OutsideMove(s, a).hist.contactStage == s.hist.contactStage
                && (s.sup.latched ==> OutsideMove(s, a).sup.latched))
  {
  }

  lemma ContactBackend(s: State, t: nat, pick: bool)
    requires Locked(s) && ContactInv(s) && t < |s.pcs|
    ensures ContactInv(BackendMove(s, t, pick))
  {
    match s.pcs[t]
    case Past(Opening(_, _)) => ContactOpen(s, t, pick);
    case Past(Locking(_, _)) => ContactCommit(s, t);
    case Halting(_, _, _) => ContactHalt(s, t);
    case Clearing(_) => ContactClear(s, t);
    case pc => if HoldsGate(pc) || pc.Waiting? { ContactDelegate(s, t); } else { ContactGate(s, t); }
  }

  lemma ContactKept(s: State, a: Action)
    requires Locked(s) && ContactInv(s)
    ensures ContactInv(Next(s, a))
  {
    match a
    case Enter(t, op) => if t < |s.pcs| { ContactBegin(s, t, op); }
    case Move(t, pick) => if t < |s.pcs| { ContactBackend(s, t, pick); }
    case Sample(pick) =>
      if PhaseOf(s.smp.pc).Edging? {
        ContactEdgeStep(s);
      } else {
        SamplerStage(s, pick);
        SamplerCalm(s, pick);
        ContactCalm(s, Next(s, a));
      }
    case _ =>
      OutsideCalm(s, a);
      StageOutside(s, a);
      ContactCalm(s, Next(s, a));
  }
}
