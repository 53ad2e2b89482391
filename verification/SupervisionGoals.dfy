/** What happens to accepted goals, over every run of Supervision's machine: each is
  * settled exactly once, a halt outruns all but one tick, an e-stop all motion.
  */
module SupervisionGoals {
  import opened Basics
  import opened CommandQueue
  import opened Supervision
  import opened SupervisionLocks
  import opened SupervisionStops

  // ---- where a goal can be ------------------------------------------------------

  /** The goal the sampler has popped and not yet dealt with. */
  function InHand(pc: SamplerPc): multiset<nat> {
    match pc
    case Got(e) => if e.Queued? then multiset{e.id} else multiset{}
    case Check(id, _) => multiset{id}
    case Switch(id, _) => multiset{id}
    case Armed(id, _) => multiset{id}
    case Submit(id, _) => multiset{id}
    case _ => multiset{}
  }

  function UpTo(n: nat): multiset<nat> {
    if n == 0 then multiset{} else UpTo(n - 1) + multiset{n - 1}
  }

  lemma {:induction false} UpToCounts(n: nat, k: nat)
    ensures UpTo(n)[k] == if k < n then 1 else 0
  {
    if n > 0 { UpToCounts(n - 1, k); }
  }

  /** The accepted goals are split among the inbox, the sampler's hand, the executor and
    * the settled ones. */
  predicate Partition(inbox: seq<Inbound>, smp: Sampler, settled: multiset<nat>, accepted: nat) {
    multiset(GoalIds(inbox)) + InHand(smp.pc) + ActiveIds(smp) + settled == UpTo(accepted)
  }

  // ---- the executor and the sampler agree ------------------------------------------

  /** A goal is running exactly when the executor is active, in the mode it is bound to. */
  predicate ExecInv(p: Sampler) {
    && (p.active.Some? <==> p.execActive)
    && (p.execActive ==> p.execMode == p.boundKind)
    && (p.execActive ==> HasTarget(p.boundKind))
    && (p.pc.Switch? ==> p.active.None? && p.pc.goal.stampsOk && HasTarget(p.pc.goal.kind))
    && (p.pc.Armed? || p.pc.Submit? ==>
          && p.pc.goal.stampsOk && p.pc.goal.kind == p.boundKind && HasTarget(p.boundKind)
          && (p.active.Some? ==> !p.pc.goal.queue))
  }

  // ---- halts ------------------------------------------------------------------------

  /** Between the tick and the next look at a pending halt. */
  predicate BeforeTake(pc: SamplerPc) { pc.Top? || pc.Edge? || pc.EdgeClosing? || pc.EdgeMarking? || pc.Take? }
  /** A halt has been taken and is being carried out. */
  predicate CarryingOut(pc: SamplerPc) { pc.Resetting? || pc.Lining? || pc.Rebinding? }

  predicate LiveInHand(pc: SamplerPc) {
    (pc.Got? && Live(pc.e)) || pc.Check? || pc.Switch? || pc.Armed? || pc.Submit?
  }
  function HandId(pc: SamplerPc): nat
    requires LiveInHand(pc)
  {
    if pc.Got? then pc.e.id else pc.id
  }

  predicate EntryInv(doomed: nat, e: Inbound) { e.Queued? && e.id < doomed ==> e.halted }
  predicate InboxInv(inbox: seq<Inbound>, doomed: nat) {
    forall i :: 0 <= i < |inbox| ==> EntryInv(doomed, inbox[i])
  }
  /** `id` was accepted before a halt that the sampler has taken. */
  predicate Outrun(h: History, pending: bool, id: nat) { id < h.outrun || (id < h.doomed && !pending) }

  /** The joint target of the mode the last halt found running. */
  function HeldTarget(p: Sampler): Target { if p.held.Some? then p.targets.Of(p.held.value) else Nothing }

  /** No goal accepted before a halt is anywhere it could run from once the halt is taken. */
  predicate HaltInv(p: Sampler, h: History, pending: bool) {
    && h.outrun <= h.doomed <= h.accepted
    && (LiveInHand(p.pc) ==> !Outrun(h, pending, HandId(p.pc)))
    && (p.active.Some? ==> !Outrun(h, pending, p.active.value) || CarryingOut(p.pc))
    && (HeldTarget(p).SampleOf? ==> !Outrun(h, pending, HeldTarget(p).id) || CarryingOut(p.pc))
    && (h.outrun > 0 ==> p.held.Some? || CarryingOut(p.pc))
    && (pending ==> h.ticks <= 1 && (h.ticks == 1 ==> BeforeTake(p.pc)))
  }
  /** Every goal the sampler knows was accepted. */
  predicate Known(p: Sampler, accepted: nat) {
    && (LiveInHand(p.pc) ==> HandId(p.pc) < accepted)
    && (p.active.Some? ==> p.active.value < accepted)
    && (HeldTarget(p).SampleOf? ==> HeldTarget(p).id < accepted)
  }
  predicate InboxKnown(inbox: seq<Inbound>, accepted: nat) {
    forall i :: 0 <= i < |inbox| && inbox[i].Queued? ==> inbox[i].id < accepted
  }

  predicate GoalInv(s: State) {
    && Partition(s.sup.inbox, s.smp, s.hist.settled, s.hist.accepted)
    && ExecInv(s.smp)
    && InboxInv(s.sup.inbox, s.hist.doomed) && InboxKnown(s.sup.inbox, s.hist.accepted)
    && HaltInv(s.smp, s.hist, s.sup.haltPending)
    && Known(s.smp, s.hist.accepted)
  }

  // ---- steps of everyone but the sampler, and the sampler's own halt -----------------

  /** The inbox and the halt bookkeeping stay as they are. */
  predicate Unmoved(s: State, n: State) {
    && n.sup.inbox == s.sup.inbox && n.sup.haltPending == s.sup.haltPending
    && n.hist.settled == s.hist.settled && n.hist.accepted == s.hist.accepted
    && n.hist.doomed == s.hist.doomed && n.hist.outrun == s.hist.outrun && n.hist.ticks == s.hist.ticks
  }
  /** The inbox is marked by a halt. */
  predicate Marked(s: State, n: State, r: HaltReason) {
    && n.sup.inbox == MarkHalted(s.sup.inbox, r) && n.sup.haltPending
    && n.hist.settled == s.hist.settled && n.hist.accepted == s.hist.accepted
    && n.hist.doomed == s.hist.accepted && n.hist.outrun == s.hist.outrun
    && n.hist.ticks == if s.sup.haltPending then s.hist.ticks else 0
  }
  /** `e` is appended; a goal gets the next acceptance number. */
  predicate Pushed(s: State, n: State, e: Inbound) {
    && n.sup.inbox == s.sup.inbox + [e] && n.sup.haltPending == s.sup.haltPending
    && (e.Queued? ==> e.id == s.hist.accepted)
    && n.hist.accepted == s.hist.accepted + (if e.Queued? then 1 else 0)
    && n.hist.settled == s.hist.settled && n.hist.doomed == s.hist.doomed
    && n.hist.outrun == s.hist.outrun && n.hist.ticks == s.hist.ticks
  }
  /** A step that leaves the sampler's goals alone. */
  predicate QueueStep(s: State, n: State, r: HaltReason, e: Inbound) {
    Unmoved(s, n) || Marked(s, n, r) || Pushed(s, n, e)
  }
  predicate SameGoals(p: Sampler, u: Sampler) {
    u == p || (BeforeTake(p.pc) && BeforeTake(u.pc) && u == p.(pc := u.pc, wasLatched := u.wasLatched))
  }

  lemma PushedIds(ids: seq<nat>, rest: multiset<nat>, n: nat)
    requires multiset(ids) + rest == UpTo(n)
    ensures multiset(ids + [n]) + rest == UpTo(n + 1)
  {
    assert multiset(ids + [n]) == multiset(ids) + multiset{n};
  }

  /** The acceptance numbers in the inbox change only by a push. */
  lemma InboxIds(s: State, n: State, r: HaltReason, e: Inbound)
    requires QueueStep(s, n, r, e)
    ensures n.hist.accepted == s.hist.accepted || n.hist.accepted == s.hist.accepted + 1
    ensures GoalIds(n.sup.inbox) == GoalIds(s.sup.inbox)
            + (if n.hist.accepted == s.hist.accepted then [] else [s.hist.accepted])
  {
    MarkHaltedKeepsGoals(s.sup.inbox, r);
    GoalIdsAppend(s.sup.inbox, e);
    assert GoalIds(s.sup.inbox) + [] == GoalIds(s.sup.inbox);
  }

  lemma PartitionPushed(ids: seq<nat>, hand: multiset<nat>, active: multiset<nat>, settled: multiset<nat>, n: nat)
    requires multiset(ids) + hand + active + settled == UpTo(n)
    ensures multiset(ids + [n]) + hand + active + settled == UpTo(n + 1)
  {
    var rest := hand + active + settled;
    assert multiset(ids) + rest == multiset(ids) + hand + active + settled;
    PushedIds(ids, rest, n);
    assert multiset(ids + [n]) + rest == multiset(ids + [n]) + hand + active + settled;
  }

  lemma PartitionMoved(s: State, n: State)
    requires Partition(s.sup.inbox, s.smp, s.hist.settled, s.hist.accepted)
    requires InHand(n.smp.pc) == InHand(s.smp.pc) && ActiveIds(n.smp) == ActiveIds(s.smp)
    requires n.hist.settled == s.hist.settled
    requires n.hist.accepted == s.hist.accepted || n.hist.accepted == s.hist.accepted + 1
    requires GoalIds(n.sup.inbox) == GoalIds(s.sup.inbox)
             + (if n.hist.accepted == s.hist.accepted then [] else [s.hist.accepted])
    ensures Partition(n.sup.inbox, n.smp, n.hist.settled, n.hist.accepted)
  {
    var ids := GoalIds(s.sup.inbox);
    if n.hist.accepted == s.hist.accepted {
      assert ids + [] == ids;
    } else {
      PartitionPushed(ids, InHand(s.smp.pc), ActiveIds(s.smp), s.hist.settled, s.hist.accepted);
    }
  }

  lemma PartitionKept(s: State, n: State, r: HaltReason, e: Inbound)
    requires Partition(s.sup.inbox, s.smp, s.hist.settled, s.hist.accepted)
    requires QueueStep(s, n, r, e) && SameGoals(s.smp, n.smp)
    ensures Partition(n.sup.inbox, n.smp, n.hist.settled, n.hist.accepted)
  {
    InboxIds(s, n, r, e);
    PartitionMoved(s, n);
  }

  lemma HaltsUnmoved(s: State, n: State)
    requires GoalInv(s) && Unmoved(s, n) && SameGoals(s.smp, n.smp)
    ensures HaltInv(n.smp, n.hist, n.sup.haltPending) && Known(n.smp, n.hist.accepted)
  {
  }

  lemma HaltsMarked(s: State, n: State, r: HaltReason)
    requires GoalInv(s) && Marked(s, n, r) && SameGoals(s.smp, n.smp)
    ensures HaltInv(n.smp, n.hist, n.sup.haltPending) && Known(n.smp, n.hist.accepted)
  {
  }

  lemma HaltsPushed(s: State, n: State, e: Inbound)
    requires GoalInv(s) && Pushed(s, n, e) && SameGoals(s.smp, n.smp)
    ensures HaltInv(n.smp, n.hist, n.sup.haltPending) && Known(n.smp, n.hist.accepted)
  {
  }

  lemma HaltsKept(s: State, n: State, r: HaltReason, e: Inbound)
    requires GoalInv(s) && QueueStep(s, n, r, e) && SameGoals(s.smp, n.smp)
    ensures HaltInv(n.smp, n.hist, n.sup.haltPending) && Known(n.smp, n.hist.accepted)
  {
    if Unmoved(s, n) {
      HaltsUnmoved(s, n);
    } else if Marked(s, n, r) {
      HaltsMarked(s, n, r);
    } else {
      HaltsPushed(s, n, e);
    }
  }

  lemma {:induction false} InboxMarked(inbox: seq<Inbound>, r: HaltReason, accepted: nat)
    requires InboxKnown(inbox, accepted)
    ensures InboxInv(MarkHalted(inbox, r), accepted) && InboxKnown(MarkHalted(inbox, r), accepted)
  {
    if inbox != [] {
      InboxMarked(inbox[1..], r, accepted);
      var rest := MarkHalted(inbox[1..], r);
      if !inbox[0].Cancel? {
        assert inbox[0].id < accepted;
      } else {
        assert [] + rest == rest;
      }
    }
  }

  lemma InboxUnmoved(s: State, n: State)
    requires GoalInv(s) && Unmoved(s, n)
    ensures InboxInv(n.sup.inbox, n.hist.doomed) && InboxKnown(n.sup.inbox, n.hist.accepted)
  {
  }

  lemma InboxPushed(s: State, n: State, e: Inbound)
    requires GoalInv(s) && Pushed(s, n, e)
    ensures InboxInv(n.sup.inbox, n.hist.doomed) && InboxKnown(n.sup.inbox, n.hist.accepted)
  {
    var inbox, last := s.sup.inbox, |s.sup.inbox|;
    forall i | 0 <= i <= last ensures EntryInv(n.hist.doomed, n.sup.inbox[i]) {
      if i < last { assert n.sup.inbox[i] == inbox[i] && EntryInv(s.hist.doomed, inbox[i]); }
    }
    forall i | 0 <= i <= last && n.sup.inbox[i].Queued? ensures n.sup.inbox[i].id < n.hist.accepted {
      if i < last { assert n.sup.inbox[i] == inbox[i]; }
    }
  }

  lemma InboxKept(s: State, n: State, r: HaltReason, e: Inbound)
    requires GoalInv(s) && QueueStep(s, n, r, e)
    ensures InboxInv(n.sup.inbox, n.hist.doomed) && InboxKnown(n.sup.inbox, n.hist.accepted)
  {
    if Unmoved(s, n) {
      InboxUnmoved(s, n);
    } else if Marked(s, n, r) {
      InboxMarked(s.sup.inbox, r, s.hist.accepted);
    } else {
      InboxPushed(s, n, e);
    }
  }

  lemma QueueStepKeeps(s: State, n: State, r: HaltReason, e: Inbound)
    requires GoalInv(s) && QueueStep(s, n, r, e) && SameGoals(s.smp, n.smp)
    ensures GoalInv(n)
  {
    PartitionKept(s, n, r, e);
    HaltsKept(s, n, r, e);
    InboxKept(s, n, r, e);
  }

  /** Nothing of the goals changes. */
  predicate Untouched(s: State, n: State) { n.smp == s.smp && Unmoved(s, n) }

  lemma UntouchedKeeps(s: State, n: State)
    requires GoalInv(s) && Untouched(s, n)
    ensures GoalInv(n)
  {
  }

  /** What a delegated call may append at this point. */
  function Offered(s: State, pc: Pc): Inbound {
    match pc
    case Past(Enqueueing(goal, sawLatch)) => Entry(s.hist.accepted, goal, sawLatch, s.sup.ready)
    case _ => Cancel
  }

  predicate Pushing(s: State, pc: Pc) {
    pc.Past? && (pc.work.Enqueueing? || (pc.work.Admitted? && pc.work.call.CancelCall? && s.locks.q.None?))
  }
  function HaltWhy(pc: Pc): HaltReason { if pc.Halting? then pc.why else Contact }

  lemma DelegateQueue(s: State, t: nat)
    requires t < |s.pcs|
    ensures if Pushing(s, s.pcs[t]) then Pushed(s, DelegateMove(s, t), Offered(s, s.pcs[t]))
            else Unmoved(s, DelegateMove(s, t))
    ensures DelegateMove(s, t).smp == s.smp
  {
  }

  lemma HaltQueue(s: State, t: nat, closed: bool, why: HaltReason, after: After)
    requires t < |s.pcs|
    ensures if closed && s.locks.q.None? then Marked(s, HaltMove(s, t, closed, why, after), why)
            else Unmoved(s, HaltMove(s, t, closed, why, after))
    ensures HaltMove(s, t, closed, why, after).smp == s.smp
  {
  }

  lemma OpenUntouched(s: State, t: nat, stage: OpenStage, kind: ModeKind, pick: bool)
    requires t < |s.pcs|
    ensures Untouched(s, OpenMove(s, t, stage, kind, pick))
  {
  }

  lemma CommitUntouched(s: State, t: nat, at: LockStage, kind: ModeKind)
    requires t < |s.pcs|
    ensures Untouched(s, CommitMove(s, t, at, kind))
  {
  }

  lemma GateUntouched(s: State, t: nat)
    requires t < |s.pcs|
    ensures Untouched(s, GateMove(s, t))
  {
  }

  lemma ClearUntouched(s: State, t: nat, stage: ClearStage)
    requires t < |s.pcs|
    ensures Untouched(s, ClearMove(s, t, stage))
  {
  }

  lemma BeginUntouched(s: State, t: nat, op: Op)
    requires t < |s.pcs|
    ensures Untouched(s, Begin(s, t, op))
  {
  }

  lemma OutsideQueue(s: State, a: Action)
    ensures if a.LinkStep? && s.link.DropMarking? && s.locks.q.None? then Marked(s, OutsideMove(s, a), ArmUnavailable)
            else Unmoved(s, OutsideMove(s, a))
    ensures OutsideMove(s, a).smp == s.smp
  {
  }

  lemma BackendQueue(s: State, t: nat, pick: bool)
    requires t < |s.pcs|
    ensures QueueStep(s, BackendMove(s, t, pick), HaltWhy(s.pcs[t]), Offered(s, s.pcs[t]))
    ensures BackendMove(s, t, pick).smp == s.smp
  {
    match s.pcs[t]
    case Past(Opening(stage, kind)) => OpenUntouched(s, t, stage, kind, pick);
    case Past(Locking(at, kind)) => CommitUntouched(s, t, at, kind);
    case Halting(closed, why, after) => HaltQueue(s, t, closed, why, after);
    case Clearing(stage) => ClearUntouched(s, t, stage);
    case pc => if HoldsGate(pc) || pc.Waiting? { DelegateQueue(s, t); } else { GateUntouched(s, t); }
  }

  lemma BackendKeeps(s: State, t: nat, pick: bool)
    requires GoalInv(s) && t < |s.pcs|
    ensures GoalInv(BackendMove(s, t, pick))
  {
    BackendQueue(s, t, pick);
    QueueStepKeeps(s, BackendMove(s, t, pick), HaltWhy(s.pcs[t]), Offered(s, s.pcs[t]));
  }

  // ---- the sampler ------------------------------------------------------------------

  lemma EdgeQueue(s: State)
    ensures if s.smp.pc.EdgeMarking? && s.locks.q.None? then Marked(s, EdgeStep(s), Contact)
            else Unmoved(s, EdgeStep(s))
  {
  }

  lemma EdgeKeeps(s: State)
    requires GoalInv(s)
    ensures GoalInv(EdgeStep(s))
  {
    EdgeQueue(s);
    QueueStepKeeps(s, EdgeStep(s), Contact, Cancel);
  }

  /** Only the sampler's position changes, and no goal enters or leaves its hand. */
  predicate PcOnly(s: State, n: State) {
    && n.smp == s.smp.(pc := n.smp.pc) && n.hist == s.hist
    && n.sup == s.sup.(activeKind := n.sup.activeKind, streamOpen := n.sup.streamOpen)
    && InHand(n.smp.pc) == InHand(s.smp.pc)
    && (LiveInHand(n.smp.pc) ==> LiveInHand(s.smp.pc) && HandId(n.smp.pc) == HandId(s.smp.pc))
    && (BeforeTake(s.smp.pc) ==> BeforeTake(n.smp.pc))
    && (CarryingOut(s.smp.pc) ==> CarryingOut(n.smp.pc))
    && (n.smp.pc.Switch? || n.smp.pc.Armed? || n.smp.pc.Submit? ==> ExecInv(n.smp))
  }

  lemma PcOnlyKeeps(s: State, n: State)
    requires GoalInv(s) && PcOnly(s, n)
    ensures GoalInv(n)
  {
  }

  /** The goal in hand is settled and the sampler goes on draining. */
  lemma RefuseKeeps(s: State, id: nat)
    requires GoalInv(s) && InHand(s.smp.pc) == multiset{id}
    ensures GoalInv(Refuse(s, id))
  {
  }

  /** Whatever was active is settled and the executor is idle. */
  predicate Dropped(s: State, n: State) {
    && n.smp.active == None && !n.smp.execActive
    && n.hist == s.hist.(settled := s.hist.settled + ActiveIds(s.smp))
    && n.sup == s.sup
    && InHand(s.smp.pc) == multiset{} && (n.smp.pc.Drain? || n.smp.pc.Expiry?)
    && (HeldTarget(n.smp) == Hold || HeldTarget(n.smp) == Nothing
        || (HeldTarget(n.smp) == HeldTarget(s.smp) && !CarryingOut(s.smp.pc)))
    && (n.smp.held.Some? || n.smp.held == s.smp.held) && (CarryingOut(s.smp.pc) ==> n.smp.held.Some?)
    && !BeforeTake(s.smp.pc)
  }

  lemma DroppedKeeps(s: State, n: State)
    requires GoalInv(s) && Dropped(s, n)
    ensures GoalInv(n)
  {
    assert Partition(n.sup.inbox, n.smp, n.hist.settled, n.hist.accepted);
  }

  /** A pending halt is taken: nothing it outran stays able to run past Rebinding. */
  predicate Taken(s: State, n: State) {
    && s.smp.pc.Take? && n.smp == s.smp.(pc := n.smp.pc)
    && n.hist == s.hist.(outrun := if s.sup.haltPending then s.hist.doomed else s.hist.outrun)
    && n.sup == s.sup.(haltPending := false)
    && n.smp.pc == (if s.sup.haltPending then Resetting else Expiry)
  }

  lemma TakenKeeps(s: State, n: State)
    requires GoalInv(s) && Taken(s, n)
    ensures GoalInv(n)
  {
  }

  lemma TakeCases(s: State)
    requires s.smp.pc.Take?
    ensures TakeStep(s) == s || Taken(s, TakeStep(s))
  {
  }

  lemma RebindCases(s: State)
    requires s.smp.pc.Rebinding?
    ensures Dropped(s, TakeStep(s))
  {
  }

  lemma LineUpCases(s: State)
    requires s.smp.pc.Resetting? || s.smp.pc.Lining?
    ensures PcOnly(s, TakeStep(s))
  {
  }

  lemma TakeKeeps(s: State)
    requires GoalInv(s) && (s.smp.pc.Take? || CarryingOut(s.smp.pc))
    ensures GoalInv(TakeStep(s))
  {
    var n := TakeStep(s);
    if s.smp.pc.Take? {
      TakeCases(s);
      if n != s { TakenKeeps(s, n); }
    } else if s.smp.pc.Rebinding? {
      RebindCases(s);
      DroppedKeeps(s, n);
    } else {
      LineUpCases(s);
      PcOnlyKeeps(s, n);
    }
  }

  /** The head of the inbox moves to the sampler's hand. */
  predicate Popped(s: State, n: State) {
    && s.smp.pc.Drain? && s.sup.inbox != []
    && n.smp == s.smp.(pc := Got(s.sup.inbox[0])) && n.hist == s.hist
    && n.sup == s.sup.(inbox := s.sup.inbox[1..])
  }

  lemma PoppedIds(inbox: seq<Inbound>)
    requires inbox != []
    ensures multiset(GoalIds(inbox)) == multiset(GoalIds(inbox[1..])) + InHand(Got(inbox[0]))
  {
    if inbox[0].Queued? {
      assert GoalIds(inbox) == [inbox[0].id] + GoalIds(inbox[1..]);
    } else {
      assert [] + GoalIds(inbox[1..]) == GoalIds(inbox[1..]);
    }
  }

  lemma PoppedPartition(s: State, n: State)
    requires Partition(s.sup.inbox, s.smp, s.hist.settled, s.hist.accepted) && Popped(s, n)
    ensures Partition(n.sup.inbox, n.smp, n.hist.settled, n.hist.accepted)
  {
    PoppedIds(s.sup.inbox);
    assert InHand(s.smp.pc) == multiset{};
    assert ActiveIds(n.smp) == ActiveIds(s.smp);
  }

  lemma PoppedInbox(inbox: seq<Inbound>, doomed: nat, accepted: nat)
    requires inbox != [] && InboxInv(inbox, doomed) && InboxKnown(inbox, accepted)
    ensures InboxInv(inbox[1..], doomed) && InboxKnown(inbox[1..], accepted)
    ensures EntryInv(doomed, inbox[0]) && (inbox[0].Queued? ==> inbox[0].id < accepted)
  {
  }

  lemma PoppedKeeps(s: State, n: State)
    requires GoalInv(s) && Popped(s, n)
    ensures GoalInv(n)
  {
    PoppedPartition(s, n);
    PoppedInbox(s.sup.inbox, s.hist.doomed, s.hist.accepted);
  }

  lemma PopCases(s: State, pick: bool)
    requires s.smp.pc.Drain?
    ensures PcOnly(s, DrainStep(s, pick)) || Popped(s, DrainStep(s, pick)) || DrainStep(s, pick) == s
  {
  }

  lemma CancelCases(s: State, pick: bool)
    requires s.smp.pc.Got? && s.smp.pc.e.Cancel?
    ensures Dropped(s, DrainStep(s, pick))
  {
  }

  lemma GotCases(s: State, pick: bool)
    requires s.smp.pc.Got? && s.smp.pc.e.Queued?
    ensures DrainStep(s, pick) == Refuse(s, s.smp.pc.e.id) || PcOnly(s, DrainStep(s, pick))
  {
  }

  lemma ExpiryCases(s: State, pick: bool)
    requires s.smp.pc.Expiry?
    ensures PcOnly(s, DrainStep(s, pick))
  {
  }

  lemma DrainKeeps(s: State, pick: bool)
    requires GoalInv(s) && (s.smp.pc.Expiry? || s.smp.pc.Drain? || s.smp.pc.Got?)
    ensures GoalInv(DrainStep(s, pick))
  {
    var n := DrainStep(s, pick);
    if s.smp.pc.Expiry? {
      ExpiryCases(s, pick);
      PcOnlyKeeps(s, n);
    } else if s.smp.pc.Drain? {
      PopCases(s, pick);
      if PcOnly(s, n) { PcOnlyKeeps(s, n); } else if Popped(s, n) { PoppedKeeps(s, n); }
    } else if s.smp.pc.e.Cancel? {
      CancelCases(s, pick);
      DroppedKeeps(s, n);
    } else {
      GotCases(s, pick);
      if PcOnly(s, n) { PcOnlyKeeps(s, n); } else { RefuseKeeps(s, s.smp.pc.e.id); }
    }
  }

  /** The goal in hand becomes the active one; what it preempts is settled. */
  predicate Started(s: State, n: State) {
    && s.smp.pc.Submit? && n.smp.pc.Drain?
    && n.smp == s.smp.(pc := Drain, active := Some(s.smp.pc.id), execActive := true, execMode := s.smp.pc.goal.kind)
    && n.hist == s.hist.(settled := s.hist.settled + ActiveIds(s.smp)) && n.sup == s.sup
  }

  lemma StartedPartition(s: State, n: State)
    requires Partition(s.sup.inbox, s.smp, s.hist.settled, s.hist.accepted) && Started(s, n)
    ensures Partition(n.sup.inbox, n.smp, n.hist.settled, n.hist.accepted)
  {
    assert InHand(s.smp.pc) == ActiveIds(n.smp);
    assert InHand(n.smp.pc) == multiset{};
  }

  lemma StartedKeeps(s: State, n: State)
    requires GoalInv(s) && Started(s, n)
    ensures GoalInv(n)
  {
    StartedPartition(s, n);
  }

  /** One trajectory tick; `done` settles the goal. */
  predicate Ticked(s: State, n: State, done: bool) {
    && s.smp.pc.Tick? && s.smp.active.Some?
    && n.smp.pc == Top && n.smp.held == s.smp.held
    && (HeldTarget(n.smp) == HeldTarget(s.smp) || HeldTarget(n.smp) == SampleOf(s.smp.active.value))
    && n.smp.execMode == s.smp.execMode && n.smp.boundKind == s.smp.boundKind
    && n.smp.active == (if done then None else s.smp.active) && n.smp.execActive == !done
    && n.hist == s.hist.(ticks := s.hist.ticks + 1,
                         settled := s.hist.settled + if done then ActiveIds(s.smp) else multiset{})
    && n.sup == s.sup
  }

  lemma TickedPartition(s: State, n: State, done: bool)
    requires Partition(s.sup.inbox, s.smp, s.hist.settled, s.hist.accepted) && Ticked(s, n, done)
    ensures Partition(n.sup.inbox, n.smp, n.hist.settled, n.hist.accepted)
  {
    assert InHand(s.smp.pc) == multiset{} && InHand(n.smp.pc) == multiset{};
    assert ActiveIds(n.smp) == if done then multiset{} else ActiveIds(s.smp);
  }

  lemma TickedHalts(s: State, n: State, done: bool)
    requires HaltInv(s.smp, s.hist, s.sup.haltPending) && Known(s.smp, s.hist.accepted) && Ticked(s, n, done)
    ensures HaltInv(n.smp, n.hist, n.sup.haltPending) && Known(n.smp, n.hist.accepted)
  {
  }

  lemma TickedKeeps(s: State, n: State, done: bool)
    requires GoalInv(s) && Ticked(s, n, done)
    ensures GoalInv(n)
  {
    TickedPartition(s, n, done);
    TickedHalts(s, n, done);
  }

  lemma MatchCases(s: State)
    requires ExecInv(s.smp) && s.smp.pc.Check?
    requires s.smp.pc.goal.kind == s.smp.boundKind && s.smp.pc.goal.kind == s.sup.activeKind
    ensures GoalStep(s, false) == Refuse(s, s.smp.pc.id)
            || PcOnly(s, GoalStep(s, false))
  {
  }

  lemma OtherCases(s: State)
    requires ExecInv(s.smp) && s.smp.pc.Check?
    requires !(s.smp.pc.goal.kind == s.smp.boundKind && s.smp.pc.goal.kind == s.sup.activeKind)
    ensures GoalStep(s, false) == Refuse(s, s.smp.pc.id)
            || PcOnly(s, GoalStep(s, false))
  {
  }

  lemma CheckCases(s: State)
    requires ExecInv(s.smp) && s.smp.pc.Check?
    ensures GoalStep(s, false) == Refuse(s, s.smp.pc.id)
            || PcOnly(s, GoalStep(s, false))
  {
    if s.smp.pc.goal.kind == s.smp.boundKind && s.smp.pc.goal.kind == s.sup.activeKind {
      MatchCases(s);
    } else {
      OtherCases(s);
    }
  }

  lemma SwitchCases(s: State)
    requires ExecInv(s.smp) && s.smp.pc.Switch?
    ensures Switched(s, GoalStep(s, false))
  {
  }

  /** The idle executor is bound to the goal's mode. */
  predicate Switched(s: State, n: State) {
    && s.smp.active.None? && s.smp.pc.Switch? && n.smp.pc == Armed(s.smp.pc.id, s.smp.pc.goal)
    && n.smp == s.smp.(pc := n.smp.pc, execMode := n.smp.execMode, boundKind := n.smp.boundKind)
    && n.hist == s.hist && n.sup == s.sup.(activeKind := n.sup.activeKind)
    && s.smp.pc.goal.stampsOk && n.smp.boundKind == s.smp.pc.goal.kind
  }

  lemma SwitchedKeeps(s: State, n: State)
    requires GoalInv(s) && Switched(s, n)
    ensures GoalInv(n)
  {
  }

  lemma ArmedCases(s: State, pick: bool)
    requires s.smp.pc.Armed? && ExecInv(s.smp)
    ensures GoalStep(s, pick) == Refuse(s, s.smp.pc.id) || PcOnly(s, GoalStep(s, pick))
  {
  }

  lemma SubmitCases(s: State, pick: bool)
    requires s.smp.pc.Submit?
    ensures GoalStep(s, pick) == Refuse(s, s.smp.pc.id) || Started(s, GoalStep(s, pick))
  {
  }

  lemma TickCases(s: State, pick: bool)
    requires s.smp.pc.Tick? && ExecInv(s.smp)
    ensures PcOnly(s, GoalStep(s, pick)) || Ticked(s, GoalStep(s, pick), pick)
  {
  }

  lemma GoalKeeps(s: State, pick: bool)
    requires GoalInv(s) && (s.smp.pc.Check? || s.smp.pc.Switch? || s.smp.pc.Armed? || s.smp.pc.Submit?
             || s.smp.pc.Tick?)
    ensures GoalInv(GoalStep(s, pick))
  {
    var n := GoalStep(s, pick);
    if s.smp.pc.Tick? {
      TickCases(s, pick);
      if PcOnly(s, n) { PcOnlyKeeps(s, n); } else { TickedKeeps(s, n, pick); }
    } else {
      RefuseKeeps(s, s.smp.pc.id);
      if s.smp.pc.Submit? {
        SubmitCases(s, pick);
        if Started(s, n) { StartedKeeps(s, n); }
      } else {
        if s.smp.pc.Check? { CheckCases(s); } else if s.smp.pc.Switch? { SwitchCases(s); } else { ArmedCases(s, pick); }
        if PcOnly(s, n) { PcOnlyKeeps(s, n); } else if Switched(s, n) { SwitchedKeeps(s, n); }
      }
    }
  }

  lemma SamplerKeeps(s: State, pick: bool)
    requires GoalInv(s)
    ensures GoalInv(SamplerMove(s, pick))
  {
    match PhaseOf(s.smp.pc)
    case Edging => EdgeKeeps(s);
    case Stopping => TakeKeeps(s);
    case Draining => DrainKeeps(s, pick);
    case Running => GoalKeeps(s, pick);
  }

  lemma EnterKeeps(s: State, t: nat, op: Op)
    requires GoalInv(s) && t < |s.pcs|
    ensures GoalInv(Begin(s, t, op))
  {
    BeginUntouched(s, t, op);
    UntouchedKeeps(s, Begin(s, t, op));
  }

  lemma OutsideKeeps(s: State, a: Action)
    requires GoalInv(s)
    ensures GoalInv(OutsideMove(s, a))
  {
    OutsideQueue(s, a);
    QueueStepKeeps(s, OutsideMove(s, a), ArmUnavailable, Cancel);
  }

  lemma GoalsKept(s: State, a: Action)
    requires GoalInv(s)
    ensures GoalInv(Next(s, a))
  {
    hide GoalInv;
    match a
    case Enter(t, op) => if t < |s.pcs| { EnterKeeps(s, t, op); }
    case Move(t, pick) => if t < |s.pcs| { BackendKeeps(s, t, pick); }
    case Sample(pick) => SamplerKeeps(s, pick);
    case _ => OutsideKeeps(s, a);
  }
}
