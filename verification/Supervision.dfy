/** Command admission and the goal lifecycle as one interleaved machine: backend
  * threads calling through the Arbiter, the Supervisor's sampler, ArmLink's thread
  * and the RT thread's contact latch.
  *
  * A step is one lock section or one access to an atomic. A section under a lock
  * that also reads an atomic another thread writes is split at that read, and the
  * lock is then held across steps (fields m, q and sm).
  */
module Supervision {
  import opened Basics
  import opened CommandQueue
  import opened Arbiter

  // ---- one backend thread -------------------------------------------------

  datatype Call =
    | AcceptCall(goal: Goal, token: Token)
    | CancelCall(token: Token)
    | OpenCall(kind: ModeKind, token: Token)
    | CloseCall(token: Token)

  datatype Op = Delegate(call: Call) | EStop | EStopClear | Grant(token: Token) | Revoke | Halt(why: HaltReason)
      | ClearContact

  /** What follows an on_halt. `since` is the grant generation the owner was dropped at. */
  datatype After =
    | Finished
    | StopBooking                        // estop()'s first halt, without m_
    | StopDone                           // estop()'s second halt, under m_
    | Granting(token: Token, since: nat)
    | Revoking(since: nat)
    | ClearingContact

  /** on_stream_open before it takes stream_mtx_: what it has seen or done so far. */
  datatype OpenStage = SawArmReady | SawNoLatch | Checked | SawOtherMode | ModeRequested
  /** on_stream_open while it holds stream_mtx_. */
  datatype LockStage = SawLinkDown | SawReady | SawUnlatched | SawMode

  /** Inside a delegated call that admit() let through; m_ is held. */
  datatype Work =
    | Admitted(call: Call)
    | Enqueueing(goal: Goal, sawLatch: bool)  // q_mtx_ held too, contact latch read
    | Opening(stage: OpenStage, kind: ModeKind)
    | Locking(at: LockStage, kind: ModeKind)  // stream_mtx_ held too

  datatype ClearStage = ReadLatch | LineUp | AskMonitor | FlagSampler

  datatype Pc =
    | Idle
    | Waiting(call: Call)                // wants m_
    | Holding(call: Call)                // m_ held, admit not yet evaluated
    | Past(work: Work)                   // m_ held, admitted
    | Returning                          // m_ held, about to release it
    | Halting(closed: bool, why: HaltReason, after: After)  // on_halt: stream closed yet?
    | StopWait                           // estop(): wants m_
    | ClearWait                          // estop_clear(): wants m_
    | GrantWait(token: Token)
    | GrantTake(token: Token)
    | RevokeWait
    | Clearing(stage: ClearStage)        // clear_contact()

  predicate SecondHalt(pc: Pc) { pc.Halting? && pc.after.StopDone? }
  predicate HoldsGate(pc: Pc) { pc.Holding? || pc.Past? || pc.Returning? || SecondHalt(pc) }
  predicate HoldsQueue(pc: Pc) { pc.Past? && pc.work.Enqueueing? }
  predicate HoldsStream(pc: Pc) { pc.Past? && pc.work.Locking? }

  // ---- the sampler, the link thread, the whole state ------------------------

  datatype SamplerPc =
    | Top                                // about to exchange contact_cleared_
    | Edge                               // about to read the contact latch
    | EdgeClosing | EdgeMarking          // on_halt(kContact)
    | Take                               // about to take a pending halt
    | Resetting                          // halt taken: about to read ready_
    | Lining(down: bool)                 // about to line position mode up, if the link is down
    | Rebinding                          // settle, executor idle, hold at measured q
    | Expiry                             // streaming deadline and IK fault
    | Drain                              // about to pop
    | Got(e: Inbound)
    | Check(id: nat, goal: Goal)
    | Switch(id: nat, goal: Goal)        // the running mode is another: about to request this one
    | Armed(id: nat, goal: Goal)         // mode settled: about to look for a halt
    | Submit(id: nat, goal: Goal)
    | Tick

  datatype LinkPc = Up | DropClosing | DropMarking | DropLining | Down

  /** What the sampler's halts and ticks last wrote into a mode's joint target. */
  datatype Target = Nothing | Hold | SampleOf(id: nat)

  /** One for each mode that has a joint target: velocity and torque have none. */
  datatype Targets = Targets(position: Target, impedance: Target) {
    function Of(k: ModeKind): Target {
      match k
      case Position => position
      case Impedance => impedance
      case _ => Nothing
    }

    /** Through sink_for: nothing is written where there is no joint target. */
    function Write(k: ModeKind, t: Target): Targets {
      match k
      case Position => this.(position := t)
      case Impedance => this.(impedance := t)
      case _ => this
    }
  }

  predicate HasTarget(k: ModeKind) { k.Position? || k.Impedance? }

  datatype Locks = Locks(m: Option<nat>, q: Option<nat>, sm: Option<nat>)

  /** What the Supervisor's threads share. */
  datatype Shared = Shared(
    inbox: seq<Inbound>, haltPending: bool, haltReason: HaltReason,
    streamOpen: bool, ready: bool, latched: bool, clearRequested: bool, contactCleared: bool,
    activeKind: ModeKind)

  /** What only the sampler touches: its position, the active goal, the executor, the joint
    * targets, and the mode its last halt found running. */
  datatype Sampler = Sampler(
    pc: SamplerPc, active: Option<nat>, execActive: bool, execMode: ModeKind, boundKind: ModeKind,
    wasLatched: bool, targets: Targets, held: Option<ModeKind>)

  datatype History = History(
    accepted: nat,           // goals accepted so far; the next one gets this number
    settled: multiset<nat>,  // action_.settle calls
    quiet: bool,             // an estop() finished its second halt, no estop_clear() since
    revoked: bool,           // an ownership halt finished, no grant since the drop
    contactStage: nat,       // 1 edge seen, 2 stream closed, 3 inbox marked; 0 once unlatched
    doomed: nat,             // goals accepted before the last halt
    outrun: nat,             // goals accepted before the last halt the sampler took
    ticks: nat)              // trajectory ticks since haltPending was last raised

  datatype State = State(
    gate: Gate, locks: Locks, sup: Shared, pcs: seq<Pc>, smp: Sampler, link: LinkPc, hist: History)

  function Init(enabled: bool, threads: nat): State {
    State(Gate(enabled, false, false, 0, 0, 0), Locks(None, None, None),
          Shared([], false, OwnershipRevoked, false, true, false, false, false, Position),
          seq(threads, _ => Idle),
          Sampler(Top, None, false, Position, Position, false, Targets(Nothing, Nothing), None), Up,
          History(0, multiset{}, false, false, 0, 0, 0, 0))
  }

  // ---- small changes ------------------------------------------------------------

  function SetM(s: State, h: Option<nat>): State { s.(locks := s.locks.(m := h)) }
  function SetQ(s: State, h: Option<nat>): State { s.(locks := s.locks.(q := h)) }
  function SetSm(s: State, h: Option<nat>): State { s.(locks := s.locks.(sm := h)) }
  function SetStream(s: State, open: bool): State { s.(sup := s.sup.(streamOpen := open)) }
  function SetKind(s: State, k: ModeKind): State { s.(sup := s.sup.(activeKind := k)) }
  function Push(s: State, e: Inbound): State { s.(sup := s.sup.(inbox := s.sup.inbox + [e])) }
  function At(s: State, pc: SamplerPc): State { s.(smp := s.smp.(pc := pc)) }

  function Goto(s: State, t: nat, pc: Pc): (r: State)
    requires t < |s.pcs|
  {
    s.(pcs := s.pcs[t := pc])
  }

  /** on_halt's q_mtx_ section. */
  function MarkInbox(s: State, r: HaltReason): State {
    var u := s.sup;
    s.(sup := u.(inbox := MarkHalted(u.inbox, r), haltReason := MergeReason(u.haltPending, u.haltReason, r),
                 haltPending := true),
       hist := s.hist.(doomed := s.hist.accepted, ticks := if u.haltPending then s.hist.ticks else 0))
  }

  // ---- backend threads ---------------------------------------------------------

  function Begin(s: State, t: nat, op: Op): State
    requires t < |s.pcs|
  {
    if !s.pcs[t].Idle? then s else
    match op
    case Delegate(call) => Goto(s, t, Waiting(call))
    case EStop => Goto(s.(gate := s.gate.(estopped := true)), t, Halting(false, EmergencyStop, StopBooking))
    case EStopClear => Goto(s, t, ClearWait)
    case Grant(token) => if token == 0 then s else Goto(s, t, GrantWait(token))
    case Revoke => Goto(s, t, RevokeWait)
    case Halt(why) => Goto(s, t, Halting(false, why, Finished))
    case ClearContact => Goto(s, t, Clearing(ReadLatch))
  }

  /** What on_trajectory_accepted appends. */
  function Entry(id: nat, goal: Goal, sawLatch: bool, ready: bool): Inbound {
    Queued(id, goal, sawLatch || !ready,
           if sawLatch then Contact else if !ready then ArmUnavailable else OwnershipRevoked)
  }

  /** The second half of on_trajectory_accepted: ready_ read, push, q_mtx_ released. */
  function Enqueue(s: State, t: nat, goal: Goal, sawLatch: bool): State
    requires t < |s.pcs|
  {
    var n := s.hist.accepted;
    var u := Push(s, Entry(n, goal, sawLatch, s.sup.ready));
    Goto(SetQ(u.(hist := u.hist.(accepted := n + 1)), None), t, Returning)
  }

  /** A step of a delegated call outside on_stream_open. */
  function DelegateMove(s: State, t: nat): State
    requires t < |s.pcs|
  {
    match s.pcs[t]
    case Waiting(call) =>
      if s.locks.m.Some? then s else Goto(SetM(s, Some(t)), t, Holding(call))
    case Holding(call) =>
      if Admits(s.gate, call.token) then Goto(s, t, Past(Admitted(call)))
      else Goto(s.(gate := s.gate.(rejected := s.gate.rejected + 1)), t, Returning)
    case Past(Admitted(AcceptCall(goal, _))) =>
      if s.locks.q.Some? then s else Goto(SetQ(s, Some(t)), t, Past(Enqueueing(goal, s.sup.latched)))
    case Past(Admitted(CancelCall(_))) =>
      if s.locks.q.Some? then s else Goto(Push(s, Cancel), t, Returning)
    case Past(Admitted(OpenCall(kind, _))) =>
      Goto(s, t, if s.sup.ready then Past(Opening(SawArmReady, kind)) else Returning)
    case Past(Admitted(CloseCall(_))) =>
      if s.locks.sm.Some? then s else Goto(SetStream(s, false), t, Returning)
    case Past(Enqueueing(goal, sawLatch)) => Enqueue(s, t, goal, sawLatch)
    case Returning => Goto(SetM(s, None), t, Idle)
    case _ => s
  }

  /** A step of on_stream_open up to stream_mtx_. `pick` is the verdict on the
    * request itself (a goal in flight, the timeout, the pair table, the gains). */
  function OpenMove(s: State, t: nat, stage: OpenStage, kind: ModeKind, pick: bool): State
    requires t < |s.pcs|
  {
    match stage
    case SawArmReady => Goto(s, t, if s.sup.latched then Returning else Past(Opening(SawNoLatch, kind)))
    case SawNoLatch => Goto(s, t, if s.sup.streamOpen || !pick then Returning else Past(Opening(Checked, kind)))
    case Checked =>
      Goto(s, t, Past(Opening(if s.sup.activeKind == kind then ModeRequested else SawOtherMode, kind)))
    case SawOtherMode => Goto(SetKind(s, kind), t, Past(Opening(ModeRequested, kind)))
    case ModeRequested =>
      if s.locks.sm.Some? then s
      else Goto(SetSm(s, Some(t)), t, Past(Locking(if s.sup.ready then SawReady else SawLinkDown, kind)))
  }

  /** A step of on_stream_open under stream_mtx_; the stream is marked open last. */
  function CommitMove(s: State, t: nat, at: LockStage, kind: ModeKind): State
    requires t < |s.pcs|
  {
    match at
    case SawLinkDown => Goto(SetSm(SetKind(s, Position), None), t, Returning)
    case SawReady =>
      if s.sup.latched then Goto(SetSm(s, None), t, Returning) else Goto(s, t, Past(Locking(SawUnlatched, kind)))
    case SawUnlatched =>
      if s.sup.activeKind != kind then Goto(SetSm(s, None), t, Returning)
      else Goto(s, t, Past(Locking(SawMode, kind)))
    case SawMode => Goto(SetSm(SetStream(s, true), None), t, Returning)
  }

  /** on_halt's second section, and what its caller does next. */
  function MarkThen(s: State, t: nat, why: HaltReason, after: After): State
    requires t < |s.pcs|
  {
    var h := MarkInbox(s, why);
    match after
    case Finished => Goto(h, t, Idle)
    case StopBooking => Goto(h, t, StopWait)
    case StopDone => Goto(h.(hist := h.hist.(quiet := true)), t, Returning)
    case Granting(token, since) =>
      Goto(h.(hist := h.hist.(revoked := s.hist.revoked || s.gate.generation == since)), t, GrantTake(token))
    case Revoking(since) =>
      Goto(h.(hist := h.hist.(revoked := s.hist.revoked || s.gate.generation == since)), t, Idle)
    case ClearingContact => Goto(h, t, Clearing(LineUp))
  }

  /** A step of an on_halt: close the stream, then mark the inbox. */
  function HaltMove(s: State, t: nat, closed: bool, why: HaltReason, after: After): State
    requires t < |s.pcs|
  {
    if closed then (if s.locks.q.Some? then s else MarkThen(s, t, why, after))
    else if s.locks.sm.Some? then s
    else Goto(SetStream(s, false), t, Halting(true, why, after))
  }

  /** The m_ section that drops a live owner, for grant and revoke. */
  function DropOwner(s: State, t: nat, after: After): State
    requires t < |s.pcs|
  {
    Goto(s.(gate := Disown(s.gate)), t, Halting(false, OwnershipRevoked, after))
  }

  /** A step of grant, revoke, estop or estop_clear outside on_halt. */
  function GateMove(s: State, t: nat): State
    requires t < |s.pcs|
  {
    if s.locks.m.Some? then s else
    match s.pcs[t]
    case StopWait =>
      Goto(SetM(s.(gate := Stopped(s.gate)), Some(t)), t, Halting(false, EmergencyStop, StopDone))
    case ClearWait =>
      Goto(s.(gate := s.gate.(estopped := false), hist := s.hist.(quiet := false)), t, Idle)
    case GrantWait(token) =>
      if s.gate.estopped then Goto(s, t, Idle)
      else if s.gate.owned then DropOwner(s, t, Granting(token, s.gate.generation))
      else Goto(s, t, GrantTake(token))
    case GrantTake(token) =>
      if s.gate.estopped then Goto(s, t, Idle)
      else Goto(s.(gate := Own(s.gate, token), hist := s.hist.(revoked := false)), t, Idle)
    case RevokeWait =>
      if s.gate.owned then DropOwner(s, t, Revoking(s.gate.generation)) else Goto(s, t, Idle)
    case _ => s
  }

  /** A step of clear_contact outside its on_halt. */
  function ClearMove(s: State, t: nat, stage: ClearStage): State
    requires t < |s.pcs|
  {
    match stage
    case ReadLatch => Goto(s, t, if s.sup.latched then Halting(false, Contact, ClearingContact) else Idle)
    case LineUp => Goto(SetKind(s, Position), t, Clearing(AskMonitor))
    case AskMonitor => Goto(s.(sup := s.sup.(clearRequested := true)), t, Clearing(FlagSampler))
    case FlagSampler => Goto(s.(sup := s.sup.(contactCleared := true)), t, Idle)
  }

  function BackendMove(s: State, t: nat, pick: bool): State
    requires t < |s.pcs|
  {
    match s.pcs[t]
    case Past(Opening(stage, kind)) => OpenMove(s, t, stage, kind, pick)
    case Past(Locking(at, kind)) => CommitMove(s, t, at, kind)
    case Halting(closed, why, after) => HaltMove(s, t, closed, why, after)
    case Clearing(stage) => ClearMove(s, t, stage)
    case pc => if HoldsGate(pc) || pc.Waiting? then DelegateMove(s, t) else GateMove(s, t)
  }

  // ---- the sampler -----------------------------------------------------------------

  datatype SubmitResult =
    | Accepted | RejectedModeChangeWhileMoving | RejectedEmpty | RejectedSpeedScale
    | RejectedQueueWhileActive | RejectedBadTimestamps

  /** TrajectoryExecutor::submit's verdict. */
  function SubmitVerdict(active: bool, mode: ModeKind, g: Goal): SubmitResult {
    if g.empty then RejectedEmpty
    else if !g.stampsOk then RejectedBadTimestamps
    else if !g.scaleOk then RejectedSpeedScale
    else if active && g.kind != mode then RejectedModeChangeWhileMoving
    else if !active then SubmitResult.Accepted
    else if g.queue then RejectedQueueWhileActive
    else SubmitResult.Accepted
  }

  function ActiveIds(p: Sampler): multiset<nat> {
    if p.active.Some? then multiset{p.active.value} else multiset{}
  }

  /** traj_.emplace: a fresh, idle executor bound to `k`. */
  function Rebind(s: State, k: ModeKind): State {
    s.(smp := s.smp.(execActive := false, execMode := Position, boundKind := k))
  }

  function Settle(s: State, ids: multiset<nat>): State {
    s.(hist := s.hist.(settled := s.hist.settled + ids))
  }

  /** Settle the goal in hand and go on draining. */
  function Refuse(s: State, id: nat): State { At(Settle(s, multiset{id}), Drain) }

  /** Settle whatever is active, make the executor idle on the running mode, go to `pc`. */
  function DropActive(s: State, pc: SamplerPc): State {
    s.(smp := s.smp.(pc := pc, active := None, execActive := false, execMode := Position,
                   boundKind := s.sup.activeKind),
       hist := s.hist.(settled := s.hist.settled + ActiveIds(s.smp)))
  }

  /** The same for a halt, with one load of the running mode: then hold where the arm is, if
    * that mode has a joint target. */
  function HoldHere(s: State, pc: SamplerPc): State {
    var d := DropActive(s, pc);
    d.(smp := d.smp.(targets := s.smp.targets.Write(s.sup.activeKind, Hold), held := Some(s.sup.activeKind)))
  }

  /** The sampler's own checks on a popped goal. */
  function CheckGoal(s: State, id: nat, g: Goal): State {
    if !(g.kind.Position? || g.kind.Impedance?) then Refuse(s, id)
    else if g.kind.Impedance? && !g.gainsOk then Refuse(s, id)
    else if s.smp.active.Some? && g.queue then Refuse(s, id)
    else if !g.stampsOk then Refuse(s, id)
    else if g.kind == s.smp.boundKind && g.kind == s.sup.activeKind then At(s, Armed(id, g))
    else if s.smp.active.Some? then Refuse(s, id)
    else At(s, Switch(id, g))
  }

  function SubmitGoal(s: State, id: nat, g: Goal): State {
    if SubmitVerdict(s.smp.execActive, s.smp.execMode, g) != SubmitResult.Accepted then Refuse(s, id)
    else
      s.(smp := s.smp.(active := Some(id), execActive := true, execMode := g.kind, pc := Drain),
         hist := s.hist.(settled := s.hist.settled + ActiveIds(s.smp)))
  }

  /** A sample of the active goal, written through the sink the executor is bound to: pos_
    * stands in where the kind has none. */
  function Sampled(p: Sampler): Targets
    requires p.active.Some?
  {
    p.targets.Write(if p.boundKind.Impedance? then Impedance else Position, SampleOf(p.active.value))
  }

  /** Tick the executor; `done` is completion or a divergence-guard trip. */
  function TickGoal(s: State, done: bool): State {
    if !s.smp.execActive then At(s, Top)
    else
      var p := s.smp.(pc := Top, targets := if s.smp.active.Some? then Sampled(s.smp) else s.smp.targets);
      var h := s.hist.(ticks := s.hist.ticks + 1);
      if done
      then s.(smp := p.(active := None, execActive := false), hist := h.(settled := h.settled + ActiveIds(s.smp)))
      else s.(smp := p, hist := h)
  }

  function SetStage(s: State, stage: nat): State { s.(hist := s.hist.(contactStage := stage)) }

  /** Step 0-): the contact edge. */
  function EdgeStep(s: State): State {
    match s.smp.pc
    case Top =>
      s.(smp := s.smp.(wasLatched := s.smp.wasLatched && !s.sup.contactCleared, pc := Edge),
         sup := s.sup.(contactCleared := false))
    case Edge =>
      var u := s.(smp := s.smp.(wasLatched := s.sup.latched));
      if s.sup.latched && !s.smp.wasLatched
      then At(SetStage(u, if s.hist.contactStage == 0 then 1 else s.hist.contactStage), EdgeClosing)
      else At(u, Take)
    case EdgeClosing =>
      if s.locks.sm.Some? then s
      else At(SetStage(SetStream(s, false), if s.hist.contactStage == 1 then 2 else s.hist.contactStage), EdgeMarking)
    case EdgeMarking =>
      if s.locks.q.Some? then s
      else At(SetStage(MarkInbox(s, Contact), if s.hist.contactStage == 2 then 3 else s.hist.contactStage), Take)
    case _ => s
  }

  /** Step 0): the pending halt. */
  function TakeStep(s: State): State {
    match s.smp.pc
    case Take =>
      if s.locks.q.Some? then s
      else if s.sup.haltPending
      then At(s.(sup := s.sup.(haltPending := false), hist := s.hist.(outrun := s.hist.doomed)), Resetting)
      else At(s, Expiry)
    case Resetting => At(s, Lining(!s.sup.ready))
    case Lining(down) => At(if down then SetKind(s, Position) else s, Rebinding)
    case Rebinding => HoldHere(s, Expiry)
    case _ => s
  }

  /** Steps 0b) to 1): expiry and the drain's pop. `pick` is a deadline or IK fault. */
  function DrainStep(s: State, pick: bool): State {
    match s.smp.pc
    case Expiry =>
      if !pick then At(s, Drain)
      else if s.locks.sm.Some? then s else At(SetStream(s, false), Drain)
    case Drain =>
      if s.locks.q.Some? then s
      else if s.sup.inbox == [] then At(s, Tick)
      else At(s.(sup := s.sup.(inbox := s.sup.inbox[1..])), Got(s.sup.inbox[0]))
    case Got(e) =>
      if e.Cancel? then DropActive(s, Drain)
      else if e.halted || s.sup.streamOpen then Refuse(s, e.id)
      else At(s, Check(e.id, e.goal))
    case _ => s
  }

  /** Steps 1) and 2): the goal in hand and the tick. `pick` is completion or a guard trip. */
  function GoalStep(s: State, pick: bool): State {
    match s.smp.pc
    case Check(id, goal) => CheckGoal(s, id, goal)
    case Switch(id, goal) => At(SetKind(Rebind(s, goal.kind), goal.kind), Armed(id, goal))
    case Armed(id, goal) =>
      if s.locks.q.Some? then s
      else if s.sup.haltPending then Refuse(s, id)
      else At(s, Submit(id, goal))
    case Submit(id, goal) => SubmitGoal(s, id, goal)
    case Tick => TickGoal(s, pick)
    case _ => s
  }

  /** Which part of the loop body the sampler is in. */
  datatype Phase = Edging | Stopping | Draining | Running

  function PhaseOf(pc: SamplerPc): Phase {
    match pc
    case Top => Edging
    case Edge => Edging
    case EdgeClosing => Edging
    case EdgeMarking => Edging
    case Expiry => Draining
    case Drain => Draining
    case Got(_) => Draining
    case Check(_, _) => Running
    case Switch(_, _) => Running
    case Armed(_, _) => Running
    case Submit(_, _) => Running
    case Tick => Running
    case _ => Stopping
  }

  function SamplerMove(s: State, pick: bool): State {
    match PhaseOf(s.smp.pc)
    case Edging => EdgeStep(s)
    case Stopping => TakeStep(s)
    case Draining => DrainStep(s, pick)
    case Running => GoalStep(s, pick)
  }

  // ---- the link and RT threads -------------------------------------------------------

  function LinkMove(s: State): State {
    match s.link
    case DropClosing => if s.locks.sm.Some? then s else SetStream(s, false).(link := DropMarking)
    case DropMarking => if s.locks.q.Some? then s else MarkInbox(s, ArmUnavailable).(link := DropLining)
    case DropLining => SetKind(s, Position).(link := Down)
    case _ => s
  }

  datatype Action =
    | Enter(t: nat, op: Op)
    | Move(t: nat, pick: bool)
    | Sample(pick: bool)
    | LinkDrops | LinkRuns | LinkStep
    | Trip | Unlatch

  /** on_link_state, and what the RT thread does to the contact latch. */
  function OutsideMove(s: State, a: Action): State {
    match a
    case LinkDrops => if s.link.Up? then s.(sup := s.sup.(ready := false), link := DropClosing) else s
    case LinkRuns => if s.link.Up? || s.link.Down? then s.(sup := s.sup.(ready := true), link := Up) else s
    case LinkStep => LinkMove(s)
    case Trip => s.(sup := s.sup.(latched := true))
    case Unlatch =>
      if s.sup.clearRequested
      then SetStage(s.(sup := s.sup.(latched := false, clearRequested := false)), 0) else s
    case _ => s
  }

  function Next(s: State, a: Action): State {
    match a
    case Enter(t, op) => if t < |s.pcs| then Begin(s, t, op) else s
    case Move(t, pick) => if t < |s.pcs| then BackendMove(s, t, pick) else s
    case Sample(pick) => SamplerMove(s, pick)
    case _ => OutsideMove(s, a)
  }

  function Run(s: State, acts: seq<Action>): State
    decreases |acts|
  {
    if acts == [] then s else Run(Next(s, acts[0]), acts[1..])
  }
}
