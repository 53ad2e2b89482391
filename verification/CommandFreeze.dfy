/** A streamed command, from the setters on one thread to compute on the RT thread, step by
  * step at the granularity of the atomics: buffer, index, source, bump on one side; count,
  * timeout, source, index, buffer on the other. JointVelocityMode (gated) takes a payload
  * only on the cycle that saw the counter move; JointImpedanceMode (not gated) reads it in
  * every cycle that is not frozen.
  */
module CommandFreeze {
  import opened Basics
  import opened CommandWatchdog

  datatype Kind = Joint | Cartesian

  /** The n-th call of a setter, and what it asked for. */
  datatype Command = Command(number: nat, kind: Kind, payload: Vec)

  datatype Buffer = Buffer(zero: Option<Command>, one: Option<Command>, active: bool) {
    function At(i: bool): Option<Command> { if i then one else zero }
    function Fill(c: Command): Buffer {
      if active then this.(zero := Some(c)) else this.(one := Some(c))
    }
  }

  datatype Writer = Idle | Filled(kind: Kind, c: Command) | Indexed(kind: Kind, c: Command)
      | Named(kind: Kind, c: Command)

  datatype Shared = Shared(joint: Buffer, cartesian: Buffer, source: Option<Kind>, count: nat, timeout: real) {
    function Of(k: Kind): Buffer { if k.Joint? then joint else cartesian }
    function With(k: Kind, b: Buffer): Shared { if k.Joint? then this.(joint := b) else this.(cartesian := b) }
  }

  datatype Pc =
    | Waiting
    | Entering(q: Vec)
    | Counted(q: Vec)
    | Timed(q: Vec, stale: bool)
    | Sourced(q: Vec, stale: bool, source: Option<Kind>)
    | Reading(q: Vec, stale: bool, kind: Kind, index: bool)

  datatype Mode = Mode(watch: Watch, frozen: bool, reference: Vec, joint: Option<Command>, cartesian: Option<Command>) {
    function Of(k: Kind): Option<Command> { if k.Joint? then joint else cartesian }
    function With(k: Kind, c: Option<Command>): Mode {
      if k.Joint? then this.(joint := c) else this.(cartesian := c)
    }
  }

  /** One entry or one compute: `count` is what entry found when it reset the source, and
    * `seen` what the tick read. */
  datatype Event =
    | Entered(q: Vec, count: nat)
    | Cycled(q: Vec, seen: nat, isNew: bool, stale: bool, frozen: bool,
             source: Option<Kind>, used: Option<Command>, reference: Vec)

  datatype State = State(gated: bool, shared: Shared, writer: Writer, pc: Pc, mode: Mode, entry: nat, log: seq<Event>)

  datatype Action =
    | Fill(kind: Kind, payload: Vec)
    | Index
    | Name
    | Bump
    | Arm(seconds: real)
    | Enter(q: Vec)
    | ResetWatch
    | LoadCount(q: Vec, dt: real)
    | LoadTimeout
    | LoadSource
    | LoadIndex
    | Compute(next: Vec)

  function Start(gated: bool, timeout: real): State {
    State(gated, Shared(Buffer(None, None, false), Buffer(None, None, false), None, 0, timeout),
          Idle, Waiting, Mode(ResetAt(0), false, Zero(), None, None), 0, [])
  }

  /** Does this cycle read a buffer? */
  predicate Reads(s: State, source: Option<Kind>) {
    source.Some? && !s.mode.frozen && (s.gated ==> s.mode.watch.isNew)
  }

  predicate Enabled(s: State, a: Action) {
    match a
    case Fill(_, _) => s.writer.Idle?
    case Index => s.writer.Filled?
    case Name => s.writer.Indexed?
    case Bump => s.writer.Named?
    case Arm(_) => true
    case Enter(_) => s.pc.Waiting?
    case ResetWatch => s.pc.Entering?
    case LoadCount(_, _) => s.pc.Waiting? && s.log != []
    case LoadTimeout => s.pc.Counted?
    case LoadSource => s.pc.Timed?
    case LoadIndex => s.pc.Sourced? && Reads(s, s.pc.source)
    case Compute(_) => s.pc.Reading? || (s.pc.Sourced? && !Reads(s, s.pc.source))
  }

  /** The end of compute: a frozen cycle holds, any other may take its reference anywhere. */
  function Computed(s: State, next: Vec): State
    requires Enabled(s, Compute(next))
  {
    var source := if s.pc.Reading? then Some(s.pc.kind) else s.pc.source;
    var m := if s.pc.Reading? then s.mode.With(s.pc.kind, s.shared.Of(s.pc.kind).At(s.pc.index)) else s.mode;
    var used := if m.frozen || source.None? then None else m.Of(source.value);
    var reference := if !m.frozen then next else if s.gated then s.pc.q else m.reference;
    s.(pc := Waiting, mode := m.(reference := reference),
       log := s.log + [Cycled(s.pc.q, m.watch.lastSeen, m.watch.isNew, s.pc.stale, m.frozen, source, used, reference)])
  }

  function Next(s: State, a: Action): State
    requires Enabled(s, a)
  {
    match a
    case Fill(k, payload) =>
      var c := Command(s.shared.count + 1, k, payload);
      s.(shared := s.shared.With(k, s.shared.Of(k).Fill(c)), writer := Filled(k, c))
    case Index =>
      var b := s.shared.Of(s.writer.kind);
      s.(shared := s.shared.With(s.writer.kind, b.(active := !b.active)), writer := Indexed(s.writer.kind, s.writer.c))
    case Name => s.(shared := s.shared.(source := Some(s.writer.kind)), writer := Named(s.writer.kind, s.writer.c))
    case Bump => s.(shared := s.shared.(count := s.shared.count + 1), writer := Idle)
    case Arm(t) => s.(shared := s.shared.(timeout := t))
    case Enter(q) =>
      s.(shared := s.shared.(source := None), pc := Entering(q), entry := s.shared.count,
         mode := Mode(s.mode.watch, s.mode.frozen, q, None, None))
    case ResetWatch =>
      s.(pc := Waiting, mode := s.mode.(watch := ResetAt(s.shared.count), frozen := false),
         log := s.log + [Entered(s.pc.q, s.entry)])
    case LoadCount(q, dt) =>
      s.(pc := Counted(q), mode := s.mode.(watch := Ticked(s.mode.watch, s.shared.count, dt)))
    case LoadTimeout =>
      var stale := IsStale(s.mode.watch, s.shared.timeout);
      s.(pc := Timed(s.pc.q, stale),
         mode := s.mode.(frozen := Latch(s.mode.frozen, s.mode.watch, stale),
                         reference := if stale then s.pc.q else s.mode.reference))
    case LoadSource => s.(pc := Sourced(s.pc.q, s.pc.stale, s.shared.source))
    case LoadIndex => s.(pc := Reading(s.pc.q, s.pc.stale, s.pc.source.value, s.shared.Of(s.pc.source.value).active))
    case Compute(next) => Computed(s, next)
  }

  // ---- what a log promises ------------------------------------------------------------

  /** A stale cycle since the last fresh one or the last entry. */
  predicate StaleSince(log: seq<Event>) {
    log != [] &&
    var e := log[|log| - 1];
    e.Cycled? && (if e.stale then true else if e.isNew then false else StaleSince(log[..|log| - 1]))
  }

  /** Where the arm was at the last stale cycle. */
  function StaleAt(log: seq<Event>): Option<Vec> {
    if log == [] then None
    else if log[|log| - 1].Cycled? && log[|log| - 1].stale then Some(log[|log| - 1].q)
    else StaleAt(log[..|log| - 1])
  }

  /** The count the last entry found. */
  function EntryCount(log: seq<Event>): nat {
    if log == [] then 0
    else if log[|log| - 1].Entered? then log[|log| - 1].count
    else EntryCount(log[..|log| - 1])
  }

  /** The most the ticks and entries have read of the counter. */
  function LastSeen(log: seq<Event>): nat {
    if log == [] then 0
    else if log[|log| - 1].Cycled? then log[|log| - 1].seen
    else LastSeen(log[..|log| - 1])
  }

  /** The last fresh cycle of this session. */
  function LastNew(log: seq<Event>): (r: Option<Event>)
    ensures r.Some? ==> r.value.Cycled?
  {
    if log == [] then None
    else
      var e := log[|log| - 1];
      if e.Entered? then None else if e.isNew then Some(e) else LastNew(log[..|log| - 1])
  }

  predicate CycleOk(gated: bool, before: seq<Event>, e: Event) {
    e.Cycled? ==>
      && !(e.isNew && e.stale)
      && e.frozen == (e.stale || (!e.isNew && StaleSince(before)))
      // frozen: no command is acted on, and the reference holds
      && (e.frozen ==>
            e.used.None? && (if gated then e.reference == e.q else Some(e.reference) == StaleAt(before + [e])))
      // only commands of this session are acted on
      && (e.used.Some? ==> e.used.value.number > EntryCount(before))
      // a fresh cycle acts on the command it saw, or a later one
      && (e.isNew && e.source.Some? ==> e.used.Some? && e.used.value.number >= e.seen > LastSeen(before))
      && (!e.isNew ==> e.seen >= LastSeen(before))
      // until the next fresh one it acts on that command exactly while the source stays
      && (gated && !e.frozen && !e.isNew && e.source.Some? && LastNew(before).Some?
          && LastNew(before).value.source.Some? ==>
            (e.used == LastNew(before).value.used <==> e.source == LastNew(before).value.source))
      // no buffer is read before a setter has filled it
      && (!gated && !e.frozen && e.source.Some? ==> e.used.Some?)
  }

  predicate LogOk(gated: bool, log: seq<Event>) {
    log == [] || (LogOk(gated, log[..|log| - 1]) && CycleOk(gated, log[..|log| - 1], log[|log| - 1]))
  }
}

/** The invariant, and what it gives over every interleaving. */
module CommandFreezeRuns {
  import opened Basics
  import opened CommandWatchdog
  import opened CommandFreeze

  /** The buffer names a filled slot with at least this number. */
  predicate Has(slot: Option<Command>, least: nat) { slot.Some? && slot.value.number >= least }

  predicate InHand(s: State, k: Kind) {
    (s.writer.Indexed? || s.writer.Named?) && s.writer.kind == k
  }

  /** Only the call in hand is ahead of the counter, and only once its buffer is switched. */
  predicate SlotsInv(s: State, k: Kind) {
    var b := s.shared.Of(k);
    && (b.zero.Some? ==> b.zero.value.kind == k) && (b.one.Some? ==> b.one.value.kind == k)
    && (b.At(b.active).Some? ==> b.At(b.active).value.number <= s.shared.count + (if InHand(s, k) then 1 else 0))
    && (InHand(s, k) ==> b.At(b.active) == Some(s.writer.c))
    && (s.writer.Filled? && s.writer.kind == k ==> b.At(!b.active) == Some(s.writer.c))
  }

  predicate WriterInv(s: State) {
    && SlotsInv(s, Joint) && SlotsInv(s, Cartesian)
    && (!s.writer.Idle? ==> s.writer.c.number == s.shared.count + 1)
    && (s.writer.Named? && s.shared.source.Some? ==> s.shared.source.value == s.writer.kind)
    && (s.shared.source.Some? ==>
          var b := s.shared.Of(s.shared.source.value);
          Has(b.At(b.active), s.shared.count) && Has(b.At(b.active), s.entry + 1))
    && s.entry <= s.shared.count
  }

  predicate AdoptedInv(s: State, k: Kind) {
    s.mode.Of(k).Some? ==> s.mode.Of(k).value.number > s.entry && s.mode.Of(k).value.kind == k
  }

  predicate KeptInv(s: State) {
    s.gated && !s.pc.Entering? && LastNew(s.log).Some? && LastNew(s.log).value.source.Some? ==>
      LastNew(s.log).value.used.Some? && s.mode.Of(LastNew(s.log).value.source.value) == LastNew(s.log).value.used
  }

  predicate Ticking(s: State) { !s.pc.Waiting? && !s.pc.Entering? }
  predicate PastTimeout(s: State) { s.pc.Timed? || s.pc.Sourced? || s.pc.Reading? }

  predicate WatchInv(s: State) {
    && s.mode.watch.lastSeen <= s.shared.count && LastSeen(s.log) <= s.mode.watch.lastSeen
    && (!s.pc.Entering? ==> s.entry == EntryCount(s.log))
    && (!s.pc.Entering? && s.log != [] ==> s.entry <= s.mode.watch.lastSeen)
    && (Ticking(s) ==> s.log != [] && (s.mode.watch.isNew ==>
          s.mode.watch.lastSeen > LastSeen(s.log) && s.mode.watch.lastSeen > s.entry && s.mode.watch.staleFor == 0.0))
  }

  /** The stale cycle in hand counts. */
  predicate LatchInv(s: State) {
    if PastTimeout(s) then
      && s.mode.frozen == (s.pc.stale || (!s.mode.watch.isNew && StaleSince(s.log)))
      && !(s.mode.watch.isNew && s.pc.stale)
      && (s.mode.frozen ==> Some(s.mode.reference) == (if s.pc.stale then Some(s.pc.q) else StaleAt(s.log)) || s.gated)
    else
      !s.pc.Entering? ==>
        && s.mode.frozen == StaleSince(s.log)
        && (s.mode.frozen ==> Some(s.mode.reference) == StaleAt(s.log) || s.gated)
  }

  predicate ReadInv(s: State) {
    match s.pc
    case Sourced(_, _, source) =>
      source.Some? ==>
        var b := s.shared.Of(source.value);
        Has(b.At(b.active), s.mode.watch.lastSeen) && Has(b.At(b.active), s.entry + 1)
    case Reading(_, _, k, i) =>
      Has(s.shared.Of(k).At(i), s.mode.watch.lastSeen) && Has(s.shared.Of(k).At(i), s.entry + 1) && Reads(s, Some(k))
    case _ => true
  }

  predicate Inv(s: State) {
    && WriterInv(s) && AdoptedInv(s, Joint) && AdoptedInv(s, Cartesian) && KeptInv(s)
    && WatchInv(s) && LatchInv(s) && ReadInv(s) && LogOk(s.gated, s.log)
  }

  predicate IsWriter(a: Action) { a.Fill? || a.Index? || a.Name? || a.Bump? || a.Arm? }

  lemma FillKeeps(s: State, k: Kind, payload: Vec)
    requires WriterInv(s) && Enabled(s, Fill(k, payload))
    ensures WriterInv(Next(s, Fill(k, payload)))
  {
  }

  lemma FillReads(s: State, k: Kind, payload: Vec)
    requires WriterInv(s) && WatchInv(s) && ReadInv(s) && Enabled(s, Fill(k, payload))
    ensures ReadInv(Next(s, Fill(k, payload)))
  {
  }

  lemma IndexJointKeeps(s: State)
    requires WriterInv(s) && s.writer.Filled? && s.writer.kind.Joint?
    ensures WriterInv(Next(s, Index))
  {
  }

  lemma IndexJointReads(s: State)
    requires WriterInv(s) && WatchInv(s) && ReadInv(s) && s.writer.Filled? && s.writer.kind.Joint?
    ensures ReadInv(Next(s, Index))
  {
  }

  lemma IndexCartesianKeeps(s: State)
    requires WriterInv(s) && s.writer.Filled? && s.writer.kind.Cartesian?
    ensures WriterInv(Next(s, Index))
  {
  }

  lemma IndexCartesianReads(s: State)
    requires WriterInv(s) && WatchInv(s) && ReadInv(s) && s.writer.Filled? && s.writer.kind.Cartesian?
    ensures ReadInv(Next(s, Index))
  {
  }

  lemma NameKeeps(s: State)
    requires WriterInv(s) && Enabled(s, Name)
    ensures WriterInv(Next(s, Name))
  {
  }

  lemma NameReads(s: State)
    requires WriterInv(s) && WatchInv(s) && ReadInv(s) && Enabled(s, Name)
    ensures ReadInv(Next(s, Name))
  {
  }

  lemma BumpKeeps(s: State)
    requires WriterInv(s) && Enabled(s, Bump)
    ensures WriterInv(Next(s, Bump))
  {
  }

  lemma BumpReads(s: State)
    requires WriterInv(s) && WatchInv(s) && ReadInv(s) && Enabled(s, Bump)
    ensures ReadInv(Next(s, Bump))
  {
  }

  lemma ArmKeeps(s: State, seconds: real)
    requires WriterInv(s)
    ensures WriterInv(Next(s, Arm(seconds)))
  {
  }

  lemma ArmReads(s: State, seconds: real)
    requires ReadInv(s)
    ensures ReadInv(Next(s, Arm(seconds)))
  {
  }

  lemma RestKeeps(s: State, n: State)
    requires Inv(s) && n.mode == s.mode && n.pc == s.pc && n.log == s.log && n.entry == s.entry && n.gated == s.gated
    requires n.shared.count >= s.shared.count
    ensures AdoptedInv(n, Joint) && AdoptedInv(n, Cartesian) && KeptInv(n) && WatchInv(n) && LatchInv(n)
            && LogOk(n.gated, n.log)
  {
  }

  lemma FillStep(s: State, k: Kind, payload: Vec)
    requires Inv(s) && Enabled(s, Fill(k, payload))
    ensures Inv(Next(s, Fill(k, payload)))
  {
    RestKeeps(s, Next(s, Fill(k, payload)));
    FillKeeps(s, k, payload);
    FillReads(s, k, payload);
  }

  lemma IndexStep(s: State)
    requires Inv(s) && Enabled(s, Index)
    ensures Inv(Next(s, Index))
  {
    RestKeeps(s, Next(s, Index));
    if s.writer.kind.Joint? {
      IndexJointKeeps(s);
      IndexJointReads(s);
    } else {
      IndexCartesianKeeps(s);
      IndexCartesianReads(s);
    }
  }

  lemma NameStep(s: State)
    requires Inv(s) && Enabled(s, Name)
    ensures Inv(Next(s, Name))
  {
    RestKeeps(s, Next(s, Name));
    NameKeeps(s);
    NameReads(s);
  }

  lemma BumpStep(s: State)
    requires Inv(s) && Enabled(s, Bump)
    ensures Inv(Next(s, Bump))
  {
    RestKeeps(s, Next(s, Bump));
    BumpKeeps(s);
    BumpReads(s);
  }

  lemma ArmStep(s: State, seconds: real)
    requires Inv(s) && Enabled(s, Arm(seconds))
    ensures Inv(Next(s, Arm(seconds)))
  {
    RestKeeps(s, Next(s, Arm(seconds)));
    ArmKeeps(s, seconds);
    ArmReads(s, seconds);
  }

  /** Neither a setter nor arming, which may land anywhere, touches the mode or the log. */
  lemma WriterStepKeeps(s: State, a: Action)
    requires Inv(s) && Enabled(s, a) && IsWriter(a)
    ensures Inv(Next(s, a))
  {
    match a
    case Fill(k, payload) => FillStep(s, k, payload);
    case Index => IndexStep(s);
    case Name => NameStep(s);
    case Bump => BumpStep(s);
    case Arm(seconds) => ArmStep(s, seconds);
  }

  lemma LogReads(log: seq<Event>, e: Event)
    ensures (log + [e])[..|log|] == log
    ensures StaleSince(log + [e]) ==
            (e.Cycled? && (if e.stale then true else if e.isNew then false else StaleSince(log)))
    ensures StaleAt(log + [e]) == if e.Cycled? && e.stale then Some(e.q) else StaleAt(log)
    ensures EntryCount(log + [e]) == if e.Entered? then e.count else EntryCount(log)
    ensures LastNew(log + [e]) == if e.Entered? then None else if e.isNew then Some(e) else LastNew(log)
    ensures LastSeen(log + [e]) == if e.Cycled? then e.seen else LastSeen(log)
  {
    assert (log + [e])[..|log|] == log;
  }

  lemma EnterKeeps(s: State, q: Vec)
    requires Inv(s) && Enabled(s, Enter(q))
    ensures Inv(Next(s, Enter(q)))
  {
  }

  lemma LoadCountKeeps(s: State, q: Vec, dt: real)
    requires Inv(s) && Enabled(s, LoadCount(q, dt))
    ensures Inv(Next(s, LoadCount(q, dt)))
  {
  }

  lemma LoadTimeoutKeeps(s: State)
    requires Inv(s) && Enabled(s, LoadTimeout)
    ensures Inv(Next(s, LoadTimeout))
  {
  }

  lemma LoadSourceKeeps(s: State)
    requires Inv(s) && Enabled(s, LoadSource)
    ensures Inv(Next(s, LoadSource))
  {
  }

  lemma LoadIndexKeeps(s: State)
    requires Inv(s) && Enabled(s, LoadIndex)
    ensures Inv(Next(s, LoadIndex))
  {
  }

  lemma ResetKeeps(s: State)
    requires Inv(s) && Enabled(s, ResetWatch)
    ensures Inv(Next(s, ResetWatch))
  {
    LogReads(s.log, Entered(s.pc.q, s.entry));
  }

  function NewCycle(s: State, next: Vec): Event
    requires Enabled(s, Compute(next))
  {
    var n := Computed(s, next);
    n.log[|s.log|]
  }

  lemma CycleHolds(s: State, next: Vec)
    requires Inv(s) && Enabled(s, Compute(next))
    ensures CycleOk(s.gated, s.log, NewCycle(s, next))
  {
    LogReads(s.log, NewCycle(s, next));
  }

  lemma ComputeKeeps(s: State, next: Vec)
    requires Inv(s) && Enabled(s, Compute(next))
    ensures Inv(Next(s, Compute(next)))
  {
    hide CycleOk;
    CycleHolds(s, next);
    LogReads(s.log, NewCycle(s, next));
    ComputeAdopts(s, next);
    ComputeLatches(s, next);
  }

  lemma ComputeAdopts(s: State, next: Vec)
    requires Inv(s) && Enabled(s, Compute(next))
    ensures var n := Next(s, Compute(next));
            WriterInv(n) && AdoptedInv(n, Joint) && AdoptedInv(n, Cartesian) && ReadInv(n)
  {
    hide LogOk, LatchInv, KeptInv;
  }

  lemma ComputeLatches(s: State, next: Vec)
    requires Inv(s) && Enabled(s, Compute(next))
    ensures var n := Next(s, Compute(next)); KeptInv(n) && LatchInv(n) && WatchInv(n)
  {
    hide LogOk, WriterInv;
    LogReads(s.log, NewCycle(s, next));
    assert Computed(s, next).log == s.log + [NewCycle(s, next)];
  }

  lemma RtStepKeeps(s: State, a: Action)
    requires Inv(s) && Enabled(s, a) && !IsWriter(a)
    ensures Inv(Next(s, a))
  {
    match a
    case Enter(q) => EnterKeeps(s, q);
    case ResetWatch => ResetKeeps(s);
    case LoadCount(q, dt) => LoadCountKeeps(s, q, dt);
    case LoadTimeout => LoadTimeoutKeeps(s);
    case LoadSource => LoadSourceKeeps(s);
    case LoadIndex => LoadIndexKeeps(s);
    case Compute(next) => ComputeKeeps(s, next);
  }

  lemma StartInv(gated: bool, timeout: real)
    ensures Inv(Start(gated, timeout))
  {
  }

  /** The states of a run. */
  ghost predicate Run(states: seq<State>, actions: seq<Action>) {
    && |states| == |actions| + 1
    && states[0] == Start(states[0].gated, states[0].shared.timeout)
    && forall k :: 0 <= k < |actions| ==> Enabled(states[k], actions[k]) && states[k + 1] == Next(states[k], actions[k])
  }

  lemma {:induction false} InvAlways(states: seq<State>, actions: seq<Action>, k: nat)
    requires Run(states, actions) && k <= |actions|
    ensures Inv(states[k])
  {
    if k == 0 {
      StartInv(states[0].gated, states[0].shared.timeout);
    } else {
      hide Inv, Next;
      InvAlways(states, actions, k - 1);
      var s, a := states[k - 1], actions[k - 1];
      assert Enabled(s, a) && states[k] == Next(s, a);
      if IsWriter(a) { WriterStepKeeps(s, a); } else { RtStepKeeps(s, a); }
    }
  }

  lemma {:induction false} EveryCycle(gated: bool, log: seq<Event>, i: nat)
    requires LogOk(gated, log) && i < |log|
    ensures LogOk(gated, log[..i]) && CycleOk(gated, log[..i], log[i])
  {
    if i < |log| - 1 {
      assert log[..|log| - 1][..i] == log[..i];
      EveryCycle(gated, log[..|log| - 1], i);
    }
  }

  /** No fresh cycle and no entry in between. */
  predicate Unrefreshed(log: seq<Event>, i: int, j: int)
    requires 0 <= i && j <= |log|
  {
    forall k :: i <= k < j ==> log[k].Cycled? && !log[k].isNew
  }

  lemma {:induction false} StaleStays(log: seq<Event>, i: nat, j: nat)
    requires i < j <= |log| && log[i].Cycled? && log[i].stale && Unrefreshed(log, i + 1, j)
    ensures StaleSince(log[..j]) && StaleAt(log[..j]).Some?
  {
    assert log[..j][..j - 1] == log[..j - 1];
    if i < j - 1 {
      assert log[j - 1].Cycled? && !log[j - 1].isNew;
      StaleStays(log, i, j - 1);
    }
  }

  /** A stale cycle freezes every later one until a fresh command or an entry: through any
    * setter in progress, any arming and any disarming, no command is acted on. */
  lemma FreezeLasts(states: seq<State>, actions: seq<Action>, i: nat, j: nat)
    requires Run(states, actions)
    requires var log := states[|actions|].log;
             i < j < |log| && log[i].Cycled? && log[i].stale && Unrefreshed(log, i + 1, j + 1)
    ensures var log := states[|actions|].log; log[j].frozen && log[j].used.None?
    ensures var log := states[|actions|].log;
            if states[|actions|].gated then log[j].reference == log[j].q
            else Some(log[j].reference) == StaleAt(log[..j + 1])
  {
    var s := states[|actions|];
    InvAlways(states, actions, |actions|);
    EveryCycle(s.gated, s.log, j);
    StaleStays(s.log, i, j);
    assert s.log[..j] + [s.log[j]] == s.log[..j + 1];
  }

  /** And frozen means just that: some stale cycle, nothing fresh since, no entry since. */
  lemma FrozenHasCause(states: seq<State>, actions: seq<Action>, j: nat) returns (i: nat)
    requires Run(states, actions) && j < |states[|actions|].log|
    requires states[|actions|].log[j].Cycled? && states[|actions|].log[j].frozen
    ensures var log := states[|actions|].log;
            i <= j && log[i].Cycled? && log[i].stale && Unrefreshed(log, i + 1, j + 1)
  {
    var s := states[|actions|];
    InvAlways(states, actions, |actions|);
    EveryCycle(s.gated, s.log, j);
    if s.log[j].stale { i := j; } else { i := StaleBack(s.log, j); }
  }

  lemma {:induction false} StaleBack(log: seq<Event>, j: nat) returns (i: nat)
    requires j <= |log| && StaleSince(log[..j])
    ensures i < j && log[i].Cycled? && log[i].stale && Unrefreshed(log, i + 1, j)
  {
    assert log[..j][..j - 1] == log[..j - 1];
    if log[j - 1].stale { i := j - 1; } else { i := StaleBack(log, j - 1); }
  }

  /** What any cycle acts on was asked for after the last entry; and the cycle that ends a
    * freeze acts on a command later than all any earlier cycle had seen. */
  lemma NothingOldIsActedOn(states: seq<State>, actions: seq<Action>, j: nat)
    requires Run(states, actions) && j < |states[|actions|].log| && states[|actions|].log[j].Cycled?
    ensures var log := states[|actions|].log;
            log[j].used.Some? ==> log[j].used.value.number > EntryCount(log[..j])
    ensures var log := states[|actions|].log;
            log[j].isNew && log[j].source.Some? ==>
              log[j].used.Some? && log[j].used.value.number >= log[j].seen > LastSeen(log[..j])
  {
    var s := states[|actions|];
    InvAlways(states, actions, |actions|);
    EveryCycle(s.gated, s.log, j);
  }

  /** In velocity mode, between fresh cycles: a cycle acts on the command last seen if and
    * only if the source is still that command's. */
  lemma ActsOnLastSeenIffSourceStays(states: seq<State>, actions: seq<Action>, j: nat)
    requires Run(states, actions) && states[|actions|].gated && j < |states[|actions|].log|
    requires var e := states[|actions|].log[j];
             e.Cycled? && !e.frozen && !e.isNew && e.source.Some?
    requires var last := LastNew(states[|actions|].log[..j]); last.Some? && last.value.source.Some?
    ensures var e, last := states[|actions|].log[j], LastNew(states[|actions|].log[..j]).value;
            e.used == last.used <==> e.source == last.source
  {
    InvAlways(states, actions, |actions|);
    EveryCycle(states[|actions|].gated, states[|actions|].log, j);
  }

  // ---- a source that changes -----------------------------------------------------------

  predicate Quiet(s: State) {
    s.gated && s.pc.Waiting? && s.writer.Idle? && !s.mode.frozen && s.shared.timeout <= 0.0 && s.log != []
  }

  /** One more step of a run. */
  lemma Extend(states: seq<State>, actions: seq<Action>, a: Action) returns (more: seq<State>, acts: seq<Action>)
    requires Run(states, actions) && Enabled(states[|actions|], a)
    ensures Run(more, acts) && acts == actions + [a] && more[|acts|] == Next(states[|actions|], a)
  {
    more, acts := states + [Next(states[|actions|], a)], actions + [a];
  }

  /** A setter, up to but not including its bump. */
  lemma Prepare(states: seq<State>, actions: seq<Action>, k: Kind, payload: Vec)
      returns (more: seq<State>, acts: seq<Action>)
    requires Run(states, actions) && states[|actions|].writer.Idle?
    ensures Run(more, acts)
    ensures var s, n := states[|actions|], more[|acts|];
            var b := s.shared.Of(k);
            && n.shared == s.shared.With(k,
                b.Fill(Command(s.shared.count + 1, k, payload)).(active := !b.active)).(source := Some(k))
            && n.writer.Named? && n.pc == s.pc && n.mode == s.mode && n.log == s.log && n.gated == s.gated
  {
    more, acts := Extend(states, actions, Fill(k, payload));
    more, acts := Extend(more, acts, Index);
    more, acts := Extend(more, acts, Name);
  }

  /** A cycle's first three loads, the watchdog disarmed. */
  lemma Loads(states: seq<State>, actions: seq<Action>, q: Vec) returns (more: seq<State>, acts: seq<Action>)
    requires Run(states, actions)
    requires var s := states[|actions|]; s.pc.Waiting? && s.log != [] && !s.mode.frozen && s.shared.timeout <= 0.0
    ensures Run(more, acts)
    ensures var s, n := states[|actions|], more[|acts|];
            n == s.(pc := Sourced(q, false, s.shared.source),
                mode := s.mode.(watch := Ticked(s.mode.watch, s.shared.count, 0.0)))
  {
    more, acts := Extend(states, actions, LoadCount(q, 0.0));
    more, acts := Extend(more, acts, LoadTimeout);
    more, acts := Extend(more, acts, LoadSource);
  }

  /** A setter runs to its end, and then a cycle: it adopts and acts on the command just
    * published. */
  lemma AdoptsPublished(states: seq<State>, actions: seq<Action>, k: Kind, payload: Vec, q: Vec)
    returns (more: seq<State>, acts: seq<Action>)
    requires Run(states, actions)
    requires var s := states[|actions|]; Quiet(s) && s.mode.watch.lastSeen == s.shared.count
    ensures Run(more, acts)
    ensures var s, n := states[|actions|], more[|acts|];
            var c := Command(s.shared.count + 1, k, payload);
            && Quiet(n) && n.mode.watch.lastSeen == n.shared.count == s.shared.count + 1
            && n.mode == s.mode.With(k, Some(c)).(watch := n.mode.watch, reference := q)
            && n.log == s.log + [Cycled(q, c.number, true, false, false, Some(k), Some(c), q)]
  {
    more, acts := Prepare(states, actions, k, payload);
    more, acts := Extend(more, acts, Bump);
    more, acts := Loads(more, acts, q);
    more, acts := Extend(more, acts, LoadIndex);
    more, acts := Extend(more, acts, Compute(q));
  }

  /** While a setter stands at its bump: the cycle each of these is. */
  function Resurfacing(s: State, q: Vec): Event
    requires s.shared.source.Some?
  {
    Cycled(q, s.shared.count, false, false, false, s.shared.source, s.mode.Of(s.shared.source.value), q)
  }

  predicate AtTheBump(s: State) {
    && s.gated && s.pc.Waiting? && s.writer.Named? && !s.mode.frozen && s.shared.timeout <= 0.0 && s.log != []
    && s.mode.watch.lastSeen == s.shared.count && s.shared.source.Some?
  }

  /** One more cycle before the bump. */
  lemma CycleAtTheBump(states: seq<State>, actions: seq<Action>, q: Vec)
    returns (more: seq<State>, acts: seq<Action>)
    requires Run(states, actions) && AtTheBump(states[|actions|])
    ensures Run(more, acts)
    ensures var s, n := states[|actions|], more[|acts|];
            && AtTheBump(n) && n.shared == s.shared
            && n.mode.joint == s.mode.joint && n.mode.cartesian == s.mode.cartesian
            && n.log == s.log + [Resurfacing(s, q)]
  {
    more, acts := Loads(states, actions, q);
    assert !Reads(more[|acts|], more[|acts|].pc.source);
    more, acts := Extend(more, acts, Compute(q));
  }

  /** And any number of them. */
  lemma {:induction false} CyclesAtTheBump(states: seq<State>, actions: seq<Action>, q: Vec, n: nat)
    returns (more: seq<State>, acts: seq<Action>)
    requires Run(states, actions) && AtTheBump(states[|actions|])
    ensures Run(more, acts) && AtTheBump(more[|acts|])
    ensures var s, log := states[|actions|], more[|acts|].log;
            && |log| == |s.log| + n && log[..|s.log|] == s.log
            && forall i :: |s.log| <= i < |log| ==> log[i] == Resurfacing(s, q)
    decreases n
  {
    more, acts := states, actions;
    if n > 0 {
      more, acts := CycleAtTheBump(states, actions, q);
      ghost var s, one := states[|actions|], more[|acts|];
      more, acts := CyclesAtTheBump(more, acts, q, n - 1);
      ghost var log := more[|acts|].log;
      assert log[..|s.log|] == log[..|one.log|][..|s.log|];
      assert log[|s.log|] == log[..|one.log|][|s.log|];
    }
  }

  /** A twist and then a joint velocity, each adopted in a cycle of its own. */
  lemma TwoAdopted(q: Vec, first: Vec, second: Vec) returns (states: seq<State>, actions: seq<Action>)
    ensures Run(states, actions)
    ensures var s := states[|actions|];
            && Quiet(s) && s.mode.watch.lastSeen == s.shared.count == 2 && |s.log| == 3
            && s.mode.cartesian == Some(Command(1, Cartesian, first))
            && s.log[2] == Cycled(q, 2, true, false, false, Some(Joint), Some(Command(2, Joint, second)), q)
  {
    states, actions := [Start(true, 0.0)], [];
    states, actions := Extend(states, actions, Enter(q));
    states, actions := Extend(states, actions, ResetWatch);
    states, actions := AdoptsPublished(states, actions, Cartesian, first, q);
    states, actions := AdoptsPublished(states, actions, Joint, second, q);
  }

  /** Velocity mode can act on a superseded command: while a setter has stored its source and
    * not yet bumped, every cycle acts on the payload last adopted from that source. Here a
    * twist, then a joint velocity, then a second twist: however many cycles land before its
    * bump, each has seen command 2 and acts on command 1. They are cycles of
    * ActsOnLastSeenIffSourceStays, the source being another than the last command's. */
  lemma SupersededCommandResurfaces(q: Vec, first: Vec, second: Vec, third: Vec, n: nat)
    returns (states: seq<State>, actions: seq<Action>)
    ensures Run(states, actions) && states[|actions|].gated && |states[|actions|].log| == 3 + n
    ensures var log := states[|actions|].log;
            forall i :: 3 <= i < 3 + n ==>
              && log[i] == Cycled(q, 2, false, false, false, Some(Cartesian), Some(Command(1, Cartesian, first)), q)
              && LastNew(log[..i]).Some? && LastNew(log[..i]).value.source == Some(Joint)
              && LastNew(log[..i]).value.used == Some(Command(2, Joint, second))
  {
    states, actions := TwoAdopted(q, first, second);
    ghost var log := states[|actions|].log;
    states, actions := Prepare(states, actions, Cartesian, third);
    ghost var e := Resurfacing(states[|actions|], q);
    states, actions := CyclesAtTheBump(states, actions, q, n);
    ghost var all := states[|actions|].log;
    assert all[2] == all[..3][2] == log[2];
    forall i | 3 <= i < 3 + n
      ensures all[i] == e && LastNew(all[..i]) == Some(log[2])
    {
      LastNewStays(all, 3, i);
    }
  }

  /** Cycles that saw nothing new leave the last one that did. */
  lemma {:induction false} LastNewStays(log: seq<Event>, m: nat, i: nat)
    requires 0 < m <= i <= |log| && log[m - 1].Cycled? && log[m - 1].isNew
    requires forall k :: m <= k < i ==> log[k].Cycled? && !log[k].isNew
    ensures LastNew(log[..i]) == Some(log[m - 1])
  {
    assert log[..i] == log[..i - 1] + [log[i - 1]];
    LogReads(log[..i - 1], log[i - 1]);
    if m < i { LastNewStays(log, m, i - 1); }
  }
}
