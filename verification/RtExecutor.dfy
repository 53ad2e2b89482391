/** RtExecutor::run: adopt a mode, exchange, step the contact monitor, freeze or switch,
  * compute. Each cycle of the environment is one input; the loop keeps a ghost log of
  * what it did, and the guarantees are statements about that log.
  */
module RtExecutor {
  import opened Basics
  import opened MissRing
  import opened ContactMonitor

  type ModeId = nat

  /** A transport exchange: a reply, a timeout, or any other exception. */
  datatype Outcome = Reply(fault: bool, lowLevel: bool, sample: Sample) | TimedOut | Broke

  /** What one cycle meets: a request_mode and a request_clear that landed, the mode
    * switch's pumps timing out, the exchange, and when the exchange returned. */
  datatype Cycle = Cycle(request: Option<ModeId>, clearAsked: bool, pumpsLost: bool, outcome: Outcome, at: real)

  /** Who wrote the command last; every write has its own stamp. */
  datatype Command = Benign | ByMode(mode: ModeId, stamp: nat) | Freeze(stamp: nat)

  datatype Event =
    | Exchanged(cmd: Command, outcome: Outcome, inLoop: bool)
    | Entered(mode: ModeId, fb: nat, handshake: bool)
    | Computed(mode: ModeId, fb: nat, inLoop: bool, at: real, dt: real, latched: bool)
    | Boundary(latched: bool, active: Option<ModeId>)

  datatype Exit = Running | Stopped | Lost(v: Verdict) | SwitchLost | ArmFault | Broken

  /** The executor's configuration and the attached contact monitor's. `actuators` gives a
    * mode's required actuator modes. */
  datatype Setup = Setup(limits: Limits, period: real, timeout: real, exitOnFault: bool,
                         attached: bool, contact: ModeId, actuators: map<ModeId, nat>, monitor: Config)

  predicate ValidSetup(u: Setup) {
    ValidLimits(u.limits) && ValidConfig(u.monitor) && u.period > 0.0 && u.timeout >= 0.0
  }

  const FAULT_CONFIRM: nat := 3
  const AWAY_CONFIRM: nat := 50

  /** What n cycles of at most a timeout and a period take. */
  function Wait(u: Setup, n: nat): real { n as real * (u.timeout + u.period) }

  function Cap(u: Setup): real { Wait(u, u.limits.row) }

  predicate SameActuators(u: Setup, a: ModeId, b: ModeId) {
    a in u.actuators && b in u.actuators && u.actuators[a] == u.actuators[b]
  }

  // ---- reading the log -------------------------------------------------------------

  function Timeouts(log: seq<Event>): History {
    if log == [] then []
    else
      var e := log[|log| - 1];
      Timeouts(log[..|log| - 1]) + (if e.Exchanged? && !e.outcome.Broke? then [e.outcome.TimedOut?] else [])
  }

  /** The last exchange, if any. */
  function LastExchange(log: seq<Event>): (r: Option<Event>)
    ensures r.Some? ==> r.value.Exchanged?
  {
    if log == [] then None
    else if log[|log| - 1].Exchanged? then Some(log[|log| - 1])
    else LastExchange(log[..|log| - 1])
  }

  /** `fb` is the feedback of the exchange just before this point, and it succeeded. */
  predicate FreshFeedback(log: seq<Event>, fb: nat) {
    && LastExchange(log).Some? && LastExchange(log).value.outcome.Reply?
    && |Timeouts(log)| == fb + 1
  }

  /** When the running mode last computed in the loop; none since an adoption. */
  function LastCompute(log: seq<Event>): Option<real> {
    if log == [] then None
    else
      var e := log[|log| - 1];
      if e.Computed? && e.inLoop then Some(e.at)
      else if e.Entered? && e.handshake then None
      else LastCompute(log[..|log| - 1])
  }

  /** Good in-loop exchanges in a row, misses skipped, that report a fault. */
  function FaultRun(log: seq<Event>): nat {
    if log == [] then 0
    else
      var e := log[|log| - 1];
      if e.Exchanged? && e.inLoop && e.outcome.Reply?
      then (if e.outcome.fault then FaultRun(log[..|log| - 1]) + 1 else 0)
      else FaultRun(log[..|log| - 1])
  }

  /** The same for replies that do not report low-level servoing. */
  function AwayRun(log: seq<Event>): nat {
    if log == [] then 0
    else
      var e := log[|log| - 1];
      if e.Exchanged? && e.inLoop && e.outcome.Reply?
      then (if e.outcome.lowLevel then 0 else AwayRun(log[..|log| - 1]) + 1)
      else AwayRun(log[..|log| - 1])
  }

  /** Every in-loop compute got exactly the time since the mode's previous one. */
  predicate Uncapped(log: seq<Event>) {
    log == [] || (Uncapped(log[..|log| - 1]) && WholeStep(log[..|log| - 1], log[|log| - 1]))
  }
  predicate WholeStep(before: seq<Event>, e: Event) {
    e.Computed? && e.inLoop && LastCompute(before).Some? ==> e.dt == e.at - LastCompute(before).value
  }

  // ---- what a run guarantees, event by event ------------------------------------------

  predicate EventOk(u: Setup, before: seq<Event>, e: Event) {
    match e
    case Exchanged(cmd, _, _) =>
      // a freeze is never sent, and a miss is followed by the identical command
      && !cmd.Freeze?
      && (LastExchange(before).Some? && LastExchange(before).value.outcome.TimedOut? ==>
          cmd == LastExchange(before).value.cmd)
    case Entered(_, fb, _) => FreshFeedback(before, fb)
    case Computed(mode, fb, inLoop, at, dt, latched) =>
      && FreshFeedback(before, fb)
      && (latched ==> mode == u.contact)
      && (inLoop ==> dt == match LastCompute(before) case None => u.period case Some(t) => Min(at - t, Cap(u)))
    case Boundary(latched, active) => latched ==> active == Some(u.contact)
  }

  predicate RunOk(u: Setup, log: seq<Event>) {
    log == [] || (RunOk(u, log[..|log| - 1]) && EventOk(u, log[..|log| - 1], log[|log| - 1]))
  }

  lemma Append(u: Setup, log: seq<Event>, e: Event)
    requires RunOk(u, log) && EventOk(u, log, e)
    ensures RunOk(u, log + [e])
  {
    assert (log + [e])[..|log|] == log;
  }

  /** What the log functions make of one more event. */
  predicate Noted(a: seq<Event>, b: seq<Event>, e: Event) {
    && b == a + [e]
    && Timeouts(b) == Timeouts(a) + (if e.Exchanged? && !e.outcome.Broke? then [e.outcome.TimedOut?] else [])
    && LastExchange(b) == (if e.Exchanged? then Some(e) else LastExchange(a))
    && LastCompute(b) == (if e.Computed? && e.inLoop then Some(e.at)
                          else if e.Entered? && e.handshake then None else LastCompute(a))
    && FaultRun(b) == (if e.Exchanged? && e.inLoop && e.outcome.Reply?
                       then (if e.outcome.fault then FaultRun(a) + 1 else 0) else FaultRun(a))
    && AwayRun(b) == (if e.Exchanged? && e.inLoop && e.outcome.Reply?
                      then (if e.outcome.lowLevel then 0 else AwayRun(a) + 1) else AwayRun(a))
    && (Uncapped(b) <==> Uncapped(a) && WholeStep(a, e))
  }

  lemma Reads(log: seq<Event>, e: Event)
    ensures Noted(log, log + [e], e)
  {
    assert (log + [e])[..|log|] == log;
    assert Timeouts(log) + [] == Timeouts(log);
  }

  /** The fault counts and the steps' wholeness are the same for both logs. */
  predicate SameRuns(a: seq<Event>, b: seq<Event>) {
    && FaultRun(b) == FaultRun(a) && AwayRun(b) == AwayRun(a) && (Uncapped(b) <==> Uncapped(a))
    && Timeouts(b) == Timeouts(a)
  }

  class RtLoop {
    const setup: Setup
    const counter: MissCounter
    var monitor: Monitor
    var requested: Option<ModeId>
    var active: Option<ModeId>
    var cmd: Command
    var stamp: nat
    var reply: Outcome          // fb: the last good reply
    var fbIndex: nat            // and the exchange it came from
    var lastCompute: Option<real>
    var lastRead: real
    var faulty: nat
    var away: nat
    ghost var log: seq<Event>

    predicate IsLatched()
      reads this
    {
      setup.attached && monitor.latched
    }

    /** Holds between any two stages once the seeding read is done. */
    ghost predicate Inv()
      reads this, counter, counter.missAt
    {
      Core() && (setup.exitOnFault ==> faulty == FaultRun(log) && away == AwayRun(log))
    }

    ghost predicate Core()
      reads this, counter, counter.missAt
    {
      && ValidSetup(setup) && counter.Valid() && counter.limits == setup.limits
      && RunOk(setup, log) && Timeouts(log) == counter.history
      && lastCompute == LastCompute(log) && (lastCompute.Some? ==> active.Some?)
      && LastExchange(log).Some? && !LastExchange(log).value.outcome.Broke?
      && (counter.misses == 0 <==> LastExchange(log).value.outcome.Reply?)
      && (counter.misses == 0 ==> |Timeouts(log)| == fbIndex + 1)
      && (counter.misses > 0 ==> cmd == LastExchange(log).value.cmd)
      && (cmd.Freeze? ==> IsLatched() && active != Some(setup.contact))
      && (IsLatched() && active != Some(setup.contact) ==> counter.misses == 0)
    }

    /** Between the exchange and the compute of one cycle. */
    ghost predicate AfterExchange(missed: bool)
      reads this, counter, counter.missAt
    {
      && Inv() && missed == (counter.misses > 0) && (!missed ==> reply.Reply?)
    }

    constructor (u: Setup, m: Monitor, requested: Option<ModeId>)
      requires ValidSetup(u)
      ensures setup == u && counter.Valid() && counter.limits == u.limits && counter.history == []
      ensures fresh(counter) && fresh(counter.missAt)
      ensures log == [] && cmd == Benign && active == None && lastCompute == None && faulty == 0 && away == 0
      ensures monitor == (if u.attached then RunStartOf(m) else m)
    {
      setup := u;
      counter := new MissCounter(u.limits);
      monitor := if u.attached then RunStartOf(m) else m;
      this.requested := requested;
      active, cmd, stamp, reply, fbIndex := None, Benign, 0, TimedOut, 0;
      lastCompute, lastRead, faulty, away, log := None, 0.0, 0, 0, [];
    }

    /** Step 3: adopt at the boundary. A latched monitor lets only its own mode in. */
    method Adopt(request: Option<ModeId>, pumpsLost: bool) returns (ok: bool)
      requires Inv()
      modifies `requested, `cmd, `stamp, `log, `active, `lastCompute
      ensures ok ==> Inv() && !cmd.Freeze? && (IsLatched() ==> active == Some(setup.contact))
      ensures ok ==> lastCompute == old(lastCompute) || lastCompute == None
      ensures ok && old(IsLatched() && active != Some(setup.contact)) ==> lastCompute == None
      ensures RunOk(setup, log) && Timeouts(log) == counter.history
      ensures SameRuns(old(log), log)
    {
      ok := ChangeMode(request, pumpsLost);
      if ok {
        NoteBoundary();
      }
    }

    /** The pending request, if it is for another mode. */
    method ChangeMode(request: Option<ModeId>, pumpsLost: bool) returns (ok: bool)
      requires Inv()
      modifies `requested, `cmd, `stamp, `log, `active, `lastCompute
      ensures ok ==> Inv() && !cmd.Freeze? && (IsLatched() ==> active == Some(setup.contact))
      ensures ok ==> lastCompute == old(lastCompute) || lastCompute == None
      ensures ok && old(IsLatched() && active != Some(setup.contact)) ==> lastCompute == None
      ensures RunOk(setup, log) && Timeouts(log) == counter.history
      ensures SameRuns(old(log), log)
    {
      var req := TakeRequest(request);
      ok := true;
      if req.Some? && req != active {
        ok := SwitchTo(req.value, pumpsLost);
      }
    }

    ghost method NoteBoundary()
      requires Inv() && (IsLatched() ==> active == Some(setup.contact))
      modifies `log
      ensures Inv() && SameRuns(old(log), log)
    {
      var e := Boundary(IsLatched(), active);
      Reads(log, e);
      Append(setup, log, e);
      log := log + [e];
    }

    /** Which mode this boundary adopts. Deferred after a miss; while latched a request
      * stays pending. */
    method TakeRequest(request: Option<ModeId>) returns (req: Option<ModeId>)
      modifies `requested
      ensures req == if counter.misses > 0 then None
                     else if IsLatched() then Some(setup.contact)
                     else if request.Some? then request else old(requested)
      ensures requested == if counter.misses == 0 && !IsLatched() then None
                           else if request.Some? then request else old(requested)
    {
      if request.Some? {
        requested := request;
      }
      req := None;
      if counter.misses == 0 {
        if IsLatched() {
          req := Some(setup.contact);
        } else {
          req := requested;
          requested := None;
        }
      }
    }

    /** The switch: the incoming mode's first command is the handshake's hold. */
    method SwitchTo(mode: ModeId, pumpsLost: bool) returns (ok: bool)
      requires Inv() && counter.misses == 0 && (IsLatched() ==> mode == setup.contact)
      modifies `cmd, `stamp, `log, `active, `lastCompute
      ensures ok == !pumpsLost
      ensures RunOk(setup, log) && Timeouts(log) == counter.history
      ensures SameRuns(old(log), log)
      ensures ok ==> Inv() && active == Some(mode) && lastCompute == None && !cmd.Freeze?
    {
      EnterAtRest(mode);
      ok := !pumpsLost;
      if ok {
        active := Some(mode);
        lastCompute := None;
      }
    }

    /** on_enter and the first compute of an incoming mode, on the feedback at rest. */
    method EnterAtRest(mode: ModeId)
      requires RunOk(setup, log) && FreshFeedback(log, fbIndex) && (IsLatched() ==> mode == setup.contact)
      modifies `cmd, `stamp, `log
      ensures RunOk(setup, log) && LastExchange(log) == old(LastExchange(log))
      ensures SameRuns(old(log), log) && LastCompute(log) == None
      ensures !cmd.Freeze?
    {
      ghost var enter := Entered(mode, fbIndex, true);
      ghost var first := Computed(mode, fbIndex, false, lastRead, setup.period, IsLatched());
      Reads(log, enter);
      Append(setup, log, enter);
      Reads(log + [enter], first);
      Append(setup, log + [enter], first);
      log := log + [enter] + [first];
      cmd := ByMode(mode, stamp);
      stamp := stamp + 1;
    }

    ghost method Note(e: Event)
      requires RunOk(setup, log) && EventOk(setup, log, e)
      modifies `log
      ensures RunOk(setup, log) && Noted(old(log), log, e)
    {
      Reads(log, e);
      Append(setup, log, e);
      log := log + [e];
    }

    /** Ready for an exchange: after a miss the command is the one that was lost. */
    ghost predicate Ready()
      reads this, counter, counter.missAt
    {
      && ValidSetup(setup) && counter.Valid() && counter.limits == setup.limits
      && RunOk(setup, log) && Timeouts(log) == counter.history && !cmd.Freeze?
      && (counter.misses > 0 ==> LastExchange(log).Some? && cmd == LastExchange(log).value.cmd)
      && (LastExchange(log).Some? && LastExchange(log).value.outcome.TimedOut? ==> counter.misses > 0)
    }

    /** The miss counter's part of it. */
    method Count(missed: bool) returns (v: Verdict)
      requires counter.Valid() && counter.limits == setup.limits && Timeouts(log) == counter.history + [missed]
      modifies counter, counter.missAt
      ensures v.LostInARow? || v.LostInWindow? <==> LossCounted(setup, log)
      ensures v.Fine? || v.Missed? ==>
                && counter.Valid() && Timeouts(log) == counter.history && Survives(setup.limits, Timeouts(log))
                && counter.misses == (if missed then old(counter.misses) + 1 else 0)
    {
      assert (counter.history + [missed])[..|counter.history|] == counter.history;
      v := counter.Record(missed);
      if v.Fine? || v.Missed? { SurvivesNow(setup.limits, counter.history); }
    }

    /** Step 4: one exchange. Comms loss is exactly what the plain counts say. */
    method Exchange(outcome: Outcome, inLoop: bool) returns (exit: Exit, missed: bool)
      requires Ready()
      modifies `log, `reply, `fbIndex, counter, counter.missAt
      ensures RunOk(setup, log) && Noted(old(log), log, Exchanged(cmd, outcome, inLoop))
      ensures exit.Running? || exit.Lost? || exit.Broken?
      ensures exit.Broken? == outcome.Broke?
      ensures exit.Lost? == LossCounted(setup, log)
      ensures !exit.Lost? ==> Survives(setup.limits, Timeouts(log))
      ensures exit.Running? ==>
                && counter.Valid() && Timeouts(log) == counter.history && missed == outcome.TimedOut?
                && (!missed ==> counter.exchanges == fbIndex + 1 && reply == outcome)
                && counter.misses == (if missed then old(counter.misses) + 1 else 0)
    {
      Note(Exchanged(cmd, outcome, inLoop));
      missed := outcome.TimedOut?;
      if outcome.Broke? {
        SurvivesNow(setup.limits, counter.history);
        assert counter.history + [] == counter.history;
        return Broken, missed;
      }
      var v := Count(missed);
      if v.LostInARow? || v.LostInWindow? {
        return Lost(v), missed;
      }
      if !missed {
        reply, fbIndex := outcome, counter.exchanges - 1;
      }
      return Running, missed;
    }

    /** Nothing has been adopted: only seeding reads so far. */
    ghost predicate Unadopted()
      reads this
    {
      && active.None? && lastCompute.None? && cmd == Benign && faulty == 0 && away == 0
      && LastCompute(log).None? && FaultRun(log) == 0 && AwayRun(log) == 0 && Uncapped(log)
    }

    /** One seeding read. */
    method SeedOnce(outcome: Outcome) returns (exit: Exit, missed: bool)
      requires Ready() && Unadopted()
      modifies `log, `reply, `fbIndex, counter, counter.missAt
      ensures Unadopted() && RunOk(setup, log) && ExitOk(setup, exit, log)
      ensures exit.Running? && missed ==> Ready() && old(counter.misses) < counter.misses < setup.limits.row
      ensures exit.Running? && !missed ==> Inv()
    {
      exit, missed := Exchange(outcome, false);
      if exit.Running? {
        SurvivesNow(setup.limits, counter.history);
      }
    }

    /** The seeding reads, on the benign hold command. */
    method Seed(seed: nat -> Outcome, start: real) returns (exit: Exit)
      requires Ready() && Unadopted() && counter.misses < setup.limits.row && ExitOk(setup, Running, log)
      modifies this, counter, counter.missAt
      ensures RunOk(setup, log) && ExitOk(setup, exit, log) && Uncapped(log)
      ensures exit.Running? ==> Inv() && Timely() && lastRead == start
    {
      var missed, n := true, 0;
      exit := Running;
      while exit.Running? && missed
        invariant Unadopted() && RunOk(setup, log) && ExitOk(setup, exit, log)
        invariant exit.Running? && missed ==> Ready() && counter.misses < setup.limits.row
        invariant exit.Running? && !missed ==> Inv()
        decreases exit.Running?, missed, if exit.Running? && missed then setup.limits.row - counter.misses else 0
      {
        exit, missed := SeedOnce(seed(n));
        n := n + 1;
      }
      lastRead := start;
    }

    /** check_fault, on a good exchange. */
    method CheckFault() returns (confirmed: bool)
      requires reply.Reply?
      modifies `faulty, `away
      ensures faulty == (if reply.fault then old(faulty) + 1 else 0)
      ensures away == (if reply.lowLevel then 0 else old(away) + 1)
      ensures confirmed == (faulty >= FAULT_CONFIRM || away >= AWAY_CONFIRM)
    {
      faulty := if reply.fault then faulty + 1 else 0;
      away := if reply.lowLevel then 0 else away + 1;
      confirmed := faulty >= FAULT_CONFIRM || away >= AWAY_CONFIRM;
    }

    /** The monitor's step; a missed cycle can lower the latch (a clear) but never set it. */
    method StepContact(clearAsked: bool, at: real, missed: bool)
      requires AfterExchange(missed) && !cmd.Freeze? && (IsLatched() ==> active == Some(setup.contact))
      modifies `monitor, `lastRead
      ensures AfterExchange(missed) && lastRead == at
      ensures monitor == MonitorAfter(setup, old(monitor), clearAsked, missed, reply, at - old(lastRead))
    {
      hide StepMonitor;
      var dt := at - lastRead;
      lastRead := at;
      if setup.attached {
        StepAttached(clearAsked, missed, dt);
      }
    }

    method StepAttached(clearAsked: bool, missed: bool, dt: real)
      requires ValidSetup(setup) && setup.attached && (!missed ==> reply.Reply?)
      modifies `monitor
      ensures monitor == MonitorAfter(setup, old(monitor), clearAsked, missed, reply, dt)
      ensures missed && monitor.latched ==> old(monitor.latched)
    {
      var m := if clearAsked then monitor.(clearRequested := true) else monitor;
      MissNeverLatches(setup.monitor, m, dt);
      monitor := StepMonitor(setup.monitor, m, if missed then Sample.Missed else reply.sample, dt);
    }

    /** Step 5b: the monitor, then a switch in place or a freeze on the cycle that trips. */
    method Contact(clearAsked: bool, at: real, missed: bool) returns (frozen: bool)
      requires AfterExchange(missed) && !cmd.Freeze? && (IsLatched() ==> active == Some(setup.contact))
      modifies `monitor, `lastRead, `log, `active, `cmd, `stamp
      ensures AfterExchange(missed) && lastRead == at
      ensures !frozen ==> !cmd.Freeze? && (IsLatched() ==> active == Some(setup.contact))
      ensures frozen ==> !missed && IsLatched() && active != Some(setup.contact)
      ensures monitor == MonitorAfter(setup, old(monitor), clearAsked, missed, reply, at - old(lastRead))
      ensures SameRuns(old(log), log)
    {
      StepContact(clearAsked, at, missed);
      frozen := false;
      if IsLatched() && active != Some(setup.contact) && !missed {
        frozen := Stop();
      }
    }

    /** A trip outside the contact mode, on a good cycle. */
    method Stop() returns (frozen: bool)
      requires AfterExchange(false) && IsLatched() && active != Some(setup.contact) && !cmd.Freeze?
      modifies `log, `active, `cmd, `stamp
      ensures AfterExchange(false)
      ensures frozen ==> active == old(active)
      ensures !frozen ==> !cmd.Freeze? && active == Some(setup.contact)
      ensures SameRuns(old(log), log)
    {
      frozen := !(active.Some? && SameActuators(setup, active.value, setup.contact));
      if frozen {
        cmd := Freeze(stamp);
        stamp := stamp + 1;
      } else {
        ghost var e := Entered(setup.contact, fbIndex, false);
        Reads(log, e);
        Append(setup, log, e);
        log := log + [e];
        active := Some(setup.contact);
      }
    }

    /** Step 6: compute on this cycle's feedback, over the time since the last compute. */
    method Compute(at: real)
      requires AfterExchange(false) && active.Some? && !cmd.Freeze? && (IsLatched() ==> active == Some(setup.contact))
      requires lastRead == at
      modifies `log, `lastCompute, `cmd, `stamp
      ensures AfterExchange(false) && Timely()
      ensures FaultRun(log) == old(FaultRun(log)) && AwayRun(log) == old(AwayRun(log))
              && Timeouts(log) == old(Timeouts(log))
      ensures (old(lastCompute).Some? ==> at - old(lastCompute).value <= Cap(setup)) ==>
              (Uncapped(log) <==> old(Uncapped(log)))
    {
      var dt := if lastCompute.None? then setup.period else Min(at - lastCompute.value, Cap(setup));
      ghost var e := Computed(active.value, fbIndex, true, at, dt, IsLatched());
      Reads(log, e);
      Append(setup, log, e);
      log := log + [e];
      lastCompute := Some(at);
      cmd := ByMode(active.value, stamp);
      stamp := stamp + 1;
    }

    /** The reading of the previous cycle is no later than its misses explain. */
    ghost predicate Timely()
      reads this, counter
    {
      lastCompute.Some? && !(IsLatched() && active != Some(setup.contact)) ==>
        lastRead - lastCompute.value <= Wait(setup, counter.misses)
    }

    /** The bound a cycle that ends `at` keeps on the time since the last compute. */
    ghost predicate Within(at: real, cycles: nat)
      reads this
    {
      lastCompute.Some? ==> at - lastCompute.value <= Wait(setup, cycles)
    }

    /** Steps 5b and 6. */
    method Finish(c: Cycle, missed: bool)
      requires AfterExchange(missed) && !cmd.Freeze? && (IsLatched() ==> active == Some(setup.contact))
      modifies `monitor, `lastRead, `log, `active, `cmd, `stamp, `lastCompute
      ensures Inv() && lastRead == c.at
      ensures FaultRun(log) == old(FaultRun(log)) && AwayRun(log) == old(AwayRun(log))
              && Timeouts(log) == old(Timeouts(log))
      ensures old(Within(c.at, if missed then counter.misses else setup.limits.row)) ==>
                (Uncapped(log) <==> old(Uncapped(log))) && Timely()
    {
      var frozen := Contact(c.clearAsked, c.at, missed);
      if active.Some? && !missed && !frozen {
        Compute(c.at);
      }
    }

    /** Step 4. */
    method Talk(outcome: Outcome) returns (exit: Exit, missed: bool)
      requires Inv() && !cmd.Freeze? && (IsLatched() ==> active == Some(setup.contact))
      modifies `log, `reply, `fbIndex, counter, counter.missAt
      ensures RunOk(setup, log) && Noted(old(log), log, Exchanged(cmd, outcome, true))
      ensures exit.Running? || exit.Lost? || exit.Broken?
      ensures exit.Lost? == LossCounted(setup, log)
      ensures !exit.Lost? ==> Survives(setup.limits, Timeouts(log))
      ensures exit.Broken? ==> outcome.Broke?
      ensures exit.Running? ==>
                && Core() && missed == (counter.misses > 0) && (missed <==> outcome.TimedOut?) && !outcome.Broke?
                && (!missed ==> reply == outcome)
                && counter.misses == (if missed then old(counter.misses) + 1 else 0)
    {
      exit, missed := Exchange(outcome, true);
    }

    /** The fault check, after a good exchange or a missed one. */
    method Judge(outcome: Outcome, missed: bool, ghost before: seq<Event>) returns (exit: Exit)
      requires Core() && Noted(before, log, Exchanged(cmd, outcome, true)) && !outcome.Broke?
      requires missed == outcome.TimedOut? && missed == (counter.misses > 0) && (!missed ==> reply == outcome)
      requires setup.exitOnFault ==>
                 faulty == FaultRun(before) < FAULT_CONFIRM && away == AwayRun(before) < AWAY_CONFIRM
      requires !LossCounted(setup, log) && Survives(setup.limits, Timeouts(log))
      modifies `faulty, `away
      ensures ExitOk(setup, exit, log) && (exit.Running? ==> AfterExchange(missed))
    {
      exit := Running;
      if setup.exitOnFault && !missed {
        var confirmed := CheckFault();
        if confirmed {
          exit := ArmFault;
        }
      }
    }

    /** What became of it: an exit as it stands, or the fault check. */
    method Heard(end: Exit, outcome: Outcome, missed: bool, ghost before: seq<Event>) returns (exit: Exit)
      requires ExitOk(setup, Running, before) && Noted(before, log, Exchanged(cmd, outcome, true))
      requires end.Running? || end.Lost? || (end.Broken? && outcome.Broke?)
      requires end.Lost? == LossCounted(setup, log) && (!end.Lost? ==> Survives(setup.limits, Timeouts(log)))
      requires end.Running? ==>
                 && Core() && missed == (counter.misses > 0) && (missed <==> outcome.TimedOut?) && !outcome.Broke?
                 && (!missed ==> reply == outcome)
      requires setup.exitOnFault ==> faulty == FaultRun(before) && away == AwayRun(before)
      modifies `faulty, `away
      ensures ExitOk(setup, exit, log) && (exit.Running? ==> end.Running? && AfterExchange(missed))
    {
      if end.Running? {
        exit := Judge(outcome, missed, before);
      } else {
        LostOrBroken(setup, before, log, cmd, outcome, end);
        exit := end;
      }
    }

    /** Step 4 and the fault check. */
    method Converse(c: Cycle) returns (exit: Exit, missed: bool)
      requires Inv() && !cmd.Freeze? && (IsLatched() ==> active == Some(setup.contact)) && ExitOk(setup, Running, log)
      modifies `log, `reply, `fbIndex, `faulty, `away, counter, counter.missAt
      ensures RunOk(setup, log) && ExitOk(setup, exit, log) && (Uncapped(log) <==> old(Uncapped(log)))
      ensures exit.Running? ==>
                && AfterExchange(missed) && !cmd.Freeze? && (IsLatched() ==> active == Some(setup.contact))
                && counter.misses == (if missed then old(counter.misses) + 1 else 0)
    {
      hide RunOk, LossCounted, FaultRun, AwayRun, LastExchange;
      ghost var before := log;
      exit, missed := Talk(c.outcome);
      exit := Heard(exit, c.outcome, missed, before);
    }

    /** Steps 4 to 6. */
    method Rest(c: Cycle) returns (exit: Exit)
      requires Inv() && !cmd.Freeze? && (IsLatched() ==> active == Some(setup.contact)) && ExitOk(setup, Running, log)
      modifies this, counter, counter.missAt
      ensures RunOk(setup, log) && ExitOk(setup, exit, log)
      ensures exit.Running? ==> Inv() && lastRead == c.at
      ensures old(Within(c.at, counter.misses + 1)) ==>
                (Uncapped(log) <==> old(Uncapped(log))) && (exit.Running? ==> Timely())
    {
      CycleBound(setup, counter.misses);
      ghost var m := counter.misses;
      ghost var w := Within(c.at, m + 1);
      assert w ==> Within(c.at, setup.limits.row);
      var missed;
      exit, missed := Converse(c);
      if exit.Running? {
        assert w ==> Within(c.at, if missed then counter.misses else setup.limits.row);
        Finish(c, missed);
      }
    }

    /** One turn of the loop. When the cycle is no longer than a timeout and a period, the
      * step handed to compute is whole: the cap does not bite. */
    method Turn(c: Cycle) returns (exit: Exit)
      requires Inv() && ExitOk(setup, Running, log)
      modifies this, counter, counter.missAt
      ensures RunOk(setup, log) && ExitOk(setup, exit, log)
      ensures exit.Running? ==> Inv() && lastRead == c.at
      ensures old(Timely()) && c.at - old(lastRead) <= setup.timeout + setup.period ==>
                (Uncapped(log) <==> old(Uncapped(log))) && (exit.Running? ==> Timely())
    {
      CycleBound(setup, counter.misses);
      ghost var paced := Timely() && c.at - lastRead <= setup.timeout + setup.period;
      var ok := Adopt(c.request, c.pumpsLost);
      if ok {
        assert paced ==> Within(c.at, counter.misses + 1);
        exit := Rest(c);
      } else {
        exit := SwitchLost;
      }
    }

    /** The loop, until the stop flag or an exception. */
    method Loop(script: seq<Cycle>) returns (exit: Exit)
      requires Inv() && Timely() && Uncapped(log) && ExitOk(setup, Running, log)
      modifies this, counter, counter.missAt
      ensures RunOk(setup, log) && ExitOk(setup, exit, log) && !exit.Running?
      ensures Paced(setup, old(lastRead), script) ==> Uncapped(log)
    {
      ghost var start := lastRead;
      var k := 0;
      exit := Running;
      while exit.Running? && k < |script|
        invariant k <= |script| && RunOk(setup, log) && ExitOk(setup, exit, log)
        invariant exit.Running? ==> Inv() && lastRead == ReadBefore(start, script, k)
        invariant Paced(setup, start, script) ==> Uncapped(log) && (exit.Running? ==> Timely())
      {
        assert Paced(setup, start, script) ==>
            script[k].at - ReadBefore(start, script, k) <= setup.timeout + setup.period;
        exit := Turn(script[k]);
        k := k + 1;
      }
      if exit.Running? {
        exit := Stopped;
      }
    }
  }

  /** Every cycle of the script ends within one timeout and one period of the previous. */
  predicate Paced(u: Setup, start: real, script: seq<Cycle>) {
    forall k :: 0 <= k < |script| ==> script[k].at - ReadBefore(start, script, k) <= u.timeout + u.period
  }
  function ReadBefore(start: real, script: seq<Cycle>, k: nat): real
    requires k <= |script|
  {
    if k == 0 then start else script[k - 1].at
  }

  /** A whole run: the seeding reads, then the loop over what the cycles bring, until the
    * stop flag. A lost seed is retried, and the retries end: enough of them in a row are
    * comms loss. */
  method Run(u: Setup, m: Monitor, requested: Option<ModeId>, seed: nat -> Outcome, start: real, script: seq<Cycle>)
      returns (exit: Exit, ghost log: seq<Event>)
    requires ValidSetup(u)
    ensures RunOk(u, log) && ExitOk(u, exit, log) && !exit.Running?
    ensures Paced(u, start, script) ==> Uncapped(log)
  {
    var loop := new RtLoop(u, m, requested);
    SurvivesNow(u.limits, []);
    exit := loop.Seed(seed, start);
    if exit.Running? {
      exit := loop.Loop(script);
    }
    log := loop.log;
  }

  lemma CycleBound(u: Setup, misses: nat)
    requires ValidSetup(u)
    ensures Wait(u, misses) + (u.timeout + u.period) == Wait(u, misses + 1)
    ensures misses < u.limits.row ==> Wait(u, misses + 1) <= Wait(u, u.limits.row)
  {
    if misses < u.limits.row {
      WaitGrows(u, misses + 1, u.limits.row);
    }
  }

  lemma WaitGrows(u: Setup, m: nat, n: nat)
    requires ValidSetup(u) && m <= n
    ensures Wait(u, m) <= Wait(u, n)
    decreases n
  {
    if m < n {
      WaitGrows(u, m, n - 1);
      assert Wait(u, n) == Wait(u, n - 1) + (u.timeout + u.period);
    }
  }

  /** Comms loss by the plain counts over every exchange of the run. */
  predicate LossCounted(u: Setup, log: seq<Event>) {
    InARow(Timeouts(log)) >= u.limits.row || Recent(Timeouts(log), u.limits.span) >= u.limits.window
  }

  lemma SurvivesNow(l: Limits, h: History)
    requires Survives(l, h)
    ensures InARow(h) < l.row && Recent(h, l.span) < l.window
  {
    assert h[..|h|] == h;
  }

  /** How a cycle can end: what each exit says about the exchanges so far. */
  predicate ExitOk(u: Setup, exit: Exit, log: seq<Event>) {
    && (exit.Lost? <==> LossCounted(u, log))
    && (!exit.Lost? ==> Survives(u.limits, Timeouts(log)))
    && (exit.ArmFault? ==> u.exitOnFault && (FaultRun(log) >= FAULT_CONFIRM || AwayRun(log) >= AWAY_CONFIRM))
    && (!exit.ArmFault? && !exit.Lost? && u.exitOnFault ==>
          FaultRun(log) < FAULT_CONFIRM && AwayRun(log) < AWAY_CONFIRM)
  }

  lemma LostOrBroken(u: Setup, before: seq<Event>, log: seq<Event>, cmd: Command, outcome: Outcome, exit: Exit)
    requires ExitOk(u, Running, before) && Noted(before, log, Exchanged(cmd, outcome, true))
    requires exit.Lost? || (exit.Broken? && outcome.Broke?)
    requires exit.Lost? == LossCounted(u, log) && (!exit.Lost? ==> Survives(u.limits, Timeouts(log)))
    ensures ExitOk(u, exit, log)
  {
  }

  /** ContactMonitor::step as the loop calls it. */
  function MonitorAfter(u: Setup, m: Monitor, clearAsked: bool, missed: bool, reply: Outcome, dt: real): Monitor
    requires ValidSetup(u) && (!missed ==> reply.Reply?)
  {
    if !u.attached then m
    else StepMonitor(u.monitor, if clearAsked then m.(clearRequested := true) else m,
                     if missed then Sample.Missed else reply.sample, dt)
  }

  lemma MissNeverLatches(cfg: Config, m: Monitor, dt: real)
    requires ValidConfig(cfg)
    ensures StepMonitor(cfg, m, Sample.Missed, dt).latched ==> m.latched
  {
  }
}
