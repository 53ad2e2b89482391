/** ArmLink: the link's life around the RT loop. run() is one thread; request_clear() comes
  * from any other. The environment is a list of points, one per atomic step of run():
  * each says which calls of request_clear landed just before it, what the transport call
  * made there answers, and what the stop flag and the timers read. A ghost log records
  * what happened, in order.
  */
module ArmLink {
  import opened Basics

  datatype LinkState = Connecting | Running | Faulted

  /** How a call into the transport or the executor ends: a value, a CommsLost or
    * TransportTimeout, a logic_error, or any other exception. */
  datatype Answer = Value(inFault: bool) | Silent | Misconfigured | Raised

  datatype Point = Point(asks: nat, stop: bool, timer: bool, answer: Answer)

  datatype Call = Connect | ArmInFault | Release | ClearFaults | Servoing | ModesPosition | ExecReturned

  datatype Event =
    | Called(call: Call, answer: Answer)
    | RunExec
    | Asked(accepted: bool)
    | ClearTaken
    | Published(state: LinkState, notified: bool)
    | Latched
    | Unlatched
    | Shutdown

  // ---- reading the log ---------------------------------------------------------------

  function StateOf(log: seq<Event>): LinkState {
    if log == [] then Connecting
    else if log[|log| - 1].Published? then log[|log| - 1].state
    else StateOf(log[..|log| - 1])
  }

  /** An accepted request_clear that run() has neither taken nor dropped. */
  predicate Pending(log: seq<Event>) {
    log != [] &&
    var e := log[|log| - 1];
    if e.Asked? && e.accepted then true
    else if e.ClearTaken? || (e.Published? && e.state != Faulted) then false
    else Pending(log[..|log| - 1])
  }

  /** A clear was taken and nothing has been published since. */
  predicate Open(log: seq<Event>) {
    log != [] &&
    var e := log[|log| - 1];
    if e.ClearTaken? then true else if e.Published? then false else Open(log[..|log| - 1])
  }

  /** Publications that answered a clear: one taken, or one dropped unread. */
  function Answered(log: seq<Event>): nat {
    if log == [] then 0
    else
      var e := log[|log| - 1];
      var before := log[..|log| - 1];
      Answered(before) + (if e.Published? && (Open(before) || (e.state != Faulted && Pending(before))) then 1 else 0)
  }

  function Asks(log: seq<Event>): nat {
    if log == [] then 0 else Asks(log[..|log| - 1]) + (if log[|log| - 1] == Asked(true) then 1 else 0)
  }

  function Faults(log: seq<Event>): nat {
    if log == [] then 0 else Faults(log[..|log| - 1]) + (if log[|log| - 1].Latched? then 1 else 0)
  }

  function Unlatchings(log: seq<Event>): nat {
    if log == [] then 0 else Unlatchings(log[..|log| - 1]) + (if log[|log| - 1].Unlatched? then 1 else 0)
  }

  /** How far a clear has come: 1 taken, 2 sent to the arm, 3 the arm reports no fault. A
    * fault latched, or a run of the RT loop, uses it up. */
  function Cleared(log: seq<Event>): nat {
    if log == [] then 3
    else
      var e := log[|log| - 1];
      var was := Cleared(log[..|log| - 1]);
      if e.Latched? || e.RunExec? then 0
      else if e.ClearTaken? then 1
      else if e.Asked? || was == 3 then was
      else if was == 1 && e.Called? && e.call.ClearFaults? && e.answer.Value? then 2
      else if was == 2 && e.Called? && e.call.ArmInFault? && e.answer.Value? then (if e.answer.inFault then 2 else 3)
      else 0
  }

  /** Health polls in a row, since the last publication, that the arm did not answer. */
  function SilentPolls(log: seq<Event>): nat {
    if log == [] then 0
    else
      var e := log[|log| - 1];
      if e.Published? || (e.Called? && e.call.ArmInFault? && e.answer.Value?) then 0
      else SilentPolls(log[..|log| - 1]) + (if e.Called? && e.call.ArmInFault? then 1 else 0)
  }

  /** How far the entry into low level has come: 1 servoing, 2 every actuator in POSITION,
    * 3 Running announced. Anything else in between starts it over. */
  function Entry(log: seq<Event>): nat {
    if log == [] then 0
    else
      var e := log[|log| - 1];
      var was := Entry(log[..|log| - 1]);
      if e.Asked? then was
      else if e.Called? && e.call.Servoing? && e.answer.Value? then 1
      else if was == 1 && e.Called? && e.call.ModesPosition? && e.answer.Value? then 2
      else if was == 2 && e == Published(Running, true) then 3
      else 0
  }

  // ---- what each event answers for ------------------------------------------------------

  predicate EventOk(before: seq<Event>, e: Event) {
    match e
    case RunExec => Entry(before) == 3 && Cleared(before) == 3 && Faults(before) == Unlatchings(before)
    case Asked(accepted) => accepted == StateOf(before).Faulted?
    case ClearTaken => Pending(before) && StateOf(before).Faulted?
    case Latched => Faults(before) == Unlatchings(before)
    case Unlatched => Faults(before) == Unlatchings(before) + 1 && Cleared(before) == 3
    case Called(call, _) => call.ClearFaults? ==> Cleared(before) == 1
    case Published(s, notified) => StateOf(before) != s ==> notified
    case Shutdown => true
  }

  predicate RunOk(log: seq<Event>) {
    log == [] || (RunOk(log[..|log| - 1]) && EventOk(log[..|log| - 1], log[|log| - 1]))
  }

  /** What the log functions make of one more event. */
  predicate Noted(a: seq<Event>, b: seq<Event>, e: Event) {
    && b == a + [e]
    && StateOf(b) == (if e.Published? then e.state else StateOf(a))
    && Pending(b) == (if e == Asked(true) then true
                      else if e.ClearTaken? || (e.Published? && e.state != Faulted) then false else Pending(a))
    && Open(b) == (if e.ClearTaken? then true else if e.Published? then false else Open(a))
    && Answered(b) == Answered(a) + (if e.Published? && (Open(a) || (e.state != Faulted && Pending(a))) then 1 else 0)
    && Faults(b) == Faults(a) + (if e.Latched? then 1 else 0)
    && Unlatchings(b) == Unlatchings(a) + (if e.Unlatched? then 1 else 0)
    && Asks(b) == Asks(a) + (if e == Asked(true) then 1 else 0)
    && Cleared(b) == (if e.Latched? || e.RunExec? then 0
                      else if e.ClearTaken? then 1
                      else if e.Asked? || Cleared(a) == 3 then Cleared(a)
                      else if Cleared(a) == 1 && e.Called? && e.call.ClearFaults? && e.answer.Value? then 2
                      else if Cleared(a) == 2 && e.Called? && e.call.ArmInFault? && e.answer.Value?
                      then (if e.answer.inFault then 2 else 3) else 0)
    && Entry(b) == (if e.Asked? then Entry(a)
                    else if e.Called? && e.call.Servoing? && e.answer.Value? then 1
                    else if Entry(a) == 1 && e.Called? && e.call.ModesPosition? && e.answer.Value? then 2
                    else if Entry(a) == 2 && e == Published(Running, true) then 3 else 0)
    && SilentPolls(b) == (if e.Published? || (e.Called? && e.call.ArmInFault? && e.answer.Value?) then 0
                          else SilentPolls(a) + (if e.Called? && e.call.ArmInFault? then 1 else 0))
  }

  lemma Reads(log: seq<Event>, e: Event)
    requires RunOk(log) && EventOk(log, e)
    ensures RunOk(log + [e]) && Noted(log, log + [e], e)
  {
    assert (log + [e])[..|log|] == log;
  }

  /** Only calls of request_clear landed in between. */
  predicate OnlyAsks(a: seq<Event>, b: seq<Event>) {
    && StateOf(b) == StateOf(a) && Open(b) == Open(a) && Answered(b) == Answered(a)
    && Faults(b) == Faults(a) && Unlatchings(b) == Unlatchings(a)
    && Cleared(b) == Cleared(a) && Entry(b) == Entry(a) && SilentPolls(b) == SilentPolls(a)
    && (Pending(a) ==> Pending(b))
  }

  /** What run() reads once the environment's points are used up: the stop flag. */
  const LAST_POINT := Point(0, true, true, Value(false))

  datatype Wait = Clear | Lost | Stop
  datatype Verdict = Persists | Gone | Threw(answer: Answer)
  datatype Step = Stopped | Again | Failed(answer: Answer)
  datatype Exit = StoppedCleanly | ConfigurationError

  class Link {
    const env: seq<Point>
    const healthMaxFailures: nat
    var at: nat

    var state: LinkState        // st_, guarded by m_
    var faults: nat
    var reconnects: nat
    var clearsDone: nat
    var pending: bool           // clear_requested_

    var latched: bool           // run()'s thread only
    var clearing: bool
    var connected: bool
    var everConnected: bool
    var commanding: bool
    ghost var log: seq<Event>

    /** At every atomic point: the fields are what the log says. */
    ghost predicate Inv()
      reads this
    {
      && RunOk(log) && at <= |env|
      && state == StateOf(log) && pending == Pending(log) && clearsDone == Answered(log)
      && faults == Faults(log) && Faults(log) == Unlatchings(log) + (if latched then 1 else 0)
      && (pending ==> state.Faulted?)
      && (clearing ==> Open(log)) && (Open(log) ==> state.Faulted?)
    }

    /** At the top of run()'s loop. */
    ghost predicate Top()
      reads this
    {
      && Inv() && clearing == Open(log) && !commanding
      && (!latched ==> Cleared(log) == 3 && state != Running)
    }

    constructor (env: seq<Point>, healthMaxFailures: nat)
      ensures this.env == env && Inv() && log == [] && state == Connecting && !latched && !clearing && !commanding
      ensures this.healthMaxFailures == healthMaxFailures && at == 0
    {
      this.env, this.healthMaxFailures := env, healthMaxFailures;
      at, state, faults, reconnects, clearsDone, pending := 0, Connecting, 0, 0, 0, false;
      latched, clearing, connected, everConnected, commanding, log := false, false, false, false, false, [];
    }

    ghost method Note(e: Event)
      requires RunOk(log) && EventOk(log, e)
      modifies `log
      ensures RunOk(log) && Noted(old(log), log, e)
    {
      Reads(log, e);
      log := log + [e];
    }

    /** request_clear, under m_. */
    method RequestClear() returns (accepted: bool)
      requires Inv()
      modifies `pending, `log
      ensures Inv() && accepted == state.Faulted? && pending == (old(pending) || accepted)
      ensures OnlyAsks(old(log), log)
    {
      accepted := state.Faulted?;
      if accepted {
        pending := true;
      }
      Note(Asked(accepted));
    }

    /** One atomic point of run(): what landed just before, and what it reads. */
    method Reach() returns (p: Point)
      requires Inv()
      modifies `pending, `log, `at
      ensures Inv() && OnlyAsks(old(log), log) && at >= old(at) && (p.stop || at > old(at))
      ensures if at > old(at) then p == env[at - 1] else p == LAST_POINT && at == |env|
    {
      if at == |env| {
        return LAST_POINT;
      }
      p := env[at];
      at := at + 1;
      var k := 0;
      while k < p.asks
        invariant Inv() && OnlyAsks(old(log), log) && at == old(at) + 1
      {
        var _ := RequestClear();
        k := k + 1;
      }
    }

    /** set_state. Under m_: publish, drop a clear asked for in the episode that ends, and
      * answer whoever waits. */
    method SetState(s: LinkState, announce: bool)
      requires Inv() && clearing == Open(log)
      modifies `state, `pending, `clearsDone, `clearing, `log
      ensures Inv() && !clearing && state == s
      ensures Noted(old(log), log, Published(s, announce || old(state) != s))
    {
      var changed := announce || state != s;
      state := s;
      var dropped := s != Faulted && pending;
      if s != Faulted {
        pending := false;
      }
      if clearing || dropped {
        clearsDone := clearsDone + 1;
        clearing := false;
      }
      Note(Published(s, changed));
    }

    /** latch. A second failure while latched is the same fault. */
    method Latch()
      requires Inv()
      modifies `latched, `faults, `log
      ensures Inv() && latched && faults == old(faults) + (if old(latched) then 0 else 1)
      ensures if old(latched) then log == old(log) else Noted(old(log), log, Event.Latched)
    {
      if !latched {
        latched := true;
        faults := faults + 1;
        Note(Event.Latched);
      }
    }

    /** A transport call: whatever landed before it, then the call. */
    method Ask(call: Call) returns (p: Point)
      requires Inv() && (call.ClearFaults? ==> Cleared(log) == 1)
      modifies `pending, `log, `at
      ensures Inv() && (p.stop || at > old(at)) && at >= old(at) && StateOf(log) == old(StateOf(log))
      ensures Open(log) == old(Open(log))
      ensures old(Cleared(log)) == 3 ==> Cleared(log) == 3
      ensures old(Cleared(log)) == 1 && call.ClearFaults? && p.answer.Value? ==> Cleared(log) == 2
      ensures old(Cleared(log)) == 2 && call.ArmInFault? && p.answer.Value? ==>
                Cleared(log) == (if p.answer.inFault then 2 else 3)
      ensures SilentPolls(log) == if call.ArmInFault? then (if p.answer.Value? then 0 else old(SilentPolls(log)) + 1)
                                  else old(SilentPolls(log))
      ensures call.Servoing? && p.answer.Value? ==> Entry(log) == 1
      ensures old(Entry(log)) == 1 && call.ModesPosition? && p.answer.Value? ==> Entry(log) == 2
    {
      p := Reach();
      Note(Called(call, p.answer));
    }

    method ShutDown()
      requires Inv()
      modifies `log, `connected
      ensures Inv() && !connected && log == old(log) + [Shutdown]
      ensures Open(log) == old(Open(log)) && (old(Cleared(log)) == 3 ==> Cleared(log) == 3)
    {
      connected := false;
      Note(Shutdown);
    }

    /** Taken, not yet answered: the flag was read and lowered, then clearing_ raised. A
      * request can land between the two. */
    method TakeClear() returns (taken: bool)
      requires Inv() && state.Faulted? && !Open(log)
      modifies `pending, `log, `at, `clearing
      ensures Inv() && at >= old(at) && taken == clearing
      ensures if taken then Open(log) && Cleared(log) == 1 else !Open(log)
      ensures SilentPolls(log) == old(SilentPolls(log))
    {
      taken := pending;
      if taken {
        pending := false;
        Note(ClearTaken);
        var _ := Reach();
      }
      clearing := taken;
    }

    /** The point run() read last, or the end of them, says stop. */
    predicate SaysStop()
      reads `at
      requires at <= |env|
    {
      at == |env| || (at > 0 && env[at - 1].stop)
    }

    predicate SaysTimer()
      reads `at
      requires at <= |env|
    {
      at == |env| || (at > 0 && env[at - 1].timer)
    }

    /** wait_faulted: the arm is its base's. Lost exactly when enough health polls in a row,
      * one at least, went unanswered; otherwise a clear was taken, or the stop flag read. */
    method WaitFaulted() returns (w: Wait)
      requires Inv() && state.Faulted? && !Open(log) && !clearing && SilentPolls(log) == 0
      modifies `pending, `log, `at, `clearing
      ensures Inv() && at >= old(at) && clearing == Open(log) && w.Clear? == clearing
      ensures w.Clear? ==> Cleared(log) == 1
      ensures w.Lost? <==> SilentPolls(log) > 0 && SilentPolls(log) >= healthMaxFailures
      ensures w.Stop? ==> SaysStop()
    {
      var failures := 0;
      while true
        invariant Inv() && state.Faulted? && !Open(log) && !clearing && at >= old(at)
        invariant failures == SilentPolls(log) && (failures > 0 ==> failures < healthMaxFailures)
        decreases |env| - at
      {
        var p := Reach();
        if p.stop { return Stop; }
        var taken := TakeClear();
        if taken { return Clear; }
        if p.timer {
          p := Ask(ArmInFault);
          if p.answer.Value? {
            failures := 0;
          } else {
            failures := failures + 1;
            if failures >= healthMaxFailures { return Lost; }
          }
        }
      }
    }

    /** fault_persists: poll until the arm leaves IN_FAULT, or the deadline or a stop. It
      * gives up only with the clear sent, no healthy answer since, and one of those read. */
    method FaultPersists() returns (v: Verdict)
      requires Inv() && Cleared(log) == 2 && clearing == Open(log)
      modifies `pending, `log, `at
      ensures Inv() && at >= old(at) && clearing == Open(log)
      ensures v.Gone? ==> Cleared(log) == 3
      ensures v.Threw? ==> !v.answer.Value?
      ensures v.Persists? ==> Cleared(log) == 2 && (SaysStop() || SaysTimer())
    {
      while true
        invariant Inv() && Cleared(log) == 2 && clearing == Open(log) && at >= old(at)
        decreases |env| - at
      {
        var p := Ask(ArmInFault);
        if !p.answer.Value? { return Threw(p.answer); }
        if !p.answer.inFault { return Gone; }
        p := Reach();
        if p.stop || p.timer { return Persists; }
      }
    }

    /** The faulted branch of the try block. */
    method SitOutFault() returns (r: Option<Step>)
      requires Top() && latched
      modifies `state, `pending, `clearsDone, `clearing, `log, `at, `latched
      ensures Inv() && clearing == Open(log) && at >= old(at)
      ensures if r.None? then !latched && Cleared(log) == 3 && state != Running else latched
      ensures r.Some? && r.value.Failed? ==> !r.value.answer.Value?
    {
      r := AwaitClear();
      if r.None? {
        r := ClearFault();
      }
    }

    /** Publish the fault, release the arm, and wait for a clear. */
    method AwaitClear() returns (r: Option<Step>)
      requires Top() && latched
      modifies `state, `pending, `clearsDone, `clearing, `log, `at
      ensures Inv() && clearing == Open(log) && at >= old(at) && (r.None? ==> Cleared(log) == 1 && state == Faulted)
      ensures r.Some? && r.value.Failed? ==> !r.value.answer.Value?
    {
      var _ := Reach();
      SetState(Faulted, false);
      var p := Ask(Release);
      if !p.answer.Value? { return Some(Failed(p.answer)); }
      var w := WaitFaulted();
      if w.Stop? { return Some(Stopped); }
      if w.Lost? { return Some(Failed(Silent)); }
      return None;
    }

    /** A clear was taken: send it, and see whether the fault goes. */
    method ClearFault() returns (r: Option<Step>)
      requires Inv() && latched && clearing == Open(log) && Cleared(log) == 1 && state == Faulted
      modifies `pending, `log, `at, `latched
      ensures Inv() && clearing == Open(log) && at >= old(at)
      ensures if r.None? then !latched && Cleared(log) == 3 else latched
      ensures r.Some? && r.value.Failed? ==> !r.value.answer.Value?
    {
      var p := Ask(ClearFaults);
      if !p.answer.Value? { return Some(Failed(p.answer)); }
      var v := FaultPersists();
      if v.Threw? { return Some(Failed(v.answer)); }
      if v.Persists? { return Some(Again); }
      latched := false;
      Note(Unlatched);
      return None;
    }

    /** Low level again, every actuator in POSITION. */
    method EnterLowLevel() returns (answer: Answer)
      requires Top() && !latched
      modifies `pending, `log, `at
      ensures Top() && at >= old(at) && (answer.Value? ==> Entry(log) == 2)
    {
      var p := Ask(Servoing);
      if p.answer.Value? {
        p := Ask(ModesPosition);
      }
      return p.answer;
    }

    /** Low level, Running announced, then the RT loop. */
    method Serve() returns (r: Step)
      requires Top() && !latched
      modifies `state, `pending, `clearsDone, `clearing, `log, `at, `commanding
      ensures Inv() && clearing == Open(log) && at >= old(at)
      ensures !r.Again? && (r.Failed? ==> !r.answer.Value?)
      ensures !commanding ==> Cleared(log) == 3 && state != Running
    {
      var answer := EnterLowLevel();
      if !answer.Value? { return Failed(answer); }
      var p := Reach();
      SetState(Running, false);
      p := Reach();
      commanding := true;
      Note(RunExec);
      p := Ask(ExecReturned);
      return if p.answer.Value? then Stopped else Failed(p.answer);
    }

    /** The try block. */
    method Take() returns (r: Step)
      requires Top()
      modifies `state, `pending, `clearsDone, `clearing, `log, `at, `commanding, `latched, `faults
      ensures Inv() && clearing == Open(log) && at >= old(at)
      ensures r.Failed? ==> !r.answer.Value?
      ensures r.Again? ==> Top()
      ensures latched || commanding || (Cleared(log) == 3 && state != Running)
    {
      if !latched {
        var p := Ask(ArmInFault);
        if !p.answer.Value? { return Failed(p.answer); }
        if p.answer.inFault { Latch(); }
      }
      if latched {
        var out := SitOutFault();
        if out.Some? { return out.value; }
      }
      r := Serve();
    }

    /** A silent arm: a loss while commanding latches, one before that just retries. */
    method LoseLink()
      requires Inv() && clearing == Open(log) && (latched || commanding || (Cleared(log) == 3 && state != Running))
      modifies `state, `pending, `clearsDone, `clearing, `log, `at, `commanding, `latched, `faults, `connected
      ensures Top() && at >= old(at) && !connected && state.Connecting? && !pending
      ensures latched == (old(latched) || old(commanding))
    {
      hide RunOk, Entry, SilentPolls;
      if commanding { Latch(); }
      commanding := false;
      var _ := Reach();
      SetState(Connecting, false);
      ShutDown();
    }

    /** Connecting: anything but a configuration error is retried forever. */
    method TryConnect() returns (answer: Answer)
      requires Top() && !connected
      modifies `pending, `log, `at, `connected, `everConnected, `reconnects
      ensures Top() && at >= old(at) && connected == answer.Value?
      ensures reconnects == old(reconnects) + (if answer.Value? && old(everConnected) then 1 else 0)
      ensures !answer.Value? ==> log != [] && log[|log| - 1].Shutdown?
    {
      var p := Ask(Connect);
      answer := p.answer;
      if answer.Value? {
        connected := true;
        if everConnected { reconnects := reconnects + 1; }
        everConnected := true;
      } else {
        ShutDown();
      }
    }

    /** One turn of run()'s loop, past the connect. */
    method Turn() returns (stopped: bool)
      requires Top() && connected
      modifies `state, `pending, `clearsDone, `clearing, `log, `at, `commanding, `latched, `faults, `connected
      ensures Inv() && at >= old(at) && (!stopped ==> Top())
    {
      var r := Take();
      stopped := r.Stopped?;
      if r.Failed? {
        if r.answer.Silent? {
          LoseLink();
        } else {
          commanding := false;
          Latch();
        }
      }
    }

    /** run(). Only a configuration error gets out of it; either way the transport is shut
      * down last. */
    method Run() returns (exit: Exit)
      requires Inv() && log == [] && !commanding && !clearing && !latched && state.Connecting?
      modifies this
      ensures RunOk(log) && Inv()
      ensures log != [] && log[|log| - 1].Shutdown?
    {
      hide Entry, SilentPolls;
      SetState(Connecting, true);
      exit := StoppedCleanly;
      while true
        invariant Top()
        decreases |env| - at
      {
        var p := Reach();
        if p.stop { break; }
        if !connected {
          var answer := TryConnect();
          if answer.Misconfigured? { return ConfigurationError; }
          if !answer.Value? { continue; }
        }
        var stopped := Turn();
        if stopped { break; }
      }
      ShutDown();
    }
  }
}
