/** The streaming session: when it opens, which setpoints it lets through, and when it has
  * gone silent. The reference is the history of what it was asked.
  */
module StreamingSession {
  import opened Basics
  import opened CommandQueue

  datatype Kind = JointPosition | EePose | JointTorque | JointVelocity | EeTwist

  predicate PairSupported(k: Kind, m: ModeKind) {
    match k
    case JointPosition => m.Position? || m.Impedance?
    case EePose => m.Impedance? || m.Position?
    case JointTorque => m.Torque?
    case _ => m.Velocity? || m.Impedance?
  }

  /** What a session is asked, with the clock at that moment. */
  datatype Event =
    | Open(kind: Kind, mode: ModeKind, timeout: real, now: real)
    | Close
    | Setpoint(kind: Kind, now: real)

  /** The open request the session is running on, if it is open. */
  function Running(h: seq<Event>): (r: Option<Event>)
    ensures r.Some? ==> r.value.Open? && r.value.timeout > 0.0 && PairSupported(r.value.kind, r.value.mode)
  {
    if h == [] then None
    else
      var e, before := h[|h| - 1], Running(h[..|h| - 1]);
      match e
      case Open(k, m, timeout, _) =>
        if before.None? && timeout > 0.0 && PairSupported(k, m) then Some(e) else before
      case Close => None
      case Setpoint(_, _) => before
  }

  /** Was this setpoint of the running session's own kind? */
  predicate Fits(before: seq<Event>, e: Event) {
    e.Setpoint? && Running(before).Some? && Running(before).value.kind == e.kind
  }

  /** The last sign of life: the last setpoint let through, or the opening. */
  function LastLife(h: seq<Event>): real
    requires Running(h).Some?
  {
    var e, before := h[|h| - 1], h[..|h| - 1];
    if Fits(before, e) then e.now
    else if Running(before).None? then e.now
    else LastLife(before)
  }

  function Refused(h: seq<Event>): nat {
    if h == [] then 0
    else Refused(h[..|h| - 1]) + (if h[|h| - 1].Setpoint? && !Fits(h[..|h| - 1], h[|h| - 1]) then 1 else 0)
  }

  /** A refused setpoint or open is no sign of life: it neither opens nor prolongs. */
  lemma RefusalsDoNotProlong(h: seq<Event>, e: Event)
    requires Running(h).Some? && !e.Close? && !Fits(h, e)
    ensures Running(h + [e]) == Running(h) && LastLife(h + [e]) == LastLife(h)
  {
    assert (h + [e])[..|h|] == h;
  }

  class Session {
    var open_: bool
    var kind: Kind
    var mode: ModeKind
    var timeout: real
    var last: real
    var rejected: nat
    ghost var history: seq<Event>

    ghost predicate Valid()
      reads this
    {
      && open_ == Running(history).Some? && rejected == Refused(history)
      && (open_ ==>
            && kind == Running(history).value.kind && mode == Running(history).value.mode
            && timeout == Running(history).value.timeout && last == LastLife(history))
    }

    constructor ()
      ensures Valid() && history == []
    {
      open_, kind, mode, timeout, last, rejected, history := false, JointPosition, Position, 0.1, 0.0, 0, [];
    }

    ghost method Record(e: Event)
      modifies `history
      ensures history == old(history) + [e] && history[..|history| - 1] == old(history)
    {
      history := history + [e];
    }

    /** Opened iff closed before, with a positive timeout, for a supported pair. */
    method OpenFor(k: Kind, m: ModeKind, seconds: real, now: real) returns (accepted: bool)
      requires Valid()
      modifies this
      ensures Valid() && history == old(history) + [Open(k, m, seconds, now)]
      ensures accepted == (!old(open_) && seconds > 0.0 && PairSupported(k, m))
      ensures open_ == (old(open_) || accepted)
    {
      Record(Open(k, m, seconds, now));
      accepted := !open_ && seconds > 0.0 && PairSupported(k, m);
      if accepted {
        kind, mode, timeout, last, open_ := k, m, seconds, now, true;
      }
    }

    method CloseNow()
      requires Valid()
      modifies this
      ensures Valid() && history == old(history) + [Close] && !open_
    {
      Record(Close);
      open_ := false;
    }

    /** A setpoint passes iff the session is open for its kind; only then does it count. */
    method Admit(k: Kind, now: real) returns (ok: bool)
      requires Valid()
      modifies this
      ensures Valid() && history == old(history) + [Setpoint(k, now)]
      ensures ok == Fits(old(history), Setpoint(k, now)) && rejected == old(rejected) + (if ok then 0 else 1)
    {
      Record(Setpoint(k, now));
      ok := open_ && k == kind;
      if ok {
        last := now;
      } else {
        rejected := rejected + 1;
      }
    }

    /** Silent for longer than the timeout since the last sign of life; never when closed. */
    method Expired(now: real) returns (e: bool)
      requires Valid()
      ensures e <==> Running(history).Some? && now - LastLife(history) > Running(history).value.timeout
    {
      e := open_ && now - last > timeout;
    }
  }
}
