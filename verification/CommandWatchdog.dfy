/** The staleness watchdog of a streamed command: freshness is a counter, elapsed time the
  * sum of the cycles' dt.
  */
module CommandWatchdog {
  /** The RT thread's half. */
  datatype Watch = Watch(lastSeen: nat, staleFor: real, isNew: bool)

  /** on_enter: adopt the count without treating it as fresh. */
  function ResetAt(count: nat): Watch { Watch(count, 0.0, false) }

  function Ticked(w: Watch, count: nat, dt: real): Watch {
    if count != w.lastSeen then Watch(count, 0.0, true) else Watch(w.lastSeen, w.staleFor + dt, false)
  }

  predicate IsStale(w: Watch, timeout: real) { timeout > 0.0 && w.staleFor >= timeout }

  /** The freeze latch of the modes that have one: raised by a stale cycle, lowered by a
    * fresh one. */
  function Latch(frozen: bool, w: Watch, stale: bool): bool {
    if stale then true else if w.isNew then false else frozen
  }

  /** The ticks since the last fresh one, or since entry, oldest first. */
  function TimeOf(dts: seq<real>): real {
    if dts == [] then 0.0 else TimeOf(dts[..|dts| - 1]) + dts[|dts| - 1]
  }

  function Ticks(w: Watch, count: nat, dts: seq<real>): Watch {
    if dts == [] then w else Ticked(Ticks(w, count, dts[..|dts| - 1]), count, dts[|dts| - 1])
  }

  /** With no new command the watchdog is stale exactly when the time since the last one,
    * dt by dt, has come to the timeout. */
  lemma {:induction false} StaleIsElapsed(w: Watch, count: nat, dts: seq<real>, timeout: real)
    requires count == w.lastSeen && w.staleFor == 0.0
    ensures Ticks(w, count, dts).lastSeen == count && (dts != [] ==> !Ticks(w, count, dts).isNew)
    ensures Ticks(w, count, dts).staleFor == TimeOf(dts)
    ensures IsStale(Ticks(w, count, dts), timeout) <==> timeout > 0.0 && TimeOf(dts) >= timeout
  {
    if dts != [] { StaleIsElapsed(w, count, dts[..|dts| - 1], timeout); }
  }

  class CommandWatchdog {
    var count: nat
    var timeout: real
    var lastSeen: nat
    var staleFor: real
    var isNew: bool

    function View(): Watch
      reads this
    {
      Watch(lastSeen, staleFor, isNew)
    }

    constructor ()
      ensures count == 0 && timeout == 0.0 && View() == ResetAt(0)
    {
      count, timeout, lastSeen, staleFor, isNew := 0, 0.0, 0, 0.0, false;
    }

    method Arm(seconds: real)
      modifies `timeout
      ensures timeout == seconds
    {
      timeout := seconds;
    }

    method Bump()
      modifies `count
      ensures count == old(count) + 1
    {
      count := count + 1;
    }

    method Reset()
      modifies `lastSeen, `staleFor, `isNew
      ensures View() == ResetAt(count)
    {
      lastSeen, staleFor, isNew := count, 0.0, false;
    }

    method Tick(dt: real) returns (stale: bool)
      modifies `lastSeen, `staleFor, `isNew
      ensures View() == Ticked(old(View()), count, dt)
      ensures stale == IsStale(View(), timeout)
    {
      var c := count;
      isNew := c != lastSeen;
      if isNew {
        lastSeen := c;
        staleFor := 0.0;
      } else {
        staleFor := staleFor + dt;
      }
      stale := timeout > 0.0 && staleFor >= timeout;
    }
  }
}
