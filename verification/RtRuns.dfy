/** What a whole run of the RT loop guarantees, read off its log. RtExecutor.Run ends with
  * a log that is RunOk, and Uncapped when the cycles are paced.
  */
module RtRuns {
  import opened Basics
  import opened MissRing
  import opened RtExecutor

  lemma {:induction false} EveryEvent(u: Setup, log: seq<Event>, i: nat)
    requires RunOk(u, log) && i < |log|
    ensures EventOk(u, log[..i], log[i])
  {
    if i < |log| - 1 {
      assert log[..|log| - 1][..i] == log[..i];
      EveryEvent(u, log[..|log| - 1], i);
    }
  }

  predicate NoExchange(log: seq<Event>, i: int, j: int)
    requires 0 <= i && j <= |log|
  {
    forall k :: i <= k < j ==> !log[k].Exchanged?
  }

  lemma {:induction false} LastExchangeAt(log: seq<Event>, i: nat, j: nat)
    requires i < j <= |log| && log[i].Exchanged? && NoExchange(log, i + 1, j)
    ensures LastExchange(log[..j]) == Some(log[i])
  {
    assert log[..j][..j - 1] == log[..j - 1];
    if i < j - 1 {
      assert !log[j - 1].Exchanged?;
      LastExchangeAt(log, i, j - 1);
    }
  }

  /** While the latch is set nothing but the contact mode computes, each boundary leaves
    * the contact mode active, and the freeze is never sent. */
  lemma LatchedMeansContactMode(u: Setup, log: seq<Event>, i: nat)
    requires RunOk(u, log) && i < |log|
    ensures log[i].Computed? && log[i].latched ==> log[i].mode == u.contact
    ensures log[i].Boundary? && log[i].latched ==> log[i].active == Some(u.contact)
    ensures log[i].Exchanged? ==> !log[i].cmd.Freeze?
  {
    EveryEvent(u, log, i);
  }

  /** A lost exchange is followed by one with the identical command, and no mode runs in
    * between. */
  lemma MissesAreTransparent(u: Setup, log: seq<Event>, i: nat, j: nat)
    requires RunOk(u, log) && i < j < |log| && NoExchange(log, i + 1, j)
    requires log[i].Exchanged? && log[i].outcome.TimedOut?
    ensures log[j].Exchanged? ==> log[j].cmd == log[i].cmd
    ensures !log[j].Computed? && !log[j].Entered?
  {
    EveryEvent(u, log, j);
    LastExchangeAt(log, i, j);
  }

  lemma {:induction false} SomeExchange(log: seq<Event>, j: nat) returns (i: nat)
    requires j <= |log| && LastExchange(log[..j]).Some?
    ensures i < j && log[i].Exchanged? && NoExchange(log, i + 1, j) && LastExchange(log[..j]) == Some(log[i])
  {
    assert log[..j][..j - 1] == log[..j - 1];
    if log[j - 1].Exchanged? {
      i := j - 1;
    } else {
      i := SomeExchange(log, j - 1);
    }
  }

  /** Every on_enter and every compute sees the reply of the exchange just before it. */
  lemma FeedbackIsFresh(u: Setup, log: seq<Event>, j: nat) returns (i: nat)
    requires RunOk(u, log) && j < |log| && (log[j].Computed? || log[j].Entered?)
    ensures i < j && NoExchange(log, i + 1, j) && log[i].Exchanged? && log[i].outcome.Reply?
    ensures |Timeouts(log[..i + 1])| == log[j].fb + 1
  {
    EveryEvent(u, log, j);
    i := SomeExchange(log, j);
    SameTimeouts(log, i + 1, j);
  }

  lemma {:induction false} SameTimeouts(log: seq<Event>, i: nat, j: nat)
    requires i <= j <= |log| && NoExchange(log, i, j)
    ensures Timeouts(log[..j]) == Timeouts(log[..i])
  {
    if i < j {
      assert log[..j][..j - 1] == log[..j - 1];
      assert !log[j - 1].Exchanged?;
      SameTimeouts(log, i, j - 1);
    }
  }

  // ---- time ---------------------------------------------------------------------------

  predicate InLoop(e: Event) { e.Computed? && e.inLoop }

  predicate SameMode(log: seq<Event>, i: int, j: int)
    requires 0 <= i && j <= |log|
  {
    forall k :: i <= k < j ==> !(log[k].Entered? && log[k].handshake)
  }

  /** The steps handed to compute after event i, up to and including event j. */
  function Steps(log: seq<Event>, i: nat, j: nat): real
    requires i <= j < |log|
  {
    if i == j then 0.0 else Steps(log, i, j - 1) + (if InLoop(log[j]) then log[j].dt else 0.0)
  }

  lemma {:induction false} UncappedPrefix(log: seq<Event>, j: nat)
    requires Uncapped(log) && j < |log|
    ensures WholeStep(log[..j], log[j])
  {
    if j < |log| - 1 {
      assert log[..|log| - 1][..j] == log[..j];
      UncappedPrefix(log[..|log| - 1], j);
    }
  }

  lemma {:induction false} ElapsedSoFar(log: seq<Event>, i: nat, j: nat)
    requires Uncapped(log) && i <= j < |log| && InLoop(log[i]) && SameMode(log, i, j + 1)
    ensures LastCompute(log[..j + 1]).Some?
    ensures Steps(log, i, j) == LastCompute(log[..j + 1]).value - log[i].at
  {
    assert log[..j + 1][..j] == log[..j];
    if i < j {
      ElapsedSoFar(log, i, j - 1);
      UncappedPrefix(log, j);
      assert !(log[j].Entered? && log[j].handshake);
    }
  }

  /** Between two computes of one adoption the steps add up to the wall time. */
  lemma StepsAreElapsedTime(log: seq<Event>, i: nat, j: nat)
    requires Uncapped(log) && i <= j < |log| && InLoop(log[i]) && InLoop(log[j]) && SameMode(log, i, j + 1)
    ensures Steps(log, i, j) == log[j].at - log[i].at
  {
    ElapsedSoFar(log, i, j);
    assert log[..j + 1][..j] == log[..j];
  }

  // ---- losses ---------------------------------------------------------------------------

  function Lost(h: History): nat {
    if h == [] then 0 else Lost(h[..|h| - 1]) + (if h[|h| - 1] then 1 else 0)
  }

  lemma {:induction false} LostIsRecent(h: History, a: nat, b: nat, w: nat)
    requires a <= b <= |h| && b - a <= w
    ensures Lost(h[a..b]) <= Recent(h[..b], w)
  {
    if a < b {
      assert h[a..b][..b - a - 1] == h[a..b - 1];
      assert h[..b][..b - 1] == h[..b - 1];
      LostIsRecent(h, a, b - 1, w - 1);
    }
  }

  lemma {:induction false} AllLost(h: History, a: nat, b: nat)
    requires a <= b <= |h| && forall k :: a <= k < b ==> h[k]
    ensures InARow(h[..b]) >= b - a
  {
    if a < b {
      assert h[..b][..b - 1] == h[..b - 1];
      AllLost(h, a, b - 1);
    }
  }

  /** A run that was not lost to comms has, in every stretch of span exchanges, fewer than
    * `window` timeouts, and in every stretch of `row` exchanges a good one. */
  lemma SurvivorsStayUnderEveryWindow(u: Setup, exit: Exit, log: seq<Event>, a: nat, b: nat)
    requires ExitOk(u, exit, log) && !exit.Lost? && a <= b <= |Timeouts(log)|
    ensures b - a <= u.limits.span ==> Lost(Timeouts(log)[a..b]) < u.limits.window
    ensures b - a >= u.limits.row ==> exists k :: a <= k < b && !Timeouts(log)[k]
  {
    var h := Timeouts(log);
    if b - a <= u.limits.span {
      LostIsRecent(h, a, b, u.limits.span);
    }
    if forall k :: a <= k < b ==> h[k] {
      AllLost(h, a, b);
    }
  }
}
