/** What every run of the link guarantees, read off its log. ArmLink.Link.Run keeps its
  * log RunOk and its published counts equal to the log's.
  */
module ArmLinkRuns {
  import opened ArmLink

  lemma {:induction false} EveryEvent(log: seq<Event>, i: nat)
    requires RunOk(log) && i < |log|
    ensures RunOk(log[..i]) && EventOk(log[..i], log[i])
  {
    if i < |log| - 1 {
      assert log[..|log| - 1][..i] == log[..i];
      EveryEvent(log[..|log| - 1], i);
    }
  }

  lemma StepAt(log: seq<Event>, j: nat)
    requires RunOk(log) && j < |log|
    ensures Noted(log[..j], log[..j + 1], log[j])
  {
    EveryEvent(log, j);
    Reads(log[..j], log[j]);
    assert log[..j] + [log[j]] == log[..j + 1];
  }

  // ---- the arm is never taken back unasked ----------------------------------------------

  /** The RT loop was entered, or a fault latched. */
  predicate NeedsClear(e: Event) { e.RunExec? || e.Latched? }

  predicate NoneNeedsClear(log: seq<Event>, i: int, j: int)
    requires 0 <= i && j <= |log|
  {
    forall k :: i <= k < j ==> !NeedsClear(log[k])
  }

  predicate IsTake(e: Event) { e.ClearTaken? }
  predicate IsClear(e: Event) { e.Called? && e.call.ClearFaults? && e.answer.Value? }
  predicate IsHealthy(e: Event) { e == Called(Call.ArmInFault, Value(false)) }
  predicate IsServoing(e: Event) { e.Called? && e.call.Servoing? && e.answer.Value? }
  predicate IsPosition(e: Event) { e.Called? && e.call.ModesPosition? && e.answer.Value? }
  predicate IsAnnounced(e: Event) { e == Published(Running, true) }

  /** The events that bring a clear to each of its stages. */
  predicate ClearStage(stage: nat, e: Event) {
    if stage == 1 then IsTake(e) else if stage == 2 then IsClear(e) else IsHealthy(e)
  }

  /** Where a clear that now stands at `stage` reached it. */
  lemma {:induction false} ClearedBack(log: seq<Event>, i: nat, j: nat, stage: nat) returns (p: nat)
    requires RunOk(log) && i < j <= |log| && NeedsClear(log[i])
    requires 1 <= stage == Cleared(log[..j]) <= 3
    ensures i < p < j && ClearStage(stage, log[p]) && NoneNeedsClear(log, p, j)
    ensures stage > 1 ==> Cleared(log[..p]) == stage - 1
  {
    StepAt(log, j - 1);
    if Cleared(log[..j - 1]) == stage && !ClearStage(stage, log[j - 1]) {
      p := ClearedBack(log, i, j - 1, stage);
    } else if stage == 3 && Cleared(log[..j - 1]) == 3 {
      p := ClearedBack(log, i, j - 1, stage);
    } else {
      p := j - 1;
    }
  }

  predicate OnlyAsked(log: seq<Event>, i: int, j: int)
    requires 0 <= i && j <= |log|
  {
    forall k :: i <= k < j ==> log[k].Asked?
  }

  predicate EntryStage(stage: nat, e: Event) {
    if stage == 1 then IsServoing(e) else if stage == 2 then IsPosition(e) else IsAnnounced(e)
  }

  lemma {:induction false} EntryBack(log: seq<Event>, j: nat, stage: nat) returns (p: nat)
    requires RunOk(log) && j <= |log| && 1 <= stage == Entry(log[..j]) <= 3
    ensures p < j && EntryStage(stage, log[p]) && OnlyAsked(log, p + 1, j)
    ensures stage > 1 ==> Entry(log[..p]) == stage - 1
  {
    StepAt(log, j - 1);
    if log[j - 1].Asked? {
      p := EntryBack(log, j - 1, stage);
    } else {
      p := j - 1;
    }
  }

  /** The entry the RT loop always has: low level, then all actuators to POSITION, then the
    * Running notice, with nothing but requests in between. */
  lemma EveryRunEntersCleanly(log: seq<Event>, j: nat) returns (s: nat, m: nat, n: nat)
    requires RunOk(log) && j < |log| && log[j].RunExec?
    ensures s < m < n < j && IsServoing(log[s]) && IsPosition(log[m]) && IsAnnounced(log[n])
    ensures OnlyAsked(log, s + 1, m) && OnlyAsked(log, m + 1, n) && OnlyAsked(log, n + 1, j)
  {
    EveryEvent(log, j);
    n := EntryBack(log, j, 3);
    m := EntryBack(log, n, 2);
    s := EntryBack(log, m, 1);
  }

  /** Once the RT loop has run, or a fault has latched, it runs only after a taken clear, a
    * clear_faults, the arm reporting no fault, and a clean entry, in this order, with no
    * fault latched since the clear was taken. */
  lemma NeverRetakenUnasked(log: seq<Event>, i: nat, j: nat)
      returns (t: nat, c: nat, f: nat, s: nat, m: nat, n: nat)
    requires RunOk(log) && i < j < |log| && NeedsClear(log[i]) && log[j].RunExec?
    ensures i < t < c < f < s < m < n < j
    ensures IsTake(log[t]) && IsClear(log[c]) && IsHealthy(log[f])
    ensures IsServoing(log[s]) && IsPosition(log[m]) && IsAnnounced(log[n])
    ensures NoneNeedsClear(log, t, j)
  {
    EveryEvent(log, j);
    s, m, n := EveryRunEntersCleanly(log, j);
    f := ClearedBack(log, i, j, 3);
    c := ClearedBack(log, i, f, 2);
    t := ClearedBack(log, i, c, 1);
    assert log[m] != log[f] && log[n] != log[f];
  }

  /** No publication ends the faulted episode, and no clear is taken. */
  predicate SameEpisode(log: seq<Event>, i: int, j: int)
    requires 0 <= i && j <= |log|
  {
    forall k :: i <= k < j ==> !log[k].ClearTaken? && (log[k].Published? ==> log[k].state == Faulted)
  }

  /** And the clear that was taken had been asked for in the same faulted episode. */
  lemma EveryClearWasAsked(log: seq<Event>, t: nat) returns (a: nat)
    requires RunOk(log) && t < |log| && log[t].ClearTaken?
    ensures a < t && log[a] == Asked(true) && StateOf(log[..a]) == Faulted && SameEpisode(log, a, t)
  {
    EveryEvent(log, t);
    a := PendingBack(log, t);
    EveryEvent(log, a);
  }

  lemma {:induction false} PendingBack(log: seq<Event>, j: nat) returns (a: nat)
    requires RunOk(log) && j <= |log| && Pending(log[..j])
    ensures a < j && log[a] == Asked(true) && SameEpisode(log, a, j)
  {
    StepAt(log, j - 1);
    if log[j - 1] == Asked(true) {
      a := j - 1;
    } else {
      a := PendingBack(log, j - 1);
    }
  }

  // ---- faults ----------------------------------------------------------------------------

  /** The fault count and the unlatchings differ by at most the latch itself; whenever the
    * RT loop runs they agree. */
  lemma {:induction false} FaultsBalance(log: seq<Event>)
    requires RunOk(log)
    ensures Unlatchings(log) <= Faults(log) <= Unlatchings(log) + 1
  {
    if log != [] {
      FaultsBalance(log[..|log| - 1]);
    }
  }

  // ---- clears ----------------------------------------------------------------------------

  lemma {:induction false} PendingMeansFaulted(log: seq<Event>)
    requires RunOk(log)
    ensures Pending(log) ==> StateOf(log) == Faulted
  {
    if log != [] {
      PendingMeansFaulted(log[..|log| - 1]);
    }
  }

  /** An accepted request is pending, or taken and unanswered, or answered: whoever waits
    * for clears_done to move past the count it read is never forgotten. */
  lemma {:induction false} RequestAccounted(log: seq<Event>, i: nat, j: nat)
    requires RunOk(log) && i < j <= |log| && log[i] == Asked(true)
    ensures Pending(log[..j]) || Open(log[..j]) || Answered(log[..j]) > Answered(log[..i])
  {
    StepAt(log, j - 1);
    if i < j - 1 {
      RequestAccounted(log, i, j - 1);
      AnsweredGrows(log, i, j - 1);
    }
  }

  lemma {:induction false} AnsweredGrows(log: seq<Event>, i: nat, j: nat)
    requires RunOk(log) && i <= j <= |log|
    ensures Answered(log[..i]) <= Answered(log[..j])
  {
    if i < j {
      StepAt(log, j - 1);
      AnsweredGrows(log, i, j - 1);
    }
  }

  /** The first publication that leaves the faulted episode answers every request made in
    * it; the next faulted publication answers the one that was taken. */
  lemma NextPublicationAnswers(log: seq<Event>, i: nat, j: nat)
    requires RunOk(log) && i < j < |log| && log[i] == Asked(true) && log[j].Published?
    ensures log[j].state != Faulted ==> Answered(log[..j + 1]) > Answered(log[..i])
    ensures Open(log[..j]) ==> Answered(log[..j + 1]) > Answered(log[..i])
  {
    RequestAccounted(log, i, j);
    AnsweredGrows(log, i, j);
    StepAt(log, j);
  }

  /** No answer without a request of its own. */
  lemma {:induction false} AnswersNeedRequests(log: seq<Event>)
    requires RunOk(log)
    ensures Answered(log) + (if Open(log) then 1 else 0) + (if Pending(log) then 1 else 0) <= Asks(log)
  {
    if log != [] {
      AnswersNeedRequests(log[..|log| - 1]);
    }
  }
}
