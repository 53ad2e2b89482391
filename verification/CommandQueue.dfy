/** The Supervisor state guarded by q_mtx_: the inbox the backend threads fill and
  * the sampler drains, and the pending halt. Every q_mtx_ section of the source is
  * one method here; the interleaving model (Supervision.dfy) uses the functions the
  * methods are proved against.
  */
module CommandQueue {

  datatype HaltReason = OwnershipRevoked | EmergencyStop | OperatorRequest | ArmUnavailable | Contact

  datatype ModeKind = Position | Impedance | Velocity | Torque

  /** What the sampler looks at in a goal; each flag is the verdict of one check. */
  datatype Goal = Goal(kind: ModeKind, queue: bool, gainsOk: bool, stampsOk: bool, empty: bool, scaleOk: bool)

  /** One inbox entry. A goal is named by its acceptance number. */
  datatype Inbound =
    | Cancel
    | Queued(id: nat, goal: Goal, halted: bool, why: HaltReason)

  predicate Live(e: Inbound) { e.Queued? && !e.halted }

  predicate NoLiveGoal(inbox: seq<Inbound>) { forall i :: 0 <= i < |inbox| ==> !Live(inbox[i]) }

  /** The acceptance numbers of the goals in the inbox, in order. */
  function GoalIds(inbox: seq<Inbound>): seq<nat> {
    if inbox == [] then []
    else (if inbox[0].Cancel? then [] else [inbox[0].id]) + GoalIds(inbox[1..])
  }

  function Mark(e: Inbound, r: HaltReason): Inbound {
    if Live(e) then e.(halted := true, why := r) else e
  }

  /** on_halt's pass over the inbox: cancels go, live goals become halted. */
  function MarkHalted(inbox: seq<Inbound>, r: HaltReason): seq<Inbound> {
    if inbox == [] then []
    else (if inbox[0].Cancel? then [] else [Mark(inbox[0], r)]) + MarkHalted(inbox[1..], r)
  }

  /** A halt loses no accepted goal and leaves none that would run. */
  lemma {:induction false} MarkHaltedKeepsGoals(inbox: seq<Inbound>, r: HaltReason)
    ensures GoalIds(MarkHalted(inbox, r)) == GoalIds(inbox)
    ensures forall i :: 0 <= i < |MarkHalted(inbox, r)| ==>
              MarkHalted(inbox, r)[i].Queued? && MarkHalted(inbox, r)[i].halted
  {
    if inbox != [] {
      MarkHaltedKeepsGoals(inbox[1..], r);
      var rest := MarkHalted(inbox[1..], r);
      if !inbox[0].Cancel? {
        assert ([Mark(inbox[0], r)] + rest)[1..] == rest;
      } else {
        assert [] + rest == rest;
      }
    }
  }

  lemma {:induction false} GoalIdsAppend(inbox: seq<Inbound>, e: Inbound)
    ensures GoalIds(inbox + [e]) == GoalIds(inbox) + (if e.Cancel? then [] else [e.id])
  {
    if inbox == [] {
      assert inbox + [e] == [e];
      assert [e][1..] == [];
    } else {
      assert (inbox + [e])[1..] == inbox[1..] + [e];
      GoalIdsAppend(inbox[1..], e);
      var head := if inbox[0].Cancel? then [] else [inbox[0].id];
      assert GoalIds(inbox + [e]) == head + GoalIds(inbox[1..] + [e]);
    }
  }

  /** What one round of on_halt's loop leaves: the entries before `i` are done. */
  lemma MarkHaltedRound(before: seq<Inbound>, i: nat, r: HaltReason, after: seq<Inbound>)
    requires i < |before|
    requires before[i].Cancel? ==> after == before[..i] + before[i + 1..]
    requires before[i].Queued? ==> after == before[i := Mark(before[i], r)]
    ensures before[i].Cancel? ==>
              before[..i] + MarkHalted(before[i..], r) == after[..i] + MarkHalted(after[i..], r)
    ensures before[i].Queued? ==>
              before[..i] + MarkHalted(before[i..], r) == after[..i + 1] + MarkHalted(after[i + 1..], r)
  {
    assert before[i..][1..] == before[i + 1..];
    if before[i].Cancel? {
      assert after[..i] == before[..i] && after[i..] == before[i + 1..];
      assert [] + MarkHalted(before[i + 1..], r) == MarkHalted(before[i + 1..], r);
    } else {
      assert after[..i + 1] == before[..i] + [Mark(before[i], r)] && after[i + 1..] == before[i + 1..];
    }
  }

  /** A pending contact halt keeps its reason. */
  function MergeReason(pending: bool, old_: HaltReason, r: HaltReason): HaltReason {
    if pending && old_ == Contact then Contact else r
  }

  class SupervisorQueue {
    var inbox: seq<Inbound>
    var haltPending: bool
    var haltReason: HaltReason

    constructor ()
      ensures inbox == [] && !haltPending && haltReason == OwnershipRevoked
    {
      inbox, haltPending, haltReason := [], false, OwnershipRevoked;
    }

    /** on_trajectory_accepted, with what it read of the contact latch and the link. */
    method Accept(id: nat, goal: Goal, latched: bool, ready: bool)
      modifies `inbox
      ensures inbox == old(inbox) + [Queued(id, goal, latched || !ready,
                                            if latched then Contact
                                            else if !ready then ArmUnavailable else OwnershipRevoked)]
    {
      if latched {
        inbox := inbox + [Queued(id, goal, true, Contact)];
      } else if !ready {
        inbox := inbox + [Queued(id, goal, true, ArmUnavailable)];
      } else {
        inbox := inbox + [Queued(id, goal, false, OwnershipRevoked)];
      }
    }

    /** on_trajectory_cancel. */
    method PushCancel()
      modifies `inbox
      ensures inbox == old(inbox) + [Cancel]
    {
      inbox := inbox + [Cancel];
    }

    /** The q_mtx_ section of on_halt: edits the deque in place. */
    method Halt(r: HaltReason)
      modifies this
      ensures inbox == MarkHalted(old(inbox), r)
      ensures haltPending && haltReason == MergeReason(old(haltPending), old(haltReason), r)
    {
      assert MarkHalted([], r) == [];
      hide MarkHalted;
      var i := 0;
      while i < |inbox|
        invariant 0 <= i <= |inbox|
        invariant MarkHalted(old(inbox), r) == inbox[..i] + MarkHalted(inbox[i..], r)
        invariant haltPending == old(haltPending) && haltReason == old(haltReason)
        decreases |inbox| - i
      {
        ghost var before := inbox;
        ghost var k := i;
        if inbox[i].Cancel? {
          inbox := inbox[..i] + inbox[i + 1..];
        } else {
          if !inbox[i].halted {
            inbox := inbox[i := inbox[i].(halted := true, why := r)];
          }
          i := i + 1;
        }
        MarkHaltedRound(before, k, r, inbox);
      }
      if !(haltPending && haltReason == Contact) {
        haltReason := r;
      }
      haltPending := true;
    }

    /** Step 0 of the sampler: take a pending halt. */
    method TakeHalt() returns (halt: bool, why: HaltReason)
      modifies `haltPending
      ensures halt == old(haltPending) && !haltPending
      ensures why == if halt then haltReason else OwnershipRevoked
    {
      halt, why := false, OwnershipRevoked;
      if haltPending {
        halt, why := true, haltReason;
        haltPending := false;
      }
    }

    /** One pop of the sampler's drain loop. */
    method Pop() returns (more: bool, e: Inbound)
      modifies `inbox
      ensures more == (old(inbox) != [])
      ensures more ==> old(inbox) == [e] + inbox
      ensures !more ==> inbox == old(inbox)
    {
      more, e := false, Cancel;
      if |inbox| > 0 {
        more, e := true, inbox[0];
        inbox := inbox[1..];
      }
    }
  }
}
