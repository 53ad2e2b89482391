/** The Arbiter's own state: who may command the arm. Each method below is one
  * section the source runs under m_ (or, for LatchStop, the one store it makes
  * without it); Supervision.dfy interleaves the same sections.
  */
module Arbiter {

  /** Token 0 stands for the all-zero token, the no-owner sentinel. */
  type Token = nat

  datatype Gate = Gate(enabled: bool, estopped: bool, owned: bool, token: Token, generation: nat, rejected: nat)

  /** Admitted iff not e-stopped and either arbitration is off or the live token is shown. */
  predicate Admits(g: Gate, t: Token) {
    !g.estopped && (g.enabled ==> g.owned && t == g.token)
  }

  function Disown(g: Gate): Gate { g.(owned := false, token := 0) }

  function Stopped(g: Gate): Gate { Disown(g).(estopped := true) }

  function Own(g: Gate, t: Token): Gate {
    g.(owned := true, token := t, generation := g.generation + 1)
  }

  class ArbiterState {
    const enabled: bool
    var estopped: bool
    var owned: bool
    var token: Token
    var generation: nat
    var rejected: nat

    function View(): Gate
      reads this
    {
      Gate(enabled, estopped, owned, token, generation, rejected)
    }

    constructor (enabled: bool)
      ensures View() == Gate(enabled, false, false, 0, 0, 0)
    {
      this.enabled := enabled;
      estopped, owned, token, generation, rejected := false, false, 0, 0, 0;
    }

    /** The check every delegated call starts with. */
    method Admit(t: Token) returns (ok: bool)
      modifies this
      ensures ok == Admits(old(View()), t)
      ensures View() == old(View()).(rejected := old(rejected) + if ok then 0 else 1)
    {
      if estopped {
        ok := false;
      } else if !enabled {
        ok := true;
      } else {
        ok := owned && t == token;
      }
      if !ok {
        rejected := rejected + 1;
      }
    }

    /** First section of grant(): a live owner is dropped and must be halted. */
    method GrantDrop() returns (refused: bool, needHalt: bool)
      modifies this
      ensures refused == old(estopped)
      ensures needHalt == (!refused && old(owned))
      ensures View() == if needHalt then Disown(old(View())) else old(View())
    {
      refused, needHalt := estopped, false;
      if !refused && owned {
        owned, token, needHalt := false, 0, true;
      }
    }

    /** Second section of grant(): an e-stop that raced the halt window wins. */
    method GrantTake(t: Token) returns (granted: bool)
      modifies this
      ensures granted == !old(estopped)
      ensures View() == if granted then Own(old(View()), t) else old(View())
    {
      granted := !estopped;
      if granted {
        token, owned, generation := t, true, generation + 1;
      }
    }

    /** revoke()'s section. */
    method RevokeDrop() returns (needHalt: bool)
      modifies this
      ensures needHalt == old(owned)
      ensures View() == if needHalt then Disown(old(View())) else old(View())
    {
      needHalt := owned;
      if owned {
        owned, token := false, 0;
      }
    }

    /** estop()'s first store, made without m_. */
    method LatchStop()
      modifies this
      ensures View() == old(View()).(estopped := true)
    {
      estopped := true;
    }

    /** estop()'s bookkeeping under m_: latch again and drop the owner. */
    method StopBookkeeping()
      modifies this
      ensures View() == Stopped(old(View()))
    {
      estopped, owned, token := true, false, 0;
    }

    /** estop_clear(): exits to no owner, never straight back to owned. */
    method ClearStop()
      modifies this
      ensures View() == old(View()).(estopped := false)
    {
      estopped := false;
    }
  }
}
