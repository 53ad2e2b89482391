/** RtExecutor's count of lost exchanges. The loop keeps the exchange index of each of the
  * last max_window_misses misses in a ring; the reference is the plain count over the
  * whole history of exchanges.
  */
module MissRing {
  import opened Modular

  /** One entry an exchange: did it time out? */
  type History = seq<bool>

  /** Timeouts in a row at the end of the history. */
  function InARow(h: History): nat {
    if h == [] || !h[|h| - 1] then 0 else 1 + InARow(h[..|h| - 1])
  }

  /** Timeouts among the last `w` exchanges. */
  function Recent(h: History, w: nat): nat {
    if h == [] || w == 0 then 0
    else (if h[|h| - 1] then 1 else 0) + Recent(h[..|h| - 1], w - 1)
  }

  datatype Limits = Limits(row: nat, window: nat, span: nat)

  /** What the executor's constructor requires. */
  predicate ValidLimits(l: Limits) { l.row >= 1 && l.window >= 1 && l.span >= 1 }

  /** No prefix of the history is comms loss. */
  predicate Survives(l: Limits, h: History) {
    forall n :: 0 <= n <= |h| ==> InARow(h[..n]) < l.row && Recent(h[..n], l.span) < l.window
  }

  datatype Verdict = Fine | Missed | LostInARow | LostInWindow

  // ---- the misses by index ----------------------------------------------------

  function Indices(h: History): (r: seq<nat>)
    ensures forall k :: 0 <= k < |r| ==> r[k] < |h|
  {
    if h == [] then []
    else Indices(h[..|h| - 1]) + (if h[|h| - 1] then [|h| - 1] else [])
  }

  lemma IndicesPush(h: History, miss: bool)
    ensures Indices(h + [miss]) == Indices(h) + (if miss then [|h|] else [])
  {
    assert (h + [miss])[..|h|] == h;
  }

  /** At least `m` of the last `w` exchanges were lost iff the m-th last miss is that recent. */
  lemma {:induction false} RecentByIndex(h: History, w: nat, m: nat)
    requires m >= 1
    ensures Recent(h, w) >= m <==> |Indices(h)| >= m && |h| - Indices(h)[|Indices(h)| - m] <= w
  {
    if h != [] {
      var t := h[..|h| - 1];
      if w == 0 {
      } else if !h[|h| - 1] {
        assert Indices(h) == Indices(t) + [];
        RecentByIndex(t, w - 1, m);
      } else {
        assert Indices(h) == Indices(t) + [|h| - 1];
        if m > 1 { RecentByIndex(t, w - 1, m - 1); }
      }
    }
  }

  lemma SurvivesPush(l: Limits, h: History, miss: bool)
    requires Survives(l, h) && InARow(h + [miss]) < l.row && Recent(h + [miss], l.span) < l.window
    ensures Survives(l, h + [miss])
  {
    forall n | 0 <= n <= |h| + 1
      ensures InARow((h + [miss])[..n]) < l.row && Recent((h + [miss])[..n], l.span) < l.window
    {
      if n <= |h| {
        assert (h + [miss])[..n] == h[..n];
      } else {
        assert (h + [miss])[..n] == h + [miss];
      }
    }
  }

  lemma {:induction false} RecentShrinks(h: History, w: nat)
    ensures w > 0 ==> Recent(h, w - 1) <= Recent(h, w)
  {
    if h != [] && w > 1 { RecentShrinks(h[..|h| - 1], w - 1); }
  }

  /** A good exchange never makes comms loss. */
  lemma GoodSurvives(l: Limits, h: History)
    requires ValidLimits(l) && Survives(l, h)
    ensures Survives(l, h + [false])
  {
    assert (h + [false])[..|h|] == h;
    RecentShrinks(h, l.span);
    assert h[..|h|] == h;
    SurvivesPush(l, h, false);
  }

  class MissCounter {
    const limits: Limits
    const missAt: array<nat>
    var misses: nat
    var exchanges: nat
    var totalMisses: nat
    ghost var history: History

    /** Slot k mod M holds the index of the k-th miss, for the last M of them. */
    ghost predicate Ring()
      reads this, missAt
      requires missAt.Length > 0
    {
      forall k :: 0 <= k < totalMisses && totalMisses - missAt.Length <= k && k < |Indices(history)| ==>
        missAt[k % missAt.Length] == Indices(history)[k]
    }

    ghost predicate Valid()
      reads this, missAt
    {
      && ValidLimits(limits) && missAt.Length == limits.window
      && exchanges == |history| && totalMisses == |Indices(history)| && misses == InARow(history)
      && Ring() && Survives(limits, history)
    }

    constructor (l: Limits)
      requires ValidLimits(l)
      ensures Valid() && fresh(missAt) && limits == l && history == []
    {
      limits := l;
      missAt := new nat[l.window](_ => 0);
      misses, exchanges, totalMisses, history := 0, 0, 0, [];
    }

    /** exchange_ok's bookkeeping for one exchange. Comms loss exactly at the first miss
      * that is the row-th in a row or the window-th within the last span exchanges. */
    method Record(timedOut: bool) returns (v: Verdict)
      requires Valid()
      modifies this, missAt
      ensures history == old(history) + [timedOut]
      ensures v == if !timedOut then Fine
                   else if InARow(history) >= limits.row then LostInARow
                   else if Recent(history, limits.span) >= limits.window then LostInWindow
                   else Missed
      ensures v.Fine? || v.Missed? ==> Valid() && Survives(limits, history)
    {
      var n := exchanges;
      exchanges := exchanges + 1;
      ghost var before := history;
      history := history + [timedOut];
      IndicesPush(before, timedOut);
      assert history[..|before|] == before;
      if !timedOut {
        misses := 0;
        GoodSurvives(limits, before);
        return Fine;
      }
      misses := misses + 1;
      if misses >= limits.row {
        return LostInARow;
      }
      v := RecordMiss(n, before);
    }

    /** The ring half of Record. */
    method RecordMiss(n: nat, ghost before: History) returns (v: Verdict)
      requires ValidLimits(limits) && missAt.Length == limits.window
      requires history == before + [true] && n == |before| && exchanges == n + 1
      requires totalMisses == |Indices(before)| && Indices(history) == Indices(before) + [n]
      requires forall k :: 0 <= k < totalMisses && totalMisses - missAt.Length <= k ==>
                 missAt[k % missAt.Length] == Indices(before)[k]
      requires misses == InARow(history) < limits.row && Survives(limits, before)
      modifies this, missAt
      ensures history == old(history)
      ensures v == if Recent(history, limits.span) >= limits.window then LostInWindow else Missed
      ensures v.Missed? ==> Valid()
    {
      var m := missAt.Length;
      missAt[totalMisses % m] := n;
      totalMisses := totalMisses + 1;
      assert Ring() by {
        forall k | 0 <= k < totalMisses && totalMisses - m <= k
          ensures missAt[k % m] == Indices(history)[k]
        {
          if k < totalMisses - 1 { DistinctSlots(k, totalMisses - 1, m); }
        }
      }
      RecentByIndex(history, limits.span, m);
      if totalMisses >= m {
        SameSlot(totalMisses, m);
        assert missAt[totalMisses % m] == Indices(history)[totalMisses - m];
        if n - missAt[totalMisses % m] < limits.span {
          return LostInWindow;
        }
      }
      SurvivesPush(limits, before, true);
      return Missed;
    }
  }
}
