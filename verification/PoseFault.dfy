/** The pose path of JointPositionMode: an IK solve refined in place from cycle to cycle, and
  * the fault it latches when it has missed for too long.
  */
module PoseFault {
  import opened Basics

  datatype Source = Entry | Joint | Pose

  /** What a solve makes of its seed. */
  datatype Solve = Solve(q: Vec, converged: bool)

  /** The RT thread's last source, its seed and the time its solves have missed for; and the
    * latch, which clear_ik_fault lowers from another thread. */
  datatype Ik = Ik(last: Source, seed: Vec, badFor: real, faulted: bool)

  /** One compute: its reference so far, its solve, and whether a clear landed since the last
    * one and before this one's store of the latch, or between that store and its load. */
  datatype Cycle = Cycle(stale: bool, source: Source, ref: Vec, dt: real, limit: real, solve: Vec -> Solve,
                         clearedBefore: bool, clearedAfter: bool)

  predicate Solves(c: Cycle) { !c.stale && c.source.Pose? }

  predicate Passes(c: Cycle) { !c.stale && !c.source.Pose? }

  function OnEnter(q: Vec): Ik { Ik(Entry, q, 0.0, false) }

  function Cleared(k: Ik, clear: bool): Ik { if clear then k.(faulted := false) else k }

  /** The re-anchoring on the way into the pose source. */
  function Anchored(k: Ik, ref: Vec): Ik {
    if k.last.Pose? then k else Ik(Pose, ref, 0.0, false)
  }

  function Missing(badFor: real, converged: bool, limit: real, dt: real): real {
    if converged then 0.0 else if limit > 0.0 then badFor + dt else badFor
  }

  predicate Trips(badFor: real, converged: bool, limit: real) { !converged && limit > 0.0 && badFor >= limit }

  /** A solve from an anchored seed, and its fault. */
  function Solved(k: Ik, s: Solve, limit: real, dt: real): Ik {
    var bad := Missing(k.badFor, s.converged, limit, dt);
    Ik(Pose, s.q, bad, k.faulted || Trips(bad, s.converged, limit))
  }

  function Computed(k: Ik, c: Cycle): Ik {
    if c.stale then k.(badFor := 0.0)
    else if !c.source.Pose? then k.(last := c.source)
    else var a := Anchored(k, c.ref); Solved(a, c.solve(a.seed), c.limit, c.dt)
  }

  function Step(k: Ik, c: Cycle): Ik { Cleared(Computed(Cleared(k, c.clearedBefore), c), c.clearedAfter) }

  /** The state after the first n cycles. */
  function Run(k: Ik, cs: seq<Cycle>, n: nat): Ik
    requires n <= |cs|
  {
    if n == 0 then k else Step(Run(k, cs, n - 1), cs[n - 1])
  }

  // ---- what a fault means ------------------------------------------------------------------

  /** The source the last cycle before n that was not stale went by. */
  function LastSource(cs: seq<Cycle>, n: nat): Source
    requires n <= |cs|
  {
    if n == 0 then Entry else if cs[n - 1].stale then LastSource(cs, n - 1) else cs[n - 1].source
  }

  /** Cycle i is the first of a stretch of pose cycles. */
  predicate Starts(cs: seq<Cycle>, i: nat)
    requires i < |cs|
  {
    Solves(cs[i]) && !LastSource(cs, i).Pose?
  }

  /** The seed cycle i solves from. */
  function SeedAt(q: Vec, cs: seq<Cycle>, i: nat): Vec
    requires i < |cs|
  {
    Anchored(Run(OnEnter(q), cs, i), cs[i].ref).seed
  }

  predicate Misses(q: Vec, cs: seq<Cycle>, i: nat)
    requires i < |cs|
  {
    Solves(cs[i]) && !cs[i].solve(SeedAt(q, cs, i)).converged
  }

  /** The time the cycles from a up to b count against their limits. */
  function Spent(cs: seq<Cycle>, a: nat, b: nat): real
    requires a <= b <= |cs|
  {
    if a == b then 0.0 else Spent(cs, a, b - 1) + if cs[b - 1].limit > 0.0 then cs[b - 1].dt else 0.0
  }

  /** From a up to n every cycle solved and missed, and none after the first is the first of
    * its stretch. */
  predicate MissesFrom(q: Vec, cs: seq<Cycle>, a: nat, n: nat)
    requires n <= |cs|
  {
    && (forall i :: a <= i < n ==> Misses(q, cs, i))
    && (forall i :: a < i < n ==> !Starts(cs, i))
  }

  /** At b the misses from a have lasted for its limit. */
  predicate TooLong(q: Vec, cs: seq<Cycle>, a: nat, b: nat)
    requires b < |cs|
  {
    a <= b && cs[b].limit > 0.0 && MissesFrom(q, cs, a, b + 1) && Spent(cs, a, b + 1) >= cs[b].limit
  }

  /** Between b's store of the latch and n: no clear, and no new stretch. */
  predicate Kept(cs: seq<Cycle>, b: nat, n: nat)
    requires b < n <= |cs|
  {
    && !cs[b].clearedAfter
    && forall i :: b < i < n ==> !cs[i].clearedBefore && !cs[i].clearedAfter && !Starts(cs, i)
  }

  ghost predicate Sustained(q: Vec, cs: seq<Cycle>, n: nat)
    requires n <= |cs|
  {
    exists a: nat, b: nat :: a <= b < n && TooLong(q, cs, a, b) && Kept(cs, b, n)
  }

  predicate TimeGoesOn(cs: seq<Cycle>) { forall i :: 0 <= i < |cs| ==> cs[i].dt >= 0.0 }

  // ---- proof ---------------------------------------------------------------------------------

  /** Where the misses that reach n began. */
  function Began(q: Vec, cs: seq<Cycle>, n: nat): (a: nat)
    requires n <= |cs|
    ensures a <= n && MissesFrom(q, cs, a, n)
    ensures a == 0 || a == n || Starts(cs, a) || !Misses(q, cs, a - 1)
    ensures a == n ==> n == 0 || !Misses(q, cs, n - 1)
  {
    if n == 0 || !Misses(q, cs, n - 1) then n
    else if Starts(cs, n - 1) then n - 1
    else Began(q, cs, n - 1)
  }

  lemma {:induction false} SpentGrows(cs: seq<Cycle>, a: nat, b: nat, n: nat)
    requires a <= b <= n <= |cs| && TimeGoesOn(cs)
    ensures Spent(cs, a, n) >= Spent(cs, b, n) >= 0.0
    decreases n
  {
    if b < n {
      SpentGrows(cs, a, b, n - 1);
    } else if a < n {
      SpentGrows(cs, a, n - 1, n - 1);
    }
  }

  /** While the source is the pose, the time counted is that of the misses that reach here. */
  lemma {:induction false} CountsMisses(q: Vec, cs: seq<Cycle>, n: nat)
    requires n <= |cs|
    ensures Run(OnEnter(q), cs, n).last == LastSource(cs, n)
    ensures LastSource(cs, n).Pose? ==> Run(OnEnter(q), cs, n).badFor == Spent(cs, Began(q, cs, n), n)
  {
    if n > 0 { CountsMisses(q, cs, n - 1); }
  }

  /** The latch goes up in cycle n iff its misses have lasted too long. */
  lemma TripsIff(q: Vec, cs: seq<Cycle>, n: nat)
    requires n < |cs| && TimeGoesOn(cs)
    ensures (exists a: nat :: a <= n && TooLong(q, cs, a, n)) <==>
            Misses(q, cs, n) && cs[n].limit > 0.0 && Run(OnEnter(q), cs, n + 1).badFor >= cs[n].limit
  {
    CountsMisses(q, cs, n + 1);
    var m := Began(q, cs, n + 1);
    forall a: nat | a <= n && TooLong(q, cs, a, n)
      ensures Misses(q, cs, n) && Spent(cs, m, n + 1) >= cs[n].limit
    {
      assert Misses(q, cs, n);
      assert m <= a;
      SpentGrows(cs, m, a, n + 1);
    }
    if Misses(q, cs, n) && cs[n].limit > 0.0 && Run(OnEnter(q), cs, n + 1).badFor >= cs[n].limit {
      assert TooLong(q, cs, m, n);
    }
  }

  /** The fault is latched exactly when some stretch of misses lasted for the limit, and
    * neither a clear nor a new stretch of pose cycles has come since. */
  lemma {:induction false} FaultIsSustained(q: Vec, cs: seq<Cycle>, n: nat)
    requires n <= |cs| && TimeGoesOn(cs)
    ensures Run(OnEnter(q), cs, n).faulted <==> Sustained(q, cs, n)
  {
    if n > 0 {
      FaultIsSustained(q, cs, n - 1);
      TripsIff(q, cs, n - 1);
      CountsMisses(q, cs, n - 1);
      SustainedStep(q, cs, n - 1);
    }
  }

  lemma SustainedStep(q: Vec, cs: seq<Cycle>, n: nat)
    requires n < |cs|
    ensures Sustained(q, cs, n + 1) <==>
            && !cs[n].clearedAfter
            && ((exists a: nat :: a <= n && TooLong(q, cs, a, n))
                || (Sustained(q, cs, n) && !cs[n].clearedBefore && !Starts(cs, n)))
  {
    if Sustained(q, cs, n + 1) {
      var a: nat, b: nat :| a <= b < n + 1 && TooLong(q, cs, a, b) && Kept(cs, b, n + 1);
      assert b < n ==> Kept(cs, b, n);
    }
    if !cs[n].clearedAfter && exists a: nat :: a <= n && TooLong(q, cs, a, n) {
      var a: nat :| a <= n && TooLong(q, cs, a, n);
      assert Kept(cs, n, n + 1);
    }
    if !cs[n].clearedAfter && Sustained(q, cs, n) && !cs[n].clearedBefore && !Starts(cs, n) {
      var a: nat, b: nat :| a <= b < n && TooLong(q, cs, a, b) && Kept(cs, b, n);
      assert Kept(cs, b, n + 1);
    }
  }

  // ---- what one stretch leaves to the next ---------------------------------------------------

  /** Cycle j is the last to solve before i, in the same stretch. */
  predicate SolvedBefore(cs: seq<Cycle>, j: nat, i: nat)
    requires i < |cs|
  {
    j < i && Solves(cs[j]) && forall k :: j < k < i ==> cs[k].stale
  }

  lemma {:induction false} StaleKeeps(q: Vec, cs: seq<Cycle>, j: nat, i: nat)
    requires j <= i <= |cs| && forall k :: j <= k < i ==> cs[k].stale
    ensures Run(OnEnter(q), cs, i).last == Run(OnEnter(q), cs, j).last
    ensures Run(OnEnter(q), cs, i).seed == Run(OnEnter(q), cs, j).seed
    ensures LastSource(cs, i) == LastSource(cs, j)
  {
    if j < i { StaleKeeps(q, cs, j, i - 1); }
  }

  lemma {:induction false} LastSolve(cs: seq<Cycle>, i: nat) returns (j: nat)
    requires i <= |cs| && LastSource(cs, i).Pose?
    ensures j < i && Solves(cs[j]) && forall k :: j < k < i ==> cs[k].stale
  {
    if cs[i - 1].stale { j := LastSolve(cs, i - 1); } else { j := i - 1; }
  }

  /** A stretch starts from the reference; after that each solve goes on from the last one. */
  lemma SeedPersists(q: Vec, cs: seq<Cycle>, i: nat)
    requires i < |cs| && Solves(cs[i])
    ensures Starts(cs, i) ==> SeedAt(q, cs, i) == cs[i].ref
    ensures !Starts(cs, i) ==>
              exists j: nat :: SolvedBefore(cs, j, i) && SeedAt(q, cs, i) == cs[j].solve(SeedAt(q, cs, j)).q
  {
    CountsMisses(q, cs, i);
    if !Starts(cs, i) {
      var j := LastSolve(cs, i);
      StaleKeeps(q, cs, j + 1, i);
      assert SolvedBefore(cs, j, i);
    }
  }

  lemma {:induction false} Idle(cs: seq<Cycle>, e: nat, n: nat)
    requires e <= n <= |cs| && LastSource(cs, e).Pose? && forall k :: e <= k < n ==> !Solves(cs[k])
    ensures LastSource(cs, n).Pose? <==> forall k :: e <= k < n ==> !Passes(cs[k])
  {
    if e < n { Idle(cs, e, n - 1); }
  }

  /** No clear lands from cycle e to cycle n. */
  predicate NoClear(cs: seq<Cycle>, e: nat, n: nat)
    requires n <= |cs|
  {
    forall k :: e <= k < n ==> !cs[k].clearedBefore && !cs[k].clearedAfter
  }

  lemma FaultPasses(k: Ik, c: Cycle)
    requires k.faulted && !c.clearedBefore && !c.clearedAfter && (Solves(c) ==> k.last.Pose?)
    ensures Step(k, c).faulted
  {
  }

  lemma {:induction false} FaultStays(q: Vec, cs: seq<Cycle>, e: nat, n: nat)
    requires e <= n <= |cs| && NoClear(cs, e, n) && Run(OnEnter(q), cs, e).faulted
    requires forall k :: e <= k < n ==> !Starts(cs, k)
    ensures Run(OnEnter(q), cs, n).faulted
  {
    if e < n {
      FaultStays(q, cs, e, n - 1);
      CountsMisses(q, cs, n - 1);
      assert !Starts(cs, n - 1);
      FaultPasses(Run(OnEnter(q), cs, n - 1), cs[n - 1]);
    }
  }

  /** One pose session has ended by e, faulted, and its clear has landed; cycle n is the first
    * of the next. The next session is as after an entry if a cycle between them went by
    * another source, and else the fault is still up. */
  lemma NextSessionIsCleanIff(q: Vec, cs: seq<Cycle>, e: nat, n: nat)
    requires e <= n < |cs| && Solves(cs[n]) && forall k :: e <= k < n ==> !Solves(cs[k])
    requires LastSource(cs, e).Pose? && Run(OnEnter(q), cs, e).faulted && NoClear(cs, e, n + 1)
    ensures (exists k :: e <= k < n && Passes(cs[k])) ==>
              Run(OnEnter(q), cs, n + 1) == Step(OnEnter(cs[n].ref), cs[n])
    ensures !Step(OnEnter(cs[n].ref), cs[n]).faulted ==>
              (Run(OnEnter(q), cs, n + 1).faulted <==> forall k :: e <= k < n ==> !Passes(cs[k]))
  {
    Idle(cs, e, n);
    CountsMisses(q, cs, n);
    if forall k :: e <= k < n ==> !Passes(cs[k]) {
      NoStart(cs, e, n);
      FaultStays(q, cs, e, n + 1);
    }
  }

  lemma NoStart(cs: seq<Cycle>, e: nat, n: nat)
    requires e <= n < |cs| && LastSource(cs, n).Pose? && forall k :: e <= k < n ==> !Solves(cs[k])
    ensures forall k :: e <= k < n + 1 ==> !Starts(cs, k)
  {
  }

  /** The clear of one session's end lands while its last cycle still computes; the next
    * session's first pose is there before another cycle has read the hold. It converges, and
    * is faulted. */
  lemma FaultOfTheSessionBefore(q: Vec) returns (cs: seq<Cycle>)
    ensures |cs| == 2 && cs[0].clearedBefore && NoClear(cs, 1, 2) && !cs[0].clearedAfter
    ensures Solves(cs[0]) && Solves(cs[1]) && !Misses(q, cs, 1) && cs[1].limit == cs[0].limit
    ensures Run(OnEnter(q), cs, 1).faulted && Run(OnEnter(q), cs, 2).faulted
    ensures !Step(OnEnter(cs[1].ref), cs[1]).faulted
  {
    var miss: Vec -> Solve := (v: Vec) => Solve(v, false);
    var hit: Vec -> Solve := (v: Vec) => Solve(v, true);
    cs := [Cycle(false, Pose, q, 0.1, 0.1, miss, true, false), Cycle(false, Pose, q, 0.1, 0.1, hit, false, false)];
    var k1 := Run(OnEnter(q), cs, 1);
    assert Run(OnEnter(q), cs, 0) == OnEnter(q);
    assert k1 == Ik(Pose, q, 0.1, true);
    assert Run(OnEnter(q), cs, 2) == Ik(Pose, q, 0.0, true);
  }
}
