/** Runs of the position reference towards a fixed target on an arm that tracks: the
  * feedback of each cycle is the reference of the one before. A cycle is how far the rate
  * limit lets it go.
  */
module PositionRuns {
  import opened Basics
  import opened Circle
  import opened PositionReference

  type Travel = t: real | t >= 0.0

  /** The reference after these cycles. */
  function Reference(pi: real, j: Joint, leash: real, r: real, target: real, cycles: seq<Travel>): real
    requires pi > 0.0 && ValidJoint(j)
  {
    if cycles == [] then r
    else
      var before := Reference(pi, j, leash, r, target, cycles[..|cycles| - 1]);
      StepJoint(pi, j, leash, before, before, target, cycles[|cycles| - 1])
  }

  /** How far the cycles could have taken it. */
  function Budget(leash: real, cycles: seq<Travel>): real {
    if cycles == [] then 0.0
    else Budget(leash, cycles[..|cycles| - 1]) + Reach(leash, cycles[|cycles| - 1])
  }

  /** How far it went, step by step. */
  function Travelled(pi: real, j: Joint, leash: real, r: real, target: real, cycles: seq<Travel>): real
    requires pi > 0.0 && ValidJoint(j)
  {
    if cycles == [] then 0.0
    else
      var before := Reference(pi, j, leash, r, target, cycles[..|cycles| - 1]);
      Travelled(pi, j, leash, r, target, cycles[..|cycles| - 1])
      + Abs(Gap(pi, j, before, Reference(pi, j, leash, r, target, cycles)))
  }

  /** The way from r stays on the turn and reaches a goal inside the limits: always so but for
    * a continuous joint given software limits. */
  predicate WayIsClear(pi: real, j: Joint, r: real, target: real)
    requires pi > 0.0 && ValidJoint(j)
  {
    j.continuous && Bounded(j) ==> Inside(j, Goal(pi, j, target)) && OnCircle(pi, Goal(pi, j, target) - r)
  }

  lemma ClearOnLine(pi: real, j: Joint, leash: real, r: real, target: real, travel: Travel)
    requires pi > 0.0 && ValidJoint(j) && InRange(pi, j, r) && !j.continuous
    ensures var next := StepJoint(pi, j, leash, r, r, target, travel);
            && InRange(pi, j, next) && next == r + Course(pi, j, leash, r, target, travel)
            && Away(pi, j, next, target) == Max(0.0, Away(pi, j, r, target) - Reach(leash, travel))
  {
    TrackingStep(pi, j, leash, r, target, travel);
  }

  lemma ClearOnTurn(pi: real, j: Joint, leash: real, r: real, target: real, travel: Travel)
    requires pi > 0.0 && ValidJoint(j) && InRange(pi, j, r) && WayIsClear(pi, j, r, target) && j.continuous
    ensures var next := StepJoint(pi, j, leash, r, r, target, travel);
            && InRange(pi, j, next) && WayIsClear(pi, j, next, target)
            && next == Unguarded(pi, j, leash, r, r, target, travel)
            && next == Wrap(pi, r + Course(pi, j, leash, r, target, travel))
  {
    TrackingStep(pi, j, leash, r, target, travel);
    if Bounded(j) {
      ClearGap(pi, j, r, target);
      WrapId(pi, r + Course(pi, j, leash, r, target, travel));
    }
  }

  /** A clear way stays clear, and the guard never bites on it. */
  lemma ClearStep(pi: real, j: Joint, leash: real, r: real, target: real, travel: Travel)
    requires pi > 0.0 && ValidJoint(j) && InRange(pi, j, r) && WayIsClear(pi, j, r, target)
    ensures var next := StepJoint(pi, j, leash, r, r, target, travel);
            && InRange(pi, j, next) && WayIsClear(pi, j, next, target)
            && Away(pi, j, next, target) == Max(0.0, Away(pi, j, r, target) - Reach(leash, travel))
            && Abs(Gap(pi, j, r, next)) == Away(pi, j, r, target) - Away(pi, j, next, target)
  {
    if j.continuous {
      ClearOnTurn(pi, j, leash, r, target, travel);
      FreeShrinks(pi, j, leash, r, target, travel);
      var due := Course(pi, j, leash, r, target, travel);
      GapIsDue(pi, r, Wrap(pi, r + due), due);
      DueIsTheDifference(pi, j, leash, r, target, travel);
    } else {
      ClearOnLine(pi, j, leash, r, target, travel);
    }
  }

  /** On a clear way the short way to the target is the plain difference. */
  lemma ClearGap(pi: real, j: Joint, r: real, target: real)
    requires pi > 0.0 && ValidJoint(j) && j.continuous && OnCircle(pi, Goal(pi, j, target) - r)
    ensures Gap(pi, j, r, Limited(j, target)) == Goal(pi, j, target) - r
  {
    var tgt := Limited(j, target);
    SameSelf(pi, tgt);
    SameSub(pi, Wrap(pi, tgt), tgt, r, r);
    WrapId(pi, Wrap(pi, tgt) - r);
  }

  /** The whole run: what is left is the initial short way less what the cycles allowed, and
    * everything travelled went into it. */
  lemma {:induction false} WayShrinks(pi: real, j: Joint, leash: real, r: real, target: real, cycles: seq<Travel>)
    requires pi > 0.0 && ValidJoint(j) && InRange(pi, j, r) && WayIsClear(pi, j, r, target)
    ensures var last := Reference(pi, j, leash, r, target, cycles);
            && InRange(pi, j, last) && WayIsClear(pi, j, last, target) && Budget(leash, cycles) >= 0.0
            && Away(pi, j, last, target) == Max(0.0, Away(pi, j, r, target) - Budget(leash, cycles))
            && Travelled(pi, j, leash, r, target, cycles) == Away(pi, j, r, target) - Away(pi, j, last, target)
  {
    if cycles != [] {
      var n := |cycles| - 1;
      WayShrinks(pi, j, leash, r, target, cycles[..n]);
      ClearStep(pi, j, leash, Reference(pi, j, leash, r, target, cycles[..n]), target, cycles[n]);
    }
  }

  /** Once the cycles allow it, and not before, the reference has landed exactly, having
    * travelled exactly the initial short way; and it stays. */
  lemma LandsExactly(pi: real, j: Joint, leash: real, r: real, target: real, cycles: seq<Travel>)
    requires pi > 0.0 && ValidJoint(j) && InRange(pi, j, r) && WayIsClear(pi, j, r, target)
    ensures Budget(leash, cycles) >= Away(pi, j, r, target)
            <==> Reference(pi, j, leash, r, target, cycles) == Goal(pi, j, target)
    ensures Budget(leash, cycles) >= Away(pi, j, r, target) ==>
              Travelled(pi, j, leash, r, target, cycles) == Away(pi, j, r, target)
  {
    WayShrinks(pi, j, leash, r, target, cycles);
    LandedIsThere(pi, j, Reference(pi, j, leash, r, target, cycles), target);
  }

  /** No way left means the goal itself. */
  lemma LandedIsThere(pi: real, j: Joint, r: real, target: real)
    requires pi > 0.0 && ValidJoint(j) && InRange(pi, j, r)
    ensures Away(pi, j, r, target) == 0.0 <==> r == Goal(pi, j, target)
  {
    if j.continuous {
      var tgt := Limited(j, target);
      WrapId(pi, 0.0);
      WrapId(pi, r);
      if Same(pi, tgt - r, 0.0) { SameAdd(pi, tgt - r, 0.0, r, r); }
      if Same(pi, tgt, r) { SameSub(pi, tgt, r, r, r); }
    }
  }

  // ---- software limits on a continuous joint -------------------------------------------

  /** A continuous joint with software limits, a goal inside them, and a way to it that leaves
    * the turn. */
  predicate WayCrosses(pi: real, j: Joint, r: real, target: real)
    requires pi > 0.0 && ValidJoint(j)
  {
    && j.continuous && Bounded(j) && InRange(pi, j, r)
    && Inside(j, Goal(pi, j, target)) && !OnCircle(pi, Goal(pi, j, target) - r)
  }

  /** The short way goes up, or down, exactly when the goal is on the other side. */
  predicate GoesUp(pi: real, j: Joint, r: real, target: real)
    requires pi > 0.0 && ValidJoint(j)
  {
    Goal(pi, j, target) < r
  }

  /** Where the guard holds a reference that was allowed `budget` away from its goal. */
  function Held(pi: real, j: Joint, r: real, target: real, budget: real): real
    requires pi > 0.0 && ValidJoint(j) && Bounded(j)
  {
    if GoesUp(pi, j, r, target) then Min(j.upper.value, r + budget) else Max(j.lower.value, r - budget)
  }

  /** A cycle of reach m carries a reference held there past the end of the turn. */
  predicate CarriesOver(pi: real, j: Joint, r: real, target: real, budget: real, m: real)
    requires pi > 0.0 && ValidJoint(j) && Bounded(j)
  {
    if GoesUp(pi, j, r, target) then Held(pi, j, r, target, budget) + m > pi
        else Held(pi, j, r, target, budget) - m <= -pi
  }

  /** Where it comes down: not past the goal, and over whatever the limits leave out. */
  function ComesDown(pi: real, j: Joint, r: real, target: real, budget: real, m: real): real
    requires pi > 0.0 && ValidJoint(j) && Bounded(j)
  {
    var from, goal := Held(pi, j, r, target, budget), Goal(pi, j, target);
    if GoesUp(pi, j, r, target) then Max(j.lower.value, Min(goal, from + m - 2.0 * pi))
    else Min(j.upper.value, Max(goal, from - m + 2.0 * pi))
  }

  /** One cycle on a way that crosses: held on this side, or carried over to a clear way. */
  lemma CrossingStep(pi: real, j: Joint, leash: real, r: real, target: real, travel: Travel)
    requires pi > 0.0 && ValidJoint(j) && WayCrosses(pi, j, r, target)
    ensures var next := StepJoint(pi, j, leash, r, r, target, travel);
            if CarriesOver(pi, j, r, target, 0.0, Reach(leash, travel))
            then next == ComesDown(pi, j, r, target, 0.0, Reach(leash, travel))
                 && InRange(pi, j, next) && WayIsClear(pi, j, next, target)
            else next == Held(pi, j, r, target, Reach(leash, travel))
                 && WayCrosses(pi, j, next, target) && GoesUp(pi, j, next, target) == GoesUp(pi, j, r, target)
  {
    TrackingStep(pi, j, leash, r, target, travel);
    CrossingGap(pi, j, r, target);
    WrapStep(pi, r, Course(pi, j, leash, r, target, travel));
  }

  /** The short way of a crossing: a whole turn from the plain difference. */
  lemma CrossingGap(pi: real, j: Joint, r: real, target: real)
    requires pi > 0.0 && ValidJoint(j) && WayCrosses(pi, j, r, target)
    ensures Gap(pi, j, r, Limited(j, target))
            == Goal(pi, j, target) - r + (if GoesUp(pi, j, r, target) then 2.0 * pi else -2.0 * pi)
  {
    var tgt := Limited(j, target);
    SameSelf(pi, tgt);
    SameSub(pi, Wrap(pi, tgt), tgt, r, r);
    WrapStep(pi, 0.0, Wrap(pi, tgt) - r);
  }

  /** The k-th cycle carries the reference over. */
  predicate CarriesAt(pi: real, j: Joint, leash: real, r: real, target: real, cycles: seq<Travel>, k: nat)
    requires pi > 0.0 && ValidJoint(j) && Bounded(j) && k < |cycles|
  {
    CarriesOver(pi, j, r, target, Budget(leash, cycles[..k]), Reach(leash, cycles[k]))
  }

  /** The first cycle that does. */
  predicate FirstOver(pi: real, j: Joint, leash: real, r: real, target: real, cycles: seq<Travel>, k: nat)
    requires pi > 0.0 && ValidJoint(j) && Bounded(j) && k < |cycles|
  {
    && CarriesAt(pi, j, leash, r, target, cycles, k)
    && forall i: nat :: i < k ==> !CarriesAt(pi, j, leash, r, target, cycles, i)
  }

  lemma {:induction false} BudgetGrows(leash: real, cycles: seq<Travel>)
    ensures Budget(leash, cycles) >= 0.0
  {
    if cycles != [] { BudgetGrows(leash, cycles[..|cycles| - 1]); }
  }

  /** One more cycle that does not carry over. */
  lemma HeldOn(pi: real, j: Joint, leash: real, r: real, target: real, before: real, budget: real, travel: Travel)
    requires pi > 0.0 && ValidJoint(j) && WayCrosses(pi, j, r, target) && budget >= 0.0
    requires before == Held(pi, j, r, target, budget) && WayCrosses(pi, j, before, target)
    requires GoesUp(pi, j, before, target) == GoesUp(pi, j, r, target)
    requires !CarriesOver(pi, j, r, target, budget, Reach(leash, travel))
    ensures var next := StepJoint(pi, j, leash, before, before, target, travel);
            && next == Held(pi, j, r, target, budget + Reach(leash, travel))
            && WayCrosses(pi, j, next, target) && GoesUp(pi, j, next, target) == GoesUp(pi, j, r, target)
  {
    CrossingStep(pi, j, leash, before, target, travel);
  }

  /** Until some cycle carries it over, the reference stands where the budget and the limit
    * allow, and has not landed. */
  lemma {:induction false} NeverLands(pi: real, j: Joint, leash: real, r: real, target: real, cycles: seq<Travel>)
    requires pi > 0.0 && ValidJoint(j) && WayCrosses(pi, j, r, target)
    requires forall k: nat :: k < |cycles| ==> !CarriesAt(pi, j, leash, r, target, cycles, k)
    ensures var last := Reference(pi, j, leash, r, target, cycles);
            && last == Held(pi, j, r, target, Budget(leash, cycles)) && last != Goal(pi, j, target)
            && WayCrosses(pi, j, last, target) && GoesUp(pi, j, last, target) == GoesUp(pi, j, r, target)
  {
    if cycles != [] {
      var n := |cycles| - 1;
      forall k: nat | k < n ensures !CarriesAt(pi, j, leash, r, target, cycles[..n], k) {
        assert cycles[..n][..k] == cycles[..k];
        assert !CarriesAt(pi, j, leash, r, target, cycles, k);
      }
      NeverLands(pi, j, leash, r, target, cycles[..n]);
      BudgetGrows(leash, cycles[..n]);
      assert !CarriesAt(pi, j, leash, r, target, cycles, n);
      HeldOn(pi, j, leash, r, target, Reference(pi, j, leash, r, target, cycles[..n]), Budget(leash, cycles[..n]),
          cycles[n]);
    }
  }

  /** The first cycle to carry it over leaves it on a clear way, at a place known in advance. */
  lemma CarriedOver(pi: real, j: Joint, leash: real, r: real, target: real, cycles: seq<Travel>, k: nat)
    requires pi > 0.0 && ValidJoint(j) && WayCrosses(pi, j, r, target)
    requires k < |cycles| && FirstOver(pi, j, leash, r, target, cycles, k)
    ensures var there := Reference(pi, j, leash, r, target, cycles[..k + 1]);
            && there == ComesDown(pi, j, r, target, Budget(leash, cycles[..k]), Reach(leash, cycles[k]))
            && InRange(pi, j, there) && WayIsClear(pi, j, there, target)
  {
    forall i: nat | i < k ensures !CarriesAt(pi, j, leash, r, target, cycles[..k], i) {
      assert cycles[..k][..i] == cycles[..i];
      assert !CarriesAt(pi, j, leash, r, target, cycles, i);
    }
    NeverLands(pi, j, leash, r, target, cycles[..k]);
    assert cycles[..k + 1][..k] == cycles[..k];
    CrossingStep(pi, j, leash, Reference(pi, j, leash, r, target, cycles[..k]), target, cycles[k]);
  }

  /** A run is its first part and then the rest. */
  lemma {:induction false} RunSplits(pi: real, j: Joint, leash: real, r: real, target: real, cycles: seq<Travel>,
      k: nat)
    requires pi > 0.0 && ValidJoint(j) && k <= |cycles|
    ensures Reference(pi, j, leash, r, target, cycles)
            == Reference(pi, j, leash, Reference(pi, j, leash, r, target, cycles[..k]), target, cycles[k..])
  {
    if k == |cycles| {
      assert cycles[..k] == cycles && cycles[k..] == [];
    } else {
      var n := |cycles| - 1;
      RunSplits(pi, j, leash, r, target, cycles[..n], k);
      assert cycles[..n][..k] == cycles[..k] && cycles[..n][k..] == cycles[k..][..n - k]
          && cycles[k..][n - k] == cycles[n];
    }
  }

  /** Some cycle is the first, if any carries over. */
  lemma FindFirst(pi: real, j: Joint, leash: real, r: real, target: real, cycles: seq<Travel>, n: nat) returns (k: nat)
    requires pi > 0.0 && ValidJoint(j) && Bounded(j) && n <= |cycles|
    ensures k <= n && (k < n ==> FirstOver(pi, j, leash, r, target, cycles, k))
    ensures k == n ==> forall i: nat :: i < n ==> !CarriesAt(pi, j, leash, r, target, cycles, i)
  {
    k := 0;
    while k < n && !CarriesAt(pi, j, leash, r, target, cycles, k)
      invariant k <= n && forall i: nat :: i < k ==> !CarriesAt(pi, j, leash, r, target, cycles, i)
    {
      k := k + 1;
    }
  }

  /** What a run must offer to land, read off the limits and the cycles: a goal inside the
    * limits; on a way within the turn, enough budget; on a way across its end, a cycle that
    * carries over, and then enough budget for the rest. */
  predicate CanLand(pi: real, j: Joint, leash: real, r: real, target: real, cycles: seq<Travel>)
    requires pi > 0.0 && ValidJoint(j) && Bounded(j)
  {
    && Inside(j, Goal(pi, j, target))
    && if OnCircle(pi, Goal(pi, j, target) - r) then Budget(leash, cycles) >= Away(pi, j, r, target)
       else exists k: nat :: k < |cycles| &&
              FirstOver(pi, j, leash, r, target, cycles, k) && RestSuffices(pi, j, leash, r, target, cycles, k)
  }

  predicate RestSuffices(pi: real, j: Joint, leash: real, r: real, target: real, cycles: seq<Travel>, k: nat)
    requires pi > 0.0 && ValidJoint(j) && Bounded(j) && k < |cycles|
  {
    var there := ComesDown(pi, j, r, target, Budget(leash, cycles[..k]), Reach(leash, cycles[k]));
    Budget(leash, cycles[k + 1..]) >= Abs(Goal(pi, j, target) - there)
  }

  /** A continuous joint with software limits, any limits and any cycles: the reference has
    * landed if and only if the run could. */
  lemma LandsIff(pi: real, j: Joint, leash: real, r: real, target: real, cycles: seq<Travel>)
    requires pi > 0.0 && ValidJoint(j) && j.continuous && Bounded(j) && InRange(pi, j, r)
    ensures Reference(pi, j, leash, r, target, cycles) == Goal(pi, j, target)
            <==> CanLand(pi, j, leash, r, target, cycles)
  {
    if !Inside(j, Goal(pi, j, target)) {
      StaysInside(pi, j, leash, r, target, cycles);
    } else if OnCircle(pi, Goal(pi, j, target) - r) {
      LandsExactly(pi, j, leash, r, target, cycles);
    } else {
      var k := FindFirst(pi, j, leash, r, target, cycles, |cycles|);
      if k == |cycles| {
        NeverLands(pi, j, leash, r, target, cycles);
      } else {
        LandsAfter(pi, j, leash, r, target, cycles, k);
        forall i: nat | i < |cycles| && FirstOver(pi, j, leash, r, target, cycles, i) ensures i == k {
          assert CarriesAt(pi, j, leash, r, target, cycles, i) && CarriesAt(pi, j, leash, r, target, cycles, k);
        }
      }
    }
  }

  lemma StaysInside(pi: real, j: Joint, leash: real, r: real, target: real, cycles: seq<Travel>)
    requires pi > 0.0 && ValidJoint(j) && Inside(j, r)
    ensures Inside(j, Reference(pi, j, leash, r, target, cycles))
  {
  }

  lemma LandsAfter(pi: real, j: Joint, leash: real, r: real, target: real, cycles: seq<Travel>, k: nat)
    requires pi > 0.0 && ValidJoint(j) && WayCrosses(pi, j, r, target)
    requires k < |cycles| && FirstOver(pi, j, leash, r, target, cycles, k)
    ensures Reference(pi, j, leash, r, target, cycles) == Goal(pi, j, target)
            <==> RestSuffices(pi, j, leash, r, target, cycles, k)
  {
    CarriedOver(pi, j, leash, r, target, cycles, k);
    var there := Reference(pi, j, leash, r, target, cycles[..k + 1]);
    RunSplits(pi, j, leash, r, target, cycles, k + 1);
    LandsExactly(pi, j, leash, there, target, cycles[k + 1..]);
    ClearGap(pi, j, there, target);
  }

  /** The same travel every cycle. */
  function Steady(travel: Travel, n: nat): seq<Travel> { seq(n, _ => travel) }

  lemma {:induction false} SteadyBudget(leash: real, travel: Travel, n: nat)
    ensures Budget(leash, Steady(travel, n)) == n as real * Reach(leash, travel)
  {
    if n > 0 {
      SteadyBudget(leash, travel, n - 1);
      assert Steady(travel, n)[..n - 1] == Steady(travel, n - 1);
      Another(n - 1, Reach(leash, travel));
    }
  }

  lemma Another(n: nat, m: real)
    ensures (n + 1) as real * m == n as real * m + m
  {
  }

  /** Enough cycles exceed any distance. */
  lemma EnoughCycles(leash: real, travel: Travel, d: real) returns (a: nat)
    requires Reach(leash, travel) > 0.0
    ensures forall n: nat :: n >= a ==> Budget(leash, Steady(travel, n)) >= d
  {
    var m := Reach(leash, travel);
    a := if d <= 0.0 then 0 else (d / m).Floor + 1;
    forall n: nat | n >= a ensures Budget(leash, Steady(travel, n)) >= d {
      SteadyBudget(leash, travel, n);
      if d > 0.0 { Above(n as real, m, d / m, d); }
    }
  }

  lemma Above(n: real, m: real, x: real, d: real)
    requires m > 0.0 && n > x && x * m == d
    ensures n * m >= d
  {
    Positive(n - x, m);
  }

  /** One cycle at most m carries a reference from the limit it is held at past the turn's end. */
  predicate LimitIsCleared(pi: real, j: Joint, r: real, target: real, m: real)
    requires pi > 0.0 && ValidJoint(j) && Bounded(j)
  {
    if GoesUp(pi, j, r, target) then j.upper.value + m > pi else j.lower.value - m <= -pi
  }

  /** At a steady rate, the reference lands some day if and only if its goal is inside the
    * limits and either the way stays on the turn or one cycle clears the limit. */
  lemma LandsSomeDayIff(pi: real, j: Joint, leash: real, r: real, target: real, travel: Travel)
    requires pi > 0.0 && ValidJoint(j) && j.continuous && Bounded(j) && InRange(pi, j, r) && Reach(leash, travel) > 0.0
    ensures (exists n: nat :: Reference(pi, j, leash, r, target, Steady(travel, n)) == Goal(pi, j, target))
            <==> && Inside(j, Goal(pi, j, target))
                 && (OnCircle(pi, Goal(pi, j, target) - r) || LimitIsCleared(pi, j, r, target, Reach(leash, travel)))
  {
    forall n: nat | Reference(pi, j, leash, r, target, Steady(travel, n)) == Goal(pi, j, target)
      ensures Inside(j, Goal(pi, j, target))
      ensures OnCircle(pi, Goal(pi, j, target) - r) || LimitIsCleared(pi, j, r, target, Reach(leash, travel))
    {
      LandedClearedIt(pi, j, leash, r, target, travel, n);
    }
    if && Inside(j, Goal(pi, j, target))
       && (OnCircle(pi, Goal(pi, j, target) - r) || LimitIsCleared(pi, j, r, target, Reach(leash, travel))) {
      var n := LandingDay(pi, j, leash, r, target, travel);
    }
  }

  lemma LandedClearedIt(pi: real, j: Joint, leash: real, r: real, target: real, travel: Travel, n: nat)
    requires pi > 0.0 && ValidJoint(j) && j.continuous && Bounded(j) && InRange(pi, j, r)
    requires Reference(pi, j, leash, r, target, Steady(travel, n)) == Goal(pi, j, target)
    ensures Inside(j, Goal(pi, j, target))
    ensures OnCircle(pi, Goal(pi, j, target) - r) || LimitIsCleared(pi, j, r, target, Reach(leash, travel))
  {
    var cycles := Steady(travel, n);
    LandsIff(pi, j, leash, r, target, cycles);
    if !OnCircle(pi, Goal(pi, j, target) - r) {
      var k: nat :| k < |cycles| && FirstOver(pi, j, leash, r, target, cycles, k);
      assert CarriesAt(pi, j, leash, r, target, cycles, k) && cycles[k] == travel;
    }
  }

  lemma LandingDay(pi: real, j: Joint, leash: real, r: real, target: real, travel: Travel) returns (n: nat)
    requires pi > 0.0 && ValidJoint(j) && j.continuous && Bounded(j) && InRange(pi, j, r) && Reach(leash, travel) > 0.0
    requires Inside(j, Goal(pi, j, target))
    requires OnCircle(pi, Goal(pi, j, target) - r) || LimitIsCleared(pi, j, r, target, Reach(leash, travel))
    ensures Reference(pi, j, leash, r, target, Steady(travel, n)) == Goal(pi, j, target)
  {
    if OnCircle(pi, Goal(pi, j, target) - r) {
      n := EnoughCycles(leash, travel, Away(pi, j, r, target));
      LandsExactly(pi, j, leash, r, target, Steady(travel, n));
    } else {
      var a := EnoughCycles(leash, travel, j.upper.value - j.lower.value);
      n := a + 1 + a;
      var k := CarriedBy(pi, j, leash, r, target, travel, a, n);
      RestIsEnough(pi, j, leash, r, target, travel, a, n, k);
      LandsAfter(pi, j, leash, r, target, Steady(travel, n), k);
    }
  }

  /** Cycles enough for the whole range bring the reference to its limit, and the next one over. */
  lemma CarriedBy(pi: real, j: Joint, leash: real, r: real, target: real, travel: Travel, a: nat, n: nat)
      returns (k: nat)
    requires pi > 0.0 && ValidJoint(j) && WayCrosses(pi, j, r, target) && a < n
    requires LimitIsCleared(pi, j, r, target, Reach(leash, travel))
    requires Budget(leash, Steady(travel, a)) >= j.upper.value - j.lower.value
    ensures k <= a && FirstOver(pi, j, leash, r, target, Steady(travel, n), k)
  {
    var cycles := Steady(travel, n);
    assert cycles[..a] == Steady(travel, a);
    assert CarriesAt(pi, j, leash, r, target, cycles, a);
    k := FindFirst(pi, j, leash, r, target, cycles, a + 1);
  }

  lemma RestIsEnough(pi: real, j: Joint, leash: real, r: real, target: real, travel: Travel, a: nat, n: nat, k: nat)
    requires pi > 0.0 && ValidJoint(j) && WayCrosses(pi, j, r, target) && k <= a && n == a + 1 + a
    requires FirstOver(pi, j, leash, r, target, Steady(travel, n), k)
    requires forall b: nat :: b >= a ==> Budget(leash, Steady(travel, b)) >= j.upper.value - j.lower.value
    ensures RestSuffices(pi, j, leash, r, target, Steady(travel, n), k)
  {
    var cycles := Steady(travel, n);
    CarriedOver(pi, j, leash, r, target, cycles, k);
    assert cycles[k + 1..] == Steady(travel, n - k - 1);
  }

  /** Limits +-3 on a continuous joint, from 2.9 to -2.9: the short way is under 0.6 and the
    * reference never gets there, however long it runs. */
  lemma StuckAtTheLimit(pi: real, cycles: seq<Travel>)
    requires 3.14 < pi < 3.15 && forall k :: 0 <= k < |cycles| ==> cycles[k] <= 0.1
    ensures var j := Joint(true, Some(-3.0), Some(3.0), 0.5);
            && Away(pi, j, 2.9, -2.9) < 0.6
            && 2.9 <= Reference(pi, j, 0.35, 2.9, -2.9, cycles) <= 3.0
  {
    var j := Joint(true, Some(-3.0), Some(3.0), 0.5);
    WrapStep(pi, 0.0, -5.8);
    WrapId(pi, -2.9);
    forall k: nat | k < |cycles| ensures !CarriesAt(pi, j, 0.35, 2.9, -2.9, cycles, k) {
      assert cycles[k] <= 0.1;
    }
    NeverLands(pi, j, 0.35, 2.9, -2.9, cycles);
    BudgetGrows(0.35, cycles);
  }

  // ---- any feedback -----------------------------------------------------------------

  /** How far from the measurement the leash puts the reference. */
  function LeashedLead(pi: real, j: Joint, leash: real, r: real, q: real, target: real, travel: Travel): (c: real)
    requires pi > 0.0 && ValidJoint(j) && leash > 0.0
    ensures -leash <= c <= leash && (j.continuous ==> -pi <= c <= pi)
  {
    var t: real := travel;
    Clamp(Gap(pi, j, q, r + Clamp(Gap(pi, j, r, Limited(j, target)), -t, t)), -leash, leash)
  }

  /** A place is within the leash of the measurement, the short way. */
  predicate Near(pi: real, j: Joint, leash: real, q: real, x: real)
    requires pi > 0.0
  {
    Abs(Gap(pi, j, q, x)) <= leash
  }

  /** The limit that the guard would hold x at, if any, is near the measurement. */
  predicate LimitIsNear(pi: real, j: Joint, leash: real, q: real, x: real)
    requires pi > 0.0 && ValidJoint(j)
  {
    Bounded(j) ==>
      && (x < j.lower.value ==> Near(pi, j, leash, q, j.lower.value))
      && (x > j.upper.value ==> Near(pi, j, leash, q, j.upper.value))
  }

  /** Before the guard, whatever the arm does, the reference leads it by exactly the clamped
    * lead, and so by no more than the leash. */
  lemma LeashHolds(pi: real, j: Joint, leash: real, r: real, q: real, target: real, travel: Travel)
    requires pi > 0.0 && ValidJoint(j) && leash > 0.0
    ensures var free := Unguarded(pi, j, leash, r, q, target, travel);
            && free == Represented(pi, j, q + LeashedLead(pi, j, leash, r, q, target, travel))
            && Abs(Gap(pi, j, q, free)) == Abs(LeashedLead(pi, j, leash, r, q, target, travel)) <= leash
  {
    if j.continuous { LeadIs(pi, q, LeashedLead(pi, j, leash, r, q, target, travel)); }
  }

  lemma LeadIs(pi: real, q: real, lead: real)
    requires pi > 0.0 && -pi <= lead <= pi
    ensures Abs(Wrap(pi, Wrap(pi, q + lead) - q)) == Abs(lead)
  {
    SameSelf(pi, q + lead);
    SameSub(pi, Wrap(pi, q + lead), q + lead, q, q);
    assert (q + lead) - q == lead;
    WrapStep(pi, 0.0, lead);
  }

  /** Where the leash holds after the guard too. Any feedback the transport can report: exactly
    * when the reference stays inside the limits or is held at one near the arm. */
  lemma LeashHoldsIff(pi: real, j: Joint, leash: real, r: real, q: real, target: real, travel: Travel)
    requires pi > 0.0 && ValidJoint(j) && leash > 0.0
    ensures Near(pi, j, leash, q, StepJoint(pi, j, leash, r, q, target, travel))
            <==> LimitIsNear(pi, j, leash, q,
                             Represented(pi, j, q + LeashedLead(pi, j, leash, r, q, target, travel)))
  {
    LeashHolds(pi, j, leash, r, q, target, travel);
  }

  /** From an arm in range, x past it by at most the leash: past the end of the turn, and there
    * short of the limits, whose near end is out of the leash's reach both ways. */
  predicate ThrownBack(pi: real, j: Joint, leash: real, q: real, x: real) {
    && j.continuous && Bounded(j)
    && ((x > pi && x - 2.0 * pi < j.lower.value
         && q - j.lower.value > leash && j.lower.value + 2.0 * pi - q > leash)
        || (x <= -pi && x + 2.0 * pi > j.upper.value
            && j.upper.value - q > leash && q + 2.0 * pi - j.upper.value > leash))
  }

  /** An arm in range: the command is within the leash of it, the short way, unless the guard
    * throws the leashed reference back to the far limit; and then it is not. In the same way
    * the guard brings the reference closer to the arm, or leaves it as close, unless it throws
    * it back further than the lead. */
  lemma LeashHoldsInRangeIff(pi: real, j: Joint, leash: real, r: real, q: real, target: real, travel: Travel)
    requires pi > 0.0 && ValidJoint(j) && leash > 0.0 && InRange(pi, j, q)
    ensures Near(pi, j, leash, q, StepJoint(pi, j, leash, r, q, target, travel))
            <==> !ThrownBack(pi, j, leash, q, q + LeashedLead(pi, j, leash, r, q, target, travel))
    ensures var c := LeashedLead(pi, j, leash, r, q, target, travel);
            Near(pi, j, Abs(c), q, StepJoint(pi, j, leash, r, q, target, travel))
            <==> !ThrownBack(pi, j, Abs(c), q, q + c)
  {
    LeashHolds(pi, j, leash, r, q, target, travel);
    if j.continuous && Bounded(j) {
      var c := LeashedLead(pi, j, leash, r, q, target, travel);
      GuardedLead(pi, j, leash, q, c);
      GuardedLead(pi, j, Abs(c), q, c);
    }
  }

  lemma GuardedLead(pi: real, j: Joint, leash: real, q: real, c: real)
    requires pi > 0.0 && ValidJoint(j) && InRange(pi, j, q) && j.continuous && Bounded(j)
    requires -leash <= c <= leash && -pi <= c <= pi
    ensures Near(pi, j, leash, q, Limited(j, Wrap(pi, q + c))) <==> !ThrownBack(pi, j, leash, q, q + c)
  {
    WrapStep(pi, q, c);
    WrapStep(pi, 0.0, Limited(j, Wrap(pi, q + c)) - q);
    LeadIs(pi, q, c);
  }

  /** Limits [2, 4], arm and reference at 3.1, target 3.5: the leash lets the reference lead by
    * 0.3, and the command is 1.1 the other way, over three leashes off. */
  lemma PastTheLeash(pi: real)
    requires 3.14 < pi < 3.15
    ensures var j := Joint(true, Some(2.0), Some(4.0), 0.5);
            && InRange(pi, j, 3.1) && LeashedLead(pi, j, 0.35, 3.1, 3.1, 3.5, 0.3) == 0.3
            && StepJoint(pi, j, 0.35, 3.1, 3.1, 3.5, 0.3) == 2.0
            && Gap(pi, j, 3.1, 2.0) == -1.1 && !Near(pi, j, 0.35, 3.1, 2.0)
  {
    var j := Joint(true, Some(2.0), Some(4.0), 0.5);
    Leads(pi, j, 3.1, 3.5, 0.4);
    WrapStep(pi, 3.1, 0.3);
    WrapStep(pi, 0.0, -1.1);
  }

  /** Limits +-3, inside the turn, arm and reference at 2.9, target -2.9: the same lead of 0.3,
    * and the command is -3, past the leash the short way. */
  lemma PastTheLeashAcross(pi: real)
    requires 3.14 < pi < 3.15
    ensures var j := Joint(true, Some(-3.0), Some(3.0), 0.5);
            && InRange(pi, j, 2.9) && LeashedLead(pi, j, 0.35, 2.9, 2.9, -2.9, 0.3) == 0.3
            && StepJoint(pi, j, 0.35, 2.9, 2.9, -2.9, 0.3) == -3.0
            && Gap(pi, j, 2.9, -3.0) == 2.0 * pi - 5.9 && !Near(pi, j, 0.35, 2.9, -3.0)
  {
    var j := Joint(true, Some(-3.0), Some(3.0), 0.5);
    WrapStep(pi, 0.0, -5.8);
    Leads(pi, j, 2.9, -2.9, 2.0 * pi - 5.8);
    WrapStep(pi, 2.9, 0.3);
    WrapStep(pi, 0.0, -5.9);
  }

  lemma Leads(pi: real, j: Joint, r: real, target: real, err: real)
    requires 3.14 < pi < 3.15 && ValidJoint(j) && j.continuous && 0.3 <= err <= pi
    requires Wrap(pi, Limited(j, target) - r) == err || Limited(j, target) - r == err
    ensures LeashedLead(pi, j, 0.35, r, r, target, 0.3) == 0.3
    ensures Unguarded(pi, j, 0.35, r, r, target, 0.3) == Wrap(pi, r + 0.3)
  {
    WrapStep(pi, 0.0, err);
    WrapStep(pi, 0.0, 0.3);
    assert (r + 0.3) - r == 0.3;
  }

  // ---- entered outside the limits --------------------------------------------------------

  /** on_enter takes the measurement, wherever it is. From the first cycle on the reference is
    * in range, if the limits leave the turn anything, and the run is one from there. On a
    * joint that does not turn that first cycle moves it by what is due, or by all it was
    * outside, whichever is more: only so can it pass the rate limit. */
  lemma FirstCycle(pi: real, j: Joint, leash: real, r: real, target: real, cycles: seq<Travel>)
    requires pi > 0.0 && ValidJoint(j) && cycles != []
    ensures var first := StepJoint(pi, j, leash, r, r, target, cycles[0]);
            && Reference(pi, j, leash, r, target, cycles) == Reference(pi, j, leash, first, target, cycles[1..])
            && (MeetsTurn(pi, j) ==> InRange(pi, j, first))
            && (!j.continuous ==>
                  Abs(first - r) == Max(Abs(Course(pi, j, leash, r, target, cycles[0])), Abs(Limited(j, r) - r)))
  {
    hide StepJoint, Course, Limited;
    RunSplits(pi, j, leash, r, target, cycles, 1);
    assert cycles[..1] == [cycles[0]];
    OneCycle(pi, j, leash, r, target, cycles[0]);
    CommandInRange(pi, j, leash, r, r, target, cycles[0]);
    if !j.continuous { FirstMove(pi, j, leash, r, target, cycles[0]); }
  }

  lemma OneCycle(pi: real, j: Joint, leash: real, r: real, target: real, travel: Travel)
    requires pi > 0.0 && ValidJoint(j)
    ensures Reference(pi, j, leash, r, target, [travel]) == StepJoint(pi, j, leash, r, r, target, travel)
  {
    assert [travel][..0] == [];
  }

  lemma FirstMove(pi: real, j: Joint, leash: real, r: real, target: real, travel: Travel)
    requires pi > 0.0 && ValidJoint(j) && !j.continuous
    ensures Abs(StepJoint(pi, j, leash, r, r, target, travel) - r)
            == Max(Abs(Course(pi, j, leash, r, target, travel)), Abs(Limited(j, r) - r))
  {
    TrackingStep(pi, j, leash, r, target, travel);
  }

  /** The limits leave the half-open turn something. */
  predicate MeetsTurn(pi: real, j: Joint) {
    j.continuous && Bounded(j) ==> j.lower.value <= pi && -pi < j.upper.value
  }

  /** Landing from anywhere, a continuous joint with any software limits. */
  lemma LandsFromAnywhereIff(pi: real, j: Joint, leash: real, r: real, target: real, cycles: seq<Travel>)
    requires pi > 0.0 && ValidJoint(j) && j.continuous && Bounded(j) && cycles != []
    ensures Reference(pi, j, leash, r, target, cycles) == Goal(pi, j, target)
            <==> CanLand(pi, j, leash, StepJoint(pi, j, leash, r, r, target, cycles[0]), target, cycles[1..])
  {
    FirstCycle(pi, j, leash, r, target, cycles);
    var first := StepJoint(pi, j, leash, r, r, target, cycles[0]);
    if MeetsTurn(pi, j) {
      LandsIff(pi, j, leash, first, target, cycles[1..]);
    } else {
      StaysInside(pi, j, leash, first, target, cycles[1..]);
    }
  }
}
