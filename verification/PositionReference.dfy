/** JointPositionMode's reference: rate limit, leash, wrap, clamp, joint by joint. */
module PositionReference {
  import opened Basics
  import opened Circle

  /** A joint's seeded limits; an infinite limit is None. */
  datatype Joint = Joint(continuous: bool, lower: Option<real>, upper: Option<real>, maxSpeed: real)

  predicate Bounded(j: Joint) { j.lower.Some? && j.upper.Some? }

  predicate ValidJoint(j: Joint) {
    j.maxSpeed >= 0.0 && (Bounded(j) ==> j.lower.value <= j.upper.value)
  }

  function Limited(j: Joint, x: real): real
    requires ValidJoint(j)
  {
    if Bounded(j) then Clamp(x, j.lower.value, j.upper.value) else x
  }

  /** From a to b, the short way on a continuous joint. */
  function Gap(pi: real, j: Joint, a: real, b: real): real
    requires pi > 0.0
  {
    if j.continuous then Wrap(pi, b - a) else b - a
  }

  function Leashed(pi: real, j: Joint, leash: real, r: real, q: real): real
    requires pi > 0.0
  {
    if leash > 0.0 then q + Clamp(Gap(pi, j, q, r), -leash, leash) else r
  }

  function Represented(pi: real, j: Joint, r: real): real
    requires pi > 0.0
  {
    if j.continuous then Wrap(pi, r) else r
  }

  /** The reference before the final guard. */
  function Unguarded(pi: real, j: Joint, leash: real, r: real, q: real, target: real, travel: real): real
    requires pi > 0.0 && ValidJoint(j) && travel >= 0.0
  {
    var err := Gap(pi, j, r, Limited(j, target));
    Represented(pi, j, Leashed(pi, j, leash, r + Clamp(err, -travel, travel), q))
  }

  /** One joint of compute: the next reference, and the command. Whatever the feedback, it
    * is inside the limits, or in the transport's half-open turn. */
  function StepJoint(pi: real, j: Joint, leash: real, r: real, q: real, target: real, travel: real): (c: real)
    requires pi > 0.0 && ValidJoint(j) && travel >= 0.0
    ensures Bounded(j) ==> j.lower.value <= c <= j.upper.value
    ensures j.continuous && !Bounded(j) ==> OnCircle(pi, c)
  {
    Limited(j, Unguarded(pi, j, leash, r, q, target, travel))
  }

  // ---- a tracking arm ---------------------------------------------------------------

  /** Where the reference is headed: the limited target, as the transport represents it. */
  function Goal(pi: real, j: Joint, target: real): real
    requires pi > 0.0 && ValidJoint(j)
  {
    Represented(pi, j, Limited(j, target))
  }

  /** How far the reference still is, the way it will go. */
  function Away(pi: real, j: Joint, r: real, target: real): real
    requires pi > 0.0 && ValidJoint(j)
  {
    Abs(Gap(pi, j, r, Limited(j, target)))
  }

  /** The most one cycle may move a tracking reference. */
  function Reach(leash: real, travel: real): real {
    if leash > 0.0 then Min(travel, leash) else travel
  }

  /** The step a tracking reference is due: towards the target, no further. */
  function Course(pi: real, j: Joint, leash: real, r: real, target: real, travel: real): real
    requires pi > 0.0 && ValidJoint(j) && travel >= 0.0
  {
    Clamp(Gap(pi, j, r, Limited(j, target)), -Reach(leash, travel), Reach(leash, travel))
  }

  predicate Inside(j: Joint, x: real) { Bounded(j) ==> j.lower.value <= x <= j.upper.value }

  /** The reference is where the transport and the limits keep it. */
  predicate InRange(pi: real, j: Joint, r: real) {
    (j.continuous ==> OnCircle(pi, r)) && Inside(j, r)
  }

  predicate LimitsOnCircle(pi: real, j: Joint) {
    j.continuous && Bounded(j) ==> -pi < j.lower.value && j.upper.value <= pi
  }

  /** The guard leaves x the angle it is: inside the limits, or a whole turn from the limit. */
  predicate Spared(pi: real, j: Joint, x: real)
    requires pi > 0.0 && ValidJoint(j)
  {
    Inside(j, x) || (j.continuous && Same(pi, Limited(j, x), x))
  }

  /** The limit x is held at is as far past the target as x is short of it. */
  predicate Mirrored(pi: real, j: Joint, x: real, target: real)
    requires pi > 0.0 && ValidJoint(j)
  {
    j.continuous && Same(pi, Limited(j, target) + Limited(j, target), Limited(j, x) + x)
  }

  /** Without the guard, a tracking reference takes exactly the step it is due. */
  lemma TrackingStep(pi: real, j: Joint, leash: real, r: real, target: real, travel: real)
    requires pi > 0.0 && ValidJoint(j) && travel >= 0.0
    ensures Unguarded(pi, j, leash, r, r, target, travel)
            == Represented(pi, j, r + Course(pi, j, leash, r, target, travel))
  {
    var step := Clamp(Gap(pi, j, r, Limited(j, target)), -travel, travel);
    WrapId(pi, step);
    assert (r + step) - r == step;
  }

  /** A due step is exactly as long as the way it takes off. */
  lemma DueIsTheDifference(pi: real, j: Joint, leash: real, r: real, target: real, travel: real)
    requires pi > 0.0 && ValidJoint(j) && travel >= 0.0
    ensures Abs(Course(pi, j, leash, r, target, travel))
            == Away(pi, j, r, target) - Max(0.0, Away(pi, j, r, target) - Reach(leash, travel))
  {
  }

  /** What the guard makes of a due step, on a joint that turns. */
  lemma GuardOnTurn(pi: real, j: Joint, r: real, target: real, due: real)
    requires pi > 0.0 && ValidJoint(j) && j.continuous && OnCircle(pi, due)
    ensures var there := Wrap(pi, r + due);
            var next := Limited(j, there);
            && (Gap(pi, j, r, next) == due <==> Spared(pi, j, there))
            && (Away(pi, j, next, target) == Away(pi, j, there, target)
                <==> Spared(pi, j, there) || Mirrored(pi, j, there, target))
  {
    var there := Wrap(pi, r + due);
    GapIsDue(pi, r, Limited(j, there), due);
    SameWay(pi, Limited(j, target), Limited(j, there), there);
  }

  lemma GuardOnLine(pi: real, j: Joint, r: real, target: real, due: real)
    requires pi > 0.0 && ValidJoint(j) && !j.continuous
    ensures var next := Limited(j, r + due);
            && (Gap(pi, j, r, next) == due <==> Inside(j, r + due))
            && (Away(pi, j, next, target) == Away(pi, j, r + due, target) <==> Inside(j, r + due))
  {
  }

  /** One cycle of a tracking arm, any limits, any reference. It takes exactly the step it is
    * due if and only if the guard spares where that leads; and it shortens the way by exactly
    * what it may move, or by all of it, if and only if the guard spares that or happens to hold
    * it as far on the other side of the target. */
  lemma StepShrinks(pi: real, j: Joint, leash: real, r: real, target: real, travel: real)
    requires pi > 0.0 && ValidJoint(j) && travel >= 0.0
    ensures var next := StepJoint(pi, j, leash, r, r, target, travel);
            var due := Course(pi, j, leash, r, target, travel);
            var there := Represented(pi, j, r + due);
            && (Gap(pi, j, r, next) == due <==> Spared(pi, j, there))
            && (Away(pi, j, next, target) == Max(0.0, Away(pi, j, r, target) - Reach(leash, travel))
                <==> Spared(pi, j, there) || Mirrored(pi, j, there, target))
  {
    TrackingStep(pi, j, leash, r, target, travel);
    FreeShrinks(pi, j, leash, r, target, travel);
    if j.continuous {
      GuardOnTurn(pi, j, r, target, Course(pi, j, leash, r, target, travel));
    } else {
      GuardOnLine(pi, j, r, target, Course(pi, j, leash, r, target, travel));
    }
  }

  /** Seen from r, a reference is off by exactly c when it is at the angle r + c. */
  lemma GapIsDue(pi: real, r: real, next: real, c: real)
    requires pi > 0.0 && OnCircle(pi, c)
    ensures Wrap(pi, next - r) == c <==> Same(pi, next, Wrap(pi, r + c))
  {
    WrapId(pi, c);
    SameSelf(pi, r + c);
    if Same(pi, next, r + c) {
      SameSub(pi, next, r + c, r, r);
      assert (r + c) - r == c;
    }
    if Same(pi, next - r, c) {
      SameAdd(pi, next - r, c, r, r);
      assert (next - r) + r == next && c + r == r + c;
    }
  }

  /** Two angles are equally far from a third when they are the same or mirror each other in it. */
  lemma SameWay(pi: real, tgt: real, x: real, y: real)
    requires pi > 0.0
    ensures Abs(Wrap(pi, tgt - x)) == Abs(Wrap(pi, tgt - y)) <==> Same(pi, x, y) || Same(pi, tgt + tgt, x + y)
  {
    AbsWrap(pi, tgt - x, tgt - y);
    if Same(pi, x, y) { SameSub(pi, tgt, tgt, x, y); }
    if Same(pi, tgt - x, tgt - y) {
      SameSub(pi, tgt, tgt, tgt - x, tgt - y);
      assert tgt - (tgt - x) == x && tgt - (tgt - y) == y;
    }
    if Same(pi, tgt + tgt, x + y) {
      SameSub(pi, tgt + tgt, x + y, tgt + x, tgt + x);
      assert (tgt + tgt) - (tgt + x) == tgt - x && (x + y) - (tgt + x) == -(tgt - y);
    }
    if Same(pi, tgt - x, -(tgt - y)) {
      SameAdd(pi, tgt - x, -(tgt - y), tgt + x, tgt + x);
      assert (tgt - x) + (tgt + x) == tgt + tgt && -(tgt - y) + (tgt + x) == x + y;
    }
  }

  /** Equal distances from zero: the same angle, or opposite ones. */
  lemma AbsWrap(pi: real, a: real, b: real)
    requires pi > 0.0
    ensures Abs(Wrap(pi, a)) == Abs(Wrap(pi, b)) <==> Same(pi, a, b) || Same(pi, a, -b)
  {
    SameSelf(pi, b);
    SameSub(pi, 0.0, 0.0, Wrap(pi, b), b);
    assert 0.0 - Wrap(pi, b) == -Wrap(pi, b) && 0.0 - b == -b;
    WrapStep(pi, 0.0, -Wrap(pi, b));
  }

  lemma FreeShrinks(pi: real, j: Joint, leash: real, r: real, target: real, travel: real)
    requires pi > 0.0 && ValidJoint(j) && travel >= 0.0
    ensures Away(pi, j, Unguarded(pi, j, leash, r, r, target, travel), target)
            == Max(0.0, Away(pi, j, r, target) - Reach(leash, travel))
  {
    TrackingStep(pi, j, leash, r, target, travel);
    if j.continuous {
      ShortenedGap(pi, Limited(j, target), r, Course(pi, j, leash, r, target, travel));
    }
  }

  /** Going c along the short way leaves the rest of it. */
  lemma ShortenedGap(pi: real, tgt: real, r: real, c: real)
    requires pi > 0.0
    requires var err := Wrap(pi, tgt - r); 0.0 <= c <= err || err <= c <= 0.0
    ensures Wrap(pi, tgt - Wrap(pi, r + c)) == Wrap(pi, tgt - r) - c
  {
    var err := Wrap(pi, tgt - r);
    SameSelf(pi, tgt - r);
    SameSelf(pi, r + c);
    SameSub(pi, tgt, tgt, Wrap(pi, r + c), r + c);
    SameSub(pi, err, tgt - r, c, c);
    assert tgt - (r + c) == (tgt - r) - c;
    WrapId(pi, err - c);
  }

  /** A step up that leads outside the limits is held at another distance than it should be. */
  lemma NoCoincidenceUp(pi: real, j: Joint, tgt: real, r: real, c: real, there: real)
    requires pi > 0.0 && ValidJoint(j) && j.continuous && Bounded(j) && LimitsOnCircle(pi, j)
    requires Inside(j, tgt) && Inside(j, r) && 0.0 <= c <= Wrap(pi, tgt - r) && there == Wrap(pi, r + c)
    ensures Abs(Wrap(pi, tgt - Limited(j, there))) == Abs(Wrap(pi, tgt - there)) ==> Inside(j, there)
  {
    ShortenedGap(pi, tgt, r, c);
    WrapStep(pi, r, c);
    WrapStep(pi, 0.0, tgt - r);
    WrapStep(pi, 0.0, tgt - Limited(j, there));
  }

  lemma NoCoincidenceDown(pi: real, j: Joint, tgt: real, r: real, c: real, there: real)
    requires pi > 0.0 && ValidJoint(j) && j.continuous && Bounded(j) && LimitsOnCircle(pi, j)
    requires Inside(j, tgt) && Inside(j, r) && Wrap(pi, tgt - r) <= c <= 0.0 && there == Wrap(pi, r + c)
    ensures Abs(Wrap(pi, tgt - Limited(j, there))) == Abs(Wrap(pi, tgt - there)) ==> Inside(j, there)
  {
    ShortenedGap(pi, tgt, r, c);
    WrapStep(pi, r, c);
    WrapStep(pi, 0.0, tgt - r);
    WrapStep(pi, 0.0, tgt - Limited(j, there));
  }

  /** With limits inside the turn and a reference inside the limits there is no coincidence:
    * the way shortens as it should if and only if the step leads inside the limits. */
  lemma GuardBites(pi: real, j: Joint, leash: real, r: real, target: real, travel: real)
    requires pi > 0.0 && ValidJoint(j) && travel >= 0.0 && LimitsOnCircle(pi, j) && InRange(pi, j, r)
    ensures Away(pi, j, StepJoint(pi, j, leash, r, r, target, travel), target)
            == Max(0.0, Away(pi, j, r, target) - Reach(leash, travel))
            <==> Inside(j, Represented(pi, j, r + Course(pi, j, leash, r, target, travel)))
  {
    TrackingStep(pi, j, leash, r, target, travel);
    FreeShrinks(pi, j, leash, r, target, travel);
    if j.continuous && Bounded(j) {
      var tgt := Limited(j, target);
      var c := Course(pi, j, leash, r, target, travel);
      if Gap(pi, j, r, tgt) >= 0.0 {
        NoCoincidenceUp(pi, j, tgt, r, c, Wrap(pi, r + c));
      } else {
        NoCoincidenceDown(pi, j, tgt, r, c, Wrap(pi, r + c));
      }
    }
  }

  /** Limits [2, 4] on a continuous joint, from 3 to 3.5: half a radian inside the limits, and
    * one cycle allowed 0.3 goes a whole radian the other way. */
  lemma JumpsBack(pi: real)
    requires 3.14 < pi < 3.15
    ensures var j := Joint(true, Some(2.0), Some(4.0), 0.5);
            && InRange(pi, j, 3.0) && Away(pi, j, 3.0, 3.5) == 0.5
            && StepJoint(pi, j, 0.35, 3.0, 3.0, 3.5, 0.3) == 2.0
            && Gap(pi, j, 3.0, 2.0) == -1.0 && Away(pi, j, 2.0, 3.5) == 1.5
  {
    var j := Joint(true, Some(2.0), Some(4.0), 0.5);
    TrackingStep(pi, j, 0.35, 3.0, 3.5, 0.3);
    WrapStep(pi, 0.0, 0.5);
    WrapStep(pi, 3.0, 0.3);
    WrapStep(pi, 0.0, -1.0);
    WrapStep(pi, 0.0, 1.5);
    assert Course(pi, j, 0.35, 3.0, 3.5, 0.3) == 0.3;
  }

  /** Whatever the feedback, a command is in range as soon as the limits leave the turn
    * anything at all; if they leave it nothing, it is always the same one. */
  lemma CommandInRange(pi: real, j: Joint, leash: real, r: real, q: real, target: real, travel: real)
    requires pi > 0.0 && ValidJoint(j) && travel >= 0.0
    ensures var c := StepJoint(pi, j, leash, r, q, target, travel);
            if j.continuous && Bounded(j) && j.lower.value > pi then c == j.lower.value
            else if j.continuous && Bounded(j) && j.upper.value <= -pi then c == j.upper.value
            else InRange(pi, j, c)
  {
  }

  /** From the half-open turn, a step under a turn wraps at most once. */
  lemma WrapStep(pi: real, r: real, c: real)
    requires pi > 0.0
    ensures -pi < r + c <= pi ==> Wrap(pi, r + c) == r + c
    ensures pi < r + c <= 3.0 * pi ==> Wrap(pi, r + c) == r + c - 2.0 * pi
    ensures -3.0 * pi < r + c <= -pi ==> Wrap(pi, r + c) == r + c + 2.0 * pi
  {
    assert Turns(pi, 1) == 2.0 * pi && Turns(pi, -1) == -2.0 * pi && Turns(pi, 0) == 0.0;
    if -pi < r + c <= pi {
      WrapUnique(pi, r + c, r + c, 0);
    } else if pi < r + c <= 3.0 * pi {
      WrapUnique(pi, r + c, r + c - 2.0 * pi, 1);
    } else if -3.0 * pi < r + c <= -pi {
      WrapUnique(pi, r + c, r + c + 2.0 * pi, -1);
    }
  }
}
