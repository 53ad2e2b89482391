/** Angles on the circle (units.h). Exact reals, any half-turn pi > 0. */
module Circle {
  import opened Basics

  /** k full turns. */
  function Turns(pi: real, k: int): real {
    2.0 * pi * k as real
  }

  lemma TurnsAdd(pi: real, j: int, k: int)
    ensures Turns(pi, j + k) == Turns(pi, j) + Turns(pi, k)
    ensures Turns(pi, -k) == -Turns(pi, k)
  {
  }

  /** A full turn or more leaves the half-open turn (-pi, pi]. */
  lemma TurnsFar(pi: real, k: int)
    requires pi > 0.0
    ensures k >= 1 ==> Turns(pi, k) >= 2.0 * pi
    ensures k <= -1 ==> Turns(pi, k) <= -2.0 * pi
  {
    if k >= 1 {
      assert 2.0 * pi * (k as real - 1.0) >= 0.0;
    } else if k <= -1 {
      assert 2.0 * pi * (-1.0 - k as real) >= 0.0;
    }
  }

  predicate OnCircle(pi: real, a: real) { -pi < a <= pi }

  /** How many turns wrap_to_pi takes off. */
  function Laps(pi: real, a: real): int
    requires pi > 0.0
  {
    -(0.5 - a / (2.0 * pi)).Floor
  }

  /** The same angle in (-pi, pi]. */
  function Wrap(pi: real, a: real): (r: real)
    requires pi > 0.0
    ensures OnCircle(pi, r) && r + Turns(pi, Laps(pi, a)) == a
  {
    LapsWithin(pi, a);
    a - Turns(pi, Laps(pi, a))
  }

  lemma LapsWithin(pi: real, a: real)
    requires pi > 0.0
    ensures -pi < a - Turns(pi, Laps(pi, a)) <= pi
  {
    var x := a / (2.0 * pi);
    var k := Laps(pi, a) as real;
    assert x * (2.0 * pi) == a;
    Scaled(pi, a, x, k, 2.0 * pi * k);
  }

  lemma Scaled(pi: real, a: real, x: real, k: real, t: real)
    requires pi > 0.0 && k - 0.5 < x <= k + 0.5 && x * (2.0 * pi) == a && t == 2.0 * pi * k
    ensures -pi < a - t <= pi
  {
    var u, v := 2.0 * (x - k) + 1.0, 1.0 - 2.0 * (x - k);
    assert u * pi == a - t + pi && v * pi == pi - (a - t);
    Positive(u, pi);
    if v > 0.0 { Positive(v, pi); }
  }

  /** Nothing else in the half-open turn is the same angle. */
  lemma WrapUnique(pi: real, a: real, b: real, k: int)
    requires pi > 0.0 && OnCircle(pi, b) && b + Turns(pi, k) == a
    ensures Wrap(pi, a) == b
  {
    var j := Laps(pi, a);
    TurnsAdd(pi, j - k, k);
    TurnsFar(pi, j - k);
  }

  lemma WrapId(pi: real, a: real)
    requires pi > 0.0
    ensures Wrap(pi, a) == a <==> OnCircle(pi, a)
  {
    if OnCircle(pi, a) { WrapUnique(pi, a, a, 0); }
  }

  /** Whole turns do not show. */
  lemma WrapTurns(pi: real, a: real, k: int)
    requires pi > 0.0
    ensures Wrap(pi, a + Turns(pi, k)) == Wrap(pi, a)
  {
    TurnsAdd(pi, Laps(pi, a), k);
    WrapUnique(pi, a + Turns(pi, k), Wrap(pi, a), Laps(pi, a) + k);
  }

  /** Same angle: congruent modulo a full turn. */
  predicate Same(pi: real, a: real, b: real)
    requires pi > 0.0
  {
    Wrap(pi, a) == Wrap(pi, b)
  }

  lemma SameTurns(pi: real, a: real, b: real)
    requires pi > 0.0 && Same(pi, a, b)
    ensures a == b + Turns(pi, Laps(pi, a) - Laps(pi, b))
  {
    TurnsAdd(pi, Laps(pi, a) - Laps(pi, b), Laps(pi, b));
  }

  lemma SameSelf(pi: real, a: real)
    requires pi > 0.0
    ensures Same(pi, Wrap(pi, a), a)
  {
    WrapId(pi, Wrap(pi, a));
  }

  lemma SameTurnsBack(pi: real, a: real, b: real, k: int)
    requires pi > 0.0 && a == b + Turns(pi, k)
    ensures Same(pi, a, b)
  {
    WrapTurns(pi, b, k);
  }

  lemma SameAdd(pi: real, a: real, b: real, c: real, d: real)
    requires pi > 0.0 && Same(pi, a, b) && Same(pi, c, d)
    ensures Same(pi, a + c, b + d)
  {
    SameTurns(pi, a, b);
    SameTurns(pi, c, d);
    var j := Laps(pi, a) - Laps(pi, b);
    var k := Laps(pi, c) - Laps(pi, d);
    TurnsAdd(pi, j, k);
    SameTurnsBack(pi, a + c, b + d, j + k);
  }

  lemma SameSub(pi: real, a: real, b: real, c: real, d: real)
    requires pi > 0.0 && Same(pi, a, b) && Same(pi, c, d)
    ensures Same(pi, a - c, b - d)
  {
    SameTurns(pi, a, b);
    SameTurns(pi, c, d);
    var j := Laps(pi, a) - Laps(pi, b);
    var k := Laps(pi, c) - Laps(pi, d);
    TurnsAdd(pi, j, -k);
    TurnsAdd(pi, k, 0);
    SameTurnsBack(pi, a - c, b - d, j - k);
  }

  /** Wrapping a difference takes the short way: no other lap is closer. */
  lemma WrapIsShortest(pi: real, a: real, k: int)
    requires pi > 0.0
    ensures Abs(Wrap(pi, a)) <= Abs(a + Turns(pi, k))
  {
    TurnsAdd(pi, Laps(pi, a), k);
    TurnsFar(pi, Laps(pi, a) + k);
  }

  /** wrap_to_pi. */
  method WrapToPi(pi: real, angle: real) returns (a: real)
    requires pi > 0.0
    ensures a == Wrap(pi, angle)
  {
    a := angle;
    ghost var k := 0;
    Enough(pi, angle);
    while a > pi
      invariant a == angle - Turns(pi, k) && k >= 0 && (k > 0 ==> a > -pi)
      decreases Bound(pi, angle) - k
    {
      TurnsAdd(pi, k, 1);
      WithinBound(pi, angle, k);
      a, k := a - 2.0 * pi, k + 1;
    }
    while a <= -pi
      invariant a == angle - Turns(pi, k) && a <= pi
      decreases Bound(pi, angle) + k
    {
      TurnsAdd(pi, k, -1);
      WithinBound(pi, angle, k);
      a, k := a + 2.0 * pi, k - 1;
    }
    WrapUnique(pi, angle, a, k);
  }

  /** More turns than the loops can need. */
  ghost function Bound(pi: real, a: real): int
    requires pi > 0.0
  {
    Abs(Laps(pi, a) as real).Floor + 1
  }

  lemma Enough(pi: real, a: real)
    requires pi > 0.0
    ensures Bound(pi, a) > Laps(pi, a) && Bound(pi, a) > -Laps(pi, a)
  {
  }

  /** As long as a loop runs, it has turns left. */
  lemma WithinBound(pi: real, a: real, k: int)
    requires pi > 0.0
    ensures a - Turns(pi, k) > pi ==> k < Laps(pi, a)
    ensures a - Turns(pi, k) <= -pi ==> k > Laps(pi, a)
  {
    TurnsAdd(pi, Laps(pi, a) - k, k);
    TurnsFar(pi, Laps(pi, a) - k);
    assert Turns(pi, 0) == 0.0;
    assert Wrap(pi, a) + Turns(pi, Laps(pi, a) - k) == a - Turns(pi, k);
  }
}
