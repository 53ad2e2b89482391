/** FloatMode: gravity compensation with a spring to an anchor that the hand drags along,
  * never more than a band away.
  */
module FloatMode {
  import opened Basics
  import opened Circle

  datatype Pull = Pull(anchor: real, err: real)

  /** The anchor, dragged to within the band of q, for a spring error `raw`. */
  function Dragged(band: real, anchor: real, q: real, raw: real): Pull {
    if raw > band then Pull(q - band, band)
    else if raw < -band then Pull(q + band, -band)
    else Pull(anchor, raw)
  }

  /** One joint of compute, as the mode has it: angles in (-pi, pi]. */
  function Float(pi: real, continuous: bool, band: real, anchor: real, q: real): (p: Pull)
    requires pi > 0.0 && band > 0.0
    ensures -band <= p.err <= band
    ensures continuous ==> OnCircle(pi, p.anchor)
  {
    var p := Dragged(band, anchor, q, if continuous then Wrap(pi, q - anchor) else q - anchor);
    if continuous then Pull(Wrap(pi, p.anchor), p.err) else p
  }

  /** The same on the real line. */
  function FloatOnLine(band: real, anchor: real, y: real): Pull {
    Dragged(band, anchor, y, y - anchor)
  }

  /** The arm as the hand moves it, and the anchor that follows; y does not wrap. */
  function LineAnchor(band: real, anchor: real, ys: seq<real>): real {
    if ys == [] then anchor else FloatOnLine(band, LineAnchor(band, anchor, ys[..|ys| - 1]), ys[|ys| - 1]).anchor
  }

  function LineErr(band: real, anchor: real, ys: seq<real>, k: nat): real
    requires k < |ys|
  {
    FloatOnLine(band, LineAnchor(band, anchor, ys[..k]), ys[k]).err
  }

  function Anchor(pi: real, band: real, anchor: real, ys: seq<real>): real
    requires pi > 0.0 && band > 0.0
  {
    if ys == [] then anchor
    else Float(pi, true, band, Anchor(pi, band, anchor, ys[..|ys| - 1]), Wrap(pi, ys[|ys| - 1])).anchor
  }

  function Err(pi: real, band: real, anchor: real, ys: seq<real>, k: nat): real
    requires pi > 0.0 && band > 0.0 && k < |ys|
  {
    Float(pi, true, band, Anchor(pi, band, anchor, ys[..k]), Wrap(pi, ys[k])).err
  }

  /** The spring cannot tell this error of the line's from the short one: it is the short one,
    * or the band cuts both off on the same side. */
  predicate Sees(pi: real, band: real, raw: real)
    requires pi > 0.0
  {
    OnCircle(pi, raw) || (raw >= band && Wrap(pi, raw) >= band) || (raw <= -band && Wrap(pi, raw) <= -band)
  }

  /** One cycle. The code sees the line's error if and only if that is in the half-open turn;
    * its spring error is the line's if and only if the band hides the difference, and then the
    * anchor is the line's modulo a turn. */
  lemma StepRefinesLine(pi: real, band: real, x: real, anchor: real, y: real)
    requires pi > 0.0 && band > 0.0 && Same(pi, anchor, x)
    ensures Wrap(pi, Wrap(pi, y) - anchor) == y - x <==> OnCircle(pi, y - x)
    ensures var p, l := Float(pi, true, band, anchor, Wrap(pi, y)), FloatOnLine(band, x, y);
            (p.err == l.err <==> Sees(pi, band, y - x)) && (p.err == l.err ==> Same(pi, p.anchor, l.anchor))
  {
    var q := Wrap(pi, y);
    SameSelf(pi, y);
    SameSub(pi, q, y, anchor, x);
    WrapId(pi, y - x);
    DraggedTo(pi, band, anchor, q);
    var err := FloatOnLine(band, x, y).err;
    SameSub(pi, q, y, err, err);
    assert FloatOnLine(band, x, y).anchor == y - err;
  }

  /** Dragged or not, the anchor is the spring error away from the arm. */
  lemma DraggedTo(pi: real, band: real, anchor: real, q: real)
    requires pi > 0.0 && band > 0.0
    ensures var p := Float(pi, true, band, anchor, q); Same(pi, p.anchor, q - p.err)
  {
    var raw := Wrap(pi, q - anchor);
    var d := Dragged(band, anchor, q, raw);
    SameSelf(pi, d.anchor);
    SameSelf(pi, q - anchor);
    SameSub(pi, q, q, raw, q - anchor);
    assert q - (q - anchor) == anchor;
  }

  /** The line's spring error before it is dragged. */
  function LineRaw(band: real, y0: real, ys: seq<real>, k: nat): real
    requires k < |ys|
  {
    ys[k] - LineAnchor(band, y0, ys[..k])
  }

  /** It stays in the half-open turn: no cycle leaves the arm half a turn from the anchor. */
  predicate Short(pi: real, band: real, y0: real, ys: seq<real>) {
    forall k :: 0 <= k < |ys| ==> OnCircle(pi, LineRaw(band, y0, ys, k))
  }

  /** Where the arm was before cycle k. */
  function At(y0: real, ys: seq<real>, k: nat): real
    requires k <= |ys|
  {
    if k == 0 then y0 else ys[k - 1]
  }

  /** The line's anchor keeps within the band of the arm. */
  lemma {:induction false} AnchorFollows(band: real, y0: real, ys: seq<real>)
    requires 0.0 < band
    ensures Abs(At(y0, ys, |ys|) - LineAnchor(band, y0, ys)) <= band
  {
    if ys != [] { AnchorFollows(band, y0, ys[..|ys| - 1]); }
  }

  /** What keeps the error short: no cycle turns the arm by what the band leaves of the half
    * turn. */
  lemma SmallTurnsStayShort(pi: real, band: real, y0: real, ys: seq<real>)
    requires 0.0 < band < pi
    requires forall k :: 0 <= k < |ys| ==> Abs(ys[k] - At(y0, ys, k)) < pi - band
    ensures Short(pi, band, y0, ys)
  {
    forall k | 0 <= k < |ys| ensures OnCircle(pi, LineRaw(band, y0, ys, k)) {
      AnchorFollows(band, y0, ys[..k]);
      assert At(y0, ys[..k], k) == At(y0, ys, k);
    }
  }

  /** In every cycle the spring error is the line's as far as the band lets it show. */
  predicate Followed(pi: real, band: real, y0: real, ys: seq<real>)
    requires pi > 0.0
  {
    forall k :: 0 <= k < |ys| ==> Sees(pi, band, LineRaw(band, y0, ys, k))
  }

  lemma ShortIsFollowed(pi: real, band: real, y0: real, ys: seq<real>)
    requires pi > 0.0 && Short(pi, band, y0, ys)
    ensures Followed(pi, band, y0, ys)
  {
    forall k | 0 <= k < |ys| ensures Sees(pi, band, LineRaw(band, y0, ys, k)) {
      assert OnCircle(pi, LineRaw(band, y0, ys, k));
    }
  }

  /** A whole float session on a continuous joint, entered at y0 and turned any number of
    * turns: every spring error is the line's if and only if each of the line's errors is one
    * the spring sees, so whenever they stay in the half-open turn; and then the anchor is the
    * line's modulo a turn. */
  lemma {:induction false} FloatRefinesLine(pi: real, band: real, y0: real, ys: seq<real>)
    requires pi > 0.0 && band > 0.0
    ensures ErrsAgree(pi, band, y0, ys) <==> Followed(pi, band, y0, ys)
    ensures Short(pi, band, y0, ys) ==> ErrsAgree(pi, band, y0, ys)
    ensures ErrsAgree(pi, band, y0, ys) ==> Same(pi, Anchor(pi, band, Wrap(pi, y0), ys), LineAnchor(band, y0, ys))
  {
    if Short(pi, band, y0, ys) { ShortIsFollowed(pi, band, y0, ys); }
    SameSelf(pi, y0);
    if ys != [] {
      FloatRefinesLine(pi, band, y0, ys[..|ys| - 1]);
      FollowedFront(pi, band, y0, ys);
      ErrsOfFront(pi, band, y0, ys);
      if ErrsAgree(pi, band, y0, ys[..|ys| - 1]) { LastRefines(pi, band, y0, ys); }
    }
  }

  lemma FollowedFront(pi: real, band: real, y0: real, ys: seq<real>)
    requires pi > 0.0 && ys != []
    ensures Followed(pi, band, y0, ys) <==>
            Followed(pi, band, y0, ys[..|ys| - 1]) && Sees(pi, band, LineRaw(band, y0, ys, |ys| - 1))
  {
    var front := ys[..|ys| - 1];
    forall k | 0 <= k < |front| ensures LineRaw(band, y0, front, k) == LineRaw(band, y0, ys, k) {
      assert front[..k] == ys[..k];
    }
  }

  /** The last cycle. */
  lemma LastRefines(pi: real, band: real, y0: real, ys: seq<real>)
    requires pi > 0.0 && band > 0.0 && ys != []
    requires Same(pi, Anchor(pi, band, Wrap(pi, y0), ys[..|ys| - 1]), LineAnchor(band, y0, ys[..|ys| - 1]))
    ensures var n := |ys| - 1;
            var agree := Err(pi, band, Wrap(pi, y0), ys, n) == LineErr(band, y0, ys, n);
            && (agree <==> Sees(pi, band, LineRaw(band, y0, ys, n)))
            && (agree ==> Same(pi, Anchor(pi, band, Wrap(pi, y0), ys), LineAnchor(band, y0, ys)))
  {
    var n := |ys| - 1;
    StepRefinesLine(pi, band, LineAnchor(band, y0, ys[..n]), Anchor(pi, band, Wrap(pi, y0), ys[..n]), ys[n]);
  }

  /** Every spring error is the line's. */
  predicate ErrsAgree(pi: real, band: real, y0: real, ys: seq<real>)
    requires pi > 0.0 && band > 0.0
  {
    forall k :: 0 <= k < |ys| ==> Err(pi, band, Wrap(pi, y0), ys, k) == LineErr(band, y0, ys, k)
  }

  lemma ErrsOfFront(pi: real, band: real, y0: real, ys: seq<real>)
    requires pi > 0.0 && band > 0.0 && ys != []
    ensures ErrsAgree(pi, band, y0, ys) <==>
            && ErrsAgree(pi, band, y0, ys[..|ys| - 1])
            && Err(pi, band, Wrap(pi, y0), ys, |ys| - 1) == LineErr(band, y0, ys, |ys| - 1)
  {
    var front := ys[..|ys| - 1];
    forall k | 0 <= k < |front|
      ensures Err(pi, band, Wrap(pi, y0), front, k) == Err(pi, band, Wrap(pi, y0), ys, k)
      ensures LineErr(band, y0, front, k) == LineErr(band, y0, ys, k)
    {
      assert front[..k] == ys[..k];
    }
  }

  class FloatController {
    const pi: real
    const band: real
    const continuous: seq<bool>
    const anchor: array<real>
    const err: array<real>

    ghost predicate Valid()
    {
      && pi > 0.0 && band > 0.0 && |continuous| == JOINTS
      && anchor.Length == JOINTS && err.Length == JOINTS && anchor != err
    }

    constructor (pi: real, band: real, continuous: seq<bool>)
      requires pi > 0.0 && band > 0.0 && |continuous| == JOINTS
      ensures Valid() && fresh(anchor) && fresh(err)
      ensures this.pi == pi && this.band == band && this.continuous == continuous
    {
      this.pi, this.band, this.continuous := pi, band, continuous;
      anchor := new real[JOINTS](_ => 0.0);
      err := new real[JOINTS](_ => 0.0);
    }

    method OnEnter(q: Vec)
      requires Valid()
      modifies anchor
      ensures anchor[..] == q
    {
      for i := 0 to JOINTS
        invariant forall k :: 0 <= k < i ==> anchor[k] == q[k]
      {
        anchor[i] := q[i];
      }
    }

    /** The loop body's wrap. */
    method Represented(i: nat, x: real) returns (r: real)
      requires Valid() && i < JOINTS
      ensures r == if continuous[i] then Wrap(pi, x) else x
    {
      r := x;
      if continuous[i] { r := WrapToPi(pi, x); }
    }

    /** compute's first loop. */
    method Drag(q: Vec)
      requires Valid()
      modifies anchor, err
      ensures forall i :: 0 <= i < JOINTS ==>
                Pull(anchor[i], err[i]) == Float(pi, continuous[i], band, old(anchor[i]), q[i])
    {
      for i := 0 to JOINTS
        invariant forall k :: 0 <= k < i ==>
                    Pull(anchor[k], err[k]) == Float(pi, continuous[k], band, old(anchor[k]), q[k])
        invariant forall k :: i <= k < JOINTS ==> anchor[k] == old(anchor[k])
      {
        var a := anchor[i];
        var e := Represented(i, q[i] - a);
        if e > band {
          a, e := q[i] - band, band;
        } else if e < -band {
          a, e := q[i] + band, -band;
        }
        a := Represented(i, a);
        anchor[i], err[i] := a, e;
      }
    }
  }
}
