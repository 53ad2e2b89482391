/** The momentum observer: a residual that tracks the external joint torque. The
  * rigid-body terms stay uninterpreted: a sample carries p = M(q) qd and
  * drift = tau + C(q, qd)^T qd - g(q).
  */
module MomentumObserver {
  import opened Basics

  datatype Observer = Observer(seeded: bool, p0: Vec, integral: Vec, r: Vec, time: real)

  function Fresh(): Observer { Observer(false, Zero(), Zero(), Zero(), 0.0) }

  /** reset() forgets everything but the seed, which the next step overwrites. */
  function ResetOf(o: Observer): Observer { Observer(false, o.p0, Zero(), Zero(), 0.0) }

  /** A step of one joint: the integral, and the residual it leaves. */
  function Integrated(integral: real, drift: real, r: real, dt: real): real { integral + (drift + r) * dt }

  function Residual(gain: real, p: real, p0: real, integral: real): real { gain * (p - p0 - integral) }

  function IntegralAfter(o: Observer, drift: Vec, dt: real, i: nat): real
    requires i < JOINTS
  {
    Integrated(o.integral[i], drift[i], o.r[i], dt)
  }

  function StepOf(gain: real, o: Observer, p: Vec, drift: Vec, dt: real): Observer {
    if !o.seeded then Observer(true, p, Zero(), Zero(), 0.0)
    else
      Observer(true, o.p0,
               seq(JOINTS, i requires 0 <= i < JOINTS => IntegralAfter(o, drift, dt, i)),
               seq(JOINTS, i requires 0 <= i < JOINTS => Residual(gain, p[i], o.p0[i], IntegralAfter(o, drift, dt, i))),
               o.time + dt)
  }

  /** `p` is the momentum the observer last saw. */
  predicate Tracks(gain: real, o: Observer, p: Vec) {
    o.seeded ==> forall i :: 0 <= i < JOINTS ==> o.r[i] == gain * (p[i] - o.p0[i] - o.integral[i])
  }

  lemma StepTracks(gain: real, o: Observer, p: Vec, drift: Vec, dt: real)
    ensures Tracks(gain, StepOf(gain, o, p, drift, dt), p)
  {
  }

  /** When the momentum changes by (drift + ext) dt, the residual is a first-order filter
    * of the external torque `ext`. */
  lemma Recurrence(gain: real, o: Observer, before: Vec, p: Vec, drift: Vec, dt: real, ext: real, i: nat)
    requires i < JOINTS && o.seeded && Tracks(gain, o, before)
    requires p[i] == before[i] + (drift[i] + ext) * dt
    ensures StepOf(gain, o, p, drift, dt).r[i] == (1.0 - gain * dt) * o.r[i] + gain * dt * ext
  {
    var a := before[i] - o.p0[i] - o.integral[i];
    assert o.r[i] == gain * a;
    calc {
      StepOf(gain, o, p, drift, dt).r[i];
      gain * (p[i] - o.p0[i] - IntegralAfter(o, drift, dt, i));
      gain * (a + (ext - o.r[i]) * dt);
      gain * a + gain * ((ext - o.r[i]) * dt);
      o.r[i] + gain * dt * (ext - o.r[i]);
    }
  }

  /** With K dt <= 1 the error to a steady torque keeps its sign and does not grow. */
  lemma ErrorShrinks(gain: real, dt: real, r: real, ext: real, r': real)
    requires 0.0 <= gain * dt <= 1.0
    requires r' == (1.0 - gain * dt) * r + gain * dt * ext
    ensures ext - r' == (1.0 - gain * dt) * (ext - r)
    ensures r <= ext ==> r <= r' <= ext
    ensures r >= ext ==> r >= r' >= ext
  {
    ErrorIdentity(gain, dt, r, ext, r');
    ErrorBetween(gain * dt, ext - r, ext - r');
  }

  lemma ErrorIdentity(gain: real, dt: real, r: real, ext: real, r': real)
    requires r' == (1.0 - gain * dt) * r + gain * dt * ext
    ensures ext - r' == (1.0 - gain * dt) * (ext - r)
  {
  }

  lemma ErrorBetween(k: real, e: real, e': real)
    requires 0.0 <= k <= 1.0 && e' == (1.0 - k) * e
    ensures e >= 0.0 ==> 0.0 <= e' <= e
    ensures e <= 0.0 ==> e <= e' <= 0.0
  {
    if e >= 0.0 {
      ScaledBetween(k, e);
    } else {
      ScaledBetween(k, -e);
      assert (1.0 - k) * (-e) == -e';
    }
  }

  lemma ScaledBetween(k: real, x: real)
    requires 0.0 <= k <= 1.0 && x >= 0.0
    ensures 0.0 <= (1.0 - k) * x <= x
  {
    assert k * x >= 0.0;
    assert (1.0 - k) * x == x - k * x;
    assert (1.0 - k) * x >= 0.0;
  }

  /** The residual never leaves a band that holds both it and the torque. */
  lemma BandKept(gain: real, dt: real, r: real, ext: real, r': real, band: real)
    requires 0.0 <= gain * dt <= 1.0 && r' == (1.0 - gain * dt) * r + gain * dt * ext
    requires -band <= r <= band && -band <= ext <= band
    ensures -band <= r' <= band
  {
    ErrorShrinks(gain, dt, r, ext, r');
  }

  class MomentumObserverState {
    const gain: real
    var seeded: bool
    var p0: Vec
    var integral: Vec
    var r: Vec
    var time: real

    function View(): Observer
      reads this
    {
      Observer(seeded, p0, integral, r, time)
    }

    constructor (gain: real)
      ensures this.gain == gain && View() == Fresh()
    {
      this.gain := gain;
      seeded, p0, integral, r, time := false, Zero(), Zero(), Zero(), 0.0;
    }

    method Reset()
      modifies this
      ensures View() == ResetOf(old(View()))
    {
      seeded, time, integral, r := false, 0.0, Zero(), Zero();
    }

    method Step(p: Vec, drift: Vec, dt: real)
      modifies this
      ensures View() == StepOf(gain, old(View()), p, drift, dt)
    {
      if !seeded {
        p0, integral, r, time, seeded := p, Zero(), Zero(), 0.0, true;
        return;
      }
      ghost var after := StepOf(gain, View(), p, drift, dt);
      var was, seed, k := integral, p0, gain;
      var rWas := r;
      var sum := seq(JOINTS, i requires 0 <= i < JOINTS => Integrated(was[i], drift[i], rWas[i], dt));
      integral := sum;
      r := seq(JOINTS, i requires 0 <= i < JOINTS => Residual(k, p[i], seed[i], sum[i]));
      time := time + dt;
      assert forall i :: 0 <= i < JOINTS ==> integral[i] == after.integral[i];
      assert integral == after.integral;
      assert forall i :: 0 <= i < JOINTS ==> r[i] == after.r[i];
      assert r == after.r;
    }
  }
}
