/** Unexpected-contact detection: a settle window, a per-joint debounce and a latch on
  * top of the momentum observer.
  */
module ContactMonitor {
  import opened Basics
  import opened MomentumObserver

  datatype Config = Config(enforce: bool, gain: real, debounce: nat)

  /** What the constructor accepts. */
  predicate ValidConfig(cfg: Config) { cfg.gain > 0.0 && cfg.debounce >= 1 }

  datatype Sample = Missed | Bad | Good(p: Vec, drift: Vec)

  datatype Phase = Settling | Armed | Latched

  datatype Trip = Trip(cycle: nat, joint: nat, r: Vec, theta: Vec)

  type Counts = c: seq<nat> | |c| == JOINTS witness seq(JOINTS, _ => 0)

  datatype Monitor = Monitor(
    obs: Observer, count: Counts, pending: real, latched: bool, clearRequested: bool,
    theta: Vec, thetaNext: Vec, settled: bool, phase: Phase,
    wouldTrips: nat, badSamples: nat, cycle: nat, trip: Option<Trip>)

  function NoCounts(): Counts { seq(JOINTS, _ => 0) }

  function Start(theta: Vec): Monitor {
    Monitor(Fresh(), NoCounts(), 0.0, false, false, theta, theta, false, Settling, 0, 0, 0, None)
  }

  function Restart(m: Monitor): Monitor {
    m.(obs := ResetOf(m.obs), count := NoCounts(), pending := 0.0, settled := false,
       phase := if m.latched then Latched else Settling)
  }

  /** A pending clear, consumed. */
  function TakeClear(m: Monitor): Monitor {
    if m.clearRequested then Restart(m.(latched := false, clearRequested := false)) else m
  }

  function RunStartOf(m: Monitor): Monitor {
    Restart(if m.clearRequested then m.(latched := false, clearRequested := false) else m)
  }

  // ---- debounce -----------------------------------------------------------------

  predicate Over(r: Vec, theta: Vec, i: nat)
    requires i < JOINTS
  {
    Abs(r[i]) > theta[i]
  }

  function CountAfter(c: nat, over: bool, debounce: nat): nat {
    if !over then 0 else if c < debounce then c + 1 else c
  }

  /** Joint i reaches the debounce count on this sample. */
  predicate Crosses(count: Counts, r: Vec, theta: Vec, debounce: nat, i: nat)
    requires i < JOINTS
  {
    Over(r, theta, i) && count[i] < debounce && count[i] + 1 == debounce
  }

  /** The lowest-numbered joint at or after `i` that crosses. */
  function FirstCrossing(count: Counts, r: Vec, theta: Vec, debounce: nat, i: nat): (t: Option<nat>)
    requires i <= JOINTS
    decreases JOINTS - i
    ensures t.Some? ==> i <= t.value < JOINTS && Crosses(count, r, theta, debounce, t.value)
    ensures forall j :: i <= j < (if t.Some? then t.value else JOINTS) ==> !Crosses(count, r, theta, debounce, j)
  {
    if i == JOINTS then None
    else if Crosses(count, r, theta, debounce, i) then Some(i)
    else FirstCrossing(count, r, theta, debounce, i + 1)
  }

  function CountsAfter(count: Counts, r: Vec, theta: Vec, debounce: nat): Counts {
    seq(JOINTS, i requires 0 <= i < JOINTS => CountAfter(count[i], Over(r, theta, i), debounce))
  }

  // ---- one step --------------------------------------------------------------------

  /** The observer over the owed time plus this sample's, 1/K at most. */
  function Observed(cfg: Config, m: Monitor, p: Vec, drift: Vec, dt: real): Observer
    requires ValidConfig(cfg)
  {
    StepOf(cfg.gain, m.obs, p, drift, Min(m.pending + dt, 1.0 / cfg.gain))
  }

  /** Counting on a settled, unlatched good sample that left the observer at `m.obs`. */
  function Debounced(cfg: Config, m: Monitor, cycle: nat): Monitor {
    var t := FirstCrossing(m.count, m.obs.r, m.theta, cfg.debounce, 0);
    var u := m.(count := CountsAfter(m.count, m.obs.r, m.theta, cfg.debounce), phase := Armed);
    if t.None? then u
    else
      u.(wouldTrips := m.wouldTrips + 1, trip := Some(Trip(cycle, t.value, m.obs.r, m.theta)),
         latched := cfg.enforce, phase := if cfg.enforce then Latched else Armed)
  }

  function OnGood(cfg: Config, m: Monitor, p: Vec, drift: Vec, dt: real, cycle: nat): Monitor
    requires ValidConfig(cfg)
  {
    var o := Observed(cfg, m, p, drift, dt);
    var u := m.(obs := o, pending := 0.0, settled := o.time >= 5.0 / cfg.gain);
    if u.latched then u.(phase := Latched)
    else if !u.settled then u.(phase := Settling)
    else Debounced(cfg, u, cycle)
  }

  function OnSample(cfg: Config, u: Monitor, s: Sample, dt: real, cycle: nat): Monitor
    requires ValidConfig(cfg)
  {
    match s
    case Missed => u.(pending := u.pending + dt)
    case Bad => u.(pending := u.pending + dt, badSamples := u.badSamples + 1)
    case Good(p, drift) => OnGood(cfg, u, p, drift, dt, cycle)
  }

  function StepMonitor(cfg: Config, m: Monitor, s: Sample, dt: real): Monitor
    requires ValidConfig(cfg)
  {
    OnSample(cfg, TakeClear(m).(cycle := m.cycle + 1, theta := m.thetaNext), s, dt, m.cycle)
  }

  // ---- the class ----------------------------------------------------------------------

  class ContactMonitorState {
    const cfg: Config
    const observer: MomentumObserverState
    const count: array<nat>
    var pending: real
    var buf0: Vec
    var buf1: Vec
    var activeBuf: nat
    var clearRequested: bool
    var latched: bool
    var theta: Vec
    var settled: bool
    var phase: Phase
    var wouldTrips: nat
    var badSamples: nat
    var cycle: nat
    var trip: Option<Trip>

    predicate Valid()
      reads this
    {
      ValidConfig(cfg) && count.Length == JOINTS && observer.gain == cfg.gain
    }

    function View(): Monitor
      reads this, observer, count
      requires Valid()
    {
      Monitor(observer.View(), count[..], pending, latched, clearRequested, theta,
              if activeBuf == 0 then buf0 else buf1, settled, phase, wouldTrips, badSamples, cycle, trip)
    }

    constructor (cfg: Config, theta: Vec)
      requires ValidConfig(cfg)
      ensures Valid() && fresh(observer) && fresh(count) && this.cfg == cfg
      ensures View() == Start(theta)
    {
      this.cfg := cfg;
      observer := new MomentumObserverState(cfg.gain);
      count := new nat[JOINTS](_ => 0);
      pending, clearRequested, latched, settled := 0.0, false, false, false;
      buf0, buf1, activeBuf, this.theta := theta, theta, 0, theta;
      phase, wouldTrips, badSamples, cycle, trip := Settling, 0, 0, 0, None;
      new;
      assert count[..] == NoCounts();
    }

    /** The new thresholds are adopted by the next step. */
    method SetThresholds(t: Vec)
      requires Valid()
      modifies this
      ensures Valid() && View() == old(View()).(thetaNext := t)
    {
      if activeBuf == 0 {
        buf1 := t;
        activeBuf := 1;
      } else {
        buf0 := t;
        activeBuf := 0;
      }
    }

    method RequestClear()
      requires Valid()
      modifies this
      ensures Valid() && View() == old(View()).(clearRequested := true)
    {
      clearRequested := true;
    }

    method ClearCounts()
      requires Valid()
      modifies count
      ensures count[..] == NoCounts()
    {
      var i := 0;
      while i < JOINTS
        invariant 0 <= i <= JOINTS
        invariant forall j :: 0 <= j < i ==> count[j] == 0
      {
        count[i] := 0;
        i := i + 1;
      }
    }

    method RestartDetector()
      requires Valid()
      modifies this, observer, count
      ensures Valid() && View() == Restart(old(View()))
    {
      observer.Reset();
      ClearCounts();
      pending, settled := 0.0, false;
      phase := if latched then Latched else Settling;
    }

    method OnRunStart()
      requires Valid()
      modifies this, observer, count
      ensures Valid() && View() == RunStartOf(old(View()))
    {
      if clearRequested {
        clearRequested, latched := false, false;
      }
      RestartDetector();
    }

    /** The per-joint loop of step(). */
    method Debounce(r: Vec) returns (tripped: Option<nat>)
      requires Valid()
      modifies count
      ensures tripped == FirstCrossing(old(count[..]), r, theta, cfg.debounce, 0)
      ensures count[..] == CountsAfter(old(count[..]), r, theta, cfg.debounce)
    {
      tripped := None;
      var i := 0;
      while i < JOINTS
        invariant 0 <= i <= JOINTS
        invariant forall j :: i <= j < JOINTS ==> count[j] == old(count[j])
        invariant forall j :: 0 <= j < i ==> count[j] == CountAfter(old(count[j]), Over(r, theta, j), cfg.debounce)
        invariant FirstCrossing(old(count[..]), r, theta, cfg.debounce, 0)
                  == if tripped.Some? then tripped else FirstCrossing(old(count[..]), r, theta, cfg.debounce, i)
      {
        if Abs(r[i]) > theta[i] {
          if count[i] < cfg.debounce {
            count[i] := count[i] + 1;
            if count[i] == cfg.debounce && tripped.None? {
              tripped := Some(i);
            }
          }
        } else {
          count[i] := 0;
        }
        i := i + 1;
      }
    }

    method Step(s: Sample, dt: real) returns (isLatched: bool)
      requires Valid()
      modifies this, observer, count
      ensures Valid() && View() == StepMonitor(cfg, old(View()), s, dt)
      ensures isLatched == latched
    {
      var c := cycle;
      BeginStep();
      isLatched := TakeSample(s, dt, c);
    }

    method TakeSample(s: Sample, dt: real, c: nat) returns (isLatched: bool)
      requires Valid()
      modifies this, observer, count
      ensures Valid() && View() == OnSample(cfg, old(View()), s, dt, c)
      ensures isLatched == latched
    {
      if s.Good? {
        isLatched := GoodSample(s.p, s.drift, dt, c);
      } else {
        SkipSample(s.Bad?, dt);
        isLatched := latched;
      }
    }

    /** No sample to step on: its time stays owed. */
    method SkipSample(bad: bool, dt: real)
      requires Valid()
      modifies this
      ensures Valid()
      ensures View() == old(View()).(pending := old(pending) + dt, badSamples := old(badSamples) + if bad then 1 else 0)
    {
      if bad {
        badSamples := badSamples + 1;
      }
      pending := pending + dt;
    }

    /** The cycle count, a pending clear and the threshold handoff. */
    method BeginStep()
      requires Valid()
      modifies this, observer, count
      ensures Valid() && View() == TakeClear(old(View())).(cycle := old(cycle) + 1, theta := old(View()).thetaNext)
    {
      if clearRequested {
        clearRequested, latched := false, false;
        RestartDetector();
      }
      cycle := cycle + 1;
      theta := if activeBuf == 0 then buf0 else buf1;
    }

    /** The observer over the time owed, which is then paid. */
    method Observe(p: Vec, drift: Vec, dt: real)
      requires Valid()
      modifies this, observer
      ensures Valid()
      ensures var o := Observed(cfg, old(View()), p, drift, dt);
              View() == old(View()).(obs := o, pending := 0.0, settled := o.time >= 5.0 / cfg.gain)
    {
      observer.Step(p, drift, Min(pending + dt, 1.0 / cfg.gain));
      pending := 0.0;
      settled := observer.time >= 5.0 / cfg.gain;
    }

    method GoodSample(p: Vec, drift: Vec, dt: real, c: nat) returns (isLatched: bool)
      requires Valid()
      modifies this, observer, count
      ensures Valid() && View() == OnGood(cfg, old(View()), p, drift, dt, c)
      ensures isLatched == latched
    {
      Observe(p, drift, dt);
      if latched {
        phase := Latched;
        isLatched := true;
      } else if !settled {
        phase := Settling;
        isLatched := false;
      } else {
        isLatched := CountSample(c);
      }
    }

    method CountSample(c: nat) returns (isLatched: bool)
      requires Valid() && !latched
      modifies this, count
      ensures Valid() && View() == Debounced(cfg, old(View()), c)
      ensures isLatched == latched
    {
      phase := Armed;
      var t := Debounce(observer.r);
      if t.Some? {
        RecordTrip(c, t.value);
      }
      isLatched := phase == Latched;
    }

    method RecordTrip(c: nat, joint: nat)
      requires Valid() && !latched && phase == Armed
      modifies this
      ensures Valid()
      ensures View() == old(View()).(wouldTrips := old(wouldTrips) + 1, latched := cfg.enforce,
                                     trip := Some(Trip(c, joint, old(View()).obs.r, old(theta))),
                                     phase := if cfg.enforce then Latched else Armed)
    {
      wouldTrips := wouldTrips + 1;
      trip := Some(Trip(c, joint, observer.r, theta));
      if cfg.enforce {
        latched, phase := true, Latched;
      }
    }
  }
}
