# Real-time arm driver: a Dafny model of its state machines

The driver commands a seven-joint arm at 1 kHz. Backend threads ask for goals and streams through an
arbiter; a supervisor queues them; a sampler thread runs them; an RT loop exchanges commands with the
arm under a contact monitor; a link owner survives faults and disconnects. This project models those
parts and proves what they promise over whole runs. Numbers are exact reals, pi is any positive real,
counters are unbounded unless a width matters, and threads interleave in sequentially consistent
steps: one lock section, or one access to an atomic, a step.

| file | what it models |
|---|---|
| `CommandQueue`, `Arbiter` | the supervisor's inbox and the arbiter's state as classes, section by section |
| `Supervision` | both interleaved with the sampler, the link thread and the contact latch, for any number of backend threads |
| `SupervisionSafety`, `SupervisionGoals`, `SupervisionTheorems` | its invariants and what follows from them |
| `MomentumObserver`, `ContactMonitor`, `ContactDetection` | the contact detector, in place, and the trace predicate it refines |
| `MissRing`, `RtExecutor`, `RtRuns` | the RT loop with a log of what it did, and what every log says |
| `ArmLink`, `ArmLinkRuns` | the link's life around the RT loop, with requests landing at every atomic point |
| `Circle`, `PositionReference`, `PositionRuns`, `VelocityReference`, `FloatMode` | references on the circle against the real line |
| `CommandWatchdog`, `CommandFreeze`, `PoseFault`, `StreamModes` | command freshness, the freeze latch step by step, the pose path's fault, and the modes' compute |
| `Polynomial`, `Hermite`, `Trajectory`, `TrajectoryExecutor`, `TrajectoryExecutorRuns` | sampling a plan and running it on a dilated clock |
| `StreamingSession` | the session's lifecycle against its history |
| `SampleRing`, `Seqlock` | the lock-free structures, copy by copy |
| `Basics`, `Modular` | shared vocabulary |

Classes carry the in-place code; each method's contract equates it with a function, and the lemmas are
about those functions. Runs are sequences of steps, or logs a method is proved to keep. The environment
(exchange outcomes, call results, timers, feedback, what the client asks and when) is an input and is
never restricted.

Where the code and its own words part, the code is modelled and the difference stated:

- A continuous joint given software position limits is wrapped first and clamped after. A target whose short
  way crosses the end of the turn is then never reached unless one cycle carries the reference from its limit
  past the end, though the code says it settles on the stop; and limits that reach past the half turn can
  throw the reference back to the far limit in one cycle, past the rate limit. `PositionReference.StepShrinks`
  has the condition for a cycle and `PositionReference.JumpsBack` an instance; `PositionRuns.LandsIff` and
  `LandsSomeDayIff` have it for a run, `PositionRuns.StuckAtTheLimit` an instance.
- The same order breaks the leash on such a joint: the reference is leashed to the arm, wrapped, and then held
  at the limit nearest the wrapped number, which can be further from the arm than the leash even the short way
  round, with limits of +-3 as with [2, 4]. `PositionRuns.LeashHoldsInRangeIff` has the condition for an arm in
  range and `LeashHoldsIff` for any feedback; `PastTheLeash` and `PastTheLeashAcross` are instances.
- A position reference entered outside its limits is brought inside in its first cycle, whatever the rate limit
  says. `PositionRuns.FirstCycle` has how far it moves.
- Velocity mode acts on a command that has been superseded in every cycle that lands while a setter of that
  command's kind stands between its source store and its bump. `CommandFreezeRuns.SupersededCommandResurfaces` has
  the run, `CommandFreezeRuns.ActsOnLastSeenIffSourceStays` the condition; what holds of every cycle is
  `CommandFreezeRuns.NothingOldIsActedOn`.
- A new pose session is said to be clean whatever a clear races with. It is when a cycle has read the hold
  in between; if the next session's first pose is there before one does, a fault re-latched behind the clear
  is still up. `PoseFault.NextSessionIsCleanIff` has the condition, `PoseFault.FaultOfTheSessionBefore` a run.
- A seqlock load can return a mixed value if exactly a multiple of 2^31 stores fall inside one attempt.
  `Seqlock.LoadIsWhole` has the bound, `Seqlock.LoadIsWholeIff` the exact condition, `Seqlock.TornAfterWrap` a
  run for every such multiple.

## Model

| member | source | states |
|---|---|---|
| SupervisionTheorems.EstopStills | src/interface/arbiter.cpp:83-103 | in every interleaving, from the end of estop()'s second halt until an estop_clear(): no stream open, no live goal queued, no call past its admission, nothing accepted, one tick more at most |
| SupervisionTheorems.FirstHaltIsNotEnough | src/interface/arbiter.cpp:94-102 | a run in which a goal admitted just before the latch is queued live after estop()'s first halt, and which goes on to the second |
| SupervisionTheorems.SettledOnce | src/interface/supervisor.cpp:222-245 | over all interleavings each accepted goal is in exactly one of inbox, hand, active and settled, and settled at most once |
| SupervisionTheorems.SubmitRefusals | src/interface/supervisor.cpp:430-505 | the executor is active iff the sampler has an active goal, so its queue, mode-change and timestamp refusals are unreachable from the sampler |
| SupervisionTheorems.HaltOutrunsGoals | src/interface/supervisor.cpp:635-668 | after any on_halt, whatever follows, goals accepted before it are ticked once more at most |
| SupervisionTheorems.HaltHolds | src/interface/supervisor.cpp:222-253 | once a halt is carried out the executor holds no goal from before it, and the joint target of the mode the halt found running, if that mode has one, is not a sample of such a goal |
| SupervisionTheorems.VelocityHaltWritesNothing | src/interface/supervisor.cpp:237-253 | a run in which a halt finds velocity mode running and the position mode's target is still a sample of a goal from before it: the mode must have a joint target |
| SupervisionTheorems.RevokeStills | src/interface/arbiter.cpp:58-70 | with arbitration on, after a revocation's halt and until the next grant: no stream, no live goal, no owner, no admitted call |
| SupervisionTheorems.DropAndTripStill | src/interface/supervisor.cpp:619-630 | while the link is down, and from a contact trip's halt until the latch falls, no stream is open and no queued goal is live |
| SupervisionTheorems.InvAlways | src/interface/supervisor.cpp:593-612 | every reachable state satisfies the lock, e-stop, revocation, link, contact and goal invariants together |
| SupervisionLocks.LocksKept | src/interface/arbiter.cpp:126-190 | each step keeps every lock with the one thread whose position says it holds it |
| SupervisionStops.StopKept | src/interface/arbiter.cpp:72-110 | each step keeps the e-stop invariant that ties the latch, the two halts and the calls in flight |
| SupervisionStops.RevokeKept | src/interface/arbiter.cpp:30-70 | each step keeps the same for a dropped owner, by grant generation |
| SupervisionStops.LinkKept | src/interface/supervisor.cpp:846-963 | each step keeps it for a link drop, against opens that read ready before it |
| SupervisionStops.ContactKept | src/interface/supervisor.cpp:202-210 | each step keeps it for a contact trip, through the sampler's edge halt |
| SupervisionGoals.GoalsKept | src/interface/supervisor.cpp:340-551 | each step keeps the partition of accepted goals and the halt bookkeeping |
| CommandQueue.SupervisorQueue.Halt | src/interface/supervisor.cpp:649-667 | the in-place pass leaves exactly the marked queue: cancels gone, goals marked once with their first reason, a pending contact reason kept |
| CommandQueue.MarkHaltedKeepsGoals | src/interface/supervisor.cpp:650-663 | marking loses and reorders no goal and leaves none live |
| CommandQueue.SupervisorQueue.Accept | src/interface/supervisor.cpp:593-607 | an accepted goal is queued last, already halted if the contact latch or the link says so, contact first |
| CommandQueue.SupervisorQueue.PushCancel | src/interface/supervisor.cpp:608-612 | a cancel is queued last |
| CommandQueue.SupervisorQueue.TakeHalt | src/interface/supervisor.cpp:212-221 | a pending halt is taken once, with its reason |
| CommandQueue.SupervisorQueue.Pop | src/interface/supervisor.cpp:340-347 | the oldest entry is taken, and nothing else |
| Arbiter.ArbiterState.Admit | src/interface/arbiter.cpp:24-28 | admitted iff not e-stopped and either unarbitrated or the live token; every refusal is counted |
| Arbiter.ArbiterState.GrantDrop | src/interface/arbiter.cpp:36-46 | a live owner is dropped, and then needs a halt |
| Arbiter.ArbiterState.GrantTake | src/interface/arbiter.cpp:48-55 | an owner is installed with a new generation unless an e-stop won the halt window |
| Arbiter.ArbiterState.RevokeDrop | src/interface/arbiter.cpp:58-69 | an owner is dropped, and a halt is owed iff there was one |
| Arbiter.ArbiterState.LatchStop | src/interface/arbiter.cpp:83-84 | the latch alone, without the lock |
| Arbiter.ArbiterState.StopBookkeeping | src/interface/arbiter.cpp:86-93 | latched again and without an owner |
| Arbiter.ArbiterState.ClearStop | src/interface/arbiter.cpp:105-110 | the latch falls and no owner comes back |
| RtExecutor.Run | src/rt_executor.cpp:179-306 | the log of every run keeps its rules event by event, the exit is what the plain counts say, and with paced cycles every step handed to compute is whole |
| RtExecutor.RtLoop.Seed | src/rt_executor.cpp:176-184 | the seeding reads retry on the benign command until a reply or comms loss, and terminate |
| RtExecutor.RtLoop.Adopt | src/rt_executor.cpp:203-239 | after the boundary, latched means the contact mode is active; deferred after a miss; the command is never a freeze |
| RtExecutor.RtLoop.TakeRequest | src/rt_executor.cpp:212-219 | while latched only the contact mode is adopted and a request stays pending |
| RtExecutor.RtLoop.Exchange | src/rt_executor.cpp:136-154 | comms loss is exactly the plain count over the whole history; a miss leaves the command and the reply alone |
| RtExecutor.RtLoop.CheckFault | src/rt_executor.cpp:157-169 | confirmed after 3 faulted or 50 not-low-level good exchanges in a row |
| RtExecutor.RtLoop.Contact | src/rt_executor.cpp:253-271 | on return either latched implies the contact mode, or the cycle is good and frozen |
| RtExecutor.RtLoop.Compute | src/rt_executor.cpp:273-283 | compute gets the time since the previous one, capped, on this cycle's feedback |
| RtExecutor.RtLoop.Turn | src/rt_executor.cpp:195-306 | one turn keeps the loop's invariant, and the cap does not bite on a paced cycle |
| RtRuns.LatchedMeansContactMode | src/rt_executor.cpp:203-271 | over a whole run: latched computes and boundaries are the contact mode's, and no freeze is ever sent |
| RtRuns.MissesAreTransparent | src/rt_executor.cpp:128-154 | a lost exchange is followed by the identical command, with no mode run in between |
| RtRuns.FeedbackIsFresh | src/rt_executor.cpp:203-283 | every on_enter and compute sees the reply of the immediately preceding exchange |
| RtRuns.StepsAreElapsedTime | src/rt_executor.cpp:106-113 | between two computes of one adoption the steps add up to the wall time |
| RtRuns.SurvivorsStayUnderEveryWindow | src/rt_executor.cpp:128-154 | a run that is not lost has fewer than the limit of misses in every window, and a good exchange in every stretch of the row limit |
| MissRing.MissCounter.Record | src/rt_executor.cpp:136-154 | the ring of miss indices agrees with the plain counts: loss at exactly the first miss that reaches either limit |
| MissRing.RecentByIndex | src/rt_executor.cpp:145-150 | at least m of the last w exchanges were lost iff the m-th last miss index is that recent |
| ContactDetection.DetectorRefinesTrace | src/contact_monitor.cpp:90-155 | over every event sequence the trips counted are those of the trace predicate |
| ContactDetection.EventRefines | src/contact_monitor.cpp:90-155 | a trip exactly when some joint's unbroken armed run reaches the debounce count; the latch falls only by a consumed clear |
| ContactDetection.RefinesGood | src/contact_monitor.cpp:111-150 | the good-sample step, with the tripping joint the lowest that crosses |
| ContactDetection.TripIsLate | src/contact_monitor.cpp:111-126 | no trip before the (debounce + 5)-th good sample since a re-initialisation |
| ContactDetection.SettledLate | src/contact_monitor.cpp:44-48 | with steps capped at 1/K, a settled observer has seen six good samples |
| ContactDetection.LatchHoldsWithoutClear | src/contact_monitor.cpp:79-96 | without a clear the latch, once set, holds through any samples and run starts |
| ContactDetection.RestNeverTrips | src/contact_monitor.cpp:104-114 | an arm at rest with external torque within the thresholds never trips, under any gaps, misses, clears and restarts |
| ContactDetection.StartIsCalm | src/contact_monitor.cpp:44-55 | the initial monitor satisfies what RestNeverTrips starts from |
| ContactMonitor.ContactMonitorState.Step | src/contact_monitor.cpp:90-155 | the class in place equals the step function |
| ContactMonitor.ContactMonitorState.Debounce | src/contact_monitor.cpp:127-136 | the in-place counters equal the counting function, and the lowest crossing joint is found |
| ContactMonitor.ContactMonitorState.OnRunStart | src/contact_monitor.cpp:79-86 | a clear requested between runs is consumed; the latch is kept otherwise |
| ContactMonitor.ContactMonitorState.SetThresholds | src/contact_monitor.cpp:57-63 | the inactive buffer is filled and then made active |
| ContactMonitor.ContactMonitorState.RequestClear | src/contact_monitor.cpp:65-67 | only the request flag changes |
| ContactMonitor.FirstCrossing | src/contact_monitor.cpp:128-136 | the lowest joint that crosses, and none below it |
| MomentumObserver.Recurrence | src/momentum_observer.cpp:31-36 | when momentum changes by (drift + ext) dt the residual is a first-order filter of the external torque |
| MomentumObserver.ErrorShrinks | src/momentum_observer.cpp:31-36 | with K dt at most 1 the error keeps its sign and does not grow |
| MomentumObserver.BandKept | src/momentum_observer.cpp:31-36 | inside a band the residual stays inside it |
| MomentumObserver.MomentumObserverState.Step | src/momentum_observer.cpp:19-37 | the class in place equals the step function, first call seeding |
| MomentumObserver.MomentumObserverState.Reset | src/momentum_observer.cpp:12-17 | everything is forgotten but the seed momentum, which the next step overwrites |
| ArmLink.Link.Run | src/arm_link.cpp:148-238 | run() keeps every event rule and its published counts equal to the log's, and shuts the transport down last |
| ArmLinkRuns.NeverRetakenUnasked | src/arm_link.cpp:170-236 | once run or latched, the RT loop runs only after a taken clear, clear_faults, a healthy arm, low level, POSITION and the Running notice, in this order, with no fault since the clear |
| ArmLinkRuns.EveryRunEntersCleanly | src/arm_link.cpp:213-223 | the three entry steps directly precede every RT run, requests apart |
| ArmLinkRuns.EveryClearWasAsked | src/arm_link.cpp:91-112 | a taken clear was accepted earlier in the same faulted episode, and no other clear taken since |
| ArmLinkRuns.FaultsBalance | src/arm_link.cpp:70-76 | faults minus unlatchings is 0 or 1 |
| ArmLinkRuns.PendingMeansFaulted | src/arm_link.cpp:43-59 | a pending clear implies the faulted state |
| ArmLinkRuns.RequestAccounted | src/arm_link.cpp:43-59 | every accepted request is pending, taken and unanswered, or answered past the count it was made at |
| ArmLinkRuns.NextPublicationAnswers | src/arm_link.cpp:50-58 | leaving the faulted state answers every request of the episode |
| ArmLinkRuns.AnswersNeedRequests | src/arm_link.cpp:50-58 | answers plus outstanding requests never exceed the accepted requests |
| ArmLink.Link.SetState | src/arm_link.cpp:43-66 | publishes, drops a stale clear, answers a waiting one, and notifies on a change |
| ArmLink.Link.Latch | src/arm_link.cpp:70-76 | a second failure while latched is the same fault |
| ArmLink.Link.RequestClear | src/arm_link.cpp:91-96 | accepted exactly while faulted |
| ArmLink.Link.WaitFaulted | src/arm_link.cpp:105-132 | Clear exactly when it took a pending request, Lost exactly when enough health polls in a row went unanswered, Stop only on the stop flag |
| ArmLink.Link.FaultPersists | src/arm_link.cpp:136-146 | Gone only after the arm reported no fault; Persists only with the clear sent, none but faulted answers since, and the stop flag or the deadline read |
| ArmLink.Link.SitOutFault | src/arm_link.cpp:199-212 | unlatches only after a whole clear |
| ArmLink.Link.Serve | src/arm_link.cpp:213-224 | the RT loop is entered from low level, POSITION and Running |
| ArmLink.Link.LoseLink | src/arm_link.cpp:162-168 | a loss while commanding latches, one before just retries |
| ArmLink.Link.TryConnect | src/arm_link.cpp:171-195 | a successful connect after the first counts as a reconnect; any other ends in a shutdown |
| Circle.WrapToPi | include/kinova_lowlevel/units.h:8-12 | the two loops terminate and give the one congruent angle in the half-open turn |
| Circle.Wrap | include/kinova_lowlevel/units.h:8-12 | in (-pi, pi], and whole turns away |
| Circle.WrapUnique | include/kinova_lowlevel/units.h:8-12 | no other angle there is congruent |
| Circle.WrapIsShortest | src/joint_position_mode.cpp:196-199 | wrapping a difference takes the short way round |
| PositionReference.StepJoint | src/joint_position_mode.cpp:185-220 | for any feedback the command is inside the limits, or in the half-open turn |
| PositionReference.StepShrinks | src/joint_position_mode.cpp:185-220 | one cycle of a tracking arm, any limits: it takes exactly the step due iff the final guard spares where that leads, and the way left shrinks by exactly min(way, rate step, leash) iff it does so or holds the reference as far beyond the target |
| PositionReference.GuardBites | src/joint_position_mode.cpp:217-219 | with limits inside the turn there is no such coincidence: the way shrinks by that much iff the step leads inside the limits |
| PositionReference.JumpsBack | src/joint_position_mode.cpp:213-219 | limits [2, 4], from 3 to 3.5: one cycle allowed 0.3 goes a whole radian the other way |
| PositionReference.CommandInRange | src/joint_position_mode.cpp:213-219 | for any feedback a command is in the turn and inside the limits, or the one limit nearest the turn when the limits miss it altogether |
| PositionRuns.WayShrinks | src/joint_position_mode.cpp:185-220 | over any run on a clear way: what is left is the initial short way less the budget, and all travel went into it |
| PositionRuns.LandsExactly | src/joint_position_mode.cpp:185-220 | on a clear way the reference lands exactly iff the budget allows it, having travelled exactly the initial short way |
| PositionRuns.LandsIff | src/joint_position_mode.cpp:185-220 | a continuous joint with any software limits and any cycles has landed iff its goal is inside them and either the way stays on the turn and the budget suffices, or some cycle carries it past the end of the turn and the rest suffices |
| PositionRuns.LandsSomeDayIff | src/joint_position_mode.cpp:185-220 | at a steady rate it lands some day iff its goal is inside the limits and either the way stays on the turn or one cycle carries it from the limit past the end of the turn |
| PositionRuns.NeverLands | src/joint_position_mode.cpp:192-219 | until a cycle carries it over, a reference whose way crosses the end of the turn stands exactly at its budget or its limit, short of the goal |
| PositionRuns.CarriedOver | src/joint_position_mode.cpp:206-219 | the first cycle to carry it over leaves it at a place known in advance, on a clear way |
| PositionRuns.StuckAtTheLimit | src/joint_position_mode.cpp:217-219 | limits +-3, from 2.9 to -2.9, cycles of at most 0.1: under 0.6 rad away, and held between 2.9 and 3 however long it runs |
| PositionRuns.LeashHolds | src/joint_position_mode.cpp:203-215 | before the final guard, for any feedback, the reference leads the measurement by exactly the clamped lead, so by at most the leash |
| PositionRuns.LeashHoldsInRangeIff | src/joint_position_mode.cpp:203-219 | for an arm in range the command is within the leash of it, the short way, if and only if the wrap and the guard do not throw the leashed reference back to a limit out of the leash's reach; and the guard brings it no further from the arm if and only if they do not throw it back further than the lead |
| PositionRuns.LeashHoldsIff | src/joint_position_mode.cpp:203-219 | for any feedback: if and only if the limit the guard holds the reference at, if any, is within the leash of the arm |
| PositionRuns.PastTheLeash | src/joint_position_mode.cpp:213-219 | limits [2, 4], arm at 3.1, target 3.5, leash 0.35: a lead of 0.3 becomes a command 1.1 the other way |
| PositionRuns.PastTheLeashAcross | src/joint_position_mode.cpp:213-219 | limits +-3, arm at 2.9, target -2.9, leash 0.35: a lead of 0.3 becomes a command past the leash on the far side of the gap |
| PositionRuns.FirstCycle | src/joint_position_mode.cpp:80-93 | entered anywhere, the reference is in range after one cycle and the run goes on from there; on a joint that does not turn that cycle moves it by what is due or by all it was outside, whichever is more |
| PositionRuns.LandsFromAnywhereIff | src/joint_position_mode.cpp:185-220 | a continuous joint with any software limits, entered anywhere, lands if and only if the run can from where its first cycle leaves it |
| StreamModes.FollowJoint | src/joint_position_mode.cpp:185-220 | the loop body, in its order, is the step function |
| StreamModes.JointPositionMode.Compute | src/joint_position_mode.cpp:95-220 | a stale cycle restarts reference and target from the measurement; a pose is solved for and its fault kept as the step function has it, a faulted cycle heads for the measurement; every joint takes its step |
| StreamModes.JointPositionMode.OnEnter | src/joint_position_mode.cpp:80-93 | holds the measurement and drops any earlier target and fault |
| PoseFault.FaultIsSustained | src/joint_position_mode.cpp:143-174 | at any moment of any run, with clears landing anywhere, the fault is up if and only if consecutive solves of one stretch of pose cycles missed for the limit, and neither a clear nor a new stretch has come since |
| PoseFault.SeedPersists | src/joint_position_mode.cpp:128-162 | a stretch's first solve starts from the reference, each later one from what the last solve found, across stale cycles too |
| PoseFault.NextSessionIsCleanIff | src/joint_position_mode.cpp:143-152 | a faulted session's successor starts as after an entry if a cycle went by another source in between; if its own first cycle is no fault, that fault is gone only then |
| PoseFault.FaultOfTheSessionBefore | include/kinova_lowlevel/joint_position_mode.h:105-111 | a run in which the clear lands in a computing cycle, and the next session's first, converging cycle is faulted |
| VelocityReference.RunRefinesLine | include/kinova_lowlevel/velocity_reference.h:31-50 | the leash sees the real line's leads in every cycle if and only if they all stay in the half-open turn, and then the wrapped reference is the line's modulo a turn |
| VelocityReference.StepRefinesLine | include/kinova_lowlevel/velocity_reference.h:41-46 | the code sees the line's lead if and only if that lead is in the half-open turn |
| VelocityReference.SmallSlipsStayShort | include/kinova_lowlevel/velocity_reference.h:38-43 | the lead stays short if no cycle slips by what the leash leaves of the half turn, and never exceeds the leash |
| VelocityReference.IntegrateLeashedReference | include/kinova_lowlevel/velocity_reference.h:31-50 | the in-place loop equals the step per joint |
| VelocityReference.ScaleIsGreatest | include/kinova_lowlevel/velocity_reference.h:58-64 | the scale is the greatest in [0, 1] that meets every cap |
| VelocityReference.LimitJointVelocity | include/kinova_lowlevel/velocity_reference.h:58-66 | one common scale, every cap met, so the final clamp never bites |
| StreamModes.JointVelocityMode.Compute | src/joint_velocity_mode.cpp:100-140 | a payload is adopted on fresh cycles only, by its own source; the command is the limited, slowed rates or solved twist; frozen means zero velocity and a reference restarted from the measurement |
| StreamModes.JointVelocityMode.Command | src/joint_velocity_mode.cpp:130-134 | the limited, slowed command keeps every cap |
| StreamModes.FrozenTracksMeasured | src/joint_velocity_mode.cpp:113-118 | a frozen cycle commands the measurement, as far as the limits allow |
| FloatMode.FloatRefinesLine | src/float_mode.cpp:46-61 | over a whole float session on a continuous joint every spring error is the real line's if and only if each of the line's is in the half-open turn or cut off by the band on the same side, and then the anchor is the line's modulo a turn |
| FloatMode.StepRefinesLine | src/float_mode.cpp:46-61 | the code sees the line's error if and only if that is in the half-open turn; its spring error is the line's if and only if the band hides the difference |
| FloatMode.SmallTurnsStayShort | src/float_mode.cpp:50-61 | the line's error stays in the half-open turn when no cycle turns the arm by what the band leaves of the half turn |
| FloatMode.AnchorFollows | src/float_mode.cpp:50-61 | the anchor is never further from the arm than the band |
| FloatMode.Float | src/float_mode.cpp:50-61 | the spring error is within the band and the anchor in the half-open turn |
| FloatMode.FloatController.Drag | src/float_mode.cpp:50-61 | the in-place loop equals the step per joint |
| FloatMode.FloatController.OnEnter | src/float_mode.cpp:44 | the anchor starts at the measurement |
| CommandFreezeRuns.FreezeLasts | src/joint_impedance_mode.cpp:103-109 | in every interleaving a stale cycle freezes every later one until a fresh command or an entry: disarming resurrects nothing, the reference holds |
| CommandFreezeRuns.FrozenHasCause | src/joint_velocity_mode.cpp:106-110 | frozen only with a stale cycle behind it and nothing fresh since |
| CommandFreezeRuns.NothingOldIsActedOn | src/joint_velocity_mode.cpp:119-129 | a cycle acts only on commands made after the last entry; one that sees a new count acts on that command or a later one |
| CommandFreezeRuns.ActsOnLastSeenIffSourceStays | src/joint_velocity_mode.cpp:119-129 | between fresh cycles velocity mode acts on the command last seen if and only if the source is still that command's |
| CommandFreezeRuns.SupersededCommandResurfaces | src/joint_velocity_mode.cpp:66-72 | a run in which, with a setter between its source store and its bump, however many cycles land there have each seen command 2 and act on command 1 |
| CommandFreezeRuns.InvAlways | src/joint_impedance_mode.cpp:50-64 | every state of every interleaving of setters, arming, entry and compute keeps the slots, the counter and the latch consistent |
| CommandWatchdog.StaleIsElapsed | include/kinova_lowlevel/command_watchdog.h:40-51 | stale exactly when the time since the last fresh tick has come to an armed timeout |
| CommandWatchdog.CommandWatchdog.Tick | include/kinova_lowlevel/command_watchdog.h:40-51 | fresh exactly when the counter moved |
| CommandWatchdog.CommandWatchdog.Reset | include/kinova_lowlevel/command_watchdog.h:33-37 | entry adopts the count without treating it as fresh |
| CommandWatchdog.CommandWatchdog.Bump | include/kinova_lowlevel/command_watchdog.h:29 | one more command |
| CommandWatchdog.CommandWatchdog.Arm | include/kinova_lowlevel/command_watchdog.h:24 | only the timeout changes |
| StreamModes.JointImpedanceMode.Reference | src/joint_impedance_mode.cpp:82-181 | frozen, the reference is held exactly and nothing is fed forward; otherwise it is slewed to what the target resolves to, and a profile's rate is fed forward within the rate limit, its acceleration only beside a rate |
| StreamModes.JointImpedanceMode.Watch | src/joint_impedance_mode.cpp:103-109 | only a fresh command releases the freeze; a stale cycle freezes at the measurement |
| StreamModes.SlewIsShort | src/joint_impedance_mode.cpp:154-159 | a slewed reference moves by at most its travel, the short way, and arrives when it can |
| Trajectory.ValidTimestamps | src/interface/trajectory_executor.cpp:89-95 | true iff every stamp is finite and each gap at least 10 ns |
| Trajectory.SampleIsOnSegment | src/interface/trajectory_executor.cpp:37-46 | strictly inside the span the search finds the segment t is in, and it is never an empty one |
| Trajectory.KnotsAgree | src/interface/trajectory_executor.cpp:53-87 | at an interior knot both segments and the sample are the waypoint, in every derivative the plan carries |
| Trajectory.OnCurve | src/interface/trajectory_executor.cpp:57-86 | the reported q, qd and qdd are one curve's value, slope and bend in time |
| Trajectory.SampleHasDerivatives | src/interface/trajectory_executor.cpp:57-86 | from t to t + h in one segment the sample moves along its own qd, and qd along its own qdd, but for h^2 times a polynomial in h: the exact time derivatives |
| Trajectory.PlansAreReproduced | src/interface/trajectory_executor.cpp:48-86 | waypoints taken from a polynomial of degree 5, 3 or 1, by what the plan carries, give it back with its derivatives |
| Hermite.RateIsDerivative | src/interface/trajectory_executor.cpp:67-72 | a position that follows a curve in the segment's unit has its slope over the span as exact time derivative |
| Hermite.AccelerationIsDerivative | src/interface/trajectory_executor.cpp:83-85 | and that rate has the bend over the span squared |
| Hermite.QuinticReproduces | src/interface/trajectory_executor.cpp:75-86 | a quintic segment through a polynomial's waypoints is the polynomial |
| Hermite.CubicReproduces | src/interface/trajectory_executor.cpp:59-73 | the cubic, for degree three |
| Hermite.QuinticUnique | src/interface/trajectory_executor.cpp:80-82 | a polynomial of degree five is the quintic of its own ends |
| Polynomial.EvalInUnit | src/interface/trajectory_executor.cpp:47 | rescaling a segment to the unit loses nothing |
| TrajectoryExecutor.EffectiveScale | include/kinova_lowlevel/interface/trajectory_executor.h:93-101 | within [0.01, 1], the slower of the two when both are, and a non-finite request is none |
| TrajectoryExecutor.SlewClosesGap | include/kinova_lowlevel/interface/trajectory_executor.h:82-87 | the scale closes its gap at exactly the slew rate of forward time and never overshoots |
| TrajectoryExecutor.Executor.Submit | src/interface/trajectory_executor.cpp:97-126 | the verdict the supervisor relies on, and a refused goal changes nothing |
| TrajectoryExecutor.Executor.Tick | src/interface/trajectory_executor.cpp:128-186 | the clock, the published reference, the guard and the completion, as one function of the old state |
| TrajectoryExecutor.Executor.Guard | src/interface/trajectory_executor.cpp:159-179 | trips iff some guarded joint is further off than its tolerance, folded on continuous joints only |
| TrajectoryExecutorRuns.ClockWithinWall | src/interface/trajectory_executor.cpp:132-145 | for any stamps and overrides the clock is between 0.01 and the goal's scale times the forward wall time |
| TrajectoryExecutorRuns.ClockNeverGoesBack | src/interface/trajectory_executor.cpp:143-145 | trajectory time never decreases, even when the wall clock does |
| TrajectoryExecutorRuns.EveryReferenceOnCurve | src/interface/trajectory_executor.cpp:146-156 | every published reference is on the goal's own curve at the dilated time |
| TrajectoryExecutorRuns.GoalCompletes | src/interface/trajectory_executor.cpp:181-184 | without a guard trip the goal completes by duration / 0.01 of forward wall time, with the last waypoint at rest published |
| TrajectoryExecutorRuns.CompletionIsAtTheEnd | src/interface/trajectory_executor.cpp:33-36 | the completing tick publishes exactly the final waypoint, zero qd and qdd |
| TrajectoryExecutorRuns.EndedStays | src/interface/trajectory_executor.cpp:130 | an ended goal publishes nothing more |
| SampleRingRuns.PopsAreAcceptedPushes | src/telemetry.cpp:18-39 | in every interleaving: pops are the accepted pushes in order, pushes are accepted or dropped, no slot is read while written |
| SampleRingRuns.InvAlways | src/telemetry.cpp:18-39 | every reachable state keeps the buffer between tail and head whole |
| SampleRing.MaskIsModulo | src/telemetry.cpp:15-16 | masking with a power of two less one is the remainder |
| SampleRing.RoundUpPow2 | src/telemetry.cpp:7-12 | the least power of two that is at least 2 and n |
| SampleRing.Ring.Push | src/telemetry.cpp:18-28 | appends, or counts a drop exactly when full |
| SampleRing.Ring.Pop | src/telemetry.cpp:30-39 | takes the oldest, or nothing exactly when empty |
| Seqlock.LoadIsWhole | include/kinova_lowlevel/feedback_tap.h:35-45 | a load that returns true has one whole value, current throughout, unless 2^31 stores fell in one attempt |
| Seqlock.LoadIsWholeIff | include/kinova_lowlevel/feedback_tap.h:35-45 | a load returns the value current when its last try began, whole, if and only if no store of the attempt had reached a word when that word was copied |
| Seqlock.TornAfterWrap | include/kinova_lowlevel/feedback_tap.h:48 | for any multiple of 2^31 stores inside one attempt, a run whose load returns true with a word of each value |
| Seqlock.InvAlways | include/kinova_lowlevel/feedback_tap.h:24-45 | every interleaving of word writes and word reads keeps the copy whole while the counter stands |
| Seqlock.Lock.Store | include/kinova_lowlevel/feedback_tap.h:24-31 | the value is replaced and the counter moves by two modulo 2^32 |
| Seqlock.Lock.Load | include/kinova_lowlevel/feedback_tap.h:35-45 | returns the stored value at the first stable try of sixteen, and fails iff there is none |
| StreamingSession.Session.OpenFor | src/interface/streaming_session.cpp:23-38 | opened iff closed before, with a positive timeout, for a supported pair |
| StreamingSession.Session.CloseNow | src/interface/streaming_session.cpp:40-42 | closed, whatever came before |
| StreamingSession.Session.Admit | src/interface/streaming_session.cpp:44-51 | let through iff it is of the open session's kind; every other one is counted as refused |
| StreamingSession.Session.Expired | src/interface/streaming_session.cpp:53-57 | over any history: silent for longer than the running session's timeout since its last sign of life, never when closed |
| StreamingSession.RefusalsDoNotProlong | src/interface/streaming_session.cpp:44-51 | a refused setpoint or open request neither opens nor prolongs a session |

## Left out

- The transport: sockets, routing, cyclic pumping and pacing system calls. An exchange or a call is a reply, a timeout or another exception, chosen freely.
- Scheduling, memory locking, telemetry timing fields, CSV and console output, and the applications.
- Rigid-body and inverse-kinematics solves: mass matrix, Coriolis, gravity, Jacobian, damped least squares and the solve of a pose are inputs or absent; so are the modes' torque laws past the reference.
- Floating-point rounding and C++ memory orders. Non-finite numbers appear where the code tests for them: samples, time stamps and scales.
- Strings: reasons, owner ids, log text, and the link's fault_reason_.
- Gains and contact-profile validators, which are one-branch facts: in the supervision machine their verdicts are free choices, and so is a session's expiry.
- The trajectory check of on_stream_open (in_flight_) is a free choice, so nothing is claimed about a stream excluding a running trajectory.
- contact_mtx_ is not modelled, which only adds interleavings; the gripper's release and the speed override have no step of their own.
- The state pump, the snapshot reads behind q_meas, and publish_feedback.
- Overlapping grants interleave freely; nothing is claimed about who owns the arm between them.
- JointTorqueMode. It does not latch staleness.
- Buffer slots in CommandFreeze are read and written in one step: tearing by two writes inside one read is not modelled.
- RtExecutor.Run: ends when the script of cycles does, as the stop flag would end it; listener and mode exceptions are not modelled.
- SampleRing.RoundUpPow2: does not model the shift's overflow for a capacity above 2^63, and head and tail do not wrap at 2^64.
- Seqlock.Lock.Load: the reader's counter loads are its input; what they can be against a writer is the step machine's matter.
- Trajectory.Sample: asks for stamps in order, as the search it models does; submit refuses any other trajectory.
- SupervisionTheorems.HaltHolds: speaks of what the sampler's halts and ticks write; the joint targets that a closing stream, a streamed setpoint or the compliant-velocity step write are not modelled.
