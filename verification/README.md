# Field-oriented motor controller: model and proofs

A field-oriented controller for a three-phase motor: current, speed and position
loops, an alignment sweep, an encoder, a PWM modulator, a motor simulator and a
command interface that works on the running controller. This project models them
in Dafny and proves what they keep, step by step and over whole histories.

Run `dafny verify dfyconfig.toml` to verify everything.

## How the model is built

- Every float is a mathematical real. The library values the code relies on
  (cosine, sine, square root, the constants for one turn and for the square root
  of three) travel in a record `Libm`; what is known of them is the predicate
  `Lawful`, a hypothesis of the theorems that need it. Nothing is assumed globally.
- Code that computes (`Transforms`) is functions. Code that updates structures is
  classes: `Pid`, `FocContext`, `Encoder`, `Timers`, `Simulator`, `Board` (the
  command handlers), `ControlThread` and `SimThread` (the control loop). Each
  method is proved against a function on values, and the theorems are about those
  functions.
- The command thread and the control thread interleave. `Supervisor` is the
  transition system of both; a history is any sequence of control ticks, starts of
  commands and actions of the command thread. `Board` runs the handlers
  themselves, with arbitrary ticks between any two actions, and shows that each
  follows that system.
- Unsigned and signed 32-bit counters wrap explicitly, the C remainder truncates.

| file | models |
|---|---|
| `Numeric`, `Transforms` | real arithmetic, fmodf, libm; Clarke, Park, space-vector modulation |
| `Pid` | the PI controller and its anti-windup over runs |
| `Foc`, `FocContext` | the control step and setters, on values and in place |
| `FocSafety`, `Alignment` | what a step keeps and applies; the sweep |
| `ControlLaws` | what a step does in terms of its input: records, which way the loops act, ramps at a held speed |
| `Windup`, `MotorWindup`, `WindupHistories`, `RestartHistories`, `DefaultTuning` | the integrators over runs of ticks, for one motor and over histories; the default gains |
| `Encoder`, `EncoderLaws` | multi-turn position, angle and velocity; what they are of the shaft |
| `Pwm` | compare values, the voltage of a leg, and the ADC wait |
| `Simulator`, `SimulatorLaws`, `SimTransforms`, `MachineEnvelope` | the simulated motor, the equations it solves, its transforms against the controller's, and its stored energy |
| `Supervisor`, `SupervisorSafety`, `Histories`, `Board` | commands between control ticks |
| `CommandLaws`, `Verdicts` | what each command means for the steps after it; when the MOSFET test passes a vector |
| `ControlLoop`, `ClosedLoop`, `HandOver` | the control thread; controller, commands and simulated motor together; the voltage handed to the motor |
| `Decoupling`, `FlowingBenches` | what the feed-forward leaves of the motor's coupling, and a bench with current |

## What was found

- **Integrators can wind up without bound.** Take any tuning with non-negative gains,
  any start, and runs of the current loop with the code's own vector clamp: some level
  bounds both integrators over all of them exactly when the feed-forward on each axis
  fits the PI output limit (`LevelExistsIff`). Beyond it the back-calculation itself
  drives an integrator away. A history that does so: from power-up with the default
  motor, enable, align, `set_torque 0`, `set_vmax 0.3`, and the rotor coasting at
  -100 rad/s (`DefaultMotorWindsUp`). It also happens with motor constants and speed
  held fixed and a feed-forward below output and vector limit together
  (`MotorWindsUp`, `SimulatedConstantsWindUp`). Up to 3140 rad/s the default motor on
  10 V stays within 6.4 (`DefaultMotorBound`).
- **Saturation does not always end on the first reversed error.** However small the
  errors are kept, it does on every run exactly when `ki * dt <= kp` (`RecoveryIff`).
  The default speed and position loops meet this; the default current loop, 91 * 0.0002
  against 0.008, does not, clamp and back-calculation included (`CurrentLoopSticks`,
  `OuterLoopsRecover`).
- **The position integrator survives a trip.** Entry to closed loop clears the
  speed integrator and not the position one (`src/foc/foc.c:217-226`), so position
  mode restarts with what the trip left in it (`PositionIntegratorSurvives`), as after
  align, `set_pos 1`, one tick, a trip and enable (`RestartsStale`).
- **The overcurrent check covers two phases.** The comment above it
  (`src/foc/foc.c:116-120`) speaks of ia, ib and ic; the code checks ia and ib, and the
  model follows the code. 5 A in both is 10 A in the third and does not trip
  (`ThirdPhaseEscapes`); after a step that did not trip all three are within 8 A exactly
  when |ia + ib| <= 8 (`UntrippedPhasesIff`). What is guaranteed is 16 A for the whole
  vector (`NoTripBoundsCurrent`), and 8 A in both phases attains it (`UntrippedBoundIsTight`).
- **The wait for the ADC sample point** ends exactly when the compare value lies in
  1 .. ARR (`WaitEndsIff`). Every call of `motor_set_pwm` establishes that.
- **Feed-forward does not decouple the axes while current flows.** It works on the
  current at the advanced angle, which is the motor's own turned back by one period.
  For any constants of the controller and within the voltage limit, a pass decouples
  the axes exactly at one balanced current, unless the speeds cancel (`DecoupledIff`). With matching constants,
  between 100 and 4000 rad/s, that is when no current flows or a period is a whole
  number of turns (`DecoupledAtSpeedIff`); the voltage left over has the squared length
  (omega_e L)^2 * 2 (1 - cos(omega_e dt)) * |i|^2 (`LeftoverLength`).
- **The default simulated motor cannot run away.** On the firmware's 10 V bus, whatever
  is commanded and for loads up to 0.1 N m, it never exceeds 45 A and 100 rad/s
  (`DefaultMachineIsBounded`); on a 2 V bus it never trips the controller
  (`DefaultMachineNeverTrips`). Its back-EMF and torque exchange energy exactly, because
  sim_step takes the torque from the current after the step (`EnergyBalance`).
- The int32 position counter is exact until it overflows (`CounterExactIff`); the
  angle and the counter still agree afterwards.
- **The simulated motor does not get what the duties apply, except in closed loop.** The
  loop hands over vd, vq of the context in every state. In the motor's own frame this is
  what the duties apply (`HandsOverIff`): in closed loop always, in the frame one period
  on; in IDLE, ERROR and on a trip exactly when vd and vq are zero; with forced duties
  exactly when they happen to apply the voltage left in the context; in ALIGNING exactly
  when the rotor stands at the field, and on the last tick. So the simulated rotor never
  sees the alignment sweep (`FirstAlignmentPass`), and after enable, one pass and disable
  it keeps being driven with 0.5 V while the legs are neutral (`DisabledStillDriven`).
- README and header give 10 kHz, 500 ms of alignment, a 24 V bus and a two-phase
  sweep; the code has 5 kHz, 1500 ms, 10 V and three phases. The model has the
  code's figures, with the bus voltage a parameter.

## Model

| member | source | states |
|---|---|---|
| Numeric.WrapRemovesWholePeriods | src/foc/foc.c:160-163 | fmodf followed by one conditional addition lands in [0, period) and removes exactly the whole periods below the angle, for every real |
| Numeric.Libm.WrapKeepsTrig | src/foc/foc.c:160-163 | wrapping an angle changes neither its cosine nor its sine |
| Transforms.ParkRoundTrip | src/foc/foc.c:33-54 | Park and inverse Park undo each other in both directions |
| Transforms.RotationKeepsDot | src/foc/foc.c:33-54 | voltage and current turned by one shared angle keep their inner product |
| Transforms.ClarkeOfInverse | src/foc/foc.c:23-27 | Clarke recovers the stationary vector from two of the three inverse-Clarke phases |
| Transforms.InverseOfClarke | src/foc/foc.c:64-67 | inverse Clarke of measured balanced currents is ia, ib and -(ia + ib) |
| Transforms.InjectionFits | src/foc/foc.c:69-83 | the injected phase voltages fit the bridge without clamping exactly when the spread of the three phases is at most the bus voltage |
| Transforms.InjectionIsOptimal | src/foc/foc.c:61-91 | if any common offset would fit all three duties in [0, 1], the one chosen does, and the line-to-line voltages are unchanged |
| Transforms.LinesKeptIff | src/foc/foc.c:61-91 | all line-to-line voltages survive modulation and clamp exactly when the phase spread is at most the bus voltage |
| Transforms.DutiesAreCentred | src/foc/foc.c:61-91 | largest plus smallest duty is 1 for every input, clamped or not |
| Transforms.CircleFitsBus | src/foc/foc.c:64-76 | a vector no longer than vbus/sqrt(3) spreads the phases by at most the bus voltage |
| Transforms.LinesApplyVector | src/foc/foc.c:61-91 | duties that keep the lines of a vector apply exactly that vector across a star-connected motor |
| Transforms.LinesCarryPower | src/foc/foc.c:23-91 | such duties draw from the bus, with balanced currents, exactly 1.5 (vd id + vq iq) |
| Transforms.TwoPhasesBoundVector | src/foc/foc.c:121-126 | two measured phases within a limit bound the whole current vector by twice the limit |
| PidControl.Pid.Init | src/foc/pid.c:5-12 | gains and limits are set, the integrator is cleared |
| PidControl.Pid.Update | src/foc/pid.c:19-42 | in-place update: clamped output, and integration unless the error drives the output further into the limit it is beyond |
| PidControl.IntegratorStaysNearLimits | src/foc/pid.c:30-39 | over every run with errors up to E the integrator stays within max(0, ki dt - kp) E of the output limits |
| PidControl.OvershootIsAttained | src/foc/pid.c:30-39 | that margin is attained, so none smaller bounds every run |
| PidControl.GentleStaysWithin | src/foc/pid.c:30-39 | with ki dt <= kp the integrator never leaves the output limits |
| PidControl.RecoveryIff | src/foc/pid.c:30-39 | with errors kept within any bound, however small, the output leaves its limit on the first error that points inward after every run, exactly when ki dt <= kp |
| PidControl.SteepSticks | src/foc/pid.c:30-39 | with ki dt > kp, a run of errors within any bound pins the output against a reversed error within it |
| DefaultTuning.QuietRun | src/foc/foc.c:280-323 | over runs at standstill without d-axis error the current loop, clamp included, is its q controller alone |
| DefaultTuning.CurrentLoopSticks | src/foc/foc.h:40-43 | the current loop as initialised, with its vector clamp, is pinned on a limit against a reversed error after a run with errors of any size, on any bus |
| DefaultTuning.OuterLoopsRecover | src/foc/foc.h:45-66 | the speed and position loops as initialised recover on every run |
| FocContext.FocContext.Step | src/foc/foc.c:150-329 | foc_step in place, all five states, equals the control step on values, whose laws are the rows of ControlLaws; reports the call that ends an alignment |
| FocContext.FocContext.CheckOvercurrent | src/foc/foc.c:121-135 | trips exactly when a measured phase exceeds 8 A: counter, state and duties change, nothing else |
| FocContext.FocContext.Align | src/foc/foc.c:183-234 | one tick of the open-loop sweep, and the entry to closed loop when the countdown ends |
| FocContext.FocContext.RunCurrentLoops | src/foc/foc.c:280-323 | PI updates, feed-forward, vector clamp and back-calculation into both integrators |
| FocContext.FocContext.Reset | src/foc/foc.c:137-146 | idle, neutral duties, all four integrators and the torque reference cleared; nothing else |
| FocContext.FocContext.Enable | src/foc/foc.c:333-346 | starts a 7500-tick alignment from IDLE or ERROR only; disabling resets |
| FocContext.FocContext.SetMode | src/foc/foc.c:348-353 | a mode change clears the speed and position integrators |
| FocContext.FocContext.SetSpeedRef | src/foc/foc.c:355-363 | the reference is clamped to 5000 rpm either way |
| FocContext.FocContext.SetTorqueRef | src/foc/foc.c:365-373 | the reference is clamped to 8 A either way |
| FocContext.FocContext.TuneCurrentPid | src/foc/foc.c:375-381 | new gains, limits back at vbus/sqrt(3), integrators cleared |
| FocContext.FocContext.TuneSpeedPid | src/foc/foc.c:383-387 | new gains, the 3 A limit kept, integrator cleared |
| FocContext.FocContext.TunePosPid | src/foc/foc.c:389-394 | new gains under the speed cap in force |
| FocContext.FocContext.SetVlim | src/foc/foc.c:401-411 | a limit out of (0, vbus/sqrt(3)] becomes the full range; both current controllers are restarted with it |
| FocContext.FocContext.SetForcedDuty | src/foc/foc.c:413-419 | duties are held and the state becomes FORCED |
| FocContext.FocContext.constructor | src/foc/foc.c:95-114 | foc_init: IDLE, limits at vbus/sqrt(3), default gains and limits, everything else zero |
| FocSafety.ClampedVector | src/foc/foc.c:316-323 | the clamp shortens exactly the vectors longer than vlim, to length vlim, along their own ray |
| FocSafety.RunningStepClamps | src/foc/foc.c:280-323 | a closed-loop step outputs the loop's command, shortened on its own ray to at most vlim and untouched if it already is |
| FocSafety.RunningStepIsExact | src/foc/foc.c:250-328 | after every non-tripping closed-loop step no duty clamp fires, the duties times vbus transform back to exactly (vd, vq), and bus power is 1.5 (vd id + vq iq) |
| FocSafety.AligningStepIsExact | src/foc/foc.c:203-212 | every alignment step applies exactly 0.5 V along the sweep angle, at conserved power |
| FocSafety.NoTripBoundsCurrent | src/foc/foc.c:121-135 | after a step that does not trip, id^2 + iq^2 <= 16^2 at every angle |
| FocSafety.UntrippedBoundIsTight | src/foc/foc.c:121-135 | 8 A in both measured phases do not trip and are a vector of exactly 16 A at every angle |
| FocSafety.TripCoversPhasesIff | src/foc/foc.c:116-126 | a sample that some phase exceeds trips, exactly unless both measured phases are within the limit and their sum is not |
| FocSafety.UntrippedPhasesIff | src/foc/foc.c:121-135 | after a step that did not trip all three phases are within 8 A exactly when the sum of the measured two is |
| FocSafety.ThirdPhaseEscapes | src/foc/foc.c:116-126 | ia = ib = 5 A leaves the state as it was with 10 A in phase C |
| FocSafety.StepKeepsSafe | src/foc/foc.c:150-329 | every control step keeps the invariant: limits, references, countdown, duties in [0, 1], voltage within vbus/sqrt(3) |
| ControlLaws.StepRecords | src/foc/foc.c:153-168 | every step, in any state, records its position, 60 omega / 2 pi as rpm, seven times the mechanical speed and wrapped angle, the two currents and the third that balances them, and one more pass |
| ControlLaws.PassesAreCounted | src/foc/foc.c:153 | loop_count after any run is the number of passes, modulo 2^32 |
| ControlLaws.UpdateObeysPiLaw | src/foc/pid.c:19-42 | one update over 0.2 ms is the PI law: clamped sum of proportional part and integrator; the integrator gathers ki e dt within the limits and towards them, and stays on an error that drives further into one |
| ControlLaws.PositionStep | src/foc/foc.c:266-271 | in position mode the speed reference and position integrator of a closed-loop step follow the PI law for target less measured position |
| ControlLaws.PositionActsTowardsTarget | src/foc/foc.c:266-271 | from a cleared integrator the speed reference has the sign of target less position, and is zero only at the target |
| ControlLaws.SpeedStep | src/foc/foc.c:273-278 | in speed and position mode the torque reference and speed integrator follow the PI law for reference less measured rpm |
| ControlLaws.SpeedFromRest | src/foc/foc.c:273-278 | from a cleared integrator iq_ref is kp (speed_ref - 60 omega / 2 pi) clamped to 3 A |
| ControlLaws.TorqueStep | src/foc/foc.c:266-278 | in torque mode references and outer controllers stay as they are |
| ControlLaws.SpeedRamp | src/foc/foc.c:273-278 | at any held speed, over any run from a cleared integrator, iq_ref is exactly the proportional share plus one integral share per earlier tick, clamped to 3 A |
| ControlLaws.SpeedRampRises | src/foc/foc.c:273-278 | held at or below the reference, iq_ref never decreases |
| ControlLaws.SpeedRampReachesLimit | src/foc/foc.c:273-278 | held below it with ki > 0, iq_ref reaches 3 A after finitely many ticks and stays |
| ControlLaws.FadeLaw | src/foc/foc.c:293-300 | the speed used by the feed-forward in every range: 0 up to 50 rad/s, w (abs(w) - 50)/50 to 100, w to 4000, then 4000 with its sign |
| ControlLaws.CurrentStep | src/foc/foc.c:280-323 | each axis is driven by its PI law towards its reference plus -w L iq or w (L id + psi), and its integrator is charged with what the clamp took from that axis |
| ControlLaws.StoredVector | src/foc/foc.c:325-328 | the stationary vector stored, turned back by the advanced angle, is the (vd, vq) reported |
| Alignment.PhaseLengths | src/foc/foc.c:183-201 | an alignment spends 1875, 3750 and 1875 ticks in its three phases |
| Alignment.SweepIsGentle | src/foc/foc.c:189-201 | the angle runs from pi/2 to 0, never turns back and moves at most (pi/2)/3750 per tick |
| Alignment.AlignmentRun | src/foc/foc.c:214-228 | any 7500 ticks complete an alignment, no fewer do; closed loop starts with the d axis precharged at 0.5 V, the q-axis and speed integrators at 0 and the position integrator as it was |
| Alignment.AlignmentDrivesField | src/foc/foc.c:203-212 | tick number k of an alignment drives 0.5 V exactly along the angle of its countdown |
| Alignment.PositionIntegratorSurvives | src/foc/foc.c:214-228 | re-enabling after a trip reaches closed loop with the position integrator the trip left |
| RestartHistories.RestartsStale | src/foc/foc.c:214-228 | a history from power-up (align, `set_pos`, one tick, a trip, enable) ends in closed loop and position mode with the integrator of the tick before the trip |
| Windup.AxisKeepsLevel | src/foc/foc.c:280-323 | PI update, clamp factor and back-calculation together keep one axis's integrator level, for every error, feed-forward and factor in range |
| Windup.LoopIsTwoAxes | src/foc/foc.c:280-323 | a tick of the current loop is one tick of both axes under the one factor of its vector clamp |
| Windup.LoopTakesEveryInput | src/foc/foc.c:280-323 | and every tick of the axes is a tick of the current loop in some context: any errors and any feed-forward can occur |
| Windup.AdverseTick | src/foc/foc.c:308-322 | with feed-forward beyond the output limit, one tick at zero error moves the q integrator outward by at least (ff - limit)(1 - vlim/ff) |
| Windup.LevelExistsIff | src/foc/foc.c:280-323 | from any start, some level bounds both integrators over every run of the current loop, clamp and back-calculation included, exactly when the feed-forward on each axis fits the PI output limit |
| Windup.IntegratorsStayBounded | src/foc/foc.c:280-323 | over every run of ticks, through alignment, closed loop and trips, both integrators keep their level |
| Windup.IntegratorBound | src/foc/foc.c:226-323 | the level in closed form: the largest of M + max(0, ki dt - kp) 24, F + (kp + ki dt) 24 and the 0.5 precharge |
| Windup.IntegratorBoundAtAnySpeed | src/foc/foc.c:293-300 | where the feed-forward fits even at the speed clamp of 4000 rad/s, that level holds whatever the speed |
| DefaultTuning.DefaultMotorBound | src/foc/foc.c:95-114 | the default motor and tuning on 10 V: over every run of ticks up to 3140 rad/s after enabling, both integrators stay within 6.4 |
| WindupHistories.HistoriesStayBounded | src/foc/foc.c:280-411 | over every history of commands and ticks both integrators keep a level that covers the gains, limits and constants in force |
| Windup.WindupIsUnbounded | src/foc/foc.c:308-322 | coasting with feed-forward beyond output limit and clamp together, every level is exceeded after enough ticks |
| MotorWindup.MotorInputOf | src/foc/foc.c:293-306 | the inputs of one motor at one speed are those of the current loop with these constants and no error |
| MotorWindup.MotorWindsUp | src/foc/foc.c:308-322 | with constants and speed fixed, back-EMF beyond the output limit and a command always beyond the vector limit, every level is exceeded without any error |
| MotorWindup.SimulatedConstantsWindUp | src/foc/foc.c:308-322 | 1 mH, 20 mWb, 550 rad/s backwards and 8 A on a 10 V bus do so with 11 V of feed-forward |
| WindupHistories.DefaultMotorWindsUp | src/foc/foc.c:308-322 | a history from power-up with the default motor and tuning after which the closed loop still runs and its integrator exceeds any given level |
| Encoder.Encoder.Reset | src/motor/motor.c:512-533 | offset, counter and all 40 ring slots restart from the counter's value |
| Encoder.Encoder.Read | src/motor/motor.c:535-604 | in place: angle, velocity and position of one reading as functions of all readings since reset, with the ring holding the last 40 |
| Encoder.Encoder.Slide | src/motor/motor.c:586-599 | the ring slot replaced holds the reading 40 reads ago, and the slots still hold the last 40 readings afterwards |
| Encoder.RolloverExactIff | src/motor/motor.c:567-568 | the corrected difference of two wrapped counters is the true motion exactly when that is under half a period, or exactly half in the raw difference's direction |
| Encoder.CountsAreExact | src/motor/motor.c:564-572 | with under half a period between reads, accumulated counts are the true displacement after any number of reads and turns |
| Encoder.CounterExactIff | src/motor/motor.c:564-572 | the int32 counter holds the true displacement exactly while it fits an int32 |
| Encoder.CountsAreCongruent | src/motor/motor.c:564-572 | for every sequence of readings, however fast, counts agree with the raw difference modulo 61440 |
| Encoder.AngleAgreesWithPosition | src/motor/motor.c:551-580 | the position used for the angle lies in [0, 4096) and equals the int32 counter modulo 4096, for all readings and through overflow |
| Encoder.AngleIsPositionModTurn | src/motor/motor.c:574-580 | the angle returned lies in [0, 2 pi) and is the position returned less a whole number of turns |
| Encoder.WindowExactIff | src/motor/motor.c:586-599 | the velocity window shows the counter's own motion over 40 reads exactly when that is under half a period, or exactly half in the raw difference's direction |
| Encoder.VelocityIsTrueMotion | src/motor/motor.c:586-602 | the velocity delta is the shaft's true motion over the last 40 reads, from reset on |
| Encoder.VelocityIsAnglePerTime | src/motor/motor.c:598-602 | the velocity times the window's reads over the read rate is the angle of its delta |
| EncoderLaws.UnitsOfReadings | src/motor/motor.c:598-602 | 4096 counts are a turn, and a velocity times 0.008 s, which is 40 control periods, is the angle of its delta |
| EncoderLaws.PositionIsTrue | src/motor/motor.c:564-580 | the position returned is the shaft's motion since reset, against the counter's direction, in turns of 4096 counts, while it fits an int32 |
| EncoderLaws.AngleIsTrue | src/motor/motor.c:574-580 | the angle returned is the same motion modulo 4096 counts |
| EncoderLaws.VelocityIsTrue | src/motor/motor.c:586-602 | the velocity returned, times 8 ms, is the angle the shaft covered in the last 40 readings |
| EncoderLaws.VelocityAfterReset | src/motor/motor.c:512-602 | before 40 readings it is the motion since reset over 8 ms |
| EncoderLaws.VelocityIsPositionDifference | src/motor/motor.c:586-604 | at constant speed, 40 readings after reset, the velocity returned times one control period is the difference of successive returned positions |
| Pwm.Timers.SetPwm | src/motor/motor.c:627-636 | each compare value is its duty's share of the timer's counts, rounded down, and the sample point is in the middle of phase A's low window |
| Pwm.HighTicksBelowCompare | src/motor/motor.c:627-630 | of the counter values 0 .. ARR exactly the compare value many lie below it |
| Pwm.RealisedLegFollows | src/motor/motor.c:627-630 | a leg's mean voltage over one counter cycle is vbus times its duty, less at most vbus/counts |
| Pwm.SamplePointReachable | src/motor/motor.c:627-636 | for every duty in [0, 1] and ARR >= 2, 0 < CCR4 <= ARR, and CCR3 <= CCR4 when phase A has a low window |
| Pwm.AwaitSample | src/motor/motor.c:370-375 | both busy waits end at the sample point, after an exact number of polls that is at most one period |
| Pwm.WaitEndsIff | src/motor/motor.c:370-375 | a counter cycling 0 .. ARR passes both conditions exactly when the sample point is in 1 .. ARR |
| Simulator.Simulator.Step | src/sim/sim.c:69-95 | sim_step in place: Euler step of both currents from the old ones, then speed, then both angles |
| Simulator.Simulator.Reset | src/sim/sim.c:40-45 | currents, speed, both angles and voltages are cleared; parameters and load stay |
| Simulator.StepIsRotation | src/sim/sim.c:74-80 | the electrical step is an exact scaled rotation of the current plus the drive voltage scaled by dt/L |
| Simulator.CurrentIsBounded | src/sim/sim.c:74-80 | with contraction rho < 1 and drive at most U at every step, the current never exceeds max(initial, (dt/L) U/(1 - rho)) |
| Simulator.StepKeepsAngles | src/sim/sim.c:86-94 | a step keeps the wrapped angle in [0, 2 pi) and congruent to the unwrapped one |
| Simulator.AnglesAgreeOnRuns | src/sim/sim.c:86-94 | and so does every run |
| SimulatorLaws.ElectricalEquations | src/sim/sim.c:74-80 | L times the change of each current is dt times the voltage applied, less resistance, with cross-coupling at seven times the speed and the flux against q |
| SimulatorLaws.MechanicalEquation | src/sim/sim.c:82-85 | J times the change of speed is dt times 1.5 * 7 psi iq (the current after the step) less friction and load |
| SimulatorLaws.AngleEquation | src/sim/sim.c:87-94 | the rotor turns by dt times the speed after the step, and the wrapped angle is that modulo a turn |
| SimulatorLaws.AngleIsIntegratedSpeed | src/sim/sim.c:87-94 | over every run the unwrapped angle is the start plus dt times the sum of the speeds after each step |
| SimulatorLaws.RotorArrivesAtAdvancedAngle | src/foc/foc.c:259-262 | at constant speed the rotor arrives, modulo 2 pi, at the electrical angle the controller advanced to on the tick before |
| SimulatorLaws.DriveIsSeen | src/sim/sim.c:47-67 | voltages and load set before a step are what the step sees; currents, speed and angles stay |
| SimulatorLaws.ResetIsRest | src/sim/sim.c:40-45 | a reset is rest at angle zero with the same parameters and load |
| SimulatorLaws.DefaultTimeConstants | src/sim/sim.c:24-38 | the machine of sim_init: 0.5 ohm, 2 ms electrically, 2 s mechanically, at rest without load |
| SimTransforms.SimCurrentRoundTrip | src/sim/sim.c:97-112 | Clarke then Park of the simulated phases at the controller's wrapped electrical angle returns exactly (id, iq) |
| SimTransforms.SimCurrentAtAdvancedAngle | src/foc/foc.c:259-264 | at the advanced angle of closed loop it returns (id, iq) turned by minus one period of rotation |
| SimTransforms.PhasesWithinVector | src/sim/sim.c:97-112 | no simulated phase carries more than the length of the current vector |
| MachineEnvelope.PowerMatches | src/sim/sim.c:77-84 | in one period the back-EMF takes from the windings exactly the work of the motor torque on the shaft |
| MachineEnvelope.EnergyBalance | src/sim/sim.c:69-88 | the stored energy after a step, exactly: current without back-EMF, less what braking costs, plus kinetic energy and friction; the exchange cancels |
| MachineEnvelope.EnergyStaysIn | src/sim/sim.c:69-88 | resistance and friction at full energy outweigh bus and load, so the stored energy stays below that of the top speed |
| MachineEnvelope.StepStaysIn | src/sim/sim.c:69-95 | if the machine's parameters sustain an envelope of current and energy, one step under any voltage up to the bus limit stays in it |
| MachineEnvelope.DefaultMachine | src/sim/sim.c:24-38 | the machine of sim_init sustains 45 A and 100 rad/s on a 10 V bus with loads up to 0.1 N m |
| MachineEnvelope.DefaultMachineGently | src/sim/sim.c:24-38 | and 8 A and 18 rad/s on a 2 V bus with loads up to 0.02 N m |
| Decoupling.FadeIsExactIff | src/foc/foc.c:293-300 | clamp and fade leave the speed unchanged exactly at 0 and for magnitudes in [100, 4000] rad/s |
| Decoupling.CouplingLeft | src/foc/foc.c:280-323 | the inductor voltages of a closed-loop pass, for any constants of the controller, are exactly PI voltage less resistance, plus feed-forward at the faded speed for the measured current less the motor's coupling, less what the vector clamp took |
| Decoupling.NothingCutIff | src/foc/foc.c:316-320 | the clamp takes nothing from a pass exactly when its command is within vlim |
| Decoupling.NothingLeftIff | src/foc/foc.c:293-303 | feed-forward with any constants cancels the coupling exactly at one balanced current, given in closed form by speed and constants, or where its rotation vanishes and no back-EMF is left |
| Decoupling.MatchedCancelsIff | src/foc/foc.c:293-303 | with matching constants: exactly at standstill, at an unfaded speed without current or in whole turns per period, or at the one balanced current of a faded speed |
| Decoupling.DecoupledIff | src/foc/foc.c:259-306 | a closed-loop pass within the voltage limit leaves each axis its PI voltage less resistance exactly under that condition, whatever constants the controller has |
| Decoupling.DecoupledAtSpeedIff | src/foc/foc.c:259-306 | with matching constants between 100 and 4000 rad/s this is exactly when the measured current is the motor's own: no current, or a period of whole turns |
| Decoupling.DecoupledUnderClampIff | src/foc/foc.c:259-323 | with the clamp in view, exactly when what is left of the coupling equals what the clamp took |
| Decoupling.LeftoverLength | src/foc/foc.c:259-306 | at unfaded speed the voltage left has squared length (omega_e L)^2 * 2 (1 - cos(omega_e dt)) times the squared current |
| FlowingBenches.FlowingBenchQualifies | src/main.c:51-68 | a bench on 100 V at 700 rad/s with 1 A meets every hypothesis of these conditions |
| FlowingBenches.FlowingBenchIsCoupled | src/foc/foc.c:259-306 | and its axes are decoupled only if 0.14 rad had cosine 1 |
| Supervisor.TickEffect | src/foc/foc.c:150-248 | which states a tick can lead to, and that only a trip is counted |
| SupervisorSafety.TestStepKeepsInv | src/interface/cmd.c:54-163 | every step of the MOSFET test keeps the invariant, whatever ticks came between |
| SupervisorSafety.VectorDrivesOnePair | src/interface/cmd.c:63-80 | each vector raises one phase, lowers another and leaves the third neutral, with vlim across the pair, and expects the signs it drives |
| SupervisorSafety.VectorsCoverTheBridge | src/interface/cmd.c:73-80 | the six vectors are six different ordered pairs of phases |
| Verdicts.VerdictIff | src/interface/cmd.c:132-147 | the verdict on a vector is whether the mean currents of its five samples exceed 0.10 A in the phase driven above neutral and fall below -0.10 A in the one driven below it, the third phase balancing the measured two |
| Verdicts.HealthyPasses | src/interface/cmd.c:102-147 | from any context, a vector whose currents never trip and always follow the driven pair passes |
| Verdicts.ReversedFails | src/interface/cmd.c:102-147 | one whose currents always run against it fails |
| SupervisorSafety.ScriptsAreDisciplined | src/interface/cmd.c:178-280 | every command raises the gate before it drives and lowers it only when idle |
| SupervisorSafety.ApplyKeepsInv | src/interface/cmd.c:169-286 | ticks, starts of commands and actions of commands all keep the supervisor invariant |
| SupervisorSafety.InvAlways | src/interface/cmd.c:169-286 | the invariant holds after every history from power-up |
| Histories.LimitsAlwaysHold | src/foc/foc.c:355-419 | after every history: 0 < vlim <= PI limit <= vbus/sqrt(3), all PI limits symmetric (3 A, 500 rpm), references clamped, duties in [0, 1], voltage within vbus/sqrt(3) |
| Histories.GateLowMeansIdle | src/interface/cmd.c:178-280 | after every history the gate pin is low only in IDLE, and calibration runs only there |
| Histories.MosfetTestEnds | src/interface/cmd.c:54-163 | a started test ends idle, gate low, with six verdicts, whatever trips occur, once its thread has performed the actions it has left |
| Histories.AligningHistory | src/foc/foc.c:333-342 | an alignment in progress goes back uninterrupted to its enabling action; its ticks and its countdown add up to 7500 |
| Histories.RunningHistory | src/foc/foc.c:214-228 | the latest entry to RUNNING follows exactly 7500 ticks of uninterrupted alignment since the enabling action |
| Histories.TripsAreCounted | src/foc/foc.c:125-128 | overcurrent_count is the number of entries to ERROR, modulo 2^32 |
| Histories.ErrorIsLatched | src/foc/foc.c:236-240 | ERROR is entered only by a tick and left by none |
| Histories.RunningTicksAreExact | src/foc/foc.c:250-328 | in every history, every closed-loop tick applies exactly the voltage it reports, within vlim, at conserved power |
| CommandLaws.CommandRuns | src/interface/cmd.c:178-280 | the contexts of the laws below are where the transition system takes an idle command thread when no tick comes between |
| CommandLaws.SetSpeedLaw | src/interface/cmd.c:189-193 | speed mode; the next step calls for kp (ref - rpm) within 3 A, ref within 5000 rpm, whatever the speed integrator held |
| CommandLaws.SetTorqueLaw | src/interface/cmd.c:195-199 | torque mode; the reference, within 8 A, stands over every run that does not trip |
| CommandLaws.SetPosLaw | src/interface/cmd.c:259-266 | position mode; the next step calls for kp times target less position in radians, within 500 rpm, and for torque towards that speed |
| CommandLaws.SetPidSpeedLaw | src/interface/cmd.c:254-257 | the next step follows the PI law with the new gains from a cleared integrator |
| CommandLaws.SetPidPosLaw | src/interface/cmd.c:268-271 | likewise for the position loop |
| CommandLaws.SetPidCurrentLaw | src/interface/cmd.c:201-204 | both axes restart with the new gains and limits whose product with sqrt(3) is the bus voltage |
| CommandLaws.SetMotorParamsLaw | src/interface/cmd.c:242-252 | the next step's command is PI output plus the coupling of the new constants, inductance in millihenry |
| CommandLaws.SetVmaxLaw | src/interface/cmd.c:230-237 | a limit within the linear range bounds the next step's voltage and both PI outputs; any other means the full range |
| CommandLaws.ForceDutyLaw | src/interface/cmd.c:212-228 | each duty within [0, 1] stands over every run that does not trip |
| CommandLaws.DisableLaw | src/interface/cmd.c:184-187 | idle at neutral duties over every run; exactly what is cleared and what stays |
| CommandLaws.EnableLaw | src/interface/cmd.c:178-182 | an idle or tripped controller starts the 7500-tick alignment, any other is left alone |
| CommandLaws.BootLaw | src/foc/foc.c:95-114 | power-up: idle in speed mode, default gains, limits and motor constants as figures, every other field zero |
| Board.Board.EnableMotor | src/interface/cmd.c:178-182 | gate first, then enable, with ticks around both, as a path of the transition system |
| Board.Board.DisableMotor | src/interface/cmd.c:184-187 | disable first, then gate off |
| Board.Board.SetSpeed | src/interface/cmd.c:189-193 | mode first, then reference |
| Board.Board.SetTorque | src/interface/cmd.c:195-199 | mode first, then reference |
| Board.Board.SetPos | src/interface/cmd.c:259-266 | degrees converted, mode first, then reference |
| Board.Board.SetPidCurrent | src/interface/cmd.c:201-204 | new current gains, full limits and cleared integrators on whatever the ticks before it left |
| Board.Board.SetPidSpeed | src/interface/cmd.c:254-257 | new speed gains on whatever the ticks before it left; gate and report unchanged |
| Board.Board.SetPidPos | src/interface/cmd.c:268-271 | new position gains on whatever the ticks before it left; gate and report unchanged |
| Board.Board.SetMotorParams | src/interface/cmd.c:242-252 | inductance, then flux, with ticks between: a tick can see the new one with the old other |
| Board.Board.SetVmax | src/interface/cmd.c:230-237 | foc_set_vlim on whatever the ticks before it left; gate and report unchanged |
| Board.Board.ForceDuty | src/interface/cmd.c:212-230 | duties clamped to [0, 1], gate first, then FORCED |
| Board.Board.Calibrate | src/interface/cmd.c:273-280 | accepted exactly when the gate is off, and then the controller is idle, whatever ticks pass meanwhile |
| Board.Board.TestOneVector | src/interface/cmd.c:105-157 | one vector of the MOSFET test: drive, up to five samples cut short by a trip, neutral, verdict; it passes exactly when no sample finds a trip and the mean currents follow the duties driven |
| Board.Board.RunMosfetTest | src/interface/cmd.c:54-163 | the test as written, with its loops: refused exactly in RUNNING and ALIGNING; otherwise idle at the end, gate low, pass + fail = 6, whatever ticks come between its actions; six passes if all currents follow the driven pairs, none if all run against them |
| Board.Board.Dispatch | src/interface/cmd.c:169-286 | every command follows the transition system from one idle point of its thread to the next, so every theorem on histories applies to the handlers |
| ControlLoop.ControlThread.Pass | src/main.c:51-64 | one pass on the hardware: the wait ends, the encoder and controller take one step, the duties written make the next wait end too, and each leg's mean voltage is within vbus/counts of vbus times its duty |
| ControlLoop.StepFollowsShaft | src/main.c:51-60 | what a pass hands to foc_step and what that records of a shaft: position, wrapped angle and rpm of the true motion, and the currents as measured |
| ControlLoop.SimThread.Pass | src/main.c:51-68 | one pass of a simulation build is one pass of the closed loop on values |
| ClosedLoop.BenchAlways | src/main.c:51-68 | controller invariant and agreement of the simulated angles after every history of passes, loads and commands |
| ClosedLoop.PassVoltageFitsBus | src/motor/motor.c:643-647 | every pass hands the simulated motor a voltage of at most vbus/sqrt(3), in every state |
| ClosedLoop.PassMeasuresCurrent | src/main.c:51-68 | a closed-loop pass regulates the simulated current itself, turned by one period of rotation and unchanged in length |
| ClosedLoop.PassReadsShaft | src/main.c:51-68 | every pass records the simulated motor's unwrapped angle, speed in rpm and two phase currents |
| HandOver.HandsOverIff | src/main.c:62-68 | the voltage handed to the simulated motor is the one the duties apply in its frame exactly under a condition on the bench before the pass, for all five states |
| HandOver.RegulatedHandsOver | src/main.c:62-68 | in closed loop it always is, in the frame one period on |
| HandOver.AligningApplies | src/foc/foc.c:203-212 | in alignment the duties apply 0.5 V along the field and the motor gets 0.5 V along its rotor |
| HandOver.FirstAlignmentPass | src/motor/motor.c:643-647 | from power-up and enabled, the two are one only if a quarter turn had cosine 1 |
| HandOver.DisabledStillDriven | src/motor/motor.c:643-647 | enable, one pass, disable: the next pass applies nothing and hands over the alignment voltage |
| ClosedLoop.BenchStaysInEnvelope | src/main.c:51-68 | over every history of passes, loads and commands the motor stays in an envelope its parameters sustain at full bus voltage |
| ClosedLoop.SmallEnvelopeNeverTrips | src/main.c:51-68 | if that envelope is within 8 A the controller never enters ERROR |
| ClosedLoop.DefaultMachineIsBounded | src/sim/sim.c:24-38 | the motor of sim_init on a bus of up to 10 V: at most 45 A and 100 rad/s after every history with loads up to 0.1 N m |
| ClosedLoop.DefaultMachineNeverTrips | src/sim/sim.c:24-38 | on a bus of up to 2 V and loads up to 0.02 N m it never trips the controller |

## Left out

- IEEE rounding, NaN and infinities, the accuracy of sinf, cosf and sqrtf, and the truncation of the constants for one turn and for the square root of three.
- Preemption inside a foc_step or an encoder read, and two command threads at once: each call is one step, one command is in flight.
- Board.Board.RunMosfetTest: takes the speeds of its wait for standstill as given; the encoder reads behind them also push readings into the velocity ring that the control thread uses.
- FocContext.FocContext.Step: does not call motor_reset_encoder in the middle of the tick that ends an alignment; it reports that tick and the control loop resets the encoder after it.
- ADC and DMA registers, cache maintenance, the second sample and its 25 microsecond delay, timer set-up, GPIO and PWM drivers, the averaging of the calibration: hardware plumbing. An ADC error is a pass with zero currents.
- Board.Board.Calibrate: does not average samples or report a converter failure; the calibration is one pause of the command thread.
- ControlLoop.ControlThread.Pass: says nothing of the passes before the first duties are written, when CCR4 may be 0, takes a compare value as effective at once rather than at the next counter overflow, and takes the two measured currents as given.
- UDP, the shell, sscanf and its usage errors, response texts, `status` formatting and `reboot`.
- `sim_params` during a run: the closed-loop theorems hold one set of motor parameters fixed; `sim_info` only prints.
- ClosedLoop.BenchStaysInEnvelope: says nothing of a machine without friction, or one whose Euler step does not contract at the envelope's top speed: no envelope is sustained there.
- L = 0, J = 0 and vbus <= 0, where the source divides by zero.
- A bus below 0.5 sqrt(3) V, which cannot carry the alignment voltage: the invariant of the control step needs the bus above it.
- Convergence of the loops to their references, which depends on the motor.
- The scripts and the generated simulation build tree.
