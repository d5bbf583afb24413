/**
  The whole simulation build: the control loop of main.c around foc_step, the
  simulated motor it drives, and the command thread between its passes.
 */
module ClosedLoop {
  import opened Numeric
  import opened Transforms
  import opened PidControl
  import opened Foc
  import opened FocSafety
  import opened Supervisor
  import opened SupervisorSafety
  import opened Simulator
  import opened SimTransforms
  import opened MachineEnvelope
  import ControlLaws
  import Histories

  datatype Bench = Bench(world: World, sim: SimState)

  /** A pass of the control loop, a change of load torque, the start of a command,
      or the command thread's next action. */
  datatype BenchEvent = Pass | Load(torque: real) | Order(cmd: Supervisor.Command) | Act

  /** One pass of the control loop: measure, control, drive the motor for one period.
      The pass that ends an alignment resets the encoder, which is the simulator. */
  function LoopPass(m: Libm, b: Bench): Bench {
    var w := Apply(m, b.world, Tick(Reading(m, b.sim)));
    var s := if b.world.ctx.state.Aligning? && w.ctx.state.Running? then b.sim.Reset() else b.sim;
    Bench(w, s.WithVoltages(w.ctx.v).Step(CONTROL_DT, m.twoPi))
  }

  function React(m: Libm, b: Bench, e: BenchEvent): Bench {
    match e
    case Pass => LoopPass(m, b)
    case Load(torque) => b.(sim := b.sim.WithLoad(torque))
    case Order(cmd) => b.(world := Apply(m, b.world, Begin(cmd)))
    case Act => b.(world := Apply(m, b.world, Advance(b.sim.omega)))
  }

  function RunBench(m: Libm, b: Bench, es: seq<BenchEvent>): Bench {
    if es == [] then b else React(m, RunBench(m, b, es[..|es| - 1]), es[|es| - 1])
  }

  function BootBench(m: Libm, vbus: Positive, machine: SimState): Bench {
    Bench(Boot(m, vbus), machine.Reset())
  }

  // ----------------------------------------------------- control and angles

  ghost predicate BenchInv(m: Libm, vbus: Positive, b: Bench) {
    Inv(m, b.world) && b.world.ctx.vbus == vbus && AnglesAgree(m, b.sim)
  }

  lemma WorldMoves(m: Libm, vbus: Positive, w: World, e: Event)
    requires m.Lawful() && Inv(m, w) && w.ctx.vbus == vbus
    ensures Inv(m, Apply(m, w, e)) && Apply(m, w, e).ctx.vbus == vbus
  {
    hide *;
    ApplyKeepsInv(m, w, e);
    Histories.ApplyKeepsBus(m, w, e);
  }

  lemma PassKeepsAngles(m: Libm, s: SimState, v: Dq, restart: bool)
    requires AnglesAgree(m, s)
    ensures AnglesAgree(m, (if restart then s.Reset() else s).WithVoltages(v).Step(CONTROL_DT, m.twoPi))
  {
    hide SimState.Step;
    ResetAgrees(m, s);
    var r := if restart then s.Reset() else s;
    assert AnglesAgree(m, r.WithVoltages(v));
    StepKeepsAngles(m, r.WithVoltages(v), CONTROL_DT);
  }

  lemma ReactKeepsInv(m: Libm, vbus: Positive, b: Bench, e: BenchEvent)
    requires m.Lawful() && BenchInv(m, vbus, b)
    ensures BenchInv(m, vbus, React(m, b, e))
  {
    hide Inv, Apply, SimState.Step, m.Lawful, Reading;
    match e
    case Pass =>
      var w := Apply(m, b.world, Tick(Reading(m, b.sim)));
      WorldMoves(m, vbus, b.world, Tick(Reading(m, b.sim)));
      PassKeepsAngles(m, b.sim, w.ctx.v, b.world.ctx.state.Aligning? && w.ctx.state.Running?);
    case Load(torque) =>
    case Order(cmd) => WorldMoves(m, vbus, b.world, Begin(cmd));
    case Act => WorldMoves(m, vbus, b.world, Advance(b.sim.omega));
  }

  /** Supervisor invariant and agreement of the two simulated angles, after every bench history. */
  lemma {:induction false} BenchAlways(m: Libm, vbus: Positive, machine: SimState, es: seq<BenchEvent>)
    requires m.Lawful() && Feasible(m, vbus)
    ensures BenchInv(m, vbus, RunBench(m, BootBench(m, vbus, machine), es))
  {
    if es == [] {
      BootIsSafe(m, vbus);
      ResetAgrees(m, machine);
      hide Inv;
    } else {
      var last := |es| - 1;
      hide Inv, React, BenchInv;
      BenchAlways(m, vbus, machine, es[..last]);
      ReactKeepsInv(m, vbus, RunBench(m, BootBench(m, vbus, machine), es[..last]), es[last]);
    }
  }

  /** Every pass hands the motor a voltage that the bus can produce. */
  lemma PassVoltageFitsBus(m: Libm, vbus: Positive, b: Bench)
    requires m.Lawful() && BenchInv(m, vbus, b)
    ensures 3.0 * Norm2(LoopPass(m, b).sim.v) <= vbus * vbus
  {
    hide Apply, Norm2, Reading, m.Lawful, LimitsOk, RefsOk, ThreadOk, SimState.CurrentAfter, SimState.OmegaAfter;
    WorldMoves(m, vbus, b.world, Tick(Reading(m, b.sim)));
  }

  /** A closed-loop pass that does not trip regulates the simulated current itself,
      turned back by one period of rotation and unchanged in length. */
  lemma PassMeasuresCurrent(m: Libm, b: Bench)
    requires m.Lawful()
    requires b.world.ctx.state.Running? && LoopPass(m, b).world.ctx.state.Running?
    ensures var i := LoopPass(m, b).world.ctx.iDq;
            && i == Ahead(m, b.sim.i, Turn(b.sim, CONTROL_DT))
            && Norm2(i) == Norm2(b.sim.i)
  {
    hide *;
    var c, x := b.world.ctx, Reading(m, b.sim);
    PassIsStep(m, b);
    Histories.StaysRunning(m, c, x);
    StepMeasures(m, c, x);
    SimCurrentAtAdvancedAngle(m, c, b.sim);
    AheadKeepsNorm(m, b.sim.i, Turn(b.sim, CONTROL_DT));
  }

  /** A pass records the simulated shaft: its unwrapped angle as position, its speed in rpm, and the
      simulated phase currents. */
  lemma PassReadsShaft(m: Libm, b: Bench)
    ensures var n := LoopPass(m, b).world.ctx;
            && n.posMeas == b.sim.thetaUnwrapped && n.speedRpm * m.twoPi == 60.0 * b.sim.omega
            && n.omegaE == 7.0 * b.sim.omega && n.i.a == b.sim.Ia(m) && n.i.b == b.sim.Ib(m)
  {
    PassIsStep(m, b);
    ControlLaws.StepRecords(m, b.world.ctx, Reading(m, b.sim));
    hide Step, LoopPass, SimState.Ia, SimState.Ib;
  }

  lemma PassIsStep(m: Libm, b: Bench)
    ensures LoopPass(m, b).world.ctx == Step(m, b.world.ctx, Reading(m, b.sim))
  {
    hide Step, Reading, SimState.Step;
  }

  lemma StepMeasures(m: Libm, c: Ctx, x: TickInput)
    requires c.state.Running? && !Overcurrent(Abc(x.ia, x.ib, -(x.ia + x.ib)))
    ensures Step(m, c, x).iDq == Measured(m, Sampled(m, c, x)).iDq
  {
    hide WrapAngle, AdvancedAngle, ParkAt, Clarke;
  }

  // ------------------------------------------------- bounded whole system

  /** The load never exceeds what the envelope allows for. */
  predicate LoadsWithin(es: seq<BenchEvent>, torque: real) {
    forall k :: 0 <= k < |es| && es[k].Load? ==> Abs(es[k].torque) <= torque
  }

  predicate InEnvelope(b: Bench, e: Envelope, full: real) {
    Sustains(b.sim, e, full) && Contained(b.sim, e)
  }

  lemma WithinFullVoltage(m: Libm, vbus: Positive, v: Dq)
    requires m.Lawful() && 3.0 * Norm2(v) <= vbus * vbus
    ensures var full := FullVoltage(m, vbus); 0.0 <= full && Norm2(v) <= full * full
  {
  }

  lemma RestStaysIn(s: SimState, e: Envelope, full: real, restart: bool, v: Dq)
    requires Sustains(s, e, full) && Contained(s, e)
    ensures var r := (if restart then s.Reset() else s).WithVoltages(v);
            Sustains(r, e, full) && Contained(r, e) && r.v == v
  {
    hide Sustains, Norm2, Kinetic, Magnetic;
    SustainsIsStatic(s, (if restart then s.Reset() else s).WithVoltages(v), e, full);
    RestHasNoEnergy(s, e);
  }

  lemma RestIsIn(machine: SimState, e: Envelope, full: real)
    requires Sustains(machine, e, full) && Abs(machine.load) <= e.torque
    ensures Sustains(machine.Reset(), e, full) && Contained(machine.Reset(), e)
  {
    hide Sustains, Norm2, Kinetic, Magnetic;
    SustainsIsStatic(machine, machine.Reset(), e, full);
    RestHasNoEnergy(machine, e);
  }

  lemma RestHasNoEnergy(s: SimState, e: Envelope)
    ensures Norm2(s.Reset().i) <= e.current * e.current && Energy(s.Reset()) <= Kinetic(s.j, e.omega)
  {
    SquareNonNegative(e.current);
    SquareNonNegative(e.omega);
    MulMonotone(0.0, e.omega * e.omega, s.j);
  }

  lemma SquareNonNegative(x: real)
    ensures x * x >= 0.0
  {
    if x >= 0.0 {
      MulMonotone(0.0, x, x);
    } else {
      MulMonotone(0.0, -x, -x);
    }
  }

  lemma PassStaysIn(m: Libm, vbus: Positive, b: Bench, e: Envelope)
    requires m.Lawful() && BenchInv(m, vbus, b) && InEnvelope(b, e, FullVoltage(m, vbus))
    ensures InEnvelope(LoopPass(m, b), e, FullVoltage(m, vbus))
  {
    hide Apply, Norm2, Reading, m.Lawful, Inv, Sustains, Contained, SimState.Step, FullVoltage;
    var full := FullVoltage(m, vbus);
    PassVoltageFitsBus(m, vbus, b);
    var w := Apply(m, b.world, Tick(Reading(m, b.sim)));
    WithinFullVoltage(m, vbus, LoopPass(m, b).sim.v);
    StepKeepsVoltage(m, b);
    RestStaysIn(b.sim, e, full, b.world.ctx.state.Aligning? && w.ctx.state.Running?, w.ctx.v);
    StepStaysIn(m, DrivenMotor(m, b), e, full);
  }

  /** The motor as a pass leaves it just before its step. */
  function DrivenMotor(m: Libm, b: Bench): SimState {
    var w := Apply(m, b.world, Tick(Reading(m, b.sim)));
    (if b.world.ctx.state.Aligning? && w.ctx.state.Running? then b.sim.Reset() else b.sim).WithVoltages(w.ctx.v)
  }

  lemma StepKeepsVoltage(m: Libm, b: Bench)
    ensures LoopPass(m, b).sim == DrivenMotor(m, b).Step(CONTROL_DT, m.twoPi)
    ensures LoopPass(m, b).sim.v == DrivenMotor(m, b).v
  {
    hide Apply, Reading, SimState.CurrentAfter, SimState.OmegaAfter, WrapAngle;
  }

  lemma LoadStaysIn(s: SimState, e: Envelope, full: real, torque: real)
    requires Sustains(s, e, full) && Contained(s, e) && Abs(torque) <= e.torque
    ensures Sustains(s.WithLoad(torque), e, full) && Contained(s.WithLoad(torque), e)
  {
    hide Sustains, Norm2, Kinetic, Magnetic;
    SustainsIsStatic(s, s.WithLoad(torque), e, full);
  }

  lemma ReactStaysIn(m: Libm, vbus: Positive, b: Bench, e: BenchEvent, env: Envelope)
    requires m.Lawful() && BenchInv(m, vbus, b) && InEnvelope(b, env, FullVoltage(m, vbus))
    requires e.Load? ==> Abs(e.torque) <= env.torque
    ensures InEnvelope(React(m, b, e), env, FullVoltage(m, vbus))
  {
    hide BenchInv, LoopPass, Apply, Sustains, Contained, FullVoltage;
    match e
    case Pass => PassStaysIn(m, vbus, b, env);
    case Load(torque) => LoadStaysIn(b.sim, env, FullVoltage(m, vbus), torque);
    case Order(_) =>
    case Act =>
  }

  /** Controller, commands and motor together, over every history: if the machine sustains an
      envelope at full bus voltage, current and speed never leave it. */
  lemma {:induction false} BenchStaysInEnvelope(m: Libm, vbus: Positive, machine: SimState,
                                                es: seq<BenchEvent>, env: Envelope)
    requires m.Lawful() && Feasible(m, vbus)
    requires Sustains(machine, env, FullVoltage(m, vbus)) && Abs(machine.load) <= env.torque
    requires LoadsWithin(es, env.torque)
    ensures InEnvelope(RunBench(m, BootBench(m, vbus, machine), es), env, FullVoltage(m, vbus))
  {
    if es == [] {
      hide Sustains, Contained, FullVoltage, Boot;
      RestIsIn(machine, env, FullVoltage(m, vbus));
    } else {
      hide React, InEnvelope, Sustains, m.Lawful, FullVoltage, Feasible, BenchInv;
      var last := |es| - 1;
      BenchStaysInEnvelope(m, vbus, machine, es[..last], env);
      BenchAlways(m, vbus, machine, es[..last]);
      ReactStaysIn(m, vbus, RunBench(m, BootBench(m, vbus, machine), es[..last]), es[last], env);
    }
  }

  lemma SmallCurrentDoesNotTrip(m: Libm, s: SimState, env: Envelope)
    requires m.Lawful() && 0.0 <= env.current <= MAX_CURRENT_A && Contained(s, env)
    ensures var x := Reading(m, s); !Overcurrent(Abc(x.ia, x.ib, -(x.ia + x.ib)))
  {
    PhasesWithinVector(m, s, env.current);
    hide SimState.Ia, SimState.Ib, Norm2;
  }

  lemma NoTripNoError(m: Libm, c: Ctx, x: TickInput)
    requires !c.state.Error? && !Overcurrent(Abc(x.ia, x.ib, -(x.ia + x.ib)))
    ensures !Step(m, c, x).state.Error?
  {
    hide WrapAngle, Overcurrent, FeedForward, PidState.Output, PidState.Updated, Clamps, ClampFactor, Scale, Add;
    hide Svpwm, ParkAt, InvParkAt, Clarke, AdvancedAngle, AlignAngle;
  }

  /** An envelope within the trip level keeps the controller out of ERROR for ever. */
  lemma {:induction false} SmallEnvelopeNeverTrips(m: Libm, vbus: Positive, machine: SimState,
                                                   es: seq<BenchEvent>, env: Envelope)
    requires m.Lawful() && Feasible(m, vbus)
    requires Sustains(machine, env, FullVoltage(m, vbus)) && Abs(machine.load) <= env.torque
    requires LoadsWithin(es, env.torque) && env.current <= MAX_CURRENT_A
    ensures !RunBench(m, BootBench(m, vbus, machine), es).world.ctx.state.Error?
  {
    hide React, m.Lawful, FullVoltage, Feasible, Sustains;
    if es != [] {
      var last := |es| - 1;
      var b := RunBench(m, BootBench(m, vbus, machine), es[..last]);
      SmallEnvelopeNeverTrips(m, vbus, machine, es[..last], env);
      BenchStaysInEnvelope(m, vbus, machine, es[..last], env);
      BenchAlways(m, vbus, machine, es[..last]);
      ReactDoesNotTrip(m, vbus, b, es[last], env);
    }
  }

  lemma ReactDoesNotTrip(m: Libm, vbus: Positive, b: Bench, e: BenchEvent, env: Envelope)
    requires m.Lawful() && BenchInv(m, vbus, b) && InEnvelope(b, env, FullVoltage(m, vbus))
    requires env.current <= MAX_CURRENT_A && !b.world.ctx.state.Error?
    ensures !React(m, b, e).world.ctx.state.Error?
  {
    hide Apply, Step, Contained, Norm2, Reading, m.Lawful, Inv, Overcurrent, SimState.Step;
    match e
    case Pass =>
      SmallCurrentDoesNotTrip(m, b.sim, env);
      NoTripNoError(m, b.world.ctx, Reading(m, b.sim));
      PassIsStep(m, b);
    case Load(_) =>
    case Order(cmd) => Histories.EventMoves(m, b.world, Begin(cmd));
    case Act => Histories.EventMoves(m, b.world, Advance(b.sim.omega));
  }

  // ------------------------------------------------- the default machine

  lemma FullVoltageBelow(m: Libm, vbus: Positive, most: real)
    requires m.Lawful() && vbus <= most * 1.732 && 0.0 <= most
    ensures 0.0 <= FullVoltage(m, vbus) <= most
  {
    FullVoltageFits(m, vbus);
    RootOfThree(m.sqrt3);
    MulMonotone(1.732, m.sqrt3, most);
    hide FullVoltage;
    ScaledOrder(FullVoltage(m, vbus), most, m.sqrt3);
  }

  lemma RootOfThree(r3: Positive)
    requires r3 * r3 == 3.0
    ensures r3 >= 1.732
  {
    SquareOrder(1.732, r3, 1.732 * 1.732, 3.0);
  }

  /** The motor that sim_init builds, on the firmware's 10 V bus: whatever is commanded, and for every
      load up to 0.1 N m, no more than 45 A and 100 rad/s, for ever. */
  lemma DefaultMachineIsBounded(m: Libm, vbus: Positive, es: seq<BenchEvent>)
    requires m.Lawful() && Feasible(m, vbus) && vbus <= 10.0 && LoadsWithin(es, 0.1)
    ensures var s := RunBench(m, BootBench(m, vbus, INITIAL), es).sim;
            Norm2(s.i) <= 45.0 * 45.0 && Abs(s.omega) <= 100.0
  {
    hide RunBench, BootBench, Sustains, Feasible, FullVoltage, m.Lawful, Norm2;
    FullVoltageBelow(m, vbus, 5.774);
    DefaultMachine(FullVoltage(m, vbus));
    BenchStaysInEnvelope(m, vbus, INITIAL, es, TEN_VOLT_ENVELOPE);
    SpeedWithin(RunBench(m, BootBench(m, vbus, INITIAL), es).sim, TEN_VOLT_ENVELOPE);
  }

  /** On a 2 V bus it never trips the controller. */
  lemma DefaultMachineNeverTrips(m: Libm, vbus: Positive, es: seq<BenchEvent>)
    requires m.Lawful() && Feasible(m, vbus) && vbus <= 2.0 && LoadsWithin(es, 0.02)
    ensures !RunBench(m, BootBench(m, vbus, INITIAL), es).world.ctx.state.Error?
  {
    hide RunBench, BootBench, Sustains, Feasible, FullVoltage, m.Lawful;
    FullVoltageBelow(m, vbus, 1.2);
    DefaultMachineGently(FullVoltage(m, vbus));
    SmallEnvelopeNeverTrips(m, vbus, INITIAL, es, TWO_VOLT_ENVELOPE);
  }
}
