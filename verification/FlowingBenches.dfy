/**
  A closed-loop bench with current flowing, to which the decoupling conditions apply.
 */
module FlowingBenches {
  import opened Numeric
  import opened Transforms
  import opened PidControl
  import opened Foc
  import opened FocSafety
  import opened Simulator
  import opened SimTransforms
  import opened SupervisorSafety
  import opened ClosedLoop
  import opened Decoupling
  import Supervisor

  /** A closed-loop bench on a 100 V bus whose controller knows the machine, turning at 700 rad/s with
      1 A on the q axis. */
  function FlowingBench(m: Libm): Bench {
    var c := Init(m, 100.0).(state := Running, mode := Torque, lMotor := 0.001, psiMotor := 0.02);
    Bench(Supervisor.World(c, true, Supervisor.Ready, Supervisor.NoReport),
          INITIAL.(i := Dq(0.0, 1.0), omega := 100.0))
  }

  lemma FlowingFacts(m: Libm)
    ensures var b := FlowingBench(m);
            && b.sim.i == Dq(0.0, 1.0) && b.sim.OmegaE() == 700.0 && Known(b) == TrueConstants(b.sim)
            && b.sim.i != Dq(0.0, 0.0) && 100.0 <= Abs(b.sim.OmegaE()) <= 4000.0
            && b.world.ctx.state.Running? && b.world.ctx.vlim == FullVoltage(m, 100.0)
            && Known(b) == Constants(0.001, 0.02)
  {
    hide FullVoltage;
  }

  lemma FlowingIsSafe(m: Libm)
    requires m.Lawful()
    ensures BenchInv(m, 100.0, FlowingBench(m))
  {
    RootWithin(m);
    BootIsSafe(m, 100.0);
    RestingAngles(m, FlowingBench(m).sim);
    hide FullVoltage, Norm2, m.Lawful, AnglesAgree, Feasible;
  }

  lemma RestingAngles(m: Libm, s: SimState)
    requires s.theta == 0.0 && s.thetaUnwrapped == 0.0
    ensures AnglesAgree(m, s)
  {
    assert s.thetaUnwrapped == m.Turned(s.theta, 0);
  }

  lemma RootWithin(m: Libm)
    requires m.Lawful()
    ensures Feasible(m, 100.0)
  {
    SquareOrder(m.sqrt3, 2.0, 3.0, 4.0);
  }

  lemma FlowingPass(m: Libm)
    requires m.Lawful()
    ensures ClosedPass(m, FlowingBench(m))
  {
    hide *;
    var b := FlowingBench(m);
    FlowingFacts(m);
    UnitLength(b.sim);
    PhasesWithinVector(m, b.sim, 1.0);
    SmallReading(m, b.sim);
    UntrippedSample(m, b.world.ctx, Reading(m, b.sim));
    StepStates(m, b.world.ctx, Reading(m, b.sim));
    PassIsStep(m, b);
    ClosedIs(m, b);
  }

  lemma UnitLength(s: SimState)
    requires s.i == Dq(0.0, 1.0)
    ensures Norm2(s.i) == 1.0 * 1.0
  {
  }

  lemma SmallReading(m: Libm, s: SimState)
    requires Abs(s.Ia(m)) <= 1.0 && Abs(s.Ib(m)) <= 1.0
    ensures var x := Reading(m, s); !Overcurrent(Abc(x.ia, x.ib, -(x.ia + x.ib)))
  {
    hide SimState.Ia, SimState.Ib;
  }

  lemma ClosedIs(m: Libm, b: Bench)
    ensures ClosedPass(m, b) <==> b.world.ctx.state.Running? && LoopPass(m, b).world.ctx.state.Running?
  {
  }

  /** Its PI outputs are small: zero integrators, and no more than 1 A of error on each axis. */
  lemma FlowingPi(m: Libm)
    requires m.Lawful() && Abs(Seen(m, FlowingBench(m).sim).d) <= 1.0 && Abs(Seen(m, FlowingBench(m).sim).q) <= 1.0
    ensures var v := PiVoltage(m, FlowingBench(m)); Abs(v.d) <= 0.008 && Abs(v.q) <= 0.008
  {
    var b := FlowingBench(m);
    SimCurrentAtAdvancedAngle(m, b.world.ctx, b.sim);
    SeenIs(m, b.sim);
    PreparedPids(m, b);
    FullVoltageFits(m, 100.0);
    FlowingPids(m);
    hide Seen, FullVoltage, Measured, Sampled, Reading, FlowingBench, m.Lawful, Prepared;
  }

  lemma PreparedPids(m: Libm, b: Bench)
    requires b.world.ctx.mode.Torque?
    ensures var d, c := Prepared(m, b), b.world.ctx;
            && d.pidId == c.pidId && d.pidIq == c.pidIq && d.idRef == c.idRef && d.iqRef == c.iqRef
            && d.iDq == Measured(m, Sampled(m, c, Reading(m, b.sim))).iDq
  {
    hide WrapAngle, ParkAt, Clarke, AdvancedAngle, SimState.Ia, SimState.Ib;
  }

  lemma FlowingPids(m: Libm)
    ensures var c := FlowingBench(m).world.ctx;
            && c.mode.Torque? && c.idRef == 0.0 && c.iqRef == 0.0
            && c.pidId == CurrentPid(0.008, 91.0, FullVoltage(m, 100.0)) && c.pidIq == c.pidId
  {
    hide FullVoltage;
  }

  /** The bench meets every hypothesis of the decoupling conditions with current flowing. */
  lemma FlowingBenchQualifies(m: Libm)
    requires m.Lawful()
    ensures var b := FlowingBench(m);
            && BenchInv(m, 100.0, b) && ClosedPass(m, b) && Known(b) == TrueConstants(b.sim)
            && Norm2(PassCommand(m, b)) <= b.world.ctx.vlim * b.world.ctx.vlim
            && b.sim.i != Dq(0.0, 0.0) && 100.0 <= Abs(b.sim.OmegaE()) <= 4000.0
  {
    hide *;
    FlowingFacts(m);
    FlowingIsSafe(m);
    FlowingPass(m);
    FlowingCommand(m);
    FullVoltageLarge(m, FlowingBench(m).world.ctx.vlim);
  }

  /** Its axes are coupled, unless 0.14 rad had cosine 1. */
  lemma FlowingBenchIsCoupled(m: Libm)
    requires m.Lawful()
    ensures var b := FlowingBench(m);
            (DrivenMotor(m, b).InductorVoltage() == Decoupled(b.sim, PiVoltage(m, b)) <==> CosOf(m, b.sim) == 1.0)
  {
    hide *;
    FlowingBenchQualifies(m);
    DecoupledAtSpeedIff(m, 100.0, FlowingBench(m));
  }

  lemma FlowingCommand(m: Libm)
    requires m.Lawful()
    ensures Norm2(PassCommand(m, FlowingBench(m))) <= 256.0
  {
    hide *;
    var b := FlowingBench(m);
    FlowingFacts(m);
    SeenWithin(m, b.sim);
    FlowingPi(m);
    CommandTerms(m, b);
    FullFadeAt700();
    CommandSmall(PassCommand(m, b), PiVoltage(m, b), Seen(m, b.sim));
  }

  lemma FullFadeAt700()
    ensures FadedSpeed(700.0) == 700.0
  {
  }

  lemma SeenWithin(m: Libm, s: SimState)
    requires m.Lawful() && s.i == Dq(0.0, 1.0)
    ensures Abs(Seen(m, s).d) <= 1.0 && Abs(Seen(m, s).q) <= 1.0
  {
    UnitLength(s);
    AheadKeepsNorm(m, s.i, Turn(s, CONTROL_DT));
    hide Turn, Norm2, Ahead, m.Lawful;
    ComponentBound(Seen(m, s), 1.0);
  }

  lemma CommandSmall(v: Dq, pi: Dq, i: Dq)
    requires Abs(pi.d) <= 0.008 && Abs(pi.q) <= 0.008 && Abs(i.d) <= 1.0 && Abs(i.q) <= 1.0
    requires v.d == pi.d + CrossCoupling(700.0, 0.001, i.q)
    requires v.q == pi.q + BackEmf(700.0, Flux(0.001, i.d, 0.02))
    ensures Norm2(v) <= 256.0
  {
    assert Abs(v.d) <= 1.0 && Abs(v.q) <= 15.0;
    SquareOrder(v.d, 1.0, v.d * v.d, 1.0);
    SquareOrder(v.q, 15.0, v.q * v.q, 225.0);
  }

  lemma FullVoltageLarge(m: Libm, full: real)
    requires m.Lawful() && full == FullVoltage(m, 100.0)
    ensures 256.0 <= full * full
  {
    FullVoltageFits(m, 100.0);
    hide FullVoltage;
    ThirdOfSquare(full, m.sqrt3, full * m.sqrt3);
  }

  lemma ThirdOfSquare(x: real, r3: real, w: real)
    requires r3 * r3 == 3.0 && w == x * r3
    ensures 3.0 * (x * x) == w * w
  {
  }
}
