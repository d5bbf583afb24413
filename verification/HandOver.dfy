/**
  The voltage a simulation build hands to the motor model against what the duties
  of the same pass apply.

  main.c hands over vd, vq of the context in every state, in the rotor's own frame.
  The duties apply a vector in the stationary frame.  This module says in which
  states, and from which benches, the two are one voltage.
 */
module HandOver {
  import opened Numeric
  import opened Transforms
  import opened PidControl
  import opened Foc
  import opened FocSafety
  import opened Simulator
  import opened SimTransforms
  import opened ClosedLoop
  import opened SupervisorSafety
  import Supervisor
  import Histories

  /** The electrical angle of the motor that a pass drives, after the encoder reset if there is one. */
  function MotorAngle(m: Libm, b: Bench): real {
    ElectricalAngle(DrivenMotor(m, b))
  }

  /** The sample of the pass exceeds the trip level. */
  predicate Trips(m: Libm, b: Bench) {
    Overcurrent(Abc(b.sim.Ia(m), b.sim.Ib(m), -(b.sim.Ia(m) + b.sim.Ib(m))))
  }

  /** The pass runs the current loop. */
  predicate Regulates(m: Libm, b: Bench) {
    b.world.ctx.state.Running? && !Trips(m, b)
  }

  /** The frame in which the duties act: the motor's own, in closed loop one period on. */
  function Frame(m: Libm, b: Bench): real {
    if Regulates(m, b) then ElectricalAngle(b.sim) + Turn(b.sim, CONTROL_DT) else MotorAngle(m, b)
  }

  /** The vector that a pass's duties apply, in that frame. */
  function Applied(m: Libm, b: Bench): Dq {
    var c := LoopPass(m, b).world.ctx;
    ParkAt(m, AppliedVector(c.duty, c.vbus, m.sqrt3), Frame(m, b))
  }

  /** The voltage handed over is the one the duties apply. */
  predicate HandsOver(m: Libm, b: Bench) {
    DrivenMotor(m, b).v == Applied(m, b)
  }

  /** The exact condition, on the bench before the pass. In closed loop it always holds. Where the pass
      puts the legs at neutral it takes a context without voltage. In alignment the motor must stand
      at the field. Forced duties must happen to apply the voltage left in the context. */
  predicate Agrees(m: Libm, b: Bench) {
    var c := b.world.ctx;
    match c.state
    case Running => !Trips(m, b) || c.v == Dq(0.0, 0.0)
    case Idle => c.v == Dq(0.0, 0.0)
    case Error => c.v == Dq(0.0, 0.0)
    case Forced =>
      if Trips(m, b) then c.v == Dq(0.0, 0.0)
      else AppliedVector(c.duty, c.vbus, m.sqrt3) == InvParkAt(m, c.v, ElectricalAngle(b.sim))
    case Aligning => c.alignTicksLeft == 1 || m.cos(ElectricalAngle(b.sim) - AlignAngle(c.alignTicksLeft)) == 1.0
  }

  // ------------------------------------------------------------- by state

  lemma NeutralAppliesNothing(m: Libm, vbus: Positive, x: real)
    ensures ParkAt(m, AppliedVector(NEUTRAL, vbus, m.sqrt3), x) == Dq(0.0, 0.0)
  {
    assert AppliedVector(NEUTRAL, vbus, m.sqrt3) == AlphaBeta(0.0, 0.0);
  }

  /** Where the pass does not drive, the voltage of the context stays as it was. */
  lemma UndrivenStep(m: Libm, c: Ctx, x: TickInput)
    requires !c.state.Aligning?
    requires c.state.Running? ==> Overcurrent(Abc(x.ia, x.ib, -(x.ia + x.ib)))
    ensures var n := Step(m, c, x);
            && n.v == c.v && n.vbus == c.vbus && !n.state.Running?
            && n.duty == (if c.state.Forced? && !Overcurrent(Abc(x.ia, x.ib, -(x.ia + x.ib))) then c.duty else NEUTRAL)
  {
    hide WrapAngle, RunTick;
  }

  lemma PassTerms(m: Libm, b: Bench)
    ensures var c := LoopPass(m, b).world.ctx;
            && c == Step(m, b.world.ctx, Reading(m, b.sim)) && DrivenMotor(m, b).v == c.v
            && MotorAngle(m, b) == (if b.world.ctx.state.Aligning? && c.state.Running? then 0.0 * POLE_PAIRS
                                    else ElectricalAngle(b.sim))
  {
    hide Step, SimState.Step, Reading;
    PassIsStep(m, b);
  }

  lemma ReadingTrips(m: Libm, b: Bench)
    ensures var x := Reading(m, b.sim); Trips(m, b) <==> Overcurrent(Abc(x.ia, x.ib, -(x.ia + x.ib)))
  {
    hide Overcurrent;
  }

  lemma UndrivenIff(m: Libm, b: Bench)
    requires m.Lawful() && !b.world.ctx.state.Aligning? && !Regulates(m, b)
    ensures HandsOver(m, b) <==> Agrees(m, b)
  {
    var c, x := b.world.ctx, ElectricalAngle(b.sim);
    PassTerms(m, b);
    ReadingTrips(m, b);
    UndrivenStep(m, c, Reading(m, b.sim));
    NeutralAppliesNothing(m, c.vbus, x);
    assert m.UnitAt(x);
    ParkIff(m, AppliedVector(c.duty, c.vbus, m.sqrt3), c.v, x);
    hide Step, LoopPass, DrivenMotor, ParkAt, InvParkAt, AppliedVector, Reading, ElectricalAngle, Trips, m.Lawful;
  }

  lemma ParkIff(m: Libm, u: AlphaBeta, v: Dq, x: real)
    requires m.UnitAt(x)
    ensures v == ParkAt(m, u, x) <==> u == InvParkAt(m, v, x)
  {
    ParkRoundTrip(v, u, m.cos(x), m.sin(x));
    hide Park, InvPark;
  }

  // ---------------------------------------------------------- closed loop

  /** In closed loop the motor gets what the bridge applies, in its frame one period on. */
  lemma RegulatedHandsOver(m: Libm, vbus: Positive, b: Bench)
    requires m.Lawful() && BenchInv(m, vbus, b) && Regulates(m, b)
    ensures HandsOver(m, b)
  {
    hide *;
    var c, x, s := b.world.ctx, Reading(m, b.sim), b.sim;
    RegulatesTerms(m, vbus, b);
    PassTerms(m, b);
    RunningStepIsExact(m, c, x);
    var n := Step(m, c, x);
    RunningAngles(m, c, s);
    ControllerAngle(m, ElectricalAngle(s), s.OmegaE(), Turn(s, CONTROL_DT));
    ExactApplies(m, n.v, n.duty, n.i, n.iDq, AdvancedAngle(m, n.thetaE, n.omegaE), n.vbus);
    ParkByTrig(m, AppliedVector(n.duty, n.vbus, m.sqrt3), AdvancedAngle(m, n.thetaE, n.omegaE), Frame(m, b));
    AppliedIs(m, b);
  }

  lemma RegulatesTerms(m: Libm, vbus: Positive, b: Bench)
    requires BenchInv(m, vbus, b) && Regulates(m, b)
    ensures var x := Reading(m, b.sim);
            && Safe(m, b.world.ctx) && b.world.ctx.state.Running?
            && !Overcurrent(Abc(x.ia, x.ib, -(x.ia + x.ib)))
            && Frame(m, b) == ElectricalAngle(b.sim) + Turn(b.sim, CONTROL_DT)
            && Turn(b.sim, CONTROL_DT) == b.sim.OmegaE() * CONTROL_DT
  {
    hide Safe, Overcurrent;
  }

  lemma RunningAngles(m: Libm, c: Ctx, s: SimState)
    requires c.state.Running?
    requires var x := Reading(m, s); !Overcurrent(Abc(x.ia, x.ib, -(x.ia + x.ib)))
    ensures var n := Step(m, c, Reading(m, s));
            n.thetaE == WrapAngle(ElectricalAngle(s), m.twoPi) && n.omegaE == s.OmegaE()
  {
    hide WrapAngle, Overcurrent, FeedForward, PidState.Output, PidState.Updated, Clamps, ClampFactor, Scale, Add;
    hide Svpwm, ParkAt, InvParkAt, Clarke, AdvancedAngle, SimState.Ia, SimState.Ib;
  }

  lemma ExactApplies(m: Libm, v: Dq, duty: Abc, i: Abc, iDq: Dq, theta: real, vbus: Positive)
    requires Exact(m, v, duty, i, iDq, theta, vbus)
    ensures ParkAt(m, AppliedVector(duty, vbus, m.sqrt3), theta) == v
  {
  }

  lemma AppliedIs(m: Libm, b: Bench)
    ensures var c := LoopPass(m, b).world.ctx;
            Applied(m, b) == ParkAt(m, AppliedVector(c.duty, c.vbus, m.sqrt3), Frame(m, b))
    ensures HandsOver(m, b) <==> DrivenMotor(m, b).v == Applied(m, b)
  {
  }

  // ------------------------------------------------------------ alignment

  /** A vector equals itself turned exactly when the turn has cosine 1. */
  lemma AlignVectorTurned(m: Libm, phi: real)
    requires m.Lawful()
    ensures Ahead(m, ALIGN_VECTOR, phi) == ALIGN_VECTOR <==> m.cos(phi) == 1.0
  {
    assert m.UnitAt(phi);
    SineOfUnitCosine(m.cos(phi), m.sin(phi));
  }

  lemma SineOfUnitCosine(c: real, n: real)
    requires c * c + n * n == 1.0
    ensures c == 1.0 ==> n == 0.0
  {
    ProductZero(n, n);
  }

  lemma ProductZero(x: real, y: real)
    ensures x * y == 0.0 <==> x == 0.0 || y == 0.0
  {
  }

  /** The laws fix the cosine of zero. */
  lemma CosineOfZero(m: Libm)
    requires m.Lawful()
    ensures m.cos(0.0) == 1.0
  {
    var c, n := m.cos(0.0), m.sin(0.0);
    assert m.UnitAt(0.0) && m.SumAt(0.0, 0.0);
    m.SameAngle(0.0, 0.0 + 0.0);
    assert c == c * c - n * n && n == 2.0 * (n * c);
    hide m.Lawful;
    DoubledIsZero(c, n);
  }

  lemma DoubledIsZero(c: real, n: real)
    requires c * c + n * n == 1.0 && c == c * c - n * n && n == 2.0 * (n * c)
    ensures c == 1.0
  {
    assert (c - 1.0) * (2.0 * c + 1.0) == 0.0;
    assert n * (1.0 - 2.0 * c) == 0.0;
    ProductZero(c - 1.0, 2.0 * c + 1.0);
    ProductZero(n, 1.0 - 2.0 * c);
  }

  /** A pass in alignment applies 0.5 V along the field and hands over 0.5 V along the rotor. */
  lemma AligningApplies(m: Libm, vbus: Positive, b: Bench)
    requires m.Lawful() && BenchInv(m, vbus, b) && b.world.ctx.state.Aligning?
    ensures DrivenMotor(m, b).v == Dq(0.5, 0.0)
    ensures Applied(m, b) == Ahead(m, Dq(0.5, 0.0), MotorAngle(m, b) - AlignAngle(b.world.ctx.alignTicksLeft))
  {
    hide *;
    var c, x, a := b.world.ctx, Reading(m, b.sim), AlignAngle(b.world.ctx.alignTicksLeft);
    AligningTerms(m, vbus, b);
    PassTerms(m, b);
    AligningStepIsExact(m, c, x);
    var n := Step(m, c, x);
    ExactApplies(m, n.v, n.duty, n.i, n.iDq, a, n.vbus);
    LawfulUnit(m, a);
    ParkIff(m, AppliedVector(n.duty, n.vbus, m.sqrt3), n.v, a);
    ParkAhead(m, ALIGN_VECTOR, a, MotorAngle(m, b) - a);
    SameFrame(m, InvParkAt(m, ALIGN_VECTOR, a), a, MotorAngle(m, b));
    AppliedIs(m, b);
    AlignVectorIs();
  }

  lemma AlignVectorIs()
    ensures ALIGN_VECTOR == Dq(0.5, 0.0)
  {
  }

  lemma LawfulUnit(m: Libm, x: real)
    requires m.Lawful()
    ensures m.UnitAt(x)
  {
  }

  lemma SameFrame(m: Libm, u: AlphaBeta, a: real, x: real)
    ensures ParkAt(m, u, a + (x - a)) == ParkAt(m, u, x)
  {
    assert a + (x - a) == x;
  }

  lemma AligningTerms(m: Libm, vbus: Positive, b: Bench)
    requires BenchInv(m, vbus, b) && b.world.ctx.state.Aligning?
    ensures Safe(m, b.world.ctx) && Frame(m, b) == MotorAngle(m, b)
  {
    hide Safe, MotorAngle;
  }

  lemma AligningAngle(m: Libm, vbus: Positive, b: Bench)
    requires BenchInv(m, vbus, b) && b.world.ctx.state.Aligning?
    ensures MotorAngle(m, b) == (if b.world.ctx.alignTicksLeft == 1 then 0.0 else ElectricalAngle(b.sim))
    ensures AlignAngle(1) == 0.0
  {
    PassTerms(m, b);
    Histories.CountdownPositive(m, b.world);
    AligningEnds(m, b.world.ctx, Reading(m, b.sim));
    hide Step, LoopPass, DrivenMotor, Reading, ElectricalAngle, Supervisor.Inv, MotorAngle;
  }

  lemma AligningEnds(m: Libm, c: Ctx, x: TickInput)
    requires c.state.Aligning?
    ensures Step(m, c, x).state.Running? <==> c.alignTicksLeft <= 1
  {
    hide Svpwm, InvParkAt, ParkAt, Clarke, AlignAngle, WrapAngle;
  }

  lemma AligningIff(m: Libm, vbus: Positive, b: Bench)
    requires m.Lawful() && BenchInv(m, vbus, b) && b.world.ctx.state.Aligning?
    ensures HandsOver(m, b) <==> Agrees(m, b)
  {
    AligningApplies(m, vbus, b);
    AligningAngle(m, vbus, b);
    AlignVectorTurned(m, MotorAngle(m, b) - AlignAngle(b.world.ctx.alignTicksLeft));
    CosineOfZero(m);
    hide Applied, DrivenMotor, MotorAngle, AlignAngle, Ahead, ElectricalAngle, BenchInv, m.Lawful;
    if b.world.ctx.alignTicksLeft == 1 {
      assert MotorAngle(m, b) - AlignAngle(1) == 0.0;
    }
  }

  // ------------------------------------------------------------ every pass

  /** The voltage handed to the motor is the one that the duties apply exactly under `Agrees`. */
  lemma HandsOverIff(m: Libm, vbus: Positive, b: Bench)
    requires m.Lawful() && BenchInv(m, vbus, b)
    ensures HandsOver(m, b) <==> Agrees(m, b)
  {
    hide HandsOver, BenchInv, m.Lawful, Trips, DrivenMotor, LoopPass;
    if b.world.ctx.state.Aligning? {
      AligningIff(m, vbus, b);
    } else if Regulates(m, b) {
      RegulatedHandsOver(m, vbus, b);
    } else {
      hide Agrees;
      UndrivenIff(m, b);
    }
  }

  // ----------------------------------------------------- benches that differ

  const ENABLING := [Order(Supervisor.EnableMotor), Act, Act]
  const DISABLING := [Order(Supervisor.DisableMotor), Act, Act]

  lemma RunBenchSnoc(m: Libm, b: Bench, es: seq<BenchEvent>, e: BenchEvent)
    ensures RunBench(m, b, es + [e]) == React(m, RunBench(m, b, es), e)
  {
    assert (es + [e])[..|es|] == es;
  }

  lemma RunBenchThree(m: Libm, b: Bench, es: seq<BenchEvent>, x: BenchEvent, y: BenchEvent, z: BenchEvent)
    ensures RunBench(m, b, es + [x, y, z]) == React(m, React(m, React(m, RunBench(m, b, es), x), y), z)
  {
    hide React;
    RunBenchSnoc(m, b, es, x);
    RunBenchSnoc(m, b, es + [x], y);
    RunBenchSnoc(m, b, es + [x] + [y], z);
    assert es + [x, y, z] == es + [x] + [y] + [z];
  }

  lemma EnablingBench(m: Libm, b: Bench)
    requires b.world.thread.Ready? && b.world.ctx.state.Idle?
    ensures var n := React(m, React(m, React(m, b, ENABLING[0]), ENABLING[1]), ENABLING[2]);
            && n.sim == b.sim && n.world.thread.Ready?
            && n.world.ctx == b.world.ctx.(alignTicksLeft := ALIGN_TICKS, state := Aligning)
  {
  }

  lemma DisablingBench(m: Libm, b: Bench)
    requires b.world.thread.Ready?
    ensures var n := React(m, React(m, React(m, b, DISABLING[0]), DISABLING[1]), DISABLING[2]);
            n.world.ctx == Reset(b.world.ctx)
  {
  }

  /** From power-up, enabled: on the first pass the motor rests at angle zero and the field stands at a
      quarter turn. They are one only if a quarter turn had cosine 1. */
  lemma FirstAlignmentPass(m: Libm, vbus: Positive, machine: SimState)
    requires m.Lawful() && Feasible(m, vbus)
    ensures var b := RunBench(m, BootBench(m, vbus, machine), ENABLING);
            && b.world.ctx.state.Aligning? && b.world.thread.Ready?
            && (HandsOver(m, b) <==> m.cos(0.0 - HALF_PI) == 1.0)
  {
    var boot := BootBench(m, vbus, machine);
    var b := RunBench(m, boot, ENABLING);
    BenchAlways(m, vbus, machine, ENABLING);
    RunBenchThree(m, boot, [], ENABLING[0], ENABLING[1], ENABLING[2]);
    assert [] + ENABLING == ENABLING && RunBench(m, boot, []) == boot;
    EnablingBench(m, boot);
    RestAngle(machine);
    hide RunBench, React, HandsOver, BenchInv, BootBench, m.Lawful, ElectricalAngle;
    HandsOverIff(m, vbus, b);
    BootIsIdle(m, vbus, machine);
  }

  lemma BootIsIdle(m: Libm, vbus: Positive, machine: SimState)
    ensures var b := BootBench(m, vbus, machine);
            b.world.thread.Ready? && b.world.ctx.state.Idle? && b.sim == machine.Reset()
  {
  }

  lemma RestAngle(machine: SimState)
    ensures ElectricalAngle(machine.Reset()) == 0.0
  {
  }

  /** From power-up: enable, one pass, disable. The next pass puts the legs at neutral and hands over
      the alignment voltage. */
  lemma DisabledStillDriven(m: Libm, vbus: Positive, machine: SimState)
    requires m.Lawful() && Feasible(m, vbus)
    ensures var b := RunBench(m, BootBench(m, vbus, machine), ENABLING + [Pass] + DISABLING);
            && b.world.ctx.state.Idle? && !HandsOver(m, b)
            && DrivenMotor(m, b).v == Dq(0.5, 0.0) && Applied(m, b) == Dq(0.0, 0.0)
  {
    var boot := BootBench(m, vbus, machine);
    var es := ENABLING + [Pass];
    var b, c, d := RunBench(m, boot, ENABLING), RunBench(m, boot, es), RunBench(m, boot, es + DISABLING);
    FirstAlignmentPass(m, vbus, machine);
    BenchAlways(m, vbus, machine, ENABLING);
    BenchAlways(m, vbus, machine, es + DISABLING);
    RunBenchSnoc(m, boot, ENABLING, Pass);
    RunBenchThree(m, boot, es, DISABLING[0], DISABLING[1], DISABLING[2]);
    hide RunBench, HandsOver, BenchInv, BootBench, m.Lawful;
    PassKeepsThread(m, b);
    AligningApplies(m, vbus, b);
    DisablingBench(m, c);
    hide React;
    HandsOverIff(m, vbus, d);
    IdleApplies(m, d);
  }

  lemma PassKeepsThread(m: Libm, b: Bench)
    ensures React(m, b, Pass).world.thread == b.world.thread
    ensures React(m, b, Pass).world.ctx.v == DrivenMotor(m, b).v
  {
    hide Step, SimState.Step, Reading;
  }

  lemma IdleApplies(m: Libm, b: Bench)
    requires b.world.ctx.state.Idle?
    ensures DrivenMotor(m, b).v == b.world.ctx.v && Applied(m, b) == Dq(0.0, 0.0)
  {
    PassTerms(m, b);
    UndrivenStep(m, b.world.ctx, Reading(m, b.sim));
    NeutralAppliesNothing(m, b.world.ctx.vbus, Frame(m, b));
    AppliedIs(m, b);
    hide Step, LoopPass, DrivenMotor, ParkAt, AppliedVector, Reading, Frame, Applied;
  }
}
