/**
  What every control step keeps, and what a closed-loop step applies.

  `Safe` is the invariant of the context: it holds after foc_init and is kept by
  every operation of foc.c.  The closed-loop theorems rest on it.
 */
module FocSafety {
  import opened Numeric
  import opened Transforms
  import opened PidControl
  import opened Foc

  /** The limits of the four PI controllers and of the vector clamp. */
  predicate LimitsOk(m: Libm, c: Ctx) {
    && 0.0 < c.vlim <= c.pidId.outMax
    && c.pidIq.outMax == c.pidId.outMax && c.pidId.outMax * m.sqrt3 <= c.vbus
    && c.pidId.kp == c.pidIq.kp && c.pidId.ki == c.pidIq.ki
    && c.pidId.Symmetric() && c.pidIq.Symmetric()
    && c.pidSpeed.Symmetric() && c.pidSpeed.outMax == SPEED_IQ_LIMIT_A
    && c.pidPos.Symmetric() && c.pidPos.outMax == POS_SPEED_LIMIT
  }

  predicate RefsOk(c: Ctx) {
    && c.idRef == 0.0
    && -MAX_CURRENT_A <= c.iqRef <= MAX_CURRENT_A
    && -MAX_SPEED_RPM <= c.speedRef <= MAX_SPEED_RPM
  }

  predicate CountdownOk(c: Ctx) {
    c.state.Aligning? ==> 1 <= c.alignTicksLeft <= ALIGN_TICKS
  }

  predicate Safe(m: Libm, c: Ctx) {
    && ALIGN_VOLTAGE_V * m.sqrt3 <= c.vbus
    && LimitsOk(m, c) && RefsOk(c) && CountdownOk(c)
    && c.duty.InUnit()
    && 3.0 * Norm2(c.v) <= c.vbus * c.vbus
  }

  // ------------------------------------------------------------ vector clamp

  /** The clamp returns a vector on the same ray, no longer than `vlim`, and shortens only what exceeds it. */
  lemma ClampedVector(m: Libm, sum: Dq, vlim: real)
    requires m.SqrtAt(Norm2(sum)) && vlim > 0.0
    ensures var k := ClampFactor(m, sum, vlim);
            && 0.0 < k <= 1.0
            && Norm2(Scale(sum, k)) <= vlim * vlim
            && (Clamps(m, sum, vlim) <==> Norm2(sum) > vlim * vlim)
            && (Clamps(m, sum, vlim) ==> k < 1.0 && Norm2(Scale(sum, k)) == vlim * vlim)
            && (!Clamps(m, sum, vlim) ==> k == 1.0 && Scale(sum, k) == sum)
  {
    var n := Norm2(sum);
    assert sum.d * sum.d >= 0.0 && sum.q * sum.q >= 0.0;
    var vmag, k := m.sqrt(n), ClampFactor(m, sum, vlim);
    var lim2 := vlim * vlim;
    SquareOrder(vmag, vlim, n, lim2);
    if Clamps(m, sum, vlim) {
      DivideBack(vlim, vmag, k);
      FactorBelowOne(k, vmag, vlim);
      ScaledNorm(sum, k);
      assert (k * vmag) * (k * vmag) == (k * k) * (vmag * vmag);
    }
  }

  lemma FactorBelowOne(k: real, vmag: real, vlim: real)
    requires 0.0 < vlim < vmag && k * vmag == vlim
    ensures 0.0 < k < 1.0
  {
    if k >= 1.0 {
      MulMonotone(1.0, k, vmag);
    } else if k <= 0.0 {
      MulMonotone(k, 0.0, vmag);
    }
  }

  lemma ScaledNorm(v: Dq, k: real)
    ensures Norm2(Scale(v, k)) == (k * k) * Norm2(v)
  {
  }

  // ------------------------------------------------- what a step applies

  /** The duties are unclamped, apply exactly the rotating vector `v` at `theta`,
      and draw from the bus exactly the rotating-frame power. */
  predicate Exact(m: Libm, v: Dq, duty: Abc, i: Abc, iDq: Dq, theta: real, vbus: Positive)
  {
    var p := InvClarke(InvParkAt(m, v, theta), m.sqrt3);
    && duty == RawDuties(p.Shift(ZeroSequence(p)), vbus)
    && ParkAt(m, AppliedVector(duty, vbus, m.sqrt3), theta) == v
    && vbus * duty.Dot(i) == 1.5 * (v.d * iDq.d + v.q * iDq.q)
  }

  lemma ExactOutput(m: Libm, v: Dq, ia: real, ib: real, theta: real, vbus: Positive, lim: real)
    requires m.Lawful() && lim >= 0.0 && lim * m.sqrt3 <= vbus
    requires Norm2(v) <= lim * lim
    ensures Exact(m, v, Svpwm(InvParkAt(m, v, theta), vbus, m.sqrt3), Abc(ia, ib, -(ia + ib)),
                  ParkAt(m, Clarke(ia, ib, m.sqrt3), theta), theta, vbus)
  {
    assert m.UnitAt(theta);
    VectorFitsBus(m, v, theta, vbus, lim);
    var p := InvClarke(InvParkAt(m, v, theta), m.sqrt3);
    FittingKeepsLines(p, vbus);
    LinesGiveExact(m, v, Modulate(p, vbus), ia, ib, theta, vbus);
  }

  lemma VectorFitsBus(m: Libm, v: Dq, theta: real, vbus: Positive, lim: real)
    requires IsSqrt3(m.sqrt3) && m.UnitAt(theta) && lim >= 0.0 && lim * m.sqrt3 <= vbus
    requires Norm2(v) <= lim * lim
    ensures var p := InvClarke(InvParkAt(m, v, theta), m.sqrt3); Fits(p.Shift(ZeroSequence(p)), vbus)
  {
    RotationKeepsNorm(v, m.cos(theta), m.sin(theta));
    CircleFitsBus(InvParkAt(m, v, theta), lim, vbus, m.sqrt3);
    InjectionFits(InvClarke(InvParkAt(m, v, theta), m.sqrt3), vbus);
  }

  lemma LinesGiveExact(m: Libm, v: Dq, d: Abc, ia: real, ib: real, theta: real, vbus: Positive)
    requires IsSqrt3(m.sqrt3) && m.UnitAt(theta)
    requires LinesKept(InvClarke(InvParkAt(m, v, theta), m.sqrt3), d, vbus)
    ensures ParkAt(m, AppliedVector(d, vbus, m.sqrt3), theta) == v
    ensures var i := ParkAt(m, Clarke(ia, ib, m.sqrt3), theta);
            vbus * d.Dot(Abc(ia, ib, -(ia + ib))) == 1.5 * (v.d * i.d + v.q * i.q)
  {
    var c, s, r3 := m.cos(theta), m.sin(theta), m.sqrt3;
    var w := InvPark(v, c, s);
    LinesApplyVector(w, d, vbus, r3);
    ParkRoundTrip(v, w, c, s);
    LinesCarryPower(v, d, ia, ib, c, s, vbus, r3);
  }

  /** Both current controllers. */
  datatype Axes = Axes(d: PidState, q: PidState)

  /** The errors and the feed-forward of one tick of the current loop. */
  datatype LoopInput = LoopInput(error: Dq, ff: Dq)

  /** The command before the vector clamp. */
  function Wanted(a: Axes, x: LoopInput): Dq {
    Add(Dq(a.d.Output(x.error.d), a.q.Output(x.error.q)), x.ff)
  }

  /** The axes of the current loop in a context, and what a tick feeds them. */
  function AxesOf(c: Ctx): Axes {
    Axes(c.pidId, c.pidIq)
  }

  function InputOf(d: Ctx): LoopInput {
    LoopInput(Dq(d.idRef - d.iDq.d, d.iqRef - d.iDq.q), FeedForward(d.omegaE, d.lMotor, d.psiMotor, d.iDq))
  }

  /** The unclamped voltage command of a closed-loop step. */
  function Command(m: Libm, c: Ctx): Dq {
    var d := SpeedLoop(PositionLoop(Measured(m, c)));
    Wanted(AxesOf(d), InputOf(d))
  }

  /** The outputs of a closed-loop step, as formulas of the clamped command. */
  lemma RunningStepOutputs(m: Libm, c: Ctx, x: TickInput)
    requires c.state.Running?
    requires !Overcurrent(Abc(x.ia, x.ib, -(x.ia + x.ib)))
    ensures var n, s := Step(m, c, x), Sampled(m, c, x);
            var sum, theta := Command(m, s), AdvancedAngle(m, s.thetaE, s.omegaE);
            && n.v == (if Clamps(m, sum, c.vlim) then Scale(sum, ClampFactor(m, sum, c.vlim)) else sum)
            && n.thetaE == s.thetaE && n.omegaE == s.omegaE && n.vbus == c.vbus
            && n.i == Abc(x.ia, x.ib, -(x.ia + x.ib))
            && n.iDq == ParkAt(m, Clarke(x.ia, x.ib, m.sqrt3), theta)
            && n.duty == Svpwm(InvParkAt(m, n.v, theta), n.vbus, m.sqrt3)
  {
  }

  /** A closed-loop step shortens the command to the clamp circle, on its own ray. */
  lemma RunningStepClamps(m: Libm, c: Ctx, x: TickInput)
    requires m.Lawful() && Safe(m, c) && c.state.Running?
    requires !Overcurrent(Abc(x.ia, x.ib, -(x.ia + x.ib)))
    ensures var v, sum := Step(m, c, x).v, Command(m, Sampled(m, c, x));
            && v == Scale(sum, ClampFactor(m, sum, c.vlim))
            && 0.0 < ClampFactor(m, sum, c.vlim) <= 1.0
            && (Norm2(sum) <= c.vlim * c.vlim ==> v == sum)
    ensures Norm2(Step(m, c, x).v) <= c.vlim * c.vlim
  {
    hide *;
    LimitFeasible(m, c);
    RunningStepOutputs(m, c, x);
    ClampedCommand(m, Step(m, c, x).v, Command(m, Sampled(m, c, x)), c.vlim);
  }

  lemma ClampedCommand(m: Libm, v: Dq, sum: Dq, vlim: real)
    requires m.Lawful() && vlim > 0.0
    requires v == (if Clamps(m, sum, vlim) then Scale(sum, ClampFactor(m, sum, vlim)) else sum)
    ensures v == Scale(sum, ClampFactor(m, sum, vlim))
    ensures 0.0 < ClampFactor(m, sum, vlim) <= 1.0
    ensures Norm2(sum) <= vlim * vlim ==> v == sum
    ensures Norm2(v) <= vlim * vlim
  {
    assert m.SqrtAt(Norm2(sum));
    ClampedVector(m, sum, vlim);
  }

  /** A closed-loop step applies exactly the voltage it reports, at conserved power. */
  lemma RunningStepIsExact(m: Libm, c: Ctx, x: TickInput)
    requires m.Lawful() && Safe(m, c) && c.state.Running?
    requires !Overcurrent(Abc(x.ia, x.ib, -(x.ia + x.ib)))
    ensures var n := Step(m, c, x);
            Exact(m, n.v, n.duty, n.i, n.iDq, AdvancedAngle(m, n.thetaE, n.omegaE), n.vbus)
  {
    hide *;
    LimitFeasible(m, c);
    RunningStepClamps(m, c, x);
    RunningStepOutputs(m, c, x);
    var n := Step(m, c, x);
    ExactOutput(m, n.v, x.ia, x.ib, AdvancedAngle(m, n.thetaE, n.omegaE), n.vbus, c.vlim);
  }

  lemma LimitFeasible(m: Libm, c: Ctx)
    requires Safe(m, c)
    ensures 0.0 < c.vlim && c.vlim * m.sqrt3 <= c.vbus
  {
  }

  /** Alignment applies a vector of 0.5 V along the sweep angle, at conserved power. */
  lemma AligningStepIsExact(m: Libm, c: Ctx, x: TickInput)
    requires m.Lawful() && Safe(m, c) && c.state.Aligning?
    ensures var n := Step(m, c, x);
            && n.v == Dq(0.5, 0.0)
            && Exact(m, n.v, n.duty, n.i, n.iDq, AlignAngle(c.alignTicksLeft), n.vbus)
  {
    ExactOutput(m, ALIGN_VECTOR, x.ia, x.ib, AlignAngle(c.alignTicksLeft), c.vbus, ALIGN_VOLTAGE_V);
  }

  /** A step that does not trip has the whole current vector within twice the trip level. */
  lemma NoTripBoundsCurrent(m: Libm, c: Ctx, x: TickInput)
    requires m.Lawful() && c.state.Running?
    requires !Overcurrent(Abc(x.ia, x.ib, -(x.ia + x.ib)))
    ensures var i := Measured(m, Sampled(m, c, x)).iDq;
            Norm2(i) <= 16.0 * 16.0 && Abs(i.d) <= 16.0 && Abs(i.q) <= 16.0
  {
    var s := Sampled(m, c, x);
    var u := Clarke(x.ia, x.ib, m.sqrt3);
    TwoPhasesBoundVector(x.ia, x.ib, MAX_CURRENT_A, m.sqrt3);
    var theta := AdvancedAngle(m, s.thetaE, s.omegaE);
    assert m.UnitAt(theta);
    ParkKeepsNorm(u, m.cos(theta), m.sin(theta));
    ComponentBound(ParkAt(m, u, theta), 2.0 * MAX_CURRENT_A);
  }

  // ------------------------------------------------------ the third phase

  predicate AnyPhaseOver(i: Abc) {
    Abs(i.a) > MAX_CURRENT_A || Abs(i.b) > MAX_CURRENT_A || Abs(i.c) > MAX_CURRENT_A
  }

  /** A sample that some phase exceeds trips exactly unless both measured phases are within the limit
      and their sum is not. */
  lemma TripCoversPhasesIff(ia: real, ib: real)
    ensures var i := Abc(ia, ib, -(ia + ib));
            && (Overcurrent(i) ==> AnyPhaseOver(i))
            && ((AnyPhaseOver(i) ==> Overcurrent(i))
                <==> (Abs(ia) <= MAX_CURRENT_A && Abs(ib) <= MAX_CURRENT_A ==> Abs(ia + ib) <= MAX_CURRENT_A))
  {
  }

  /** After a step that did not trip all three phases are within the limit exactly when the sum of the
      measured two is. */
  lemma UntrippedPhasesIff(m: Libm, c: Ctx, x: TickInput)
    requires c.state.Running? || c.state.Forced?
    requires !Step(m, c, x).state.Error?
    ensures !AnyPhaseOver(Step(m, c, x).i) <==> Abs(x.ia + x.ib) <= MAX_CURRENT_A
  {
    UntrippedSample(m, c, x);
    hide Step;
  }

  lemma UntrippedSample(m: Libm, c: Ctx, x: TickInput)
    requires c.state.Running? || c.state.Forced?
    ensures var i := Abc(x.ia, x.ib, -(x.ia + x.ib));
            && (Step(m, c, x).state.Error? <==> Overcurrent(i))
            && Step(m, c, x).i == i
  {
    hide WrapAngle, Overcurrent, FeedForward, PidState.Output, PidState.Updated, Clamps, ClampFactor, Scale, Add;
    hide Svpwm, ParkAt, InvParkAt, Clarke, AdvancedAngle;
  }

  /** 5 A in both measured phases is 10 A in the third, and nothing trips. */
  lemma ThirdPhaseEscapes(m: Libm, c: Ctx, x: TickInput)
    requires (c.state.Running? || c.state.Forced?) && x.ia == 5.0 && x.ib == 5.0
    ensures var n := Step(m, c, x);
            n.state == c.state && Abs(n.i.c) == 10.0 && AnyPhaseOver(n.i)
  {
    UntrippedSample(m, c, x);
    StepStates(m, c, x);
    hide Step;
  }

  lemma StepStates(m: Libm, c: Ctx, x: TickInput)
    requires c.state.Running? || c.state.Forced?
    ensures Step(m, c, x).state == c.state || Step(m, c, x).state.Error?
  {
    hide WrapAngle, Overcurrent, FeedForward, PidState.Output, PidState.Updated, Clamps, ClampFactor, Scale, Add;
    hide Svpwm, ParkAt, InvParkAt, Clarke, AdvancedAngle;
  }

  /** Twice the trip level is attained: 8 A in both measured phases do not trip and are a current
      vector of exactly 16 A, at every angle. */
  lemma UntrippedBoundIsTight(m: Libm, c: Ctx, x: TickInput)
    requires m.Lawful() && c.state.Running? && x.ia == MAX_CURRENT_A && x.ib == MAX_CURRENT_A
    ensures !Step(m, c, x).state.Error?
    ensures Norm2(Measured(m, Sampled(m, c, x)).iDq) == (2.0 * MAX_CURRENT_A) * (2.0 * MAX_CURRENT_A)
  {
    hide *;
    UntrippedSample(m, c, x);
    EqualPhasesDoNotTrip(x);
    MeasuredLength(m, c, x);
    SqrtOfThree(m);
    EqualPhases(m.sqrt3);
  }

  lemma SqrtOfThree(m: Libm)
    requires m.Lawful()
    ensures m.sqrt3 * m.sqrt3 == 3.0
  {
  }

  lemma EqualPhasesDoNotTrip(x: TickInput)
    requires x.ia == MAX_CURRENT_A && x.ib == MAX_CURRENT_A
    ensures !Overcurrent(Abc(x.ia, x.ib, -(x.ia + x.ib)))
  {
  }

  function Length2(u: AlphaBeta): real {
    u.alpha * u.alpha + u.beta * u.beta
  }

  /** A closed-loop step measures a current as long as Clarke gives it, at every angle. */
  lemma MeasuredLength(m: Libm, c: Ctx, x: TickInput)
    requires m.Lawful()
    ensures Norm2(Measured(m, Sampled(m, c, x)).iDq) == Length2(Clarke(x.ia, x.ib, m.sqrt3))
  {
    var s := Sampled(m, c, x);
    var theta := AdvancedAngle(m, s.thetaE, s.omegaE);
    assert m.UnitAt(theta);
    ParkKeepsNorm(Clarke(x.ia, x.ib, m.sqrt3), m.cos(theta), m.sin(theta));
    hide AdvancedAngle, WrapAngle, Norm2, Clarke, Park, m.Lawful;
  }

  lemma EqualPhases(r3: Positive)
    requires r3 * r3 == 3.0
    ensures Length2(Clarke(MAX_CURRENT_A, MAX_CURRENT_A, r3)) == (2.0 * MAX_CURRENT_A) * (2.0 * MAX_CURRENT_A)
  {
    var b := 24.0 / r3;
    DivideBack(24.0, r3, b);
    assert (b * r3) * (b * r3) == b * b * 3.0;
  }

  // ----------------------------------------------- the invariant of the context

  lemma WithinBusVoltage(lim: real, vbus: real, r3: real, n: real)
    requires 0.0 <= lim && 0.0 < r3 && r3 * r3 == 3.0 && lim * r3 <= vbus
    requires n <= lim * lim
    ensures 3.0 * n <= vbus * vbus
  {
  }

  /** The cascade rewrites references and integrators, never a limit, a gain or the mode of operation. */
  lemma LoopsKeepLimits(m: Libm, c: Ctx)
    requires LimitsOk(m, c) && RefsOk(c)
    ensures var n := RunTick(m, c);
            && LimitsOk(m, n) && RefsOk(n) && n.duty.InUnit()
            && n.vbus == c.vbus && n.vlim == c.vlim && n.state == c.state
  {
    hide Svpwm, ParkAt, InvParkAt, FeedForward, Scale, Add, Clamps, ClampFactor, Clarke, AdvancedAngle;
    hide Accumulate, Control;
    var s := SpeedLoop(PositionLoop(Measured(m, c)));
    var t := CurrentLoop(m, s);
    SvpwmInUnit(InvParkAt(m, t.v, AdvancedAngle(m, c.thetaE, c.omegaE)), c.vbus, m.sqrt3);
  }

  lemma SvpwmInUnit(v: AlphaBeta, vbus: Positive, r3: Positive)
    ensures Svpwm(v, vbus, r3).InUnit()
  {
  }

  lemma AlignKeepsSafe(m: Libm, c: Ctx)
    requires m.Lawful() && Safe(m, c) && c.state.Aligning?
    ensures Safe(m, AlignTick(m, c))
  {
    hide Svpwm, ParkAt, InvParkAt, Clarke, AlignAngle;
    SvpwmInUnit(InvParkAt(m, ALIGN_VECTOR, AlignAngle(c.alignTicksLeft)), c.vbus, m.sqrt3);
    WithinBusVoltage(ALIGN_VOLTAGE_V, c.vbus, m.sqrt3, Norm2(ALIGN_VECTOR));
  }

  lemma SampledKeepsSafe(m: Libm, c: Ctx, x: TickInput)
    requires Safe(m, c)
    ensures Safe(m, Sampled(m, c, x)) && Sampled(m, c, x).state == c.state
    ensures Sampled(m, c, x).vlim == c.vlim && Sampled(m, c, x).vbus == c.vbus
  {
  }

  lemma TripKeepsSafe(m: Libm, c: Ctx)
    requires Safe(m, c)
    ensures Safe(m, Trip(c)) && Safe(m, c.(duty := NEUTRAL))
  {
    hide Norm2;
  }

  lemma RunKeepsSafe(m: Libm, c: Ctx, x: TickInput)
    requires m.Lawful() && Safe(m, c) && c.state.Running?
    requires !Overcurrent(Abc(x.ia, x.ib, -(x.ia + x.ib)))
    ensures Safe(m, Step(m, c, x))
  {
    hide *;
    RunIsStep(m, c, x);
    SampledKeepsSafe(m, c, x);
    LimitFeasible(m, c);
    RunningStepClamps(m, c, x);
    SafeAfterRun(m, Sampled(m, c, x));
  }

  lemma RunIsStep(m: Libm, c: Ctx, x: TickInput)
    requires c.state.Running? && !Overcurrent(Abc(x.ia, x.ib, -(x.ia + x.ib)))
    ensures Step(m, c, x) == RunTick(m, Sampled(m, c, x))
  {
    hide RunTick, WrapAngle;
  }

  lemma SafeAfterRun(m: Libm, s: Ctx)
    requires m.Lawful() && Safe(m, s) && s.state.Running?
    requires Norm2(RunTick(m, s).v) <= s.vlim * s.vlim
    ensures Safe(m, RunTick(m, s))
  {
    hide RunTick, Norm2;
    LoopsKeepLimits(m, s);
    LimitFeasible(m, s);
    WithinBusVoltage(s.vlim, s.vbus, m.sqrt3, Norm2(RunTick(m, s).v));
  }

  /** Every control step keeps the invariant, in every state and for every input. */
  lemma StepKeepsSafe(m: Libm, c: Ctx, x: TickInput)
    requires m.Lawful() && Safe(m, c)
    ensures Safe(m, Step(m, c, x))
  {
    var s := Sampled(m, c, x);
    hide Safe, Sampled, RunTick, AlignTick;
    SampledKeepsSafe(m, c, x);
    match s.state
    case Idle => TripKeepsSafe(m, s);
    case Error => TripKeepsSafe(m, s);
    case Aligning => AlignKeepsSafe(m, s);
    case Forced => TripKeepsSafe(m, s);
    case Running =>
      TripKeepsSafe(m, s);
      SampledCurrents(m, c, x);
      if !Overcurrent(s.i) { RunKeepsSafe(m, c, x); }
  }

  lemma SampledCurrents(m: Libm, c: Ctx, x: TickInput)
    ensures Sampled(m, c, x).i == Abc(x.ia, x.ib, -(x.ia + x.ib))
  {
  }
}
