/**
  A history from power-up that restarts position mode with the integrator a trip
  left behind.
 */
module RestartHistories {
  import opened Numeric
  import opened Transforms
  import opened PidControl
  import opened Foc
  import opened FocSafety
  import opened Supervisor
  import opened SupervisorSafety
  import opened WindupHistories
  import Alignment

  const TO_ONE_DEGREE := [Begin(SetPos(1.0)), Advance(0.0), Advance(0.0)]
  const AT_REST := TickInput(0.0, 0.0, 0.0, 0.0, 0.0)
  /** One radian short of the target, without current. */
  const SHORT_OF_TARGET := TickInput(0.0, 0.0, 0.0, 0.0, 1.0 * DEG - 1.0)
  const NINE_AMPS := TickInput(9.0, 0.0, 0.0, 0.0, 0.0)
  /** What one tick at an error of one radian integrates. */
  const ONE_TICK := 0.0004

  lemma ToOneDegreeRuns(m: Libm, w: World)
    requires w.thread.Ready?
    ensures Run(m, w, TO_ONE_DEGREE) == w.(ctx := SetPosRef(SetMode(w.ctx, Position), 1.0 * DEG))
  {
    RunThree(m, w, Begin(SetPos(1.0)), Advance(0.0), Advance(0.0));
    hide Run, DEG;
  }

  lemma EnablingAfterTrip(m: Libm, w: World)
    requires w.thread.Ready?
    ensures Run(m, w, ENABLING) == w.(ctx := Enable(w.ctx, true), gate := true)
  {
    RunThree(m, w, Begin(EnableMotor), Advance(0.0), Advance(0.0));
    hide Run;
  }

  /** A closed-loop tick one radian short of the target integrates. */
  lemma PositionTick(m: Libm, c: Ctx)
    requires c.state.Running? && c.mode.Position? && c.posRef == 1.0 * DEG
    requires c.pidPos == CurrentPid(KP_POS, KI_POS, POS_SPEED_LIMIT)
    ensures var n := Step(m, c, SHORT_OF_TARGET);
            && n.state.Running? && n.mode.Position? && n.pidPos == c.pidPos.(integrator := ONE_TICK)
  {
    assert !Overcurrent(Abc(0.0, 0.0, -(0.0 + 0.0)));
    assert c.pidPos.Updated(1.0, CONTROL_DT).integrator == ONE_TICK;
    hide WrapAngle, Overcurrent, FeedForward, PidState.Output, PidState.Updated, Clamps, ClampFactor, Scale, Add;
    hide Svpwm, ParkAt, InvParkAt, Clarke, AdvancedAngle, DEG;
  }

  lemma TripTick(m: Libm, c: Ctx)
    requires c.state.Running?
    ensures var n := Step(m, c, NINE_AMPS);
            n.state.Error? && n.mode == c.mode && n.pidPos == c.pidPos
  {
    hide RunTick, WrapAngle;
  }

  lemma TwoTicks(m: Libm, c: Ctx, x: TickInput, y: TickInput)
    ensures RunTicks(m, c, [x, y]) == Step(m, Step(m, c, x), y)
  {
    hide Step;
    assert [x, y][..1] == [x] && [x][..0] == [];
    assert RunTicks(m, c, [x]) == Step(m, RunTicks(m, c, []), x);
  }

  /** The trip after one closed-loop tick in position mode. */
  lemma TrippedInPositionMode(m: Libm, c: Ctx)
    requires c.state.Running? && c.pidPos == CurrentPid(KP_POS, KI_POS, POS_SPEED_LIMIT)
    ensures var n := RunTicks(m, SetPosRef(SetMode(c, Position), 1.0 * DEG), [SHORT_OF_TARGET, NINE_AMPS]);
            n.state.Error? && n.mode.Position? && n.pidPos.integrator == ONE_TICK
  {
    var d := SetPosRef(SetMode(c, Position), 1.0 * DEG);
    TwoTicks(m, d, SHORT_OF_TARGET, NINE_AMPS);
    hide Step, RunTicks, DEG;
    PositionTick(m, d);
    TripTick(m, Step(m, d, SHORT_OF_TARGET));
  }

  /** The default position controller goes through the first alignment unchanged. */
  lemma AlignedFromBoot(m: Libm, vbus: Positive, xs: seq<TickInput>) returns (w: World)
    requires m.Lawful() && Feasible(m, vbus) && |xs| == ALIGN_TICKS
    ensures w == Run(m, Boot(m, vbus), ENABLING + TickEvents(xs)) && w.thread.Ready? && w.ctx.state.Running?
    ensures w.ctx.pidPos == CurrentPid(KP_POS, KI_POS, POS_SPEED_LIMIT)
  {
    var w0 := EnabledSafely(m, vbus);
    EnablingRuns(m, vbus);
    RunAppend(m, Boot(m, vbus), ENABLING, TickEvents(xs));
    TicksRun(m, w0, xs);
    hide Run, Step, RunTicks, Safe, Feasible, m.Lawful, FullVoltage;
    Alignment.AlignmentRun(m, w0.ctx, xs);
    w := Run(m, w0, TickEvents(xs));
  }

  /** From power-up: enable and align, `set_pos 1`, one tick, a trip, enable and align again. Closed loop
      restarts in position mode with the integrator of the tick before the trip. */
  lemma RestartsStale(m: Libm, vbus: Positive) returns (evs: seq<Event>)
    requires m.Lawful() && Feasible(m, vbus)
    ensures var c := Run(m, Boot(m, vbus), evs).ctx;
            c.state.Running? && c.mode.Position? && c.pidPos.integrator == ONE_TICK
  {
    hide Run, Step, RunTicks, Safe, SetPosRef, SetMode, Feasible, m.Lawful, Enable, DEG;
    var xs, ys := seq(ALIGN_TICKS, _ => AT_REST), [SHORT_OF_TARGET, NINE_AMPS];
    var first := ENABLING + TickEvents(xs);
    var second := first + TO_ONE_DEGREE + TickEvents(ys);
    var w1 := AlignedFromBoot(m, vbus, xs);
    ToOneDegreeRuns(m, w1);
    TrippedInPositionMode(m, w1.ctx);
    var w2 := Run(m, w1, TO_ONE_DEGREE);
    TicksRun(m, w2, ys);
    var w3 := Run(m, w2, TickEvents(ys));
    RunAppend(m, Boot(m, vbus), first, TO_ONE_DEGREE);
    RunAppend(m, Boot(m, vbus), first + TO_ONE_DEGREE, TickEvents(ys));
    InvIsSafe(m, vbus, second, w3);
    EnablingAfterTrip(m, w3);
    var w4 := Run(m, w3, ENABLING);
    TicksRun(m, w4, xs);
    Alignment.PositionIntegratorSurvives(m, w3.ctx, xs);
    evs := second + ENABLING + TickEvents(xs);
    RunAppend(m, Boot(m, vbus), second, ENABLING);
    RunAppend(m, Boot(m, vbus), second + ENABLING, TickEvents(xs));
  }

  lemma InvIsSafe(m: Libm, vbus: Positive, evs: seq<Event>, w: World)
    requires m.Lawful() && Feasible(m, vbus) && w == Run(m, Boot(m, vbus), evs)
    ensures Safe(m, w.ctx)
  {
    InvAlways(m, vbus, evs);
    hide Safe, Run, ThreadOk;
  }
}
