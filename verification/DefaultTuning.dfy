/**
  The default gains: the controllers that foc_init sets up, against the exact
  condition of the anti-windup and against the bound on the integrators.
 */
module DefaultTuning {
  import opened Numeric
  import opened Transforms
  import opened PidControl
  import opened Foc
  import opened FocSafety
  import opened SupervisorSafety
  import opened Windup

  // ------------------------------------------------------------ recovery

  /** One tick at standstill with no d-axis error. */
  function Quiet(e: real): LoopInput {
    LoopInput(Dq(0.0, e), Dq(0.0, 0.0))
  }

  function AllQuiet(errors: seq<real>): seq<LoopInput> {
    seq(|errors|, i requires 0 <= i < |errors| => Quiet(errors[i]))
  }

  /** What the current loop sees of a rotor at standstill without d-axis error. */
  lemma StandstillIsQuiet(d: Ctx)
    requires Abs(d.omegaE) <= 50.0 && d.idRef == d.iDq.d
    ensures InputOf(d) == Quiet(d.iqRef - d.iDq.q)
  {
    assert Clamp((Abs(d.omegaE) - 50.0) / 50.0, 0.0, 1.0) == 0.0;
    assert FadedSpeed(d.omegaE) == 0.0;
    hide FadedSpeed;
  }

  /** The d axis rests and the q output fits the vector limit. */
  predicate AtRest(a: Axes, vlim: real) {
    a.d.integrator == 0.0 && a.d.Symmetric() && a.q.Symmetric() && a.q.outMax <= vlim
  }

  /** A quiet tick is a tick of the q controller alone: nothing is clamped and nothing fed back. */
  lemma QuietTick(m: Libm, a: Axes, e: real, vlim: real)
    requires m.Lawful() && AtRest(a, vlim)
    ensures Wanted(a, Quiet(e)) == Dq(0.0, a.q.Output(e)) && ClampFactor(m, Wanted(a, Quiet(e)), vlim) == 1.0
    ensures AxesNext(m, a, Quiet(e), vlim) == Axes(a.d, a.q.Updated(e, CONTROL_DT))
  {
    var out := a.q.Output(e);
    assert a.d.Unclamped(0.0) == 0.0 && a.d.Updated(0.0, CONTROL_DT) == a.d;
    assert m.SqrtAt(Norm2(Dq(0.0, out)));
    ClampedVector(m, Dq(0.0, out), vlim);
    OutputWithin(a.q, e, vlim);
    UnclampedAxis(a.d, 0.0);
    UnclampedAxis(a.q, e);
    hide AxisNext, ClampFactor, PidState.Output, PidState.Updated, m.Lawful, Clamps;
  }

  lemma OutputWithin(p: PidState, e: real, vlim: real)
    requires p.Symmetric() && p.outMax <= vlim
    ensures Norm2(Dq(0.0, p.Output(e))) <= vlim * vlim
  {
    var out := p.Output(e);
    assert Abs(out) <= vlim;
    hide PidState.Output;
    SquareOrder(out, vlim, out * out, vlim * vlim);
    assert Norm2(Dq(0.0, out)) == out * out;
  }

  lemma UnclampedAxis(p: PidState, e: real)
    ensures AxisNext(p, e, 0.0, 1.0) == p.Updated(e, CONTROL_DT)
  {
    hide PidState.Output, PidState.Updated;
  }

  lemma {:induction false} QuietRun(m: Libm, a: Axes, errors: seq<real>, vlim: real)
    requires m.Lawful() && AtRest(a, vlim)
    ensures RunAxes(m, a, AllQuiet(errors), vlim) == Axes(a.d, RunPid(a.q, errors, CONTROL_DT))
    ensures SameTuning(a.q, RunPid(a.q, errors, CONTROL_DT))
  {
    if errors != [] {
      var last := |errors| - 1;
      assert AllQuiet(errors)[..last] == AllQuiet(errors[..last]);
      QuietRun(m, a, errors[..last], vlim);
      hide AxesNext, m.Lawful;
      QuietTick(m, Axes(a.d, RunPid(a.q, errors[..last], CONTROL_DT)), errors[last], vlim);
    }
  }

  /** The current loop as initialised, with its vector clamp: after a run of quiet ticks whose errors
      are within any bound, however small, the command stays on a limit against a reversed error. */
  lemma CurrentLoopSticks(m: Libm, vbus: Positive, cap: real) returns (errors: seq<real>, e: real)
    requires m.Lawful() && cap > 0.0
    ensures Bounded(errors, cap) && Abs(e) <= cap
    ensures var c := Init(m, vbus);
            var a := RunAxes(m, AxesOf(c), AllQuiet(errors), c.vlim);
            && a == Axes(c.pidId, RunPid(c.pidIq, errors, CONTROL_DT))
            && Wanted(a, Quiet(e)) == Dq(0.0, a.q.Output(e))
            && ClampFactor(m, Wanted(a, Quiet(e)), c.vlim) == 1.0
            && !RecoversOn(a.q, e)
  {
    var c := Init(m, vbus);
    FullVoltageFits(m, vbus);
    hide FullVoltage, m.Lawful;
    errors, e := SteepSticks(c.pidIq, CONTROL_DT, cap);
    QuietRun(m, AxesOf(c), errors, c.vlim);
    QuietTick(m, Axes(c.pidId, RunPid(c.pidIq, errors, CONTROL_DT)), e, c.vlim);
  }

  /** The speed and position loops as initialised leave a limit on the first inward error of every run. */
  lemma OuterLoopsRecover(m: Libm, vbus: Positive, errors: seq<real>, e: real)
    ensures RecoversOn(RunPid(Init(m, vbus).pidSpeed, errors, CONTROL_DT), e)
    ensures RecoversOn(RunPid(Init(m, vbus).pidPos, errors, CONTROL_DT), e)
  {
    var p, q := Init(m, vbus).pidSpeed, Init(m, vbus).pidPos;
    hide FullVoltage;
    GentleStaysWithin(p, errors, CONTROL_DT);
    WithinRecovers(RunPid(p, errors, CONTROL_DT), e);
    GentleStaysWithin(q, errors, CONTROL_DT);
    WithinRecovers(RunPid(q, errors, CONTROL_DT), e);
  }

  // --------------------------------------------------------------- bound

  /** The default motor on the 10 V bus: enabled from power-up, over every run of ticks up to
      3140 rad/s both integrators stay within 6.4. */
  lemma DefaultMotorBound(m: Libm, xs: seq<TickInput>)
    requires m.Lawful() && SpeedsWithin(xs, 3140.0)
    ensures AtLevel(RunTicks(m, Enable(Init(m, 10.0), true), xs), 6.4)
  {
    var c := Enable(Init(m, 10.0), true);
    var full := FullVoltage(m, 10.0);
    TenVolts(m, full);
    EnabledIsSafe(m);
    DefaultLevel(full);
    hide FullVoltage, m.Lawful, SpeedsWithin, RunTicks, FeedForwardReach, Level, Safe;
    IntegratorBound(m, c, xs, 3140.0);
  }

  lemma TenVolts(m: Libm, full: real)
    requires m.Lawful() && full == FullVoltage(m, 10.0)
    ensures 5.773 <= full <= 5.774
  {
    FullVoltageFits(m, 10.0);
    SquareOrder(1.732, m.sqrt3, 2.999824, 3.0);
    SquareOrder(m.sqrt3, 1.7321, 3.0, 3.00017041);
    hide FullVoltage;
    TenOver(m.sqrt3, full);
  }

  lemma TenOver(r3: Positive, full: real)
    requires 1.732 <= r3 <= 1.7321 && full * r3 == 10.0 && full > 0.0
    ensures 5.773 <= full <= 5.774
  {
    MulMonotone(1.732, r3, full);
    MulMonotone(r3, 1.7321, full);
  }

  lemma EnabledIsSafe(m: Libm)
    requires m.Lawful()
    ensures Safe(m, Enable(Init(m, 10.0), true))
  {
    SquareOrder(m.sqrt3, 2.0, 3.0, 4.0);
    BootIsSafe(m, 10.0);
    hide FullVoltage, Norm2;
  }

  lemma DefaultLevel(full: real)
    requires 5.773 <= full <= 5.774
    ensures FeedForwardReach(3140.0, MOTOR_L_H, MOTOR_PSI_WB) <= full
    ensures var ff := FeedForwardReach(3140.0, MOTOR_L_H, MOTOR_PSI_WB);
            0.5 <= Level(CurrentPid(KP_CURRENT, KI_CURRENT, full), ff) <= 6.4
  {
  }
}
