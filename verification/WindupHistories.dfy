/**
  The current-loop integrators over whole histories of commands and ticks.
 */
module WindupHistories {
  import opened Numeric
  import opened Transforms
  import opened PidControl
  import opened Foc
  import opened FocSafety
  import opened Supervisor
  import opened SupervisorSafety
  import opened Windup
  import Alignment
  import Histories

  // ------------------------------------------------------------ bounded

  /** A command either leaves both integrators alone or clears them. */
  lemma ActionKeepsOrClears(m: Libm, c: Ctx, a: Action)
    ensures Perform(m, c, a).pidId.integrator == c.pidId.integrator || Perform(m, c, a).pidId.integrator == 0.0
    ensures Perform(m, c, a).pidIq.integrator == c.pidIq.integrator || Perform(m, c, a).pidIq.integrator == 0.0
  {
    hide FullVoltage;
  }

  lemma AdvanceKeepsOrClears(m: Libm, w: World, omega: real)
    ensures var n := Advanced(m, w, omega).ctx;
            && (n.pidId.integrator == w.ctx.pidId.integrator || n.pidId.integrator == 0.0)
            && (n.pidIq.integrator == w.ctx.pidIq.integrator || n.pidIq.integrator == 0.0)
  {
    if w.thread.Doing? && w.thread.todo != [] {
      ActionKeepsOrClears(m, w.ctx, w.thread.todo[0]);
      hide Perform;
    } else {
      hide Perform, TestVector, VectorOk, NextVector;
    }
  }

  lemma EventKeepsLevel(m: Libm, w: World, e: Event, b: Bounds, speed: real)
    requires m.Lawful() && Inv(m, w) && Covers(w.ctx, b, speed) && AtLevel(w.ctx, b.level)
    requires e.Tick? ==> Abs(FadedSpeed(e.x.omegaMech * POLE_PAIRS)) <= speed
    ensures AtLevel(Apply(m, w, e).ctx, b.level)
  {
    match e
    case Tick(x) =>
      TickKeepsLevel(m, w.ctx, x, b, speed);
      hide Step, AtLevel, Covers;
    case Begin(_) => hide AtLevel, Covers, Inv;
    case Advance(omega) =>
      AdvanceKeepsOrClears(m, w, omega);
      assert b.level >= 0.0 by { hide Bounds.Admit, FeedForwardReach; }
      hide Advanced, Covers, Inv;
  }

  /** Over every history of commands and ticks both current-loop integrators keep the level, as long
      as the gains and limits in force have it cover them and the speed keeps the feed-forward in reach. */
  lemma {:induction false} HistoriesStayBounded(m: Libm, vbus: Positive, evs: seq<Event>, i: nat,
                                                b: Bounds, speed: real)
    requires m.Lawful() && Feasible(m, vbus) && i <= |evs|
    requires forall k :: 0 <= k <= i ==> Covers(Histories.At(m, vbus, evs, k).ctx, b, speed)
    requires forall k :: 0 <= k < i && evs[k].Tick? ==> Abs(FadedSpeed(evs[k].x.omegaMech * POLE_PAIRS)) <= speed
    ensures AtLevel(Histories.At(m, vbus, evs, i).ctx, b.level)
  {
    if i == 0 {
      Histories.AtStart(m, vbus, evs);
      assert Covers(Histories.At(m, vbus, evs, 0).ctx, b, speed);
      assert b.level >= 0.0 by { hide Bounds.Admit, FeedForwardReach; }
    } else {
      hide Covers, AtLevel, Apply, FadedSpeed, Inv;
      HistoriesStayBounded(m, vbus, evs, i - 1, b, speed);
      Histories.AtNext(m, vbus, evs, i - 1);
      InvAlways(m, vbus, evs[..i - 1]);
      EventKeepsLevel(m, Histories.At(m, vbus, evs, i - 1), evs[i - 1], b, speed);
    }
  }

  // ----------------------------------------------------------- unbounded

  lemma {:induction false} RunAppend(m: Libm, w: World, evs: seq<Event>, more: seq<Event>)
    ensures Run(m, w, evs + more) == Run(m, Run(m, w, evs), more)
  {
    if more == [] {
      assert evs + more == evs;
    } else {
      var last := |more| - 1;
      assert evs + more == (evs + more[..last]) + [more[last]];
      hide Apply;
      RunAppend(m, w, evs, more[..last]);
      RunSnoc(m, w, evs + more[..last], more[last]);
    }
  }

  function TickEvents(xs: seq<TickInput>): seq<Event> {
    seq(|xs|, i requires 0 <= i < |xs| => Tick(xs[i]))
  }

  /** Ticks alone run the controller and nothing else. */
  lemma {:induction false} TicksRun(m: Libm, w: World, xs: seq<TickInput>)
    ensures Run(m, w, TickEvents(xs)) == w.(ctx := RunTicks(m, w.ctx, xs))
  {
    if xs != [] {
      var last := |xs| - 1;
      assert TickEvents(xs)[..last] == TickEvents(xs[..last]);
      hide Step;
      TicksRun(m, w, xs[..last]);
    }
  }

  lemma RunThree(m: Libm, w: World, a: Event, b: Event, c: Event)
    ensures Run(m, w, [a, b, c]) == Apply(m, Apply(m, Apply(m, w, a), b), c)
  {
    hide Apply;
    RunSnoc(m, w, [], a);
    RunSnoc(m, w, [a], b);
    RunSnoc(m, w, [a, b], c);
    assert [a, b, c] == [a, b] + [c] && [a, b] == [a] + [b];
  }

  lemma RunTwo(m: Libm, w: World, a: Event, b: Event)
    ensures Run(m, w, [a, b]) == Apply(m, Apply(m, w, a), b)
  {
    hide Apply;
    RunSnoc(m, w, [], a);
    RunSnoc(m, w, [a], b);
    assert [a, b] == [a] + [b];
  }

  const ENABLING := [Begin(EnableMotor), Advance(0.0), Advance(0.0)]
  const ZERO_TORQUE := [Begin(SetTorque(0.0)), Advance(0.0), Advance(0.0)]
  const LOW_LIMIT := [Begin(SetVmax(0.3)), Advance(0.0)]

  lemma EnablingRuns(m: Libm, vbus: Positive)
    ensures Run(m, Boot(m, vbus), ENABLING) == World(Enable(Init(m, vbus), true), true, Ready, NoReport)
  {
    RunThree(m, Boot(m, vbus), Begin(EnableMotor), Advance(0.0), Advance(0.0));
    hide Run, FullVoltage;
  }

  lemma ZeroTorqueRuns(m: Libm, w: World)
    requires w.thread.Ready?
    ensures Run(m, w, ZERO_TORQUE) == w.(ctx := SetTorqueRef(SetMode(w.ctx, Torque), 0.0))
  {
    RunThree(m, w, Begin(SetTorque(0.0)), Advance(0.0), Advance(0.0));
    hide Run;
  }

  lemma LowLimitRuns(m: Libm, w: World)
    requires w.thread.Ready?
    ensures Run(m, w, LOW_LIMIT) == w.(ctx := SetVlim(m, w.ctx, 0.3))
  {
    RunTwo(m, w, Begin(SetVmax(0.3)), Advance(0.0));
    hide Run;
  }

  /** Torque mode at zero under a limit of 0.3 V: the motor coasts with both integrators cleared. */
  lemma LimitedIsCoasting(m: Libm, c: Ctx)
    requires m.Lawful() && Safe(m, c) && c.state.Running?
    ensures var n := SetVlim(m, SetTorqueRef(SetMode(c, Torque), 0.0), 0.3);
            && Coasting(n) && n.vlim == 0.3 && n.pidIq.outMax == 0.3 && n.pidIq.integrator == 0.0
            && n.psiMotor == c.psiMotor
  {
    FullVoltageFits(m, c.vbus);
    AboveAlignVoltage(m.sqrt3, c.vbus, FullVoltage(m, c.vbus));
    hide FullVoltage, Norm2;
  }

  lemma AboveAlignVoltage(r3: Positive, vbus: real, full: real)
    requires full * r3 == vbus && ALIGN_VOLTAGE_V * r3 <= vbus
    ensures full >= ALIGN_VOLTAGE_V
  {
    ScaledOrder(ALIGN_VOLTAGE_V, full, r3);
  }

  /** From power-up with the default motor and tuning: enable, align, zero torque, `set_vmax 0.3`,
      then coast backwards at 100 rad/s. The closed loop keeps running and its integrator passes
      every level. */
  lemma DefaultMotorWindsUp(m: Libm, vbus: Positive, x: TickInput, level: real) returns (evs: seq<Event>)
    requires m.Lawful() && Feasible(m, vbus) && x.omegaMech == -100.0
    ensures var c := Run(m, Boot(m, vbus), evs).ctx; c.state.Running? && !AtLevel(c, level)
  {
    hide Run, Step, RunTicks, AtLevel, Coasting, Safe, SetVlim, SetTorqueRef, SetMode, Feasible, m.Lawful;
    var xs := seq(ALIGN_TICKS, _ => Currentless(x));
    var w0 := EnabledSafely(m, vbus);
    TicksRun(m, w0, xs);
    Alignment.AlignmentRun(m, w0.ctx, xs);
    var w1 := w0.(ctx := RunTicks(m, w0.ctx, xs));
    ZeroTorqueRuns(m, w1);
    var w2 := Run(m, w1, ZERO_TORQUE);
    LowLimitRuns(m, w2);
    var w3 := Run(m, w2, LOW_LIMIT);
    LimitedIsCoasting(m, w1.ctx);
    var n := LimitedMotorWindsUp(m, w3.ctx, x, level);
    var ys := [Currentless(x)] + seq(n, _ => Currentless(x));
    CoastFirst(m, w3.ctx, Currentless(x), n);
    TicksRun(m, w3, ys);
    evs := ENABLING + TickEvents(xs) + ZERO_TORQUE + LOW_LIMIT + TickEvents(ys);
    RunAppend(m, Boot(m, vbus), ENABLING, TickEvents(xs));
    RunAppend(m, Boot(m, vbus), ENABLING + TickEvents(xs), ZERO_TORQUE);
    RunAppend(m, Boot(m, vbus), ENABLING + TickEvents(xs) + ZERO_TORQUE, LOW_LIMIT);
    RunAppend(m, Boot(m, vbus), ENABLING + TickEvents(xs) + ZERO_TORQUE + LOW_LIMIT, TickEvents(ys));
  }

  lemma EnabledSafely(m: Libm, vbus: Positive) returns (w: World)
    requires m.Lawful() && Feasible(m, vbus)
    ensures w == Run(m, Boot(m, vbus), ENABLING) && w.thread.Ready? && Safe(m, w.ctx)
    ensures w.ctx.state.Aligning? && w.ctx.alignTicksLeft == ALIGN_TICKS && w.ctx.psiMotor == MOTOR_PSI_WB
  {
    EnablingRuns(m, vbus);
    InvAlways(m, vbus, ENABLING);
    w := Run(m, Boot(m, vbus), ENABLING);
    hide Run, Safe, FullVoltage;
  }

  lemma {:induction false} CoastFirst(m: Libm, c: Ctx, x: TickInput, n: nat)
    ensures RunTicks(m, c, [x] + seq(n, _ => x)) == RunTicks(m, Step(m, c, x), seq(n, _ => x))
  {
    hide Step;
    var tail := seq(n, _ => x);
    if n == 0 {
      assert [x] + tail == [x];
      assert [x][..0] == [];
    } else {
      CoastFirst(m, c, x, n - 1);
      var less := seq(n - 1, _ => x);
      assert tail[..n - 1] == less;
      assert ([x] + tail)[..n] == [x] + less;
    }
  }
}
