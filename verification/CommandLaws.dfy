/**
  What each command means: the control steps that follow it, in the command's own
  figures.
 */
module CommandLaws {
  import opened Numeric
  import opened Transforms
  import opened PidControl
  import opened Foc
  import opened FocSafety
  import opened Supervisor
  import opened SupervisorSafety
  import opened ControlLaws
  import WindupHistories

  /** The context after a command's script, with no tick between its actions. */
  function After(m: Libm, c: Ctx, cmd: Supervisor.Command): Ctx {
    var s := Script(cmd);
    if |s| == 0 then c
    else if |s| == 1 then Perform(m, c, s[0]) else Perform(m, Perform(m, c, s[0]), s[1])
  }

  /** That is where the transition system takes an idle command thread. */
  lemma CommandRuns(m: Libm, w: World, cmd: Supervisor.Command)
    requires w.thread.Ready? && 1 <= |Script(cmd)| <= 2
    ensures var evs := if |Script(cmd)| == 1 then [Begin(cmd), Advance(0.0)]
                       else [Begin(cmd), Advance(0.0), Advance(0.0)];
            Run(m, w, evs).ctx == After(m, w.ctx, cmd) && Run(m, w, evs).thread.Ready?
  {
    assert !cmd.MosfetTest? && !cmd.Calibrate? && !cmd.Status?;
    if |Script(cmd)| == 1 {
      WindupHistories.RunTwo(m, w, Begin(cmd), Advance(0.0));
    } else {
      WindupHistories.RunThree(m, w, Begin(cmd), Advance(0.0), Advance(0.0));
    }
    hide Run, Perform, Script;
  }

  // ---------------------------------------------------------------- targets

  /** `set_speed`: speed mode at the reference within 5000 rpm; the next step calls for kp times
      reference less speed, within 3 A, whatever the speed integrator held. */
  lemma SetSpeedLaw(m: Libm, c: Ctx, rpm: real, x: TickInput)
    requires Untripped(c, x) && Safe(m, c)
    ensures var n, ref := Step(m, After(m, c, SetSpeed(rpm)), x), Clamp(rpm, -5000.0, 5000.0);
            && n.mode.Speed? && n.speedRef == ref
            && n.iqRef == Clamp(c.pidSpeed.kp * (ref - x.omegaMech * 60.0 / m.twoPi), -3.0, 3.0)
  {
    hide *;
    var d := After(m, c, SetSpeed(rpm));
    AfterSetSpeed(m, c, rpm);
    SameUntripped(c, d, x);
    SpeedFromRest(m, d, x);
    SpeedStep(m, d, x);
    CascadeTerms(m, d, x);
  }

  lemma AfterSetSpeed(m: Libm, c: Ctx, rpm: real)
    requires Safe(m, c)
    ensures var d := After(m, c, SetSpeed(rpm));
            && d.state == c.state && d.mode.Speed? && d.speedRef == Clamp(rpm, -5000.0, 5000.0)
            && !d.mode.Torque? && d.pidSpeed.outMin <= d.pidSpeed.outMax
            && d.pidSpeed == PidState(c.pidSpeed.kp, c.pidSpeed.ki, 0.0, -3.0, 3.0)
  {
    hide Clamp, Norm2;
  }

  /** `set_torque`: torque mode, and the reference within 8 A stands as long as steps do not trip. */
  lemma {:induction false} SetTorqueLaw(m: Libm, c: Ctx, amps: real, xs: seq<TickInput>)
    requires c.state.Running? && forall k :: 0 <= k < |xs| ==> -8.0 <= xs[k].ia <= 8.0 && -8.0 <= xs[k].ib <= 8.0
    ensures var n := RunTicks(m, After(m, c, SetTorque(amps)), xs);
            n.state.Running? && n.mode.Torque? && n.iqRef == Clamp(amps, -8.0, 8.0)
  {
    var d := After(m, c, SetTorque(amps));
    assert d.state.Running? && d.mode.Torque? && d.iqRef == Clamp(amps, -8.0, 8.0);
    hide After, Clamp;
    TorqueHeld(m, d, xs);
  }

  lemma {:induction false} TorqueHeld(m: Libm, d: Ctx, xs: seq<TickInput>)
    requires d.state.Running? && d.mode.Torque?
    requires forall k :: 0 <= k < |xs| ==> -8.0 <= xs[k].ia <= 8.0 && -8.0 <= xs[k].ib <= 8.0
    ensures var n := RunTicks(m, d, xs); n.state.Running? && n.mode.Torque? && n.iqRef == d.iqRef
  {
    if xs != [] {
      var last := |xs| - 1;
      TorqueHeld(m, d, xs[..last]);
      var e := RunTicks(m, d, xs[..last]);
      hide Step;
      TorqueStep(m, e, xs[last]);
      CascadeTerms(m, e, xs[last]);
      UntrippedStaysRunning(m, e, xs[last]);
    }
  }

  /** `set_pos`: position mode; the next step calls for kp times target less position, the target in
      degrees, within 500 rpm, and for torque towards that speed. */
  lemma SetPosLaw(m: Libm, c: Ctx, degrees: real, x: TickInput)
    requires Untripped(c, x) && Safe(m, c)
    ensures var n, e := Step(m, After(m, c, SetPos(degrees)), x), degrees * (3.14159265 / 180.0) - x.posMech;
            && n.mode.Position?
            && n.speedRef == Clamp(Share(c.pidPos.kp, e), -500.0, 500.0)
            && n.iqRef == Clamp(Share(c.pidSpeed.kp, SpeedError(m, n.speedRef, x.omegaMech)), -3.0, 3.0)
  {
    hide *;
    var d := After(m, c, SetPos(degrees));
    var n := Step(m, d, x);
    AfterSetPos(m, c, degrees);
    SameUntripped(c, d, x);
    PositionStep(m, d, x);
    SpeedStep(m, d, x);
    CascadeTerms(m, d, x);
    OutputOfLaw(d.pidPos, degrees * (3.14159265 / 180.0) - x.posMech, n.speedRef, n.pidPos);
    OutputOfLaw(d.pidSpeed, SpeedError(m, n.speedRef, x.omegaMech), n.iqRef, n.pidSpeed);
  }

  lemma SameUntripped(c: Ctx, d: Ctx, x: TickInput)
    requires Untripped(c, x) && d.state == c.state
    ensures Untripped(d, x)
  {
  }

  lemma AfterSetPos(m: Libm, c: Ctx, degrees: real)
    requires Safe(m, c)
    ensures var d := After(m, c, SetPos(degrees));
            && d.state == c.state && d.mode.Position? && !d.mode.Torque? && d.posRef == degrees * (3.14159265 / 180.0)
            && d.pidPos == PidState(c.pidPos.kp, c.pidPos.ki, 0.0, -500.0, 500.0)
            && d.pidSpeed == PidState(c.pidSpeed.kp, c.pidSpeed.ki, 0.0, -3.0, 3.0)
            && d.pidPos.outMin <= d.pidPos.outMax && d.pidSpeed.outMin <= d.pidSpeed.outMax
  {
    hide Norm2;
  }

  // ----------------------------------------------------------------- tuning

  /** `set_pid_speed`: the next step of the speed loop uses kp on the error and gathers with ki. */
  lemma SetPidSpeedLaw(m: Libm, c: Ctx, kp: real, ki: real, x: TickInput)
    requires Untripped(c, x) && !c.mode.Torque?
    ensures var n := Step(m, After(m, c, SetPidSpeed(kp, ki)), x);
            PiLaw(PidState(kp, ki, 0.0, -3.0, 3.0), SpeedError(m, n.speedRef, x.omegaMech), n.iqRef, n.pidSpeed)
  {
    var d := After(m, c, SetPidSpeed(kp, ki));
    assert d == c.(pidSpeed := PidState(kp, ki, 0.0, -3.0, 3.0));
    hide After, Step, PiLaw, SpeedError;
    SpeedStep(m, d, x);
  }

  /** `set_pid_pos`: the same for the position loop, under the speed cap in force. */
  lemma SetPidPosLaw(m: Libm, c: Ctx, kp: real, ki: real, x: TickInput)
    requires Untripped(c, x) && c.mode.Position? && Safe(m, c)
    ensures var n := Step(m, After(m, c, SetPidPos(kp, ki)), x);
            PiLaw(PidState(kp, ki, 0.0, -500.0, 500.0), c.posRef - x.posMech, n.speedRef, n.pidPos)
  {
    AfterSetPidPos(m, c, kp, ki);
    hide After, Step, PiLaw, Safe;
    PositionStep(m, After(m, c, SetPidPos(kp, ki)), x);
  }

  lemma AfterSetPidPos(m: Libm, c: Ctx, kp: real, ki: real)
    requires Safe(m, c)
    ensures After(m, c, SetPidPos(kp, ki)) == c.(pidPos := PidState(kp, ki, 0.0, -500.0, 500.0))
  {
    hide Norm2;
  }

  /** `set_pid_current`: both axes restart with the gains, at the full linear range of the bus. */
  lemma SetPidCurrentLaw(m: Libm, c: Ctx, kp: real, ki: real) returns (full: real)
    ensures full * m.sqrt3 == c.vbus
    ensures var p := PidState(kp, ki, 0.0, -full, full);
            After(m, c, SetPidCurrent(kp, ki)) == c.(pidId := p, pidIq := p)
  {
    full := FullVoltage(m, c.vbus);
    FullVoltageFits(m, c.vbus);
    hide FullVoltage;
  }

  /** `set_motor_params`: the feed-forward of the next step is that of the new constants, the inductance
      given in millihenry. */
  lemma SetMotorParamsLaw(m: Libm, c: Ctx, lMilli: real, psi: real, x: TickInput)
    returns (pi: Dq, d: PidState, q: PidState)
    requires Untripped(c, x) && Safe(m, c)
    ensures var s := After(m, c, SetMotorParams(lMilli, psi));
            var n := Step(m, s, x);
            && PiLaw(c.pidId, c.idRef - n.iDq.d, pi.d, d) && PiLaw(c.pidIq, n.iqRef - n.iDq.q, pi.q, q)
            && FocSafety.Command(m, Sampled(m, s, x))
               == Add(pi, CouplingOf(FadedSpeed(7.0 * x.omegaMech), lMilli / 1000.0, psi, n.iDq))
  {
    hide *;
    var s := After(m, c, SetMotorParams(lMilli, psi));
    AfterSetMotorParams(m, c, lMilli, psi);
    SameUntripped(c, s, x);
    pi, d, q := CurrentStep(m, s, x);
  }

  lemma AfterSetMotorParams(m: Libm, c: Ctx, lMilli: real, psi: real)
    requires Safe(m, c)
    ensures After(m, c, SetMotorParams(lMilli, psi)) == c.(lMotor := lMilli / 1000.0, psiMotor := psi)
    ensures c.pidId.outMin <= c.pidId.outMax && c.pidIq.outMin <= c.pidIq.outMax
  {
    hide Norm2;
  }

  /** `set_vmax`: a limit within the linear range bounds the voltage of the next step and both outputs;
      any other limit means the full range. Gains stay, integrators start again. */
  lemma SetVmaxLaw(m: Libm, c: Ctx, volts: real, x: TickInput) returns (lim: real)
    requires m.Lawful() && Untripped(c, x) && Safe(m, c)
    ensures if 0.0 < volts && volts * m.sqrt3 <= c.vbus then lim == volts else lim * m.sqrt3 == c.vbus
    ensures var s := After(m, c, SetVmax(volts));
            && s.vlim == lim && Norm2(Step(m, s, x).v) <= lim * lim
            && s.pidId == PidState(c.pidId.kp, c.pidId.ki, 0.0, -lim, lim)
            && s.pidIq == PidState(c.pidIq.kp, c.pidIq.ki, 0.0, -lim, lim)
  {
    hide *;
    var s := After(m, c, SetVmax(volts));
    lim := s.vlim;
    AfterSetVmax(m, c, volts);
    PerformKeepsSafe(m, c, Vlim(volts));
    UntrippedIs(c, x);
    RunningStepClamps(m, s, x);
  }

  lemma UntrippedIs(c: Ctx, x: TickInput)
    requires Untripped(c, x)
    ensures c.state.Running? && !Overcurrent(Abc(x.ia, x.ib, -(x.ia + x.ib)))
  {
  }

  lemma AfterSetVmax(m: Libm, c: Ctx, volts: real)
    ensures var s := After(m, c, SetVmax(volts));
            && s == Perform(m, c, Vlim(volts)) && s.state == c.state
            && (if 0.0 < volts && volts * m.sqrt3 <= c.vbus then s.vlim == volts else s.vlim * m.sqrt3 == c.vbus)
            && s.pidId == PidState(c.pidId.kp, c.pidId.ki, 0.0, -s.vlim, s.vlim)
            && s.pidIq == PidState(c.pidIq.kp, c.pidIq.ki, 0.0, -s.vlim, s.vlim)
  {
    var full := FullVoltage(m, c.vbus);
    FullVoltageFits(m, c.vbus);
    hide FullVoltage;
    if volts <= full {
      MulMonotone(volts, full, m.sqrt3);
    } else {
      MulStrict(full, volts, m.sqrt3);
    }
  }

  // ------------------------------------------------------- driving by hand

  lemma {:induction false} ForcedHolds(m: Libm, c: Ctx, xs: seq<TickInput>)
    requires c.state.Forced?
    requires forall k :: 0 <= k < |xs| ==> -8.0 <= xs[k].ia <= 8.0 && -8.0 <= xs[k].ib <= 8.0
    ensures var n := RunTicks(m, c, xs);
            && n.state.Forced? && n.duty == c.duty
            && (xs != [] ==> n.i == Abc(xs[|xs| - 1].ia, xs[|xs| - 1].ib, -(xs[|xs| - 1].ia + xs[|xs| - 1].ib)))
  {
    if xs != [] {
      var last := |xs| - 1;
      ForcedHolds(m, c, xs[..last]);
      hide Step;
      ForcedTick(m, RunTicks(m, c, xs[..last]), xs[last]);
    }
  }

  lemma ForcedTick(m: Libm, c: Ctx, x: TickInput)
    requires c.state.Forced? && -8.0 <= x.ia <= 8.0 && -8.0 <= x.ib <= 8.0
    ensures var n := Step(m, c, x);
            n.state.Forced? && n.duty == c.duty && n.i == Abc(x.ia, x.ib, -(x.ia + x.ib))
  {
    hide WrapAngle;
  }

  /** `force_duty`: the duties, each within [0, 1], stand as long as steps do not trip. */
  lemma {:induction false} ForceDutyLaw(m: Libm, c: Ctx, da: real, db: real, dc: real, xs: seq<TickInput>)
    requires forall k :: 0 <= k < |xs| ==> -8.0 <= xs[k].ia <= 8.0 && -8.0 <= xs[k].ib <= 8.0
    ensures var n := RunTicks(m, After(m, c, ForceDuty(da, db, dc)), xs);
            && n.state.Forced?
            && n.duty == Abc(Max(0.0, Min(1.0, da)), Max(0.0, Min(1.0, db)), Max(0.0, Min(1.0, dc)))
  {
    var d := After(m, c, ForceDuty(da, db, dc));
    assert d.state.Forced? && d.duty == Abc(Max(0.0, Min(1.0, da)), Max(0.0, Min(1.0, db)), Max(0.0, Min(1.0, dc)));
    hide After;
    ForcedHolds(m, d, xs);
  }

  // -------------------------------------------------------------- on and off

  /** `disable`: idle with neutral duties, no torque reference and four cleared integrators; targets, mode,
      gains, limits and motor constants stay. Ticks alone change neither state nor duties. */
  lemma {:induction false} DisableLaw(m: Libm, c: Ctx, xs: seq<TickInput>)
    ensures var d := After(m, c, DisableMotor);
            && d.iqRef == 0.0
            && d.pidId == c.pidId.(integrator := 0.0) && d.pidIq == c.pidIq.(integrator := 0.0)
            && d.pidSpeed == c.pidSpeed.(integrator := 0.0) && d.pidPos == c.pidPos.(integrator := 0.0)
            && d.speedRef == c.speedRef && d.posRef == c.posRef && d.mode == c.mode && d.vlim == c.vlim
            && d.lMotor == c.lMotor && d.psiMotor == c.psiMotor
    ensures var n := RunTicks(m, After(m, c, DisableMotor), xs);
            n.state.Idle? && n.duty == Abc(0.5, 0.5, 0.5)
  {
    var d := After(m, c, DisableMotor);
    assert d.state.Idle? && d.duty == Abc(0.5, 0.5, 0.5);
    hide After;
    IdleHolds(m, d, xs);
  }

  lemma {:induction false} IdleHolds(m: Libm, c: Ctx, xs: seq<TickInput>)
    requires c.state.Idle? && c.duty == Abc(0.5, 0.5, 0.5)
    ensures var n := RunTicks(m, c, xs); n.state.Idle? && n.duty == Abc(0.5, 0.5, 0.5)
  {
    if xs != [] {
      IdleHolds(m, c, xs[..|xs| - 1]);
      hide WrapAngle;
    }
  }

  /** `enable`: an idle or tripped controller starts the 7500-tick alignment; any other is left alone. */
  lemma EnableLaw(m: Libm, c: Ctx)
    ensures After(m, c, EnableMotor)
         == if c.state.Idle? || c.state.Error? then c.(state := Aligning, alignTicksLeft := 7500) else c
  {
  }

  /** Power-up: idle in speed mode at rest, with the documented gains, limits and motor constants. */
  lemma BootLaw(m: Libm, vbus: Positive) returns (full: real)
    ensures full * m.sqrt3 == vbus
    ensures var c := Boot(m, vbus).ctx;
            && c.state.Idle? && c.mode.Speed? && c.vbus == vbus && c.vlim == full
            && c.pidId == PidState(0.008, 91.0, 0.0, -full, full) && c.pidIq == c.pidId
            && c.pidSpeed == PidState(0.007, 0.10, 0.0, -3.0, 3.0)
            && c.pidPos == PidState(30.0, 2.0, 0.0, -500.0, 500.0)
            && c.lMotor == 0.000016 && c.psiMotor == 0.00158
            && c.speedRef == c.iqRef == c.idRef == c.posRef == 0.0
            && c.i == c.duty == Abc(0.0, 0.0, 0.0) && c.iDq == c.v == Dq(0.0, 0.0)
            && c.iAb == c.vAb == AlphaBeta(0.0, 0.0)
            && c.thetaE == c.omegaE == c.speedRpm == c.posMeas == 0.0
            && c.alignTicksLeft == c.overcurrentCount == c.loopCount == 0
    ensures !Boot(m, vbus).gate && Boot(m, vbus).thread.Ready?
  {
    full := FullVoltage(m, vbus);
    FullVoltageFits(m, vbus);
    hide FullVoltage;
  }
}
