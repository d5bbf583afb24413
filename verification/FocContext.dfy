/**
  foc_ctx_t in place: every function of foc.c that updates the context, proved
  against its value-level counterpart in module Foc.
 */
module FocContext {
  import opened Numeric
  import opened Transforms
  import opened PidControl
  import opened Foc

  class FocContext {
    const lib: Libm
    const vbus: Positive
    const pidId: Pid
    const pidIq: Pid
    const pidSpeed: Pid
    const pidPos: Pid

    var state: FocState
    var mode: Mode
    var i: Abc
    var iDq: Dq
    var iAb: AlphaBeta
    var thetaE: real
    var omegaE: real
    var speedRpm: real
    var idRef: real
    var iqRef: real
    var speedRef: real
    var v: Dq
    var vAb: AlphaBeta
    var duty: Abc
    var lMotor: real
    var psiMotor: real
    var posRef: real
    var posMeas: real
    var alignTicksLeft: int
    var vlim: real
    var overcurrentCount: nat
    var loopCount: nat

    ghost predicate Valid() {
      && pidId != pidIq && pidId != pidSpeed && pidId != pidPos
      && pidIq != pidSpeed && pidIq != pidPos && pidSpeed != pidPos
    }

    /** The objects a control operation may write. */
    ghost function Repr(): set<object> {
      {this, pidId, pidIq, pidSpeed, pidPos}
    }

    function Value(): Ctx
      reads this, pidId, pidIq, pidSpeed, pidPos
    {
      Ctx(state, mode, i, iDq, iAb, thetaE, omegaE, speedRpm, idRef, iqRef, speedRef,
          v, vAb, duty, vbus, pidId.Value(), pidIq.Value(), pidSpeed.Value(), pidPos.Value(),
          lMotor, psiMotor, posRef, posMeas, alignTicksLeft, vlim, overcurrentCount, loopCount)
    }

    constructor (lib: Libm, vbus: Positive)
      ensures Valid() && fresh(Repr()) && this.lib == lib
      ensures Value() == Init(lib, vbus)
    {
      var full := FullVoltage(lib, vbus);
      this.lib, this.vbus := lib, vbus;
      pidId := new Pid(KP_CURRENT, KI_CURRENT, -full, full);
      pidIq := new Pid(KP_CURRENT, KI_CURRENT, -full, full);
      pidSpeed := new Pid(KP_SPEED, KI_SPEED, -SPEED_IQ_LIMIT_A, SPEED_IQ_LIMIT_A);
      pidPos := new Pid(KP_POS, KI_POS, -POS_SPEED_LIMIT, POS_SPEED_LIMIT);
      state, mode := Idle, Speed;
      i, iDq, iAb := Abc(0.0, 0.0, 0.0), Dq(0.0, 0.0), AlphaBeta(0.0, 0.0);
      thetaE, omegaE, speedRpm := 0.0, 0.0, 0.0;
      idRef, iqRef, speedRef := 0.0, 0.0, 0.0;
      v, vAb, duty := Dq(0.0, 0.0), AlphaBeta(0.0, 0.0), Abc(0.0, 0.0, 0.0);
      lMotor, psiMotor, posRef, posMeas := MOTOR_L_H, MOTOR_PSI_WB, 0.0, 0.0;
      alignTicksLeft, vlim, overcurrentCount, loopCount := 0, full, 0, 0;
    }

    // ---------------------------------------------------------- foc_step

    method RecordCurrents(x: TickInput)
      modifies this`loopCount, this`i, this`posMeas
      ensures Value() == WithCurrents(old(Value()), x)
    {
      loopCount := (loopCount + 1) % UINT32;
      i := Abc(x.ia, x.ib, -(x.ia + x.ib));
      posMeas := x.posMech;
    }

    method RecordMotion(x: TickInput)
      modifies this`thetaE, this`omegaE, this`speedRpm
      ensures Value() == WithMotion(lib, old(Value()), x)
    {
      hide Fmod;
      thetaE := Fmod(x.thetaMech * POLE_PAIRS, lib.twoPi);
      if thetaE < 0.0 {
        thetaE := thetaE + lib.twoPi;
      }
      omegaE := x.omegaMech * POLE_PAIRS;
      speedRpm := x.omegaMech * (60.0 / lib.twoPi);
    }

    method Sample(x: TickInput)
      requires Valid()
      modifies this`loopCount, this`i, this`posMeas, this`thetaE, this`omegaE, this`speedRpm
      ensures Value() == Sampled(lib, old(Value()), x)
    {
      hide WithCurrents, WithMotion, FocContext.Value;
      RecordCurrents(x);
      RecordMotion(x);
    }

    method CheckOvercurrent() returns (tripped: bool)
      requires Valid()
      modifies this
      ensures tripped == Overcurrent(old(Value()).i)
      ensures Value() == if tripped then Trip(old(Value())) else old(Value())
    {
      tripped := Abs(i.a) > MAX_CURRENT_A || Abs(i.b) > MAX_CURRENT_A;
      if tripped {
        overcurrentCount := (overcurrentCount + 1) % UINT32;
        state := Error;
        duty := NEUTRAL;
      }
    }

    /** Clarke and Park of the sampled currents at one angle. */
    method MeasureAt(theta: real)
      modifies this`iAb, this`iDq
      ensures iAb == Clarke(i.a, i.b, lib.sqrt3) && iDq == ParkAt(lib, iAb, theta)
    {
      hide ParkAt, Clarke;
      iAb := Clarke(i.a, i.b, lib.sqrt3);
      iDq := ParkAt(lib, iAb, theta);
    }

    /** Open-loop field: diagnostics, voltage and duties at the sweep angle. */
    method DriveField()
      requires Valid()
      modifies this`iAb, this`iDq, this`v, this`duty, this`alignTicksLeft
      ensures Value() == AlignField(lib, old(Value()))
    {
      hide AlignAngle, Clarke, ParkAt, InvParkAt, Svpwm;
      var angle := AlignAngle(alignTicksLeft);
      MeasureAt(angle);
      v := ALIGN_VECTOR;
      duty := Svpwm(InvParkAt(lib, ALIGN_VECTOR, angle), vbus, lib.sqrt3);
      alignTicksLeft := alignTicksLeft - 1;
    }

    method EnterClosedLoop()
      requires Valid()
      modifies this`state, pidId`integrator, pidIq`integrator, pidSpeed`integrator
      ensures Value() == CloseLoop(old(Value()))
    {
      state := Running;
      pidId.Reset();
      pidIq.Reset();
      pidSpeed.Reset();
      pidId.integrator := ALIGN_VOLTAGE_V;
    }

    method Align() returns (done: bool)
      requires Valid()
      modifies this, pidId, pidIq, pidSpeed
      ensures Value() == AlignTick(lib, old(Value()))
      ensures done <==> old(alignTicksLeft) <= 1
    {
      AlignCounts(lib, Value());
      hide AlignField, CloseLoop;
      DriveField();
      done := alignTicksLeft <= 0;
      if done {
        EnterClosedLoop();
      }
    }

    method RunPositionLoop()
      requires Valid()
      modifies this`speedRef, pidPos
      ensures Value() == PositionLoop(old(Value()))
    {
      if mode == Position {
        speedRef := pidPos.Update(posRef - posMeas, CONTROL_DT);
      }
    }

    method RunSpeedLoop()
      requires Valid()
      modifies this`iqRef, pidSpeed
      ensures Value() == SpeedLoop(old(Value()))
    {
      if mode == Speed || mode == Position {
        iqRef := pidSpeed.Update(speedRef - speedRpm, CONTROL_DT);
      }
    }

    method RunCurrentLoops()
      requires Valid()
      modifies this`v, pidId, pidIq
      ensures Value() == CurrentLoop(lib, old(Value()))
    {
      hide PidState.Output, PidState.Updated, FeedForward, Norm2;
      var vdPi := pidId.Update(idRef - iDq.d, CONTROL_DT);
      var vqPi := pidIq.Update(iqRef - iDq.q, CONTROL_DT);
      var ff := FeedForward(omegaE, lMotor, psiMotor, iDq);
      v := Add(Dq(vdPi, vqPi), ff);
      var vmag := lib.sqrt(Norm2(v));
      if vmag > vlim && vmag > 0.0 {
        v := Scale(v, vlim / vmag);
        pidId.integrator := pidId.integrator + ((v.d - ff.d) - vdPi);
        pidIq.integrator := pidIq.integrator + ((v.q - ff.q) - vqPi);
      }
    }

    method AdvanceAngle() returns (thetaAdv: real)
      ensures thetaAdv == AdvancedAngle(lib, thetaE, omegaE)
    {
      thetaAdv := thetaE + omegaE * CONTROL_DT;
      if thetaAdv >= lib.twoPi { thetaAdv := thetaAdv - lib.twoPi; }
      if thetaAdv < 0.0 { thetaAdv := thetaAdv + lib.twoPi; }
    }

    method Measure(thetaAdv: real)
      requires Valid() && thetaAdv == AdvancedAngle(lib, thetaE, omegaE)
      modifies this`iAb, this`iDq
      ensures Value() == Measured(lib, old(Value()))
    {
      hide AdvancedAngle, ParkAt, Clarke;
      MeasureAt(thetaAdv);
    }

    method Output(thetaAdv: real)
      requires Valid()
      modifies this`vAb, this`duty
      ensures Value() == Actuate(lib, old(Value()), thetaAdv)
    {
      hide InvParkAt, Svpwm;
      vAb := InvParkAt(lib, v, thetaAdv);
      duty := Svpwm(vAb, vbus, lib.sqrt3);
    }

    method Run()
      requires Valid()
      modifies this, pidId, pidIq, pidSpeed, pidPos
      ensures Value() == RunTick(lib, old(Value()))
    {
      hide PositionLoop, SpeedLoop, CurrentLoop, Measured, Actuate, AdvancedAngle;
      var thetaAdv := AdvanceAngle();
      Measure(thetaAdv);
      RunPositionLoop();
      RunSpeedLoop();
      RunCurrentLoops();
      Output(thetaAdv);
    }

    /** `aligned` reports the call that ends an alignment, where the source resets the encoder. */
    method Step(x: TickInput) returns (aligned: bool)
      requires Valid()
      modifies this, pidId, pidIq, pidSpeed, pidPos
      ensures Value() == Foc.Step(lib, old(Value()), x)
      ensures aligned <==> old(state) == Aligning && state == Running
    {
      hide Sampled, AlignTick, RunTick, Trip, Overcurrent;
      aligned := false;
      SampledState(lib, Value(), x);
      Sample(x);
      match state {
        case Idle => duty := NEUTRAL;
        case Aligning =>
          AlignEnds(lib, Value());
          aligned := Align();
        case Forced =>
          var tripped := CheckOvercurrent();
        case Error => duty := NEUTRAL;
        case Running =>
          var tripped := CheckOvercurrent();
          if !tripped {
            Run();
          }
      }
    }

    // ------------------------------------------------------ state control

    method ResetControllers()
      requires Valid()
      modifies pidId`integrator, pidIq`integrator, pidSpeed`integrator, pidPos`integrator
      ensures pidId.integrator == pidIq.integrator == pidSpeed.integrator == pidPos.integrator == 0.0
    {
      pidId.Reset();
      pidIq.Reset();
      pidSpeed.Reset();
      pidPos.Reset();
    }

    method Reset()
      requires Valid()
      modifies this`state, this`iqRef, this`duty
      modifies pidId`integrator, pidIq`integrator, pidSpeed`integrator, pidPos`integrator
      ensures Value() == Foc.Reset(old(Value()))
    {
      state := Idle;
      iqRef := 0.0;
      duty := NEUTRAL;
      ResetControllers();
    }

    method Enable(enable: bool)
      requires Valid()
      modifies this, pidId, pidIq, pidSpeed, pidPos
      ensures Value() == Foc.Enable(old(Value()), enable)
    {
      if enable {
        if state == Idle || state == Error {
          alignTicksLeft := ALIGN_TICKS;
          state := Aligning;
        }
      } else {
        Reset();
      }
    }

    method SetMode(mode: Mode)
      requires Valid()
      modifies this`mode, pidSpeed, pidPos
      ensures Value() == Foc.SetMode(old(Value()), mode)
    {
      this.mode := mode;
      pidSpeed.Reset();
      pidPos.Reset();
    }

    method SetSpeedRef(rpm: real)
      modifies this`speedRef
      ensures Value() == Foc.SetSpeedRef(old(Value()), rpm)
    {
      var clamped := rpm;
      if clamped > MAX_SPEED_RPM { clamped := MAX_SPEED_RPM; }
      if clamped < -MAX_SPEED_RPM { clamped := -MAX_SPEED_RPM; }
      speedRef := clamped;
    }

    method SetTorqueRef(amps: real)
      modifies this`iqRef
      ensures Value() == Foc.SetTorqueRef(old(Value()), amps)
    {
      var clamped := amps;
      if clamped > MAX_CURRENT_A { clamped := MAX_CURRENT_A; }
      if clamped < -MAX_CURRENT_A { clamped := -MAX_CURRENT_A; }
      iqRef := clamped;
    }

    method TuneCurrentPid(kp: real, ki: real)
      requires Valid()
      modifies pidId, pidIq
      ensures Value() == Foc.TuneCurrentPid(lib, old(Value()), kp, ki)
    {
      var lim := FullVoltage(lib, vbus);
      pidId.Init(kp, ki, -lim, lim);
      pidIq.Init(kp, ki, -lim, lim);
    }

    method TuneSpeedPid(kp: real, ki: real)
      requires Valid()
      modifies pidSpeed
      ensures Value() == Foc.TuneSpeedPid(old(Value()), kp, ki)
    {
      pidSpeed.Init(kp, ki, -SPEED_IQ_LIMIT_A, SPEED_IQ_LIMIT_A);
    }

    method TunePosPid(kp: real, ki: real)
      requires Valid()
      modifies pidPos
      ensures Value() == Foc.TunePosPid(old(Value()), kp, ki)
    {
      var lim := pidPos.outMax;
      pidPos.Init(kp, ki, -lim, lim);
    }

    method SetPosRef(rad: real)
      modifies this`posRef
      ensures Value() == Foc.SetPosRef(old(Value()), rad)
    {
      posRef := rad;
    }

    method SetVlim(volts: real)
      requires Valid()
      modifies this`vlim, pidId, pidIq
      ensures Value() == Foc.SetVlim(lib, old(Value()), volts)
    {
      var full := FullVoltage(lib, vbus);
      var lim := volts;
      if lim <= 0.0 || lim > full {
        lim := full;
      }
      vlim := lim;
      pidId.Init(pidId.kp, pidId.ki, -lim, lim);
      pidIq.Init(pidIq.kp, pidIq.ki, -lim, lim);
    }

    method SetForcedDuty(d: Abc)
      modifies this`duty, this`state
      ensures Value() == Foc.SetForcedDuty(old(Value()), d)
    {
      duty := d;
      state := Forced;
    }

    method SetMotorL(l: real)
      modifies this`lMotor
      ensures Value() == Foc.SetMotorL(old(Value()), l)
    {
      lMotor := l;
    }

    method SetMotorPsi(psi: real)
      modifies this`psiMotor
      ensures Value() == Foc.SetMotorPsi(old(Value()), psi)
    {
      psiMotor := psi;
    }
  }

  lemma SampledState(m: Libm, c: Ctx, x: TickInput)
    ensures Sampled(m, c, x).state == c.state
  {
  }

  lemma AlignCounts(m: Libm, c: Ctx)
    ensures AlignField(m, c).alignTicksLeft == c.alignTicksLeft - 1
  {
  }

  /** The tick that exhausts the countdown is the one that closes the loop. */
  lemma AlignEnds(m: Libm, c: Ctx)
    requires c.state == Aligning
    ensures AlignTick(m, c).state == if c.alignTicksLeft <= 1 then Running else Aligning
  {
  }
}
