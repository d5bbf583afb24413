/**
  The control step of foc.c and its setters, on values.

  `Ctx` is the value of foc_ctx_t and every operation is a function on it; the
  class in FocContext.dfy performs the same operations in place.
 */
module Foc {
  import opened Numeric
  import opened Transforms
  import opened PidControl

  const CONTROL_HZ := 5000
  const CONTROL_DT := 0.0002
  const POLE_PAIRS := 7.0
  const MAX_CURRENT_A := 8.0
  const MAX_SPEED_RPM := 5000.0
  const MOTOR_L_H := 0.000016
  const MOTOR_PSI_WB := 0.00158
  const ALIGN_VOLTAGE_V := 0.5
  const ALIGN_MS := 1500
  const ALIGN_TICKS := ALIGN_MS * CONTROL_HZ / 1000
  const ALIGN_HOLD_ABOVE := ALIGN_TICKS * 3 / 4
  const ALIGN_SETTLE_BELOW := ALIGN_TICKS * 1 / 4
  const HALF_PI := 1.5707963
  const KP_CURRENT := 0.008
  const KI_CURRENT := 91.0
  const KP_SPEED := 0.007
  const KI_SPEED := 0.10
  const SPEED_IQ_LIMIT_A := 3.0
  const KP_POS := 30.0
  const KI_POS := 2.0
  const POS_SPEED_LIMIT := 500.0
  const UINT32 := 0x1_0000_0000

  datatype FocState = Idle | Aligning | Running | Forced | Error
  datatype Mode = Torque | Speed | Position

  datatype TickInput = TickInput(ia: real, ib: real, thetaMech: real, omegaMech: real, posMech: real)

  datatype Ctx = Ctx(
    state: FocState, mode: Mode,
    i: Abc, iDq: Dq, iAb: AlphaBeta, thetaE: real, omegaE: real, speedRpm: real,
    idRef: real, iqRef: real, speedRef: real,
    v: Dq, vAb: AlphaBeta, duty: Abc, vbus: Positive,
    pidId: PidState, pidIq: PidState, pidSpeed: PidState, pidPos: PidState,
    lMotor: real, psiMotor: real, posRef: real, posMeas: real,
    alignTicksLeft: int, vlim: real, overcurrentCount: nat, loopCount: nat)

  // ------------------------------------------------------------ foc_step

  function ParkAt(m: Libm, v: AlphaBeta, theta: real): Dq {
    Park(v, m.cos(theta), m.sin(theta))
  }

  function InvParkAt(m: Libm, v: Dq, theta: real): AlphaBeta {
    InvPark(v, m.cos(theta), m.sin(theta))
  }

  /** The next value of a 32-bit counter. */
  function Counted(n: nat): nat {
    (n + 1) % UINT32
  }

  function Electrical(mech: real): real {
    mech * POLE_PAIRS
  }

  function Rpm(omega: real, twoPi: Positive): real {
    omega * (60.0 / twoPi)
  }

  function WithCurrents(c: Ctx, x: TickInput): Ctx {
    c.(loopCount := Counted(c.loopCount), i := Abc(x.ia, x.ib, -(x.ia + x.ib)), posMeas := x.posMech)
  }

  function WithMotion(m: Libm, c: Ctx, x: TickInput): Ctx {
    c.(thetaE := WrapAngle(Electrical(x.thetaMech), m.twoPi),
       omegaE := Electrical(x.omegaMech),
       speedRpm := Rpm(x.omegaMech, m.twoPi))
  }

  /** What every call records before it looks at the state. */
  function Sampled(m: Libm, c: Ctx, x: TickInput): Ctx {
    WithMotion(m, WithCurrents(c, x), x)
  }

  /** The open-loop field angle as a function of the countdown. */
  function AlignAngle(ticksLeft: int): real {
    if ticksLeft > ALIGN_HOLD_ABOVE then HALF_PI
    else if ticksLeft > ALIGN_SETTLE_BELOW then
      HALF_PI * ((ticksLeft - ALIGN_SETTLE_BELOW) as real / (ALIGN_HOLD_ABOVE - ALIGN_SETTLE_BELOW) as real)
    else 0.0
  }

  const ALIGN_VECTOR := Dq(ALIGN_VOLTAGE_V, 0.0)

  function AlignField(m: Libm, c: Ctx): Ctx {
    var angle := AlignAngle(c.alignTicksLeft);
    var iAb := Clarke(c.i.a, c.i.b, m.sqrt3);
    c.(iAb := iAb, iDq := ParkAt(m, iAb, angle), v := ALIGN_VECTOR,
       duty := Svpwm(InvParkAt(m, ALIGN_VECTOR, angle), c.vbus, m.sqrt3),
       alignTicksLeft := c.alignTicksLeft - 1)
  }

  /** Entry to closed loop: integrators cleared, d-axis precharged with the alignment voltage. */
  function CloseLoop(c: Ctx): Ctx {
    c.(state := Running,
       pidId := c.pidId.(integrator := ALIGN_VOLTAGE_V),
       pidIq := c.pidIq.Cleared(), pidSpeed := c.pidSpeed.Cleared())
  }

  function AlignTick(m: Libm, c: Ctx): Ctx {
    var c1 := AlignField(m, c);
    if c1.alignTicksLeft <= 0 then CloseLoop(c1) else c1
  }

  predicate Overcurrent(i: Abc) {
    Abs(i.a) > MAX_CURRENT_A || Abs(i.b) > MAX_CURRENT_A
  }

  function Trip(c: Ctx): Ctx {
    c.(overcurrentCount := (c.overcurrentCount + 1) % UINT32, state := Error, duty := NEUTRAL)
  }

  /** The angle one control period ahead, brought back by at most one turn. */
  function AdvancedAngle(m: Libm, thetaE: real, omegaE: real): real {
    var t := thetaE + omegaE * CONTROL_DT;
    var u := if t >= m.twoPi then t - m.twoPi else t;
    if u < 0.0 then u + m.twoPi else u
  }

  function PositionLoop(c: Ctx): Ctx {
    if c.mode.Position? then
      var e := c.posRef - c.posMeas;
      c.(speedRef := c.pidPos.Output(e), pidPos := c.pidPos.Updated(e, CONTROL_DT))
    else c
  }

  function SpeedLoop(c: Ctx): Ctx {
    if c.mode.Speed? || c.mode.Position? then
      var e := c.speedRef - c.speedRpm;
      c.(iqRef := c.pidSpeed.Output(e), pidSpeed := c.pidSpeed.Updated(e, CONTROL_DT))
    else c
  }

  /** Electrical speed as the feed-forward sees it: clamped, then faded in over [50, 100] rad/s. */
  function FadedSpeed(omegaE: real): real {
    var w := Clamp(omegaE, -4000.0, 4000.0);
    w * Clamp((Abs(w) - 50.0) / 50.0, 0.0, 1.0)
  }

  function CrossCoupling(w: real, l: real, iq: real): real {
    -w * l * iq
  }

  function Flux(l: real, id: real, psi: real): real {
    l * id + psi
  }

  function BackEmf(w: real, flux: real): real {
    w * flux
  }

  function FeedForward(omegaE: real, l: real, psi: real, i: Dq): Dq {
    var w := FadedSpeed(omegaE);
    Dq(CrossCoupling(w, l, i.q), BackEmf(w, Flux(l, i.d, psi)))
  }

  function Add(v: Dq, w: Dq): Dq {
    Dq(v.d + w.d, v.q + w.q)
  }

  function Scale(v: Dq, k: real): Dq {
    Dq(v.d * k, v.q * k)
  }

  /** The factor the vector clamp applies: 1 inside the circle of radius `vlim`. */
  function ClampFactor(m: Libm, v: Dq, vlim: real): real {
    var vmag := m.sqrt(Norm2(v));
    if vmag > vlim && vmag > 0.0 then vlim / vmag else 1.0
  }

  predicate Clamps(m: Libm, v: Dq, vlim: real) {
    var vmag := m.sqrt(Norm2(v));
    vmag > vlim && vmag > 0.0
  }

  /** The clamp's share of one axis, taken back from that axis's integrator. */
  function BackCalculated(p: PidState, v: real, ff: real, pi: real): PidState {
    p.(integrator := p.integrator + ((v - ff) - pi))
  }

  function CurrentLoop(m: Libm, c: Ctx): Ctx {
    var eD, eQ := c.idRef - c.iDq.d, c.iqRef - c.iDq.q;
    var pi := Dq(c.pidId.Output(eD), c.pidIq.Output(eQ));
    var pD, pQ := c.pidId.Updated(eD, CONTROL_DT), c.pidIq.Updated(eQ, CONTROL_DT);
    var ff := FeedForward(c.omegaE, c.lMotor, c.psiMotor, c.iDq);
    var sum := Add(pi, ff);
    if Clamps(m, sum, c.vlim) then
      var v := Scale(sum, ClampFactor(m, sum, c.vlim));
      c.(v := v, pidId := BackCalculated(pD, v.d, ff.d, pi.d), pidIq := BackCalculated(pQ, v.q, ff.q, pi.q))
    else
      c.(v := sum, pidId := pD, pidIq := pQ)
  }

  function Actuate(m: Libm, c: Ctx, theta: real): Ctx {
    var w := InvParkAt(m, c.v, theta);
    c.(vAb := w, duty := Svpwm(w, c.vbus, m.sqrt3))
  }

  /** Measured currents in the rotating frame at the advanced angle. */
  function Measured(m: Libm, c: Ctx): Ctx {
    var iAb := Clarke(c.i.a, c.i.b, m.sqrt3);
    c.(iAb := iAb, iDq := ParkAt(m, iAb, AdvancedAngle(m, c.thetaE, c.omegaE)))
  }

  function RunTick(m: Libm, c: Ctx): Ctx {
    Actuate(m, CurrentLoop(m, SpeedLoop(PositionLoop(Measured(m, c)))),
            AdvancedAngle(m, c.thetaE, c.omegaE))
  }

  function Step(m: Libm, c: Ctx, x: TickInput): Ctx {
    var s := Sampled(m, c, x);
    match s.state
    case Idle => s.(duty := NEUTRAL)
    case Aligning => AlignTick(m, s)
    case Forced => if Overcurrent(s.i) then Trip(s) else s
    case Error => s.(duty := NEUTRAL)
    case Running => if Overcurrent(s.i) then Trip(s) else RunTick(m, s)
  }

  /** The context after a run of control ticks. */
  function RunTicks(m: Libm, c: Ctx, xs: seq<TickInput>): Ctx {
    if xs == [] then c
    else Step(m, RunTicks(m, c, xs[..|xs| - 1]), xs[|xs| - 1])
  }

  // -------------------------------------------------- state control, setters

  function FullVoltage(m: Libm, vbus: Positive): real {
    vbus / m.sqrt3
  }

  function CurrentPid(kp: real, ki: real, lim: real): PidState {
    PidState(kp, ki, 0.0, -lim, lim)
  }

  function Init(m: Libm, vbus: Positive): Ctx {
    var full := FullVoltage(m, vbus);
    Ctx(Idle, Speed, Abc(0.0, 0.0, 0.0), Dq(0.0, 0.0), AlphaBeta(0.0, 0.0), 0.0, 0.0, 0.0,
        0.0, 0.0, 0.0, Dq(0.0, 0.0), AlphaBeta(0.0, 0.0), Abc(0.0, 0.0, 0.0), vbus,
        CurrentPid(KP_CURRENT, KI_CURRENT, full), CurrentPid(KP_CURRENT, KI_CURRENT, full),
        CurrentPid(KP_SPEED, KI_SPEED, SPEED_IQ_LIMIT_A), CurrentPid(KP_POS, KI_POS, POS_SPEED_LIMIT),
        MOTOR_L_H, MOTOR_PSI_WB, 0.0, 0.0, 0, full, 0, 0)
  }

  function Reset(c: Ctx): Ctx {
    c.(state := Idle, iqRef := 0.0, duty := NEUTRAL,
       pidId := c.pidId.Cleared(), pidIq := c.pidIq.Cleared(),
       pidSpeed := c.pidSpeed.Cleared(), pidPos := c.pidPos.Cleared())
  }

  function Enable(c: Ctx, enable: bool): Ctx {
    if !enable then Reset(c)
    else if c.state.Idle? || c.state.Error? then c.(alignTicksLeft := ALIGN_TICKS, state := Aligning)
    else c
  }

  function SetMode(c: Ctx, mode: Mode): Ctx {
    c.(mode := mode, pidSpeed := c.pidSpeed.Cleared(), pidPos := c.pidPos.Cleared())
  }

  function SetSpeedRef(c: Ctx, rpm: real): Ctx {
    c.(speedRef := Clamp(rpm, -MAX_SPEED_RPM, MAX_SPEED_RPM))
  }

  function SetTorqueRef(c: Ctx, amps: real): Ctx {
    c.(iqRef := Clamp(amps, -MAX_CURRENT_A, MAX_CURRENT_A))
  }

  function SetPosRef(c: Ctx, rad: real): Ctx {
    c.(posRef := rad)
  }

  function TuneCurrentPid(m: Libm, c: Ctx, kp: real, ki: real): Ctx {
    var p := CurrentPid(kp, ki, FullVoltage(m, c.vbus));
    c.(pidId := p, pidIq := p)
  }

  function TuneSpeedPid(c: Ctx, kp: real, ki: real): Ctx {
    c.(pidSpeed := CurrentPid(kp, ki, SPEED_IQ_LIMIT_A))
  }

  function TunePosPid(c: Ctx, kp: real, ki: real): Ctx {
    c.(pidPos := CurrentPid(kp, ki, c.pidPos.outMax))
  }

  function SetVlim(m: Libm, c: Ctx, v: real): Ctx {
    var full := FullVoltage(m, c.vbus);
    var lim := if v <= 0.0 || v > full then full else v;
    c.(vlim := lim,
       pidId := CurrentPid(c.pidId.kp, c.pidId.ki, lim),
       pidIq := CurrentPid(c.pidIq.kp, c.pidIq.ki, lim))
  }

  function SetForcedDuty(c: Ctx, duty: Abc): Ctx {
    c.(duty := duty, state := Forced)
  }

  function SetMotorL(c: Ctx, l: real): Ctx {
    c.(lMotor := l)
  }

  function SetMotorPsi(c: Ctx, psi: real): Ctx {
    c.(psiMotor := psi)
  }
}
