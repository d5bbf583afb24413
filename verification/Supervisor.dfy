/**
  The command supervisor of cmd.c as a transition system.

  A command thread performs one command at a time as a sequence of basic actions
  on the shared context and the gate-enable pin; control ticks may come between
  any two of them.  `Apply` is one such step and `Run` a whole history.
 */
module Supervisor {
  import opened Numeric
  import opened Transforms
  import opened PidControl
  import opened Foc
  import opened FocSafety

  const DEG := 3.14159265 / 180.0
  const COAST_TRIES := 30
  const COAST_SPEED := 2.0
  const VECTORS := 6
  const SAMPLES := 5
  const SIGN_LEVEL := 0.10

  datatype Command =
    | EnableMotor | DisableMotor
    | SetSpeed(rpm: real) | SetTorque(amps: real) | SetPos(degrees: real)
    | SetPidCurrent(kp: real, ki: real) | SetPidSpeed(kp: real, ki: real) | SetPidPos(kp: real, ki: real)
    | SetMotorParams(lMilli: real, psi: real) | SetVmax(volts: real)
    | ForceDuty(da: real, db: real, dc: real)
    | MosfetTest | Calibrate | Status

  /** What a command does to shared state in one indivisible piece. */
  datatype Action =
    | GatePin(on: bool) | FocEnable(on: bool) | FocMode(mode: Mode)
    | SpeedRef(rpm: real) | TorqueRef(amps: real) | PosRef(rad: real)
    | CurrentGains(kp: real, ki: real) | SpeedGains(kp: real, ki: real) | PosGains(kp: real, ki: real)
    | MotorL(l: real) | MotorPsi(psi: real) | Vlim(volts: real) | Force(duty: Abc)

  function Henry(milli: real): real {
    milli * 0.001
  }

  /** The actions of the commands that do not branch on shared state. */
  function Script(cmd: Command): seq<Action> {
    match cmd
    case EnableMotor => [GatePin(true), FocEnable(true)]
    case DisableMotor => [FocEnable(false), GatePin(false)]
    case SetSpeed(rpm) => [FocMode(Speed), SpeedRef(rpm)]
    case SetTorque(amps) => [FocMode(Torque), TorqueRef(amps)]
    case SetPos(degrees) => [FocMode(Position), PosRef(degrees * DEG)]
    case SetPidCurrent(kp, ki) => [CurrentGains(kp, ki)]
    case SetPidSpeed(kp, ki) => [SpeedGains(kp, ki)]
    case SetPidPos(kp, ki) => [PosGains(kp, ki)]
    case SetMotorParams(lMilli, psi) => [MotorL(Henry(lMilli)), MotorPsi(psi)]
    case SetVmax(volts) => [Vlim(volts)]
    case ForceDuty(da, db, dc) => [GatePin(true), Force(ClampDuties(Abc(da, db, dc)))]
    case MosfetTest => []
    case Calibrate => []
    case Status => []
  }

  // ----------------------------------------------------------- mosfet test

  /** Where run_mosfet_test stands: the next thing it does to shared state. */
  datatype Point =
    | Coast(w: nat) | GateOn | Drive | Sample(s: nat) | Neutral | OcReset | OcGate
    | FinalReset | FinalGate

  /** Its local variables. */
  datatype Test = Test(delta: real, vec: nat, sumA: real, sumB: real, oc: bool, pass: nat, fail: nat)

  function TestVector(k: nat, delta: real): Abc {
    var hi, mid, lo := 0.5 + delta, 0.5, 0.5 - delta;
    if k == 0 then Abc(hi, lo, mid)
    else if k == 1 then Abc(hi, mid, lo)
    else if k == 2 then Abc(lo, hi, mid)
    else if k == 3 then Abc(mid, hi, lo)
    else if k == 4 then Abc(lo, mid, hi)
    else Abc(mid, lo, hi)
  }

  /** Expected signs of the three phase currents for each vector; 0 is not checked. */
  function ExpectedSigns(k: nat): (int, int, int) {
    if k == 0 then (1, -1, 0)
    else if k == 1 then (1, 0, -1)
    else if k == 2 then (-1, 1, 0)
    else if k == 3 then (0, 1, -1)
    else if k == 4 then (-1, 0, 1)
    else (0, -1, 1)
  }

  predicate SignOk(x: real, sign: int) {
    if sign > 0 then x > SIGN_LEVEL else if sign < 0 then x < -SIGN_LEVEL else true
  }

  /** The verdict on one vector, from the current sums of its samples. */
  predicate VectorOk(t: Test) {
    var ia, ib := t.sumA / 5.0, t.sumB / 5.0;
    var signs := ExpectedSigns(t.vec);
    SignOk(ia, signs.0) && SignOk(ib, signs.1) && SignOk(-(ia + ib), signs.2)
  }

  function NextVector(t: Test): Thread {
    if t.vec + 1 < VECTORS then Mosfet(Drive, t.(vec := t.vec + 1)) else Mosfet(FinalReset, t)
  }

  // ------------------------------------------------------------- the system

  datatype Thread = Ready | Doing(todo: seq<Action>) | Calibrating | Mosfet(at: Point, test: Test)

  datatype Summary = NoReport | Reported(pass: nat, fail: nat)

  datatype World = World(ctx: Ctx, gate: bool, thread: Thread, summary: Summary)

  /** A control tick, the start of a command, or the command thread's next action;
      `omega` is what it reads from the encoder if it is waiting for standstill. */
  datatype Event = Tick(x: TickInput) | Begin(cmd: Command) | Advance(omega: real)

  function Boot(m: Libm, vbus: Positive): World {
    World(Init(m, vbus), false, Ready, NoReport)
  }

  function Perform(m: Libm, c: Ctx, a: Action): Ctx {
    match a
    case GatePin(_) => c
    case FocEnable(on) => Enable(c, on)
    case FocMode(mode) => SetMode(c, mode)
    case SpeedRef(rpm) => SetSpeedRef(c, rpm)
    case TorqueRef(amps) => SetTorqueRef(c, amps)
    case PosRef(rad) => SetPosRef(c, rad)
    case CurrentGains(kp, ki) => TuneCurrentPid(m, c, kp, ki)
    case SpeedGains(kp, ki) => TuneSpeedPid(c, kp, ki)
    case PosGains(kp, ki) => TunePosPid(c, kp, ki)
    case MotorL(l) => SetMotorL(c, l)
    case MotorPsi(psi) => SetMotorPsi(c, psi)
    case Vlim(volts) => SetVlim(m, c, volts)
    case Force(duty) => SetForcedDuty(c, duty)
  }

  function GateAfter(gate: bool, a: Action): bool {
    if a.GatePin? then a.on else gate
  }

  function Start(w: World, cmd: Command): Thread {
    match cmd
    case MosfetTest =>
      if w.ctx.state.Running? || w.ctx.state.Aligning? then Ready
      else Mosfet(Coast(0), Test(w.ctx.vlim / (2.0 * w.ctx.vbus), 0, 0.0, 0.0, false, 0, 0))
    case Calibrate => if w.gate then Ready else Calibrating
    case Status => Ready
    case _ => Doing(Script(cmd))
  }

  function TestStep(m: Libm, w: World, omega: real): World
    requires w.thread.Mosfet?
  {
    var t := w.thread.test;
    match w.thread.at
    case Coast(n) =>
      w.(thread := if Abs(omega) < COAST_SPEED || n + 1 >= COAST_TRIES then Mosfet(GateOn, t)
                   else Mosfet(Coast(n + 1), t))
    case GateOn => w.(gate := true, thread := Mosfet(Drive, t))
    case Drive =>
      w.(ctx := SetForcedDuty(w.ctx, TestVector(t.vec, t.delta)),
         thread := Mosfet(Sample(0), t.(sumA := 0.0, sumB := 0.0, oc := false)))
    case Sample(s) =>
      if w.ctx.state.Error? then w.(thread := Mosfet(Neutral, t.(oc := true)))
      else
        var t' := t.(sumA := t.sumA + w.ctx.i.a, sumB := t.sumB + w.ctx.i.b);
        w.(thread := Mosfet(if s + 1 < SAMPLES then Sample(s + 1) else Neutral, t'))
    case Neutral =>
      w.(ctx := SetForcedDuty(w.ctx, NEUTRAL),
         thread := if t.oc then Mosfet(OcReset, t.(fail := t.fail + 1))
                   else if VectorOk(t) then NextVector(t.(pass := t.pass + 1))
                   else NextVector(t.(fail := t.fail + 1)))
    case OcReset => w.(ctx := Reset(w.ctx), thread := Mosfet(OcGate, t))
    case OcGate => w.(gate := true, thread := NextVector(t))
    case FinalReset => w.(ctx := Reset(w.ctx), thread := Mosfet(FinalGate, t))
    case FinalGate => w.(gate := false, thread := Ready, summary := Reported(t.pass, t.fail))
  }

  function Advanced(m: Libm, w: World, omega: real): World {
    match w.thread
    case Ready => w
    case Calibrating => w.(thread := Ready)
    case Mosfet(_, _) => TestStep(m, w, omega)
    case Doing(todo) =>
      if todo == [] then w.(thread := Ready)
      else w.(ctx := Perform(m, w.ctx, todo[0]), gate := GateAfter(w.gate, todo[0]),
              thread := if |todo| == 1 then Ready else Doing(todo[1..]))
  }

  function Apply(m: Libm, w: World, e: Event): World {
    match e
    case Tick(x) => w.(ctx := Step(m, w.ctx, x))
    case Begin(cmd) => if w.thread.Ready? then w.(thread := Start(w, cmd)) else w
    case Advance(omega) => Advanced(m, w, omega)
  }

  function Run(m: Libm, w: World, evs: seq<Event>): World {
    if evs == [] then w else Apply(m, Run(m, w, evs[..|evs| - 1]), evs[|evs| - 1])
  }

  lemma RunSnoc(m: Libm, w: World, evs: seq<Event>, e: Event)
    ensures Run(m, w, evs + [e]) == Apply(m, Run(m, w, evs), e)
  {
    assert (evs + [e])[..|evs|] == evs;
  }

  lemma RunPrefix(m: Libm, w: World, evs: seq<Event>, i: nat)
    requires i < |evs|
    ensures Run(m, w, evs[..i + 1]) == Apply(m, Run(m, w, evs[..i]), evs[i])
  {
    assert evs[..i + 1] == evs[..i] + [evs[i]];
    RunSnoc(m, w, evs[..i], evs[i]);
  }

  // -------------------------------------------------------- the invariant

  /** The rest of a script raises the gate before it drives and lowers it only when idle. */
  predicate Disciplined(todo: seq<Action>, gate: bool, idle: bool) {
    if todo == [] then true
    else match todo[0]
      case GatePin(on) => (on || idle) && Disciplined(todo[1..], on, idle)
      case FocEnable(on) => (on ==> gate) && Disciplined(todo[1..], gate, !on)
      case Force(duty) => gate && duty.InUnit() && Disciplined(todo[1..], gate, false)
      case _ => Disciplined(todo[1..], gate, idle)
  }

  /** What holds at each point of the mosfet test. */
  predicate TestOk(w: World, at: Point, t: Test) {
    && 0.0 <= t.delta <= 0.5
    && !w.ctx.state.Running? && !w.ctx.state.Aligning?
    && match at
       case Coast(n) => n < COAST_TRIES && t.vec == 0 && t.pass + t.fail == 0
       case GateOn => t.vec == 0 && t.pass + t.fail == 0
       case Drive => w.gate && t.vec < VECTORS && t.pass + t.fail == t.vec
       case Sample(s) => w.gate && s < SAMPLES && t.vec < VECTORS && t.pass + t.fail == t.vec
       case Neutral => w.gate && t.vec < VECTORS && t.pass + t.fail == t.vec
       case OcReset => w.gate && t.vec < VECTORS && t.pass + t.fail == t.vec + 1
       case OcGate => w.gate && t.vec < VECTORS && t.pass + t.fail == t.vec + 1
       case FinalReset => w.gate && t.pass + t.fail == VECTORS
       case FinalGate => w.gate && w.ctx.state.Idle? && t.pass + t.fail == VECTORS
  }

  predicate ThreadOk(w: World) {
    match w.thread
    case Ready => true
    case Calibrating => !w.gate
    case Doing(todo) => Disciplined(todo, w.gate, w.ctx.state.Idle?)
    case Mosfet(at, t) => TestOk(w, at, t)
  }

  /** The gate is low only while the controller is idle. */
  predicate GateOk(w: World) {
    !w.gate ==> w.ctx.state.Idle?
  }

  predicate SummaryOk(w: World) {
    w.summary.Reported? ==> w.summary.pass + w.summary.fail == VECTORS
  }

  predicate Inv(m: Libm, w: World) {
    Safe(m, w.ctx) && GateOk(w) && ThreadOk(w) && SummaryOk(w)
  }

  /** Which states a control tick can lead to. */
  predicate TickMoves(c: Ctx, n: Ctx) {
    && (n.state == c.state
        || (c.state.Aligning? && n.state.Running?)
        || ((c.state.Running? || c.state.Forced?) && n.state.Error?))
    && (n.state == c.state && c.state.Aligning? ==> n.alignTicksLeft == c.alignTicksLeft - 1)
    && (n.state != c.state && n.state.Running? ==> c.alignTicksLeft <= 1)
    && n.overcurrentCount == (if n.state.Error? && !c.state.Error? then (c.overcurrentCount + 1) % UINT32
                              else c.overcurrentCount)
  }

  /** A tick moves Aligning to Running at the end of the countdown, Running and Forced to Error
      on a trip, and nothing else; only a trip is counted. */
  lemma TickEffect(m: Libm, c: Ctx, x: TickInput)
    ensures TickMoves(c, Step(m, c, x))
  {
    hide WrapAngle, Overcurrent, FeedForward, PidState.Output, PidState.Updated, Clamps, ClampFactor, Scale, Add;
    hide Svpwm, ParkAt, InvParkAt, Clarke, AdvancedAngle, AlignAngle;
  }
}
