/**
  Safety of every history of commands and control ticks, in any interleaving.
 */
module SupervisorSafety {
  import opened Numeric
  import opened Transforms
  import opened PidControl
  import opened Foc
  import opened FocSafety
  import opened Supervisor

  /** The bus can carry the alignment voltage in the linear range. */
  predicate Feasible(m: Libm, vbus: Positive) {
    ALIGN_VOLTAGE_V * m.sqrt3 <= vbus
  }

  // ---------------------------------------------------------- context actions

  lemma FullVoltageFits(m: Libm, vbus: Positive)
    ensures FullVoltage(m, vbus) > 0.0 && FullVoltage(m, vbus) * m.sqrt3 == vbus
  {
  }

  lemma BootIsSafe(m: Libm, vbus: Positive)
    requires m.Lawful() && Feasible(m, vbus)
    ensures Inv(m, Boot(m, vbus))
  {
    FullVoltageFits(m, vbus);
    hide FullVoltage;
    MulMonotone(0.0, vbus, vbus);
  }

  /** Every action on the context keeps it safe; forced duties must be duties. */
  lemma PerformKeepsSafe(m: Libm, c: Ctx, a: Action)
    requires Safe(m, c) && (a.Force? ==> a.duty.InUnit())
    ensures Safe(m, Perform(m, c, a))
  {
    FullVoltageFits(m, c.vbus);
    hide FullVoltage, Norm2;
    if a.Vlim? && !(a.volts <= 0.0 || a.volts > FullVoltage(m, c.vbus)) {
      MulMonotone(a.volts, FullVoltage(m, c.vbus), m.sqrt3);
    }
  }

  lemma ResetKeepsSafe(m: Libm, c: Ctx)
    requires Safe(m, c)
    ensures Safe(m, Reset(c))
  {
  }

  /** An action never starts closed loop, never enters Error, and keeps the trip count. */
  lemma PerformEffect(m: Libm, c: Ctx, a: Action)
    ensures var n := Perform(m, c, a);
            && n.overcurrentCount == c.overcurrentCount
            && (n.state != c.state ==>
                  if a.FocEnable? then (if a.on then n.state.Aligning? else n.state.Idle?)
                  else a.Force? && n.state.Forced?)
            && (n.state.Aligning? && !c.state.Aligning? ==>
                  (c.state.Idle? || c.state.Error?) && n.alignTicksLeft == ALIGN_TICKS)
            && (n.state.Aligning? && c.state.Aligning? ==> n.alignTicksLeft == c.alignTicksLeft)
  {
    hide FullVoltage;
  }

  // ---------------------------------------------------------------- mosfet test

  lemma DeltaInRange(m: Libm, c: Ctx)
    requires m.Lawful() && Safe(m, c)
    ensures 0.0 <= c.vlim / (2.0 * c.vbus) <= 0.5
  {
    LimitFeasible(m, c);
    BelowRoot(c.vlim, m.sqrt3, c.vbus);
    HalfQuotient(c.vlim, c.vbus, c.vlim / (2.0 * c.vbus));
  }

  lemma BelowRoot(x: real, r3: Positive, y: real)
    requires r3 * r3 == 3.0 && 0.0 < x && x * r3 <= y
    ensures x <= y
  {
  }

  lemma HalfQuotient(x: real, y: Positive, q: real)
    requires 0.0 < x <= y && q == x / (2.0 * y)
    ensures 0.0 <= q <= 0.5
  {
  }

  /** Whether a duty stands above, below or at the neutral half. */
  function SignOf(duty: real): int {
    if duty > 0.5 then 1 else if duty < 0.5 then -1 else 0
  }

  /** Each vector raises one phase, lowers another and leaves the third at neutral, with the
      voltage limit across the driven pair, and the signs expected of the currents are its own. */
  lemma VectorDrivesOnePair(k: nat, vlim: real, vbus: Positive)
    requires k < VECTORS && vlim > 0.0
    ensures var d := TestVector(k, vlim / (2.0 * vbus));
            && ExpectedSigns(k) == (SignOf(d.a), SignOf(d.b), SignOf(d.c))
            && {SignOf(d.a), SignOf(d.b), SignOf(d.c)} == {-1, 0, 1}
            && vbus * d.Spread() == vlim
  {
    var delta := vlim / (2.0 * vbus);
    DivideBack(vlim, 2.0 * vbus, delta);
    ScaledPositive(delta, 2.0 * vbus, vlim);
    VectorSigns(k, delta);
  }

  lemma VectorSigns(k: nat, delta: real)
    requires k < VECTORS && delta > 0.0
    ensures var d := TestVector(k, delta);
            && ExpectedSigns(k) == (SignOf(d.a), SignOf(d.b), SignOf(d.c))
            && {SignOf(d.a), SignOf(d.b), SignOf(d.c)} == {-1, 0, 1}
            && d.Spread() == 2.0 * delta
  {
  }

  /** The six vectors are the six ordered pairs of phases: no two expect the same signs. */
  lemma VectorsCoverTheBridge(k: nat, j: nat)
    requires k < VECTORS && j < VECTORS && ExpectedSigns(k) == ExpectedSigns(j)
    ensures k == j
  {
  }

  lemma VectorInUnit(k: nat, delta: real)
    requires 0.0 <= delta <= 0.5
    ensures TestVector(k, delta).InUnit()
  {
  }

  /** One step of the mosfet test keeps the invariant, whatever the ticks did before it. */
  lemma TestStepKeepsInv(m: Libm, w: World, omega: real)
    requires Inv(m, w) && w.thread.Mosfet?
    ensures Inv(m, TestStep(m, w, omega))
  {
    var t := w.thread.test;
    VectorInUnit(t.vec, t.delta);
    PerformKeepsSafe(m, w.ctx, Force(TestVector(t.vec, t.delta)));
    PerformKeepsSafe(m, w.ctx, Force(NEUTRAL));
    ResetKeepsSafe(m, w.ctx);
    hide Safe, TestVector, VectorOk;
  }

  // ------------------------------------------------------------------ scripts

  /** Every command's script is disciplined from wherever it may start. */
  lemma ScriptsAreDisciplined(cmd: Command, gate: bool, idle: bool)
    requires !gate ==> idle
    ensures Disciplined(Script(cmd), gate, idle)
  {
    var s := Script(cmd);
    if |s| == 2 {
      assert s[1..] == [s[1]] && s[1..][1..] == [];
    } else if |s| == 1 {
      assert s[1..] == [];
    }
  }

  /** Performing the head of a disciplined script leaves a disciplined rest. */
  lemma HeadKeepsDiscipline(m: Libm, w: World)
    requires Inv(m, w) && w.thread.Doing? && w.thread.todo != []
    ensures Inv(m, Advanced(m, w, 0.0))
  {
    var a := w.thread.todo[0];
    PerformKeepsSafe(m, w.ctx, a);
    PerformEffect(m, w.ctx, a);
    EnableEffect(w.ctx);
    hide Safe, Norm2, SetVlim, TuneCurrentPid, TuneSpeedPid, TunePosPid;
    if !a.FocEnable? && !a.Force? { OtherActionsKeepState(m, w.ctx, a); }
  }

  lemma EnableEffect(c: Ctx)
    ensures Enable(c, false).state.Idle? && !Enable(c, true).state.Idle?
  {
  }

  lemma OtherActionsKeepState(m: Libm, c: Ctx, a: Action)
    requires !a.FocEnable? && !a.Force?
    ensures Perform(m, c, a).state == c.state
  {
  }

  // --------------------------------------------------------------- every step

  lemma TickKeepsInv(m: Libm, w: World, x: TickInput)
    requires m.Lawful() && Inv(m, w)
    ensures Inv(m, Apply(m, w, Tick(x)))
  {
    StepKeepsSafe(m, w.ctx, x);
    TickEffect(m, w.ctx, x);
    hide Safe, Step;
  }

  lemma BeginKeepsInv(m: Libm, w: World, cmd: Command)
    requires m.Lawful() && Inv(m, w)
    ensures Inv(m, Apply(m, w, Begin(cmd)))
  {
    DeltaInRange(m, w.ctx);
    ScriptsAreDisciplined(cmd, w.gate, w.ctx.state.Idle?);
    hide Safe, Script, Disciplined;
  }

  /** Ticks, starts of commands and actions of the command thread all keep the invariant. */
  lemma ApplyKeepsInv(m: Libm, w: World, e: Event)
    requires m.Lawful() && Inv(m, w)
    ensures Inv(m, Apply(m, w, e))
  {
    match e
    case Tick(x) => TickKeepsInv(m, w, x);
    case Begin(cmd) => BeginKeepsInv(m, w, cmd);
    case Advance(omega) =>
      match w.thread {
        case Ready =>
        case Calibrating => hide Safe;
        case Mosfet(_, _) => TestStepKeepsInv(m, w, omega);
        case Doing(todo) => if todo != [] { HeadKeepsDiscipline(m, w); } else { hide Safe; }
      }
  }

  // ------------------------------------------------------------ every history

  /** The invariant holds after every history from power-up. */
  lemma {:induction false} InvAlways(m: Libm, vbus: Positive, evs: seq<Event>)
    requires m.Lawful() && Feasible(m, vbus)
    ensures Inv(m, Run(m, Boot(m, vbus), evs))
  {
    if evs == [] {
      BootIsSafe(m, vbus);
    } else {
      var last := |evs| - 1;
      InvAlways(m, vbus, evs[..last]);
      ApplyKeepsInv(m, Run(m, Boot(m, vbus), evs[..last]), evs[last]);
    }
  }
}
