/**
  The alignment sweep: the open-loop field that foc_step drives for 7500 ticks
  between the enabling command and closed loop.
 */
module Alignment {
  import opened Numeric
  import opened Transforms
  import opened Foc
  import opened FocSafety

  datatype Phase = Hold | Ramp | Settle

  /** The phase a countdown value falls in. */
  function PhaseOf(ticksLeft: int): Phase {
    if ticksLeft > ALIGN_HOLD_ABOVE then Hold
    else if ticksLeft > ALIGN_SETTLE_BELOW then Ramp
    else Settle
  }

  /** How many of the last `n` ticks of an alignment fall in a phase. */
  function TicksIn(phase: Phase, n: nat): nat {
    if n == 0 then 0 else TicksIn(phase, n - 1) + if PhaseOf(n) == phase then 1 else 0
  }

  lemma {:induction false} SettleTicks(n: nat)
    requires n <= ALIGN_SETTLE_BELOW
    ensures TicksIn(Settle, n) == n && TicksIn(Ramp, n) == 0 && TicksIn(Hold, n) == 0
  {
    if n > 0 { SettleTicks(n - 1); }
  }

  lemma {:induction false} RampTicks(n: nat)
    requires ALIGN_SETTLE_BELOW <= n <= ALIGN_HOLD_ABOVE
    ensures TicksIn(Settle, n) == ALIGN_SETTLE_BELOW && TicksIn(Ramp, n) == n - ALIGN_SETTLE_BELOW
    ensures TicksIn(Hold, n) == 0
    decreases n
  {
    if n > ALIGN_SETTLE_BELOW { RampTicks(n - 1); } else { SettleTicks(n); }
  }

  lemma {:induction false} HoldTicks(n: nat)
    requires ALIGN_HOLD_ABOVE <= n
    ensures TicksIn(Settle, n) == ALIGN_SETTLE_BELOW && TicksIn(Hold, n) == n - ALIGN_HOLD_ABOVE
    ensures TicksIn(Ramp, n) == ALIGN_HOLD_ABOVE - ALIGN_SETTLE_BELOW
    decreases n
  {
    if n > ALIGN_HOLD_ABOVE { HoldTicks(n - 1); } else { RampTicks(n); }
  }

  /** A full alignment spends 1875, 3750 and 1875 ticks in its three phases. */
  lemma PhaseLengths()
    ensures TicksIn(Hold, ALIGN_TICKS) == 1875
    ensures TicksIn(Ramp, ALIGN_TICKS) == 3750
    ensures TicksIn(Settle, ALIGN_TICKS) == 1875
  {
    HoldTicks(ALIGN_TICKS);
  }

  lemma AngleOfPhase(ticksLeft: int)
    ensures AlignAngle(ticksLeft) ==
      match PhaseOf(ticksLeft) {
        case Hold => HALF_PI
        case Ramp => HALF_PI * ((ticksLeft - 1875) as real / 3750.0)
        case Settle => 0.0
      }
  {
    assert ALIGN_HOLD_ABOVE == 5625 && ALIGN_SETTLE_BELOW == 1875;
    assert (ALIGN_HOLD_ABOVE - ALIGN_SETTLE_BELOW) as real == 3750.0;
  }

  /** The field never turns back, and turns by at most a 3750th of a quarter turn per tick. */
  lemma SweepIsGentle(ticksLeft: int)
    ensures 0.0 <= AlignAngle(ticksLeft) <= 1.5707963
    ensures AlignAngle(7500) == 1.5707963 && AlignAngle(1) == 0.0
    ensures 0.0 <= AlignAngle(ticksLeft) - AlignAngle(ticksLeft - 1) <= 1.5707963 / 3750.0
  {
    AngleOfPhase(ticksLeft);
    AngleOfPhase(ticksLeft - 1);
    AngleOfPhase(ALIGN_TICKS);
    AngleOfPhase(1);
    hide AlignAngle;
  }

  /** Ticks of an alignment count down to closed loop; no tick ends it early or late. */
  lemma {:induction false} AlignmentRun(m: Libm, c: Ctx, xs: seq<TickInput>)
    requires m.Lawful() && Safe(m, c) && c.state.Aligning? && c.alignTicksLeft == 7500
    requires |xs| <= 7500
    ensures var n := RunTicks(m, c, xs);
            && Safe(m, n)
            && (|xs| < 7500 ==> n.state.Aligning? && n.alignTicksLeft == 7500 - |xs|)
            && (|xs| == 7500 ==>
                  && n.state.Running? && n.pidId.integrator == 0.5
                  && n.pidIq.integrator == 0.0 && n.pidSpeed.integrator == 0.0)
            && n.pidPos == c.pidPos && n.psiMotor == c.psiMotor && n.lMotor == c.lMotor
  {
    if xs != [] {
      var last := |xs| - 1;
      AlignmentRun(m, c, xs[..last]);
      var d := RunTicks(m, c, xs[..last]);
      hide Safe, Svpwm, InvParkAt, ParkAt, WrapAngle, AlignAngle, RunTick, Clarke;
      StepKeepsSafe(m, d, xs[last]);
    }
  }

  /** Tick number `k` of an alignment drives 0.5 V exactly along the angle of its countdown. */
  lemma AlignmentDrivesField(m: Libm, c: Ctx, xs: seq<TickInput>, k: nat)
    requires m.Lawful() && Safe(m, c) && c.state.Aligning? && c.alignTicksLeft == 7500
    requires k < |xs| && k < 7500
    ensures var n := RunTicks(m, c, xs[..k + 1]);
            n.v == Dq(0.5, 0.0) && Exact(m, n.v, n.duty, n.i, n.iDq, AlignAngle(7500 - k), n.vbus)
  {
    hide Safe, Exact, Step, AlignAngle;
    AlignmentRun(m, c, xs[..k]);
    assert xs[..k + 1][..k] == xs[..k];
    AligningStepIsExact(m, RunTicks(m, c, xs[..k]), xs[k]);
  }

  /** Re-enabling after a trip does not clear the position integrator: closed loop restarts with
      whatever the trip left in it. */
  lemma PositionIntegratorSurvives(m: Libm, c: Ctx, xs: seq<TickInput>)
    requires m.Lawful() && Safe(m, c) && c.state.Error? && |xs| == 7500
    ensures var n := RunTicks(m, Enable(c, true), xs);
            n.state.Running? && n.pidPos == c.pidPos && n.mode == c.mode
  {
    hide Norm2, RunTicks;
    ModeKept(m, Enable(c, true), xs);
    AlignmentRun(m, Enable(c, true), xs);
  }

  lemma {:induction false} ModeKept(m: Libm, c: Ctx, xs: seq<TickInput>)
    ensures RunTicks(m, c, xs).mode == c.mode
  {
    if xs != [] {
      ModeKept(m, c, xs[..|xs| - 1]);
      StepKeepsMode(m, RunTicks(m, c, xs[..|xs| - 1]), xs[|xs| - 1]);
      hide Step;
    }
  }

  lemma StepKeepsMode(m: Libm, c: Ctx, x: TickInput)
    ensures Step(m, c, x).mode == c.mode
  {
    hide WrapAngle, Overcurrent, FeedForward, Clamps, ClampFactor, Scale, Add;
    hide Svpwm, ParkAt, InvParkAt, Clarke, AdvancedAngle, AlignAngle;
  }
}
