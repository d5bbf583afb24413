/**
  cmd.c in place: the command handlers over the shared context and the gate pin.

  A ghost log records what happens as events of the transition system in
  Supervisor.dfy, and every handler is proved to perform a path of that system.
  `env` supplies the control ticks that come between two actions of a handler.
 */
module Board {
  import opened Numeric
  import opened Transforms
  import opened Foc
  import opened FocContext
  import opened Supervisor
  import opened SupervisorSafety
  import opened Verdicts
  import Histories

  /** The log has grown by ticks and actions, without the start of another command. */
  ghost predicate Follows(before: seq<Event>, after: seq<Event>) {
    before <= after && forall k :: |before| <= k < |after| ==> !after[k].Begin?
  }

  class Board {
    const lib: Libm
    const foc: FocContext
    var gate: bool
    var summary: Summary
    ghost var log: seq<Event>
    /** The world that the log leads to. */
    ghost var seen: World

    ghost predicate Valid()
      reads this
    {
      && foc.Valid() && foc.lib == lib && lib.Lawful() && Feasible(lib, foc.vbus)
      && seen == Run(lib, Boot(lib, foc.vbus), log)
    }

    /** Everything done so far has been logged. */
    ghost predicate Settled()
      reads this, foc, foc.pidId, foc.pidIq, foc.pidSpeed, foc.pidPos
    {
      seen.ctx == foc.Value() && seen.gate == gate && seen.summary == summary
    }

    ghost predicate Free()
      reads this, foc, foc.pidId, foc.pidIq, foc.pidSpeed, foc.pidPos
    {
      Valid() && Settled() && seen.thread.Ready?
    }

    constructor (lib: Libm, vbus: Positive)
      requires lib.Lawful() && Feasible(lib, vbus)
      ensures Free() && fresh(foc.Repr()) && log == []
    {
      this.lib := lib;
      foc := new FocContext(lib, vbus);
      gate, summary := false, NoReport;
      log, seen := [], Boot(lib, vbus);
    }

    // -------------------------------------------------------------- the log

    ghost method Record(e: Event)
      requires Valid()
      modifies this`log, this`seen
      ensures Valid() && log == old(log) + [e] && seen == Apply(lib, old(seen), e)
    {
      hide Apply;
      RunSnoc(lib, Boot(lib, foc.vbus), log, e);
      log, seen := log + [e], Apply(lib, seen, e);
    }

    ghost method Begun(cmd: Supervisor.Command)
      requires Free()
      modifies this`log, this`seen
      ensures Valid() && Settled() && log == old(log) + [Begin(cmd)]
      ensures seen.thread == Start(old(seen), cmd)
    {
      hide Start;
      Record(Begin(cmd));
    }

    /** The thread's next scripted action has been performed. */
    ghost method Done(a: Action)
      requires Valid() && seen.thread.Doing? && seen.thread.todo != [] && seen.thread.todo[0] == a
      requires foc.Value() == Perform(lib, seen.ctx, a)
      requires gate == GateAfter(seen.gate, a) && summary == seen.summary
      modifies this`log, this`seen
      ensures Valid() && Settled() && log == old(log) + [Advance(0.0)]
      ensures var todo := old(seen).thread.todo;
              seen.thread == if |todo| == 1 then Ready else Doing(todo[1..])
    {
      hide Perform, GateAfter;
      Record(Advance(0.0));
    }

    /** The mosfet test has performed its next step. */
    ghost method Stepped(omega: real)
      requires Valid() && seen.thread.Mosfet?
      requires var n := TestStep(lib, seen, omega);
               foc.Value() == n.ctx && gate == n.gate && summary == n.summary
      modifies this`log, this`seen
      ensures Valid() && Settled() && log == old(log) + [Advance(omega)]
      ensures seen == TestStep(lib, old(seen), omega)
    {
      hide TestStep;
      Record(Advance(omega));
    }

    /** Control ticks while the command thread waits. */
    method Pause(xs: seq<TickInput>)
      requires Valid() && Settled()
      modifies this`log, this`seen, foc, foc.pidId, foc.pidIq, foc.pidSpeed, foc.pidPos
      ensures Valid() && Settled()
      ensures gate == old(gate) && summary == old(summary) && seen.thread == old(seen).thread
      ensures Follows(old(log), log) && foc.Value() == RunTicks(lib, old(foc.Value()), xs)
    {
      hide Run, Boot, Feasible, Libm.Lawful;
      var k := 0;
      while k < |xs|
        invariant 0 <= k <= |xs| && Valid() && Settled()
        invariant seen.thread == old(seen).thread
        invariant Follows(old(log), log) && foc.Value() == RunTicks(lib, old(foc.Value()), xs[..k])
      {
        hide Step;
        assert xs[..k + 1][..k] == xs[..k];
        var aligned := foc.Step(xs[k]);
        Record(Tick(xs[k]));
        k := k + 1;
      }
      assert xs[..k] == xs;
    }

    /** The start of a command, and the ticks before its first action. */
    method Enter(cmd: Supervisor.Command, xs: seq<TickInput>)
      requires Free()
      modifies this`log, this`seen, foc, foc.pidId, foc.pidIq, foc.pidSpeed, foc.pidPos
      ensures Valid() && Settled() && seen.thread == Start(old(seen), cmd)
      ensures gate == old(gate) && summary == old(summary)
      ensures Follows(old(log) + [Begin(cmd)], log) && foc.Value() == RunTicks(lib, old(foc.Value()), xs)
    {
      hide Start, RunTicks, Step, FocContext.Value;
      Begun(cmd);
      Pause(xs);
    }

    /** A scripted action has been performed; the ticks before the next. */
    method DoneThenPause(ghost a: Action, xs: seq<TickInput>)
      requires Valid() && seen.thread.Doing? && |seen.thread.todo| > 1 && seen.thread.todo[0] == a
      requires foc.Value() == Perform(lib, seen.ctx, a)
      requires gate == GateAfter(seen.gate, a) && summary == seen.summary
      modifies this`log, this`seen, foc, foc.pidId, foc.pidIq, foc.pidSpeed, foc.pidPos
      ensures Valid() && Settled() && seen.thread == Doing(old(seen).thread.todo[1..])
      ensures gate == old(gate) && summary == old(summary)
      ensures Follows(old(log), log) && foc.Value() == RunTicks(lib, old(foc.Value()), xs)
    {
      hide Perform, GateAfter, RunTicks, Step, FocContext.Value;
      Done(a);
      Pause(xs);
    }

    // --------------------------------------------------------- the handlers

    method EnableMotor(env: Interrupts)
      requires Free()
      modifies this, foc, foc.pidId, foc.pidIq, foc.pidSpeed, foc.pidPos
      ensures Free() && Follows(old(log) + [Begin(Supervisor.EnableMotor)], log)
      ensures foc.Value() == Foc.Enable(RunTicks(lib, RunTicks(lib, old(foc.Value()), env(0, 0)), env(0, 1)), true)
      ensures gate && summary == old(summary)
    {
      hide FocContext.Value, Step, RunTicks, Run, Boot, Feasible, Libm.Lawful;
      hide Foc.Enable;
      Enter(Supervisor.EnableMotor, env(0, 0));
      gate := true;
      DoneThenPause(GatePin(true), env(0, 1));
      foc.Enable(true);
      Done(FocEnable(true));
    }

    method DisableMotor(env: Interrupts)
      requires Free()
      modifies this, foc, foc.pidId, foc.pidIq, foc.pidSpeed, foc.pidPos
      ensures Free() && Follows(old(log) + [Begin(Supervisor.DisableMotor)], log)
      ensures foc.Value() == RunTicks(lib, Foc.Enable(RunTicks(lib, old(foc.Value()), env(0, 0)), false), env(0, 1))
      ensures !gate && summary == old(summary)
    {
      hide FocContext.Value, Step, RunTicks, Run, Boot, Feasible, Libm.Lawful;
      hide Foc.Enable;
      Enter(Supervisor.DisableMotor, env(0, 0));
      foc.Enable(false);
      DoneThenPause(FocEnable(false), env(0, 1));
      gate := false;
      Done(GatePin(false));
    }

    method SetSpeed(rpm: real, env: Interrupts)
      requires Free()
      modifies this, foc, foc.pidId, foc.pidIq, foc.pidSpeed, foc.pidPos
      ensures Free() && Follows(old(log) + [Begin(Supervisor.SetSpeed(rpm))], log)
      ensures foc.Value() ==
        Foc.SetSpeedRef(
          RunTicks(lib, Foc.SetMode(RunTicks(lib, old(foc.Value()), env(0, 0)), Speed), env(0, 1)), rpm)
      ensures gate == old(gate) && summary == old(summary)
    {
      hide FocContext.Value, Step, RunTicks, Run, Boot, Feasible, Libm.Lawful;
      hide Foc.SetMode, Foc.SetSpeedRef;
      Enter(Supervisor.SetSpeed(rpm), env(0, 0));
      foc.SetMode(Speed);
      DoneThenPause(FocMode(Speed), env(0, 1));
      foc.SetSpeedRef(rpm);
      Done(SpeedRef(rpm));
    }

    method SetTorque(amps: real, env: Interrupts)
      requires Free()
      modifies this, foc, foc.pidId, foc.pidIq, foc.pidSpeed, foc.pidPos
      ensures Free() && Follows(old(log) + [Begin(Supervisor.SetTorque(amps))], log)
      ensures foc.Value() ==
        Foc.SetTorqueRef(
          RunTicks(lib, Foc.SetMode(RunTicks(lib, old(foc.Value()), env(0, 0)), Torque), env(0, 1)), amps)
      ensures gate == old(gate) && summary == old(summary)
    {
      hide FocContext.Value, Step, RunTicks, Run, Boot, Feasible, Libm.Lawful;
      hide Foc.SetMode, Foc.SetTorqueRef;
      Enter(Supervisor.SetTorque(amps), env(0, 0));
      foc.SetMode(Torque);
      DoneThenPause(FocMode(Torque), env(0, 1));
      foc.SetTorqueRef(amps);
      Done(TorqueRef(amps));
    }

    method SetPos(degrees: real, env: Interrupts)
      requires Free()
      modifies this, foc, foc.pidId, foc.pidIq, foc.pidSpeed, foc.pidPos
      ensures Free() && Follows(old(log) + [Begin(Supervisor.SetPos(degrees))], log)
      ensures foc.Value() ==
        Foc.SetPosRef(
          RunTicks(lib, Foc.SetMode(RunTicks(lib, old(foc.Value()), env(0, 0)), Position), env(0, 1)), degrees * DEG)
      ensures gate == old(gate) && summary == old(summary)
    {
      hide FocContext.Value, Step, RunTicks, Run, Boot, Feasible, Libm.Lawful;
      hide Foc.SetMode, Foc.SetPosRef, DEG;
      var rad := degrees * DEG;
      Enter(Supervisor.SetPos(degrees), env(0, 0));
      foc.SetMode(Position);
      DoneThenPause(FocMode(Position), env(0, 1));
      foc.SetPosRef(rad);
      Done(PosRef(rad));
    }

    method SetPidCurrent(kp: real, ki: real, env: Interrupts)
      requires Free()
      modifies this, foc, foc.pidId, foc.pidIq, foc.pidSpeed, foc.pidPos
      ensures Free() && Follows(old(log) + [Begin(Supervisor.SetPidCurrent(kp, ki))], log)
      ensures foc.Value() == Foc.TuneCurrentPid(lib, RunTicks(lib, old(foc.Value()), env(0, 0)), kp, ki)
      ensures gate == old(gate) && summary == old(summary)
    {
      hide FocContext.Value, Step, RunTicks, Run, Boot, Feasible, Libm.Lawful;
      hide Foc.TuneCurrentPid;
      Enter(Supervisor.SetPidCurrent(kp, ki), env(0, 0));
      foc.TuneCurrentPid(kp, ki);
      Done(CurrentGains(kp, ki));
    }

    method SetPidSpeed(kp: real, ki: real, env: Interrupts)
      requires Free()
      modifies this, foc, foc.pidId, foc.pidIq, foc.pidSpeed, foc.pidPos
      ensures Free() && Follows(old(log) + [Begin(Supervisor.SetPidSpeed(kp, ki))], log)
      ensures foc.Value() == Foc.TuneSpeedPid(RunTicks(lib, old(foc.Value()), env(0, 0)), kp, ki)
      ensures gate == old(gate) && summary == old(summary)
    {
      hide FocContext.Value, Step, RunTicks, Run, Boot, Feasible, Libm.Lawful;
      hide Foc.TuneSpeedPid;
      Enter(Supervisor.SetPidSpeed(kp, ki), env(0, 0));
      foc.TuneSpeedPid(kp, ki);
      Done(SpeedGains(kp, ki));
    }

    method SetPidPos(kp: real, ki: real, env: Interrupts)
      requires Free()
      modifies this, foc, foc.pidId, foc.pidIq, foc.pidSpeed, foc.pidPos
      ensures Free() && Follows(old(log) + [Begin(Supervisor.SetPidPos(kp, ki))], log)
      ensures foc.Value() == Foc.TunePosPid(RunTicks(lib, old(foc.Value()), env(0, 0)), kp, ki)
      ensures gate == old(gate) && summary == old(summary)
    {
      hide FocContext.Value, Step, RunTicks, Run, Boot, Feasible, Libm.Lawful;
      hide Foc.TunePosPid;
      Enter(Supervisor.SetPidPos(kp, ki), env(0, 0));
      foc.TunePosPid(kp, ki);
      Done(PosGains(kp, ki));
    }

    method SetMotorParams(lMilli: real, psi: real, env: Interrupts)
      requires Free()
      modifies this, foc, foc.pidId, foc.pidIq, foc.pidSpeed, foc.pidPos
      ensures Free() && Follows(old(log) + [Begin(Supervisor.SetMotorParams(lMilli, psi))], log)
      ensures foc.Value() ==
        Foc.SetMotorPsi(
          RunTicks(lib, Foc.SetMotorL(RunTicks(lib, old(foc.Value()), env(0, 0)), Henry(lMilli)), env(0, 1)), psi)
      ensures gate == old(gate) && summary == old(summary)
    {
      hide FocContext.Value, Step, RunTicks, Run, Boot, Feasible, Libm.Lawful;
      hide Foc.SetMotorL, Foc.SetMotorPsi, Henry;
      var l := Henry(lMilli);
      Enter(Supervisor.SetMotorParams(lMilli, psi), env(0, 0));
      foc.SetMotorL(l);
      DoneThenPause(MotorL(l), env(0, 1));
      foc.SetMotorPsi(psi);
      Done(MotorPsi(psi));
    }

    method SetVmax(volts: real, env: Interrupts)
      requires Free()
      modifies this, foc, foc.pidId, foc.pidIq, foc.pidSpeed, foc.pidPos
      ensures Free() && Follows(old(log) + [Begin(Supervisor.SetVmax(volts))], log)
      ensures foc.Value() == Foc.SetVlim(lib, RunTicks(lib, old(foc.Value()), env(0, 0)), volts)
      ensures gate == old(gate) && summary == old(summary)
    {
      hide FocContext.Value, Step, RunTicks, Run, Boot, Feasible, Libm.Lawful;
      hide Foc.SetVlim;
      Enter(Supervisor.SetVmax(volts), env(0, 0));
      foc.SetVlim(volts);
      Done(Vlim(volts));
    }

    method ForceDuty(da: real, db: real, dc: real, env: Interrupts)
      requires Free()
      modifies this, foc, foc.pidId, foc.pidIq, foc.pidSpeed, foc.pidPos
      ensures Free() && Follows(old(log) + [Begin(Supervisor.ForceDuty(da, db, dc))], log)
      ensures foc.Value() ==
        Foc.SetForcedDuty(
          RunTicks(lib, RunTicks(lib, old(foc.Value()), env(0, 0)), env(0, 1)), ClampDuties(Abc(da, db, dc)))
      ensures gate && summary == old(summary)
    {
      hide FocContext.Value, Step, RunTicks, Run, Boot, Feasible, Libm.Lawful;
      hide ClampDuties, Foc.SetForcedDuty;
      var duty := ClampDuties(Abc(da, db, dc));
      Enter(Supervisor.ForceDuty(da, db, dc), env(0, 0));
      gate := true;
      DoneThenPause(GatePin(true), env(0, 1));
      foc.SetForcedDuty(duty);
      Done(Force(duty));
    }

    /** Refused while the gate is on; otherwise the calibration runs, here for one pause. */
    method Calibrate(env: Interrupts) returns (accepted: bool)
      requires Free()
      modifies this, foc, foc.pidId, foc.pidIq, foc.pidSpeed, foc.pidPos
      ensures Free() && Follows(old(log) + [Begin(Supervisor.Calibrate)], log)
      ensures accepted <==> !old(gate)
      ensures accepted ==> foc.state == Idle && foc.Value() == RunTicks(lib, old(foc.Value()), env(0, 0))
    {
      accepted := !gate;
      Begun(Supervisor.Calibrate);
      if accepted {
        Pause(env(0, 0));
        Histories.InvAlwaysIdle(lib, foc.vbus, log, seen);
        Record(Advance(0.0));
      }
    }

    // ------------------------------------------------------- the mosfet test

    /** The test stands at `at` with local variables `t`. */
    ghost predicate Testing(at: Point, t: Test)
      reads this, foc, foc.pidId, foc.pidIq, foc.pidSpeed, foc.pidPos
    {
      Valid() && Settled() && seen.thread == Mosfet(at, t)
    }

    /** Up to 30 readings of the speed, until it is below 2 rad/s. */
    method AwaitStandstill(speeds: nat -> real, env: Interrupts, ghost t: Test) returns (w: nat)
      requires Testing(Coast(0), t)
      modifies this`log, this`seen, foc, foc.pidId, foc.pidIq, foc.pidSpeed, foc.pidPos
      ensures Testing(GateOn, t) && Follows(old(log), log) && gate == old(gate)
      ensures w <= 30 && (w < 30 ==> -2.0 < speeds(w) < 2.0)
      ensures forall k :: 0 <= k < w ==> speeds(k) <= -2.0 || 2.0 <= speeds(k)
    {
      hide FocContext.Value, Step, RunTicks, Run, Boot, Feasible, Libm.Lawful;
      w := 0;
      while w < COAST_TRIES
        invariant 0 <= w <= COAST_TRIES && Follows(old(log), log) && gate == old(gate)
        invariant forall k :: 0 <= k < w ==> speeds(k) <= -2.0 || 2.0 <= speeds(k)
        invariant Testing(if w < COAST_TRIES then Coast(w) else GateOn, t)
      {
        var omega := speeds(w);
        Stepped(omega);
        if Abs(omega) < COAST_SPEED { break; }
        Pause(env(VECTORS, w + 1));
        w := w + 1;
      }
    }

    /** Up to five samples of the two phase currents, cut short by a trip. */
    method SumSamples(vec: nat, env: Interrupts, ghost c: Ctx, ghost t: Test)
      returns (oc: bool, sumA: real, sumB: real)
      requires Testing(Sample(0), t) && t.sumA == t.sumB == 0.0 && !t.oc
      requires foc.Value() == AtSample(lib, c, env, vec, 0)
      modifies this`log, this`seen, foc, foc.pidId, foc.pidIq, foc.pidSpeed, foc.pidPos
      ensures Testing(Neutral, t.(sumA := sumA, sumB := sumB, oc := oc))
      ensures oc <==> !NoTrip(lib, c, env, vec, SAMPLES)
      ensures !oc ==> sumA == SumA(lib, c, env, vec, SAMPLES) && sumB == SumB(lib, c, env, vec, SAMPLES)
      ensures Follows(old(log), log) && gate == old(gate)
    {
      hide Step, RunTicks, Run, Boot, Feasible, Libm.Lawful, AtSample, SumA, SumB, NoTrip;
      SamplesStart(lib, c, env, vec);
      var s := 0;
      sumA, sumB, oc := 0.0, 0.0, false;
      while s < SAMPLES
        invariant 0 <= s <= SAMPLES && !oc && Follows(old(log), log) && gate == old(gate)
        invariant Testing(if s < SAMPLES then Sample(s) else Neutral, t.(sumA := sumA, sumB := sumB))
        invariant foc.Value() == AtSample(lib, c, env, vec, s) && NoTrip(lib, c, env, vec, s)
        invariant sumA == SumA(lib, c, env, vec, s) && sumB == SumB(lib, c, env, vec, s)
      {
        SamplesNext(lib, c, env, vec, s);
        if foc.state == Error {
          oc := true;
          Stepped(0.0);
          break;
        }
        sumA := sumA + foc.i.a;
        sumB := sumB + foc.i.b;
        Stepped(0.0);
        Pause(env(vec, s + 1));
        s := s + 1;
      }
    }

    method ClearTrip(vec: nat, env: Interrupts, ghost t: Test)
      requires Testing(OcReset, t)
      modifies this, foc, foc.pidId, foc.pidIq, foc.pidSpeed, foc.pidPos
      ensures Valid() && Settled() && seen.thread == NextVector(t) && Follows(old(log), log)
    {
      hide FocContext.Value, Step, RunTicks, Run, Boot, Feasible, Libm.Lawful, NextVector, Foc.Reset;
      foc.Reset();
      Stepped(0.0);
      Pause(env(vec, 7));
      gate := true;
      Stepped(0.0);
    }

    method ApplyVector(delta: real, env: Interrupts, vec: nat, ghost t: Test)
      requires Testing(Drive, t) && t.vec == vec && t.delta == delta
      modifies this`log, this`seen, foc, foc.pidId, foc.pidIq, foc.pidSpeed, foc.pidPos
      ensures Testing(Sample(0), t.(sumA := 0.0, sumB := 0.0, oc := false))
      ensures foc.Value() ==
        AtSample(lib, Foc.SetForcedDuty(old(foc.Value()), TestVector(vec, delta)), env, vec, 0)
      ensures Follows(old(log), log) && gate == old(gate)
    {
      hide FocContext.Value, Step, RunTicks, Run, Boot, Feasible, Libm.Lawful, TestVector, Foc.SetForcedDuty;
      foc.SetForcedDuty(TestVector(vec, delta));
      Stepped(0.0);
      Pause(env(vec, 0));
    }

    /** Back to neutral; the step that counts the verdict on the vector. */
    method ReleaseVector(env: Interrupts, vec: nat, ghost t: Test)
      requires Testing(Neutral, t)
      modifies this`log, this`seen, foc, foc.pidId, foc.pidIq, foc.pidSpeed, foc.pidPos
      ensures Valid() && Settled() && Follows(old(log), log) && gate == old(gate)
      ensures seen.thread == if t.oc then Mosfet(OcReset, t.(fail := t.fail + 1))
                             else if VectorOk(t) then NextVector(t.(pass := t.pass + 1))
                             else NextVector(t.(fail := t.fail + 1))
    {
      hide FocContext.Value, Step, RunTicks, Run, Boot, Feasible, Libm.Lawful, VectorOk, NextVector, Foc.SetForcedDuty;
      foc.SetForcedDuty(NEUTRAL);
      Stepped(0.0);
      Pause(env(vec, 6));
    }

    /** One vector: drive it, sample, return to neutral, judge. It passes when no sample finds a
        trip and the mean currents follow the duties driven. */
    method TestOneVector(delta: real, env: Interrupts, vec: nat, ghost t: Test) returns (ok: bool, ghost after: Test)
      requires Testing(Drive, t) && t.vec == vec < VECTORS && t.delta == delta > 0.0
      modifies this, foc, foc.pidId, foc.pidIq, foc.pidSpeed, foc.pidPos
      ensures Valid() && Settled() && seen.thread == NextVector(after) && Follows(old(log), log)
      ensures ok <==> Passes(lib, Foc.SetForcedDuty(old(foc.Value()), TestVector(vec, delta)), env, vec, delta)
      ensures after.vec == vec && after.delta == delta
      ensures after.pass == t.pass + (if ok then 1 else 0) && after.fail == t.fail + (if ok then 0 else 1)
    {
      hide FocContext.Value, Run, Boot, Feasible, Libm.Lawful, NextVector, SignOk, Settled;
      hide Step, RunTicks, Foc.SetForcedDuty, TestVector, AtSample, SumA, SumB, NoTrip, CurrentsFollow;
      ghost var c := Foc.SetForcedDuty(foc.Value(), TestVector(vec, delta));
      ApplyVector(delta, env, vec, t);
      var oc, sumA, sumB := SumSamples(vec, env, c, t.(sumA := 0.0, sumB := 0.0, oc := false));
      after := t.(sumA := sumA, sumB := sumB, oc := oc);
      ReleaseVector(env, vec, after);
      ok := false;
      if oc {
        after := after.(fail := t.fail + 1);
        ClearTrip(vec, env, after);
      } else {
        var ia, ib := sumA / 5.0, sumB / 5.0;
        var signs := ExpectedSigns(vec);
        SignsIff(vec, delta, ia, ib);
        ok := SignOk(ia, signs.0) && SignOk(ib, signs.1) && SignOk(-(ia + ib), signs.2);
        after := if ok then after.(pass := t.pass + 1) else after.(fail := t.fail + 1);
      }
    }

    /** What the two kinds of bridge make of a vector driven from context `c`. */
    lemma Judged(c: Ctx, env: Interrupts, vec: nat, delta: real)
      requires vec < VECTORS && delta > 0.0
      ensures var d := Foc.SetForcedDuty(c, TestVector(vec, delta));
              && (Healthy(env, vec, delta) ==> Passes(lib, d, env, vec, delta))
              && (Reversed(env, vec, delta) ==> !Passes(lib, d, env, vec, delta))
    {
      var d := Foc.SetForcedDuty(c, TestVector(vec, delta));
      hide Healthy, Reversed, Passes;
      if Healthy(env, vec, delta) { HealthyPasses(lib, d, env, vec, delta); }
      if Reversed(env, vec, delta) { ReversedFails(lib, d, env, vec, delta); }
    }

    /** All six vectors in turn. */
    method TestAllVectors(delta: real, env: Interrupts, ghost t: Test) returns (pass: nat, fail: nat, ghost after: Test)
      requires Testing(Drive, t) && t.vec == t.pass == t.fail == 0 && t.delta == delta > 0.0
      modifies this, foc, foc.pidId, foc.pidIq, foc.pidSpeed, foc.pidPos
      ensures Testing(FinalReset, after) && Follows(old(log), log)
      ensures after.pass == pass && after.fail == fail && pass + fail == VECTORS
      ensures (forall k :: 0 <= k < VECTORS ==> Healthy(env, k, delta)) ==> pass == VECTORS
      ensures (forall k :: 0 <= k < VECTORS ==> Reversed(env, k, delta)) ==> pass == 0
    {
      hide FocContext.Value, Step, RunTicks, Run, Boot, Feasible, Libm.Lawful, Settled;
      hide Healthy, Reversed, Passes, Foc.SetForcedDuty, TestVector;
      pass, fail, after := 0, 0, t;
      var i := 0;
      while i < VECTORS
        invariant 0 <= i <= VECTORS && Follows(old(log), log)
        invariant Testing(if i < VECTORS then Drive else FinalReset, after)
        invariant i < VECTORS ==> after.vec == i
        invariant after.delta == delta && after.pass == pass && after.fail == fail && pass + fail == i
        invariant (forall k :: 0 <= k < VECTORS ==> Healthy(env, k, delta)) ==> pass == i
        invariant (forall k :: 0 <= k < VECTORS ==> Reversed(env, k, delta)) ==> pass == 0
      {
        Judged(foc.Value(), env, i, delta);
        var ok;
        ok, after := TestOneVector(delta, env, i, after);
        if ok { pass := pass + 1; } else { fail := fail + 1; }
        i := i + 1;
        if i < VECTORS {
          after := after.(vec := i);
        }
      }
    }

    /** The offset of the test vectors is positive. */
    lemma TestVoltage(c: Ctx)
      requires Valid() && seen.ctx == c
      ensures c.vlim > 0.0 && c.vlim / (2.0 * foc.vbus) > 0.0
    {
      hide Run, Boot, Feasible, Libm.Lawful;
      Histories.VlimIsPositive(lib, foc.vbus, log, seen);
      OffsetIsPositive(c.vlim, foc.vbus);
    }

    /** run_mosfet_test: refused in RUNNING and ALIGNING; otherwise six verdicts, and the
        controller idle with the gate low whatever trips happened. A bridge whose currents all
        follow the driven pair passes six times, one whose currents all run against it never. */
    method RunMosfetTest(speeds: nat -> real, env: Interrupts) returns (started: bool, pass: nat, fail: nat)
      requires Free()
      modifies this, foc, foc.pidId, foc.pidIq, foc.pidSpeed, foc.pidPos
      ensures Free() && Follows(old(log) + [Begin(MosfetTest)], log)
      ensures started <==> old(foc.state) != Running && old(foc.state) != Aligning
      ensures !started ==> foc.Value() == old(foc.Value()) && gate == old(gate) && summary == old(summary)
      ensures started ==> foc.state == Idle && !gate && summary == Reported(pass, fail) && pass + fail == 6
      ensures old(foc.vlim) > 0.0
      ensures started ==> var delta := old(foc.vlim) / (2.0 * foc.vbus);
                          && ((forall k :: 0 <= k < 6 ==> Healthy(env, k, delta)) ==> pass == 6)
                          && ((forall k :: 0 <= k < 6 ==> Reversed(env, k, delta)) ==> pass == 0)
    {
      hide Step, RunTicks, Run, Boot, Feasible, Libm.Lawful;
      hide Healthy, Reversed;
      pass, fail := 0, 0;
      TestVoltage(foc.Value());
      Begun(MosfetTest);
      started := foc.state != Running && foc.state != Aligning;
      if started {
        var delta := foc.vlim / (2.0 * foc.vbus);
        pass, fail := PerformTest(delta, speeds, env);
      }
    }

    method PerformTest(delta: real, speeds: nat -> real, env: Interrupts) returns (pass: nat, fail: nat)
      requires Testing(Coast(0), Test(delta, 0, 0.0, 0.0, false, 0, 0)) && delta > 0.0
      modifies this, foc, foc.pidId, foc.pidIq, foc.pidSpeed, foc.pidPos
      ensures Free() && Follows(old(log), log)
      ensures foc.Value().state == Idle && !gate && summary == Reported(pass, fail) && pass + fail == VECTORS
      ensures (forall k :: 0 <= k < VECTORS ==> Healthy(env, k, delta)) ==> pass == VECTORS
      ensures (forall k :: 0 <= k < VECTORS ==> Reversed(env, k, delta)) ==> pass == 0
    {
      hide FocContext.Value, Step, RunTicks, Run, Boot, Feasible, Libm.Lawful, Healthy, Reversed;
      ghost var t := Test(delta, 0, 0.0, 0.0, false, 0, 0);
      var w := AwaitStandstill(speeds, env, t);
      gate := true;
      Stepped(0.0);
      Pause(env(VECTORS, COAST_TRIES + 1));
      pass, fail, t := TestAllVectors(delta, env, t);
      FinishTest(pass, fail, env, t);
    }

    /** Back to idle, gate off, result reported. */
    method FinishTest(pass: nat, fail: nat, env: Interrupts, ghost t: Test)
      requires Testing(FinalReset, t) && t.pass == pass && t.fail == fail
      modifies this, foc, foc.pidId, foc.pidIq, foc.pidSpeed, foc.pidPos
      ensures Free() && Follows(old(log), log)
      ensures foc.Value().state == Idle && !gate && summary == Reported(pass, fail)
    {
      hide FocContext.Value, Step, RunTicks, Run, Boot, Feasible, Libm.Lawful, Foc.Reset;
      foc.Reset();
      Stepped(0.0);
      Pause(env(VECTORS, 0));
      gate := false;
      summary := Reported(pass, fail);
      Stepped(0.0);
      Histories.InvAlwaysIdle(lib, foc.vbus, log, seen);
    }

    /** dispatch: every command carries the transition system from one idle point of the
        command thread to the next. */
    method Dispatch(cmd: Supervisor.Command, speeds: nat -> real, env: Interrupts)
      requires Free()
      modifies this, foc, foc.pidId, foc.pidIq, foc.pidSpeed, foc.pidPos
      ensures Free() && Follows(old(log) + [Begin(cmd)], log)
      ensures Inv(lib, seen) && (!gate ==> foc.state == Idle)
    {
      hide Step, RunTicks, Inv;
      match cmd {
        case EnableMotor => EnableMotor(env);
        case DisableMotor => DisableMotor(env);
        case SetSpeed(rpm) => SetSpeed(rpm, env);
        case SetTorque(amps) => SetTorque(amps, env);
        case SetPos(degrees) => SetPos(degrees, env);
        case SetPidCurrent(kp, ki) => SetPidCurrent(kp, ki, env);
        case SetPidSpeed(kp, ki) => SetPidSpeed(kp, ki, env);
        case SetPidPos(kp, ki) => SetPidPos(kp, ki, env);
        case SetMotorParams(lMilli, psi) => SetMotorParams(lMilli, psi, env);
        case SetVmax(volts) => SetVmax(volts, env);
        case ForceDuty(da, db, dc) => ForceDuty(da, db, dc, env);
        case MosfetTest =>
          var started, pass, fail := RunMosfetTest(speeds, env);
        case Calibrate =>
          var accepted := Calibrate(env);
        case Status => Begun(Status);
      }
      InvAlways(lib, foc.vbus, log);
      Histories.InvAlwaysIdle(lib, foc.vbus, log, seen);
    }
  }
}
