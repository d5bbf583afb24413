/**
  The control thread of main.c: one pass reads currents and encoder, steps the
  controller and writes the timers; a simulation build drives the model instead.
 */
module ControlLoop {
  import opened Numeric
  import opened Transforms
  import opened Foc
  import opened FocSafety
  import opened FocContext
  import Encoder
  import EncoderLaws
  import ControlLaws
  import Pwm
  import Simulator
  import Supervisor
  import ClosedLoop

  /** What one encoder reading hands to foc_step, given the readings since the last reset. */
  function EncoderInput(ia: real, ib: real, h: seq<int>, twoPi: real): TickInput
    requires h != []
  {
    TickInput(ia, ib,
              Encoder.ThetaOf(Encoder.TurnCounts(h[|h| - 1], h[0]), twoPi),
              Encoder.OmegaOf(Encoder.WindowDelta(h), twoPi),
              Encoder.ThetaOf(Encoder.Wrap32(Encoder.Counts(h)), twoPi))
  }

  /** What a step records of a shaft: position against its motion since reset, in turns of 4096 counts;
      speed in rpm over the last 40 readings; phase currents as measured. */
  lemma StepFollowsShaft(m: Libm, c: Ctx, ia: real, ib: real, p: seq<int>, h: seq<int>)
    requires EncoderLaws.Shaft(p, h) && |p| > 40 && h != []
    requires -0x8000_0000 <= p[0] - p[|p| - 1] < 0x8000_0000
    requires -30720 < p[|p| - 1] - p[|p| - 41] < 30720
    ensures var n := Step(m, c, EncoderInput(ia, ib, h, m.twoPi));
            && n.posMeas * 4096.0 == (p[0] - p[|p| - 1]) as real * m.twoPi
            && n.speedRpm * 0.008 * 4096.0 == 60.0 * (p[|p| - 41] - p[|p| - 1]) as real
            && n.i.a == ia && n.i.b == ib
    ensures EncoderInput(ia, ib, h, m.twoPi).thetaMech * 4096.0 == ((p[0] - p[|p| - 1]) % 4096) as real * m.twoPi
  {
    hide *;
    var x := EncoderInput(ia, ib, h, m.twoPi);
    InputTerms(ia, ib, h, m.twoPi);
    EncoderLaws.SameLengths(p, h);
    EncoderLaws.PositionIsTrue(p, h, m.twoPi);
    EncoderLaws.VelocityIsTrue(p, h, m.twoPi);
    EncoderLaws.AngleIsTrue(p, h, m.twoPi);
    ControlLaws.StepRecords(m, c, x);
    RpmOfCounts(Step(m, c, x).speedRpm, x.omegaMech, (p[|p| - 41] - p[|p| - 1]) as real, m.twoPi);
  }

  lemma InputTerms(ia: real, ib: real, h: seq<int>, twoPi: real)
    requires h != []
    ensures var x := EncoderInput(ia, ib, h, twoPi);
            && x.ia == ia && x.ib == ib && x.posMech == EncoderLaws.ReturnedPosition(h, twoPi)
            && x.omegaMech == EncoderLaws.ReturnedVelocity(h, twoPi)
            && x.thetaMech == EncoderLaws.ReturnedAngle(h, twoPi)
  {
    hide Encoder.ThetaOf, Encoder.OmegaOf, Encoder.Wrap32, Encoder.Counts, Encoder.TurnCounts, Encoder.WindowDelta;
  }

  lemma RpmOfCounts(rpm: real, omega: real, counts: real, twoPi: Positive)
    requires rpm * twoPi == 60.0 * omega && omega * 0.008 * 4096.0 == counts * twoPi
    ensures rpm * 0.008 * 4096.0 == 60.0 * counts
  {
    var y := rpm * 0.008 * 4096.0;
    assert y * twoPi == 60.0 * counts * twoPi;
    ControlLaws.SameQuotient(y, 60.0 * counts, twoPi);
  }

  class ControlThread {
    const foc: FocContext
    const encoder: Encoder.Encoder
    const timers: Pwm.Timers

    /** Between passes, once the first duties are written: the sample point can be reached. */
    ghost predicate Valid()
      reads this, foc, foc.pidId, foc.pidIq, foc.pidSpeed, foc.pidPos, encoder, encoder.omegaHist, timers
    {
      && foc.Valid() && foc.lib.Lawful() && Safe(foc.lib, foc.Value())
      && encoder.Valid() && encoder.twoPi == foc.lib.twoPi
      && timers.countsA >= 3 && 0 < timers.ccr4 < timers.countsA
    }

    constructor (foc: FocContext, encoder: Encoder.Encoder, timers: Pwm.Timers)
      ensures this.foc == foc && this.encoder == encoder && this.timers == timers
    {
      this.foc, this.encoder, this.timers := foc, encoder, timers;
    }

    /** One pass. `count` is TIM3 when the currents are read, `raw` the encoder counter,
        and `rawAtReset` the counter where the step resets the encoder. */
    method Pass(count: nat, ia: real, ib: real, raw: int, rawAtReset: int) returns (polls: nat, aligned: bool)
      requires Valid() && count < timers.countsA
      requires Encoder.IsRaw(raw) && Encoder.IsRaw(rawAtReset)
      modifies foc, foc.pidId, foc.pidIq, foc.pidSpeed, foc.pidPos, encoder, encoder.omegaHist, timers
      ensures Valid()
      ensures polls <= timers.countsA
      ensures foc.Value() == Step(foc.lib, old(foc.Value()),
                                  EncoderInput(ia, ib, old(encoder.readings) + [raw], foc.lib.twoPi))
      ensures aligned <==> old(foc.state) == Aligning && foc.state == Running
      ensures encoder.readings == if aligned then [rawAtReset] else old(encoder.readings) + [raw]
      ensures timers.ccr3 == Pwm.Compare(foc.duty.a, timers.countsA)
      ensures timers.tim12Ccr1 == Pwm.Compare(foc.duty.b, timers.countsB)
      ensures timers.tim11Ccr1 == Pwm.Compare(foc.duty.c, timers.countsC)
      ensures timers.ccr4 == Pwm.SamplePoint(foc.duty.a, timers.countsA - 1)
      ensures Pwm.LegFollows(timers.ccr3, foc.duty.a, timers.countsA, foc.vbus)
      ensures timers.countsB > 0 ==> Pwm.LegFollows(timers.tim12Ccr1, foc.duty.b, timers.countsB, foc.vbus)
      ensures timers.countsC > 0 ==> Pwm.LegFollows(timers.tim11Ccr1, foc.duty.c, timers.countsC, foc.vbus)
    {
      hide Step, Safe, Encoder.Counts, Encoder.WindowDelta, Encoder.TurnCounts, Encoder.Wrap32;
      hide Encoder.ThetaOf, Encoder.OmegaOf, Libm.Lawful, Pwm.Realises, Pwm.LegFollows;
      var at;
      at, polls := Pwm.AwaitSample(count, timers.ccr4, timers.countsA - 1);
      var theta, omega, pos := encoder.Read(raw);
      StepKeepsSafe(foc.lib, foc.Value(), TickInput(ia, ib, theta, omega, pos));
      aligned := foc.Step(TickInput(ia, ib, theta, omega, pos));
      if aligned {
        encoder.Reset(rawAtReset);
      }
      SafeDuties(foc.lib, foc.Value());
      timers.SetPwm(foc.duty);
      Pwm.SamplePointReachable(foc.duty.a, timers.countsA - 1);
      LegsFollow();
    }

    /** Compare values that realise the duties apply them, leg by leg. */
    lemma LegsFollow()
      requires foc.duty.InUnit() && timers.countsA > 0
      requires Pwm.Realises(timers.ccr3, foc.duty.a, timers.countsA)
      requires Pwm.Realises(timers.tim12Ccr1, foc.duty.b, timers.countsB)
      requires Pwm.Realises(timers.tim11Ccr1, foc.duty.c, timers.countsC)
      ensures Pwm.LegFollows(timers.ccr3, foc.duty.a, timers.countsA, foc.vbus)
      ensures timers.countsB > 0 ==> Pwm.LegFollows(timers.tim12Ccr1, foc.duty.b, timers.countsB, foc.vbus)
      ensures timers.countsC > 0 ==> Pwm.LegFollows(timers.tim11Ccr1, foc.duty.c, timers.countsC, foc.vbus)
    {
      hide Pwm.Realises, Pwm.LegFollows;
      Pwm.RealisedLegFollows(timers.ccr3, foc.duty.a, timers.countsA, foc.vbus);
      if timers.countsB > 0 { Pwm.RealisedLegFollows(timers.tim12Ccr1, foc.duty.b, timers.countsB, foc.vbus); }
      if timers.countsC > 0 { Pwm.RealisedLegFollows(timers.tim11Ccr1, foc.duty.c, timers.countsC, foc.vbus); }
    }
  }

  lemma SafeDuties(m: Libm, c: Ctx)
    requires Safe(m, c)
    ensures c.duty.InUnit()
  {
  }

  class SimThread {
    const foc: FocContext
    const sim: Simulator.Simulator

    constructor (foc: FocContext, sim: Simulator.Simulator)
      ensures this.foc == foc && this.sim == sim
    {
      this.foc, this.sim := foc, sim;
    }

    /** The world as the command thread sees it between two of its actions. */
    ghost function Bench(gate: bool, thread: Supervisor.Thread, summary: Supervisor.Summary): ClosedLoop.Bench
      reads foc, foc.pidId, foc.pidIq, foc.pidSpeed, foc.pidPos, sim
    {
      ClosedLoop.Bench(Supervisor.World(foc.Value(), gate, thread, summary), sim.Value())
    }

    /** One pass of a simulation build is one pass of the closed loop. */
    method Pass(ghost gate: bool, ghost thread: Supervisor.Thread, ghost summary: Supervisor.Summary)
      requires foc.Valid()
      modifies foc, foc.pidId, foc.pidIq, foc.pidSpeed, foc.pidPos, sim
      ensures Bench(gate, thread, summary) == ClosedLoop.LoopPass(foc.lib, old(Bench(gate, thread, summary)))
    {
      hide Step, Simulator.SimState.Step, Simulator.SimState.Ia, Simulator.SimState.Ib;
      var s := sim.Value();
      var aligned := foc.Step(TickInput(s.Ia(foc.lib), s.Ib(foc.lib), s.theta, s.omega, s.thetaUnwrapped));
      if aligned {
        sim.Reset();
      }
      sim.SetVoltages(foc.v);
      sim.Step(CONTROL_DT, foc.lib.twoPi);
    }
  }
}
