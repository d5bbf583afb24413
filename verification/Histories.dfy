/**
  What every history of the supervised controller looks like, stated over the
  sequence of its events.
 */
module Histories {
  import opened Numeric
  import opened Transforms
  import opened PidControl
  import opened Foc
  import opened FocSafety
  import opened Supervisor
  import opened SupervisorSafety

  /** The world after the first `i` events from power-up. */
  function At(m: Libm, vbus: Positive, evs: seq<Event>, i: nat): World
    requires i <= |evs|
  {
    Run(m, Boot(m, vbus), evs[..i])
  }

  function State(m: Libm, vbus: Positive, evs: seq<Event>, i: nat): FocState
    requires i <= |evs|
  {
    At(m, vbus, evs, i).ctx.state
  }

  lemma AtNext(m: Libm, vbus: Positive, evs: seq<Event>, i: nat)
    requires i < |evs|
    ensures At(m, vbus, evs, i + 1) == Apply(m, At(m, vbus, evs, i), evs[i])
  {
    RunPrefix(m, Boot(m, vbus), evs, i);
  }

  lemma AtStart(m: Libm, vbus: Positive, evs: seq<Event>)
    ensures At(m, vbus, evs, 0) == Boot(m, vbus)
  {
    assert evs[..0] == [];
  }

  // ------------------------------------------------------- limits and outputs

  lemma ApplyKeepsBus(m: Libm, w: World, e: Event)
    ensures Apply(m, w, e).ctx.vbus == w.ctx.vbus
  {
    hide WrapAngle, Overcurrent, FeedForward, PidState.Output, PidState.Updated, Clamps, ClampFactor, Scale, Add;
    hide Svpwm, ParkAt, InvParkAt, Clarke, AdvancedAngle, AlignAngle, TestVector, VectorOk, FullVoltage;
  }

  lemma {:induction false} BusIsConstant(m: Libm, vbus: Positive, evs: seq<Event>, i: nat)
    requires i <= |evs|
    ensures At(m, vbus, evs, i).ctx.vbus == vbus
  {
    if i == 0 {
      AtStart(m, vbus, evs);
    } else {
      hide Apply;
      BusIsConstant(m, vbus, evs, i - 1);
      AtNext(m, vbus, evs, i - 1);
      ApplyKeepsBus(m, At(m, vbus, evs, i - 1), evs[i - 1]);
    }
  }

  /** After every history: voltage limits, PI limits, references and duties are in range. */
  lemma LimitsAlwaysHold(m: Libm, vbus: Positive, evs: seq<Event>, i: nat)
    requires m.Lawful() && Feasible(m, vbus) && i <= |evs|
    ensures var c := At(m, vbus, evs, i).ctx;
            && 0.0 < c.vlim <= c.pidId.outMax == c.pidIq.outMax && c.pidId.outMax * m.sqrt3 <= vbus
            && c.pidId.outMin == -c.pidId.outMax && c.pidIq.outMin == -c.pidIq.outMax
            && c.pidSpeed.outMax == 3.0 && c.pidSpeed.outMin == -3.0
            && c.pidPos.outMax == 500.0 && c.pidPos.outMin == -500.0
            && Abs(c.iqRef) <= 8.0 && Abs(c.speedRef) <= 5000.0
            && c.duty.InUnit()
            && 3.0 * Norm2(c.v) <= vbus * vbus
  {
    InvAlways(m, vbus, evs[..i]);
    BusIsConstant(m, vbus, evs, i);
    hide Run, Norm2;
  }

  // ---------------------------------------------------------------- the gate

  /** After every history: the gate pin is low only in IDLE, and calibration runs only there. */
  lemma GateLowMeansIdle(m: Libm, vbus: Positive, evs: seq<Event>, i: nat)
    requires m.Lawful() && Feasible(m, vbus) && i <= |evs|
    ensures var w := At(m, vbus, evs, i);
            && (!w.gate ==> w.ctx.state.Idle?)
            && (w.thread.Calibrating? ==> !w.gate && w.ctx.state.Idle?)
  {
    InvAlways(m, vbus, evs[..i]);
    hide Run, Safe;
  }

  lemma VlimIsPositive(m: Libm, vbus: Positive, evs: seq<Event>, w: World)
    requires m.Lawful() && Feasible(m, vbus) && w == Run(m, Boot(m, vbus), evs)
    ensures w.ctx.vlim > 0.0
  {
    InvAlways(m, vbus, evs);
    hide Run, Norm2;
  }

  lemma InvAlwaysIdle(m: Libm, vbus: Positive, evs: seq<Event>, w: World)
    requires m.Lawful() && Feasible(m, vbus) && w == Run(m, Boot(m, vbus), evs)
    ensures !w.gate ==> w.ctx.state.Idle?
    ensures w.thread.Mosfet? ==> Inv(m, w)
  {
    InvAlways(m, vbus, evs);
    hide Run, Safe;
  }

  // ------------------------------------------------------------ mosfet test

  /** How many actions of the command thread are left in the test, at most. */
  function Rank(t: Thread): int {
    match t
    case Mosfet(at, test) =>
      var after := 2 + (VECTORS - 1 - test.vec) * 9;
      (match at
       case Coast(n) => COAST_TRIES - n + 10 + after
       case GateOn => 10 + after
       case Drive => 9 + after
       case Sample(s) => SAMPLES - s + 3 + after
       case Neutral => 3 + after
       case OcReset => 2 + after
       case OcGate => 1 + after
       case FinalReset => 2
       case FinalGate => 1)
    case _ => 0
  }

  /** The test has ended: controller idle, gate low, six verdicts. */
  predicate TestDone(w: World) {
    && w.thread.Ready? && w.ctx.state.Idle? && !w.gate
    && w.summary.Reported? && w.summary.pass + w.summary.fail == VECTORS
  }

  /** Every action of the test makes progress, up to its orderly end. */
  lemma TestProgress(m: Libm, w: World, omega: real)
    requires Inv(m, w) && w.thread.Mosfet?
    ensures var n := TestStep(m, w, omega);
            && Rank(w.thread) > 0
            && (if n.thread.Mosfet? then Rank(n.thread) < Rank(w.thread) else TestDone(n))
  {
    hide Safe, TestVector, VectorOk;
  }

  function Advances(evs: seq<Event>): nat {
    if evs == [] then 0
    else Advances(evs[..|evs| - 1]) + if evs[|evs| - 1].Advance? then 1 else 0
  }

  /** Along every history a running test either has ended or has used up its actions one by one. */
  lemma {:induction false} TestRuns(m: Libm, w: World, evs: seq<Event>) returns (done: bool, i: nat)
    requires m.Lawful() && Inv(m, w) && w.thread.Mosfet?
    ensures i <= |evs|
    ensures done ==> TestDone(Run(m, w, evs[..i]))
    ensures !done ==>
      && Inv(m, Run(m, w, evs)) && Run(m, w, evs).thread.Mosfet?
      && Rank(Run(m, w, evs).thread) + Advances(evs) <= Rank(w.thread)
  {
    if evs == [] {
      done, i := false, 0;
    } else {
      var last := |evs| - 1;
      done, i := TestRuns(m, w, evs[..last]);
      if done {
        assert evs[..last][..i] == evs[..i];
      } else {
        var d, e := Run(m, w, evs[..last]), evs[last];
        ApplyKeepsInv(m, d, e);
        assert Run(m, w, evs) == Apply(m, d, e);
        assert evs[..|evs|] == evs;
        hide Inv, Rank, TestDone, Step;
        if e.Advance? {
          TestProgress(m, d, e.omega);
          if !Run(m, w, evs).thread.Mosfet? {
            done, i := true, |evs|;
          }
        }
      }
    }
  }

  /** A test that has started always ends idle with the gate low and six verdicts, whatever trips
      happen, once the command thread has performed as many actions as it has left. */
  lemma MosfetTestEnds(m: Libm, w: World, evs: seq<Event>) returns (i: nat)
    requires m.Lawful() && Inv(m, w) && w.thread.Mosfet?
    requires Advances(evs) >= Rank(w.thread)
    ensures i <= |evs| && TestDone(Run(m, w, evs[..i]))
  {
    var done: bool;
    done, i := TestRuns(m, w, evs);
    if !done {
      TestProgress(m, Run(m, w, evs), 0.0);
    }
  }

  // ------------------------------------------------- entry to closed loop

  /** Number of control ticks among events `i` up to `j`. */
  function Ticks(evs: seq<Event>, i: nat, j: nat): nat
    requires i <= j <= |evs|
    decreases j
  {
    if i == j then 0 else Ticks(evs, i, j - 1) + if evs[j - 1].Tick? then 1 else 0
  }

  /** The state is `s` after every event numbered `i` to `j`. */
  ghost predicate Stays(m: Libm, vbus: Positive, evs: seq<Event>, s: FocState, i: nat, j: nat)
    requires j <= |evs|
  {
    forall k :: i <= k <= j ==> State(m, vbus, evs, k) == s
  }

  /** The command thread is about to perform the last action of `enable`. */
  predicate Enabling(t: Thread) {
    t.Doing? && t.todo != [] && t.todo[0] == FocEnable(true)
  }

  /** Event `a` is the enabling action that put an idle or tripped controller into alignment. */
  ghost predicate Enables(m: Libm, vbus: Positive, evs: seq<Event>, a: nat)
    requires a < |evs|
  {
    && evs[a].Advance? && Enabling(At(m, vbus, evs, a).thread)
    && (State(m, vbus, evs, a).Idle? || State(m, vbus, evs, a).Error?)
    && State(m, vbus, evs, a + 1).Aligning?
  }

  /** Only the last action of `enable` starts an alignment; only a counted-down tick ends it in closed loop. */
  predicate Moves(w: World, n: World, e: Event) {
    && (n.ctx.state.Aligning? && !w.ctx.state.Aligning? ==>
          && e.Advance? && Enabling(w.thread)
          && (w.ctx.state.Idle? || w.ctx.state.Error?) && n.ctx.alignTicksLeft == 7500)
    && (n.ctx.state.Aligning? && w.ctx.state.Aligning? ==>
          n.ctx.alignTicksLeft == w.ctx.alignTicksLeft - if e.Tick? then 1 else 0)
    && (n.ctx.state.Running? && !w.ctx.state.Running? ==>
          e.Tick? && w.ctx.state.Aligning? && w.ctx.alignTicksLeft == 1)
    && (n.ctx.state.Error? && !w.ctx.state.Error? ==> e.Tick?)
    && (e.Tick? && w.ctx.state.Error? ==> n.ctx.state.Error?)
    && n.ctx.overcurrentCount == (if n.ctx.state.Error? && !w.ctx.state.Error?
                                  then (w.ctx.overcurrentCount + 1) % UINT32
                                  else w.ctx.overcurrentCount)
  }

  lemma EventMoves(m: Libm, w: World, e: Event)
    requires Inv(m, w)
    ensures Moves(w, Apply(m, w, e), e)
  {
    match e
    case Tick(x) =>
      TickEffect(m, w.ctx, x);
      CountdownPositive(m, w);
      hide Inv, Step;
    case Begin(_) => hide Inv, Start;
    case Advance(omega) =>
      if w.thread.Doing? && w.thread.todo != [] {
        PerformEffect(m, w.ctx, w.thread.todo[0]);
        hide Safe, Perform;
      } else {
        hide Safe, TestVector, VectorOk;
      }
  }

  lemma CountdownPositive(m: Libm, w: World)
    requires Inv(m, w)
    ensures w.ctx.state.Aligning? ==> 1 <= w.ctx.alignTicksLeft <= 7500
  {
    hide ThreadOk, LimitsOk, RefsOk, Norm2;
  }

  /** Every event of every history moves the state in one of these ways. */
  lemma MovesAt(m: Libm, vbus: Positive, evs: seq<Event>, i: nat)
    requires m.Lawful() && Feasible(m, vbus) && i < |evs|
    ensures Moves(At(m, vbus, evs, i), At(m, vbus, evs, i + 1), evs[i])
  {
    hide Moves, Inv, Apply;
    AtNext(m, vbus, evs, i);
    InvAlways(m, vbus, evs[..i]);
    EventMoves(m, At(m, vbus, evs, i), evs[i]);
  }

  /** An alignment in progress goes back to its enabling action without interruption, and its
      countdown plus the ticks since then make 7500. */
  lemma {:induction false} AligningHistory(m: Libm, vbus: Positive, evs: seq<Event>, i: nat) returns (a: nat)
    requires m.Lawful() && Feasible(m, vbus) && i <= |evs|
    requires State(m, vbus, evs, i).Aligning?
    ensures a < i && Enables(m, vbus, evs, a) && Stays(m, vbus, evs, Aligning, a + 1, i)
    ensures Ticks(evs, a + 1, i) + At(m, vbus, evs, i).ctx.alignTicksLeft == 7500
  {
    hide At, Feasible, Libm.Lawful;
    StartsIdle(m, vbus, evs);
    MovesAt(m, vbus, evs, i - 1);
    if State(m, vbus, evs, i - 1).Aligning? {
      a := AligningHistory(m, vbus, evs, i - 1);
    } else {
      a := i - 1;
    }
  }

  lemma StartsIdle(m: Libm, vbus: Positive, evs: seq<Event>)
    ensures State(m, vbus, evs, 0).Idle? && At(m, vbus, evs, 0).ctx.overcurrentCount == 0
  {
    AtStart(m, vbus, evs);
  }

  /** Closed loop is reached only through a full alignment: the latest entry to RUNNING, at event
      `b`, follows exactly 7500 ticks of uninterrupted alignment since the enabling event `a`. */
  lemma {:induction false} RunningHistory(m: Libm, vbus: Positive, evs: seq<Event>, i: nat) returns (a: nat, b: nat)
    requires m.Lawful() && Feasible(m, vbus) && i <= |evs|
    requires State(m, vbus, evs, i).Running?
    ensures a < b < i && Enables(m, vbus, evs, a)
    ensures Stays(m, vbus, evs, Aligning, a + 1, b) && Stays(m, vbus, evs, Running, b + 1, i)
    ensures evs[b].Tick? && Ticks(evs, a + 1, b + 1) == 7500
  {
    hide At, Feasible, Libm.Lawful;
    StartsIdle(m, vbus, evs);
    MovesAt(m, vbus, evs, i - 1);
    if State(m, vbus, evs, i - 1).Running? {
      a, b := RunningHistory(m, vbus, evs, i - 1);
    } else {
      b := i - 1;
      a := AligningHistory(m, vbus, evs, b);
    }
  }

  /** How many of the first `i` events tripped the controller into ERROR. */
  function Trips(m: Libm, vbus: Positive, evs: seq<Event>, i: nat): nat
    requires i <= |evs|
  {
    if i == 0 then 0
    else Trips(m, vbus, evs, i - 1)
         + if State(m, vbus, evs, i).Error? && !State(m, vbus, evs, i - 1).Error? then 1 else 0
  }

  /** The 32-bit overcurrent counter counts the entries to ERROR, modulo its width. */
  lemma {:induction false} TripsAreCounted(m: Libm, vbus: Positive, evs: seq<Event>, i: nat)
    requires m.Lawful() && Feasible(m, vbus) && i <= |evs|
    ensures At(m, vbus, evs, i).ctx.overcurrentCount == Trips(m, vbus, evs, i) % 0x1_0000_0000
  {
    hide At, Feasible, Libm.Lawful;
    if i == 0 {
      StartsIdle(m, vbus, evs);
    } else {
      TripsAreCounted(m, vbus, evs, i - 1);
      MovesAt(m, vbus, evs, i - 1);
    }
  }

  /** ERROR is entered only by a tick and never left by one. */
  lemma ErrorIsLatched(m: Libm, vbus: Positive, evs: seq<Event>, i: nat)
    requires m.Lawful() && Feasible(m, vbus) && i < |evs|
    ensures State(m, vbus, evs, i + 1).Error? && !State(m, vbus, evs, i).Error? ==> evs[i].Tick?
    ensures State(m, vbus, evs, i).Error? && evs[i].Tick? ==> State(m, vbus, evs, i + 1).Error?
  {
    hide At, Feasible, Libm.Lawful;
    MovesAt(m, vbus, evs, i);
  }

  // --------------------------------------------------- the closed-loop ticks

  /** Every closed-loop tick of every history applies exactly the voltage it reports, within the
      voltage limit, at conserved power. */
  lemma RunningTicksAreExact(m: Libm, vbus: Positive, evs: seq<Event>, i: nat)
    requires m.Lawful() && Feasible(m, vbus) && i < |evs|
    requires evs[i].Tick? && State(m, vbus, evs, i).Running? && State(m, vbus, evs, i + 1).Running?
    ensures var c, n := At(m, vbus, evs, i).ctx, At(m, vbus, evs, i + 1).ctx;
            && Norm2(n.v) <= c.vlim * c.vlim
            && Exact(m, n.v, n.duty, n.i, n.iDq, AdvancedAngle(m, n.thetaE, n.omegaE), n.vbus)
  {
    hide *;
    TickAt(m, vbus, evs, i);
    var c, x := At(m, vbus, evs, i).ctx, evs[i].x;
    StaysRunning(m, c, x);
    RunningStepClamps(m, c, x);
    RunningStepIsExact(m, c, x);
  }

  lemma TickAt(m: Libm, vbus: Positive, evs: seq<Event>, i: nat)
    requires m.Lawful() && Feasible(m, vbus) && i < |evs| && evs[i].Tick?
    ensures var c := At(m, vbus, evs, i).ctx;
            && At(m, vbus, evs, i + 1).ctx == Step(m, c, evs[i].x) && Safe(m, c)
            && State(m, vbus, evs, i) == c.state && State(m, vbus, evs, i + 1) == Step(m, c, evs[i].x).state
  {
    hide Step, Safe, ThreadOk;
    AtNext(m, vbus, evs, i);
    InvAlways(m, vbus, evs[..i]);
  }

  /** A running controller that stays running was not tripped. */
  lemma StaysRunning(m: Libm, c: Ctx, x: TickInput)
    requires c.state.Running? && Step(m, c, x).state.Running?
    ensures !Overcurrent(Abc(x.ia, x.ib, -(x.ia + x.ib)))
  {
    hide RunTick, WrapAngle;
  }
}
