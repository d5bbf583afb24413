/**
  What one control step does, in the quantities of its input and context alone:
  what it records, which way each loop of the cascade acts, and the voltage and
  integrators that follow.
 */
module ControlLaws {
  import opened Numeric
  import opened Transforms
  import opened PidControl
  import opened Foc
  import opened FocSafety

  /** A closed-loop step that does not trip. */
  predicate Untripped(c: Ctx, x: TickInput) {
    c.state.Running? && -8.0 <= x.ia <= 8.0 && -8.0 <= x.ib <= 8.0
  }

  lemma UntrippedRuns(m: Libm, c: Ctx, x: TickInput)
    requires Untripped(c, x)
    ensures Step(m, c, x) == RunTick(m, Sampled(m, c, x)) && Sampled(m, c, x).state.Running?
  {
    hide WrapAngle, RunTick;
  }

  // --------------------------------------------------------------- records

  /** Every step records its input, whatever the state: position, speed in rpm, electrical speed and
      angle for seven pole pairs, three balanced currents, one more pass. */
  lemma StepRecords(m: Libm, c: Ctx, x: TickInput)
    ensures var n := Step(m, c, x);
            && n.posMeas == x.posMech && n.speedRpm * m.twoPi == 60.0 * x.omegaMech
            && n.omegaE == 7.0 * x.omegaMech
            && n.i.a == x.ia && n.i.b == x.ib && n.i.a + n.i.b + n.i.c == 0.0
            && n.loopCount == (c.loopCount + 1) % 0x1_0000_0000
            && 0.0 <= n.thetaE < m.twoPi
            && n.thetaE == 7.0 * x.thetaMech - (7.0 * x.thetaMech / m.twoPi).Floor as real * m.twoPi
  {
    StepKeepsSample(m, c, x);
    WrapRemovesWholePeriods(7.0 * x.thetaMech, m.twoPi);
    RpmTimesTurn(x.omegaMech, m.twoPi);
    hide Step, WrapAngle, Rpm;
  }

  lemma RpmTimesTurn(omega: real, twoPi: Positive)
    ensures Rpm(omega, twoPi) * twoPi == 60.0 * omega
    ensures Rpm(omega, twoPi) == omega * 60.0 / twoPi
  {
    var k := 60.0 / twoPi;
    DivideBack(60.0, twoPi, k);
    assert omega * k * twoPi == 60.0 * omega;
    DivideBack(omega * 60.0, twoPi, omega * 60.0 / twoPi);
    SameQuotient(omega * k, omega * 60.0 / twoPi, twoPi);
  }

  lemma SameQuotient(x: real, y: real, k: real)
    requires k != 0.0 && x * k == y * k
    ensures x == y
  {
  }

  lemma StepKeepsSample(m: Libm, c: Ctx, x: TickInput)
    ensures var n, s := Step(m, c, x), Sampled(m, c, x);
            && n.posMeas == s.posMeas && n.speedRpm == s.speedRpm && n.omegaE == s.omegaE && n.i == s.i
            && n.loopCount == s.loopCount && n.thetaE == s.thetaE
  {
    hide WrapAngle, Overcurrent, FeedForward, PidState.Output, PidState.Updated, Clamps, ClampFactor, Scale, Add;
    hide Svpwm, ParkAt, InvParkAt, Clarke, AdvancedAngle, AlignAngle, Sampled;
  }

  /** The pass counter counts passes, modulo its width. */
  lemma {:induction false} PassesAreCounted(m: Libm, c: Ctx, xs: seq<TickInput>)
    requires c.loopCount < 0x1_0000_0000
    ensures RunTicks(m, c, xs).loopCount == (c.loopCount + |xs|) % 0x1_0000_0000
  {
    if xs != [] {
      var last := |xs| - 1;
      PassesAreCounted(m, c, xs[..last]);
      hide Step;
      PassIsCounted(m, RunTicks(m, c, xs[..last]), xs[last]);
      CountsOn(c.loopCount + last, RunTicks(m, c, xs[..last]).loopCount, RunTicks(m, c, xs).loopCount);
    }
  }

  lemma CountsOn(total: nat, before: nat, after: nat)
    requires before == total % 0x1_0000_0000 && after == (before + 1) % 0x1_0000_0000
    ensures after == (total + 1) % 0x1_0000_0000
  {
  }

  lemma PassIsCounted(m: Libm, c: Ctx, x: TickInput)
    ensures Step(m, c, x).loopCount == (c.loopCount + 1) % 0x1_0000_0000
  {
    StepRecords(m, c, x);
    hide Step;
  }

  // ---------------------------------------------------------- one PI update

  /** What a gain makes of an error. */
  function Share(kp: real, e: real): real {
    kp * e
  }

  /** What an integral gain gathers of an error in 0.2 ms. */
  function Gathered(ki: real, e: real): real {
    ki * e * 0.0002
  }

  /** A reference less a measured speed, in rpm. */
  function SpeedError(m: Libm, ref: real, omega: real): real {
    ref - omega * 60.0 / m.twoPi
  }

  /** The law of a PI controller over 0.2 ms: the output is the clamped sum of the proportional part and
      the integrator; the integrator moves by the error's share while the output is within its limits,
      and stays while the error drives it further into one. */
  predicate PiLaw(p: PidState, e: real, out: real, after: PidState) {
    var sum := Share(p.kp, e) + p.integrator;
    && after == p.(integrator := after.integrator)
    && out == Clamp(sum, p.outMin, p.outMax)
    && (p.outMin <= sum <= p.outMax ==> after.integrator == p.integrator + Gathered(p.ki, e))
    && (sum > p.outMax && e <= 0.0 ==> after.integrator == p.integrator + Gathered(p.ki, e))
    && (sum < p.outMin && e >= 0.0 ==> after.integrator == p.integrator + Gathered(p.ki, e))
    && (sum > p.outMax && e > 0.0 ==> after.integrator == p.integrator)
    && (sum < p.outMin && e < 0.0 ==> after.integrator == p.integrator)
  }

  lemma UpdateObeysPiLaw(p: PidState, e: real)
    requires p.outMin <= p.outMax
    ensures PiLaw(p, e, p.Output(e), p.Updated(e, CONTROL_DT))
  {
  }

  // --------------------------------------------------------------- cascade

  /** What a closed-loop step leaves of the outer loops, before naming their formulas. */
  lemma CascadeTerms(m: Libm, c: Ctx, x: TickInput)
    requires Untripped(c, x)
    ensures var n, s := Step(m, c, x), Sampled(m, c, x);
            var d := SpeedLoop(PositionLoop(s));
            && n.speedRef == d.speedRef && n.iqRef == d.iqRef && n.pidSpeed == d.pidSpeed && n.pidPos == d.pidPos
            && n.mode == c.mode && n.posRef == c.posRef
  {
    UntrippedRuns(m, c, x);
    hide Sampled, Step, FeedForward, PidState.Output, PidState.Updated, Clamps, ClampFactor, Scale, Add;
    hide Svpwm, ParkAt, InvParkAt, Clarke, AdvancedAngle;
  }

  lemma PositionTerms(c: Ctx)
    requires c.mode.Position?
    ensures var d := SpeedLoop(PositionLoop(c)); var e := c.posRef - c.posMeas;
            d.speedRef == c.pidPos.Output(e) && d.pidPos == c.pidPos.Updated(e, CONTROL_DT)
  {
    hide PidState.Output, PidState.Updated;
  }

  lemma SpeedTerms(c: Ctx)
    requires !c.mode.Torque?
    ensures var d := SpeedLoop(PositionLoop(c)); var e := d.speedRef - c.speedRpm;
            && d.iqRef == c.pidSpeed.Output(e) && d.pidSpeed == c.pidSpeed.Updated(e, CONTROL_DT)
            && (c.mode.Speed? ==> d.speedRef == c.speedRef && d.pidPos == c.pidPos)
  {
    hide PidState.Output, PidState.Updated;
  }

  lemma SampleTerms(m: Libm, c: Ctx, x: TickInput)
    ensures var s := Sampled(m, c, x);
            && s.mode == c.mode && s.posRef == c.posRef && s.speedRef == c.speedRef && s.iqRef == c.iqRef
            && s.pidPos == c.pidPos && s.pidSpeed == c.pidSpeed && s.pidId == c.pidId && s.pidIq == c.pidIq
            && s.posMeas == x.posMech && (forall ref: real :: ref - s.speedRpm == SpeedError(m, ref, x.omegaMech))
  {
    RpmTimesTurn(x.omegaMech, m.twoPi);
    hide WrapAngle, Rpm;
  }

  /** In position mode the speed reference is the position controller's output for target less position. */
  lemma PositionStep(m: Libm, c: Ctx, x: TickInput)
    requires Untripped(c, x) && c.mode.Position? && c.pidPos.outMin <= c.pidPos.outMax
    ensures var n := Step(m, c, x); PiLaw(c.pidPos, c.posRef - x.posMech, n.speedRef, n.pidPos)
  {
    hide *;
    CascadeTerms(m, c, x);
    SampleTerms(m, c, x);
    PositionTerms(Sampled(m, c, x));
    UpdateObeysPiLaw(c.pidPos, c.posRef - x.posMech);
  }

  /** In speed and position mode the torque reference is the speed controller's output for the
      reference in force less the measured speed in rpm. */
  lemma SpeedStep(m: Libm, c: Ctx, x: TickInput)
    requires Untripped(c, x) && !c.mode.Torque? && c.pidSpeed.outMin <= c.pidSpeed.outMax
    ensures var n := Step(m, c, x);
            && PiLaw(c.pidSpeed, SpeedError(m, n.speedRef, x.omegaMech), n.iqRef, n.pidSpeed)
            && (c.mode.Speed? ==> n.speedRef == c.speedRef && n.pidPos == c.pidPos)
  {
    hide *;
    var e := SpeedError(m, Step(m, c, x).speedRef, x.omegaMech);
    CascadeTerms(m, c, x);
    SampleTerms(m, c, x);
    SpeedTerms(Sampled(m, c, x));
    UpdateObeysPiLaw(c.pidSpeed, e);
  }

  /** In torque mode the references and the outer controllers stay. */
  lemma TorqueStep(m: Libm, c: Ctx, x: TickInput)
    requires Untripped(c, x) && c.mode.Torque?
    ensures var n := Step(m, c, x);
            n.iqRef == c.iqRef && n.speedRef == c.speedRef && n.pidSpeed == c.pidSpeed && n.pidPos == c.pidPos
  {
    CascadeTerms(m, c, x);
    hide Step, WrapAngle, Rpm;
  }

  lemma UntrippedStaysRunning(m: Libm, c: Ctx, x: TickInput)
    requires Untripped(c, x)
    ensures Step(m, c, x).state.Running?
  {
    UntrippedSample(m, c, x);
    StepStates(m, c, x);
    hide Step;
  }

  // ------------------------------------------------- the cascade from rest

  /** From a cleared speed integrator the torque reference is kp times reference less speed, within 3 A. */
  lemma SpeedFromRest(m: Libm, c: Ctx, x: TickInput)
    requires Untripped(c, x) && c.mode.Speed?
    requires c.pidSpeed.integrator == 0.0 && c.pidSpeed.outMin == -3.0 && c.pidSpeed.outMax == 3.0
    ensures Step(m, c, x).iqRef == Clamp(c.pidSpeed.kp * (c.speedRef - x.omegaMech * 60.0 / m.twoPi), -3.0, 3.0)
  {
    hide *;
    SpeedStep(m, c, x);
    var n, e := Step(m, c, x), SpeedError(m, c.speedRef, x.omegaMech);
    ShareIs(m, c.pidSpeed.kp, c.speedRef, x.omegaMech);
    OutputFromRest(c.pidSpeed, e, n.iqRef, n.pidSpeed, c.pidSpeed.kp * (c.speedRef - x.omegaMech * 60.0 / m.twoPi));
  }

  lemma OutputFromRest(p: PidState, e: real, out: real, after: PidState, share: real)
    requires PiLaw(p, e, out, after) && p.integrator == 0.0 && p.outMin == -3.0 && p.outMax == 3.0
    requires Share(p.kp, e) == share
    ensures out == Clamp(share, -3.0, 3.0)
  {
    OutputOfLaw(p, e, out, after);
    hide *;
  }

  lemma ShareIs(m: Libm, kp: real, ref: real, omega: real)
    ensures Share(kp, SpeedError(m, ref, omega)) == kp * (ref - omega * 60.0 / m.twoPi)
  {
    ShareOf(kp, SpeedError(m, ref, omega), ref - omega * 60.0 / m.twoPi);
    hide Share;
  }

  lemma ShareOf(kp: real, e: real, same: real)
    requires e == same
    ensures Share(kp, e) == kp * same
  {
  }

  lemma OutputOfLaw(p: PidState, e: real, out: real, after: PidState)
    requires PiLaw(p, e, out, after) && p.integrator == 0.0
    ensures out == Clamp(Share(p.kp, e), p.outMin, p.outMax)
  {
    hide Share, Gathered;
  }

  /** From cleared integrators the position loop calls for speed towards the target, and for none at it. */
  lemma PositionActsTowardsTarget(m: Libm, c: Ctx, x: TickInput)
    requires Untripped(c, x) && c.mode.Position?
    requires c.pidPos.integrator == 0.0 && c.pidPos.outMin == -500.0 && c.pidPos.outMax == 500.0 && c.pidPos.kp > 0.0
    ensures var n := Step(m, c, x);
            && (n.speedRef > 0.0 <==> c.posRef > x.posMech)
            && (n.speedRef < 0.0 <==> c.posRef < x.posMech)
            && (n.speedRef == 0.0 <==> c.posRef == x.posMech)
  {
    hide *;
    var n, e := Step(m, c, x), c.posRef - x.posMech;
    PositionStep(m, c, x);
    OutputOfLaw(c.pidPos, e, n.speedRef, n.pidPos);
    SignOfShare(c.pidPos.kp, e);
    SignOfClamp(Share(c.pidPos.kp, e), 500.0, n.speedRef);
  }

  lemma SignOfShare(k: real, e: real)
    requires k > 0.0
    ensures (Share(k, e) > 0.0 <==> e > 0.0) && (Share(k, e) < 0.0 <==> e < 0.0)
  {
    if e > 0.0 { MulStrict(0.0, e, k); }
    if e < 0.0 { MulStrict(e, 0.0, k); }
  }

  lemma SignOfClamp(x: real, limit: real, r: real)
    requires limit > 0.0 && r == Clamp(x, -limit, limit)
    ensures (r > 0.0 <==> x > 0.0) && (r < 0.0 <==> x < 0.0)
  {
  }

  /** Ticks at one held speed with currents that do not trip. */
  predicate HeldAt(xs: seq<TickInput>, omega: real) {
    forall k :: 0 <= k < |xs| ==> xs[k].omegaMech == omega && -8.0 <= xs[k].ia <= 8.0 && -8.0 <= xs[k].ib <= 8.0
  }

  /** The torque reference `n` ticks after the start: a step by the proportional share `a`, then a ramp
      by `r` per tick, within 3 A. */
  function Ramp(a: real, r: real, n: int): real {
    Clamp(a + Times(n, r), -3.0, 3.0)
  }

  function Times(n: int, r: real): real {
    n as real * r
  }

  /** After `n` ticks: the integrator has ramped, or stopped with the output beyond a limit. */
  predicate Ramping(c: Ctx, d: Ctx, e: real, a: real, r: real, n: nat) {
    && d.state.Running? && d.mode.Speed? && d.speedRef == c.speedRef
    && d.pidSpeed == c.pidSpeed.(integrator := d.pidSpeed.integrator)
    && (|| d.pidSpeed.integrator == Times(n, r)
        || (e > 0.0 && a + d.pidSpeed.integrator > 3.0 && Times(n, r) >= d.pidSpeed.integrator)
        || (e < 0.0 && a + d.pidSpeed.integrator < -3.0 && Times(n, r) <= d.pidSpeed.integrator))
  }

  /** A speed loop that starts from rest. */
  predicate SpeedAtRest(c: Ctx) {
    && c.state.Running? && c.mode.Speed? && c.pidSpeed.integrator == 0.0
    && c.pidSpeed.outMin == -3.0 && c.pidSpeed.outMax == 3.0 && c.pidSpeed.kp >= 0.0 && c.pidSpeed.ki >= 0.0
  }

  lemma RampTick(m: Libm, c: Ctx, d: Ctx, x: TickInput, e: real, a: real, r: real, n: nat)
    requires SpeedAtRest(c) && Ramping(c, d, e, a, r, n) && Untripped(d, x)
    requires e == SpeedError(m, c.speedRef, x.omegaMech)
    requires a == Share(c.pidSpeed.kp, e) && r == Gathered(c.pidSpeed.ki, e)
    ensures var s := Step(m, d, x); Ramping(c, s, e, a, r, n + 1) && s.iqRef == Ramp(a, r, n)
  {
    hide *;
    RampFacts(c, d, e, a, r, n);
    UntrippedStaysRunning(m, d, x);
    SpeedStep(m, d, x);
    CascadeTerms(m, d, x);
    RampSigns(c.pidSpeed.kp, c.pidSpeed.ki, e, a, r);
    RampNext(n, r);
    RampUpdate(c, d, Step(m, d, x), e, a, r, n);
  }

  lemma RampFacts(c: Ctx, d: Ctx, e: real, a: real, r: real, n: nat)
    requires SpeedAtRest(c) && Ramping(c, d, e, a, r, n)
    ensures d.state.Running? && d.mode.Speed? && !d.mode.Torque? && d.speedRef == c.speedRef
    ensures d.pidSpeed.outMin <= d.pidSpeed.outMax && c.pidSpeed.kp >= 0.0 && c.pidSpeed.ki >= 0.0
  {
    hide Times;
  }

  lemma RampUpdate(c: Ctx, d: Ctx, s: Ctx, e: real, a: real, r: real, n: nat)
    requires SpeedAtRest(c) && Ramping(c, d, e, a, r, n)
    requires a == Share(c.pidSpeed.kp, e) && r == Gathered(c.pidSpeed.ki, e)
    requires (e >= 0.0 ==> a >= 0.0 && r >= 0.0) && (e <= 0.0 ==> a <= 0.0 && r <= 0.0)
    requires PiLaw(d.pidSpeed, e, s.iqRef, s.pidSpeed)
    requires s.state.Running? && s.mode == d.mode && s.speedRef == d.speedRef
    requires Times(n + 1, r) == Times(n, r) + r
    requires (r >= 0.0 ==> Times(n, r) >= 0.0) && (r <= 0.0 ==> Times(n, r) <= 0.0)
    ensures Ramping(c, s, e, a, r, n + 1) && s.iqRef == Ramp(a, r, n)
  {
    hide Times, Share, Gathered;
  }

  lemma RampNext(n: nat, r: real)
    ensures Times(n + 1, r) == Times(n, r) + r && Times(0, r) == 0.0
    ensures (r >= 0.0 ==> Times(n, r) >= 0.0) && (r <= 0.0 ==> Times(n, r) <= 0.0)
  {
    Distribute(n as real, 1.0, r);
    if r >= 0.0 { MulMonotone(0.0, n as real, r); } else { MulMonotone(r, 0.0, n as real); }
  }

  lemma RampSigns(kp: real, ki: real, e: real, a: real, r: real)
    requires kp >= 0.0 && ki >= 0.0 && a == Share(kp, e) && r == Gathered(ki, e)
    ensures e >= 0.0 ==> a >= 0.0 && r >= 0.0
    ensures e <= 0.0 ==> a <= 0.0 && r <= 0.0
    ensures ki > 0.0 && e > 0.0 ==> r > 0.0
  {
    if e >= 0.0 {
      MulMonotone(0.0, e, kp);
      MulMonotone(0.0, e, ki);
    }
    if e <= 0.0 {
      MulMonotone(e, 0.0, kp);
      MulMonotone(e, 0.0, ki);
    }
    if ki > 0.0 && e > 0.0 { MulStrict(0.0, e, ki); }
  }

  /** At a held speed the torque reference ramps exactly: after tick `n + 1` it is the proportional share
      plus `n` integral shares of the error, within 3 A, in either direction. */
  lemma {:induction false} SpeedRamp(m: Libm, c: Ctx, xs: seq<TickInput>, omega: real)
    requires SpeedAtRest(c) && HeldAt(xs, omega)
    ensures var d, e := RunTicks(m, c, xs), SpeedError(m, c.speedRef, omega);
            var a, r := Share(c.pidSpeed.kp, e), Gathered(c.pidSpeed.ki, e);
            && Ramping(c, d, e, a, r, |xs|)
            && (xs != [] ==> d.iqRef == Ramp(a, r, |xs| - 1))
  {
    var e := SpeedError(m, c.speedRef, omega);
    RampNext(0, Gathered(c.pidSpeed.ki, e));
    hide Step, Ramp, SpeedError, Share, Gathered, Times;
    if xs != [] {
      var last := |xs| - 1;
      SpeedRamp(m, c, xs[..last], omega);
      RampFacts(c, RunTicks(m, c, xs[..last]), e, Share(c.pidSpeed.kp, e), Gathered(c.pidSpeed.ki, e), last);
      hide Ramping, SpeedAtRest;
      var was := RunTicks(m, c, xs[..last]);
      RampTick(m, c, was, xs[last], e, Share(c.pidSpeed.kp, e), Gathered(c.pidSpeed.ki, e), last);
    }
  }

  lemma HeldPrefix(xs: seq<TickInput>, omega: real, j: nat)
    requires HeldAt(xs, omega) && j <= |xs|
    ensures HeldAt(xs[..j], omega)
  {
  }

  lemma RampMonotone(a: real, r: real, j: nat, k: nat)
    requires r >= 0.0 && j <= k
    ensures Ramp(a, r, j) <= Ramp(a, r, k)
  {
    MulMonotone(j as real, k as real, r);
    var x, y := Times(j, r), Times(k, r);
    assert x <= y;
    hide Times;
  }

  lemma RestGains(c: Ctx)
    requires SpeedAtRest(c)
    ensures c.pidSpeed.kp >= 0.0 && c.pidSpeed.ki >= 0.0
  {
  }

  /** Held at or below the reference, the torque reference never decreases from tick to tick. */
  lemma SpeedRampRises(m: Libm, c: Ctx, xs: seq<TickInput>, omega: real, j: nat, k: nat)
    requires SpeedAtRest(c) && HeldAt(xs, omega) && SpeedError(m, c.speedRef, omega) >= 0.0
    requires 1 <= j <= k <= |xs|
    ensures RunTicks(m, c, xs[..j]).iqRef <= RunTicks(m, c, xs[..k]).iqRef
  {
    hide *;
    var e := SpeedError(m, c.speedRef, omega);
    HeldPrefix(xs, omega, j);
    HeldPrefix(xs, omega, k);
    SpeedRamp(m, c, xs[..j], omega);
    SpeedRamp(m, c, xs[..k], omega);
    RestGains(c);
    RampSigns(c.pidSpeed.kp, c.pidSpeed.ki, e, Share(c.pidSpeed.kp, e), Gathered(c.pidSpeed.ki, e));
    RampMonotone(Share(c.pidSpeed.kp, e), Gathered(c.pidSpeed.ki, e), j - 1, k - 1);
  }

  /** And held below it, with an integral gain, it reaches 3 A after finitely many ticks and stays there. */
  lemma SpeedRampReachesLimit(m: Libm, c: Ctx, omega: real) returns (n: nat)
    requires SpeedAtRest(c) && c.pidSpeed.ki > 0.0 && c.speedRef > omega * 60.0 / m.twoPi
    ensures forall xs: seq<TickInput> :: HeldAt(xs, omega) && |xs| >= n ==> RunTicks(m, c, xs).iqRef == 3.0
  {
    var e := SpeedError(m, c.speedRef, omega);
    var a, r := Share(c.pidSpeed.kp, e), Gathered(c.pidSpeed.ki, e);
    assert e > 0.0;
    RestGains(c);
    hide *;
    RampSigns(c.pidSpeed.kp, c.pidSpeed.ki, e, a, r);
    var steps := StepsToCover(3.0, r);
    n := steps + 1;
    forall xs: seq<TickInput> | HeldAt(xs, omega) && |xs| >= n
      ensures RunTicks(m, c, xs).iqRef == 3.0
    {
      SpeedRamp(m, c, xs, omega);
      RampFull(a, r, steps, |xs| - 1);
    }
  }

  lemma RampFull(a: real, r: real, steps: nat, k: nat)
    requires a >= 0.0 && r > 0.0 && Rise(steps, r) >= 3.0 && k >= steps
    ensures Ramp(a, r, k) == 3.0
  {
    MulMonotone(steps as real, k as real, r);
    assert Times(k, r) >= 3.0;
    hide Times;
  }

  // ---------------------------------------------------------- current loop

  /** The feed-forward by speed: none up to 50 rad/s, fading in to 100, full to 4000 and no more beyond. */
  lemma FadeLaw(omegaE: real)
    ensures Abs(omegaE) <= 50.0 ==> FadedSpeed(omegaE) == 0.0
    ensures 50.0 <= Abs(omegaE) <= 100.0 ==> 50.0 * FadedSpeed(omegaE) == omegaE * (Abs(omegaE) - 50.0)
    ensures 100.0 <= Abs(omegaE) <= 4000.0 ==> FadedSpeed(omegaE) == omegaE
    ensures omegaE >= 4000.0 ==> FadedSpeed(omegaE) == 4000.0
    ensures omegaE <= -4000.0 ==> FadedSpeed(omegaE) == -4000.0
  {
    var w := Clamp(omegaE, -4000.0, 4000.0);
    var k := Clamp((Abs(w) - 50.0) / 50.0, 0.0, 1.0);
    FadedBy(omegaE, w, k, w * k);
  }

  lemma FadedBy(omegaE: real, w: real, k: real, f: real)
    requires w == Clamp(omegaE, -4000.0, 4000.0) && k == Clamp((Abs(w) - 50.0) / 50.0, 0.0, 1.0) && f == w * k
    ensures k == 0.0 ==> f == 0.0
    ensures k == 1.0 ==> f == w
    ensures 50.0 <= Abs(omegaE) <= 100.0 ==> 50.0 * f == omegaE * (Abs(omegaE) - 50.0)
  {
    if 50.0 <= Abs(omegaE) <= 100.0 {
      assert w == omegaE && 50.0 * k == Abs(omegaE) - 50.0;
      assert 50.0 * f == w * (50.0 * k);
    }
  }

  /** The feed-forward voltages for a measured current: the cross-coupling against it on d, the back-EMF
      of flux and current along q. */
  function CouplingOf(w: real, l: real, psi: real, i: Dq): Dq {
    Dq(0.0 - w * l * i.q, w * (l * i.d + psi))
  }

  lemma FeedForwardIsCoupling(omegaE: real, l: real, psi: real, i: Dq)
    ensures FeedForward(omegaE, l, psi, i) == CouplingOf(FadedSpeed(omegaE), l, psi, i)
  {
    hide FadedSpeed;
  }

  /** A closed-loop step drives each axis by its PI law towards its reference, adds the feed-forward,
      and charges to each integrator what the vector clamp took from its axis. */
  lemma CurrentStep(m: Libm, c: Ctx, x: TickInput) returns (pi: Dq, d: PidState, q: PidState)
    requires Untripped(c, x) && c.pidId.outMin <= c.pidId.outMax && c.pidIq.outMin <= c.pidIq.outMax
    ensures var n := Step(m, c, x);
            var sum := Add(pi, CouplingOf(FadedSpeed(7.0 * x.omegaMech), c.lMotor, c.psiMotor, n.iDq));
            && PiLaw(c.pidId, c.idRef - n.iDq.d, pi.d, d) && PiLaw(c.pidIq, n.iqRef - n.iDq.q, pi.q, q)
            && sum == Command(m, Sampled(m, c, x))
            && n.v == (if Clamps(m, sum, c.vlim) then Scale(sum, ClampFactor(m, sum, c.vlim)) else sum)
            && n.pidId == d.(integrator := d.integrator + (n.v.d - sum.d))
            && n.pidIq == q.(integrator := q.integrator + (n.v.q - sum.q))
  {
    hide *;
    var s := Sampled(m, c, x);
    var e := SpeedLoop(PositionLoop(Measured(m, s)));
    pi := Dq(e.pidId.Output(e.idRef - e.iDq.d), e.pidIq.Output(e.iqRef - e.iDq.q));
    d := e.pidId.Updated(e.idRef - e.iDq.d, CONTROL_DT);
    q := e.pidIq.Updated(e.iqRef - e.iDq.q, CONTROL_DT);
    PreparedTerms(m, c, x);
    UpdateObeysPiLaw(e.pidId, e.idRef - e.iDq.d);
    UpdateObeysPiLaw(e.pidIq, e.iqRef - e.iDq.q);
    FeedForwardIsCoupling(e.omegaE, e.lMotor, e.psiMotor, e.iDq);
    LoopTerms(m, e);
    CommandIs(m, s);
  }

  lemma PreparedTerms(m: Libm, c: Ctx, x: TickInput)
    requires Untripped(c, x)
    ensures var n, e := Step(m, c, x), SpeedLoop(PositionLoop(Measured(m, Sampled(m, c, x))));
            && e.pidId == c.pidId && e.pidIq == c.pidIq && e.idRef == c.idRef && e.vlim == c.vlim
            && e.lMotor == c.lMotor && e.psiMotor == c.psiMotor && e.omegaE == 7.0 * x.omegaMech
            && n.iDq == e.iDq && n.iqRef == e.iqRef
            && n.v == CurrentLoop(m, e).v && n.pidId == CurrentLoop(m, e).pidId && n.pidIq == CurrentLoop(m, e).pidIq
  {
    UntrippedRuns(m, c, x);
    hide Step, FeedForward, PidState.Output, PidState.Updated, Clamps, ClampFactor, Scale, Add, WrapAngle, Rpm;
    hide Svpwm, ParkAt, InvParkAt, Clarke, AdvancedAngle;
  }

  lemma LoopTerms(m: Libm, e: Ctx)
    ensures var eD, eQ := e.idRef - e.iDq.d, e.iqRef - e.iDq.q;
            var pi := Dq(e.pidId.Output(eD), e.pidIq.Output(eQ));
            var d, q := e.pidId.Updated(eD, CONTROL_DT), e.pidIq.Updated(eQ, CONTROL_DT);
            var sum, n := Add(pi, FeedForward(e.omegaE, e.lMotor, e.psiMotor, e.iDq)), CurrentLoop(m, e);
            && n.v == (if Clamps(m, sum, e.vlim) then Scale(sum, ClampFactor(m, sum, e.vlim)) else sum)
            && n.pidId == d.(integrator := d.integrator + (n.v.d - sum.d))
            && n.pidIq == q.(integrator := q.integrator + (n.v.q - sum.q))
            && sum == Wanted(AxesOf(e), InputOf(e))
  {
    hide FeedForward, PidState.Output, PidState.Updated, Norm2, Scale;
  }

  lemma CommandIs(m: Libm, s: Ctx)
    ensures var e := SpeedLoop(PositionLoop(Measured(m, s))); Command(m, s) == Wanted(AxesOf(e), InputOf(e))
  {
    hide Wanted, InputOf;
  }

  /** The stationary vector a closed-loop step stores is the one whose rotating components it reports. */
  lemma StoredVector(m: Libm, c: Ctx, x: TickInput)
    requires m.Lawful() && Untripped(c, x)
    ensures var n := Step(m, c, x); ParkAt(m, n.vAb, AdvancedAngle(m, n.thetaE, n.omegaE)) == n.v
  {
    hide *;
    StoredTerms(m, c, x);
    var n := Step(m, c, x);
    InvParkTurnsBack(m, n.v, n.vAb, AdvancedAngle(m, n.thetaE, n.omegaE));
  }

  lemma InvParkTurnsBack(m: Libm, v: Dq, u: AlphaBeta, theta: real)
    requires m.Lawful() && u == InvParkAt(m, v, theta)
    ensures ParkAt(m, u, theta) == v
  {
    assert m.UnitAt(theta);
    ParkRoundTrip(v, u, m.cos(theta), m.sin(theta));
  }

  lemma StoredTerms(m: Libm, c: Ctx, x: TickInput)
    requires Untripped(c, x)
    ensures var n := Step(m, c, x); n.vAb == InvParkAt(m, n.v, AdvancedAngle(m, n.thetaE, n.omegaE))
  {
    UntrippedRuns(m, c, x);
    hide Step, FeedForward, PidState.Output, PidState.Updated, Clamps, ClampFactor, Scale, Add, WrapAngle, Rpm;
    hide Svpwm, ParkAt, InvParkAt, Clarke, AdvancedAngle;
  }
}
