/**
  When the MOSFET test passes a vector, in terms of the duties it drives and the
  currents it samples.
 */
module Verdicts {
  import opened Numeric
  import opened Transforms
  import PidControl
  import opened Foc
  import opened Supervisor
  import CommandLaws

  /** A phase driven above neutral carries more than 0.10 A, one driven below it less than -0.10 A. */
  predicate PhaseFollows(duty: real, i: real) {
    (duty > 0.5 ==> i > 0.10) && (duty < 0.5 ==> i < -0.10)
  }

  /** All three phases follow the duties, the third balancing the measured two. */
  predicate CurrentsFollow(d: Abc, ia: real, ib: real) {
    PhaseFollows(d.a, ia) && PhaseFollows(d.b, ib) && PhaseFollows(d.c, -(ia + ib))
  }

  /** The signs expected of a vector are met exactly when the currents follow its duties. */
  lemma SignsIff(vec: nat, delta: real, ia: real, ib: real)
    requires vec < VECTORS && delta > 0.0
    ensures var e := ExpectedSigns(vec);
            SignOk(ia, e.0) && SignOk(ib, e.1) && SignOk(-(ia + ib), e.2)
            <==> CurrentsFollow(TestVector(vec, delta), ia, ib)
  {
  }

  /** The verdict on a vector is whether the mean currents of its five samples follow its duties. */
  lemma VerdictIff(t: Test)
    requires t.vec < VECTORS && t.delta > 0.0
    ensures VectorOk(t) <==> CurrentsFollow(TestVector(t.vec, t.delta), t.sumA / 5.0, t.sumB / 5.0)
  {
    SignsIff(t.vec, t.delta, t.sumA / 5.0, t.sumB / 5.0);
    hide SignOk, ExpectedSigns, TestVector, CurrentsFollow;
  }

  /** The vectors are driven by a positive offset. */
  lemma OffsetIsPositive(vlim: real, vbus: Positive)
    requires vlim > 0.0
    ensures vlim / (2.0 * vbus) > 0.0
  {
    var delta := vlim / (2.0 * vbus);
    DivideBack(vlim, 2.0 * vbus, delta);
    PidControl.ScaledPositive(delta, 2.0 * vbus, vlim);
  }

  // -------------------------------------------------- samples of a vector

  /** The ticks of the control thread at each point where a handler can be preempted. */
  type Interrupts = (nat, nat) -> seq<TickInput>

  /** The context at sample `k` of a vector, from the one `c` that drives it. */
  function AtSample(m: Libm, c: Ctx, env: Interrupts, vec: nat, k: nat): Ctx {
    if k == 0 then RunTicks(m, c, env(vec, 0)) else RunTicks(m, AtSample(m, c, env, vec, k - 1), env(vec, k))
  }

  /** The sums of the two measured phases over the first `n` samples. */
  function SumA(m: Libm, c: Ctx, env: Interrupts, vec: nat, n: nat): real {
    if n == 0 then 0.0 else SumA(m, c, env, vec, n - 1) + AtSample(m, c, env, vec, n - 1).i.a
  }

  function SumB(m: Libm, c: Ctx, env: Interrupts, vec: nat, n: nat): real {
    if n == 0 then 0.0 else SumB(m, c, env, vec, n - 1) + AtSample(m, c, env, vec, n - 1).i.b
  }

  /** No sample finds the controller tripped. */
  predicate NoTrip(m: Libm, c: Ctx, env: Interrupts, vec: nat, n: nat) {
    forall k :: 0 <= k < n ==> !AtSample(m, c, env, vec, k).state.Error?
  }

  lemma SamplesStart(m: Libm, c: Ctx, env: Interrupts, vec: nat)
    ensures SumA(m, c, env, vec, 0) == SumB(m, c, env, vec, 0) == 0.0 && NoTrip(m, c, env, vec, 0)
  {
  }

  /** What sample number `k` adds. */
  lemma SamplesNext(m: Libm, c: Ctx, env: Interrupts, vec: nat, k: nat)
    ensures var n := AtSample(m, c, env, vec, k);
            && AtSample(m, c, env, vec, k + 1) == RunTicks(m, n, env(vec, k + 1))
            && SumA(m, c, env, vec, k + 1) == SumA(m, c, env, vec, k) + n.i.a
            && SumB(m, c, env, vec, k + 1) == SumB(m, c, env, vec, k) + n.i.b
            && (NoTrip(m, c, env, vec, k + 1) <==> NoTrip(m, c, env, vec, k) && !n.state.Error?)
            && (n.state.Error? && k < 5 ==> !NoTrip(m, c, env, vec, 5))
  {
    hide RunTicks;
  }

  /** A vector passes: five samples without a trip, whose mean currents follow the duties. */
  predicate Passes(m: Libm, c: Ctx, env: Interrupts, vec: nat, delta: real) {
    && NoTrip(m, c, env, vec, 5)
    && CurrentsFollow(TestVector(vec, delta), SumA(m, c, env, vec, 5) / 5.0, SumB(m, c, env, vec, 5) / 5.0)
  }

  // ------------------------------------------------- bridges of two kinds

  /** Ticks during a vector: some before each sample, none that trips, all with the given current. */
  predicate Untripping(env: Interrupts, vec: nat) {
    forall k :: 0 <= k < 5 ==> env(vec, k) != [] && WithinTrip(env(vec, k))
  }

  predicate WithinTrip(xs: seq<TickInput>) {
    forall j :: 0 <= j < |xs| ==> -8.0 <= xs[j].ia <= 8.0 && -8.0 <= xs[j].ib <= 8.0
  }

  /** A healthy bridge: every current follows the driven pair. */
  predicate Healthy(env: Interrupts, vec: nat, delta: real) {
    && Untripping(env, vec)
    && forall k, j :: 0 <= k < 5 && 0 <= j < |env(vec, k)| ==>
         CurrentsFollow(TestVector(vec, delta), env(vec, k)[j].ia, env(vec, k)[j].ib)
  }

  /** Its mirror image: every current flows the other way. */
  predicate Reversed(env: Interrupts, vec: nat, delta: real) {
    && Untripping(env, vec)
    && forall k, j :: 0 <= k < 5 && 0 <= j < |env(vec, k)| ==>
         CurrentsFollow(TestVector(vec, delta), -env(vec, k)[j].ia, -env(vec, k)[j].ib)
  }

  function LastOf(xs: seq<TickInput>): TickInput
    requires xs != []
  {
    xs[|xs| - 1]
  }

  /** Without a trip a sample is the last tick's currents, under the vector's own duties. */
  lemma {:induction false} SampleIsLastTick(m: Libm, c: Ctx, env: Interrupts, vec: nat, k: nat)
    requires c.state.Forced? && Untripping(env, vec) && k < 5
    ensures env(vec, k) != []
    ensures var n := AtSample(m, c, env, vec, k);
            n.state.Forced? && n.i.a == LastOf(env(vec, k)).ia && n.i.b == LastOf(env(vec, k)).ib
  {
    if k == 0 {
      CommandLaws.ForcedHolds(m, c, env(vec, 0));
    } else {
      SampleIsLastTick(m, c, env, vec, k - 1);
      CommandLaws.ForcedHolds(m, AtSample(m, c, env, vec, k - 1), env(vec, k));
    }
    hide RunTicks, AtSample;
  }

  function Signed(forward: bool, x: real): real {
    if forward then x else -x
  }

  /** The sums of `n` currents that follow the duties, or run against them. */
  predicate SumFollows(d: Abc, forward: bool, n: nat, a: real, b: real) {
    && PhaseSum(d.a, Signed(forward, a), n) && PhaseSum(d.b, Signed(forward, b), n)
    && PhaseSum(d.c, Signed(forward, -(a + b)), n)
  }

  predicate PhaseSum(duty: real, x: real, n: nat) {
    && (duty > 0.5 ==> x >= 0.10 * n as real && (n > 0 ==> x > 0.10 * n as real))
    && (duty < 0.5 ==> x <= -0.10 * n as real && (n > 0 ==> x < -0.10 * n as real))
  }

  lemma PhaseSumNext(duty: real, x: real, y: real, n: nat)
    requires PhaseSum(duty, x, n) && PhaseFollows(duty, y)
    ensures PhaseSum(duty, x + y, n + 1)
  {
  }

  lemma SumNext(d: Abc, forward: bool, n: nat, a: real, b: real, x: real, y: real)
    requires SumFollows(d, forward, n, a, b) && CurrentsFollow(d, Signed(forward, x), Signed(forward, y))
    ensures SumFollows(d, forward, n + 1, a + x, b + y)
  {
    hide PhaseSum, PhaseFollows;
    PhaseSumNext(d.a, Signed(forward, a), Signed(forward, x), n);
    PhaseSumNext(d.b, Signed(forward, b), Signed(forward, y), n);
    PhaseSumNext(d.c, Signed(forward, -(a + b)), -(Signed(forward, x) + Signed(forward, y)), n);
  }

  /** The bridge's currents follow the duties, or run against them. */
  predicate Kind(env: Interrupts, vec: nat, delta: real, forward: bool) {
    if forward then Healthy(env, vec, delta) else Reversed(env, vec, delta)
  }

  lemma KindAt(env: Interrupts, vec: nat, delta: real, forward: bool, k: nat)
    requires Kind(env, vec, delta, forward) && k < 5
    ensures Untripping(env, vec) && env(vec, k) != []
    ensures var x := LastOf(env(vec, k));
            CurrentsFollow(TestVector(vec, delta), Signed(forward, x.ia), Signed(forward, x.ib))
  {
    hide CurrentsFollow, TestVector, WithinTrip;
  }

  lemma {:induction false} SumsFollow(m: Libm, c: Ctx, env: Interrupts, vec: nat, delta: real, forward: bool, n: nat)
    requires c.state.Forced? && n <= 5 && Kind(env, vec, delta, forward)
    ensures SumFollows(TestVector(vec, delta), forward, n, SumA(m, c, env, vec, n), SumB(m, c, env, vec, n))
  {
    hide TestVector, Kind, AtSample, CurrentsFollow, Untripping;
    if n > 0 {
      hide SumFollows, Signed;
      SumsFollow(m, c, env, vec, delta, forward, n - 1);
      KindAt(env, vec, delta, forward, n - 1);
      SampleIsLastTick(m, c, env, vec, n - 1);
      var x := LastOf(env(vec, n - 1));
      SumNext(TestVector(vec, delta), forward, n - 1, SumA(m, c, env, vec, n - 1), SumB(m, c, env, vec, n - 1),
              x.ia, x.ib);
    }
  }

  lemma UntrippingDoesNotTrip(m: Libm, c: Ctx, env: Interrupts, vec: nat)
    requires c.state.Forced? && Untripping(env, vec)
    ensures NoTrip(m, c, env, vec, 5)
  {
    forall k: nat | k < 5
      ensures !AtSample(m, c, env, vec, k).state.Error?
    {
      SampleIsLastTick(m, c, env, vec, k);
    }
  }

  /** A healthy bridge passes the vector. */
  lemma HealthyPasses(m: Libm, c: Ctx, env: Interrupts, vec: nat, delta: real)
    requires c.state.Forced? && Healthy(env, vec, delta)
    ensures Passes(m, c, env, vec, delta)
  {
    UntrippingDoesNotTrip(m, c, env, vec);
    SumsFollow(m, c, env, vec, delta, true, 5);
    hide SumA, SumB, AtSample, NoTrip, TestVector;
  }

  /** Its mirror image fails it. */
  lemma ReversedFails(m: Libm, c: Ctx, env: Interrupts, vec: nat, delta: real)
    requires c.state.Forced? && Reversed(env, vec, delta) && vec < VECTORS && delta > 0.0
    ensures !Passes(m, c, env, vec, delta)
  {
    SumsFollow(m, c, env, vec, delta, false, 5);
    hide SumA, SumB, AtSample, NoTrip;
  }
}
