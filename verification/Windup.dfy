/**
  The current-loop integrators over whole runs.

  Two anti-windup schemes write each integrator in one step: conditional
  integration in the PI update, then back-calculation of what the vector clamp
  removed.  Together they keep it bounded while the feed-forward fits the PI
  limit; beyond that limit the back-calculation itself winds the integrator up.
 */
module Windup {
  import opened Numeric
  import opened Transforms
  import opened PidControl
  import opened Foc
  import opened FocSafety

  // ------------------------------------------------------------- one axis

  /** One axis of a step: PI update, feed-forward added, the vector scaled by `k`, back-calculation. */
  function AxisNext(p: PidState, error: real, ff: real, k: real): PidState {
    var pi := p.Output(error);
    BackCalculated(p.Updated(error, CONTROL_DT), (pi + ff) * k, ff, pi)
  }

  /** The most one PI update can move output and integrator together. */
  function UpdateReach(p: PidState, e: real): real {
    (p.kp + p.ki * CONTROL_DT) * e
  }

  /** Magnitudes an axis meets: errors, feed-forward, and the level its integrator keeps. */
  datatype Bounds = Bounds(error: real, ff: real, level: real) {
    /** The level absorbs one step's overshoot and one step's back-calculation. */
    predicate Admit(p: PidState) {
      && error >= 0.0 && ff >= 0.0
      && p.outMax + Overshoot(p, CONTROL_DT, error) <= level
      && ff + UpdateReach(p, error) <= level
    }
  }

  lemma ScaledGap(sum: real, k: real, cut: real)
    requires 0.0 <= k <= 1.0 && cut == sum - sum * k
    ensures sum >= 0.0 ==> 0.0 <= cut <= sum
    ensures sum <= 0.0 ==> sum <= cut <= 0.0
  {
  }

  lemma ReachOfUpdate(p: PidState, error: real, e: real)
    requires Gains(p, CONTROL_DT) && Abs(error) <= e
    ensures Abs(p.kp * error) + Abs(p.ki * error * CONTROL_DT) <= UpdateReach(p, e)
  {
  }

  /** Below the upper limit the integrator is within one update's reach of the output. */
  lemma IntegratorNearOutput(p: PidState, error: real, e: real)
    requires Gains(p, CONTROL_DT) && Abs(error) <= e && p.Output(error) < p.outMax
    ensures p.Updated(error, CONTROL_DT).integrator - p.Output(error) <= UpdateReach(p, e)
  {
    hide UpdateReach;
    ReachOfUpdate(p, error, e);
    var prop, up := p.kp * error, p.ki * error * CONTROL_DT;
    assert p.Unclamped(error) == prop + p.integrator;
    assert p.Updated(error, CONTROL_DT).integrator <= p.integrator + Abs(up);
  }

  lemma AxisCut(p: PidState, error: real, ff: real, k: real, sum: real, cut: real)
    requires sum == p.Output(error) + ff && cut == sum - sum * k
    ensures AxisNext(p, error, ff, k).integrator == p.Updated(error, CONTROL_DT).integrator - cut
  {
  }

  lemma AxisUpper(p: PidState, error: real, ff: real, k: real, b: Bounds)
    requires Gains(p, CONTROL_DT) && p.Symmetric() && b.Admit(p)
    requires Abs(error) <= b.error && Abs(ff) <= b.ff <= p.outMax && 0.0 <= k <= 1.0
    requires p.integrator <= b.level
    ensures AxisNext(p, error, ff, k).integrator <= b.level
  {
    hide AxisNext, UpdateReach, Overshoot, PidState.Updated, Control;
    var sum := p.Output(error) + ff;
    var cut := sum - sum * k;
    ScaledGap(sum, k, cut);
    AxisCut(p, error, ff, k, sum, cut);
    if sum >= 0.0 {
      StepUpper(p, error, CONTROL_DT, b.error, b.level);
    } else {
      IntegratorNearOutput(p, error, b.error);
    }
  }

  lemma AxisMirror(p: PidState, error: real, ff: real, k: real)
    requires p.outMin <= p.outMax
    ensures AxisNext(Mirror(p), -error, -ff, k) == Mirror(AxisNext(p, error, ff, k))
  {
    MirrorCommutes(p, error, CONTROL_DT);
    hide PidState.Output, PidState.Updated;
    var pi := p.Output(error);
    assert (-pi + -ff) * k == -((pi + ff) * k);
  }

  lemma MirrorAdmits(p: PidState, b: Bounds)
    requires Gains(p, CONTROL_DT) && p.Symmetric() && b.Admit(p)
    ensures Gains(Mirror(p), CONTROL_DT) && Mirror(p).Symmetric() && b.Admit(Mirror(p))
  {
  }

  /** The level is kept by one step of an axis, for every error, feed-forward and clamp factor. */
  lemma AxisKeepsLevel(p: PidState, error: real, ff: real, k: real, b: Bounds)
    requires Gains(p, CONTROL_DT) && p.Symmetric() && b.Admit(p)
    requires Abs(error) <= b.error && Abs(ff) <= b.ff <= p.outMax && 0.0 <= k <= 1.0
    requires Abs(p.integrator) <= b.level
    ensures Abs(AxisNext(p, error, ff, k).integrator) <= b.level
  {
    hide AxisNext, Bounds.Admit;
    AxisUpper(p, error, ff, k, b);
    MirrorAdmits(p, b);
    AxisMirror(p, error, ff, k);
    AxisUpper(Mirror(p), -error, -ff, k, b);
  }

  lemma SameBounds(p: PidState, q: PidState, b: Bounds)
    requires SameTuning(p, q)
    ensures b.Admit(q) <==> b.Admit(p)
  {
  }

  // ------------------------------------------------- both axes, over runs

  /** One tick of both axes, with the factor of the vector clamp. */
  function AxesNext(m: Libm, a: Axes, x: LoopInput, vlim: real): Axes {
    var k := ClampFactor(m, Wanted(a, x), vlim);
    Axes(AxisNext(a.d, x.error.d, x.ff.d, k), AxisNext(a.q, x.error.q, x.ff.q, k))
  }

  function RunAxes(m: Libm, a: Axes, xs: seq<LoopInput>, vlim: real): Axes {
    if xs == [] then a else AxesNext(m, RunAxes(m, a, xs[..|xs| - 1], vlim), xs[|xs| - 1], vlim)
  }

  lemma RunAxesSnoc(m: Libm, a: Axes, xs: seq<LoopInput>, x: LoopInput, vlim: real)
    ensures RunAxes(m, a, xs + [x], vlim) == AxesNext(m, RunAxes(m, a, xs, vlim), x, vlim)
  {
    assert (xs + [x])[..|xs|] == xs;
  }

  /** A tick of the current loop is a tick of its axes. */
  lemma LoopIsTwoAxes(m: Libm, d: Ctx)
    ensures AxesOf(CurrentLoop(m, d)) == AxesNext(m, AxesOf(d), InputOf(d), d.vlim)
  {
    hide FeedForward, Norm2, PidState.Output, PidState.Updated;
  }

  /** And every tick of the axes is a tick of the current loop: currents, references and motor
      constants can produce any errors and any feed-forward. */
  lemma LoopTakesEveryInput(m: Libm, d: Ctx, x: LoopInput) returns (c: Ctx)
    ensures AxesOf(c) == AxesOf(d) && c.vlim == d.vlim && c.idRef == 0.0 && c.iDq.q == 1.0
    ensures InputOf(c) == x && AxesOf(CurrentLoop(m, c)) == AxesNext(m, AxesOf(d), x, d.vlim)
  {
    var l := -x.ff.d / 1000.0;
    c := d.(omegaE := 1000.0, idRef := 0.0, iDq := Dq(-x.error.d, 1.0), iqRef := 1.0 + x.error.q,
            lMotor := l, psiMotor := x.ff.q / 1000.0 - l * -x.error.d);
    assert FadedSpeed(1000.0) == 1000.0;
    hide CurrentLoop, AxesNext, FadedSpeed;
    LoopIsTwoAxes(m, c);
  }

  predicate Within(x: LoopInput, e: real, ff: real) {
    && Abs(x.error.d) <= e && Abs(x.error.q) <= e
    && Abs(x.ff.d) <= ff && Abs(x.ff.q) <= ff
  }

  predicate AllWithin(xs: seq<LoopInput>, e: real, ff: real) {
    forall k :: 0 <= k < |xs| ==> Within(xs[k], e, ff)
  }

  predicate AxesAtLevel(a: Axes, level: real) {
    Abs(a.d.integrator) <= level && Abs(a.q.integrator) <= level
  }

  /** Non-negative gains and one symmetric output limit. */
  predicate Tuned(a: Axes, limit: real) {
    && Gains(a.d, CONTROL_DT) && Gains(a.q, CONTROL_DT)
    && a.d.Symmetric() && a.q.Symmetric() && a.d.outMax == limit && a.q.outMax == limit
  }

  /** A level that both integrators keep over every run of ticks from `a`. */
  ghost predicate LevelOfRuns(m: Libm, a: Axes, vlim: real, e: real, ff: real, level: real) {
    forall xs: seq<LoopInput> :: AllWithin(xs, e, ff) ==> AxesAtLevel(RunAxes(m, a, xs, vlim), level)
  }

  lemma AxesKeepLevel(m: Libm, a: Axes, x: LoopInput, vlim: real, b: Bounds, limit: real)
    requires m.Lawful() && vlim > 0.0 && Tuned(a, limit) && b.ff <= limit && b.Admit(a.d) && b.Admit(a.q)
    requires AxesAtLevel(a, b.level) && Within(x, b.error, b.ff)
    ensures var n := AxesNext(m, a, x, vlim);
            AxesAtLevel(n, b.level) && SameTuning(a.d, n.d) && SameTuning(a.q, n.q)
  {
    var sum := Wanted(a, x);
    assert m.SqrtAt(Norm2(sum));
    AxisTuning(a.d, x.error.d, x.ff.d, ClampFactor(m, sum, vlim));
    AxisTuning(a.q, x.error.q, x.ff.q, ClampFactor(m, sum, vlim));
    hide AxisNext, ClampFactor, Bounds.Admit, PidState.Output, Add;
    ClampedVector(m, sum, vlim);
    AxisKeepsLevel(a.d, x.error.d, x.ff.d, ClampFactor(m, sum, vlim), b);
    AxisKeepsLevel(a.q, x.error.q, x.ff.q, ClampFactor(m, sum, vlim), b);
  }

  lemma AxisTuning(p: PidState, error: real, ff: real, k: real)
    ensures SameTuning(p, AxisNext(p, error, ff, k))
  {
  }

  lemma {:induction false} RunsKeepLevel(m: Libm, a: Axes, xs: seq<LoopInput>, vlim: real, b: Bounds, limit: real)
    requires m.Lawful() && vlim > 0.0 && Tuned(a, limit) && b.ff <= limit && b.Admit(a.d) && b.Admit(a.q)
    requires AxesAtLevel(a, b.level) && AllWithin(xs, b.error, b.ff)
    ensures var n := RunAxes(m, a, xs, vlim);
            AxesAtLevel(n, b.level) && SameTuning(a.d, n.d) && SameTuning(a.q, n.q)
  {
    if xs != [] {
      var last := |xs| - 1;
      RunsKeepLevel(m, a, xs[..last], vlim, b, limit);
      var n := RunAxes(m, a, xs[..last], vlim);
      hide AxesNext, Bounds.Admit, AxesAtLevel;
      SameBounds(a.d, n.d, b);
      SameBounds(a.q, n.q, b);
      AxesKeepLevel(m, n, xs[last], vlim, b, limit);
    }
  }

  /** What the clamp leaves, at most, of a command at least `ff` long. */
  lemma LongCommandIsCut(m: Libm, sum: Dq, vlim: real, ff: real)
    requires m.SqrtAt(Norm2(sum)) && 0.0 < vlim < ff && Abs(sum.d) >= ff
    ensures 0.0 <= ClampFactor(m, sum, vlim) <= vlim / ff < 1.0
  {
    var n, vmag := Norm2(sum), m.sqrt(Norm2(sum));
    assert sum.d * sum.d >= 0.0 && sum.q * sum.q >= 0.0;
    SquareOrder(ff, Abs(sum.d), ff * ff, sum.d * sum.d);
    SquareOrder(ff, vmag, ff * ff, n);
    hide Norm2;
    QuotientOrder(vlim, ff, vmag);
  }

  lemma QuotientOrder(x: real, y: real, z: real)
    requires 0.0 < x < y <= z
    ensures 0.0 <= x / z <= x / y < 1.0
  {
    var p, q := x / y, x / z;
    DivideBack(x, y, p);
    DivideBack(x, z, q);
    ScaledPositive(p, y, x);
    ScaledPositive(q, z, x);
    MulMonotone(y, z, p);
    ScaledOrder(q, p, z);
    if p >= 1.0 { MulMonotone(1.0, p, y); }
  }

  /** What one adverse tick adds. */
  function EscapeGain(limit: real, vlim: real, ff: real): real
    requires ff != 0.0
  {
    (ff - limit) * (1.0 - vlim / ff)
  }

  /** The q axis under adverse feed-forward beyond the output limit gains what the clamp cuts. */
  lemma AxisEscapes(p: PidState, ff: real, k: real, most: real)
    requires Gains(p, CONTROL_DT) && p.Symmetric() && p.integrator >= 0.0 && ff > p.outMax
    requires 0.0 <= k <= most < 1.0
    ensures AxisNext(p, 0.0, 0.0 - ff, k).integrator >= p.integrator + (ff - p.outMax) * (1.0 - most)
  {
    var out := p.Output(0.0);
    assert p.Unclamped(0.0) == p.integrator && p.Updated(0.0, CONTROL_DT) == p;
    var sum := out - ff;
    var cut := sum - sum * k;
    AxisCut(p, 0.0, 0.0 - ff, k, sum, cut);
    hide AxisNext, PidState.Output, PidState.Updated, Control;
    CutAtLeast(0.0 - sum, ff - p.outMax, 1.0 - k, 1.0 - most, (ff - p.outMax) * (1.0 - most));
    assert cut == sum * (1.0 - k);
  }

  lemma CutAtLeast(x: real, y: real, u: real, v: real, low: real)
    requires 0.0 < y <= x && 0.0 < v <= u && low == y * v
    ensures x * u >= low && low > 0.0
  {
    MulMonotone(y, x, v);
    MulMonotone(v, u, x);
    MulStrict(0.0, v, y);
  }

  /** Zero errors, a d-axis feed-forward along the output and a q-axis one against the integrator. */
  function Adverse(a: Axes, ff: real): LoopInput {
    LoopInput(Dq(0.0, 0.0),
              Dq(if a.d.Output(0.0) >= 0.0 then ff else 0.0 - ff,
                 if a.q.integrator >= 0.0 then 0.0 - ff else ff))
  }

  /** Either sign of the integrator moves away from zero. */
  lemma AxisEscapesOutward(p: PidState, ff: real, f: real, k: real, most: real)
    requires Gains(p, CONTROL_DT) && p.Symmetric() && ff > p.outMax && 0.0 <= k <= most < 1.0
    requires f == if p.integrator >= 0.0 then 0.0 - ff else ff
    ensures Abs(AxisNext(p, 0.0, f, k).integrator) >= Abs(p.integrator) + (ff - p.outMax) * (1.0 - most)
  {
    hide AxisNext, PidState.Output;
    if p.integrator >= 0.0 {
      AxisEscapes(p, ff, k, most);
    } else {
      AxisMirror(p, 0.0, ff, k);
      AxisEscapes(Mirror(p), ff, k, most);
    }
  }

  lemma AdverseIsLong(a: Axes, ff: real)
    requires ff > 0.0
    ensures Abs(Wanted(a, Adverse(a, ff)).d) >= ff
  {
    hide PidState.Output;
  }

  lemma AdverseTick(m: Libm, a: Axes, vlim: real, ff: real, limit: real)
    requires m.Lawful() && Tuned(a, limit) && 0.0 < vlim <= limit < ff
    ensures var n := AxesNext(m, a, Adverse(a, ff), vlim);
            && Tuned(n, limit)
            && Abs(n.q.integrator) >= Abs(a.q.integrator) + EscapeGain(limit, vlim, ff)
  {
    hide *;
    var x := Adverse(a, ff);
    LawfulRoot(m, Wanted(a, x));
    AdverseIsLong(a, ff);
    LongCommandIsCut(m, Wanted(a, x), vlim, ff);
    AdverseParts(m, a, ff, vlim, limit);
    AxisEscapesOutward(a.q, ff, x.ff.q, ClampFactor(m, Wanted(a, x), vlim), vlim / ff);
    GainIs(limit, vlim, ff);
  }

  lemma LawfulRoot(m: Libm, v: Dq)
    requires m.Lawful()
    ensures m.SqrtAt(Norm2(v))
  {
  }

  lemma GainIs(limit: real, vlim: real, ff: real)
    requires ff != 0.0
    ensures EscapeGain(limit, vlim, ff) == (ff - limit) * (1.0 - vlim / ff)
  {
  }

  lemma AdverseParts(m: Libm, a: Axes, ff: real, vlim: real, limit: real)
    requires Tuned(a, limit)
    ensures var x := Adverse(a, ff);
            var n := AxesNext(m, a, x, vlim);
            && n.q == AxisNext(a.q, 0.0, x.ff.q, ClampFactor(m, Wanted(a, x), vlim)) && Tuned(n, limit)
            && x.ff.q == (if a.q.integrator >= 0.0 then 0.0 - ff else ff)
    ensures Gains(a.q, CONTROL_DT) && a.q.Symmetric() && a.q.outMax == limit
  {
    var x := Adverse(a, ff);
    var k := ClampFactor(m, Wanted(a, x), vlim);
    hide AxisNext, ClampFactor, Wanted, PidState.Output;
    AxisTuning(a.d, 0.0, x.ff.d, k);
    AxisTuning(a.q, 0.0, x.ff.q, k);
  }

  /** After `n` adverse ticks the q integrator has gained at least `n` times the gain. */
  lemma {:induction false} AdverseRun(m: Libm, a: Axes, vlim: real, e: real, ff: real, limit: real, n: nat)
    returns (xs: seq<LoopInput>)
    requires m.Lawful() && Tuned(a, limit) && 0.0 < vlim <= limit < ff && e >= 0.0
    ensures AllWithin(xs, e, ff)
    ensures var r := RunAxes(m, a, xs, vlim);
            && Tuned(r, limit)
            && Abs(r.q.integrator) >= Wound(Abs(a.q.integrator), n, EscapeGain(limit, vlim, ff))
  {
    hide AxesNext, EscapeGain, Wound;
    xs := [];
    WoundNext(Abs(a.q.integrator), if n == 0 then 0 else n - 1, EscapeGain(limit, vlim, ff));
    if n > 0 {
      xs := AdverseRun(m, a, vlim, e, ff, limit, n - 1);
      var r := RunAxes(m, a, xs, vlim);
      AdverseTick(m, r, vlim, ff, limit);
      RunAxesSnoc(m, a, xs, Adverse(r, ff), vlim);
      xs := xs + [Adverse(r, ff)];
    }
  }

  /** Some level bounds both integrators over every run of the current loop, from any start, exactly
      when the feed-forward on each axis fits the PI output limit. */
  lemma LevelExistsIff(m: Libm, a: Axes, vlim: real, e: real, ff: real, limit: real)
    requires m.Lawful() && Tuned(a, limit) && 0.0 < vlim <= limit && e >= 0.0 && ff >= 0.0
    ensures (exists level: real :: LevelOfRuns(m, a, vlim, e, ff, level)) <==> ff <= limit
  {
    if ff <= limit {
      var b := AdmittedLevel(a, e, ff);
      forall xs: seq<LoopInput> | AllWithin(xs, e, ff)
        ensures AxesAtLevel(RunAxes(m, a, xs, vlim), b.level)
      {
        RunsKeepLevel(m, a, xs, vlim, b, limit);
      }
      assert LevelOfRuns(m, a, vlim, e, ff, b.level);
    } else {
      forall level: real
        ensures !LevelOfRuns(m, a, vlim, e, ff, level)
      {
        EscapeGainPositive(limit, vlim, ff);
        var n := EnoughTicks(Abs(a.q.integrator), EscapeGain(limit, vlim, ff), level);
        var xs := AdverseRun(m, a, vlim, e, ff, limit, n);
      }
    }
  }

  lemma EscapeGainPositive(limit: real, vlim: real, ff: real)
    requires 0.0 < vlim <= limit < ff
    ensures EscapeGain(limit, vlim, ff) > 0.0
  {
    QuotientOrder(vlim, ff, ff);
    CutAtLeast(ff - limit, ff - limit, 1.0 - vlim / ff, 1.0 - vlim / ff, EscapeGain(limit, vlim, ff));
  }

  /** A level above the start that absorbs both axes. */
  function AdmittedLevel(a: Axes, e: real, ff: real): (b: Bounds)
    requires e >= 0.0 && ff >= 0.0
    ensures b.error == e && b.ff == ff && b.Admit(a.d) && b.Admit(a.q) && AxesAtLevel(a, b.level)
  {
    Bounds(e, ff, Max(Max(Abs(a.d.integrator), Abs(a.q.integrator)),
                      Max(Max(a.d.outMax + Overshoot(a.d, CONTROL_DT, e), ff + UpdateReach(a.d, e)),
                          Max(a.q.outMax + Overshoot(a.q, CONTROL_DT, e), ff + UpdateReach(a.q, e)))))
  }

  function Wound(start: real, n: nat, gain: real): real {
    start + n as real * gain
  }

  lemma WoundNext(start: real, n: nat, gain: real)
    ensures Wound(start, n + 1, gain) == Wound(start, n, gain) + gain
    ensures Wound(start, 0, gain) == start
  {
  }

  lemma EnoughTicks(start: real, gain: real, level: real) returns (n: nat)
    requires gain > 0.0
    ensures Wound(start, n, gain) > level
  {
    if level < start {
      n := 0;
      WoundNext(start, 0, gain);
    } else {
      var q := (level - start) / gain;
      DivideBack(level - start, gain, q);
      n := q.Floor + 1;
      MulStrict(q, n as real, gain);
    }
  }

  // ------------------------------------------------------ the control step

  /** The currents a step can see without tripping, and the q-axis error on top of the torque limit. */
  const MAX_AXIS_CURRENT := 16.0
  const MAX_AXIS_ERROR := 24.0

  /** Feed-forward reach at electrical speeds up to `w`. */
  function FeedForwardReach(w: real, l: real, psi: real): real {
    w * (Abs(l) * MAX_AXIS_CURRENT + Abs(psi))
  }

  lemma FadedSpeedBound(omegaE: real)
    ensures Abs(FadedSpeed(omegaE)) <= Min(Abs(omegaE), 4000.0)
  {
    var w := Clamp(omegaE, -4000.0, 4000.0);
    AbsProduct(w, Clamp((Abs(w) - 50.0) / 50.0, 0.0, 1.0), Abs(w), 1.0);
  }

  lemma FeedForwardBound(omegaE: real, l: real, psi: real, i: Dq, w: real)
    requires Abs(FadedSpeed(omegaE)) <= w
    requires Abs(i.d) <= MAX_AXIS_CURRENT && Abs(i.q) <= MAX_AXIS_CURRENT
    ensures Abs(FeedForward(omegaE, l, psi, i).d) <= FeedForwardReach(w, l, psi)
    ensures Abs(FeedForward(omegaE, l, psi, i).q) <= FeedForwardReach(w, l, psi)
  {
    hide FadedSpeed, FeedForwardReach, CrossCoupling, BackEmf, Flux, Abs;
    var s := FadedSpeed(omegaE);
    CrossCouplingBound(s, l, i.q, psi, w, CrossCoupling(s, l, i.q));
    BackEmfBound(s, l, i.d, psi, w, Flux(l, i.d, psi));
  }

  lemma CrossCouplingBound(s: real, l: real, x: real, psi: real, w: real, r: real)
    requires Abs(s) <= w && Abs(x) <= MAX_AXIS_CURRENT && r == CrossCoupling(s, l, x)
    ensures Abs(r) <= FeedForwardReach(w, l, psi)
  {
    var lx := l * x;
    AbsProduct(l, x, Abs(l), MAX_AXIS_CURRENT);
    var reach := Abs(l) * MAX_AXIS_CURRENT;
    assert r == -(s * lx);
    hide CrossCoupling;
    AbsProduct(s, lx, w, reach + Abs(psi));
  }

  lemma BackEmfBound(s: real, l: real, x: real, psi: real, w: real, flux: real)
    requires Abs(s) <= w && Abs(x) <= MAX_AXIS_CURRENT && flux == Flux(l, x, psi)
    ensures Abs(BackEmf(s, flux)) <= FeedForwardReach(w, l, psi)
  {
    var reach := Abs(l) * MAX_AXIS_CURRENT;
    AbsProduct(l, x, Abs(l), MAX_AXIS_CURRENT);
    assert Abs(flux) <= reach + Abs(psi);
    hide Flux;
    AbsProduct(s, flux, w, reach + Abs(psi));
  }

  predicate AtLevel(c: Ctx, level: real) {
    Abs(c.pidId.integrator) <= level && Abs(c.pidIq.integrator) <= level
  }

  /** The bounds cover both axes of `c` at electrical speeds up to `w`. */
  predicate Covers(c: Ctx, b: Bounds, w: real) {
    && Gains(c.pidId, CONTROL_DT) && Gains(c.pidIq, CONTROL_DT)
    && b.Admit(c.pidId) && b.Admit(c.pidIq)
    && b.error == MAX_AXIS_ERROR && b.level >= ALIGN_VOLTAGE_V
    && FeedForwardReach(w, c.lMotor, c.psiMotor) <= b.ff
    && b.ff <= c.pidId.outMax && b.ff <= c.pidIq.outMax
  }

  /** Everything `Covers` depends on. */
  predicate SameSetup(c: Ctx, n: Ctx) {
    && SameTuning(c.pidId, n.pidId) && SameTuning(c.pidIq, n.pidIq)
    && n.lMotor == c.lMotor && n.psiMotor == c.psiMotor
  }

  lemma SetupCovers(c: Ctx, n: Ctx, b: Bounds, w: real)
    requires SameSetup(c, n) && Covers(c, b, w)
    ensures Covers(n, b, w)
  {
  }

  /** The current loop keeps the level, once its inputs are within the trip and torque limits. */
  lemma CurrentLoopKeepsLevel(m: Libm, d: Ctx, b: Bounds, w: real)
    requires m.Lawful() && LimitsOk(m, d) && RefsOk(d)
    requires Covers(d, b, w) && AtLevel(d, b.level)
    requires Abs(FadedSpeed(d.omegaE)) <= w
    requires Abs(d.iDq.d) <= MAX_AXIS_CURRENT && Abs(d.iDq.q) <= MAX_AXIS_CURRENT
    ensures AtLevel(CurrentLoop(m, d), b.level) && SameSetup(d, CurrentLoop(m, d))
  {
    LoopKeepsSetup(m, d);
    hide CurrentLoop, FeedForward, FeedForwardReach, FadedSpeed, AxesNext, Bounds.Admit;
    LoopIsTwoAxes(m, d);
    FeedForwardBound(d.omegaE, d.lMotor, d.psiMotor, d.iDq, w);
    AxesKeepLevel(m, AxesOf(d), InputOf(d), d.vlim, b, d.pidId.outMax);
  }

  lemma LoopKeepsSetup(m: Libm, d: Ctx)
    ensures SameSetup(d, CurrentLoop(m, d))
  {
  }

  /** The outer loops and the measurement leave the current loop's setup and integrators alone. */
  lemma OuterLoopsFrame(m: Libm, c: Ctx)
    requires LimitsOk(m, c) && RefsOk(c)
    ensures var d := SpeedLoop(PositionLoop(Measured(m, c)));
            && LimitsOk(m, d) && RefsOk(d) && d.omegaE == c.omegaE
            && d.pidId == c.pidId && d.pidIq == c.pidIq && SameSetup(c, d)
            && d.iDq == Measured(m, c).iDq
  {
    hide ParkAt, Clarke, AdvancedAngle, Accumulate, Control;
  }

  lemma RunTickKeepsLevel(m: Libm, c: Ctx, x: TickInput, b: Bounds, w: real)
    requires m.Lawful() && Safe(m, c) && c.state.Running?
    requires !Overcurrent(Abc(x.ia, x.ib, -(x.ia + x.ib)))
    requires Covers(c, b, w) && AtLevel(c, b.level)
    requires Abs(FadedSpeed(x.omegaMech * POLE_PAIRS)) <= w
    ensures var n := Step(m, c, x); AtLevel(n, b.level) && SameSetup(c, n)
  {
    hide Safe, FadedSpeed, Covers, CurrentLoop, SpeedLoop, PositionLoop, Measured;
    hide WrapAngle, Svpwm, InvParkAt, AdvancedAngle;
    var s := Sampled(m, c, x);
    NoTripBoundsCurrent(m, c, x);
    SampledKeepsSafe(m, c, x);
    SafeParts(m, s);
    OuterLoopsFrame(m, s);
    var d := SpeedLoop(PositionLoop(Measured(m, s)));
    SetupCovers(c, d, b, w);
    CurrentLoopKeepsLevel(m, d, b, w);
  }

  lemma SafeParts(m: Libm, c: Ctx)
    requires Safe(m, c)
    ensures LimitsOk(m, c) && RefsOk(c)
  {
  }

  /** Every tick keeps the level, in every state and for every input up to the given speed. */
  lemma TickKeepsLevel(m: Libm, c: Ctx, x: TickInput, b: Bounds, w: real)
    requires m.Lawful() && Safe(m, c) && Covers(c, b, w) && AtLevel(c, b.level)
    requires Abs(FadedSpeed(x.omegaMech * POLE_PAIRS)) <= w
    ensures var n := Step(m, c, x); AtLevel(n, b.level) && SameSetup(c, n)
  {
    if c.state.Running? && !Overcurrent(Abc(x.ia, x.ib, -(x.ia + x.ib))) {
      hide *;
      RunTickKeepsLevel(m, c, x, b, w);
    } else {
      hide RunTick, FadedSpeed, FeedForwardReach, Bounds.Admit, Safe, WrapAngle, Svpwm, InvParkAt, AlignAngle;
    }
  }

  // ------------------------------------------------------------ whole runs

  predicate SpeedsWithin(xs: seq<TickInput>, w: real) {
    forall i :: 0 <= i < |xs| ==> Abs(FadedSpeed(xs[i].omegaMech * POLE_PAIRS)) <= w
  }

  /** Over every run of ticks, through alignment, closed loop and trips, both current-loop
      integrators keep the level, provided the feed-forward fits the PI output limit. */
  lemma {:induction false} IntegratorsStayBounded(m: Libm, c: Ctx, xs: seq<TickInput>, b: Bounds, w: real)
    requires m.Lawful() && Safe(m, c) && Covers(c, b, w) && AtLevel(c, b.level)
    requires SpeedsWithin(xs, w)
    ensures var n := RunTicks(m, c, xs); Safe(m, n) && AtLevel(n, b.level) && Covers(n, b, w)
  {
    if xs != [] {
      hide Safe, Covers, Step, FadedSpeed, AtLevel, SameSetup;
      var last := |xs| - 1;
      IntegratorsStayBounded(m, c, xs[..last], b, w);
      var d := RunTicks(m, c, xs[..last]);
      TickKeepsLevel(m, d, xs[last], b, w);
      StepKeepsSafe(m, d, xs[last]);
      SetupCovers(d, Step(m, d, xs[last]), b, w);
    }
  }

  /** The level of the default tuning: the largest of the precharge, one overshoot and one back-calculation. */
  function Level(p: PidState, ff: real): real {
    Max(ALIGN_VOLTAGE_V,
        Max(p.outMax + Overshoot(p, CONTROL_DT, MAX_AXIS_ERROR), ff + UpdateReach(p, MAX_AXIS_ERROR)))
  }

  /** For the tuning and motor parameters in force, `Level` bounds both integrators over every run
      whose speed keeps the feed-forward within the PI limit. */
  lemma IntegratorBound(m: Libm, c: Ctx, xs: seq<TickInput>, w: real)
    requires m.Lawful() && Safe(m, c) && Gains(c.pidId, CONTROL_DT)
    requires w >= 0.0 && SpeedsWithin(xs, w)
    requires FeedForwardReach(w, c.lMotor, c.psiMotor) <= c.pidId.outMax
    requires AtLevel(c, Level(c.pidId, FeedForwardReach(w, c.lMotor, c.psiMotor)))
    ensures AtLevel(RunTicks(m, c, xs), Level(c.pidId, FeedForwardReach(w, c.lMotor, c.psiMotor)))
  {
    var ff := FeedForwardReach(w, c.lMotor, c.psiMotor);
    var b := Bounds(MAX_AXIS_ERROR, ff, Level(c.pidId, ff));
    assert ff >= 0.0 by { MulMonotone(0.0, Abs(c.lMotor) * MAX_AXIS_CURRENT + Abs(c.psiMotor), w); }
    hide FeedForwardReach, UpdateReach, Overshoot, RunTicks, Step, SpeedsWithin;
    var q := c.pidIq;
    TwinAxes(c.pidId, q, MAX_AXIS_ERROR);
    IntegratorsStayBounded(m, c, xs, b, w);
  }

  /** Where even the clamp on the speed keeps the feed-forward within the PI limit, the level holds
      whatever the speed. */
  lemma IntegratorBoundAtAnySpeed(m: Libm, c: Ctx, xs: seq<TickInput>)
    requires m.Lawful() && Safe(m, c) && Gains(c.pidId, CONTROL_DT)
    requires FeedForwardReach(4000.0, c.lMotor, c.psiMotor) <= c.pidId.outMax
    requires AtLevel(c, Level(c.pidId, FeedForwardReach(4000.0, c.lMotor, c.psiMotor)))
    ensures AtLevel(RunTicks(m, c, xs), Level(c.pidId, FeedForwardReach(4000.0, c.lMotor, c.psiMotor)))
  {
    forall i | 0 <= i < |xs|
      ensures Abs(FadedSpeed(xs[i].omegaMech * POLE_PAIRS)) <= 4000.0
    {
      FadedSpeedBound(xs[i].omegaMech * POLE_PAIRS);
    }
    hide FadedSpeed, FeedForwardReach, Level, RunTicks, Safe, Gains, AtLevel;
    IntegratorBound(m, c, xs, 4000.0);
  }

  lemma TwinAxes(p: PidState, q: PidState, e: real)
    requires p.kp == q.kp && p.ki == q.ki
    ensures Overshoot(p, CONTROL_DT, e) == Overshoot(q, CONTROL_DT, e) && UpdateReach(p, e) == UpdateReach(q, e)
  {
  }

  // ------------------------------------------ windup beyond the PI limit

  /** On the q axis alone, the clamp turns any longer braking command into exactly -vlim. */
  lemma ClampOnAxis(m: Libm, q: real, vlim: real)
    requires m.SqrtAt(Norm2(Dq(0.0, q))) && 0.0 < vlim && q < 0.0 - vlim
    ensures Clamps(m, Dq(0.0, q), vlim)
    ensures Scale(Dq(0.0, q), ClampFactor(m, Dq(0.0, q), vlim)) == Dq(0.0, 0.0 - vlim)
  {
    var v := Dq(0.0, q);
    var n, vmag := Norm2(v), m.sqrt(Norm2(v));
    assert n == q * q;
    SquareOrder(vmag, 0.0 - q, n, n);
    SquareOrder(q, vmag, n, n);
    assert vmag == 0.0 - q;
    var k := ClampFactor(m, v, vlim);
    DivideBack(vlim, vmag, k);
    assert q * k == 0.0 - k * vmag;
  }

  /** A motor coasting without current, torque reference zero, d axis at rest. */
  predicate Coasting(c: Ctx) {
    && c.state.Running? && c.mode.Torque? && c.idRef == 0.0 && c.iqRef == 0.0
    && c.pidId.integrator == 0.0 && c.pidId.Symmetric() && c.pidIq.Symmetric() && c.vlim > 0.0
  }

  function Currentless(x: TickInput): TickInput {
    x.(ia := 0.0, ib := 0.0)
  }

  /** The feed-forward on the q axis when no current flows. */
  function CoastingFeedForward(c: Ctx, x: TickInput): real {
    BackEmf(FadedSpeed(x.omegaMech * POLE_PAIRS), c.psiMotor)
  }

  lemma CoastingMeasures(m: Libm, c: Ctx, x: TickInput)
    ensures Measured(m, Sampled(m, c, Currentless(x))).iDq == Dq(0.0, 0.0)
    ensures !Overcurrent(Abc(Currentless(x).ia, Currentless(x).ib, -(Currentless(x).ia + Currentless(x).ib)))
  {
  }

  lemma CoastingLoop(m: Libm, d: Ctx, f: real)
    requires Coasting(d) && d.iDq == Dq(0.0, 0.0) && f == BackEmf(FadedSpeed(d.omegaE), d.psiMotor)
    requires m.SqrtAt(Norm2(Dq(0.0, d.pidIq.Output(0.0) + f)))
    requires d.pidIq.Output(0.0) + f < 0.0 - d.vlim
    ensures var n := CurrentLoop(m, d);
            && n == d.(v := n.v, pidIq := n.pidIq)
            && n.pidIq == BackCalculated(d.pidIq, 0.0 - d.vlim, f, d.pidIq.Output(0.0))
  {
    hide FadedSpeed, BackEmf, ClampFactor, Clamps, Norm2;
    var pi := d.pidIq.Output(0.0);
    ClampOnAxis(m, pi + f, d.vlim);
    assert d.pidId.Unclamped(0.0) == 0.0;
    assert d.pidId.Updated(0.0, CONTROL_DT) == d.pidId;
    assert d.pidIq.Updated(0.0, CONTROL_DT) == d.pidIq;
    var ff := FeedForward(d.omegaE, d.lMotor, d.psiMotor, d.iDq);
    assert ff == Dq(0.0, f);
    assert Add(Dq(d.pidId.Output(0.0), pi), ff) == Dq(0.0, pi + f);
  }

  /** One coasting tick whose feed-forward exceeds what output and clamp can absorb. */
  lemma CoastingTick(m: Libm, c: Ctx, x: TickInput)
    requires m.Lawful() && Coasting(c)
    requires c.pidIq.Output(0.0) + CoastingFeedForward(c, x) < 0.0 - c.vlim
    ensures var n := Step(m, c, Currentless(x));
            && Coasting(n) && n.vlim == c.vlim && n.psiMotor == c.psiMotor
            && n.pidIq == BackCalculated(c.pidIq, 0.0 - c.vlim, CoastingFeedForward(c, x), c.pidIq.Output(0.0))
  {
    CoastingMeasures(m, c, x);
    var s := Sampled(m, c, Currentless(x));
    var d := SpeedLoop(PositionLoop(Measured(m, s)));
    assert m.SqrtAt(Norm2(Dq(0.0, c.pidIq.Output(0.0) + CoastingFeedForward(c, x))));
    hide FadedSpeed, BackEmf, CurrentLoop, Norm2, WrapAngle, ParkAt, InvParkAt, Svpwm, Clarke;
    hide PidState.Output, AdvancedAngle;
    CoastingLoop(m, d, CoastingFeedForward(c, x));
  }

  /** What one tick adds once the output is saturated. */
  function WindupGain(c: Ctx, x: TickInput): real {
    0.0 - CoastingFeedForward(c, x) - c.vlim - c.pidIq.outMax
  }

  /** Coasting, saturated, with a feed-forward beyond output limit and clamp together. */
  predicate WindingUp(c: Ctx, x: TickInput) {
    Coasting(c) && c.pidIq.integrator >= c.pidIq.outMax && WindupGain(c, x) > 0.0
  }

  lemma SaturatedTick(m: Libm, c: Ctx, x: TickInput)
    requires m.Lawful() && WindingUp(c, x)
    ensures var n := Step(m, c, Currentless(x));
            && WindingUp(n, x) && WindupGain(n, x) == WindupGain(c, x)
            && n.pidIq.integrator == c.pidIq.integrator + WindupGain(c, x)
  {
    hide Step, FadedSpeed, BackEmf;
    assert c.pidIq.Unclamped(0.0) == c.pidIq.integrator;
    CoastingTick(m, c, x);
  }

  /** From a saturated integrator every further tick adds the same positive amount. */
  lemma {:induction false} CoastingWindsUp(m: Libm, c: Ctx, x: TickInput, n: nat)
    requires m.Lawful() && WindingUp(c, x)
    ensures var d := RunTicks(m, c, seq(n, _ => Currentless(x)));
            && WindingUp(d, x) && WindupGain(d, x) == WindupGain(c, x)
            && d.pidIq.integrator == Wound(c.pidIq.integrator, n, WindupGain(c, x))
  {
    hide Step, WindingUp, WindupGain, Wound;
    WoundNext(c.pidIq.integrator, if n == 0 then 0 else n - 1, WindupGain(c, x));
    if n > 0 {
      var xs, ys := seq(n, _ => Currentless(x)), seq(n - 1, _ => Currentless(x));
      assert xs[..|xs| - 1] == ys;
      CoastingWindsUp(m, c, x, n - 1);
      SaturatedTick(m, RunTicks(m, c, ys), x);
    }
  }

  /** No level bounds the integrator over these runs. */
  lemma WindupIsUnbounded(m: Libm, c: Ctx, x: TickInput, level: real) returns (n: nat)
    requires m.Lawful() && WindingUp(c, x)
    ensures var d := RunTicks(m, c, seq(n, _ => Currentless(x))); d.state.Running? && !AtLevel(d, level)
  {
    hide *;
    WindingUpGains(c, x);
    n := EnoughTicks(c.pidIq.integrator, WindupGain(c, x), level);
    CoastingWindsUp(m, c, x, n);
    AboveLevel(RunTicks(m, c, seq(n, _ => Currentless(x))), x, level);
  }

  lemma WindingUpGains(c: Ctx, x: TickInput)
    requires WindingUp(c, x)
    ensures WindupGain(c, x) > 0.0
  {
  }

  lemma AboveLevel(c: Ctx, x: TickInput, level: real)
    requires c.pidIq.integrator > level && WindingUp(c, x)
    ensures !AtLevel(c, level) && c.state.Running?
  {
  }

  /** The default motor under a limit of 0.3 V, coasting backwards at 100 rad/s from cleared
      integrators: a single tick saturates the q axis, and every later one winds it up. */
  lemma LimitedMotorWindsUp(m: Libm, c: Ctx, x: TickInput, level: real) returns (n: nat)
    requires m.Lawful() && Coasting(c)
    requires c.psiMotor == MOTOR_PSI_WB && c.vlim == 0.3 && c.pidIq.outMax == 0.3
    requires c.pidIq.integrator == 0.0 && x.omegaMech == -100.0
    ensures var d := RunTicks(m, Step(m, c, Currentless(x)), seq(n, _ => Currentless(x)));
            d.state.Running? && !AtLevel(d, level)
  {
    assert FadedSpeed(-100.0 * POLE_PAIRS) == -700.0;
    assert CoastingFeedForward(c, x) == -1.106;
    assert c.pidIq.Unclamped(0.0) == 0.0;
    hide Step, RunTicks, FadedSpeed, BackEmf;
    CoastingTick(m, c, x);
    n := WindupIsUnbounded(m, Step(m, c, Currentless(x)), x, level);
  }
}
