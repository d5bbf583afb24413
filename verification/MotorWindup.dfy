/**
  The escape of the q-axis integrator with the motor's constants and speed held
  fixed: only the sign of the q current, and its reference with it, changes from
  tick to tick.
 */
module MotorWindup {
  import opened Numeric
  import opened Transforms
  import opened PidControl
  import opened Foc
  import opened FocSafety
  import opened Windup

  /** A motor with its constants, at one speed, and the magnitude of its q current. */
  datatype Motor = Motor(l: real, psi: real, omegaE: real, iq: real) {
    function Emf(): real {
      BackEmf(FadedSpeed(omegaE), psi)
    }

    function Coupling(): real {
      CrossCoupling(FadedSpeed(omegaE), l, iq)
    }
  }

  /** What a tick without error feeds the axes: the d feed-forward with either sign of the current. */
  function MotorInput(p: Motor, forward: bool): LoopInput {
    LoopInput(Dq(0.0, 0.0), Dq(if forward then p.Coupling() else 0.0 - p.Coupling(), p.Emf()))
  }

  predicate OneMotor(xs: seq<LoopInput>, p: Motor) {
    forall k :: 0 <= k < |xs| ==> xs[k] == MotorInput(p, true) || xs[k] == MotorInput(p, false)
  }

  /** Both are ticks of the current loop with these constants at this speed and no error. */
  lemma MotorInputOf(d: Ctx, p: Motor, forward: bool)
    requires d.lMotor == p.l && d.psiMotor == p.psi && d.omegaE == p.omegaE
    requires d.idRef == 0.0 && d.iDq == Dq(0.0, if forward then p.iq else 0.0 - p.iq) && d.iqRef == d.iDq.q
    ensures InputOf(d) == MotorInput(p, forward)
  {
    CouplingSign(FadedSpeed(p.omegaE), p.l, p.iq);
    assert Flux(p.l, 0.0, p.psi) == p.psi;
    hide FadedSpeed, CrossCoupling, BackEmf, Flux;
  }

  lemma CouplingSign(w: real, l: real, iq: real)
    ensures CrossCoupling(w, l, 0.0 - iq) == 0.0 - CrossCoupling(w, l, iq)
  {
  }

  /** The back-EMF works against the integrator and exceeds the output limit, and with the coupling of
      the current it always takes the command past the vector limit: `len` is a length it reaches. */
  predicate Overdriven(p: Motor, start: real, vlim: real, limit: real, len: real) {
    && 0.0 < vlim <= limit && vlim < len
    && (if start >= 0.0 then p.Emf() < 0.0 - limit else p.Emf() > limit)
    && len * len <= p.Coupling() * p.Coupling() + (Abs(p.Emf()) - limit) * (Abs(p.Emf()) - limit)
  }

  function MotorGain(p: Motor, vlim: real, limit: real, len: real): real
    requires len != 0.0
  {
    (Abs(p.Emf()) - limit) * (1.0 - vlim / len)
  }

  lemma CutOfLength(m: Libm, sum: Dq, vlim: real, len: real)
    requires m.SqrtAt(Norm2(sum)) && 0.0 < vlim < len && len * len <= Norm2(sum)
    ensures 0.0 <= ClampFactor(m, sum, vlim) <= vlim / len < 1.0
  {
    var n, vmag := Norm2(sum), m.sqrt(Norm2(sum));
    assert len * len >= 0.0;
    SquareOrder(len, vmag, len * len, n);
    hide Norm2;
    QuotientOrder(vlim, len, vmag);
  }

  predicate Aligned(x: real, y: real) {
    (x >= 0.0 && y >= 0.0) || (x <= 0.0 && y <= 0.0)
  }

  /** The command keeps the length: the output only lengthens d, and can shorten q by the limit. */
  lemma CommandIsLong(a: Axes, p: Motor, forward: bool, vlim: real, limit: real, len: real)
    requires Tuned(a, limit) && Overdriven(p, a.q.integrator, vlim, limit, len)
    requires var x := if forward then p.Coupling() else 0.0 - p.Coupling();
             Aligned(x, a.d.Output(0.0))
    ensures len * len <= Norm2(Wanted(a, MotorInput(p, forward)))
  {
    hide *;
    var x := if forward then p.Coupling() else 0.0 - p.Coupling();
    SidesOf(a, p, vlim, limit, len);
    WantedIs(a, p, forward, x);
    LongTerms(a.d.Output(0.0), a.q.Output(0.0), p.Coupling(), p.Emf(), x, limit, len);
  }

  lemma SidesOf(a: Axes, p: Motor, vlim: real, limit: real, len: real)
    requires Tuned(a, limit) && Overdriven(p, a.q.integrator, vlim, limit, len)
    ensures Abs(a.q.Output(0.0)) <= limit
    ensures if p.Emf() < 0.0 then a.q.Output(0.0) >= 0.0 && p.Emf() < -limit
            else a.q.Output(0.0) <= 0.0 && p.Emf() > limit
    ensures len * len <= p.Coupling() * p.Coupling() + (Abs(p.Emf()) - limit) * (Abs(p.Emf()) - limit)
  {
    OutputSide(a.q);
    hide PidState.Output, Motor.Coupling, Motor.Emf;
  }

  lemma LongTerms(od: real, oq: real, c: real, f: real, x: real, limit: real, len: real)
    requires Abs(oq) <= limit && (x == c || x == 0.0 - c) && Aligned(x, od)
    requires if f < 0.0 then oq >= 0.0 && f < -limit else oq <= 0.0 && f > limit
    requires len * len <= c * c + (Abs(f) - limit) * (Abs(f) - limit)
    ensures len * len <= (od + x) * (od + x) + (oq + f) * (oq + f)
  {
    var sd, sq, m := od + x, oq + f, Abs(f) - limit;
    assert Abs(c) <= Abs(sd) && Abs(m) <= Abs(sq);
    hide Abs;
    Longer(sd, c, c * c, sd * sd);
    Longer(sq, m, m * m, sq * sq);
  }

  lemma OutputSide(p: PidState)
    requires p.Symmetric()
    ensures Abs(p.Output(0.0)) <= p.outMax
    ensures p.integrator >= 0.0 ==> p.Output(0.0) >= 0.0
    ensures p.integrator <= 0.0 ==> p.Output(0.0) <= 0.0
  {
  }

  lemma WantedIs(a: Axes, p: Motor, forward: bool, x: real)
    requires x == if forward then p.Coupling() else 0.0 - p.Coupling()
    ensures var sd, sq := a.d.Output(0.0) + x, a.q.Output(0.0) + p.Emf();
            Norm2(Wanted(a, MotorInput(p, forward))) == sd * sd + sq * sq
  {
    hide PidState.Output, Motor.Coupling, Motor.Emf;
  }

  lemma Longer(x: real, y: real, yy: real, xx: real)
    requires Abs(y) <= Abs(x) && yy == y * y && xx == x * x
    ensures yy <= xx
  {
    assert Abs(x) * Abs(x) == xx;
    SquareOrder(y, Abs(x), yy, xx);
  }

  /** One tick moves the q integrator outward, on its own side. */
  lemma AxisMovesOutward(p: PidState, f: real, k: real, most: real, ff: real, gain: real)
    requires Gains(p, CONTROL_DT) && p.Symmetric() && 0.0 <= k <= most < 1.0 && p.outMax < ff
    requires gain == (ff - p.outMax) * (1.0 - most)
    requires f == if p.integrator >= 0.0 then 0.0 - ff else ff
    ensures var n := AxisNext(p, 0.0, f, k).integrator;
            if p.integrator >= 0.0 then n >= p.integrator + gain else n <= p.integrator - gain
  {
    hide AxisNext, PidState.Output;
    if p.integrator >= 0.0 {
      AxisEscapes(p, ff, k, most);
    } else {
      AxisMirror(p, 0.0, f, k);
      AxisEscapes(Mirror(p), ff, k, most);
    }
  }

  /** The sign of the current that lengthens the command. */
  predicate Forward(a: Axes, p: Motor) {
    p.Coupling() >= 0.0 <==> a.d.Output(0.0) >= 0.0
  }

  /** Two integrators on one side of zero. */
  predicate SameSide(x: real, y: real) {
    x >= 0.0 <==> y >= 0.0
  }

  lemma MotorTick(m: Libm, a: Axes, p: Motor, vlim: real, limit: real, len: real)
    requires m.Lawful() && Tuned(a, limit) && Overdriven(p, a.q.integrator, vlim, limit, len)
    ensures var n := AxesNext(m, a, MotorInput(p, Forward(a, p)), vlim);
            && Tuned(n, limit) && SameSide(a.q.integrator, n.q.integrator)
            && Abs(n.q.integrator) >= Abs(a.q.integrator) + MotorGain(p, vlim, limit, len)
  {
    hide *;
    var x := MotorInput(p, Forward(a, p));
    LawfulRoot(m, Wanted(a, x));
    ForwardAligns(a, p);
    CommandIsLong(a, p, Forward(a, p), vlim, limit, len);
    OverdrivenLength(p, a.q.integrator, vlim, limit, len);
    CutOfLength(m, Wanted(a, x), vlim, len);
    MotorParts(m, a, p, Forward(a, p), vlim, limit);
    MotorMoves(a.q, p, ClampFactor(m, Wanted(a, x), vlim), vlim, limit, len);
  }

  lemma ForwardAligns(a: Axes, p: Motor)
    ensures var x := if Forward(a, p) then p.Coupling() else 0.0 - p.Coupling();
            Aligned(x, a.d.Output(0.0))
  {
    hide PidState.Output, Motor.Coupling;
  }

  lemma OverdrivenLength(p: Motor, start: real, vlim: real, limit: real, len: real)
    requires Overdriven(p, start, vlim, limit, len)
    ensures 0.0 < vlim < len
  {
    hide Motor.Emf, Motor.Coupling;
  }

  lemma MotorMoves(q: PidState, p: Motor, k: real, vlim: real, limit: real, len: real)
    requires Gains(q, CONTROL_DT) && q.Symmetric() && q.outMax == limit
    requires Overdriven(p, q.integrator, vlim, limit, len) && len != 0.0 && 0.0 <= k <= vlim / len < 1.0
    ensures var n := AxisNext(q, 0.0, p.Emf(), k).integrator;
            SameSide(q.integrator, n) && Abs(n) >= Abs(q.integrator) + MotorGain(p, vlim, limit, len)
  {
    hide *;
    var ff := Abs(p.Emf());
    EmfSide(p, q.integrator, vlim, limit, len);
    GainPositive(p, q.integrator, vlim, limit, len);
    GainTerms(p, vlim, q.outMax, len, ff);
    AxisMovesOutward(q, p.Emf(), k, vlim / len, ff, MotorGain(p, vlim, q.outMax, len));
    Outward(q.integrator, AxisNext(q, 0.0, p.Emf(), k).integrator, MotorGain(p, vlim, limit, len));
  }

  lemma EmfSide(p: Motor, start: real, vlim: real, limit: real, len: real)
    requires Overdriven(p, start, vlim, limit, len)
    ensures p.Emf() == (if start >= 0.0 then 0.0 - Abs(p.Emf()) else Abs(p.Emf())) && limit < Abs(p.Emf())
  {
    hide Motor.Emf, Motor.Coupling;
  }

  lemma GainTerms(p: Motor, vlim: real, limit: real, len: real, ff: real)
    requires len != 0.0 && ff == Abs(p.Emf())
    ensures MotorGain(p, vlim, limit, len) == (ff - limit) * (1.0 - vlim / len)
  {
    hide Motor.Emf;
  }

  lemma Outward(x: real, n: real, gain: real)
    requires gain > 0.0 && (if x >= 0.0 then n >= x + gain else n <= x - gain)
    ensures SameSide(x, n) && Abs(n) >= Abs(x) + gain
  {
  }

  lemma GainPositive(p: Motor, start: real, vlim: real, limit: real, len: real)
    requires Overdriven(p, start, vlim, limit, len)
    ensures MotorGain(p, vlim, limit, len) > 0.0
  {
    QuotientOrder(vlim, len, len);
    hide Motor.Emf, Motor.Coupling;
    CutAtLeast(Abs(p.Emf()) - limit, Abs(p.Emf()) - limit, 1.0 - vlim / len, 1.0 - vlim / len,
               MotorGain(p, vlim, limit, len));
  }

  lemma MotorParts(m: Libm, a: Axes, p: Motor, forward: bool, vlim: real, limit: real)
    requires Tuned(a, limit)
    ensures var x := MotorInput(p, forward);
            var n := AxesNext(m, a, x, vlim);
            && n.q == AxisNext(a.q, 0.0, p.Emf(), ClampFactor(m, Wanted(a, x), vlim)) && Tuned(n, limit)
    ensures Gains(a.q, CONTROL_DT) && a.q.Symmetric() && a.q.outMax == limit
  {
    var x := MotorInput(p, forward);
    var k := ClampFactor(m, Wanted(a, x), vlim);
    AxisTuning(a.d, 0.0, x.ff.d, k);
    AxisTuning(a.q, 0.0, x.ff.q, k);
    hide AxisNext, ClampFactor, Wanted, PidState.Output, Motor.Emf, Motor.Coupling;
  }

  lemma {:induction false} MotorRun(m: Libm, a: Axes, p: Motor, vlim: real, limit: real, len: real, n: nat)
    returns (xs: seq<LoopInput>)
    requires m.Lawful() && Tuned(a, limit) && Overdriven(p, a.q.integrator, vlim, limit, len)
    ensures OneMotor(xs, p)
    ensures var r := RunAxes(m, a, xs, vlim);
            && Tuned(r, limit) && SameSide(a.q.integrator, r.q.integrator)
            && Abs(r.q.integrator) >= Wound(Abs(a.q.integrator), n, MotorGain(p, vlim, limit, len))
  {
    hide AxesNext, MotorGain, Wound, MotorInput, Tuned, Forward, Motor.Emf, Motor.Coupling, m.Lawful;
    xs := [];
    WoundNext(Abs(a.q.integrator), if n == 0 then 0 else n - 1, MotorGain(p, vlim, limit, len));
    if n > 0 {
      xs := MotorRun(m, a, p, vlim, limit, len, n - 1);
      var r := RunAxes(m, a, xs, vlim);
      MotorTick(m, r, p, vlim, limit, len);
      RunAxesSnoc(m, a, xs, MotorInput(p, Forward(r, p)), vlim);
      xs := xs + [MotorInput(p, Forward(r, p))];
    }
  }

  /** A motor with fixed constants at a fixed speed carries the integrator past every level, without
      error, when its back-EMF exceeds the output limit and its command always the vector limit. */
  lemma MotorWindsUp(m: Libm, a: Axes, p: Motor, vlim: real, limit: real, len: real, level: real)
    returns (xs: seq<LoopInput>)
    requires m.Lawful() && Tuned(a, limit) && Overdriven(p, a.q.integrator, vlim, limit, len)
    ensures OneMotor(xs, p) && !AxesAtLevel(RunAxes(m, a, xs, vlim), level)
  {
    GainPositive(p, a.q.integrator, vlim, limit, len);
    var n := EnoughTicks(Abs(a.q.integrator), MotorGain(p, vlim, limit, len), level);
    xs := MotorRun(m, a, p, vlim, limit, len, n);
  }

  /** A controller told 1 mH and 20 mWb, at 550 rad/s backwards with 8 A: its feed-forward of 11 V lies
      below output and vector limit together on a 10 V bus, and the integrator still passes every level. */
  lemma SimulatedConstantsWindUp(m: Libm, a: Axes, limit: real, level: real) returns (xs: seq<LoopInput>)
    requires m.Lawful() && Tuned(a, limit) && 5.773 <= limit <= 5.774 && a.q.integrator >= 0.0
    ensures OneMotor(xs, Motor(0.001, 0.02, -550.0, 8.0)) && !AxesAtLevel(RunAxes(m, a, xs, limit), level)
    ensures Abs(Motor(0.001, 0.02, -550.0, 8.0).Emf()) < limit + limit
  {
    var p := Motor(0.001, 0.02, -550.0, 8.0);
    assert p.Emf() == -11.0 && p.Coupling() == 4.4;
    SquareOrder(5.226, 11.0 - limit, 27.311076, (11.0 - limit) * (11.0 - limit));
    hide Motor.Emf, Motor.Coupling;
    xs := MotorWindsUp(m, a, p, limit, limit, 6.0, level);
  }
}
