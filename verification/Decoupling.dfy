/**
  What the feed-forward is for, on a closed-loop pass: cancelling the
  cross-coupling and the back-EMF of the machine, so that each axis is left to its
  PI controller.  The feed-forward works on the measured current, which is the
  motor's own turned back by one period of rotation; that, the fade and the speed
  clamp decide what is left of the coupling.
 */
module Decoupling {
  import opened Numeric
  import opened Transforms
  import opened PidControl
  import opened Foc
  import opened FocSafety
  import opened Simulator
  import opened SimTransforms
  import opened ClosedLoop
  import Histories

  // ---------------------------------------------------- a closed-loop pass

  /** The pass runs in closed loop and does not trip. */
  predicate ClosedPass(m: Libm, b: Bench) {
    b.world.ctx.state.Running? && LoopPass(m, b).world.ctx.state.Running?
  }

  /** Inductance and flux, as the controller or the machine has them. */
  datatype Constants = Constants(l: real, psi: real)

  function Known(b: Bench): Constants {
    Constants(b.world.ctx.lMotor, b.world.ctx.psiMotor)
  }

  function TrueConstants(s: SimState): Constants {
    Constants(s.l, s.psi)
  }

  /** The context as the current loop of the pass finds it. */
  function Prepared(m: Libm, b: Bench): Ctx {
    SpeedLoop(PositionLoop(Measured(m, Sampled(m, b.world.ctx, Reading(m, b.sim)))))
  }

  /** The two PI outputs of the pass. */
  function PiVoltage(m: Libm, b: Bench): Dq {
    var d := Prepared(m, b);
    Dq(d.pidId.Output(d.idRef - d.iDq.d), d.pidIq.Output(d.iqRef - d.iDq.q))
  }

  /** The command of the pass before the vector clamp. */
  function PassCommand(m: Libm, b: Bench): Dq {
    Command(m, Sampled(m, b.world.ctx, Reading(m, b.sim)))
  }

  /** The current that the pass measures. */
  function Seen(m: Libm, s: SimState): Dq {
    Ahead(m, s.i, Turn(s, CONTROL_DT))
  }

  /** The voltage that the resistance takes. */
  function Resistive(r: real, i: Dq): Dq {
    Dq(r * i.d, r * i.q)
  }

  function Drop(s: SimState): Dq {
    Resistive(s.r, s.i)
  }

  /** The inductor voltages of two axes under PI voltages alone. */
  function Decoupled(s: SimState, pi: Dq): Dq {
    Dq(pi.d - Drop(s).d, pi.q - Drop(s).q)
  }

  /** Feed-forward at the faded speed for the measured current and the constants `k`, less the
      machine's coupling. */
  function Leftover(m: Libm, s: SimState, k: Constants): Dq {
    var w, omegaE := FadedSpeed(s.OmegaE()), s.OmegaE();
    Dq(CrossCoupling(w, k.l, Seen(m, s).q) - CrossCoupling(omegaE, s.l, s.i.q),
       BackEmf(w, Flux(k.l, Seen(m, s).d, k.psi)) - BackEmf(omegaE, Flux(s.l, s.i.d, s.psi)))
  }

  /** What the vector clamp takes from the command. */
  function Cut(m: Libm, b: Bench): Dq {
    var v := DrivenMotor(m, b).v;
    Dq(v.d - PassCommand(m, b).d, v.q - PassCommand(m, b).q)
  }

  lemma InductorTerms(s: SimState, v: Dq)
    ensures s.WithVoltages(v).InductorVoltage()
         == Dq(v.d - Drop(s).d - CrossCoupling(s.OmegaE(), s.l, s.i.q),
               v.q - Drop(s).q - BackEmf(s.OmegaE(), Flux(s.l, s.i.d, s.psi)))
  {
    RawTerms(s.WithVoltages(v));
    assert s.WithVoltages(v).OmegaE() == s.OmegaE();
    hide SimState.OmegaE, SimState.InductorVoltage, CrossCoupling, BackEmf, Flux, Resistive;
  }

  lemma RawTerms(s: SimState)
    ensures s.InductorVoltage()
         == Dq(s.v.d - Drop(s).d - CrossCoupling(s.OmegaE(), s.l, s.i.q),
               s.v.q - Drop(s).q - BackEmf(s.OmegaE(), Flux(s.l, s.i.d, s.psi)))
  {
    var x, y := s.r * s.i.d, s.r * s.i.q;
    var cross, emf := s.OmegaE() * s.l * s.i.q, s.OmegaE() * (s.l * s.i.d + s.psi);
    assert s.InductorVoltage() == Dq(s.v.d - x + cross, s.v.q - y - emf);
    assert Drop(s) == Dq(x, y);
    CrossTerm(s.OmegaE(), s.l, s.i.q);
    EmfTerm(s.OmegaE(), s.l, s.i.d, s.psi);
    hide *;
  }

  lemma CrossTerm(w: real, l: real, iq: real)
    ensures w * l * iq == -CrossCoupling(w, l, iq)
  {
  }

  lemma EmfTerm(w: real, l: real, id: real, psi: real)
    ensures w * (l * id + psi) == BackEmf(w, Flux(l, id, psi))
  {
  }

  lemma PassDrivesMotor(m: Libm, b: Bench)
    requires b.world.ctx.state.Running?
    ensures DrivenMotor(m, b) == b.sim.WithVoltages(DrivenMotor(m, b).v)
    ensures DrivenMotor(m, b).v == LoopPass(m, b).world.ctx.v
  {
    hide Reading, SimState.Step, SimState.InductorVoltage;
  }

  lemma CommandTerms(m: Libm, b: Bench)
    requires m.Lawful()
    ensures PassCommand(m, b).d
         == PiVoltage(m, b).d + CrossCoupling(FadedSpeed(b.sim.OmegaE()), Known(b).l, Seen(m, b.sim).q)
    ensures PassCommand(m, b).q
         == PiVoltage(m, b).q + BackEmf(FadedSpeed(b.sim.OmegaE()), Flux(Known(b).l, Seen(m, b.sim).d, Known(b).psi))
  {
    SimCurrentAtAdvancedAngle(m, b.world.ctx, b.sim);
    PreparedFrame(m, b);
    hide Measured, Reading, SpeedLoop, PositionLoop, Seen, FadedSpeed, CrossCoupling, BackEmf, Flux, PidState.Output;
    hide Sampled, m.Lawful, SimState.OmegaE;
    SeenIs(m, b.sim);
  }

  lemma SeenIs(m: Libm, s: SimState)
    ensures Seen(m, s) == Ahead(m, s.i, Turn(s, CONTROL_DT))
  {
  }

  lemma PreparedFrame(m: Libm, b: Bench)
    ensures var d := Prepared(m, b);
            && d.iDq == Measured(m, Sampled(m, b.world.ctx, Reading(m, b.sim))).iDq
            && d.omegaE == b.sim.OmegaE() && d.lMotor == b.world.ctx.lMotor && d.psiMotor == b.world.ctx.psiMotor
  {
    hide WrapAngle, ParkAt, Clarke, AdvancedAngle, PidState.Output, PidState.Updated, SimState.Ia, SimState.Ib;
  }

  /** The inductor voltages of a closed-loop pass: the decoupled axes, what is left of the coupling,
      and what the clamp took. */
  lemma CouplingLeft(m: Libm, b: Bench)
    requires m.Lawful() && ClosedPass(m, b)
    ensures DrivenMotor(m, b).InductorVoltage()
         == Add(Add(Decoupled(b.sim, PiVoltage(m, b)), Leftover(m, b.sim, Known(b))), Cut(m, b))
  {
    PassDrivesMotor(m, b);
    InductorTerms(b.sim, DrivenMotor(m, b).v);
    CommandTerms(m, b);
    hide PiVoltage, PassCommand, DrivenMotor, Seen, Drop, FadedSpeed, CrossCoupling, BackEmf, Flux, LoopPass, m.Lawful;
    hide SimState.InductorVoltage, SimState.OmegaE;
  }

  /** The clamp takes nothing exactly when the command is within the voltage limit. */
  lemma NothingCutIff(m: Libm, vbus: Positive, b: Bench)
    requires m.Lawful() && BenchInv(m, vbus, b) && ClosedPass(m, b)
    ensures Cut(m, b) == Dq(0.0, 0.0) <==> Norm2(PassCommand(m, b)) <= b.world.ctx.vlim * b.world.ctx.vlim
  {
    hide *;
    PassFacts(m, vbus, b);
    RunningStepClamps(m, b.world.ctx, Reading(m, b.sim));
    CutIs(m, b);
  }

  lemma PassFacts(m: Libm, vbus: Positive, b: Bench)
    requires BenchInv(m, vbus, b) && ClosedPass(m, b)
    ensures var c, x := b.world.ctx, Reading(m, b.sim);
            && Safe(m, c) && c.state.Running? && !Overcurrent(Abc(x.ia, x.ib, -(x.ia + x.ib)))
            && DrivenMotor(m, b).v == Step(m, c, x).v
            && PassCommand(m, b) == Command(m, Sampled(m, c, x))
  {
    hide Step, Reading, Safe, SimState.Step, Command, Sampled, Overcurrent;
    PassIsStep(m, b);
    PassDrivesMotor(m, b);
    Histories.StaysRunning(m, b.world.ctx, Reading(m, b.sim));
  }

  lemma CutIs(m: Libm, b: Bench)
    ensures Cut(m, b) == Dq(0.0, 0.0) <==> DrivenMotor(m, b).v == PassCommand(m, b)
  {
    hide DrivenMotor, PassCommand;
  }

  // --------------------------------------------------------- what is left

  /** A current seen from a frame turned by the angle with cosine `c` and sine `n`. */
  function TurnedBy(i: Dq, c: real, n: real): Dq {
    Dq(i.d * c + i.q * n, -i.d * n + i.q * c)
  }

  function CosOf(m: Libm, s: SimState): real {
    m.cos(Turn(s, CONTROL_DT))
  }

  function SinOf(m: Libm, s: SimState): real {
    m.sin(Turn(s, CONTROL_DT))
  }

  /** The faded speed as the machine's inductance `l` would have it, when the controller takes `known`. */
  function Effective(w: real, known: real, l: Positive): real {
    w * known / l
  }

  /** The motor's speed `o` less such a speed `w` turned by one period: along and across. */
  function Along(o: real, w: real, c: real): real {
    o - w * c
  }

  function Across(w: real, n: real): real {
    w * n
  }

  function AlongTerm(a: real, b: real, i: Dq): real {
    a * i.d - b * i.q
  }

  function AcrossTerm(a: real, b: real, i: Dq): real {
    a * i.q + b * i.d
  }

  /** The back-EMF that the feed-forward has too much, as a current times a speed. */
  function FluxLeft(o: real, w: real, k: Constants, psi: real, l: Positive): real {
    (w * k.psi - o * psi) / l
  }

  /** Nothing is left exactly when the current solves two linear equations. */
  predicate Solves(o: real, w: real, c: real, n: real, i: Dq, k: Constants, psi: real, l: Positive) {
    var e := Effective(w, k.l, l);
    && AcrossTerm(Along(o, e, c), Across(e, n), i) == 0.0
    && AlongTerm(Along(o, e, c), Across(e, n), i) == FluxLeft(o, w, k, psi, l)
  }

  lemma LeftoverEquations(m: Libm, s: SimState, k: Constants)
    ensures Leftover(m, s, k) == Dq(0.0, 0.0)
       <==> Solves(s.OmegaE(), FadedSpeed(s.OmegaE()), CosOf(m, s), SinOf(m, s), s.i, k, s.psi, s.l)
  {
    SeenIsTurned(m, s);
    CrossEquation(FadedSpeed(s.OmegaE()), s.OmegaE(), CosOf(m, s), SinOf(m, s), s.i, k, s.l);
    EmfEquation(FadedSpeed(s.OmegaE()), s.OmegaE(), CosOf(m, s), SinOf(m, s), s.i, k, s.l, s.psi);
    hide FadedSpeed, SimState.OmegaE, Seen, TurnedBy, CosOf, SinOf, CrossCoupling, BackEmf, Flux;
    hide AlongTerm, AcrossTerm, Along, Across, FluxLeft, Effective;
  }

  lemma SeenIsTurned(m: Libm, s: SimState)
    ensures Seen(m, s) == TurnedBy(s.i, CosOf(m, s), SinOf(m, s))
  {
    hide Turn;
  }

  lemma EffectiveIs(w: real, known: real, l: Positive)
    ensures l * Effective(w, known, l) == w * known
    ensures known == l ==> Effective(w, known, l) == w
  {
    DivideBack(w * known, l, Effective(w, known, l));
    if known == l { QuotientIs(w, l, w * known); }
  }

  /** A difference of couplings is the inductance times the left side of an equation. */
  lemma CrossDifference(w: real, e: real, o: real, c: real, n: real, i: Dq, known: real, l: Positive)
    requires l * e == w * known
    ensures CrossCoupling(w, known, TurnedBy(i, c, n).q) - CrossCoupling(o, l, i.q)
         == l * AcrossTerm(Along(o, e, c), Across(e, n), i)
  {
    var t := TurnedBy(i, c, n).q;
    assert CrossCoupling(w, known, t) == -(l * e) * t;
    assert AcrossTerm(Along(o, e, c), Across(e, n), i) == o * i.q - e * t;
    hide CrossCoupling, AcrossTerm, TurnedBy;
    assert l * (o * i.q - e * t) == l * (o * i.q) - (l * e) * t;
    assert CrossCoupling(o, l, i.q) == -(l * (o * i.q)) by { CrossIs(o, l, i.q); }
  }

  lemma CrossIs(o: real, l: real, x: real)
    ensures CrossCoupling(o, l, x) == -(l * (o * x))
  {
  }

  lemma CrossEquation(w: real, o: real, c: real, n: real, i: Dq, k: Constants, l: Positive)
    ensures var e := Effective(w, k.l, l);
            (CrossCoupling(w, k.l, TurnedBy(i, c, n).q) - CrossCoupling(o, l, i.q) == 0.0
             <==> AcrossTerm(Along(o, e, c), Across(e, n), i) == 0.0)
  {
    hide *;
    var e := Effective(w, k.l, l);
    EffectiveIs(w, k.l, l);
    CrossDifference(w, e, o, c, n, i, k.l, l);
    ZeroProduct(l, AcrossTerm(Along(o, e, c), Across(e, n), i));
  }

  lemma EmfDifference(w: real, e: real, o: real, c: real, n: real, i: Dq, k: Constants, l: Positive, psi: real)
    requires l * e == w * k.l
    ensures BackEmf(w, Flux(k.l, TurnedBy(i, c, n).d, k.psi)) - BackEmf(o, Flux(l, i.d, psi))
         == (w * k.psi - o * psi) - l * AlongTerm(Along(o, e, c), Across(e, n), i)
  {
    var t := TurnedBy(i, c, n).d;
    assert AlongTerm(Along(o, e, c), Across(e, n), i) == o * i.d - e * t;
    assert BackEmf(w, Flux(k.l, t, k.psi)) == (l * e) * t + w * k.psi;
    assert BackEmf(o, Flux(l, i.d, psi)) == l * (o * i.d) + o * psi;
    hide BackEmf, Flux, AlongTerm, TurnedBy;
    assert l * (o * i.d - e * t) == l * (o * i.d) - (l * e) * t;
  }

  lemma EmfEquation(w: real, o: real, c: real, n: real, i: Dq, k: Constants, l: Positive, psi: real)
    ensures var e := Effective(w, k.l, l);
            (BackEmf(w, Flux(k.l, TurnedBy(i, c, n).d, k.psi)) - BackEmf(o, Flux(l, i.d, psi)) == 0.0
             <==> AlongTerm(Along(o, e, c), Across(e, n), i) == FluxLeft(o, w, k, psi, l))
  {
    var e := Effective(w, k.l, l);
    EffectiveIs(w, k.l, l);
    EmfDifference(w, e, o, c, n, i, k, l, psi);
    QuotientEquation(w * k.psi - o * psi, l, AlongTerm(Along(o, e, c), Across(e, n), i), FluxLeft(o, w, k, psi, l));
    hide BackEmf, Flux, AlongTerm, Along, Across, FluxLeft, TurnedBy, Effective;
  }

  lemma QuotientEquation(p: real, l: Positive, e: real, k: real)
    requires k == p / l
    ensures p - l * e == 0.0 <==> e == k
  {
    DivideBack(p, l, k);
    ZeroProduct(l, k - e);
    assert l * (k - e) == p - l * e;
  }

  lemma ZeroProduct(x: real, y: real)
    ensures x * y == 0.0 <==> x == 0.0 || y == 0.0
  {
  }

  /** Two equations of a scaled rotation have one solution, unless the scale is zero. */
  lemma RotationSolves(a: real, b: real, k: real, x: real, y: real, det: real)
    requires det == a * a + b * b && det != 0.0
    ensures a * y + b * x == 0.0 && a * x - b * y == k <==> x == k * a / det && y == -(k * b) / det
  {
    DivideBack(k * a, det, k * a / det);
    DivideBack(-(k * b), det, -(k * b) / det);
    if a * y + b * x == 0.0 && a * x - b * y == k {
      assert det * x == a * (a * x - b * y) + b * (a * y + b * x);
      assert det * y == a * (a * y + b * x) - b * (a * x - b * y);
      QuotientIs(x, det, k * a);
      QuotientIs(y, det, -(k * b));
    }
  }

  lemma QuotientIs(x: real, det: real, p: real)
    requires det != 0.0 && det * x == p
    ensures x == p / det
  {
  }

  // ------------------------------------------------------- exact conditions

  function Scale2(a: real, b: real): real {
    a * a + b * b
  }

  /** The one current whose coupling the feed-forward cancels, unless the rotation vanishes. */
  function BalancedCurrent(a: real, b: real, k: real): Dq
    requires Scale2(a, b) != 0.0
  {
    Dq(k * a / Scale2(a, b), -(k * b) / Scale2(a, b))
  }

  /** Whether the feed-forward cancels the coupling, from speed, current and constants before the pass. */
  predicate CancelsAt(o: real, w: real, c: real, n: real, i: Dq, k: Constants, psi: real, l: Positive) {
    var e := Effective(w, k.l, l);
    var a, b := Along(o, e, c), Across(e, n);
    if Scale2(a, b) == 0.0 then FluxLeft(o, w, k, psi, l) == 0.0
    else i == BalancedCurrent(a, b, FluxLeft(o, w, k, psi, l))
  }

  predicate Cancels(m: Libm, s: SimState, k: Constants) {
    CancelsAt(s.OmegaE(), FadedSpeed(s.OmegaE()), CosOf(m, s), SinOf(m, s), s.i, k, s.psi, s.l)
  }

  lemma UnitCosine(c: real, n: real)
    requires c * c + n * n == 1.0
    ensures c == 1.0 ==> n == 0.0
    ensures (1.0 - c) * (1.0 - c) + n * n == 2.0 * (1.0 - c)
  {
    if c == 1.0 { ZeroProduct(n, n); }
  }

  /** A current less itself turned is zero only without current or without turn. */
  lemma NoDifferenceIff(c: real, n: real, u: real, x: real, y: real)
    requires c * c + n * n == 1.0 && u == 1.0 - c
    ensures u * y + n * x == 0.0 && u * x - n * y == 0.0 <==> (x == 0.0 && y == 0.0) || c == 1.0
  {
    UnitCosine(c, n);
    if c == 1.0 {
      assert u * y + n * x == 0.0 && u * x - n * y == 0.0;
    } else {
      RotationSolves(u, n, 0.0, x, y, 2.0 * u);
      ZeroQuotients(u, n, 2.0 * u);
    }
  }

  lemma FullSpeedTerms(o: real, c: real, n: real, u: real, i: Dq)
    requires u == 1.0 - c
    ensures AcrossTerm(Along(o, o, c), Across(o, n), i) == o * (u * i.q + n * i.d)
    ensures AlongTerm(Along(o, o, c), Across(o, n), i) == o * (u * i.d - n * i.q)
  {
    assert Along(o, o, c) == o * u;
    hide Along;
  }

  /** With matching constants and the fade idle the equations hold for no current, or for any in
      whole turns. */
  lemma FullSpeedSolves(o: real, c: real, n: real, i: Dq, psi: real, l: Positive)
    requires o != 0.0 && c * c + n * n == 1.0
    ensures Solves(o, o, c, n, i, Constants(l, psi), psi, l) <==> i == Dq(0.0, 0.0) || c == 1.0
  {
    hide *;
    var u := 1.0 - c;
    MatchedEquations(o, c, n, i, psi, l);
    FullSpeedTerms(o, c, n, u, i);
    NoDifferenceIff(c, n, u, i.d, i.q);
    ZeroProduct(o, u * i.q + n * i.d);
    ZeroProduct(o, u * i.d - n * i.q);
  }

  lemma MatchedEquations(o: real, c: real, n: real, i: Dq, psi: real, l: Positive)
    ensures Solves(o, o, c, n, i, Constants(l, psi), psi, l)
       <==> AcrossTerm(Along(o, o, c), Across(o, n), i) == 0.0 && AlongTerm(Along(o, o, c), Across(o, n), i) == 0.0
  {
    EffectiveIs(o, l, l);
    assert FluxLeft(o, o, Constants(l, psi), psi, l) == 0.0;
    hide AcrossTerm, AlongTerm, FluxLeft, Effective, Along, Across;
  }

  lemma ZeroQuotients(a: real, b: real, det: real)
    requires det != 0.0
    ensures 0.0 * a / det == 0.0 && -(0.0 * b) / det == 0.0
  {
  }

  /** The equations, for any speeds and constants, hold exactly under `CancelsAt`. */
  lemma SolvesIff(o: real, w: real, c: real, n: real, i: Dq, k: Constants, psi: real, l: Positive)
    ensures Solves(o, w, c, n, i, k, psi, l) <==> CancelsAt(o, w, c, n, i, k, psi, l)
  {
    var e := Effective(w, k.l, l);
    var a, b, f := Along(o, e, c), Across(e, n), FluxLeft(o, w, k, psi, l);
    hide Along, Across, FluxLeft, Effective;
    if Scale2(a, b) == 0.0 {
      BothZero(a, b);
    } else {
      RotationSolves(a, b, f, i.d, i.q, Scale2(a, b));
    }
  }

  lemma SameLength(o: real, w: real)
    requires o * o == w * w && w * o >= 0.0
    ensures w == o
  {
    var p := o * o;
    assert (o - w) * (o + w) == 0.0;
    ZeroProduct(o - w, o + w);
    if o + w == 0.0 {
      assert w * o == -p;
      assert p >= 0.0;
      ZeroProduct(o, o);
    }
  }

  /** A faded speed, no longer than the speed and along it, leaves a rotation that is not zero. */
  lemma FadedScale(o: real, w: real, c: real, n: real)
    requires c * c + n * n == 1.0 && w * w <= o * o && w * o >= 0.0
    ensures Scale2(Along(o, w, c), Across(w, n)) == 0.0 ==> w == o
  {
    var a, b := Along(o, w, c), Across(w, n);
    if Scale2(a, b) == 0.0 {
      BothZero(a, b);
      assert o == w * c;
      assert (w * c) * (w * c) + b * b == (w * w) * (c * c + n * n);
      SameLength(o, w);
    }
  }

  lemma BothZero(a: real, b: real)
    requires a * a + b * b == 0.0
    ensures a == 0.0 && b == 0.0
  {
    assert a * a >= 0.0 && b * b >= 0.0;
    ZeroProduct(a, a);
    ZeroProduct(b, b);
  }

  lemma FadeShortens(o: real)
    ensures FadedSpeed(o) * FadedSpeed(o) <= o * o && FadedSpeed(o) * o >= 0.0
  {
    var w := Clamp(o, -4000.0, 4000.0);
    ClampShortens(o, w);
    ShareShortens(o, w, Clamp((Abs(w) - 50.0) / 50.0, 0.0, 1.0));
  }

  lemma ClampShortens(o: real, w: real)
    requires w == Clamp(o, -4000.0, 4000.0)
    ensures w * w <= o * o && w * o >= 0.0
  {
    SquareOrder(w, Abs(o), w * w, o * o);
  }

  lemma ShareShortens(o: real, w: real, k: real)
    requires w * w <= o * o && w * o >= 0.0 && 0.0 <= k <= 1.0
    ensures (w * k) * (w * k) <= o * o && (w * k) * o >= 0.0
  {
    var ww, kk, wo := w * w, k * k, w * o;
    SquareOrder(k, 1.0, kk, 1.0);
    assert ww >= 0.0;
    MulMonotone(kk, 1.0, ww);
    assert (w * k) * (w * k) == ww * kk;
    MulMonotone(0.0, wo, k);
    assert (w * k) * o == wo * k;
  }

  /** Nothing is left of the coupling exactly under `Cancels`, whatever constants the controller has. */
  lemma NothingLeftIff(m: Libm, s: SimState, k: Constants)
    ensures Leftover(m, s, k) == Dq(0.0, 0.0) <==> Cancels(m, s, k)
  {
    hide *;
    LeftoverEquations(m, s, k);
    SolvesIff(s.OmegaE(), FadedSpeed(s.OmegaE()), CosOf(m, s), SinOf(m, s), s.i, k, s.psi, s.l);
    CancelsIs(m, s, k);
  }

  lemma CancelsIs(m: Libm, s: SimState, k: Constants)
    ensures Cancels(m, s, k)
       <==> CancelsAt(s.OmegaE(), FadedSpeed(s.OmegaE()), CosOf(m, s), SinOf(m, s), s.i, k, s.psi, s.l)
  {
    hide CancelsAt;
  }

  /** The condition by speed, for a controller that knows the machine: always at standstill; with the
      fade idle without current or in whole turns; at a faded speed for exactly one current. */
  lemma MatchedCancelsIff(m: Libm, s: SimState)
    requires m.Lawful()
    ensures var o, w := s.OmegaE(), FadedSpeed(s.OmegaE());
            var a, b := Along(o, w, CosOf(m, s)), Across(w, SinOf(m, s));
            Cancels(m, s, TrueConstants(s)) <==>
              || o == 0.0
              || (if w == o then s.i == Dq(0.0, 0.0) || CosOf(m, s) == 1.0
                  else && Scale2(a, b) != 0.0
                       && s.i == BalancedCurrent(a, b, FluxLeft(o, w, TrueConstants(s), s.psi, s.l)))
  {
    hide *;
    UnitOf(m, s);
    FadeIsExactIff(s.OmegaE());
    FadeShortens(s.OmegaE());
    CancelsIs(m, s, TrueConstants(s));
    MatchedAt(s.OmegaE(), FadedSpeed(s.OmegaE()), CosOf(m, s), SinOf(m, s), s.i, s.psi, s.l);
    TrueIs(s);
  }

  lemma TrueIs(s: SimState)
    ensures TrueConstants(s) == Constants(s.l, s.psi)
  {
  }

  lemma MatchedAt(o: real, w: real, c: real, n: real, i: Dq, psi: real, l: Positive)
    requires c * c + n * n == 1.0 && w * w <= o * o && w * o >= 0.0 && (o == 0.0 ==> w == o)
    ensures var k, a, b := Constants(l, psi), Along(o, w, c), Across(w, n);
            CancelsAt(o, w, c, n, i, k, psi, l) <==>
              || o == 0.0
              || (if w == o then i == Dq(0.0, 0.0) || c == 1.0
                  else Scale2(a, b) != 0.0 && i == BalancedCurrent(a, b, FluxLeft(o, w, k, psi, l)))
  {
    EffectiveIs(w, l, l);
    FadedScale(o, w, c, n);
    if o == 0.0 {
      assert Scale2(Along(o, w, c), Across(w, n)) == 0.0 && FluxLeft(o, w, Constants(l, psi), psi, l) == 0.0;
    } else if w == o {
      FullSpeedSolves(o, c, n, i, psi, l);
      SolvesIff(o, w, c, n, i, Constants(l, psi), psi, l);
    }
    hide Solves, Scale2, Along, Across, FluxLeft, BalancedCurrent, Effective;
  }

  /** The fade leaves the speed alone exactly at standstill and between 100 and 4000 rad/s. */
  lemma FadeIsExactIff(omegaE: real)
    ensures FadedSpeed(omegaE) == omegaE <==> omegaE == 0.0 || 100.0 <= Abs(omegaE) <= 4000.0
  {
    var w := Clamp(omegaE, -4000.0, 4000.0);
    var k := Clamp((Abs(w) - 50.0) / 50.0, 0.0, 1.0);
    if k == 1.0 {
      assert FadedSpeed(omegaE) == w;
    } else {
      assert Abs(omegaE) < 100.0 && w == omegaE;
      FactorChanges(omegaE, k);
    }
  }

  lemma FactorChanges(x: real, k: real)
    requires k < 1.0
    ensures x * k == x <==> x == 0.0
  {
  }

  /** A closed-loop pass within the voltage limit decouples the axes exactly when its feed-forward
      cancels the coupling, whatever constants the controller has. */
  lemma DecoupledIff(m: Libm, vbus: Positive, b: Bench)
    requires m.Lawful() && BenchInv(m, vbus, b) && ClosedPass(m, b)
    requires Norm2(PassCommand(m, b)) <= b.world.ctx.vlim * b.world.ctx.vlim
    ensures DrivenMotor(m, b).InductorVoltage() == Decoupled(b.sim, PiVoltage(m, b)) <==> Cancels(m, b.sim, Known(b))
  {
    hide *;
    CouplingLeft(m, b);
    NothingCutIff(m, vbus, b);
    NothingLeftIff(m, b.sim, Known(b));
    NothingAdded(Decoupled(b.sim, PiVoltage(m, b)), Leftover(m, b.sim, Known(b)), Cut(m, b));
  }

  lemma NothingAdded(v: Dq, w: Dq, cut: Dq)
    requires cut == Dq(0.0, 0.0)
    ensures Add(Add(v, w), cut) == v <==> w == Dq(0.0, 0.0)
  {
  }

  /** With matching constants and between 100 and 4000 rad/s the fade is not enough: the axes are
      decoupled exactly when the measured current is the motor's own, which takes no current or a
      period of whole turns. */
  lemma DecoupledAtSpeedIff(m: Libm, vbus: Positive, b: Bench)
    requires m.Lawful() && BenchInv(m, vbus, b) && ClosedPass(m, b) && Known(b) == TrueConstants(b.sim)
    requires Norm2(PassCommand(m, b)) <= b.world.ctx.vlim * b.world.ctx.vlim
    requires 100.0 <= Abs(b.sim.OmegaE()) <= 4000.0
    ensures DrivenMotor(m, b).InductorVoltage() == Decoupled(b.sim, PiVoltage(m, b)) <==> Seen(m, b.sim) == b.sim.i
    ensures Seen(m, b.sim) == b.sim.i <==> b.sim.i == Dq(0.0, 0.0) || CosOf(m, b.sim) == 1.0
  {
    hide *;
    DecoupledIff(m, vbus, b);
    FadeIsExactIff(b.sim.OmegaE());
    MovesWhenFast(b.sim.OmegaE());
    MatchedCancelsIff(m, b.sim);
    UnitOf(m, b.sim);
    SeenIsTurned(m, b.sim);
    TurnedIsSelf(b.sim.i, CosOf(m, b.sim), SinOf(m, b.sim));
  }

  lemma MovesWhenFast(o: real)
    requires 100.0 <= Abs(o)
    ensures o != 0.0
  {
  }

  lemma TurnedIsSelf(i: Dq, c: real, n: real)
    requires c * c + n * n == 1.0
    ensures TurnedBy(i, c, n) == i <==> i == Dq(0.0, 0.0) || c == 1.0
  {
    TurnedTerms(i, c, n, 1.0 - c);
    NoDifferenceIff(c, n, 1.0 - c, i.d, i.q);
    hide TurnedBy;
  }

  lemma TurnedTerms(i: Dq, c: real, n: real, u: real)
    requires u == 1.0 - c
    ensures TurnedBy(i, c, n) == i <==> u * i.q + n * i.d == 0.0 && u * i.d - n * i.q == 0.0
  {
    Distribute(1.0, c, i.d);
    Distribute(1.0, c, i.q);
  }

  /** Under the clamp the axes are decoupled exactly when what is left is what the clamp took. */
  lemma DecoupledUnderClampIff(m: Libm, vbus: Positive, b: Bench)
    requires m.Lawful() && BenchInv(m, vbus, b) && ClosedPass(m, b)
    ensures DrivenMotor(m, b).InductorVoltage() == Decoupled(b.sim, PiVoltage(m, b))
       <==> Leftover(m, b.sim, Known(b))
            == Scale(PassCommand(m, b), 1.0 - ClampFactor(m, PassCommand(m, b), b.world.ctx.vlim))
  {
    hide *;
    CouplingLeft(m, b);
    PassFacts(m, vbus, b);
    RunningStepClamps(m, b.world.ctx, Reading(m, b.sim));
    CutByFactor(m, b, ClampFactor(m, PassCommand(m, b), b.world.ctx.vlim));
    CutAdded(Decoupled(b.sim, PiVoltage(m, b)), Leftover(m, b.sim, Known(b)), Cut(m, b));
  }

  lemma CutByFactor(m: Libm, b: Bench, k: real)
    requires DrivenMotor(m, b).v == Scale(PassCommand(m, b), k)
    ensures Scale(Cut(m, b), -1.0) == Scale(PassCommand(m, b), 1.0 - k)
  {
    hide DrivenMotor, PassCommand;
  }

  lemma CutAdded(v: Dq, w: Dq, cut: Dq)
    ensures Add(Add(v, w), cut) == v <==> w == Scale(cut, -1.0)
  {
  }

  /** At full feed-forward what is left is the voltage of the motor's current turned against itself. */
  lemma LeftoverLength(m: Libm, s: SimState)
    requires m.Lawful() && FadedSpeed(s.OmegaE()) == s.OmegaE()
    ensures Norm2(Leftover(m, s, TrueConstants(s))) == TurnedAgainst(s.OmegaE(), s.l, CosOf(m, s), s.i)
  {
    hide *;
    UnitOf(m, s);
    LeftoverTurned(m, s);
    TurnedLength(s.OmegaE(), s.l, s.psi, s.i, CosOf(m, s), SinOf(m, s));
  }

  lemma UnitOf(m: Libm, s: SimState)
    requires m.Lawful()
    ensures CosOf(m, s) * CosOf(m, s) + SinOf(m, s) * SinOf(m, s) == 1.0
  {
    assert m.UnitAt(Turn(s, CONTROL_DT));
  }

  function Residue(o: real, l: real, psi: real, i: Dq, t: Dq): Dq {
    Dq(CrossCoupling(o, l, t.q) - CrossCoupling(o, l, i.q),
       BackEmf(o, Flux(l, t.d, psi)) - BackEmf(o, Flux(l, i.d, psi)))
  }

  lemma LeftoverTurned(m: Libm, s: SimState)
    requires FadedSpeed(s.OmegaE()) == s.OmegaE()
    ensures Leftover(m, s, TrueConstants(s))
         == Residue(s.OmegaE(), s.l, s.psi, s.i, TurnedBy(s.i, CosOf(m, s), SinOf(m, s)))
  {
    SeenIsTurned(m, s);
    hide FadedSpeed, SimState.OmegaE, Seen, TurnedBy, CrossCoupling, BackEmf, Flux, CosOf, SinOf;
  }

  /** The squared voltage across reactance `o * l` of a current less itself turned by an angle of cosine `c`. */
  function TurnedAgainst(o: real, l: real, c: real, i: Dq): real {
    (o * l) * (o * l) * (2.0 * (1.0 - c) * Norm2(i))
  }

  lemma TurnedLength(o: real, l: Positive, psi: real, i: Dq, c: real, n: real)
    requires c * c + n * n == 1.0
    ensures Norm2(Residue(o, l, psi, i, TurnedBy(i, c, n))) == TurnedAgainst(o, l, c, i)
  {
    UnitCosine(c, n);
    var p, q := n * i.d + (1.0 - c) * i.q, n * i.q - (1.0 - c) * i.d;
    ResidueTerms(o, l, psi, i, c, n, p, q);
    LengthTerms(o * l, 1.0 - c, n, i.d, i.q, p, q);
    hide Residue, TurnedBy, Norm2;
  }

  lemma ResidueTerms(o: real, l: Positive, psi: real, i: Dq, c: real, n: real, p: real, q: real)
    requires p == n * i.d + (1.0 - c) * i.q && q == n * i.q - (1.0 - c) * i.d
    ensures Residue(o, l, psi, i, TurnedBy(i, c, n)) == Dq(o * l * p, o * l * q)
  {
    assert CrossCoupling(o, l, TurnedBy(i, c, n).q) - CrossCoupling(o, l, i.q) == o * l * p;
    assert BackEmf(o, Flux(l, TurnedBy(i, c, n).d, psi)) - BackEmf(o, Flux(l, i.d, psi)) == o * l * q;
  }

  lemma LengthTerms(z: real, u: real, n: real, x: real, y: real, p: real, q: real)
    requires u * u + n * n == 2.0 * u && p == n * x + u * y && q == n * y - u * x
    ensures Norm2(Dq(z * p, z * q)) == z * z * (2.0 * u * Norm2(Dq(x, y)))
  {
    assert p * p + q * q == (u * u + n * n) * (x * x + y * y);
    ScaledLength(z, p, q, 2.0 * u * Norm2(Dq(x, y)));
  }

  lemma ScaledLength(z: real, p: real, q: real, most: real)
    requires p * p + q * q == most
    ensures Norm2(Dq(z * p, z * q)) == z * z * most
  {
    assert (z * p) * (z * p) + (z * q) * (z * q) == z * z * (p * p + q * q);
  }
}
