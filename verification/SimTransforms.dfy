/**
  The controller's transforms undo the simulator's, through both angle wraps.

  sim.c derives phase currents at the mechanical angle times the pole pairs;
  foc.c measures them at its own wrapped, and in closed loop advanced, angle.
 */
module SimTransforms {
  import opened Numeric
  import opened Transforms
  import opened Foc
  import opened Simulator

  /** What motor_read_currents and motor_read_encoder hand to foc_step in a simulation build. */
  function Reading(m: Libm, s: SimState): TickInput {
    TickInput(s.Ia(m), s.Ib(m), s.theta, s.omega, s.thetaUnwrapped)
  }

  /** The simulator's electrical angle, before any wrapping. */
  function ElectricalAngle(s: SimState): real {
    s.theta * POLE_PAIRS
  }

  /** A rotating-frame vector seen from a frame `phi` further on. */
  function Ahead(m: Libm, v: Dq, phi: real): Dq {
    Dq(v.d * m.cos(phi) + v.q * m.sin(phi), -v.d * m.sin(phi) + v.q * m.cos(phi))
  }

  /** Clarke recovers the stationary current vector from the two simulated phases. */
  lemma ClarkeOfReading(m: Libm, s: SimState)
    requires m.Lawful()
    ensures Clarke(s.Ia(m), s.Ib(m), m.sqrt3) == InvParkAt(m, s.i, ElectricalAngle(s))
  {
  }

  /** Park at the angle inverse Park used, plus `phi`, is a rotation by `-phi`. */
  lemma ParkAhead(m: Libm, v: Dq, x: real, phi: real)
    requires m.Lawful()
    ensures ParkAt(m, InvParkAt(m, v, x), x + phi) == Ahead(m, v, phi)
  {
    assert m.UnitAt(x) && m.SumAt(x, phi);
    RotateTwice(v, m.cos(x), m.sin(x), m.cos(phi), m.sin(phi));
  }

  lemma RotateTwice(v: Dq, c: real, s: real, k: real, n: real)
    requires UnitCircle(c, s)
    ensures Park(InvPark(v, c, s), c * k - s * n, s * k + c * n)
         == Dq(v.d * k + v.q * n, -v.d * n + v.q * k)
  {
  }

  /** Equal cosines and sines measure alike. */
  lemma ParkByTrig(m: Libm, u: AlphaBeta, x: real, y: real)
    requires m.cos(x) == m.cos(y) && m.sin(x) == m.sin(y)
    ensures ParkAt(m, u, x) == ParkAt(m, u, y)
  {
  }

  /** The advanced angle is a whole number of turns from `thetaE + omegaE dt`. */
  lemma AdvancedTrig(m: Libm, thetaE: real, omegaE: real)
    requires m.Lawful()
    ensures m.cos(AdvancedAngle(m, thetaE, omegaE)) == m.cos(thetaE + omegaE * CONTROL_DT)
    ensures m.sin(AdvancedAngle(m, thetaE, omegaE)) == m.sin(thetaE + omegaE * CONTROL_DT)
  {
    var t := thetaE + omegaE * CONTROL_DT;
    assert m.PeriodicAt(t) && m.PeriodicAt(t - m.twoPi);
    m.SameAngle(t - m.twoPi + m.twoPi, t);
    hide m.Lawful;
  }

  /** The electrical angle the controller wraps keeps its trigonometry when advanced by `phi`. */
  lemma ControllerAngle(m: Libm, x: real, omegaE: real, phi: real)
    requires m.Lawful() && phi == omegaE * CONTROL_DT
    ensures var y := AdvancedAngle(m, WrapAngle(x, m.twoPi), omegaE);
            m.cos(y) == m.cos(x + phi) && m.sin(y) == m.sin(x + phi)
  {
    var w := WrapAngle(x, m.twoPi);
    AdvancedTrig(m, w, omegaE);
    m.WrapKeepsTrig(x);
    assert m.SumAt(w, phi) && m.SumAt(x, phi);
  }

  /** Clarke then Park of the simulated phases at the controller's electrical angle is exactly (id, iq). */
  lemma SimCurrentRoundTrip(m: Libm, s: SimState)
    requires m.Lawful()
    ensures ParkAt(m, Clarke(s.Ia(m), s.Ib(m), m.sqrt3), WrapAngle(ElectricalAngle(s), m.twoPi)) == s.i
  {
    var x := ElectricalAngle(s);
    var u := InvParkAt(m, s.i, x);
    ClarkeOfReading(m, s);
    m.WrapKeepsTrig(x);
    ParkByTrig(m, u, WrapAngle(x, m.twoPi), x);
    assert m.UnitAt(x);
    ParkRoundTrip(s.i, u, m.cos(x), m.sin(x));
  }

  /** What a closed-loop step measures is (id, iq) turned back by one control period of rotation. */
  lemma SimCurrentAtAdvancedAngle(m: Libm, c: Ctx, s: SimState)
    requires m.Lawful()
    ensures Measured(m, Sampled(m, c, Reading(m, s))).iDq == Ahead(m, s.i, Turn(s, CONTROL_DT))
  {
    hide *;
    var x, omegaE := ElectricalAngle(s), s.OmegaE();
    var u, phi, y := InvParkAt(m, s.i, x), Turn(s, CONTROL_DT), AdvancedAngle(m, WrapAngle(x, m.twoPi), omegaE);
    TurnIsPeriod(s);
    MeasuredOfReading(m, c, s);
    ClarkeOfReading(m, s);
    ControllerAngle(m, x, omegaE, phi);
    ParkByTrig(m, u, y, x + phi);
    ParkAhead(m, s.i, x, phi);
  }

  lemma TurnIsPeriod(s: SimState)
    ensures Turn(s, CONTROL_DT) == s.OmegaE() * CONTROL_DT
  {
  }

  lemma MeasuredOfReading(m: Libm, c: Ctx, s: SimState)
    ensures Measured(m, Sampled(m, c, Reading(m, s))).iDq
         == ParkAt(m, Clarke(s.Ia(m), s.Ib(m), m.sqrt3),
                   AdvancedAngle(m, WrapAngle(ElectricalAngle(s), m.twoPi), s.OmegaE()))
  {
  }

  /** Seen from any frame the current is as long as the simulated one. */
  lemma AheadKeepsNorm(m: Libm, v: Dq, phi: real)
    requires m.Lawful()
    ensures Norm2(Ahead(m, v, phi)) == Norm2(v)
  {
    assert m.UnitAt(phi);
    ParkKeepsNorm(AlphaBeta(v.d, v.q), m.cos(phi), m.sin(phi));
  }

  /** No simulated phase carries more than the length of the current vector. */
  lemma PhasesWithinVector(m: Libm, s: SimState, bound: real)
    requires m.Lawful() && bound >= 0.0 && Norm2(s.i) <= bound * bound
    ensures Abs(s.Ia(m)) <= bound && Abs(s.Ib(m)) <= bound
  {
    var x := ElectricalAngle(s);
    var u := InvParkAt(m, s.i, x);
    assert m.UnitAt(x);
    RotationKeepsNorm(s.i, m.cos(x), m.sin(x));
    ComponentBound(Dq(u.alpha, u.beta), bound);
    HalfTurnComponent(u, m.sqrt3, bound, s.Ib(m));
  }

  lemma HalfTurnComponent(u: AlphaBeta, r3: Positive, bound: real, ib: real)
    requires r3 * r3 == 3.0 && bound >= 0.0
    requires u.alpha * u.alpha + u.beta * u.beta <= bound * bound
    requires ib == (r3 * u.beta - u.alpha) * 0.5
    ensures Abs(ib) <= bound
  {
    var h := r3 / 2.0;
    assert h * h == 0.75;
    CauchySchwarz(-0.5, h, u.alpha, u.beta);
    assert ib == -0.5 * u.alpha + h * u.beta;
    SquareOrder(ib, bound, ib * ib, bound * bound);
  }
}
