/**
  What the motor model computes: the difference equations of a permanent-magnet
  machine with seven pole pairs, and the angle its rotor covers.
 */
module SimulatorLaws {
  import opened Numeric
  import opened Transforms
  import opened Foc
  import opened Simulator

  /** Inductance times the change of each current is the period times the voltage left: what is
      applied, less resistance, with the other axis coupled in at the electrical speed and the flux
      of the magnets against q. */
  lemma ElectricalEquations(s: SimState, dt: real, twoPi: Positive)
    ensures var n, we := s.Step(dt, twoPi), 7.0 * s.omega;
            && s.l * (n.i.d - s.i.d) == dt * (s.v.d - s.r * s.i.d + we * (s.l * s.i.q))
            && s.l * (n.i.q - s.i.q) == dt * (s.v.q - s.r * s.i.q - we * (s.l * s.i.d + s.psi))
  {
    var u := s.InductorVoltage();
    InductorIs(s);
    StepCurrents(s, dt, twoPi);
    hide SimState.Step, SimState.InductorVoltage;
    SlopeGrows(s.i.d, u.d, s.l, dt);
    SlopeGrows(s.i.q, u.q, s.l, dt);
  }

  lemma StepCurrents(s: SimState, dt: real, twoPi: Positive)
    ensures var n, u := s.Step(dt, twoPi), s.InductorVoltage();
            n.i == Dq(Grown(s.i.d, u.d, s.l, dt), Grown(s.i.q, u.q, s.l, dt))
  {
    hide SimState.InductorVoltage, WrapAngle, SimState.OmegaAfter;
  }

  function Grown(x: real, u: real, l: Positive, dt: real): real {
    x + u / l * dt
  }

  lemma SlopeGrows(x: real, u: real, l: Positive, dt: real)
    ensures l * (Grown(x, u, l, dt) - x) == dt * u
  {
    var q := u / l;
    DivideBack(u, l, q);
    assert l * (q * dt) == dt * u;
  }

  lemma InductorIs(s: SimState)
    ensures var we := 7.0 * s.omega;
            && s.InductorVoltage().d == s.v.d - s.r * s.i.d + we * (s.l * s.i.q)
            && s.InductorVoltage().q == s.v.q - s.r * s.i.q - we * (s.l * s.i.d + s.psi)
  {
    assert s.OmegaE() == 7.0 * s.omega;
    hide SimState.OmegaE;
    assert s.OmegaE() * s.l * s.i.q == s.OmegaE() * (s.l * s.i.q);
  }

  /** Inertia times the change of speed is the period times the torque left: of the new q current for
      seven pole pairs, less friction and load. */
  lemma MechanicalEquation(s: SimState, dt: real, twoPi: Positive)
    ensures var n := s.Step(dt, twoPi);
            s.j * (n.omega - s.omega) == dt * (1.5 * 7.0 * s.psi * n.i.q - s.friction * s.omega - s.load)
  {
    var iq := s.CurrentAfter(dt).q;
    var torque := 1.5 * 7.0 * s.psi * iq - s.friction * s.omega - s.load;
    StepSpeed(s, dt, twoPi, torque);
    SlopeGrows(s.omega, torque, s.j, dt);
    hide SimState.CurrentAfter, WrapAngle, SimState.OmegaAfter, Grown;
  }

  lemma StepSpeed(s: SimState, dt: real, twoPi: Positive, torque: real)
    requires torque == 1.5 * 7.0 * s.psi * s.CurrentAfter(dt).q - s.friction * s.omega - s.load
    ensures var n := s.Step(dt, twoPi);
            n.i.q == s.CurrentAfter(dt).q && n.omega == Grown(s.omega, torque, s.j, dt)
  {
    hide SimState.CurrentAfter, WrapAngle;
  }

  /** The rotor turns by the period times the speed after the step, the wrapped angle modulo a turn. */
  lemma AngleEquation(s: SimState, dt: real, twoPi: Positive)
    ensures var n := s.Step(dt, twoPi);
            var angle := s.theta + dt * n.omega;
            && n.thetaUnwrapped == s.thetaUnwrapped + dt * n.omega
            && 0.0 <= n.theta < twoPi
            && n.theta == angle - (angle / twoPi).Floor as real * twoPi
  {
    var n := s.Step(dt, twoPi);
    StepAngles(s, dt, twoPi, dt * n.omega);
    WrapRemovesWholePeriods(s.theta + dt * n.omega, twoPi);
    hide SimState.Step, WrapAngle;
  }

  lemma StepAngles(s: SimState, dt: real, twoPi: Positive, travel: real)
    requires travel == dt * s.Step(dt, twoPi).omega
    ensures var n := s.Step(dt, twoPi);
            n.thetaUnwrapped == s.thetaUnwrapped + travel && n.theta == WrapAngle(s.theta + travel, twoPi)
  {
    hide SimState.CurrentAfter, SimState.OmegaAfter, WrapAngle;
    assert Travel(s.Step(dt, twoPi).omega, dt) == travel;
    hide Travel;
  }

  /** The sum of the speeds after each step of a run. */
  function SpeedSum(s: SimState, xs: seq<Drives>, dt: real, twoPi: Positive): real {
    if xs == [] then 0.0
    else SpeedSum(s, xs[..|xs| - 1], dt, twoPi) + RunSim(s, xs, dt, twoPi).omega
  }

  /** The angle covered at one speed in one period. */
  function Covered(dt: real, omega: real): real {
    dt * omega
  }

  /** Over every run the unwrapped angle is the start plus the period times the sum of the speeds. */
  lemma AngleIsIntegratedSpeed(s: SimState, xs: seq<Drives>, dt: real, twoPi: Positive)
    ensures RunSim(s, xs, dt, twoPi).thetaUnwrapped == s.thetaUnwrapped + dt * SpeedSum(s, xs, dt, twoPi)
  {
    AngleIsCovered(s, xs, dt, twoPi);
    hide RunSim, SpeedSum;
  }

  lemma {:induction false} AngleIsCovered(s: SimState, xs: seq<Drives>, dt: real, twoPi: Positive)
    ensures RunSim(s, xs, dt, twoPi).thetaUnwrapped == s.thetaUnwrapped + Covered(dt, SpeedSum(s, xs, dt, twoPi))
  {
    CoveredAdds(dt, 0.0, 0.0);
    hide Covered, SimState.Step;
    if xs != [] {
      var last := |xs| - 1;
      AngleIsCovered(s, xs[..last], dt, twoPi);
      var d := RunSim(s, xs[..last], dt, twoPi);
      AngleStep(Driven(d, xs[last]), dt, twoPi);
      DriveIsSeen(d, xs[last]);
      hide Driven;
      CoveredAdds(dt, SpeedSum(s, xs[..last], dt, twoPi), Driven(d, xs[last]).Step(dt, twoPi).omega);
    }
  }

  lemma CoveredAdds(dt: real, x: real, y: real)
    ensures Covered(dt, x + y) == Covered(dt, x) + Covered(dt, y) && Covered(dt, 0.0) == 0.0
  {
  }

  lemma AngleStep(s: SimState, dt: real, twoPi: Positive)
    ensures var n := s.Step(dt, twoPi); n.thetaUnwrapped == s.thetaUnwrapped + Covered(dt, n.omega)
  {
    AngleEquation(s, dt, twoPi);
    hide SimState.Step;
  }

  /** What a drive hands over is what the step after it sees: the voltages and the load torque. */
  lemma DriveIsSeen(s: SimState, x: Drives)
    ensures Driven(s, x).v == x.v && Driven(s, x).load == x.load
    ensures Driven(s, x).i == s.i && Driven(s, x).omega == s.omega
    ensures Driven(s, x).theta == s.theta && Driven(s, x).thetaUnwrapped == s.thetaUnwrapped
  {
  }

  /** A reset brings the rotor to rest at angle zero without current or voltage; parameters and load stay. */
  lemma ResetIsRest(s: SimState)
    ensures var n := s.Reset();
            && n.i == Dq(0.0, 0.0) && n.v == Dq(0.0, 0.0) && n.omega == 0.0 && n.theta == 0.0 && n.thetaUnwrapped == 0.0
            && n.r == s.r && n.l == s.l && n.psi == s.psi && n.j == s.j && n.friction == s.friction && n.load == s.load
  {
  }

  /** The default machine: electrical time constant 2 ms, mechanical 2 s, at rest without load. */
  lemma DefaultTimeConstants()
    ensures INITIAL.l == 0.002 * INITIAL.r && INITIAL.j == 2.0 * INITIAL.friction
    ensures INITIAL.r == 0.5 && INITIAL.psi == 0.02 && INITIAL.j == 0.01 && INITIAL.load == 0.0
    ensures INITIAL == INITIAL.Reset()
  {
  }

  // ------------------------------------------------ against the controller

  /** Wrapping leaves a whole number of turns. */
  lemma WrappedApart(m: Libm, x: real) returns (k: int)
    ensures WrapAngle(x, m.twoPi) == m.Turned(x, k)
  {
    WrapRemovesWholePeriods(x, m.twoPi);
    k := -(x / m.twoPi).Floor;
    Distribute(0.0, (x / m.twoPi).Floor as real, m.twoPi);
  }

  lemma AdvancedApart(m: Libm, thetaE: real, omegaE: real, phi: real) returns (k: int)
    requires phi == omegaE * CONTROL_DT
    ensures AdvancedAngle(m, thetaE, omegaE) == m.Turned(thetaE + phi, k)
  {
    var t := thetaE + phi;
    k := if t >= m.twoPi then -1 else if t < 0.0 then 1 else 0;
    assert m.Turned(t, -1) == t - m.twoPi && m.Turned(t, 1) == t + m.twoPi && m.Turned(t, 0) == t;
    hide m.Turned;
  }

  /** At constant speed the rotor arrives, up to whole turns, at the electrical angle that the controller
      advanced to on the tick before. */
  lemma RotorArrivesAtAdvancedAngle(m: Libm, s: SimState)
    requires s.Step(CONTROL_DT, m.twoPi).omega == s.omega
    ensures TurnsApart(m, AdvancedAngle(m, WrapAngle(7.0 * s.theta, m.twoPi), 7.0 * s.omega),
                       7.0 * s.Step(CONTROL_DT, m.twoPi).theta)
  {
    hide *;
    var n := s.Step(CONTROL_DT, m.twoPi);
    var turns := SteadyTurns(m, s);
    var w := WrapAngle(7.0 * s.theta, m.twoPi);
    var j := WrappedApart(m, 7.0 * s.theta);
    var phi := 7.0 * s.omega * CONTROL_DT;
    var k := AdvancedApart(m, w, 7.0 * s.omega, phi);
    var a := AdvancedAngle(m, w, 7.0 * s.omega);
    SevenTurns(m, s.theta, s.omega, n.theta, phi, w, a, turns, j, k);
    Apart(m, a, 7.0 * n.theta, -7 * turns - j - k);
  }

  lemma SteadyTurns(m: Libm, s: SimState) returns (turns: int)
    requires s.Step(CONTROL_DT, m.twoPi).omega == s.omega
    ensures s.Step(CONTROL_DT, m.twoPi).theta == s.theta + CONTROL_DT * s.omega - turns as real * m.twoPi
  {
    AngleEquation(s, CONTROL_DT, m.twoPi);
    turns := ((s.theta + CONTROL_DT * s.omega) / m.twoPi).Floor;
    hide SimState.Step;
  }

  lemma Apart(m: Libm, x: real, y: real, k: int)
    requires y == m.Turned(x, k)
    ensures TurnsApart(m, x, y)
  {
  }

  lemma SevenTurns(m: Libm, theta: real, omega: real, next: real, phi: real, w: real, a: real,
                   turns: int, j: int, k: int)
    requires next == theta + CONTROL_DT * omega - turns as real * m.twoPi
    requires phi == 7.0 * omega * CONTROL_DT
    requires w == m.Turned(7.0 * theta, j) && a == m.Turned(w + phi, k)
    ensures 7.0 * next == m.Turned(a, -7 * turns - j - k)
  {
    var x, y, z, t := turns as real, j as real, k as real, m.twoPi;
    assert (-7 * turns - j - k) as real == -7.0 * x - y - z;
    var xt, yt, zt := x * t, y * t, z * t;
    assert (-7.0 * x - y - z) * t == -7.0 * xt - yt - zt;
  }
}
