/**
  An envelope the simulated machine cannot leave, electrically or mechanically,
  whatever voltages the bus can produce are applied to it.

  The back-EMF takes from the windings exactly what the torque gives to the
  shaft, because sim_step computes the torque from the current after the step.
  In the stored energy the two cancel, so what remains is resistance and friction
  against the bus.
 */
module MachineEnvelope {
  import opened Numeric
  import opened Transforms
  import opened Foc
  import opened Simulator

  /** Bounds on the simulated current, speed and load torque, a contraction factor of the current,
      and the share of it set against the bus voltage. */
  datatype Envelope = Envelope(current: real, omega: real, torque: real, rho: real, slack: real) {
    predicate Proper() {
      0.0 <= current && 0.0 <= omega && 0.0 <= torque && 0.0 <= rho && 0.0 < slack
    }

    function TurnBound(): real {
      omega * POLE_PAIRS * CONTROL_DT
    }

    /** Longest drive vector: the full bus voltage plus the back-EMF at top speed. */
    function Push(full: real, psi: real): real {
      full + omega * POLE_PAIRS * Abs(psi)
    }

    /** Largest torque on the shaft. */
    function Pull(s: SimState): real {
      MotorPull(s.psi, current) + FrictionTorque(s.friction, omega) + torque
    }
  }

  function FrictionTorque(friction: real, omega: real): real {
    friction * omega
  }

  /** The largest motor torque of a current. */
  function MotorPull(psi: real, current: real): real {
    1.5 * POLE_PAIRS * Abs(psi) * current
  }

  // ---------------------------------------------------------------- energy

  function Magnetic(l: real, i: Dq): real {
    1.5 * l * Norm2(i)
  }

  function Kinetic(j: real, omega: real): real {
    j * (omega * omega)
  }

  /** Twice the stored energy, with the three-phase factor of the transforms. */
  function Energy(s: SimState): real {
    Magnetic(s.l, s.i) + Kinetic(s.j, s.omega)
  }

  /** The share of its momentum that the shaft loses to friction in one period. */
  function Grip(s: SimState): real {
    s.friction * (CONTROL_DT / s.j)
  }

  function Gripped(s: SimState, x: real): real {
    Grip(s) * x
  }

  /** The current after one period without back-EMF, and what the back-EMF takes from it. */
  function Unbraked(s: SimState): Dq {
    Add(Rotated(s.i, Decay(s, CONTROL_DT), Turn(s, CONTROL_DT)), Scale(s.v, CONTROL_DT / s.l))
  }

  function Braking(s: SimState): real {
    (CONTROL_DT / s.l) * (s.OmegaE() * s.psi)
  }

  /** The torque that turns the shaft: from the current, less friction and load. */
  function NetTorque(s: SimState, iq: real): real {
    MotorTorque(s.psi, iq) - Resisting(s)
  }

  function MotorTorque(psi: real, iq: real): real {
    1.5 * POLE_PAIRS * psi * iq
  }

  function Resisting(s: SimState): real {
    FrictionTorque(s.friction, s.omega) + s.load
  }

  /** The work of a torque on the shaft in one period, at the speed before it. */
  function Work(omega: real, torque: real): real {
    CONTROL_DT * omega * torque
  }

  /** What the speed change within the period adds to that work. */
  function Remainder(j: Positive, torque: real): real {
    CONTROL_DT * (CONTROL_DT / j) * (torque * torque)
  }

  function Accelerated(j: Positive, omega: real, torque: real): real {
    omega + (CONTROL_DT / j) * torque
  }

  /** What the back-EMF takes from the windings when they end the period at `iq`. */
  function Taken(s: SimState, iq: real): real {
    1.5 * s.l * Braking(s) * iq
  }

  lemma CurrentIsBraked(s: SimState)
    ensures s.CurrentAfter(CONTROL_DT) == Dq(Unbraked(s).d, Unbraked(s).q - Braking(s))
  {
    StepIsRotation(s, CONTROL_DT);
    var k := CONTROL_DT / s.l;
    hide Rotated, Decay, Turn, SimState.CurrentAfter, SimState.OmegaE;
    Distribute(s.v.q, s.OmegaE() * s.psi, k);
  }

  lemma OmegaMoves(s: SimState, iq: real)
    ensures s.OmegaAfter(iq, CONTROL_DT) == Accelerated(s.j, s.omega, NetTorque(s, iq))
  {
    var n, g := NetTorque(s, iq), CONTROL_DT / s.j;
    SlopeTimes(n, s.j, CONTROL_DT, g);
  }

  /** In one period the back-EMF takes as much from the windings as the motor torque gives to the shaft. */
  lemma PowerMatches(s: SimState, iq: real)
    ensures Work(s.omega, MotorTorque(s.psi, iq)) == Taken(s, iq)
  {
    var k := CONTROL_DT / s.l;
    DivideBack(CONTROL_DT, s.l, k);
    var x := s.omega * s.psi;
    assert s.l * (k * (7.0 * x)) == CONTROL_DT * (7.0 * x);
    assert s.l * Braking(s) == CONTROL_DT * (7.0 * x);
  }

  lemma WorkAdds(omega: real, x: real, y: real)
    ensures Work(omega, x - y) == Work(omega, x) - Work(omega, y)
  {
  }

  /** A torque changes the kinetic energy by its work and the remainder. */
  lemma KineticAfter(j: Positive, omega: real, torque: real)
    ensures Kinetic(j, Accelerated(j, omega, torque))
         == Kinetic(j, omega) + 2.0 * Work(omega, torque) + Remainder(j, torque)
  {
    var g := CONTROL_DT / j;
    DivideBack(CONTROL_DT, j, g);
    var x := g * torque;
    assert (omega + x) * (omega + x) == omega * omega + 2.0 * omega * x + x * x;
    var jx := j * x;
    assert jx == CONTROL_DT * torque;
    assert j * (omega * x) == omega * jx;
    assert j * (x * x) == jx * x;
  }

  lemma MagneticAfter(s: SimState, z: Dq)
    ensures var iq := z.q - Braking(s);
            Magnetic(s.l, Dq(z.d, iq)) == Magnetic(s.l, z) - Lost(s) - 2.0 * Taken(s, iq)
  {
    var c, h := 1.5 * s.l, Braking(s);
    var q := z.q - h;
    hide Braking;
    assert q * q == z.q * z.q - 2.0 * (h * z.q) + h * h;
    assert h * q == h * z.q - h * h;
    MagneticTerms(c, z.d * z.d, z.q * z.q, h * z.q, h * h, q * q, h * q);
  }

  lemma MagneticTerms(c: real, dd: real, qq: real, hz: real, hh: real, nn: real, hn: real)
    requires nn == qq - 2.0 * hz + hh && hn == hz - hh
    ensures c * (dd + nn) == c * (dd + qq) - c * hh - 2.0 * (c * hn)
  {
  }

  /** What braking alone costs: the energy of the current it takes away. */
  function Lost(s: SimState): real {
    1.5 * s.l * (Braking(s) * Braking(s))
  }

  /** What one period adds to the kinetic energy besides the work of the motor torque. */
  function Friction(s: SimState, iq: real): real {
    Remainder(s.j, NetTorque(s, iq)) - 2.0 * Work(s.omega, Resisting(s))
  }

  lemma KineticBalance(s: SimState, iq: real)
    ensures Kinetic(s.j, s.OmegaAfter(iq, CONTROL_DT))
         == Kinetic(s.j, s.omega) + 2.0 * Taken(s, iq) + Friction(s, iq)
  {
    OmegaMoves(s, iq);
    KineticAfter(s.j, s.omega, NetTorque(s, iq));
    PowerMatches(s, iq);
    WorkAdds(s.omega, MotorTorque(s.psi, iq), Resisting(s));
    hide Kinetic, Taken, Work, Remainder, MotorTorque, Resisting, SimState.OmegaAfter, Accelerated;
  }

  /** The energy after one period: the exchange between windings and shaft cancels. */
  lemma EnergyBalance(s: SimState, twoPi: Positive)
    ensures var n := s.Step(CONTROL_DT, twoPi);
            Energy(n) == Magnetic(s.l, Unbraked(s)) - Lost(s) + Kinetic(s.j, s.omega) + Friction(s, n.i.q)
  {
    hide *;
    var n := s.Step(CONTROL_DT, twoPi);
    EnergyOfStep(s, twoPi);
    CurrentIsBraked(s);
    MagneticAfter(s, Unbraked(s));
    KineticBalance(s, n.i.q);
  }

  lemma EnergyOfStep(s: SimState, twoPi: Positive)
    ensures var n := s.Step(CONTROL_DT, twoPi);
            && n.i == s.CurrentAfter(CONTROL_DT) && n.omega == s.OmegaAfter(n.i.q, CONTROL_DT)
            && Energy(n) == Magnetic(s.l, s.CurrentAfter(CONTROL_DT))
                            + Kinetic(s.j, s.OmegaAfter(s.CurrentAfter(CONTROL_DT).q, CONTROL_DT))
  {
    hide SimState.CurrentAfter, SimState.OmegaAfter, Magnetic, Kinetic, WrapAngle;
  }

  // -------------------------------------------------------------- envelope

  /** In its envelope: current, stored energy and load. */
  predicate Contained(s: SimState, e: Envelope) {
    && Norm2(s.i) <= e.current * e.current && Energy(s) <= Kinetic(s.j, e.omega)
    && Abs(s.load) <= e.torque
  }

  /** What the bus voltage adds to the current in one period, squared and weighted against the slack. */
  function Driving(s: SimState, e: Envelope, full: real): real
    requires e.slack != 0.0
  {
    (1.0 + 1.0 / e.slack) * (Shove(s, full) * Shove(s, full))
  }

  /** The current that the full bus voltage adds in one period. */
  function Shove(s: SimState, full: real): real {
    (CONTROL_DT / s.l) * full
  }

  /** The most energy that bus, load and the remainder of the Euler step add in one period. */
  function Gain(s: SimState, e: Envelope, full: real): real
    requires e.slack != 0.0
  {
    1.5 * s.l * Driving(s, e, full) + 2.0 * Work(e.omega, e.torque) + Remainder(s.j, e.Pull(s))
  }

  /** The parameters of the machine absorb what bus and load can do in one period: the contraction
      of the current leaves room for the drive, and at full energy friction and resistance take
      at least what is gained. */
  predicate Sustains(s: SimState, e: Envelope, full: real) {
    && e.Proper() && 0.0 <= s.friction
    && Decay(s, CONTROL_DT) * Decay(s, CONTROL_DT) + e.TurnBound() * e.TurnBound() <= e.rho * e.rho
    && e.rho * e.current + (CONTROL_DT / s.l) * e.Push(full, s.psi) <= e.current
    && (1.0 + e.slack) * (e.rho * e.rho) <= 1.0 - 2.0 * Grip(s)
    && Gain(s, e, full) <= 2.0 * Gripped(s, Kinetic(s.j, e.omega))
  }

  lemma SpeedWithin(s: SimState, e: Envelope)
    requires Contained(s, e) && e.omega >= 0.0
    ensures Abs(s.omega) <= e.omega
  {
    MagneticPositive(s.l, s.i);
    hide Norm2, Magnetic;
    SpeedByEnergy(s.j, s.omega, e.omega, s.omega * s.omega, e.omega * e.omega);
  }

  lemma MagneticPositive(l: Positive, i: Dq)
    ensures Magnetic(l, i) >= 0.0
  {
    assert i.d * i.d >= 0.0 && i.q * i.q >= 0.0;
    MulMonotone(0.0, Norm2(i), 1.5 * l);
  }

  lemma SpeedByEnergy(j: Positive, x: real, y: real, xx: real, yy: real)
    requires xx == x * x && yy == y * y && j * xx <= j * yy && y >= 0.0
    ensures Abs(x) <= y
  {
    ScaledSign(yy - xx, j, j * yy - j * xx);
    SquareOrder(x, y, xx, yy);
  }

  lemma EmfWithin(w: real, psi: real, cap: real, emf: real, most: real)
    requires Abs(w) <= cap && emf == w * psi && most == cap * Abs(psi)
    ensures 0.0 <= most && Norm2(Dq(0.0, -emf)) <= most * most
  {
    AbsProduct(w, psi, cap, Abs(psi));
    SquareOrder(emf, most, emf * emf, most * most);
  }

  lemma DriveWithin(s: SimState, e: Envelope, full: real)
    requires Abs(s.omega) <= e.omega && 0.0 <= full && Norm2(s.v) <= full * full
    ensures var u := e.Push(full, s.psi); 0.0 <= u && Norm2(Drive(s)) <= u * u
  {
    var emf, most := s.OmegaE() * s.psi, e.omega * POLE_PAIRS * Abs(s.psi);
    hide Norm2;
    EmfWithin(s.OmegaE(), s.psi, e.omega * POLE_PAIRS, emf, most);
    Triangle(s.v, Dq(0.0, -emf), full, most);
    assert Add(s.v, Dq(0.0, -emf)) == Drive(s);
  }

  lemma TurnWithin(s: SimState, e: Envelope)
    requires Abs(s.omega) <= e.omega
    ensures Turn(s, CONTROL_DT) * Turn(s, CONTROL_DT) <= e.TurnBound() * e.TurnBound()
  {
    var t, b := Turn(s, CONTROL_DT), e.TurnBound();
    assert Abs(t) <= b;
    SquareOrder(t, b, t * t, b * b);
  }

  /** Electrical half: the current stays on its disc. */
  lemma CurrentStaysIn(s: SimState, e: Envelope, full: real)
    requires 0.0 <= full && Sustains(s, e, full) && Contained(s, e) && Norm2(s.v) <= full * full
    ensures Norm2(s.CurrentAfter(CONTROL_DT)) <= e.current * e.current
  {
    SpeedWithin(s, e);
    DriveWithin(s, e, full);
    TurnWithin(s, e);
    hide Decay, Turn, Norm2, Drive, SimState.CurrentAfter, Envelope.Push, Envelope.TurnBound;
    hide Gain, Energy, Grip, Kinetic;
    StepKeepsCircle(s, CONTROL_DT, e.rho, e.Push(full, s.psi), e.current);
  }

  // ---------------------------------------------------- energy stays inside

  /** A sum of vectors, weighted: what one gets in length the other pays. */
  lemma Young(y: Dq, q: Dq, w: real, yy: real, qq: real)
    requires w > 0.0 && Norm2(y) <= yy && Norm2(q) <= qq
    ensures Norm2(Add(y, q)) <= (1.0 + w) * yy + (1.0 + 1.0 / w) * qq
  {
    var dot := y.d * q.d + y.q * q.q;
    assert Norm2(Add(y, q)) == Norm2(y) + 2.0 * dot + Norm2(q);
    WeightedDot(y, q, w, Norm2(y), Norm2(q), dot);
    Reciprocal(w);
    hide *;
    WeightedSum(Norm2(y), Norm2(q), dot, w, 1.0 / w, yy, qq);
  }

  lemma WeightedSum(n: real, p: real, dot: real, w: real, r: real, yy: real, qq: real)
    requires w > 0.0 && r > 0.0 && n <= yy && p <= qq && 2.0 * dot <= w * n + r * p
    ensures n + 2.0 * dot + p <= (1.0 + w) * yy + (1.0 + r) * qq
  {
    MulMonotone(n, yy, 1.0 + w);
    MulMonotone(p, qq, 1.0 + r);
    Distribute(1.0, w, n);
    Distribute(1.0, r, p);
  }

  lemma Reciprocal(w: real)
    requires w > 0.0
    ensures 1.0 / w > 0.0 && w * (1.0 / w) == 1.0
  {
  }

  lemma WeightedDot(y: Dq, q: Dq, w: real, n: real, p: real, dot: real)
    requires w > 0.0 && n == Norm2(y) && p == Norm2(q) && dot == y.d * q.d + y.q * q.q
    ensures 2.0 * dot <= w * n + (1.0 / w) * p
  {
    var r := 1.0 / w;
    Reciprocal(w);
    var d := w * n - 2.0 * dot + r * p;
    SquaresScaled(y, q, w, w * w * n - 2.0 * (w * dot) + p);
    assert w * d == w * w * n - 2.0 * (w * dot) + (w * r) * p;
    ScaledSign(d, w, w * d);
  }

  lemma SquaresScaled(y: Dq, q: Dq, w: real, x: real)
    requires x == w * w * Norm2(y) - 2.0 * (w * (y.d * q.d + y.q * q.q)) + Norm2(q)
    ensures x >= 0.0
  {
    var a, b := w * y.d - q.d, w * y.q - q.q;
    assert a * a + b * b == x;
    assert a * a >= 0.0 && b * b >= 0.0;
  }

  /** The current without back-EMF: contracted, and driven by the bus. */
  lemma UnbrakedWithin(s: SimState, e: Envelope, full: real, share: real)
    requires e.Proper() && Abs(s.omega) <= e.omega && Norm2(s.v) <= full * full
    requires Decay(s, CONTROL_DT) * Decay(s, CONTROL_DT) + e.TurnBound() * e.TurnBound() <= e.rho * e.rho
    requires (1.0 + e.slack) * (e.rho * e.rho) <= share
    ensures Norm2(Unbraked(s)) <= share * Norm2(s.i) + Driving(s, e, full)
  {
    var yy := e.rho * e.rho * Norm2(s.i);
    RotatedWithin(s, e, yy);
    NormPositive(s.i);
    ShoveWithin(s, full);
    WeighedShare(e.slack, e.rho * e.rho, share, Norm2(s.i), yy);
    hide *;
    YoungTerms(s, e, full, yy);
  }

  lemma RotatedWithin(s: SimState, e: Envelope, most: real)
    requires Abs(s.omega) <= e.omega && most == e.rho * e.rho * Norm2(s.i)
    requires Decay(s, CONTROL_DT) * Decay(s, CONTROL_DT) + e.TurnBound() * e.TurnBound() <= e.rho * e.rho
    ensures Norm2(Rotated(s.i, Decay(s, CONTROL_DT), Turn(s, CONTROL_DT))) <= most
  {
    var a, t := Decay(s, CONTROL_DT), Turn(s, CONTROL_DT);
    TurnWithin(s, e);
    RotatedNorm(s.i, a, t);
    NormPositive(s.i);
    hide *;
    ScaledWithin(a * a + t * t, e.rho * e.rho, Norm2(s.i), Norm2(Rotated(s.i, a, t)), most);
  }

  lemma ScaledWithin(x: real, y: real, n: real, xn: real, yn: real)
    requires x <= y && 0.0 <= n && xn == x * n && yn == y * n
    ensures xn <= yn
  {
    MulMonotone(x, y, n);
  }

  lemma ShoveWithin(s: SimState, full: real)
    requires Norm2(s.v) <= full * full
    ensures Norm2(Scale(s.v, CONTROL_DT / s.l)) <= Shove(s, full) * Shove(s, full)
  {
    hide Norm2, Scale;
    PushedNorm(s.v, CONTROL_DT / s.l, full, Shove(s, full));
  }

  lemma NormPositive(i: Dq)
    ensures Norm2(i) >= 0.0
  {
    assert i.d * i.d >= 0.0 && i.q * i.q >= 0.0;
  }

  function Weighted(slack: real, x: real): real {
    (1.0 + slack) * x
  }

  lemma WeighedShare(slack: real, r: real, share: real, n: real, rn: real)
    requires (1.0 + slack) * r <= share && n >= 0.0 && rn == r * n
    ensures Weighted(slack, rn) <= share * n
  {
    MulMonotone((1.0 + slack) * r, share, n);
  }

  lemma YoungTerms(s: SimState, e: Envelope, full: real, yy: real)
    requires e.Proper()
    requires Norm2(Rotated(s.i, Decay(s, CONTROL_DT), Turn(s, CONTROL_DT))) <= yy
    requires Norm2(Scale(s.v, CONTROL_DT / s.l)) <= Shove(s, full) * Shove(s, full)
    ensures Norm2(Unbraked(s)) <= Weighted(e.slack, yy) + Driving(s, e, full)
  {
    hide Norm2, Rotated, Scale, Add, Decay, Turn, Shove;
    Young(Rotated(s.i, Decay(s, CONTROL_DT), Turn(s, CONTROL_DT)), Scale(s.v, CONTROL_DT / s.l), e.slack,
          yy, Shove(s, full) * Shove(s, full));
  }

  /** The share of the stored energy that a period leaves. */
  function Left(s: SimState, x: real): real {
    (1.0 - 2.0 * Grip(s)) * x
  }

  lemma LeftAdds(s: SimState, x: real, y: real)
    ensures Left(s, x) + Left(s, y) == Left(s, x + y)
    ensures Left(s, x) == x - 2.0 * Gripped(s, x)
  {
    Distribute(x, y, 1.0 - 2.0 * Grip(s));
    Distribute(1.0, 2.0 * Grip(s), x);
    hide Grip;
  }

  lemma LeftMonotone(s: SimState, x: real, y: real)
    requires x <= y && 0.0 <= 1.0 - 2.0 * Grip(s)
    ensures Left(s, x) <= Left(s, y)
  {
    MulMonotone(x, y, 1.0 - 2.0 * Grip(s));
  }

  lemma MagneticWithin(s: SimState, e: Envelope, full: real)
    requires Sustains(s, e, full) && Abs(s.omega) <= e.omega && Norm2(s.v) <= full * full
    ensures Magnetic(s.l, Unbraked(s)) <= Left(s, Magnetic(s.l, s.i)) + 1.5 * s.l * Driving(s, e, full)
  {
    hide Gain, Unbraked, Norm2, Envelope.Push, Kinetic, Grip, Driving, Decay, Envelope.TurnBound;
    var share := 1.0 - 2.0 * Grip(s);
    UnbrakedWithin(s, e, full, share);
    MagneticScaled(s.l, Norm2(Unbraked(s)), share, Norm2(s.i), Driving(s, e, full), share * Norm2(s.i));
  }

  lemma MagneticScaled(l: Positive, n: real, share: real, i: real, d: real, part: real)
    requires n <= part + d && part == share * i
    ensures 1.5 * l * n <= share * (1.5 * l * i) + 1.5 * l * d
  {
    MulMonotone(n, part + d, 1.5 * l);
    var c := 1.5 * l;
    Distribute(part, d, c);
    assert c * part == share * (c * i);
  }

  /** Friction takes its share of the kinetic energy; load and remainder add at most their bounds. */
  lemma KineticWithin(s: SimState, e: Envelope, iq: real)
    requires e.Proper() && 0.0 <= s.friction
    requires Abs(s.omega) <= e.omega && Abs(s.load) <= e.torque && Abs(iq) <= e.current
    ensures Kinetic(s.j, s.omega) + Friction(s, iq)
         <= Left(s, Kinetic(s.j, s.omega)) + 2.0 * Work(e.omega, e.torque) + Remainder(s.j, e.Pull(s))
  {
    hide *;
    ResistingWorks(s);
    LoadWorks(s.omega, s.load, e.omega, e.torque);
    NetTorqueWithin(s, e, iq);
    RemainderMonotone(s.j, NetTorque(s, iq), e.Pull(s));
    LeftAdds(s, Kinetic(s.j, s.omega), 0.0);
    FrictionIs(s, iq);
  }

  lemma FrictionIs(s: SimState, iq: real)
    ensures Friction(s, iq) == Remainder(s.j, NetTorque(s, iq)) - 2.0 * Work(s.omega, Resisting(s))
  {
  }

  lemma ResistingWorks(s: SimState)
    ensures Work(s.omega, Resisting(s)) == Gripped(s, Kinetic(s.j, s.omega)) + Work(s.omega, s.load)
  {
    var g, w := CONTROL_DT / s.j, s.omega * s.omega;
    DivideBack(CONTROL_DT, s.j, g);
    assert s.friction * g * (s.j * w) == s.friction * (CONTROL_DT * w);
    Distribute(s.friction * s.omega, s.load, CONTROL_DT * s.omega);
  }

  lemma LoadWorks(omega: real, load: real, most: real, torque: real)
    requires Abs(omega) <= most && Abs(load) <= torque
    ensures -Work(omega, load) <= Work(most, torque)
  {
    AbsProduct(omega, load, most, torque);
    assert Work(omega, load) == CONTROL_DT * (omega * load);
  }

  lemma NetTorqueWithin(s: SimState, e: Envelope, iq: real)
    requires e.Proper() && 0.0 <= s.friction
    requires Abs(s.omega) <= e.omega && Abs(s.load) <= e.torque && Abs(iq) <= e.current
    ensures Abs(NetTorque(s, iq)) <= e.Pull(s)
  {
    MotorTorqueWithin(s.psi, iq, e.current);
    FrictionTorqueWithin(s.friction, s.omega, e.omega);
    hide MotorTorque, MotorPull, FrictionTorque, Abs;
    ThreeTorques(MotorTorque(s.psi, iq), FrictionTorque(s.friction, s.omega), s.load,
                 MotorPull(s.psi, e.current), FrictionTorque(s.friction, e.omega), e.torque);
  }

  lemma MotorTorqueWithin(psi: real, iq: real, current: real)
    requires Abs(iq) <= current
    ensures Abs(MotorTorque(psi, iq)) <= MotorPull(psi, current)
  {
    var k := 1.5 * POLE_PAIRS * psi;
    assert Abs(k) == 1.5 * POLE_PAIRS * Abs(psi);
    hide Abs;
    AbsProduct(k, iq, Abs(k), current);
  }

  lemma FrictionTorqueWithin(f: real, w: real, most: real)
    requires 0.0 <= f && Abs(w) <= most
    ensures Abs(FrictionTorque(f, w)) <= FrictionTorque(f, most)
  {
    AbsProduct(f, w, f, most);
  }

  lemma ThreeTorques(x: real, y: real, z: real, a: real, b: real, c: real)
    requires Abs(x) <= a && Abs(y) <= b && Abs(z) <= c
    ensures Abs(x - (y + z)) <= a + b + c
  {
  }

  lemma RemainderMonotone(j: Positive, x: real, y: real)
    requires Abs(x) <= y
    ensures Remainder(j, x) <= Remainder(j, y)
  {
    SquareOrder(x, y, x * x, y * y);
    assert CONTROL_DT * (CONTROL_DT / j) > 0.0;
    MulMonotone(x * x, y * y, CONTROL_DT * (CONTROL_DT / j));
  }

  /** Mechanical and electrical energy together stay below that of the top speed. */
  lemma EnergyStaysIn(s: SimState, e: Envelope, full: real, twoPi: Positive)
    requires 0.0 <= full && Sustains(s, e, full) && Contained(s, e) && Norm2(s.v) <= full * full
    ensures Energy(s.Step(CONTROL_DT, twoPi)) <= Kinetic(s.j, e.omega)
  {
    hide *;
    var n := s.Step(CONTROL_DT, twoPi);
    EnvelopeFacts(s, e, full);
    SpeedWithin(s, e);
    EnergyBalance(s, twoPi);
    CurrentStaysIn(s, e, full);
    EnergyOfStep(s, twoPi);
    QWithin(n.i, e);
    LostPositive(s);
    MagneticWithin(s, e, full);
    KineticWithin(s, e, n.i.q);
    LeftAdds(s, Magnetic(s.l, s.i), Kinetic(s.j, s.omega));
    LeftMonotone(s, Magnetic(s.l, s.i) + Kinetic(s.j, s.omega), Kinetic(s.j, e.omega));
    LeftAdds(s, Kinetic(s.j, e.omega), 0.0);
  }

  lemma LostPositive(s: SimState)
    ensures Lost(s) >= 0.0
  {
    var b := Braking(s);
    hide Braking;
    assert b * b >= 0.0;
    MulMonotone(0.0, b * b, 1.5 * s.l);
  }

  lemma EnvelopeFacts(s: SimState, e: Envelope, full: real)
    requires Sustains(s, e, full) && Contained(s, e)
    ensures e.Proper() && 0.0 <= e.current && 0.0 <= e.omega && 0.0 <= s.friction && 0.0 <= 1.0 - 2.0 * Grip(s)
    ensures Magnetic(s.l, s.i) + Kinetic(s.j, s.omega) <= Kinetic(s.j, e.omega)
    ensures Abs(s.load) <= e.torque
    ensures 1.5 * s.l * Driving(s, e, full) + 2.0 * Work(e.omega, e.torque) + Remainder(s.j, e.Pull(s))
         <= 2.0 * Gripped(s, Kinetic(s.j, e.omega))
  {
    hide Magnetic, Kinetic, Driving, Work, Remainder, Envelope.Pull, Envelope.Push, Grip, Decay, Norm2;
    assert e.rho * e.rho >= 0.0;
    MulMonotone(0.0, e.rho * e.rho, 1.0 + e.slack);
  }

  lemma QWithin(i: Dq, e: Envelope)
    requires e.current >= 0.0 && Norm2(i) <= e.current * e.current
    ensures Abs(i.q) <= e.current
  {
    ComponentBound(i, e.current);
  }

  // ------------------------------------------------------------- one period

  /** Whether an envelope is sustained depends on the parameters of the machine alone. */
  lemma SustainsIsStatic(s: SimState, n: SimState, e: Envelope, full: real)
    requires Sustains(s, e, full)
    requires n.r == s.r && n.l == s.l && n.psi == s.psi && n.j == s.j && n.friction == s.friction
    ensures Sustains(n, e, full)
  {
    assert Decay(n, CONTROL_DT) == Decay(s, CONTROL_DT);
    assert Gain(n, e, full) == Gain(s, e, full);
    assert Grip(n) == Grip(s);
    hide Decay, Gain, Grip, Envelope.Push, Envelope.TurnBound, Kinetic;
  }

  /** One period under any voltage the bus can produce keeps the machine in its envelope. */
  lemma StepStaysIn(m: Libm, s: SimState, e: Envelope, full: real)
    requires 0.0 <= full && Sustains(s, e, full) && Contained(s, e) && Norm2(s.v) <= full * full
    ensures var n := s.Step(CONTROL_DT, m.twoPi); Contained(n, e) && Sustains(n, e, full)
  {
    var n := s.Step(CONTROL_DT, m.twoPi);
    CurrentStaysIn(s, e, full);
    EnergyStaysIn(s, e, full, m.twoPi);
    hide Sustains, SimState.CurrentAfter, SimState.OmegaAfter, WrapAngle, Travel, Energy, Kinetic, Norm2;
    SustainsIsStatic(s, n, e, full);
  }

  lemma DrivingGrows(s: SimState, e: Envelope, full: real, most: real)
    requires 0.0 <= full <= most && e.slack > 0.0
    ensures Driving(s, e, full) <= Driving(s, e, most)
  {
    var k := CONTROL_DT / s.l;
    assert k > 0.0;
    ScaledSquares(k, full, most, Shove(s, full), Shove(s, most));
    Reciprocal(e.slack);
    MulMonotone(Shove(s, full) * Shove(s, full), Shove(s, most) * Shove(s, most), 1.0 + 1.0 / e.slack);
  }

  lemma ScaledSquares(k: real, x: real, y: real, kx: real, ky: real)
    requires 0.0 < k && 0.0 <= x <= y && kx == k * x && ky == k * y
    ensures kx * kx <= ky * ky
  {
    MulMonotone(0.0, x, k);
    MulMonotone(x, y, k);
    SquareMonotone(kx, ky, kx * kx);
  }

  /** The simulated motor as initialised, on a 10 V bus and loads up to 0.1 N m: 45 A and 100 rad/s. */
  const TEN_VOLT_ENVELOPE := Envelope(45.0, 100.0, 0.1, 0.911, 0.2045)

  lemma DefaultMachine(full: real)
    requires 0.0 <= full <= 5.774
    ensures Sustains(INITIAL, TEN_VOLT_ENVELOPE, full)
  {
    DrivingGrows(INITIAL, TEN_VOLT_ENVELOPE, full, 5.774);
    assert Gain(INITIAL, TEN_VOLT_ENVELOPE, 5.774) <= 2.0 * Gripped(INITIAL, Kinetic(INITIAL.j, 100.0));
    hide Driving;
  }

  /** On a 2 V bus and loads up to 0.02 N m it stays within the trip level. */
  const TWO_VOLT_ENVELOPE := Envelope(8.0, 18.0, 0.02, 0.9004, 0.2331)

  lemma DefaultMachineGently(full: real)
    requires 0.0 <= full <= 1.2
    ensures Sustains(INITIAL, TWO_VOLT_ENVELOPE, full)
  {
    DrivingGrows(INITIAL, TWO_VOLT_ENVELOPE, full, 1.2);
    assert Gain(INITIAL, TWO_VOLT_ENVELOPE, 1.2) <= 2.0 * Gripped(INITIAL, Kinetic(INITIAL.j, 18.0));
    hide Driving;
  }
}
