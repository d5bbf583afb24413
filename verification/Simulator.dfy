/**
  The motor model of sim.c: a forward-Euler d-q machine with a wrapped and an
  unwrapped mechanical angle.
 */
module Simulator {
  import opened Numeric
  import opened Transforms
  import opened Foc

  /** The angle covered in one step, at the speed after it. */
  function Travel(omega: real, dt: real): real {
    omega * dt
  }

  /** Parameters, load, electrical and mechanical state, and the voltages last applied. */
  datatype SimState = SimState(
    r: real, l: Positive, psi: real, j: Positive, friction: real, load: real,
    i: Dq, omega: real, theta: real, thetaUnwrapped: real, v: Dq)
  {
    function OmegaE(): real {
      omega * POLE_PAIRS
    }

    /** Voltage left across the inductance on each axis. */
    function InductorVoltage(): Dq {
      Dq(v.d - r * i.d + OmegaE() * l * i.q,
         v.q - r * i.q - OmegaE() * (l * i.d + psi))
    }

    /** Electrical derivatives. */
    function CurrentSlope(): Dq {
      Dq(InductorVoltage().d / l, InductorVoltage().q / l)
    }

    function CurrentAfter(dt: real): Dq {
      Dq(i.d + CurrentSlope().d * dt, i.q + CurrentSlope().q * dt)
    }

    /** Mechanical speed after a step that left the q current at `iq`. */
    function OmegaAfter(iq: real, dt: real): real {
      var torque := 1.5 * POLE_PAIRS * psi * iq;
      omega + (torque - friction * omega - load) / j * dt
    }

    function Step(dt: real, twoPi: Positive): SimState {
      var i' := CurrentAfter(dt);
      var omega' := OmegaAfter(i'.q, dt);
      this.(i := i', omega := omega',
            theta := WrapAngle(theta + Travel(omega', dt), twoPi),
            thetaUnwrapped := thetaUnwrapped + Travel(omega', dt))
    }

    function Reset(): SimState {
      this.(i := Dq(0.0, 0.0), omega := 0.0, theta := 0.0, thetaUnwrapped := 0.0, v := Dq(0.0, 0.0))
    }

    function WithVoltages(v: Dq): SimState {
      this.(v := v)
    }

    function WithLoad(load: real): SimState {
      this.(load := load)
    }

    /** Phase currents: inverse Park at the mechanical angle times the pole pairs, inverse Clarke. */
    function Ia(m: Libm): real {
      InvParkAt(m, i, theta * POLE_PAIRS).alpha
    }

    function Ib(m: Libm): real {
      var w := InvParkAt(m, i, theta * POLE_PAIRS);
      (m.sqrt3 * w.beta - w.alpha) * 0.5
    }
  }

  const INITIAL := SimState(0.5, 0.001, 0.02, 0.01, 0.005, 0.0,
                            Dq(0.0, 0.0), 0.0, 0.0, 0.0, Dq(0.0, 0.0))

  class Simulator {
    var r: real
    var l: Positive
    var psi: real
    var j: Positive
    var friction: real
    var load: real
    var i: Dq
    var omega: real
    var theta: real
    var thetaUnwrapped: real
    var v: Dq

    function Value(): SimState
      reads this
    {
      SimState(r, l, psi, j, friction, load, i, omega, theta, thetaUnwrapped, v)
    }

    constructor ()
      ensures Value() == INITIAL
    {
      r, l, psi, j, friction, load := 0.5, 0.001, 0.02, 0.01, 0.005, 0.0;
      i, omega, theta, thetaUnwrapped, v := Dq(0.0, 0.0), 0.0, 0.0, 0.0, Dq(0.0, 0.0);
    }

    method Reset()
      modifies this`i, this`omega, this`theta, this`thetaUnwrapped, this`v
      ensures Value() == old(Value()).Reset()
    {
      i := Dq(0.0, 0.0);
      omega, theta, thetaUnwrapped := 0.0, 0.0, 0.0;
      v := Dq(0.0, 0.0);
    }

    method SetVoltages(v: Dq)
      modifies this`v
      ensures Value() == old(Value()).WithVoltages(v)
    {
      this.v := v;
    }

    method SetLoad(load: real)
      modifies this`load
      ensures Value() == old(Value()).WithLoad(load)
    {
      this.load := load;
    }

    method SetParams(r: real, l: Positive, psi: real, j: Positive, friction: real)
      modifies this`r, this`l, this`psi, this`j, this`friction
      ensures Value() == old(Value()).(r := r, l := l, psi := psi, j := j, friction := friction)
    {
      this.r, this.l, this.psi, this.j, this.friction := r, l, psi, j, friction;
    }

    method Step(dt: real, twoPi: Positive)
      modifies this`i, this`omega, this`theta, this`thetaUnwrapped
      ensures Value() == old(Value()).Step(dt, twoPi)
    {
      hide WrapAngle, Travel, SimState.CurrentAfter, SimState.OmegaAfter;
      ghost var before := Value();
      i := Value().CurrentAfter(dt);
      SpeedIgnoresCurrent(before, i, dt);
      assert Value() == before.(i := i);
      omega := Value().OmegaAfter(i.q, dt);
      AdvanceAngle(Travel(omega, dt), twoPi);
    }

    method AdvanceAngle(dtheta: real, twoPi: Positive)
      modifies this`theta, this`thetaUnwrapped
      ensures theta == WrapAngle(old(theta) + dtheta, twoPi)
      ensures thetaUnwrapped == old(thetaUnwrapped) + dtheta
    {
      hide Fmod;
      theta := theta + dtheta;
      thetaUnwrapped := thetaUnwrapped + dtheta;
      theta := Fmod(theta, twoPi);
      if theta < 0.0 {
        theta := theta + twoPi;
      }
    }
  }

  /** The mechanical update depends on the current only through the new q current. */
  lemma SpeedIgnoresCurrent(s: SimState, i: Dq, dt: real)
    ensures s.(i := i).OmegaAfter(i.q, dt) == s.OmegaAfter(i.q, dt)
  {
  }

  // ---------------------------------------------------- bounded currents

  /** Decay and rotation that one Euler step applies to the current vector. */
  function Decay(s: SimState, dt: real): real {
    1.0 - s.r * (dt / s.l)
  }

  function Turn(s: SimState, dt: real): real {
    s.OmegaE() * dt
  }

  /** The voltage left to drive current once the back-EMF is subtracted. */
  function Drive(s: SimState): Dq {
    Dq(s.v.d, s.v.q - s.OmegaE() * s.psi)
  }

  /** A scaled rotation of the plane. */
  function Rotated(i: Dq, a: real, w: real): Dq {
    Dq(a * i.d + w * i.q, a * i.q - w * i.d)
  }

  /** The cross-coupling terms make the homogeneous part of a step an exact scaled rotation. */
  lemma StepIsRotation(s: SimState, dt: real)
    ensures s.CurrentAfter(dt) == Add(Rotated(s.i, Decay(s, dt), Turn(s, dt)), Scale(Drive(s), dt / s.l))
  {
    var k := dt / s.l;
    DivideBack(dt, s.l, k);
    EulerTerms(s, dt, k);
    hide SimState.InductorVoltage, Rotated, Decay, Turn, Drive, Scale, Add;
    SlopeTimes(s.InductorVoltage().d, s.l, dt, k);
    SlopeTimes(s.InductorVoltage().q, s.l, dt, k);
  }

  lemma EulerTerms(s: SimState, dt: real, k: real)
    requires k * s.l == dt && k == dt / s.l
    ensures var u, n := s.InductorVoltage(), Add(Rotated(s.i, Decay(s, dt), Turn(s, dt)), Scale(Drive(s), k));
            s.i.d + u.d * k == n.d && s.i.q + u.q * k == n.q
  {
    var we := s.OmegaE();
    hide SimState.OmegaE;
    Expand(s.v.d, s.r, s.i.d, we, s.l, s.i.q, k, dt);
    ExpandEmf(s.v.q, s.r, s.i.q, we, s.l, s.i.d, s.psi, k, dt);
  }

  lemma SlopeTimes(x: real, l: Positive, dt: real, k: real)
    requires k == dt / l
    ensures x / l * dt == x * k
  {
  }

  lemma Expand(v: real, r: real, x: real, w: real, l: real, y: real, k: real, dt: real)
    requires k * l == dt
    ensures x + (v - r * x + w * l * y) * k == (1.0 - r * k) * x + (w * dt) * y + v * k
  {
  }

  lemma ExpandEmf(v: real, r: real, x: real, w: real, l: real, y: real, psi: real, k: real, dt: real)
    requires k * l == dt
    ensures x + (v - r * x - w * (l * y + psi)) * k == (1.0 - r * k) * x - (w * dt) * y + (v - w * psi) * k
  {
  }

  lemma RotatedNorm(i: Dq, a: real, w: real)
    ensures Norm2(Rotated(i, a, w)) == (a * a + w * w) * Norm2(i)
  {
  }

  /** The triangle inequality, on squared lengths. */
  lemma Triangle(u: Dq, v: Dq, a: real, b: real)
    requires a >= 0.0 && b >= 0.0 && Norm2(u) <= a * a && Norm2(v) <= b * b
    ensures Norm2(Add(u, v)) <= (a + b) * (a + b)
  {
    var dot, ab := u.d * v.d + u.q * v.q, a * b;
    DotBound(u, v, a, b, dot);
    assert Norm2(Add(u, v)) == Norm2(u) + 2.0 * dot + Norm2(v);
    assert (a + b) * (a + b) == a * a + 2.0 * ab + b * b;
  }

  lemma DotBound(u: Dq, v: Dq, a: real, b: real, dot: real)
    requires a >= 0.0 && b >= 0.0 && Norm2(u) <= a * a && Norm2(v) <= b * b
    requires dot == u.d * v.d + u.q * v.q
    ensures dot <= a * b
  {
    CauchySchwarz(u.d, u.q, v.d, v.q);
    var uu, vv, aa, bb := Norm2(u), Norm2(v), a * a, b * b;
    assert vv >= 0.0;
    MulMonotone(uu, aa, vv);
    MulMonotone(vv, bb, aa);
    var ab := a * b;
    assert ab * ab == aa * bb;
    SquareOrder(dot, ab, dot * dot, ab * ab);
  }

  /** The step contracts by `rho` and the drive is at most `u`. */
  predicate Contracts(s: SimState, dt: real, rho: real) {
    Decay(s, dt) * Decay(s, dt) + Turn(s, dt) * Turn(s, dt) <= rho * rho
  }

  /** One step keeps every circle large enough to absorb the drive. */
  lemma StepKeepsCircle(s: SimState, dt: real, rho: real, u: real, bound: real)
    requires dt > 0.0 && 0.0 <= rho && 0.0 <= u && 0.0 <= bound
    requires Contracts(s, dt, rho) && Norm2(Drive(s)) <= u * u
    requires rho * bound + (dt / s.l) * u <= bound
    requires Norm2(s.i) <= bound * bound
    ensures Norm2(s.CurrentAfter(dt)) <= bound * bound
  {
    var k := dt / s.l;
    StepIsRotation(s, dt);
    var a, w := Decay(s, dt), Turn(s, dt);
    var turned, pushed := Rotated(s.i, a, w), Scale(Drive(s), k);
    RotatedNorm(s.i, a, w);
    var x, y := rho * bound, k * u;
    ShrunkNorm(a * a + w * w, Norm2(s.i), rho, bound, Norm2(turned), x);
    PushedNorm(Drive(s), k, u, y);
    hide *;
    Positives(rho, bound, dt, s.l, u, x, y);
    Triangle(turned, pushed, x, y);
    SquareMonotone(x + y, bound, Norm2(Add(turned, pushed)));
  }

  lemma Positives(rho: real, bound: real, dt: real, l: Positive, u: real, x: real, y: real)
    requires 0.0 <= rho && 0.0 <= bound && dt > 0.0 && 0.0 <= u
    requires x == rho * bound && y == (dt / l) * u
    ensures x >= 0.0 && y >= 0.0
  {
  }

  lemma SquareMonotone(x: real, y: real, n: real)
    requires 0.0 <= x <= y && n <= x * x
    ensures n <= y * y
  {
  }

  lemma ShrunkNorm(factor: real, n: real, rho: real, bound: real, r: real, x: real)
    requires factor <= rho * rho && 0.0 <= n <= bound * bound && r == factor * n && x == rho * bound
    ensures r <= x * x
  {
    var q, b := rho * rho, bound * bound;
    MulMonotone(factor, q, n);
    MulMonotone(n, b, q);
    assert x * x == q * b;
  }

  lemma PushedNorm(v: Dq, k: real, u: real, y: real)
    requires Norm2(v) <= u * u && y == k * u
    ensures Norm2(Scale(v, k)) <= y * y
  {
  }

  // ------------------------------------------------------------- whole runs

  /** One drive of the model: the voltages handed over and the load torque at that moment. */
  datatype Drives = Drives(v: Dq, load: real)

  function Driven(s: SimState, x: Drives): SimState {
    s.WithLoad(x.load).WithVoltages(x.v)
  }

  function RunSim(s: SimState, xs: seq<Drives>, dt: real, twoPi: Positive): SimState {
    if xs == [] then s
    else Driven(RunSim(s, xs[..|xs| - 1], dt, twoPi), xs[|xs| - 1]).Step(dt, twoPi)
  }

  /** Every step of the run contracts by `rho` under a drive of at most `u`. */
  predicate Tame(s: SimState, xs: seq<Drives>, dt: real, twoPi: Positive, rho: real, u: real) {
    forall k :: 0 <= k < |xs| ==>
      var d := Driven(RunSim(s, xs[..k], dt, twoPi), xs[k]);
      Contracts(d, dt, rho) && Norm2(Drive(d)) <= u * u
  }

  /** A circle that absorbs one drive holds the current over every run. */
  lemma {:induction false} RunKeepsCircle(s: SimState, xs: seq<Drives>, dt: real, twoPi: Positive,
                                          rho: real, u: real, bound: real)
    requires dt > 0.0 && 0.0 <= rho && 0.0 <= u && 0.0 <= bound
    requires Tame(s, xs, dt, twoPi, rho, u)
    requires rho * bound + (dt / s.l) * u <= bound
    requires Norm2(s.i) <= bound * bound
    ensures var n := RunSim(s, xs, dt, twoPi); Norm2(n.i) <= bound * bound && n.l == s.l
  {
    if xs != [] {
      hide Tame, RunSim, SimState.CurrentAfter, Contracts, Drive, Driven, Norm2;
      var last := |xs| - 1;
      TameParts(s, xs, dt, twoPi, rho, u);
      RunKeepsCircle(s, xs[..last], dt, twoPi, rho, u, bound);
      StepKeepsCircle(Driven(RunSim(s, xs[..last], dt, twoPi), xs[last]), dt, rho, u, bound);
    }
  }

  lemma TameParts(s: SimState, xs: seq<Drives>, dt: real, twoPi: Positive, rho: real, u: real)
    requires xs != [] && Tame(s, xs, dt, twoPi, rho, u)
    ensures var last := |xs| - 1;
            var n := RunSim(s, xs[..last], dt, twoPi);
            var d := Driven(n, xs[last]);
            && Tame(s, xs[..last], dt, twoPi, rho, u) && Contracts(d, dt, rho) && Norm2(Drive(d)) <= u * u
            && RunSim(s, xs, dt, twoPi).i == d.CurrentAfter(dt) && RunSim(s, xs, dt, twoPi).l == d.l
            && d.i == n.i && d.l == n.l
  {
    hide Contracts, Drive, SimState.CurrentAfter, SimState.OmegaAfter, WrapAngle, Travel, Norm2;
    var ys := xs[..|xs| - 1];
    forall k | 0 <= k < |ys|
      ensures ys[..k] == xs[..k]
    {
    }
  }

  /** The level the current cannot leave: where it starts, or where the drive settles it. */
  function SettledBound(initial: real, push: real, rho: real): real
    requires rho < 1.0
  {
    Max(initial, push / (1.0 - rho))
  }

  lemma BoundAbsorbs(initial: real, push: real, rho: real)
    requires rho < 1.0 && 0.0 <= initial
    ensures var bound := SettledBound(initial, push, rho);
            initial <= bound && rho * bound + push <= bound
  {
    var bound, settled := SettledBound(initial, push, rho), push / (1.0 - rho);
    DivideBack(push, 1.0 - rho, settled);
    MulMonotone(settled, bound, 1.0 - rho);
    var x := rho * bound;
    assert bound * (1.0 - rho) == bound - x;
  }

  /** Bounded voltage gives bounded current: the larger of the initial current and (dt/L) U / (1 - rho). */
  lemma CurrentIsBounded(s: SimState, xs: seq<Drives>, dt: real, twoPi: Positive, rho: real, u: real, initial: real)
    requires dt > 0.0 && 0.0 <= rho < 1.0 && 0.0 <= u && 0.0 <= initial
    requires Tame(s, xs, dt, twoPi, rho, u) && Norm2(s.i) <= initial * initial
    ensures var bound := SettledBound(initial, (dt / s.l) * u, rho);
            Norm2(RunSim(s, xs, dt, twoPi).i) <= bound * bound
  {
    hide *;
    var bound := SettledBound(initial, (dt / s.l) * u, rho);
    BoundAbsorbs(initial, (dt / s.l) * u, rho);
    SquareMonotone(initial, bound, Norm2(s.i));
    RunKeepsCircle(s, xs, dt, twoPi, rho, u, bound);
  }

  // ----------------------------------------------------- angle and transforms

  /** Two angles a whole number of turns apart. */
  ghost predicate TurnsApart(m: Libm, x: real, y: real) {
    exists k: int :: y == m.Turned(x, k)
  }

  /** The wrapped angle is in range and congruent to the unwrapped one. */
  ghost predicate AnglesAgree(m: Libm, s: SimState) {
    0.0 <= s.theta < m.twoPi && TurnsApart(m, s.theta, s.thetaUnwrapped)
  }

  lemma StepKeepsAngles(m: Libm, s: SimState, dt: real)
    requires AnglesAgree(m, s)
    ensures AnglesAgree(m, s.Step(dt, m.twoPi))
  {
    hide Travel, SimState.CurrentAfter, SimState.OmegaAfter;
    var n := s.Step(dt, m.twoPi);
    var k: int :| s.thetaUnwrapped == m.Turned(s.theta, k);
    var travel := Travel(n.omega, dt);
    WrapRemovesWholePeriods(s.theta + travel, m.twoPi);
    var turns := ((s.theta + travel) / m.twoPi).Floor;
    TurnsAdd(m, n.theta, s.theta, travel, k, turns);
    assert n.thetaUnwrapped == m.Turned(n.theta, k + turns);
  }

  lemma TurnsAdd(m: Libm, next: real, theta: real, travel: real, k: int, turns: int)
    requires next == theta + travel - turns as real * m.twoPi
    ensures m.Turned(theta, k) + travel == m.Turned(next, k + turns)
  {
  }

  /** On every run from reset the wrapped and the unwrapped angle agree modulo one turn. */
  lemma {:induction false} AnglesAgreeOnRuns(m: Libm, s: SimState, xs: seq<Drives>, dt: real)
    requires AnglesAgree(m, s)
    ensures AnglesAgree(m, RunSim(s, xs, dt, m.twoPi))
  {
    if xs != [] {
      var last := |xs| - 1;
      AnglesAgreeOnRuns(m, s, xs[..last], dt);
      StepKeepsAngles(m, Driven(RunSim(s, xs[..last], dt, m.twoPi), xs[last]), dt);
    }
  }

  /** Reset puts both angles at zero. */
  lemma ResetAgrees(m: Libm, s: SimState)
    ensures AnglesAgree(m, s.Reset())
  {
    assert s.Reset().thetaUnwrapped == m.Turned(0.0, 0);
  }
}
