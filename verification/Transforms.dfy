/**
  The coordinate transforms and the space-vector modulator of foc.c.

  They are straight-line formulas, so they are functions.  An angle enters as the
  pair (c, s) of its cosine and sine; `r3` is the constant SQRT3.
 */
module Transforms {
  import opened Numeric

  datatype AlphaBeta = AlphaBeta(alpha: real, beta: real)
  datatype Dq = Dq(d: real, q: real)

  /** One value per phase: voltages, currents or duty cycles. */
  datatype Abc = Abc(a: real, b: real, c: real) {
    function Highest(): (r: real)
      ensures r >= a && r >= b && r >= c && (r == a || r == b || r == c)
    {
      if a > b then (if a > c then a else c) else (if b > c then b else c)
    }

    function Lowest(): (r: real)
      ensures r <= a && r <= b && r <= c && (r == a || r == b || r == c)
    {
      if a < b then (if a < c then a else c) else (if b < c then b else c)
    }

    function Spread(): real {
      Highest() - Lowest()
    }

    function Shift(offset: real): Abc {
      Abc(a + offset, b + offset, c + offset)
    }

    function Dot(o: Abc): real {
      a * o.a + b * o.b + c * o.c
    }

    predicate InUnit() {
      0.0 <= a <= 1.0 && 0.0 <= b <= 1.0 && 0.0 <= c <= 1.0
    }
  }

  /** 50% on every leg: zero voltage across the motor. */
  const NEUTRAL := Abc(0.5, 0.5, 0.5)

  predicate UnitCircle(c: real, s: real) {
    c * c + s * s == 1.0
  }

  predicate IsSqrt3(r3: real) {
    r3 * r3 == 3.0
  }

  function Clarke(ia: real, ib: real, r3: real): AlphaBeta
    requires r3 > 0.0
  {
    AlphaBeta(ia, (ia + 2.0 * ib) / r3)
  }

  function Park(v: AlphaBeta, c: real, s: real): Dq {
    Dq(v.alpha * c + v.beta * s, -v.alpha * s + v.beta * c)
  }

  function InvPark(v: Dq, c: real, s: real): AlphaBeta {
    AlphaBeta(v.d * c - v.q * s, v.d * s + v.q * c)
  }

  /** Inverse Clarke: the three reference voltages of a stationary vector. */
  function InvClarke(v: AlphaBeta, r3: real): Abc
    requires r3 > 0.0
  {
    Abc(v.alpha,
        -0.5 * v.alpha + (r3 / 2.0) * v.beta,
        -0.5 * v.alpha - (r3 / 2.0) * v.beta)
  }

  function ZeroSequence(p: Abc): real {
    -0.5 * (p.Highest() + p.Lowest())
  }

  /** A phase voltage as a duty cycle, before the final clamp. */
  function RawDuty(v: real, vbus: real): real
    requires vbus > 0.0
  {
    (v + vbus * 0.5) / vbus
  }

  function RawDuties(p: Abc, vbus: real): Abc
    requires vbus > 0.0
  {
    Abc(RawDuty(p.a, vbus), RawDuty(p.b, vbus), RawDuty(p.c, vbus))
  }

  function Clamp01(x: real): (r: real)
    ensures 0.0 <= r <= 1.0
    ensures 0.0 <= x <= 1.0 ==> r == x
    ensures (x >= 1.0 ==> r == 1.0) && (x <= 0.0 ==> r == 0.0)
  {
    if x < 0.0 then 0.0 else if x > 1.0 then 1.0 else x
  }

  function ClampDuties(d: Abc): Abc {
    Abc(Clamp01(d.a), Clamp01(d.b), Clamp01(d.c))
  }

  /** Min-max zero-sequence injection, normalisation and clamp. */
  function Modulate(p: Abc, vbus: real): Abc
    requires vbus > 0.0
  {
    ClampDuties(RawDuties(p.Shift(ZeroSequence(p)), vbus))
  }

  function Svpwm(v: AlphaBeta, vbus: real, r3: real): Abc
    requires vbus > 0.0 && r3 > 0.0
  {
    Modulate(InvClarke(v, r3), vbus)
  }

  /** Squared length of a rotating-frame vector. */
  function Norm2(v: Dq): real {
    v.d * v.d + v.q * v.q
  }

  // ---------------------------------------------------------------- rotations

  /** Park and inverse Park undo each other in both directions. */
  lemma ParkRoundTrip(v: Dq, u: AlphaBeta, c: real, s: real)
    requires UnitCircle(c, s)
    ensures Park(InvPark(v, c, s), c, s) == v
    ensures InvPark(Park(u, c, s), c, s) == u
  {
    assert (v.d * c - v.q * s) * c + (v.d * s + v.q * c) * s == v.d * (c * c + s * s);
    assert -(v.d * c - v.q * s) * s + (v.d * s + v.q * c) * c == v.q * (c * c + s * s);
    assert (u.alpha * c + u.beta * s) * c - (-u.alpha * s + u.beta * c) * s == u.alpha * (c * c + s * s);
    assert (u.alpha * c + u.beta * s) * s + (-u.alpha * s + u.beta * c) * c == u.beta * (c * c + s * s);
  }

  /** Rotating both vectors by one angle keeps their inner product. */
  lemma RotationKeepsDot(i: AlphaBeta, v: Dq, c: real, s: real)
    requires UnitCircle(c, s)
    ensures var w := InvPark(v, c, s);
            w.alpha * i.alpha + w.beta * i.beta == v.d * Park(i, c, s).d + v.q * Park(i, c, s).q
  {
  }

  lemma RotationKeepsNorm(v: Dq, c: real, s: real)
    requires UnitCircle(c, s)
    ensures var w := InvPark(v, c, s); w.alpha * w.alpha + w.beta * w.beta == Norm2(v)
  {
  }

  lemma ParkKeepsNorm(u: AlphaBeta, c: real, s: real)
    requires UnitCircle(c, s)
    ensures Norm2(Park(u, c, s)) == u.alpha * u.alpha + u.beta * u.beta
  {
  }

  /** A component never exceeds the length of its vector. */
  lemma ComponentBound(v: Dq, bound: real)
    requires bound >= 0.0 && Norm2(v) <= bound * bound
    ensures Abs(v.d) <= bound && Abs(v.q) <= bound
  {
    assert v.q * v.q >= 0.0 && v.d * v.d >= 0.0;
    SquareOrder(v.d, bound, v.d * v.d, bound * bound);
    SquareOrder(v.q, bound, v.q * v.q, bound * bound);
  }

  // ---------------------------------------------------- min-max injection

  /** The phase voltages fit the bridge without any clamping. */
  predicate Fits(p: Abc, vbus: real)
    requires vbus > 0.0
  {
    RawDuties(p, vbus).InUnit()
  }

  /** The duties reproduce all three line-to-line voltages. */
  predicate LinesKept(p: Abc, d: Abc, vbus: real)
    requires vbus > 0.0
  {
    && vbus * (d.a - d.b) == p.a - p.b
    && vbus * (d.b - d.c) == p.b - p.c
    && vbus * (d.c - d.a) == p.c - p.a
  }

  lemma RawDutyScaled(v: real, vbus: real)
    requires vbus > 0.0
    ensures vbus * RawDuty(v, vbus) == v + vbus * 0.5
  {
  }

  /** A raw duty is in [0, 1] exactly when the voltage is within half the bus. */
  lemma RawDutyRange(v: real, vbus: real)
    requires vbus > 0.0
    ensures RawDuty(v, vbus) >= 0.0 <==> v >= -0.5 * vbus
    ensures RawDuty(v, vbus) <= 1.0 <==> v <= 0.5 * vbus
  {
    var d := RawDuty(v, vbus);
    RawDutyScaled(v, vbus);
    ScaledSign(d, vbus, vbus * d);
    ScaledSign(1.0 - d, vbus, vbus - vbus * d);
  }

  lemma ScaledSign(x: real, k: real, p: real)
    requires k > 0.0 && p == x * k
    ensures x >= 0.0 <==> p >= 0.0
  {
  }

  lemma FitsIsHalfBus(p: Abc, vbus: real)
    requires vbus > 0.0
    ensures Fits(p, vbus) <==> p.Lowest() >= -0.5 * vbus && p.Highest() <= 0.5 * vbus
  {
    RawDutyRange(p.a, vbus);
    RawDutyRange(p.b, vbus);
    RawDutyRange(p.c, vbus);
  }

  /** Injection fits the bridge exactly when the spread fits the bus. */
  lemma InjectionFits(p: Abc, vbus: real)
    requires vbus > 0.0
    ensures Fits(p.Shift(ZeroSequence(p)), vbus) <==> p.Spread() <= vbus
  {
    var s := p.Shift(ZeroSequence(p));
    FitsIsHalfBus(s, vbus);
    assert s.Highest() == p.Highest() + ZeroSequence(p);
    assert s.Lowest() == p.Lowest() + ZeroSequence(p);
  }

  /** If any common offset would fit all three phases, the injected one does. */
  lemma InjectionIsOptimal(p: Abc, offset: real, vbus: real)
    requires vbus > 0.0
    requires Fits(p.Shift(offset), vbus)
    ensures Fits(p.Shift(ZeroSequence(p)), vbus)
    ensures LinesKept(p, Modulate(p, vbus), vbus)
  {
    var s := p.Shift(offset);
    FitsIsHalfBus(s, vbus);
    assert s.Highest() == p.Highest() + offset && s.Lowest() == p.Lowest() + offset;
    InjectionFits(p, vbus);
    FittingKeepsLines(p, vbus);
  }

  lemma FittingKeepsLines(p: Abc, vbus: real)
    requires vbus > 0.0
    requires Fits(p.Shift(ZeroSequence(p)), vbus)
    ensures Modulate(p, vbus) == RawDuties(p.Shift(ZeroSequence(p)), vbus)
    ensures LinesKept(p, Modulate(p, vbus), vbus)
  {
    var s := p.Shift(ZeroSequence(p));
    assert Modulate(p, vbus) == RawDuties(s, vbus);
    hide Modulate, RawDuty, ZeroSequence;
    LineScaled(s.a, s.b, vbus);
    LineScaled(s.b, s.c, vbus);
    LineScaled(s.c, s.a, vbus);
  }

  lemma LineScaled(x: real, y: real, vbus: real)
    requires vbus > 0.0
    ensures vbus * (RawDuty(x, vbus) - RawDuty(y, vbus)) == x - y
  {
    RawDutyScaled(x, vbus);
    RawDutyScaled(y, vbus);
    hide RawDuty;
  }

  /** The line-to-line voltages survive exactly when the spread fits the bus. */
  lemma LinesKeptIff(p: Abc, vbus: real)
    requires vbus > 0.0
    ensures LinesKept(p, Modulate(p, vbus), vbus) <==> p.Spread() <= vbus
  {
    InjectionFits(p, vbus);
    if p.Spread() <= vbus {
      FittingKeepsLines(p, vbus);
    } else {
      UnitDutiesLoseLines(p, Modulate(p, vbus), vbus);
    }
  }

  lemma UnitDutiesLoseLines(p: Abc, d: Abc, vbus: real)
    requires vbus > 0.0
    requires d.InUnit() && p.Spread() > vbus
    ensures !LinesKept(p, d, vbus)
  {
    if LinesKept(p, d, vbus) {
      LineWithinBus(d.a, d.b, vbus, p.a - p.b);
      LineWithinBus(d.b, d.c, vbus, p.b - p.c);
      LineWithinBus(d.c, d.a, vbus, p.c - p.a);
      SpreadOfLines(p, vbus);
    }
  }

  lemma LineWithinBus(x: real, y: real, vbus: real, line: real)
    requires vbus > 0.0
    requires 0.0 <= x <= 1.0 && 0.0 <= y <= 1.0 && line == vbus * (x - y)
    ensures Abs(line) <= vbus
  {
    ScaledSign(1.0 - (x - y), vbus, vbus - line);
    ScaledSign(1.0 + (x - y), vbus, vbus + line);
  }

  /** The pulse pattern is centred for every input, clamped or not. */
  lemma DutiesAreCentred(p: Abc, vbus: real)
    requires vbus > 0.0
    ensures Modulate(p, vbus).Highest() + Modulate(p, vbus).Lowest() == 1.0
  {
    var s := p.Shift(ZeroSequence(p));
    var raw := RawDuties(s, vbus);
    var hi, lo := s.Highest(), s.Lowest();
    assert hi == -lo;
    RawDutyOrder(s.a, hi, vbus); RawDutyOrder(lo, s.a, vbus);
    RawDutyOrder(s.b, hi, vbus); RawDutyOrder(lo, s.b, vbus);
    RawDutyOrder(s.c, hi, vbus); RawDutyOrder(lo, s.c, vbus);
    assert raw.Highest() == RawDuty(hi, vbus) && raw.Lowest() == RawDuty(lo, vbus);
    RawDutyScaled(hi, vbus);
    RawDutyScaled(lo, vbus);
    SumFromScaled(RawDuty(hi, vbus), RawDuty(lo, vbus), vbus, vbus * RawDuty(hi, vbus), vbus * RawDuty(lo, vbus));
  }

  lemma RawDutyOrder(v: real, w: real, vbus: real)
    requires vbus > 0.0
    requires v <= w
    ensures RawDuty(v, vbus) <= RawDuty(w, vbus)
  {
  }

  lemma SumFromScaled(x: real, y: real, k: real, kx: real, ky: real)
    requires k > 0.0 && kx == k * x && ky == k * y && kx + ky == k
    ensures x + y == 1.0
  {
  }

  // ------------------------------------------- linear modulation and power

  /** The stationary vector the bridge applies across a star-connected motor:
      Clarke of the leg voltages measured from their mean, the star point. */
  function AppliedVector(d: Abc, vbus: real, r3: real): AlphaBeta
    requires vbus > 0.0 && r3 > 0.0
  {
    var mean := (d.a + d.b + d.c) / 3.0;
    Clarke(vbus * (d.a - mean), vbus * (d.b - mean), r3)
  }

  /** (p, q) . (a, b) is at most the product of the lengths. */
  lemma CauchySchwarz(p: real, q: real, a: real, b: real)
    ensures (p * a + q * b) * (p * a + q * b) <= (p * p + q * q) * (a * a + b * b)
  {
  }

  /** A projection with squared weight 3 of a vector no longer than `lim` stays within the bus. */
  lemma LineBound(p: real, q: real, v: AlphaBeta, lim: real, vbus: real, r3: real, line: real)
    requires vbus > 0.0 && r3 > 0.0
    requires IsSqrt3(r3) && p * p + q * q == 3.0
    requires lim >= 0.0 && lim * r3 <= vbus
    requires v.alpha * v.alpha + v.beta * v.beta <= lim * lim
    requires line == p * v.alpha + q * v.beta
    ensures Abs(line) <= vbus
  {
    var len2 := v.alpha * v.alpha + v.beta * v.beta;
    CauchySchwarz(p, q, v.alpha, v.beta);
    var m := lim * r3;
    assert m * m == 3.0 * (lim * lim);
    assert line * line <= 3.0 * len2;
    assert line * line <= m * m;
    SquareOrder(line, m, line * line, m * m);
  }

  /** A vector inside the linear modulation circle spreads the phases by at most the bus. */
  lemma CircleFitsBus(v: AlphaBeta, lim: real, vbus: real, r3: real)
    requires vbus > 0.0 && r3 > 0.0
    requires IsSqrt3(r3) && lim >= 0.0 && lim * r3 <= vbus
    requires v.alpha * v.alpha + v.beta * v.beta <= lim * lim
    ensures InvClarke(v, r3).Spread() <= vbus
  {
    var h := r3 / 2.0;
    CircleLines(v, lim, vbus, r3, 1.5 * v.alpha, h * v.beta, r3 * v.beta);
    var p := InvClarke(v, r3);
    assert p.b - p.c == r3 * v.beta;
    SpreadOfLines(p, vbus);
  }

  lemma CircleLines(v: AlphaBeta, lim: real, vbus: real, r3: real, x: real, y: real, z: real)
    requires vbus > 0.0 && r3 > 0.0
    requires IsSqrt3(r3) && lim >= 0.0 && lim * r3 <= vbus
    requires v.alpha * v.alpha + v.beta * v.beta <= lim * lim
    requires x == 1.5 * v.alpha && y == (r3 / 2.0) * v.beta && z == r3 * v.beta
    ensures Abs(x - y) <= vbus && Abs(x + y) <= vbus && Abs(z) <= vbus
  {
    var h := r3 / 2.0;
    assert h * h == 0.75;
    LineBound(1.5, -h, v, lim, vbus, r3, x - y);
    LineBound(1.5, h, v, lim, vbus, r3, x + y);
    LineBound(0.0, r3, v, lim, vbus, r3, z);
  }

  lemma SpreadOfLines(p: Abc, vbus: real)
    requires vbus > 0.0
    requires Abs(p.a - p.b) <= vbus && Abs(p.a - p.c) <= vbus && Abs(p.b - p.c) <= vbus
    ensures p.Spread() <= vbus
  {
  }

  /** Duties that keep the lines of a commanded vector apply exactly that vector. */
  lemma LinesApplyVector(v: AlphaBeta, d: Abc, vbus: real, r3: real)
    requires vbus > 0.0 && r3 > 0.0
    requires IsSqrt3(r3) && LinesKept(InvClarke(v, r3), d, vbus)
    ensures AppliedVector(d, vbus, r3) == v
  {
  }

  lemma ClarkeOfInverse(v: AlphaBeta, r3: real)
    requires r3 > 0.0
    requires IsSqrt3(r3)
    ensures var p := InvClarke(v, r3); Clarke(p.a, p.b, r3) == v
  {
  }

  /** Two of the three inverse-Clarke currents determine the vector, and conversely. */
  lemma InverseOfClarke(ia: real, ib: real, r3: real)
    requires r3 > 0.0
    requires IsSqrt3(r3)
    ensures InvClarke(Clarke(ia, ib, r3), r3) == Abc(ia, ib, -(ia + ib))
  {
  }

  /** With balanced currents only the line-to-line voltages carry power: the zero sequence cancels. */
  lemma LinePower(p: Abc, d: Abc, ia: real, ib: real, vbus: real)
    requires vbus > 0.0
    requires LinesKept(p, d, vbus)
    ensures vbus * d.Dot(Abc(ia, ib, -(ia + ib))) == p.Dot(Abc(ia, ib, -(ia + ib)))
  {
  }

  /** Three-phase power is 1.5 times the stationary inner product. */
  lemma StationaryPower(v: AlphaBeta, ia: real, ib: real, r3: real)
    requires r3 > 0.0
    requires IsSqrt3(r3)
    ensures var i := Clarke(ia, ib, r3);
            InvClarke(v, r3).Dot(Abc(ia, ib, -(ia + ib))) == 1.5 * (v.alpha * i.alpha + v.beta * i.beta)
  {
  }

  /** Power in the rotating frame equals power at the bridge, through one shared angle. */
  lemma LinesCarryPower(v: Dq, d: Abc, ia: real, ib: real, c: real, s: real, vbus: real, r3: real)
    requires vbus > 0.0 && r3 > 0.0
    requires IsSqrt3(r3) && UnitCircle(c, s)
    requires LinesKept(InvClarke(InvPark(v, c, s), r3), d, vbus)
    ensures var i := Park(Clarke(ia, ib, r3), c, s);
            vbus * d.Dot(Abc(ia, ib, -(ia + ib))) == 1.5 * (v.d * i.d + v.q * i.q)
  {
    var w := InvPark(v, c, s);
    LinePower(InvClarke(w, r3), d, ia, ib, vbus);
    StationaryPower(w, ia, ib, r3);
    RotationKeepsDot(Clarke(ia, ib, r3), v, c, s);
  }

  /** Two measured phases within `limit` bound the whole current vector by twice that. */
  lemma TwoPhasesBoundVector(ia: real, ib: real, limit: real, r3: real)
    requires r3 > 0.0
    requires IsSqrt3(r3) && Abs(ia) <= limit && Abs(ib) <= limit
    ensures var i := Clarke(ia, ib, r3);
            i.alpha * i.alpha + i.beta * i.beta <= (2.0 * limit) * (2.0 * limit)
  {
    var i := Clarke(ia, ib, r3);
    DivideBack(ia + 2.0 * ib, r3, i.beta);
    var w := ia + 2.0 * ib;
    assert 3.0 * (i.beta * i.beta) == w * w by {
      assert (i.beta * r3) * (i.beta * r3) == (i.beta * i.beta) * (r3 * r3);
    }
    var aa, bb, ab, ll := ia * ia, ib * ib, ia * ib, limit * limit;
    SquareOrder(ia, limit, aa, ll);
    SquareOrder(ib, limit, bb, ll);
    assert w * w == aa + 4.0 * ab + 4.0 * bb;
    assert ab <= ll by {
      assert (ia - ib) * (ia - ib) == aa - 2.0 * ab + bb;
    }
    assert (2.0 * limit) * (2.0 * limit) == 4.0 * ll;
  }
}
