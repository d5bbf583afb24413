/**
  The encoder of motor.c: one rolling-over counter read three ways, as a multi-turn
  position, as an angle within one turn and as a sliding-window velocity.

  Position counts are kept in an int32.  C leaves its overflow undefined; the model
  wraps in two's complement, and the theorems say where no wrap happens.
 */
module Encoder {
  import opened Numeric

  const CPR4 := 4096
  const QDEC_PERIOD := 61440
  const POLARITY := -1
  const WINDOW := 40
  const OMEGA_FOC_HZ := 5000

  predicate IsRaw(r: int) {
    0 <= r < QDEC_PERIOD
  }

  /** The rollover correction, applied to every difference of two raw readings. */
  function Rollover(d: int): int {
    var e := if d > QDEC_PERIOD / 2 then d - QDEC_PERIOD else d;
    if e < -(QDEC_PERIOD / 2) then e + QDEC_PERIOD else e
  }

  /** The C remainder: the quotient truncates, so the sign is that of `a`. */
  function CRem(a: int, b: int): int
    requires b > 0
  {
    if a >= 0 then a % b else -((-a) % b)
  }

  function Wrap32(x: int): int {
    (x + 0x8000_0000) % 0x1_0000_0000 - 0x8000_0000
  }

  predicate Int32(x: int) {
    -0x8000_0000 <= x < 0x8000_0000
  }

  /** Position within the turn, in [0, CPR4), from the movement since the offset. */
  function TurnCounts(raw: int, offset: int): int {
    var delta := Rollover(raw - offset) * POLARITY;
    CRem(CRem(delta, CPR4) + CPR4, CPR4)
  }

  function ThetaOf(counts: int, twoPi: real): real {
    counts as real * twoPi / CPR4 as real
  }

  function OmegaOf(delta: int, twoPi: real): real {
    delta as real * (twoPi / CPR4 as real) * (OMEGA_FOC_HZ as real / WINDOW as real)
  }

  // ---------------------------------------------------- the readings so far

  /** `h[0]` is the reading at reset and `h[k]` the k-th reading since. */
  predicate Readings(h: seq<int>) {
    h != [] && forall k :: 0 <= k < |h| ==> IsRaw(h[k])
  }

  /** Multi-turn counts accumulated over the readings, before any int32 wrap. */
  function Counts(h: seq<int>): int {
    if |h| <= 1 then 0
    else Counts(h[..|h| - 1]) + POLARITY * Rollover(h[|h| - 1] - h[|h| - 2])
  }

  /** The reading `WINDOW` reads before the last one; the reset reading before that many exist. */
  function Oldest(h: seq<int>): int
    requires h != []
  {
    if |h| > WINDOW then h[|h| - 1 - WINDOW] else h[0]
  }

  function WindowDelta(h: seq<int>): int
    requires h != []
  {
    Rollover(h[|h| - 1] - Oldest(h)) * POLARITY
  }

  class Encoder {
    const twoPi: real
    var encOffset: int
    var encPosCounts: int
    var encLastRaw: int
    const omegaHist: array<int>
    var omegaHistIdx: int
    var omegaHold: real
    ghost var readings: seq<int>

    /** The ring holds the last WINDOW readings; slots not yet written hold the reset reading. */
    ghost predicate RingOk()
      reads this, omegaHist
    {
      var k := |readings| - 1;
      && omegaHist.Length == WINDOW && readings != []
      && omegaHistIdx == k % WINDOW
      && (forall n :: 1 <= n <= k && k - WINDOW < n ==> omegaHist[(n - 1) % WINDOW] == readings[n])
      && (forall s :: k <= s < WINDOW ==> omegaHist[s] == readings[0])
    }

    ghost predicate Valid()
      reads this, omegaHist
    {
      && Readings(readings) && RingOk()
      && encOffset == readings[0]
      && encLastRaw == readings[|readings| - 1]
      && encPosCounts == Wrap32(Counts(readings))
    }

    constructor (twoPi: real, raw: int)
      requires IsRaw(raw)
      ensures Valid() && fresh(this) && fresh(omegaHist)
      ensures readings == [raw] && this.twoPi == twoPi
    {
      this.twoPi := twoPi;
      omegaHist := new int[WINDOW];
      new;
      Reset(raw);
    }

    /** motor_reset_encoder: `raw` is the counter at the call. */
    method Reset(raw: int)
      requires IsRaw(raw) && omegaHist.Length == WINDOW
      modifies this, omegaHist
      ensures Valid() && readings == [raw]
      ensures encPosCounts == 0 && omegaHold == 0.0
    {
      encOffset := raw;
      encLastRaw := encOffset;
      encPosCounts := 0;
      var i := 0;
      while i < WINDOW
        invariant 0 <= i <= WINDOW
        invariant forall s :: 0 <= s < i ==> omegaHist[s] == encOffset
        modifies omegaHist
      {
        omegaHist[i] := encOffset;
        i := i + 1;
      }
      omegaHistIdx := 0;
      omegaHold := 0.0;
      readings := [raw];
    }

    /** motor_read_encoder: angle, velocity and position from one new counter value. */
    method Read(raw: int) returns (theta: real, omega: real, pos: real)
      requires Valid() && IsRaw(raw)
      modifies this, omegaHist
      ensures Valid() && readings == old(readings) + [raw]
      ensures theta == ThetaOf(TurnCounts(raw, readings[0]), twoPi)
      ensures omega == OmegaOf(WindowDelta(readings), twoPi) && omegaHold == omega
      ensures pos == ThetaOf(Wrap32(Counts(readings)), twoPi)
    {
      hide ThetaOf, OmegaOf, Wrap32, Counts, CRem;
      ghost var h := readings + [raw];
      var turn := TurnOf(raw);
      Accumulate(raw);
      pos := ThetaOf(encPosCounts, twoPi);
      theta := ThetaOf(turn, twoPi);
      var delta := Slide(raw);
      omegaHold := OmegaOf(delta, twoPi);
      omega := omegaHold;
      readings := h;
    }

    /** Position within the turn from the movement since the offset. */
    method TurnOf(raw: int) returns (turn: int)
      ensures turn == TurnCounts(raw, encOffset)
    {
      var posDelta := raw - encOffset;
      if posDelta > QDEC_PERIOD / 2 { posDelta := posDelta - QDEC_PERIOD; }
      if posDelta < -(QDEC_PERIOD / 2) { posDelta := posDelta + QDEC_PERIOD; }
      posDelta := posDelta * POLARITY;
      turn := CRem(CRem(posDelta, CPR4) + CPR4, CPR4);
    }

    /** The per-read delta, accumulated into the multi-turn counter. */
    method Accumulate(raw: int)
      requires Valid() && IsRaw(raw)
      modifies this`encPosCounts, this`encLastRaw
      ensures encPosCounts == Wrap32(Counts(readings + [raw])) && encLastRaw == raw
    {
      var tickDelta := raw - encLastRaw;
      if tickDelta > QDEC_PERIOD / 2 { tickDelta := tickDelta - QDEC_PERIOD; }
      if tickDelta < -(QDEC_PERIOD / 2) { tickDelta := tickDelta + QDEC_PERIOD; }
      tickDelta := tickDelta * POLARITY;
      CountsSnoc(readings, raw);
      WrapAdds(Counts(readings), tickDelta);
      encPosCounts := Wrap32(encPosCounts + tickDelta);
      encLastRaw := raw;
    }

    /** Replaces the oldest slot of the ring by the new reading; returns the corrected window delta. */
    method Slide(raw: int) returns (delta: int)
      requires RingOk()
      modifies this`omegaHistIdx, omegaHist
      ensures delta == WindowDelta(readings + [raw])
      ensures var k := |readings|;
              && omegaHistIdx == k % WINDOW
              && (forall n :: 1 <= n <= k && k - WINDOW < n ==> omegaHist[(n - 1) % WINDOW] == (readings + [raw])[n])
              && (forall s :: k <= s < WINDOW ==> omegaHist[s] == readings[0])
    {
      var oldest := omegaHist[omegaHistIdx];
      ghost var k := |readings|;
      assert oldest == Oldest(readings + [raw]) by {
        if k >= WINDOW + 1 {
          assert (k - WINDOW - 1) % WINDOW == (k - 1) % WINDOW;
        }
      }
      omegaHist[omegaHistIdx] := raw;
      omegaHistIdx := (omegaHistIdx + 1) % WINDOW;
      delta := raw - oldest;
      if delta > QDEC_PERIOD / 2 { delta := delta - QDEC_PERIOD; }
      if delta < -(QDEC_PERIOD / 2) { delta := delta + QDEC_PERIOD; }
      delta := delta * POLARITY;
    }
  }

  lemma CountsSnoc(h: seq<int>, raw: int)
    requires h != []
    ensures Counts(h + [raw]) == Counts(h) + POLARITY * Rollover(raw - h[|h| - 1])
  {
  }

  lemma WrapAdds(x: int, d: int)
    ensures Wrap32(Wrap32(x) + d) == Wrap32(x + d)
  {
  }

  // ---------------------------------------------------------- one difference

  /** A correction is congruent to its argument and at most half a period long. */
  lemma RolloverReduces(d: int)
    requires -QDEC_PERIOD < d < QDEC_PERIOD
    ensures -(QDEC_PERIOD / 2) <= Rollover(d) <= QDEC_PERIOD / 2
    ensures (Rollover(d) - d) % QDEC_PERIOD == 0
  {
  }

  /** A corrected difference is the true motion exactly when the motion is under half a
      period, or exactly half of it in the direction the raw difference shows. */
  lemma RolloverExactIff(p: int, q: int)
    ensures Rollover(q % QDEC_PERIOD - p % QDEC_PERIOD) == q - p <==>
            || -(QDEC_PERIOD / 2) < q - p < QDEC_PERIOD / 2
            || ((q - p == QDEC_PERIOD / 2 || q - p == -(QDEC_PERIOD / 2))
                && q % QDEC_PERIOD - p % QDEC_PERIOD == q - p)
  {
  }

  lemma CongruentWithinHalf(x: int, y: int)
    requires -(QDEC_PERIOD / 2) <= x <= QDEC_PERIOD / 2
    ensures (x - y) % QDEC_PERIOD == 0 && -(QDEC_PERIOD / 2) < y < QDEC_PERIOD / 2 ==> x == y
  {
  }

  // ---------------------------------------------------------- multi-turn counts

  /** True positions of the shaft at each reading, as an unbounded count. */
  predicate Positions(p: seq<int>, h: seq<int>) {
    |p| == |h| && forall k :: 0 <= k < |p| ==> h[k] == p[k] % QDEC_PERIOD
  }

  /** Every movement between two readings is under half a period. */
  predicate Trackable(p: seq<int>) {
    forall k :: 0 <= k < |p| - 1 ==> -(QDEC_PERIOD / 2) < p[k + 1] - p[k] < QDEC_PERIOD / 2
  }

  /** Unwrapping is exact over any number of readings and turns. */
  lemma {:induction false} CountsAreExact(p: seq<int>, h: seq<int>)
    requires Positions(p, h) && Trackable(p) && h != []
    ensures Counts(h) == POLARITY * (p[|p| - 1] - p[0])
  {
    var n := |h| - 1;
    if n > 0 {
      CountsAreExact(p[..n], h[..n]);
      RolloverExactIff(p[n - 1], p[n]);
    }
  }

  /** The int32 counter is the true displacement exactly while that fits an int32. */
  lemma CounterExactIff(p: seq<int>, h: seq<int>)
    requires Positions(p, h) && Trackable(p) && h != []
    ensures var moved := POLARITY * (p[|p| - 1] - p[0]);
            Wrap32(Counts(h)) == moved <==> Int32(moved)
  {
    CountsAreExact(p, h);
  }

  /** Counts never drift from the readings: they agree modulo the period for every sequence, however fast. */
  lemma {:induction false} CountsAreCongruent(h: seq<int>)
    requires Readings(h)
    ensures (Counts(h) - POLARITY * (h[|h| - 1] - h[0])) % QDEC_PERIOD == 0
  {
    var n := |h| - 1;
    if n > 0 {
      CountsAreCongruent(h[..n]);
      RolloverReduces(h[n] - h[n - 1]);
      var before := Counts(h[..n]) - POLARITY * (h[n - 1] - h[0]);
      var now := Counts(h) - POLARITY * (h[n] - h[0]);
      var step := Rollover(h[n] - h[n - 1]) - (h[n] - h[n - 1]);
      assert now == before - step;
      DifferenceDivides(before, step);
    }
  }

  lemma DifferenceDivides(x: int, y: int)
    requires x % QDEC_PERIOD == 0 && y % QDEC_PERIOD == 0
    ensures (x - y) % QDEC_PERIOD == 0
  {
  }

  // ------------------------------------------------------ angle and position

  /** C's double remainder is the Euclidean one. */
  lemma DoubleRemainder(a: int)
    ensures CRem(CRem(a, CPR4) + CPR4, CPR4) == a % CPR4
  {
    if a < 0 {
      var r := (-a) % CPR4;
      assert a == -(((-a) / CPR4) * CPR4) - r;
      assert (CPR4 - r) % CPR4 == a % CPR4;
    }
  }

  lemma PeriodDivides(x: int, y: int)
    requires (x - y) % QDEC_PERIOD == 0
    ensures x % CPR4 == y % CPR4
  {
  }

  lemma WrapKeepsTurn(x: int)
    ensures Wrap32(x) % CPR4 == x % CPR4
  {
  }

  lemma SameResidue(x: int, y: int, z: int)
    requires (x - z) % QDEC_PERIOD == 0 && (-y + z) % QDEC_PERIOD == 0
    ensures (x - y) % QDEC_PERIOD == 0
  {
  }

  /** The angle and the multi-turn counter never disagree, for any readings and any overflow. */
  lemma AngleAgreesWithPosition(h: seq<int>)
    requires Readings(h)
    ensures TurnCounts(h[|h| - 1], h[0]) == Wrap32(Counts(h)) % CPR4
    ensures 0 <= TurnCounts(h[|h| - 1], h[0]) < CPR4
  {
    hide Wrap32, CRem, Counts, Rollover;
    var d := h[|h| - 1] - h[0];
    var a := Rollover(d) * POLARITY;
    RolloverReduces(d);
    CountsAreCongruent(h);
    DoubleRemainder(a);
    SameResidue(Counts(h), a, POLARITY * d);
    PeriodDivides(Counts(h), a);
    WrapKeepsTurn(Counts(h));
  }

  /** The angle a read returns is its position less a whole number of turns, and within one turn. */
  lemma AngleIsPositionModTurn(h: seq<int>, twoPi: Positive) returns (turns: int)
    requires Readings(h)
    ensures var theta := ThetaOf(TurnCounts(h[|h| - 1], h[0]), twoPi);
            && 0.0 <= theta < twoPi
            && ThetaOf(Wrap32(Counts(h)), twoPi) == theta + turns as real * twoPi
  {
    hide TurnCounts, Wrap32, Counts;
    var r, n := TurnCounts(h[|h| - 1], h[0]), Wrap32(Counts(h));
    AngleAgreesWithPosition(h);
    turns := n / CPR4;
    TurnsAndRest(n, turns, r, twoPi);
  }

  lemma BelowOneTurn(x: real, k: real, kx: real)
    requires 0.0 <= x <= 4095.0 && k > 0.0 && kx == x * k
    ensures 0.0 <= kx < 4096.0 * k
  {
    ScaledUnitInterval(x / 4096.0, k, kx / 4096.0);
  }

  lemma ScaledTurns(z: real, x: real, y: real, k: real, kz: real, kx: real, ky: real)
    requires z == y * 4096.0 + x && kz == z * k && kx == x * k && ky == y * k
    ensures kz == 4096.0 * ky + kx
  {
  }

  lemma SplitTurns(z: real, x: real, y: real, k: real, thetaZ: real, thetaX: real)
    requires z == y * 4096.0 + x && 0.0 <= x <= 4095.0 && k > 0.0
    requires thetaZ == z * k / 4096.0 && thetaX == x * k / 4096.0
    ensures 0.0 <= thetaX < k && thetaZ == thetaX + y * k
  {
    var kx, ky, kz := x * k, y * k, z * k;
    BelowOneTurn(x, k, kx);
    ScaledTurns(z, x, y, k, kz, kx, ky);
  }

  lemma TurnsAndRest(n: int, turns: int, r: int, twoPi: Positive)
    requires n == turns * CPR4 + r && 0 <= r < CPR4
    ensures 0.0 <= ThetaOf(r, twoPi) < twoPi
    ensures ThetaOf(n, twoPi) == ThetaOf(r, twoPi) + turns as real * twoPi
  {
    var x, y, z := r as real, turns as real, n as real;
    assert z == y * 4096.0 + x && CPR4 as real == 4096.0;
    SplitTurns(z, x, y, twoPi, ThetaOf(n, twoPi), ThetaOf(r, twoPi));
  }

  // ------------------------------------------------------------ velocity window

  /** The readings up to the one `WINDOW` reads ago. */
  function Earlier(h: seq<int>): seq<int>
    requires h != []
  {
    if |h| > WINDOW then h[..|h| - WINDOW] else h[..1]
  }

  /** Motion across the window, as the multi-turn counter sees it. */
  function WindowMotion(h: seq<int>): int
    requires h != []
  {
    Counts(h) - Counts(Earlier(h))
  }

  lemma WindowCongruent(h: seq<int>)
    requires Readings(h)
    ensures (WindowMotion(h) - POLARITY * (h[|h| - 1] - Oldest(h))) % QDEC_PERIOD == 0
  {
    var e := Earlier(h);
    assert Readings(e) && e[|e| - 1] == Oldest(h) && e[0] == h[0];
    CountsAreCongruent(h);
    CountsAreCongruent(e);
    DifferenceDivides(Counts(h) - POLARITY * (h[|h| - 1] - h[0]), Counts(e) - POLARITY * (Oldest(h) - h[0]));
  }

  /** The velocity window shows the counter's own motion exactly when that motion is under half
      a period, or exactly half of it in the direction the raw difference shows. */
  lemma WindowExactIff(h: seq<int>)
    requires Readings(h)
    ensures WindowDelta(h) == WindowMotion(h) <==>
            || -(QDEC_PERIOD / 2) < WindowMotion(h) < QDEC_PERIOD / 2
            || ((WindowMotion(h) == QDEC_PERIOD / 2 || WindowMotion(h) == -(QDEC_PERIOD / 2))
                && POLARITY * (h[|h| - 1] - Oldest(h)) == WindowMotion(h))
  {
    var d := h[|h| - 1] - Oldest(h);
    WindowCongruent(h);
    RolloverReduces(d);
    RolloverAt(d);
    CongruentWithinHalf(Rollover(d) * POLARITY, WindowMotion(h));
    DifferenceDivides(POLARITY * d - WindowMotion(h), POLARITY * d - Rollover(d) * POLARITY);
  }

  /** At exactly half a period the correction keeps the raw difference. */
  lemma RolloverAt(d: int)
    requires -QDEC_PERIOD < d < QDEC_PERIOD
    ensures Rollover(d) == QDEC_PERIOD / 2 || Rollover(d) == -(QDEC_PERIOD / 2) ==> Rollover(d) == d
  {
  }

  /** The velocity times the time the window spans is the angle covered in it. */
  lemma VelocityIsAnglePerTime(delta: int, twoPi: real)
    ensures OmegaOf(delta, twoPi) * (WINDOW as real / OMEGA_FOC_HZ as real) == ThetaOf(delta, twoPi)
  {
  }

  /** For a shaft moving under half a period per reading and over the window, the velocity is
      the true motion over the last `WINDOW` readings. */
  lemma VelocityIsTrueMotion(p: seq<int>, h: seq<int>)
    requires Positions(p, h) && Trackable(p) && h != []
    requires var past := if |p| > WINDOW then p[|p| - 1 - WINDOW] else p[0];
             -(QDEC_PERIOD / 2) < p[|p| - 1] - past < QDEC_PERIOD / 2
    ensures var past := if |p| > WINDOW then p[|p| - 1 - WINDOW] else p[0];
            WindowDelta(h) == POLARITY * (p[|p| - 1] - past)
  {
    var e := |Earlier(h)|;
    assert Earlier(h) == h[..e];
    CountsAreExact(p, h);
    CountsAreExact(p[..e], h[..e]);
    assert Readings(h);
    WindowExactIff(h);
  }
}
