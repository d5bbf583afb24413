/**
  What an encoder read returns, in terms of the shaft: 4096 counts a turn on a
  counter of 61440, running against the shaft, read every 0.2 ms.
 */
module EncoderLaws {
  import opened Numeric
  import opened Foc
  import opened Encoder

  /** A shaft whose true position, in counts, is `p[k]` at reading `h[k]`, moving by less than 30720
      counts from reading to reading. */
  predicate Shaft(p: seq<int>, h: seq<int>) {
    && |p| == |h| && h != []
    && (forall k :: 0 <= k < |h| ==> h[k] == p[k] % 61440)
    && (forall k :: 0 <= k < |p| - 1 ==> -30720 < p[k + 1] - p[k] < 30720)
  }

  lemma ShaftIsTrackable(p: seq<int>, h: seq<int>)
    requires Shaft(p, h)
    ensures Positions(p, h) && Trackable(p) && Readings(h)
  {
  }

  /** Counts are turns of 4096; the velocity is that of an angle covered in the window's 8 ms, which are
      40 control periods. */
  lemma UnitsOfReadings(n: int, twoPi: real)
    ensures ThetaOf(n, twoPi) * 4096.0 == n as real * twoPi
    ensures OmegaOf(n, twoPi) * 0.008 == ThetaOf(n, twoPi)
    ensures OmegaOf(n, twoPi) * (40.0 * CONTROL_DT) == ThetaOf(n, twoPi)
  {
    var x := n as real * twoPi;
    assert ThetaOf(n, twoPi) == x / 4096.0;
    assert OmegaOf(n, twoPi) == x / 4096.0 * 125.0 by {
      assert n as real * (twoPi / 4096.0) == x / 4096.0;
    }
  }

  /** The position that a read returns: the shaft's motion since reset, against its direction, in turns
      of 4096 counts. */
  function ReturnedPosition(h: seq<int>, twoPi: real): real {
    ThetaOf(Wrap32(Counts(h)), twoPi)
  }

  function ReturnedVelocity(h: seq<int>, twoPi: real): real
    requires h != []
  {
    OmegaOf(WindowDelta(h), twoPi)
  }

  function ReturnedAngle(h: seq<int>, twoPi: real): real
    requires h != []
  {
    ThetaOf(TurnCounts(h[|h| - 1], h[0]), twoPi)
  }

  lemma PositionIsTrue(p: seq<int>, h: seq<int>, twoPi: real)
    requires Shaft(p, h)
    requires -0x8000_0000 <= p[0] - p[|p| - 1] < 0x8000_0000
    ensures ReturnedPosition(h, twoPi) * 4096.0 == (p[0] - p[|p| - 1]) as real * twoPi
  {
    SameLengths(p, h);
    CounterIsTrue(p, h);
    UnitsOfReadings(p[0] - p[|p| - 1], twoPi);
    hide ThetaOf, OmegaOf, Counts, Shaft, Wrap32;
  }

  lemma CounterIsTrue(p: seq<int>, h: seq<int>)
    requires Shaft(p, h) && |p| > 0
    requires -0x8000_0000 <= p[0] - p[|p| - 1] < 0x8000_0000
    ensures Wrap32(Counts(h)) == p[0] - p[|p| - 1]
  {
    ShaftIsTrackable(p, h);
    CounterExactIff(p, h);
    hide Counts, Shaft, Positions, Trackable, Readings, Wrap32;
  }

  /** The angle that a read returns is the same motion within one turn. */
  lemma AngleIsTrue(p: seq<int>, h: seq<int>, twoPi: real)
    requires Shaft(p, h)
    ensures ReturnedAngle(h, twoPi) * 4096.0 == ((p[0] - p[|p| - 1]) % 4096) as real * twoPi
  {
    ShaftIsTrackable(p, h);
    AngleAgreesWithPosition(h);
    CountsAreExact(p, h);
    WrapKeepsTurn(Counts(h));
    UnitsOfReadings((p[0] - p[|p| - 1]) % 4096, twoPi);
    hide ThetaOf, OmegaOf, Counts, Wrap32, TurnCounts, Shaft;
  }

  /** The velocity that a read returns, over 8 ms, is the motion of the last 40 readings. */
  lemma VelocityIsTrue(p: seq<int>, h: seq<int>, twoPi: real)
    requires Shaft(p, h) && |p| > 40
    requires -30720 < p[|p| - 1] - p[|p| - 41] < 30720
    ensures ReturnedVelocity(h, twoPi) * 0.008 * 4096.0 == (p[|p| - 41] - p[|p| - 1]) as real * twoPi
  {
    ShaftIsTrackable(p, h);
    VelocityIsTrueMotion(p, h);
    UnitsOfReadings(p[|p| - 41] - p[|p| - 1], twoPi);
    hide ThetaOf, OmegaOf, WindowDelta, Shaft;
  }

  /** A shaft that moves by `n` counts per reading. */
  predicate Turning(p: seq<int>, n: int) {
    forall k :: 0 <= k < |p| - 1 ==> p[k + 1] - p[k] == n
  }

  lemma {:induction false} TurningMoves(p: seq<int>, n: int, j: nat, k: nat)
    requires Turning(p, n) && j <= k < |p|
    ensures p[k] - p[j] == (k - j) * n
    decreases k
  {
    if j < k {
      TurningMoves(p, n, j, k - 1);
      StepMore(k - 1 - j, n);
    }
  }

  lemma StepMore(k: int, n: int)
    ensures (k + 1) * n == k * n + n
  {
  }

  /** A velocity is a position difference per control period: for a shaft at constant speed, 40 readings
      after reset, the returned velocity times 0.2 ms is the difference of successive returned positions. */
  lemma VelocityIsPositionDifference(p: seq<int>, h: seq<int>, n: int, twoPi: real)
    requires Shaft(p, h) && |p| > 40 && Turning(p, n) && -768 < n < 768
    requires -0x8000_0000 <= p[0] - p[|p| - 1] < 0x8000_0000
    requires -0x8000_0000 <= p[0] - p[|p| - 2] < 0x8000_0000
    ensures ReturnedVelocity(h, twoPi) * CONTROL_DT
         == ReturnedPosition(h, twoPi) - ReturnedPosition(h[..|h| - 1], twoPi)
  {
    hide *;
    var last := |p| - 1;
    TurningFacts(p, n);
    SameLengths(p, h);
    VelocityIsTrue(p, h, twoPi);
    PositionIsTrue(p, h, twoPi);
    ShaftBefore(p, h);
    PositionIsTrue(p[..last], h[..last], twoPi);
    CountsToAngles(p[0] - p[last], p[0] - p[last - 1], n, twoPi, ReturnedVelocity(h, twoPi),
                   ReturnedPosition(h, twoPi), ReturnedPosition(h[..last], twoPi));
  }

  lemma TurningFacts(p: seq<int>, n: int)
    requires Turning(p, n) && |p| > 40 && -768 < n < 768
    ensures p[|p| - 41] - p[|p| - 1] == -40 * n && p[|p| - 1] - p[|p| - 2] == n
    ensures -30720 < p[|p| - 1] - p[|p| - 41] < 30720
  {
    TurningMoves(p, n, |p| - 41, |p| - 1);
    TurningMoves(p, n, |p| - 2, |p| - 1);
  }

  lemma SameLengths(p: seq<int>, h: seq<int>)
    requires Shaft(p, h)
    ensures |p| == |h| && h != []
  {
  }

  lemma ShaftBefore(p: seq<int>, h: seq<int>)
    requires Shaft(p, h) && |p| > 1
    ensures Shaft(p[..|p| - 1], h[..|p| - 1])
  {
  }

  lemma CountsToAngles(now: int, before: int, n: int, twoPi: real, omega: real, pos: real, was: real)
    requires now - before == -n && omega * 0.008 * 4096.0 == (-40 * n) as real * twoPi
    requires pos * 4096.0 == now as real * twoPi && was * 4096.0 == before as real * twoPi
    ensures omega * CONTROL_DT == pos - was
  {
    var x, y, z := now as real, before as real, n as real;
    assert x - y == -z && (-40 * n) as real == -40.0 * z;
    Distribute(x, y, twoPi);
    var zp := z * twoPi;
    assert (-40.0 * z) * twoPi == -40.0 * zp;
    assert (x - y) * twoPi == -zp;
  }

  /** Before 40 readings the velocity still is the motion since reset over 8 ms. */
  lemma VelocityAfterReset(p: seq<int>, h: seq<int>, twoPi: real)
    requires Shaft(p, h) && |p| <= 40 && -30720 < p[|p| - 1] - p[0] < 30720
    ensures ReturnedVelocity(h, twoPi) * 0.008 * 4096.0 == (p[0] - p[|p| - 1]) as real * twoPi
  {
    ShaftIsTrackable(p, h);
    VelocityIsTrueMotion(p, h);
    UnitsOfReadings(p[0] - p[|p| - 1], twoPi);
    hide ThetaOf, OmegaOf, WindowDelta, Shaft;
  }
}
