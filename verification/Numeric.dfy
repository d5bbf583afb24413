/**
  Real arithmetic shared by the controller, the simulator and the encoder.

  The firmware computes in single precision and calls libm.  Here every float is
  a mathematical real, and the library values the code relies on travel together
  in a `Libm` record.  What is known of them is the predicate `Lawful`: it is a
  hypothesis of the theorems that need it, and nothing is assumed globally.
 */
module Numeric {

  type Positive = x: real | x > 0.0 witness 1.0

  function Abs(x: real): (r: real)
    ensures r >= 0.0 && (r == x || r == -x)
  {
    if x < 0.0 then -x else x
  }

  function Max(x: real, y: real): (r: real)
    ensures r >= x && r >= y && (r == x || r == y)
  {
    if x > y then x else y
  }

  function Min(x: real, y: real): (r: real)
    ensures r <= x && r <= y && (r == x || r == y)
  {
    if x < y then x else y
  }

  /** The two-sided clamp the source writes as a pair of comparisons, upper limit first. */
  function Clamp(x: real, lo: real, hi: real): (r: real)
    ensures lo <= hi ==> lo <= r <= hi
    ensures lo <= x <= hi ==> r == x
    ensures lo <= hi && x >= hi ==> r == hi
    ensures lo <= hi && x <= lo ==> r == lo
  {
    if x > hi then hi else if x < lo then lo else x
  }

  /** Conversion of a float to an integer in C: truncation toward zero. */
  function Trunc(x: real): int {
    if x >= 0.0 then x.Floor else -((-x).Floor)
  }

  /** fmodf for a positive modulus: the remainder takes the sign of `x`. */
  function Fmod(x: real, y: Positive): real {
    x - Trunc(x / y) as real * y
  }

  /** The idiom of foc.c and sim.c: fmodf, then one period added when negative. */
  function WrapAngle(x: real, period: Positive): real {
    var t := Fmod(x, period);
    if t < 0.0 then t + period else t
  }

  /** Wrapping removes exactly the whole periods below `x`. */
  lemma WrapRemovesWholePeriods(x: real, period: Positive)
    ensures 0.0 <= WrapAngle(x, period) < period
    ensures WrapAngle(x, period) == x - (x / period).Floor as real * period
  {
    var q := x / period;
    DivideBack(x, period, q);
    WrapByQuotient(x, period, q, Trunc(q));
  }

  lemma WrapByQuotient(x: real, period: real, q: real, n: int)
    requires period > 0.0 && q * period == x && n == Trunc(q)
    ensures var t := x - n as real * period;
            var w := if t < 0.0 then t + period else t;
            0.0 <= w < period && w == x - q.Floor as real * period
  {
    TruncIsFloorOrNext(q);
    var f, m := q.Floor as real, n as real;
    var below, taken := f * period, m * period;
    FractionOf(q, f, period, x, below);
    if m != f {
      Distribute(f, 1.0, period);
      assert taken == below + period;
    }
  }

  lemma TruncIsFloorOrNext(q: real)
    ensures Trunc(q) == q.Floor || (Trunc(q) == q.Floor + 1 && q < 0.0)
  {
  }

  lemma FractionOf(q: real, f: real, y: real, qy: real, fy: real)
    requires f <= q < f + 1.0 && y > 0.0
    requires qy == q * y && fy == f * y
    ensures 0.0 <= qy - fy < y
  {
    Distribute(q, f, y);
    ScaledUnitInterval(q - f, y, qy - fy);
  }

  lemma DivideBack(x: real, y: real, q: real)
    requires y != 0.0 && q == x / y
    ensures q * y == x
  {
  }

  lemma Distribute(x: real, y: real, k: real)
    ensures (x - y) * k == x * k - y * k
    ensures (x + y) * k == x * k + y * k
  {
  }

  lemma ScaledUnitInterval(r: real, y: real, p: real)
    requires 0.0 <= r < 1.0 && y > 0.0 && p == r * y
    ensures 0.0 <= p < y
  {
  }

  lemma MulMonotone(x: real, y: real, k: real)
    requires x <= y && 0.0 <= k
    ensures x * k <= y * k && k * x <= k * y
  {
  }

  /** Comparing magnitudes through squares; the products are named by the caller. */
  lemma SquareOrder(x: real, y: real, xx: real, yy: real)
    requires 0.0 <= y && xx == x * x && yy == y * y
    ensures xx <= yy <==> Abs(x) <= y
  {
    var a := Abs(x);
    assert a * a == xx;
    if a <= y {
      MulMonotone(a, y, a);
      MulMonotone(a, y, y);
    } else {
      StrictSquare(y, a, yy, xx);
    }
  }

  lemma StrictSquare(x: real, y: real, xx: real, yy: real)
    requires 0.0 <= x < y && xx == x * x && yy == y * y
    ensures xx < yy
  {
    var xy := x * y;
    assert xx <= xy;
    assert xy < yy;
  }

  lemma MulStrict(x: real, y: real, k: real)
    requires x < y && 0.0 < k
    ensures x * k < y * k
  {
  }

  /** The product of two bounded factors. */
  lemma AbsProduct(x: real, y: real, boundX: real, boundY: real)
    requires Abs(x) <= boundX && Abs(y) <= boundY
    ensures Abs(x * y) <= boundX * boundY
  {
  }

  /** What the code takes from libm, and its two irrational constants. */
  datatype Libm = Libm(cos: real -> real, sin: real -> real, sqrt: real -> real,
                       twoPi: Positive, sqrt3: Positive)
  {
    ghost predicate UnitAt(x: real) {
      cos(x) * cos(x) + sin(x) * sin(x) == 1.0
    }

    ghost predicate SqrtAt(x: real) {
      x >= 0.0 ==> sqrt(x) >= 0.0 && sqrt(x) * sqrt(x) == x
    }

    ghost predicate PeriodicAt(x: real) {
      cos(x + twoPi) == cos(x) && sin(x + twoPi) == sin(x)
    }

    ghost predicate SumAt(x: real, y: real) {
      && cos(x + y) == cos(x) * cos(y) - sin(x) * sin(y)
      && sin(x + y) == sin(x) * cos(y) + cos(x) * sin(y)
    }

    ghost predicate Lawful() {
      && sqrt3 * sqrt3 == 3.0
      && (forall x: real :: UnitAt(x))
      && (forall x: real :: SqrtAt(x))
      && (forall x: real :: PeriodicAt(x))
      && (forall x: real, y: real :: SumAt(x, y))
    }

    /** The angle `k` whole turns away from `x`. */
    function Turned(x: real, k: int): real {
      x + k as real * twoPi
    }

    /** One-period invariance extends to every whole number of turns. */
    lemma {:induction false} PeriodicTurns(x: real, k: int)
      requires Lawful()
      ensures cos(Turned(x, k)) == cos(x) && sin(Turned(x, k)) == sin(x)
      decreases if k < 0 then -k else k
    {
      if k > 0 {
        PeriodicTurns(x, k - 1);
        NextTurn(x, k - 1);
      } else if k < 0 {
        PeriodicTurns(x, k + 1);
        NextTurn(x, k);
      } else {
        SameAngle(x, Turned(x, 0));
      }
    }

    lemma NextTurn(x: real, k: int)
      requires Lawful()
      ensures cos(Turned(x, k + 1)) == cos(Turned(x, k))
      ensures sin(Turned(x, k + 1)) == sin(Turned(x, k))
    {
      var y := Turned(x, k);
      assert PeriodicAt(y);
      SameAngle(Turned(x, k + 1), y + twoPi);
    }

    lemma SameAngle(x: real, y: real)
      requires x == y
      ensures cos(x) == cos(y) && sin(x) == sin(y)
    {
    }

    /** Wrapping an angle changes neither its cosine nor its sine. */
    lemma WrapKeepsTrig(x: real)
      requires Lawful()
      ensures cos(WrapAngle(x, twoPi)) == cos(x)
      ensures sin(WrapAngle(x, twoPi)) == sin(x)
    {
      WrapRemovesWholePeriods(x, twoPi);
      var n := -(x / twoPi).Floor;
      PeriodicTurns(x, n);
      SameAngle(WrapAngle(x, twoPi), Turned(x, n));
    }
  }
}
