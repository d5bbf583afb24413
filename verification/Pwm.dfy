/**
  The PWM output of motor.c and the wait for the ADC sample point.

  TIM3 counts 0 .. ARR and starts over; CCR4 marks the sample point.  One poll of
  the counter is taken to advance it by one count.
 */
module Pwm {
  import opened Numeric
  import opened Transforms

  class Timers {
    const countsA: nat
    const countsB: nat
    const countsC: nat
    var ccr3: nat
    var tim12Ccr1: nat
    var tim11Ccr1: nat
    var ccr4: nat

    constructor (arr3: nat, arr12: nat, arr11: nat, initialCcr4: nat)
      ensures countsA == arr3 + 1 && countsB == arr12 + 1 && countsC == arr11 + 1
      ensures ccr4 == initialCcr4
    {
      countsA, countsB, countsC := arr3 + 1, arr12 + 1, arr11 + 1;
      ccr3, tim12Ccr1, tim11Ccr1, ccr4 := 0, 0, 0, initialCcr4;
    }

    /** motor_set_pwm. The conversions to uint32_t demand duties that are not negative. */
    method SetPwm(d: Abc)
      requires countsA > 0 && d.InUnit()
      modifies this
      ensures ccr3 == Compare(d.a, countsA)
      ensures tim12Ccr1 == Compare(d.b, countsB) && tim11Ccr1 == Compare(d.c, countsC)
      ensures ccr4 == SamplePoint(d.a, countsA - 1)
      ensures Realises(ccr3, d.a, countsA) && Realises(tim12Ccr1, d.b, countsB) && Realises(tim11Ccr1, d.c, countsC)
      ensures ccr3 + countsA - 2 <= 2 * ccr4 <= ccr3 + countsA - 1
    {
      CompareInRange(d.a, countsA);
      CompareInRange(d.b, countsB);
      CompareInRange(d.c, countsC);
      ccr3 := (d.a * countsA as real).Floor;
      tim12Ccr1 := (d.b * countsB as real).Floor;
      tim11Ccr1 := (d.c * countsC as real).Floor;
      ccr4 := (ccr3 + (countsA - 1)) / 2;
    }
  }

  /** A compare value is the duty's share of the counts, rounded down. */
  predicate Realises(ccr: int, duty: real, counts: nat) {
    ccr as real <= duty * counts as real < ccr as real + 1.0
  }

  /** How many of the counter values 0 .. counts - 1 lie below a compare value: the leg is high on these. */
  function HighTicks(ccr: int, counts: nat): nat {
    if counts == 0 then 0 else HighTicks(ccr, counts - 1) + if counts - 1 < ccr then 1 else 0
  }

  lemma {:induction false} HighTicksBelowCompare(ccr: int, counts: nat)
    ensures HighTicks(ccr, counts) == if ccr < 0 then 0 else if ccr > counts then counts else ccr
  {
    if counts > 0 { HighTicksBelowCompare(ccr, counts - 1); }
  }

  /** The mean voltage of a leg over one counter cycle: the bus while it is high. */
  function LegVoltage(ccr: int, counts: nat, vbus: real): real
    requires counts > 0
  {
    vbus * HighTicks(ccr, counts) as real / counts as real
  }

  /** A leg's mean voltage is what its duty asks of the bus, less at most one count's worth. */
  predicate LegFollows(ccr: int, duty: real, counts: nat, vbus: real)
    requires counts > 0
  {
    LegVoltage(ccr, counts, vbus) <= vbus * duty <= LegVoltage(ccr, counts, vbus) + vbus / counts as real
  }

  lemma RealisedLegFollows(ccr: int, duty: real, counts: nat, vbus: real)
    requires counts > 0 && vbus > 0.0 && 0.0 <= duty <= 1.0 && Realises(ccr, duty, counts)
    ensures LegFollows(ccr, duty, counts, vbus)
  {
    var n, c := counts as real, ccr as real;
    FractionWithin(duty, n, duty * n);
    HighTicksBelowCompare(ccr, counts);
    CompareWithin(ccr, counts, duty * n);
    hide HighTicks;
    LegBetween(c, duty, n, vbus, vbus * c / n, vbus / n);
  }

  lemma CompareWithin(ccr: int, counts: nat, x: real)
    requires ccr as real <= x < ccr as real + 1.0 && 0.0 <= x <= counts as real
    ensures 0 <= ccr <= counts
  {
  }

  lemma LegBetween(c: real, duty: real, n: real, vbus: real, q: real, one: real)
    requires n > 0.0 && vbus > 0.0 && c <= duty * n < c + 1.0 && q == vbus * c / n && one == vbus / n
    ensures q <= vbus * duty <= q + one
  {
    var dn, x, h := duty * n, vbus * duty, vbus * c;
    var vd := vbus * dn;
    assert vd == x * n;
    ScaledBetween(c, dn, vbus, h, vd);
    QuotientBetween(h, x, vd, vbus, n, q, one);
  }

  lemma ScaledBetween(c: real, dn: real, k: real, kc: real, kd: real)
    requires k > 0.0 && c <= dn < c + 1.0 && kc == k * c && kd == k * dn
    ensures kc <= kd <= kc + k
  {
    var share := k * (dn - c);
    assert share == kd - kc;
    ScaledSign(dn - c, k, share);
    ScaledSign(1.0 - (dn - c), k, k - share);
  }

  lemma QuotientBetween(h: real, x: real, xn: real, vbus: real, n: real, q: real, one: real)
    requires n > 0.0 && xn == x * n && h <= xn <= h + vbus && q == h / n && one == vbus / n
    ensures q <= x <= q + one
  {
    DivideBack(h, n, q);
    DivideBack(vbus, n, one);
    Distribute(x, q, n);
    Distribute(q, one, n);
    Distribute(q + one, x, n);
    ScaledSign(x - q, n, xn - h);
    ScaledSign(q + one - x, n, h + vbus - xn);
  }

  /** A duty as a compare value of a timer with `counts` counts. */
  function Compare(duty: real, counts: nat): int {
    (duty * counts as real).Floor
  }

  /** Midpoint of phase A's low window. */
  function SamplePoint(duty: real, arr: nat): int {
    (Compare(duty, arr + 1) + arr) / 2
  }

  lemma CompareInRange(duty: real, counts: nat)
    requires 0.0 <= duty <= 1.0
    ensures 0 <= Compare(duty, counts) <= counts
  {
    var n := counts as real;
    FractionWithin(duty, n, duty * n);
    FloorRange(duty * n, counts);
  }

  lemma FractionWithin(x: real, n: real, p: real)
    requires 0.0 <= x <= 1.0 && 0.0 <= n && p == x * n
    ensures 0.0 <= p <= n
  {
    MulMonotone(0.0, x, n);
    MulMonotone(x, 1.0, n);
  }

  lemma FloorRange(x: real, n: nat)
    requires 0.0 <= x <= n as real
    ensures 0 <= x.Floor <= n
  {
  }

  /** After motor_set_pwm the sample point can be reached, inside phase A's low window when there is one. */
  lemma SamplePointReachable(duty: real, arr: nat)
    requires 0.0 <= duty <= 1.0 && arr >= 2
    ensures 0 < SamplePoint(duty, arr) <= arr
    ensures Compare(duty, arr + 1) <= arr ==> Compare(duty, arr + 1) <= SamplePoint(duty, arr)
  {
  }

  // ------------------------------------------------------------- the wait

  /** The timer restarts after ARR. */
  function Next(count: nat, arr: nat): nat {
    if count >= arr then 0 else count + 1
  }

  /** The counter after `n` polls. */
  function CountAt(start: nat, n: nat, arr: nat): nat {
    if n == 0 then start else Next(CountAt(start, n - 1, arr), arr)
  }

  /** Polls from `start` until the counter, having left the sample window, reaches the sample point. */
  function WaitPolls(start: nat, target: nat, arr: nat): int {
    if start >= target then (arr + 1 - start) + target else target - start
  }

  /** The two waits of motor_read_currents: out of the window if inside it, then up to the target. */
  method AwaitSample(start: nat, target: nat, arr: nat) returns (count: nat, polls: nat)
    requires start <= arr && 0 < target <= arr
    ensures count == target && count == CountAt(start, polls, arr)
    ensures polls == WaitPolls(start, target, arr) && polls <= arr + 1
  {
    count, polls := start, 0;
    if count >= target {
      while count >= target
        invariant count <= arr && count == CountAt(start, polls, arr)
        invariant count >= target ==> start <= count && polls == count - start
        invariant count < target ==> count == 0 && polls == arr + 1 - start
        decreases if count >= target then arr + 1 - count else 0
      {
        count := Next(count, arr);
        polls := polls + 1;
      }
    }
    while count < target
      invariant count <= target && count == CountAt(start, polls, arr)
      invariant polls + (target - count) == WaitPolls(start, target, arr)
    {
      count := Next(count, arr);
      polls := polls + 1;
    }
  }

  lemma {:induction false} CounterClimbs(start: nat, n: nat, arr: nat)
    requires start + n <= arr
    ensures CountAt(start, n, arr) == start + n
  {
    if n > 0 { CounterClimbs(start, n - 1, arr); }
  }

  lemma CounterInRange(start: nat, n: nat, arr: nat)
    requires start <= arr
    ensures CountAt(start, n, arr) <= arr
  {
  }

  /** Some poll falls below the sample point and some poll reaches it exactly when the point is in 1 .. ARR:
      otherwise one of the two waits never ends. */
  lemma WaitEndsIff(start: nat, target: nat, arr: nat)
    requires start <= arr
    ensures (exists n: nat :: CountAt(start, n, arr) < target) && (exists n: nat :: CountAt(start, n, arr) >= target)
            <==> 0 < target <= arr
  {
    CounterClimbs(start, arr - start, arr);
    assert CountAt(start, arr - start, arr) == arr;
    assert CountAt(start, arr - start + 1, arr) == 0;
    forall n: nat
      ensures CountAt(start, n, arr) <= arr
    {
      CounterInRange(start, n, arr);
    }
  }
}
