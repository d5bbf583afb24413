/**
  The PI controller of pid.c: a clamped output with conditional integration.

  `PidState` is the value of the C struct and carries the arithmetic of
  pid_update; the class `Pid` updates the struct in place and is proved against it.
 */
module PidControl {
  import opened Numeric

  function Control(kp: real, error: real, integrator: real): real {
    kp * error + integrator
  }

  function Accumulate(integrator: real, ki: real, error: real, dt: real): real {
    integrator + ki * error * dt
  }

  datatype PidState = PidState(kp: real, ki: real, integrator: real, outMin: real, outMax: real) {
    function Unclamped(error: real): real {
      Control(kp, error, integrator)
    }

    function Output(error: real): real {
      Clamp(Unclamped(error), outMin, outMax)
    }

    /** The error drives the output further into the limit it is already beyond. */
    predicate Driving(error: real) {
      (Unclamped(error) > outMax && error > 0.0) || (Unclamped(error) < outMin && error < 0.0)
    }

    function Updated(error: real, dt: real): PidState {
      if Driving(error) then this else this.(integrator := Accumulate(integrator, ki, error, dt))
    }

    function Cleared(): PidState {
      this.(integrator := 0.0)
    }

    predicate Symmetric() {
      outMin == -outMax && outMax > 0.0
    }

    predicate WithinLimits() {
      outMin <= integrator <= outMax
    }
  }

  class Pid {
    var kp: real
    var ki: real
    var integrator: real
    var outMin: real
    var outMax: real

    function Value(): PidState
      reads this
    {
      PidState(kp, ki, integrator, outMin, outMax)
    }

    constructor (kp: real, ki: real, outMin: real, outMax: real)
      ensures Value() == PidState(kp, ki, 0.0, outMin, outMax)
    {
      this.kp, this.ki, this.integrator := kp, ki, 0.0;
      this.outMin, this.outMax := outMin, outMax;
    }

    method Init(kp: real, ki: real, outMin: real, outMax: real)
      modifies this
      ensures Value() == PidState(kp, ki, 0.0, outMin, outMax)
    {
      this.kp := kp;
      this.ki := ki;
      integrator := 0.0;
      this.outMin := outMin;
      this.outMax := outMax;
    }

    method Reset()
      modifies this`integrator
      ensures Value() == old(Value()).Cleared()
    {
      integrator := 0.0;
    }

    method Update(error: real, dt: real) returns (out: real)
      modifies this`integrator
      ensures out == old(Value()).Output(error)
      ensures Value() == old(Value()).Updated(error, dt)
    {
      var unclamped := Control(kp, error, integrator);
      out := unclamped;
      if out > outMax {
        out := outMax;
      } else if out < outMin {
        out := outMin;
      }
      var drivingIntoHighSat := unclamped > outMax && error > 0.0;
      var drivingIntoLowSat := unclamped < outMin && error < 0.0;
      if !drivingIntoHighSat && !drivingIntoLowSat {
        integrator := Accumulate(integrator, ki, error, dt);
      }
    }
  }

  // ------------------------------------------------------------- whole runs

  /** The controller after a run of errors. */
  function RunPid(p: PidState, errors: seq<real>, dt: real): PidState {
    if errors == [] then p
    else RunPid(p, errors[..|errors| - 1], dt).Updated(errors[|errors| - 1], dt)
  }

  /** How far one step can carry the integrator past a limit. */
  function Overshoot(p: PidState, dt: real, e: real): real {
    Max(0.0, p.ki * dt - p.kp) * e
  }

  predicate Gains(p: PidState, dt: real) {
    p.kp >= 0.0 && p.ki >= 0.0 && dt > 0.0 && p.outMin <= p.outMax
  }

  predicate Bounded(errors: seq<real>, e: real) {
    forall i :: 0 <= i < |errors| ==> Abs(errors[i]) <= e
  }

  predicate SameTuning(p: PidState, q: PidState) {
    q == p.(integrator := q.integrator)
  }

  /** One update moves the integrator above a level only from a step that was not driving. */
  lemma StepUpper(p: PidState, error: real, dt: real, e: real, level: real)
    requires Gains(p, dt) && e >= 0.0 && Abs(error) <= e
    requires p.integrator <= level && p.outMax + Overshoot(p, dt, e) <= level
    ensures p.Updated(error, dt).integrator <= level
  {
  }

  /** The controller seen upside down: every statement about one limit gives the other. */
  function Mirror(p: PidState): PidState {
    PidState(p.kp, p.ki, -p.integrator, -p.outMax, -p.outMin)
  }

  lemma MirrorCommutes(p: PidState, error: real, dt: real)
    ensures Mirror(p).Unclamped(-error) == -p.Unclamped(error)
    ensures Mirror(p).Updated(-error, dt) == Mirror(p.Updated(error, dt))
    ensures p.outMin <= p.outMax ==> Mirror(p).Output(-error) == -p.Output(error)
  {
  }

  lemma StepLower(p: PidState, error: real, dt: real, e: real, level: real)
    requires Gains(p, dt) && e >= 0.0 && Abs(error) <= e
    requires -level <= p.integrator && -level <= p.outMin - Overshoot(p, dt, e)
    ensures -level <= p.Updated(error, dt).integrator
  {
  }

  /** Within one step's overshoot of the output limits. */
  predicate NearLimits(p: PidState, w: real) {
    p.outMin - w <= p.integrator <= p.outMax + w
  }

  lemma NearLimitsKept(p: PidState, error: real, dt: real, e: real, w: real)
    requires Gains(p, dt) && e >= 0.0 && Abs(error) <= e && w == Overshoot(p, dt, e)
    requires NearLimits(p, w)
    ensures SameTuning(p, p.Updated(error, dt)) && NearLimits(p.Updated(error, dt), w)
  {
    StepUpper(p, error, dt, e, p.outMax + w);
    StepLower(p, error, dt, e, w - p.outMin);
  }

  lemma OvershootNonnegative(p: PidState, dt: real, e: real)
    requires e >= 0.0
    ensures Overshoot(p, dt, e) >= 0.0
  {
  }

  lemma OvershootSame(p: PidState, q: PidState, dt: real, e: real)
    requires SameTuning(p, q)
    ensures Overshoot(p, dt, e) == Overshoot(q, dt, e)
  {
  }

  /** Over every run the integrator stays within one step's overshoot of the output limits. */
  lemma {:induction false} IntegratorStaysNearLimits(p: PidState, errors: seq<real>, dt: real, e: real)
    requires Gains(p, dt) && p.WithinLimits() && e >= 0.0 && Bounded(errors, e)
    ensures SameTuning(p, RunPid(p, errors, dt))
    ensures NearLimits(RunPid(p, errors, dt), Overshoot(p, dt, e))
  {
    OvershootNonnegative(p, dt, e);
    if errors != [] {
      var n := |errors| - 1;
      IntegratorStaysNearLimits(p, errors[..n], dt, e);
      var q := RunPid(p, errors[..n], dt);
      OvershootSame(p, q, dt, e);
      NearLimitsKept(q, errors[n], dt, e, Overshoot(p, dt, e));
    }
  }

  /** The overshoot is attained, so no smaller margin bounds every run. */
  lemma OvershootIsAttained(p: PidState, dt: real, e: real)
    requires Gains(p, dt) && e > 0.0 && p.ki * dt >= p.kp
    requires p.integrator == p.outMax - p.kp * e && p.WithinLimits()
    ensures RunPid(p, [e], dt).integrator == p.outMax + Overshoot(p, dt, e)
  {
  }

  // ----------------------------------------------- recovery from saturation

  /** A gentle integral gain never leaves the output limits. */
  lemma {:induction false} GentleStaysWithin(p: PidState, errors: seq<real>, dt: real)
    requires Gains(p, dt) && p.WithinLimits() && p.ki * dt <= p.kp
    ensures SameTuning(p, RunPid(p, errors, dt)) && RunPid(p, errors, dt).WithinLimits()
  {
    if errors != [] {
      var n := |errors| - 1;
      GentleStaysWithin(p, errors[..n], dt);
      var q, e := RunPid(p, errors[..n], dt), Abs(errors[n]);
      assert Overshoot(p, dt, e) == 0.0;
      StepUpper(q, errors[n], dt, e, p.outMax);
      StepLower(q, errors[n], dt, e, -p.outMin);
    }
  }

  /** An integrator above the upper limit holds the output there for a small reversed error. */
  lemma StuckHigh(p: PidState, cap: real) returns (e: real)
    requires p.kp > 0.0 && p.integrator > p.outMax && p.outMin <= p.outMax && cap > 0.0
    ensures -cap <= e < 0.0 && p.Output(e) == p.outMax
  {
    var most := (p.outMax - p.integrator) / p.kp;
    DivideBack(p.outMax - p.integrator, p.kp, most);
    ScaledNegative(most, p.kp, p.outMax - p.integrator);
    e := Max(-cap, most);
    MulMonotone(most, e, p.kp);
    MulStrict(e, 0.0, p.kp);
    StaysClamped(p, e, p.kp * e);
  }

  lemma StaysClamped(p: PidState, e: real, prop: real)
    requires prop == p.kp * e && prop + p.integrator >= p.outMax && p.outMin <= p.outMax
    ensures p.Output(e) == p.outMax
  {
  }

  lemma ScaledNegative(x: real, k: real, p: real)
    requires k > 0.0 && p == x * k && p < 0.0
    ensures x < 0.0
  {
  }

  /** One error that just reaches the upper limit overshoots it when the integral gain is steep. */
  lemma SteepOvershoots(p: PidState, dt: real, cap: real) returns (e: real)
    requires Gains(p, dt) && p.kp > 0.0 && p.ki * dt > p.kp
    requires p.integrator < p.outMax && p.outMax - p.integrator <= p.kp * cap
    ensures 0.0 < e <= cap && p.Updated(e, dt).integrator > p.outMax
  {
    var room := p.outMax - p.integrator;
    e := room / p.kp;
    DivideBack(room, p.kp, e);
    ScaledPositive(e, p.kp, room);
    ScaledOrder(e, cap, p.kp);
    var steep, up := p.ki * dt, p.ki * e * dt;
    assert up == steep * e;
    MulStrict(p.kp, steep, e);
    var prop := p.kp * e;
    assert prop == room;
    assert prop < up;
  }

  lemma ScaledPositive(x: real, k: real, p: real)
    requires k > 0.0 && p == x * k && p > 0.0
    ensures x > 0.0
  {
  }

  lemma ScaledOrder(x: real, y: real, k: real)
    requires k > 0.0 && x * k <= k * y
    ensures x <= y
  {
    if y < x { MulStrict(y, x, k); }
  }

  /** Half of what an error of `cap` contributes through the proportional gain. */
  function HalfShare(p: PidState, cap: real): real {
    p.kp * cap / 2.0
  }

  /** One step towards the upper limit, within `cap` and short of the limit. */
  lemma StepNearer(p: PidState, dt: real, cap: real) returns (e: real)
    requires Gains(p, dt) && p.kp > 0.0 && p.ki * dt > p.kp && cap > 0.0
    requires p.outMax - p.integrator > 2.0 * HalfShare(p, cap)
    ensures 0.0 < e <= cap && SameTuning(p, p.Updated(e, dt))
    ensures p.integrator + HalfShare(p, cap) <= p.Updated(e, dt).integrator < p.outMax
  {
    var room, steep := p.outMax - p.integrator, p.ki * dt;
    var half := room / (2.0 * steep);
    e := Min(cap, half);
    HalfRoom(room, steep, p.kp, cap, half, e, p.kp * cap, p.kp * e, steep * e);
    RisesBy(p, e, dt, steep * e, p.kp * e);
  }

  /** An error of `cap`, or of half the room, adds at least half a share and at most half the room. */
  lemma HalfRoom(room: real, steep: real, kp: real, cap: real, half: real, e: real, share: real, prop: real, up: real)
    requires 0.0 < kp < steep && 0.0 < cap && share == kp * cap && room > share
    requires half == room / (2.0 * steep) && e == Min(cap, half) && prop == kp * e && up == steep * e
    ensures 0.0 < e <= cap && share / 2.0 <= up <= room / 2.0 && prop <= up && room > 0.0
  {
    assert kp * cap > 0.0;
    DivideBack(room, 2.0 * steep, half);
    ScaledPositive(half, 2.0 * steep, room);
    ScaledOrders(kp, steep, cap, share, steep * cap);
    ScaledOrders(kp, steep, e, prop, up);
    MulMonotone(e, half, steep);
  }

  lemma ScaledOrders(kp: real, steep: real, e: real, prop: real, up: real)
    requires 0.0 < kp < steep && 0.0 < e && prop == kp * e && up == steep * e
    ensures 0.0 < prop < up
  {
    MulStrict(0.0, e, kp);
    MulStrict(kp, steep, e);
  }

  /** Below the limit an error adds its integral share. */
  lemma RisesBy(p: PidState, e: real, dt: real, up: real, prop: real)
    requires up == p.ki * dt * e && prop == p.kp * e && p.integrator + prop <= p.outMax && e >= 0.0
    ensures p.Updated(e, dt) == p.(integrator := p.integrator + up)
  {
    assert p.ki * e * dt == up;
  }

  lemma RunPidSnoc(p: PidState, errors: seq<real>, e: real, dt: real)
    ensures RunPid(p, errors + [e], dt) == RunPid(p, errors, dt).Updated(e, dt)
  {
    assert (errors + [e])[..|errors|] == errors;
  }

  lemma BoundedSnoc(errors: seq<real>, e: real, cap: real)
    requires Bounded(errors, cap) && Abs(e) <= cap
    ensures Bounded(errors + [e], cap)
  {
  }

  function Rise(n: nat, share: real): real {
    n as real * share
  }

  lemma RiseNext(n: nat, share: real)
    ensures Rise(n + 1, share) == Rise(n, share) + share && Rise(0, share) == 0.0
  {
    Distribute(n as real, 1.0, share);
  }

  /** Not past the upper limit, and near it or risen by `n` half shares of `cap`. */
  predicate Nearing(p: PidState, q: PidState, cap: real, n: nat) {
    && SameTuning(p, q) && p.integrator <= q.integrator < p.outMax
    && (p.outMax - q.integrator <= 2.0 * HalfShare(p, cap)
        || p.integrator + Rise(n, HalfShare(p, cap)) <= q.integrator)
  }

  lemma NearingNext(p: PidState, q: PidState, dt: real, cap: real, n: nat) returns (e: real)
    requires Gains(p, dt) && p.kp > 0.0 && p.ki * dt > p.kp && cap > 0.0
    requires Nearing(p, q, cap, n) && p.outMax - q.integrator > 2.0 * HalfShare(p, cap)
    ensures 0.0 < e <= cap && Nearing(p, q.Updated(e, dt), cap, n + 1)
  {
    SharePositive(p, cap);
    e := StepNearer(q, dt, cap);
    assert HalfShare(q, cap) == HalfShare(p, cap);
    hide HalfShare, Rise, PidState.Updated;
    RiseNext(n, HalfShare(p, cap));
  }

  lemma SharePositive(p: PidState, cap: real)
    requires p.kp > 0.0 && cap > 0.0
    ensures HalfShare(p, cap) > 0.0
  {
    MulStrict(0.0, cap, p.kp);
  }

  /** Errors as small as one likes bring the integrator as near the upper limit as one likes. */
  lemma {:induction false} ApproachLimit(p: PidState, dt: real, cap: real, n: nat) returns (errors: seq<real>)
    requires Gains(p, dt) && p.kp > 0.0 && p.ki * dt > p.kp && cap > 0.0
    requires p.integrator < p.outMax
    ensures Bounded(errors, cap) && Nearing(p, RunPid(p, errors, dt), cap, n)
  {
    RiseNext(0, HalfShare(p, cap));
    hide HalfShare, Rise, PidState.Updated;
    errors := [];
    if n > 0 {
      errors := ApproachLimit(p, dt, cap, n - 1);
      hide RunPid;
      var q := RunPid(p, errors, dt);
      if p.outMax - q.integrator > 2.0 * HalfShare(p, cap) {
        var e := NearingNext(p, q, dt, cap, n - 1);
        RunPidSnoc(p, errors, e, dt);
        BoundedSnoc(errors, e, cap);
        errors := errors + [e];
      }
    }
  }

  /** One step of a run recovers: an inward error takes the output off its limit. */
  predicate RecoversOn(p: PidState, e: real) {
    (e < 0.0 ==> p.Output(e) < p.outMax) && (e > 0.0 ==> p.Output(e) > p.outMin)
  }

  lemma WithinRecovers(p: PidState, e: real)
    requires p.kp > 0.0 && p.outMin < p.outMax && p.WithinLimits()
    ensures RecoversOn(p, e)
  {
  }

  /** From below the upper limit, errors within any `cap` carry a steep integrator past it. */
  lemma SmallErrorsOvershoot(p: PidState, dt: real, cap: real) returns (errors: seq<real>)
    requires Gains(p, dt) && p.kp > 0.0 && p.ki * dt > p.kp && cap > 0.0
    requires p.integrator < p.outMax
    ensures Bounded(errors, cap) && SameTuning(p, RunPid(p, errors, dt))
    ensures RunPid(p, errors, dt).integrator > p.outMax
  {
    SharePositive(p, cap);
    var n := StepsToCover(p.outMax - p.integrator, HalfShare(p, cap));
    errors := ApproachLimit(p, dt, cap, n);
    var q := RunPid(p, errors, dt);
    assert 2.0 * HalfShare(p, cap) == q.kp * cap;
    hide HalfShare, Rise, RunPid;
    var e := SteepOvershoots(q, dt, cap);
    RunPidSnoc(p, errors, e, dt);
    BoundedSnoc(errors, e, cap);
    errors := errors + [e];
  }

  lemma StepsToCover(room: real, share: real) returns (n: nat)
    requires room > 0.0 && share > 0.0
    ensures Rise(n, share) >= room
  {
    var q := room / share;
    DivideBack(room, share, q);
    ScaledPositive(q, share, room);
    n := q.Floor + 1;
    MulMonotone(q, n as real, share);
  }

  /** The errors with opposite sign. */
  function Negated(errors: seq<real>): seq<real> {
    seq(|errors|, i requires 0 <= i < |errors| => -errors[i])
  }

  lemma {:induction false} MirrorRun(p: PidState, errors: seq<real>, dt: real)
    ensures RunPid(Mirror(p), Negated(errors), dt) == Mirror(RunPid(p, errors, dt))
  {
    if errors != [] {
      var n := |errors| - 1;
      assert Negated(errors)[..n] == Negated(errors[..n]);
      MirrorRun(p, errors[..n], dt);
      MirrorCommutes(RunPid(p, errors[..n], dt), errors[n], dt);
    }
  }

  /** A steep integral gain has a run that stays pinned after the error reverses, however small
      the errors are kept. */
  lemma SteepSticks(p: PidState, dt: real, cap: real) returns (errors: seq<real>, e: real)
    requires Gains(p, dt) && p.kp > 0.0 && p.ki * dt > p.kp && cap > 0.0
    requires p.outMin < p.outMax && p.WithinLimits()
    ensures Bounded(errors, cap) && Abs(e) <= cap && !RecoversOn(RunPid(p, errors, dt), e)
  {
    if p.integrator < p.outMax {
      errors := SmallErrorsOvershoot(p, dt, cap);
      e := StuckHigh(RunPid(p, errors, dt), cap);
    } else {
      var falls := SmallErrorsOvershoot(Mirror(p), dt, cap);
      errors := Negated(falls);
      MirrorRun(Mirror(p), falls, dt);
      var q := RunPid(p, errors, dt);
      assert Mirror(Mirror(p)) == p;
      var f := StuckHigh(Mirror(q), cap);
      e := -f;
      MirrorCommutes(q, e, dt);
    }
  }

  /** With errors kept within any `cap`, saturation ends on the first reversed error of every run
      exactly when ki * dt <= kp. */
  lemma RecoveryIff(p: PidState, dt: real, cap: real)
    requires Gains(p, dt) && p.kp > 0.0 && p.outMin < p.outMax && p.WithinLimits() && cap > 0.0
    ensures (forall errors: seq<real>, e: real :: Bounded(errors, cap) && Abs(e) <= cap ==>
              RecoversOn(RunPid(p, errors, dt), e)) <==> p.ki * dt <= p.kp
  {
    if p.ki * dt <= p.kp {
      forall errors: seq<real>, e: real
        ensures RecoversOn(RunPid(p, errors, dt), e)
      {
        GentleStaysWithin(p, errors, dt);
        WithinRecovers(RunPid(p, errors, dt), e);
      }
    } else {
      var errors, e := SteepSticks(p, dt, cap);
    }
  }
}
