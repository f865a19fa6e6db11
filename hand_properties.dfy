/** Properties of the per-hand state machine that relate several steps:
    the horizontal speed test, the shape of the dash budget, and what a run
    of frames (HandleHand then Movement, once per frame) does to one hand. */
module HandProperties {
  import opened Mathf
  import opened HandSpec

  /** The squared test used by HandleHand agrees with the magnitude test
      `Vector2(v.x, v.z).magnitude >= minSpeed`, for m that magnitude. */
  lemma HorizontalSpeedIsMagnitude(v: Vec3, m: real, minSpeed: real)
    requires m >= 0.0 && m * m == HorizontalSqrSpeed(v)
    ensures HorizontalSpeedAtLeast(v, minSpeed) <==> m >= minSpeed
  {
    if minSpeed > 0.0 {
      SquareMonotone(minSpeed, m);
    }
  }

  /** A longer charge never gives a shorter dash. */
  lemma DashBudgetMonotone(cfg: Config, c1: real, c2: real)
    requires cfg.maxChargeTime > 0.0 && cfg.minDashDistance <= cfg.maxDashDistance
    requires c1 <= c2
    ensures DashBudget(cfg, c1) <= DashBudget(cfg, c2)
  {
    RatioMonotone(c1, c2, cfg.maxChargeTime);
    LerpMonotone(cfg.minDashDistance, cfg.maxDashDistance, c1 / cfg.maxChargeTime, c2 / cfg.maxChargeTime);
  }

  lemma RatioMonotone(x: real, y: real, d: real)
    requires d > 0.0 && x <= y
    ensures x / d <= y / d
  {
    var q := y / d - x / d;
    assert q * d == y - x;
    if q < 0.0 {
      PositiveProduct(-q, d);
    }
  }

  /** One frame's reading and the gate's answers for one hand. */
  datatype FrameInput = FrameInput(input: HandInput, gates: GateAnswers)

  /** The state of one hand after a run of frames. */
  function Run(cfg: Config, h: HandState, frames: seq<FrameInput>, dt: real): HandState
    requires dt > 0.0 && cfg.maxChargeTime != 0.0
    decreases |frames|
  {
    if frames == [] then h
    else Run(cfg, FrameSpec(cfg, h, frames[0].input, frames[0].gates, dt), frames[1..], dt)
  }

  /** Running a prefix of k + 1 frames is one frame followed by k more. */
  lemma RunPrefix(cfg: Config, h: HandState, frames: seq<FrameInput>, dt: real, k: nat)
    requires dt > 0.0 && cfg.maxChargeTime != 0.0
    requires k < |frames|
    ensures Run(cfg, h, frames[..k + 1], dt) ==
            Run(cfg, FrameSpec(cfg, h, frames[0].input, frames[0].gates, dt), frames[1..][..k], dt)
  {
    assert frames[..k + 1][0] == frames[0];
    assert frames[..k + 1][1..] == frames[1..][..k];
  }

  /** The per-hand invariant (exclusive flags, bounded charge time,
      non-negative budget) holds along every run. */
  lemma {:induction false} RunKeepsHandOk(cfg: Config, h: HandState, frames: seq<FrameInput>, dt: real)
    requires dt > 0.0 && ConfigOk(cfg)
    requires HandOk(cfg, h)
    ensures HandOk(cfg, Run(cfg, h, frames, dt))
    decreases |frames|
  {
    if frames != [] {
      RunKeepsHandOk(cfg, FrameSpec(cfg, h, frames[0].input, frames[0].gates, dt), frames[1..], dt);
    }
  }

  /** One frame keeps the per-hand invariant and balances the locomotion
      gate: the hand holds it afterwards, or has just released it, exactly
      when it held it before or has just acquired it. */
  lemma FrameGateBalance(cfg: Config, h: HandState, input: HandInput, gates: GateAnswers, dt: real)
    requires dt > 0.0 && ConfigOk(cfg) && HandOk(cfg, h)
    ensures var s := HandleHandSpec(cfg, h, input, gates, dt);
            var m := MovementSpec(cfg, s.hand, dt);
            HandOk(cfg, m.hand) &&
            Holding(m.hand) + Flag(m.released) == Holding(h) + Acquisitions(s.started)
  {
    HandleHandGateAccounting(cfg, h, input, gates, dt);
  }

  /** The flags stay mutually exclusive along every run, whatever the
      tunables and whatever the inputs and gate answers. */
  lemma {:induction false} RunKeepsExclusion(cfg: Config, h: HandState, frames: seq<FrameInput>, dt: real)
    requires dt > 0.0 && cfg.maxChargeTime != 0.0
    requires AtMostOneGesture(h)
    ensures AtMostOneGesture(Run(cfg, h, frames, dt))
    decreases |frames|
  {
    if frames != [] {
      RunKeepsExclusion(cfg, FrameSpec(cfg, h, frames[0].input, frames[0].gates, dt), frames[1..], dt);
    }
  }

  /** A frame of a gesture under way: whatever the input, the gesture either
      ends or goes on with a full step less of budget. */
  lemma ActiveFrame(cfg: Config, h: HandState, f: FrameInput, dt: real)
    requires dt > 0.0 && cfg.maxChargeTime != 0.0
    requires AtMostOneGesture(h) && AnyMovementActive(h)
    ensures var h2 := FrameSpec(cfg, h, f.input, f.gates, dt);
            AtMostOneGesture(h2) &&
            (AnyMovementActive(h2) ==>
               h2.distanceRemaining == h.distanceRemaining - cfg.dashSpeed * dt &&
               h2.distanceRemaining > 0.01)
  {
    var h1 := HandleHandSpec(cfg, h, f.input, f.gates, dt).hand;
    assert h1.distanceRemaining == h.distanceRemaining;
    assert AnyMovementActive(h1);
  }

  /** Termination: with a positive step dashSpeed * dt, a gesture under way
      with budget d ends within any n >= 1 frames with n * step >= d, whatever
      the hand does meanwhile. */
  lemma {:induction false} GestureEndsWithin(cfg: Config, h: HandState, frames: seq<FrameInput>, dt: real)
    requires dt > 0.0 && cfg.maxChargeTime != 0.0
    requires AtMostOneGesture(h) && AnyMovementActive(h)
    requires cfg.dashSpeed * dt > 0.0 && h.distanceRemaining >= 0.0
    requires |frames| > 0 && Travel(|frames|, cfg.dashSpeed * dt) >= h.distanceRemaining
    ensures exists k :: 0 < k <= |frames| && !AnyMovementActive(Run(cfg, h, frames[..k], dt))
    decreases |frames|
  {
    var step := cfg.dashSpeed * dt;
    var h2 := FrameSpec(cfg, h, frames[0].input, frames[0].gates, dt);
    ActiveFrame(cfg, h, frames[0], dt);
    RunPrefix(cfg, h, frames, dt, 0);
    assert Run(cfg, h, frames[..1], dt) == h2;
    if AnyMovementActive(h2) {
      var n := |frames| - 1;
      TravelStep(n, step);
      assert Travel(n, step) >= h2.distanceRemaining > 0.0;
      assert n > 0;
      GestureEndsWithin(cfg, h2, frames[1..], dt);
      var k :| 0 < k <= n && !AnyMovementActive(Run(cfg, h2, frames[1..][..k], dt));
      RunPrefix(cfg, h, frames, dt, k);
      assert !AnyMovementActive(Run(cfg, h, frames[..k + 1], dt));
    }
  }

  /** The distance covered by n full steps. */
  function Travel(n: nat, step: real): real {
    n as real * step
  }

  lemma TravelStep(n: nat, step: real)
    ensures Travel(n + 1, step) == Travel(n, step) + step
    ensures n == 0 ==> Travel(n, step) == 0.0
    ensures step > 0.0 && Travel(n, step) > 0.0 ==> n > 0
  {
    if n == 0 {
      assert Travel(n, step) == 0.0 * step;
    }
  }

  /** The bound with the ceiling: a gesture that starts with budget d > 0 ends
      within ceil(d / (dashSpeed * dt)) frames. */
  lemma GestureEndsWithinCeil(cfg: Config, h: HandState, frames: seq<FrameInput>, dt: real)
    requires dt > 0.0 && cfg.maxChargeTime != 0.0
    requires AtMostOneGesture(h) && AnyMovementActive(h)
    requires cfg.dashSpeed * dt > 0.0 && h.distanceRemaining > 0.0
    requires |frames| == Ceil(h.distanceRemaining / (cfg.dashSpeed * dt))
    ensures exists k :: 0 < k <= |frames| && !AnyMovementActive(Run(cfg, h, frames[..k], dt))
  {
    var step := cfg.dashSpeed * dt;
    var d := h.distanceRemaining;
    var n := |frames|;
    var q := d / step;
    assert q * step == d;
    assert n as real >= q;
    ScaledMonotone(step, q, n as real);
    assert Travel(n, step) >= d by {
      calc {
        Travel(n, step);
      ==
        n as real * step;
      ==
        step * n as real;
      >=
        step * q;
      ==
        d;
      }
    }
    assert q > 0.0;
    GestureEndsWithin(cfg, h, frames, dt);
  }

  /** A stationary hand: every frame reads the position the hand was last at. */
  predicate Stationary(h: HandState, frames: seq<FrameInput>) {
    forall i :: 0 <= i < |frames| ==> frames[i].input.position == h.lastHandPosition
  }

  /** One frame of a stationary charging hand: the charge grows by dt, capped. */
  lemma StationaryChargingFrame(cfg: Config, h: HandState, f: FrameInput, dt: real)
    requires dt > 0.0 && cfg.maxChargeTime > 0.0 && cfg.minPunchSpeed > 0.0
    requires h.isCharging && AtMostOneGesture(h) && 0.0 <= h.chargeTime <= cfg.maxChargeTime
    requires f.input.position == h.lastHandPosition
    ensures FrameSpec(cfg, h, f.input, f.gates, dt) ==
            h.(chargeTime := Min(h.chargeTime + dt, cfg.maxChargeTime))
  {
    var h1 := h.(chargeTime := Min(h.chargeTime + dt, cfg.maxChargeTime));
    StationaryChargingHandled(cfg, h, f.input, f.gates, dt);
    assert !AnyMovementActive(h1);
  }

  /** HandleHand on a stationary charging hand only accumulates the charge. */
  lemma StationaryChargingHandled(cfg: Config, h: HandState, input: HandInput, gates: GateAnswers, dt: real)
    requires dt > 0.0 && cfg.maxChargeTime > 0.0 && cfg.minPunchSpeed > 0.0
    requires h.isCharging && AtMostOneGesture(h) && 0.0 <= h.chargeTime <= cfg.maxChargeTime
    requires input.position == h.lastHandPosition
    ensures HandleHandSpec(cfg, h, input, gates, dt) ==
            Handled(h.(chargeTime := Min(h.chargeTime + dt, cfg.maxChargeTime)), [])
  {
    var v := HandVelocity(input.position, h.lastHandPosition, dt);
    assert !HorizontalSpeedAtLeast(v, cfg.minPunchSpeed) by {
      StillHandVelocity(h.lastHandPosition, dt);
      StillHandIsSlow(cfg.minPunchSpeed);
    }
    SlowChargeStartsNothing(cfg, h, input, gates, v);
    var c := Min(h.chargeTime + dt, cfg.maxChargeTime);
    assert AccumulateCharge(cfg, h, dt) == h.(chargeTime := c);
    assert h.(chargeTime := c).(lastHandPosition := input.position) == h.(chargeTime := c);
  }

  /** A charging hand too slow to punch neither dashes nor starts anything else. */
  lemma SlowChargeStartsNothing(cfg: Config, h: HandState, input: HandInput, gates: GateAnswers, v: Vec3)
    requires cfg.maxChargeTime != 0.0 && h.isCharging
    requires !HorizontalSpeedAtLeast(v, cfg.minPunchSpeed)
    ensures var s1 := ChargeOrDash(cfg, h, input, gates, v);
            s1 == Handled(h, []) &&
            TryGroundSlam(cfg, TryUppercut(cfg, s1, input, gates, v), gates, v) == s1
  {
  }

  /** A hand that has not moved since the last frame has zero velocity. */
  lemma StillHandVelocity(p: Vec3, dt: real)
    requires dt > 0.0
    ensures HandVelocity(p, p, dt) == Zero
  {
    assert Sub(p, p) == Zero;
  }

  /** The first frame of a stationary charging run, and what remains of it. */
  lemma StationaryChargingStep(cfg: Config, h: HandState, frames: seq<FrameInput>, dt: real)
    requires dt > 0.0 && cfg.maxChargeTime > 0.0 && cfg.minPunchSpeed > 0.0
    requires h.isCharging && AtMostOneGesture(h) && 0.0 <= h.chargeTime <= cfg.maxChargeTime
    requires |frames| > 0 && Stationary(h, frames)
    ensures var h1 := h.(chargeTime := Min(h.chargeTime + dt, cfg.maxChargeTime));
            Run(cfg, h, frames, dt) == Run(cfg, h1, frames[1..], dt) && Stationary(h1, frames[1..])
  {
    var h1 := h.(chargeTime := Min(h.chargeTime + dt, cfg.maxChargeTime));
    StationaryChargingFrame(cfg, h, frames[0], dt);
    StationaryTail(h, h1, frames);
  }

  /** The charge after a stationary run, from the charge after its first frame. */
  lemma ChargeCarries(cfg: Config, h: HandState, frames: seq<FrameInput>, dt: real)
    requires dt > 0.0 && cfg.maxChargeTime > 0.0 && |frames| > 0
    requires var h1 := h.(chargeTime := Min(h.chargeTime + dt, cfg.maxChargeTime));
             Run(cfg, h, frames, dt) == Run(cfg, h1, frames[1..], dt) &&
             Run(cfg, h1, frames[1..], dt) ==
               h1.(chargeTime := Min(h1.chargeTime + Travel(|frames| - 1, dt), cfg.maxChargeTime))
    ensures Run(cfg, h, frames, dt) ==
            h.(chargeTime := Min(h.chargeTime + Travel(|frames|, dt), cfg.maxChargeTime))
  {
    var n := |frames| - 1;
    TravelStep(n, dt);
    TravelNonNegative(n, dt);
    MinCarry(h.chargeTime, dt, Travel(n, dt), cfg.maxChargeTime);
  }

  lemma StationaryTail(h: HandState, h1: HandState, frames: seq<FrameInput>)
    requires |frames| > 0 && Stationary(h, frames)
    requires h1.lastHandPosition == h.lastHandPosition
    ensures Stationary(h1, frames[1..])
  {
    forall i | 0 <= i < |frames| - 1 ensures frames[1..][i].input.position == h1.lastHandPosition {
      assert frames[1..][i] == frames[i + 1];
    }
  }

  lemma TravelNonNegative(n: nat, step: real)
    requires step >= 0.0
    ensures Travel(n, step) >= 0.0
  {
    ScaledMonotone(step, 0.0, n as real);
    calc {
      Travel(n, step);
    ==
      step * n as real;
    >=
      step * 0.0;
    }
  }

  /** While a stationary hand charges, the charge time grows by dt per frame
      up to maxChargeTime and nothing else changes, whatever the buttons do. */
  lemma {:induction false} ChargeAccumulates(cfg: Config, h: HandState, frames: seq<FrameInput>, dt: real)
    requires dt > 0.0 && cfg.maxChargeTime > 0.0 && cfg.minPunchSpeed > 0.0
    requires h.isCharging && AtMostOneGesture(h) && 0.0 <= h.chargeTime <= cfg.maxChargeTime
    requires Stationary(h, frames)
    ensures Run(cfg, h, frames, dt) ==
            h.(chargeTime := Min(h.chargeTime + Travel(|frames|, dt), cfg.maxChargeTime))
    decreases |frames|
  {
    if frames == [] {
      TravelStep(0, dt);
    } else {
      var h1 := h.(chargeTime := Min(h.chargeTime + dt, cfg.maxChargeTime));
      StationaryChargingStep(cfg, h, frames, dt);
      ChargeAccumulates(cfg, h1, frames[1..], dt);
      ChargeCarries(cfg, h, frames, dt);
    }
  }

  /** A hand at rest never passes a positive speed threshold. */
  lemma StillHandIsSlow(minSpeed: real)
    requires minSpeed > 0.0
    ensures !HorizontalSpeedAtLeast(Zero, minSpeed)
  {
    PositiveProduct(minSpeed, minSpeed);
    calc {
      HorizontalSqrSpeed(Zero);
    ==
      0.0;
    <
      minSpeed * minSpeed;
    }
  }

  lemma MinCarry(c: real, dt: real, rest: real, max: real)
    requires dt >= 0.0 && rest >= 0.0
    ensures Min(Min(c + dt, max) + rest, max) == Min(c + (rest + dt), max)
  {
  }

  /** From rest, holding grip and trigger on the first frame of a stationary
      run starts a charge worth min(n * dt, maxChargeTime) after n frames. */
  lemma ChargeFromRest(cfg: Config, h: HandState, frames: seq<FrameInput>, dt: real)
    requires dt > 0.0 && cfg.maxChargeTime > 0.0 && cfg.minPunchSpeed > 0.0
    requires NoGesture(h) && |frames| > 0 && Stationary(h, frames)
    requires IsPressed(frames[0].input.gripBound, frames[0].input.gripValue)
    requires IsPressed(frames[0].input.triggerBound, frames[0].input.triggerValue)
    ensures Run(cfg, h, frames, dt).isCharging
    ensures Run(cfg, h, frames, dt).chargeTime == Min(Travel(|frames|, dt), cfg.maxChargeTime)
  {
    var f := frames[0];
    var r := HandleHandSpec(cfg, h, f.input, f.gates, dt);
    assert r.started == [Charging];
    var h1 := FrameSpec(cfg, h, f.input, f.gates, dt);
    assert h1 == r.hand;
    assert h1.isCharging && h1.chargeTime == Min(dt, cfg.maxChargeTime);
    StationaryTail(h, h1, frames);
    ChargeAccumulates(cfg, h1, frames[1..], dt);
    var n := |frames| - 1;
    TravelStep(n, dt);
    TravelNonNegative(n, dt);
    MinCarry(0.0, dt, Travel(n, dt), cfg.maxChargeTime);
  }

  /** After a gesture ends, the reset hand can start a new one on the very
      next frame: both buttons held start a charge. */
  lemma RestartAfterRelease(cfg: Config, h: HandState, dt: real, input: HandInput, gates: GateAnswers, dt2: real)
    requires dt2 > 0.0 && cfg.maxChargeTime != 0.0
    requires MovementSpec(cfg, h, dt).released
    requires IsPressed(input.gripBound, input.gripValue) && IsPressed(input.triggerBound, input.triggerValue)
    ensures HandleHandSpec(cfg, MovementSpec(cfg, h, dt).hand, input, gates, dt2).started == [Charging]
  {
  }
}
