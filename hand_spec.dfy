/** The per-hand gesture state machine of DoomfistDash, as functions on values.
    Each function specifies one method of the controller (module DoomDash) and
    states in its ensures what that step promises on its own; properties that
    relate several frames are lemmas in module HandProperties. */
module HandSpec {
  import opened Mathf

  /** The controller's tunables, in the source's order of declaration. */
  datatype Config = Config(
    maxDashDistance: real,
    minDashDistance: real,
    maxChargeTime: real,
    dashSpeed: real,
    minPunchSpeed: real,
    blendFactor: real,
    maxUpperCutDistance: real,
    upperCutSpeedThreshold: real,
    slamSpeedThreshold: real,
    maxSlamDistance: real)

  /** The values the component is declared with. */
  const DefaultConfig := Config(50.0, 5.0, 3.0, 25.0, 5.0, 0.7, 20.0, 5.0, 5.0, 20.0)

  /** Tunables under which every budget is a non-negative distance and the
      charge ratio is defined: the source does not check these, it expects them. */
  predicate ConfigOk(cfg: Config) {
    cfg.maxChargeTime > 0.0 &&
    cfg.minDashDistance >= 0.0 && cfg.maxDashDistance >= 0.0 &&
    cfg.maxUpperCutDistance >= 0.0 &&
    cfg.maxSlamDistance >= 0.0
  }

  /** The declared values meet those expectations. */
  lemma DefaultConfigOk()
    ensures ConfigOk(DefaultConfig)
  {
  }

  /** The HandState struct, one per hand. */
  datatype HandState = HandState(
    isCharging: bool,
    isDashing: bool,
    isUppercutting: bool,
    isGroundSlamming: bool,
    chargeTime: real,
    lastHandPosition: Vec3,
    moveDirection: Vec3,
    distanceRemaining: real)

  /** The struct's default value after Start() has captured the hand position. */
  function InitialHandState(position: Vec3): (h: HandState)
    ensures NoGesture(h) && h.chargeTime == 0.0 && h.distanceRemaining == 0.0
    ensures h.lastHandPosition == position
  {
    HandState(false, false, false, false, 0.0, position, Zero, 0.0)
  }

  /** The four gestures, one per flag of HandState. */
  datatype Gesture = Charging | Dashing | Uppercutting | GroundSlamming

  /** One frame's reading of a hand: whether each action is bound and its
      analog value, the hand's local position, and the normalised directions
      the engine derives from the headset and the hand velocity. */
  datatype HandInput = HandInput(
    gripBound: bool,
    gripValue: real,
    triggerBound: bool,
    triggerValue: real,
    position: Vec3,
    dashDirection: Vec3,
    uppercutDirection: Vec3)

  /** What the locomotion gate answers if asked at each call site this frame. */
  datatype GateAnswers = GateAnswers(dash: bool, uppercut: bool, groundSlam: bool)

  /** The outcome of one HandleHand call: the new state and the gestures
      started, in order (each start also plays that gesture's sound). */
  datatype Handled = Handled(hand: HandState, started: seq<Gesture>)

  /** The outcome of one Movement call: this frame's displacement, the new
      state, and whether the gate was released. */
  datatype Moved = Moved(movement: Vec3, hand: HandState, released: bool)

  /** A button reads as pressed when its action is bound and its value exceeds 0.5. */
  predicate IsPressed(bound: bool, value: real) {
    bound && value > 0.5
  }

  predicate AnyMovementActive(h: HandState) {
    h.isDashing || h.isUppercutting || h.isGroundSlamming
  }

  predicate NoGesture(h: HandState) {
    !h.isCharging && !AnyMovementActive(h)
  }

  predicate HasGesture(h: HandState, g: Gesture) {
    match g
    case Charging => h.isCharging
    case Dashing => h.isDashing
    case Uppercutting => h.isUppercutting
    case GroundSlamming => h.isGroundSlamming
  }

  function Flag(b: bool): nat {
    if b then 1 else 0
  }

  /** The mutual-exclusion invariant on the four flags. */
  predicate AtMostOneGesture(h: HandState) {
    Flag(h.isCharging) + Flag(h.isDashing) + Flag(h.isUppercutting) + Flag(h.isGroundSlamming) <= 1
  }

  /** The per-hand invariant: exclusive flags, a charge time within
      [0, maxChargeTime] and a budget that is never negative. */
  predicate HandOk(cfg: Config, h: HandState) {
    AtMostOneGesture(h) &&
    0.0 <= h.chargeTime <= cfg.maxChargeTime &&
    h.distanceRemaining >= 0.0
  }

  /** Whether a gesture needs the locomotion gate to start (charging does not). */
  predicate Gated(g: Gesture) {
    g != Charging
  }

  predicate GateAllows(gates: GateAnswers, g: Gesture) {
    match g
    case Charging => true
    case Dashing => gates.dash
    case Uppercutting => gates.uppercut
    case GroundSlamming => gates.groundSlam
  }

  /** 1 while the hand holds the locomotion gate, i.e. while it moves. */
  function Holding(h: HandState): nat {
    Flag(AnyMovementActive(h))
  }

  /** The number of gate acquisitions in a log of started gestures. */
  function Acquisitions(started: seq<Gesture>): nat {
    if started == [] then 0 else Flag(Gated(started[0])) + Acquisitions(started[1..])
  }

  /** The discrete derivative of the hand position over one frame. */
  function HandVelocity(position: Vec3, lastPosition: Vec3, dt: real): Vec3
    requires dt != 0.0
  {
    Divide(Sub(position, lastPosition), dt)
  }

  /** The horizontal speed test `Vector2(v.x, v.z).magnitude >= minSpeed`,
      stated without the square root (lemma HandProperties.HorizontalSpeedIsMagnitude). */
  predicate HorizontalSpeedAtLeast(v: Vec3, minSpeed: real) {
    minSpeed <= 0.0 || HorizontalSqrSpeed(v) >= minSpeed * minSpeed
  }

  /** The squared speed in the horizontal (x, z) plane. */
  function HorizontalSqrSpeed(v: Vec3): real {
    v.x * v.x + v.z * v.z
  }

  /** The dash distance for a charge: Lerp from the minimum to the maximum
      distance by the fraction of the maximum charge time. */
  function DashBudget(cfg: Config, chargeTime: real): (r: real)
    requires cfg.maxChargeTime != 0.0
    ensures chargeTime == 0.0 ==> r == cfg.minDashDistance
    ensures chargeTime == cfg.maxChargeTime ==> r == cfg.maxDashDistance
    ensures cfg.minDashDistance <= cfg.maxDashDistance ==>
              cfg.minDashDistance <= r <= cfg.maxDashDistance
    ensures cfg.maxDashDistance <= cfg.minDashDistance ==>
              cfg.maxDashDistance <= r <= cfg.minDashDistance
  {
    Lerp(cfg.minDashDistance, cfg.maxDashDistance, chargeTime / cfg.maxChargeTime)
  }

  /** StartCharging: charging begins with a zero charge; nothing else changes. */
  function StartChargingSpec(h: HandState): (r: HandState)
    ensures r.isCharging && r.chargeTime == 0.0
    ensures NoGesture(h) ==> AtMostOneGesture(r) && !AnyMovementActive(r)
    ensures r.(isCharging := h.isCharging, chargeTime := h.chargeTime) == h
  {
    h.(isCharging := true, chargeTime := 0.0)
  }

  /** StartDash: a refused gate leaves the hand as it was (still charging);
      a granted one turns charging into a dash with the charge's budget. */
  function StartDashSpec(cfg: Config, h: HandState, direction: Vec3, granted: bool): (r: HandState)
    requires cfg.maxChargeTime != 0.0
    ensures !granted ==> r == h
    ensures granted ==> r.isDashing && !r.isCharging && r.moveDirection == direction
    ensures granted ==> r.distanceRemaining == DashBudget(cfg, h.chargeTime)
    ensures r.(isCharging := h.isCharging, isDashing := h.isDashing,
               moveDirection := h.moveDirection, distanceRemaining := h.distanceRemaining) == h
    ensures AtMostOneGesture(h) && h.isCharging ==> AtMostOneGesture(r)
  {
    if !granted then h
    else
      h.(isCharging := false, isDashing := true, moveDirection := direction,
         distanceRemaining := DashBudget(cfg, h.chargeTime))
  }

  /** StartUppercut: a refused gate changes nothing; a granted one sets the
      uppercut alone with the fixed uppercut distance. */
  function StartUppercutSpec(cfg: Config, h: HandState, direction: Vec3, granted: bool): (r: HandState)
    ensures !granted ==> r == h
    ensures granted ==> r.isUppercutting && !r.isCharging && !r.isDashing
    ensures granted ==> r.moveDirection == direction && r.distanceRemaining == cfg.maxUpperCutDistance
    ensures r.isGroundSlamming == h.isGroundSlamming
    ensures r.chargeTime == h.chargeTime && r.lastHandPosition == h.lastHandPosition
    ensures NoGesture(h) ==> AtMostOneGesture(r)
  {
    if !granted then h
    else
      h.(isCharging := false, isDashing := false, isUppercutting := true,
         moveDirection := direction, distanceRemaining := cfg.maxUpperCutDistance)
  }

  /** StartGroundSlam: a refused gate changes nothing; a granted one sets the
      slam alone, straight down, with the fixed slam distance. */
  function StartGroundSlamSpec(cfg: Config, h: HandState, granted: bool): (r: HandState)
    ensures !granted ==> r == h
    ensures granted ==> r.isGroundSlamming && !r.isCharging && !r.isDashing && !r.isUppercutting
    ensures granted ==> r.moveDirection == Down && r.distanceRemaining == cfg.maxSlamDistance
    ensures r.chargeTime == h.chargeTime && r.lastHandPosition == h.lastHandPosition
    ensures granted ==> AtMostOneGesture(r)
  {
    if !granted then h
    else
      h.(isCharging := false, isDashing := false, isUppercutting := false,
         isGroundSlamming := true, moveDirection := Down, distanceRemaining := cfg.maxSlamDistance)
  }

  /** ResetHandState: every flag cleared and the budget zeroed; the charge
      time, direction and last position are kept. */
  function ResetHandStateSpec(h: HandState): (r: HandState)
    ensures NoGesture(r) && r.distanceRemaining == 0.0
    ensures r.chargeTime == h.chargeTime && r.moveDirection == h.moveDirection
    ensures r.lastHandPosition == h.lastHandPosition
  {
    h.(isDashing := false, isUppercutting := false, isGroundSlamming := false,
       isCharging := false, distanceRemaining := 0.0)
  }

  /** The charge/dash stage of HandleHand: start charging, or else try to dash. */
  function ChargeOrDash(cfg: Config, h: HandState, input: HandInput, gates: GateAnswers, v: Vec3): Handled
    requires cfg.maxChargeTime != 0.0
  {
    if IsPressed(input.gripBound, input.gripValue) && IsPressed(input.triggerBound, input.triggerValue)
       && !h.isCharging && !AnyMovementActive(h)
    then Handled(StartChargingSpec(h), [Charging])
    else if h.isCharging && HorizontalSpeedAtLeast(v, cfg.minPunchSpeed)
    then Handled(StartDashSpec(cfg, h, input.dashDirection, gates.dash), if gates.dash then [Dashing] else [])
    else Handled(h, [])
  }

  /** The uppercut stage: tried only when no gesture at all is active. */
  function TryUppercut(cfg: Config, s: Handled, input: HandInput, gates: GateAnswers, v: Vec3): Handled {
    if NoGesture(s.hand) && v.y >= cfg.upperCutSpeedThreshold
    then Handled(StartUppercutSpec(cfg, s.hand, input.uppercutDirection, gates.uppercut),
                 s.started + if gates.uppercut then [Uppercutting] else [])
    else s
  }

  /** The ground-slam stage: tried only when no gesture at all is active. */
  function TryGroundSlam(cfg: Config, s: Handled, gates: GateAnswers, v: Vec3): Handled {
    if NoGesture(s.hand) && v.y <= -cfg.slamSpeedThreshold
    then Handled(StartGroundSlamSpec(cfg, s.hand, gates.groundSlam),
                 s.started + if gates.groundSlam then [GroundSlamming] else [])
    else s
  }

  /** The charge accumulation stage: while charging, add the frame time and clamp. */
  function AccumulateCharge(cfg: Config, h: HandState, dt: real): HandState {
    if h.isCharging then h.(chargeTime := Clamp(h.chargeTime + dt, 0.0, cfg.maxChargeTime)) else h
  }

  /** HandleHand: one frame of the gesture classifier for one hand. The
      gestures it starts, and what each start sets up, are stated by the
      lemmas HandleHandTriggers, HandleHandStartEffects and
      HandleHandGateAccounting below. */
  function HandleHandSpec(cfg: Config, h: HandState, input: HandInput, gates: GateAnswers, dt: real): (r: Handled)
    requires dt > 0.0 && cfg.maxChargeTime != 0.0
    // the flags stay mutually exclusive, and at most one gesture starts per frame
    ensures AtMostOneGesture(h) ==> AtMostOneGesture(r.hand)
    ensures |r.started| <= 1
    // a charge that is not turned into a dash goes on
    ensures h.isCharging && !gates.dash ==> r.hand.isCharging
    // the charge time stays within [0, maxChargeTime]
    ensures cfg.maxChargeTime > 0.0 && (r.hand.isCharging || 0.0 <= h.chargeTime <= cfg.maxChargeTime) ==>
              0.0 <= r.hand.chargeTime <= cfg.maxChargeTime
    // a gesture already under way is left alone
    ensures AtMostOneGesture(h) && AnyMovementActive(h) ==>
              r == Handled(h.(lastHandPosition := input.position), [])
    // a charge goes on accumulating
    ensures h.isCharging && r.hand.isCharging ==>
              r.hand == h.(chargeTime := Clamp(h.chargeTime + dt, 0.0, cfg.maxChargeTime),
                           lastHandPosition := input.position)
    // a hand at rest that starts nothing is left alone except for its position
    ensures NoGesture(h) && r.started == [] ==> r.hand == h.(lastHandPosition := input.position)
    // the position is always recorded
    ensures r.hand.lastHandPosition == input.position
    ensures ConfigOk(cfg) && HandOk(cfg, h) ==> HandOk(cfg, r.hand)
  {
    var v := HandVelocity(input.position, h.lastHandPosition, dt);
    var s1 := ChargeOrDash(cfg, h, input, gates, v);
    var s2 := TryUppercut(cfg, s1, input, gates, v);
    var s3 := TryGroundSlam(cfg, s2, gates, v);
    var h4 := AccumulateCharge(cfg, s3.hand, dt);
    Handled(h4.(lastHandPosition := input.position), s3.started)
  }

  /** The trigger condition of each gesture, in both directions: charging
      needs both buttons on an idle hand; a dash needs a fast enough
      horizontal punch while charging and the gate; an uppercut or a slam
      needs an idle hand whose buttons are not both held, the vertical speed
      and the gate, and a slam also needs no uppercut to have started. */
  lemma HandleHandTriggers(cfg: Config, h: HandState, input: HandInput, gates: GateAnswers, dt: real)
    requires dt > 0.0 && cfg.maxChargeTime != 0.0
    ensures var r := HandleHandSpec(cfg, h, input, gates, dt);
            var grab := IsPressed(input.gripBound, input.gripValue);
            var trigger := IsPressed(input.triggerBound, input.triggerValue);
            var v := HandVelocity(input.position, h.lastHandPosition, dt);
            (Charging in r.started <==> grab && trigger && !h.isCharging && !AnyMovementActive(h)) &&
            (Dashing in r.started <==> h.isCharging && HorizontalSpeedAtLeast(v, cfg.minPunchSpeed) && gates.dash) &&
            (Uppercutting in r.started <==>
               NoGesture(h) && !(grab && trigger) && v.y >= cfg.upperCutSpeedThreshold && gates.uppercut) &&
            (GroundSlamming in r.started <==>
               NoGesture(h) && !(grab && trigger) && !(v.y >= cfg.upperCutSpeedThreshold && gates.uppercut) &&
               v.y <= -cfg.slamSpeedThreshold && gates.groundSlam)
  {
  }

  /** A flag turns on only through its logged start, and a gated start only
      with the gate's consent. */
  lemma HandleHandStartsLogged(cfg: Config, h: HandState, input: HandInput, gates: GateAnswers, dt: real)
    requires dt > 0.0 && cfg.maxChargeTime != 0.0
    ensures var r := HandleHandSpec(cfg, h, input, gates, dt);
            (forall g :: HasGesture(r.hand, g) && !HasGesture(h, g) ==> r.started == [g]) &&
            (forall g :: g in r.started ==> HasGesture(r.hand, g) && GateAllows(gates, g))
  {
  }

  /** Each start sets up its own budget and direction; a fresh charge has
      run for one clamped frame. */
  lemma HandleHandStartEffects(cfg: Config, h: HandState, input: HandInput, gates: GateAnswers, dt: real)
    requires dt > 0.0 && cfg.maxChargeTime != 0.0
    ensures var r := HandleHandSpec(cfg, h, input, gates, dt);
            (Charging in r.started ==> r.hand.chargeTime == Clamp(dt, 0.0, cfg.maxChargeTime)) &&
            (Dashing in r.started ==>
               r.hand.distanceRemaining == DashBudget(cfg, h.chargeTime) && r.hand.moveDirection == input.dashDirection) &&
            (Uppercutting in r.started ==>
               r.hand.distanceRemaining == cfg.maxUpperCutDistance && r.hand.moveDirection == input.uppercutDirection) &&
            (GroundSlamming in r.started ==>
               r.hand.distanceRemaining == cfg.maxSlamDistance && r.hand.moveDirection == Down)
    // what each start leaves alone: a charge keeps the direction and budget,
    // a gated start keeps the charge time
    ensures var r := HandleHandSpec(cfg, h, input, gates, dt);
            (Charging in r.started ==>
               r.hand.moveDirection == h.moveDirection && r.hand.distanceRemaining == h.distanceRemaining) &&
            (forall g :: g in r.started && Gated(g) ==> r.hand.chargeTime == h.chargeTime)
  {
  }

  /** The hand holds the locomotion gate after the frame exactly when it held
      it before or has just acquired it. */
  lemma HandleHandGateAccounting(cfg: Config, h: HandState, input: HandInput, gates: GateAnswers, dt: real)
    requires dt > 0.0 && cfg.maxChargeTime != 0.0 && AtMostOneGesture(h)
    ensures var r := HandleHandSpec(cfg, h, input, gates, dt);
            Holding(r.hand) == Holding(h) + Acquisitions(r.started)
  {
  }

  /** Movement: one frame of travel for an active gesture, a capped step off
      the budget; once at most 0.01 remains the gate is released and the
      hand reset. Without dash, uppercut or slam (charging alone included)
      nothing moves and nothing changes. */
  function MovementSpec(cfg: Config, h: HandState, dt: real): (r: Moved)
    ensures !AnyMovementActive(h) ==> r == Moved(Zero, h, false)
    ensures AnyMovementActive(h) ==>
              r.movement == Scale(h.moveDirection, Min(cfg.dashSpeed * dt, h.distanceRemaining))
    // the gate is released exactly when the budget runs out
    ensures r.released <==>
              AnyMovementActive(h) && h.distanceRemaining - Min(cfg.dashSpeed * dt, h.distanceRemaining) <= 0.01
    ensures r.released ==> r.hand == ResetHandStateSpec(h)
    ensures AnyMovementActive(h) && !r.released ==>
              r.hand == h.(distanceRemaining := h.distanceRemaining - Min(cfg.dashSpeed * dt, h.distanceRemaining))
    // the budget never grows and never goes negative
    ensures cfg.dashSpeed * dt >= 0.0 && h.distanceRemaining >= 0.0 ==>
              0.0 <= r.hand.distanceRemaining <= h.distanceRemaining
    // a gesture that goes on has travelled a full step
    ensures AnyMovementActive(r.hand) ==>
              r.hand.distanceRemaining == h.distanceRemaining - cfg.dashSpeed * dt
    ensures AtMostOneGesture(h) ==> AtMostOneGesture(r.hand)
    ensures HandOk(cfg, h) ==> HandOk(cfg, r.hand)
    ensures Holding(r.hand) + Flag(r.released) == Holding(h)
  {
    if !AnyMovementActive(h) then Moved(Zero, h, false)
    else
      var step := cfg.dashSpeed * dt;
      var moveStep := Min(step, h.distanceRemaining);
      var movement := Scale(h.moveDirection, moveStep);
      var h1 := h.(distanceRemaining := h.distanceRemaining - moveStep);
      if h1.distanceRemaining <= 0.01 then Moved(movement, ResetHandStateSpec(h1), true)
      else Moved(movement, h1, false)
  }

  /** One frame of one hand: HandleHand, then Movement. */
  function FrameSpec(cfg: Config, h: HandState, input: HandInput, gates: GateAnswers, dt: real): HandState
    requires dt > 0.0 && cfg.maxChargeTime != 0.0
  {
    MovementSpec(cfg, HandleHandSpec(cfg, h, input, gates, dt).hand, dt).hand
  }
}
