/** The DoomfistDash locomotion provider: two hands, each a HandState value
    that the per-frame methods update step by step. A C# `ref HandState`
    parameter becomes an in-parameter and an out-parameter of the same type;
    this agrees with the C# alias because no callee touches the hand-state
    fields except through that parameter. Every method is proved equal to its
    specification function in module HandSpec. The methods repeat those
    functions assignment by assignment on purpose: they are the imperative
    rendering of the C# code, and what they promise beyond that equality is
    proved once, about the functions, in HandSpec and HandProperties. */
module DoomDash {
  import opened Mathf
  import opened HandSpec
  import opened HandProperties

  class DoomfistDash {
    const config: Config
    /** Whether the groundSlamDecal prefab is assigned. */
    const hasGroundSlamDecal: bool

    var leftHandState: HandState
    var rightHandState: HandState

    /** Calls to TryStartLocomotionImmediately that the gate granted. */
    ghost var locomotionStarts: nat
    /** Calls to TryEndLocomotion. */
    ghost var locomotionEnds: nat
    /** Ground-slam decals instantiated. */
    ghost var decalsSpawned: nat

    /** Both hands keep the per-hand invariant, and the gate is held once for
        every hand that is moving: every grant is matched by exactly one
        release, made when that hand's gesture ends. */
    ghost predicate Valid()
      reads this
    {
      ConfigOk(config) &&
      HandOk(config, leftHandState) && HandOk(config, rightHandState) &&
      locomotionStarts == locomotionEnds + Holding(leftHandState) + Holding(rightHandState)
    }

    /** The component as Start() leaves it: default hand states that have
        captured the hands' positions. */
    constructor (config: Config, hasGroundSlamDecal: bool, leftPosition: Vec3, rightPosition: Vec3)
      requires ConfigOk(config)
      ensures Valid()
      ensures this.config == config && this.hasGroundSlamDecal == hasGroundSlamDecal
      ensures leftHandState == InitialHandState(leftPosition)
      ensures rightHandState == InitialHandState(rightPosition)
      ensures locomotionStarts == 0 && locomotionEnds == 0 && decalsSpawned == 0
    {
      this.config := config;
      this.hasGroundSlamDecal := hasGroundSlamDecal;
      leftHandState := InitialHandState(leftPosition);
      rightHandState := InitialHandState(rightPosition);
      locomotionStarts, locomotionEnds, decalsSpawned := 0, 0, 0;
    }

    /** One frame: classify both hands, then move both, sum the two
        displacements and hand the sum to the character controller when it is
        not negligible. */
    method Update(left: HandInput, right: HandInput, leftGates: GateAnswers, rightGates: GateAnswers,
                  dt: real, grounded: bool)
      returns (totalMove: Vec3, moved: bool)
      requires Valid() && dt > 0.0
      modifies this
      ensures Valid()
      ensures leftHandState == FrameSpec(config, old(leftHandState), left, leftGates, dt)
      ensures rightHandState == FrameSpec(config, old(rightHandState), right, rightGates, dt)
      ensures var l := HandleHandSpec(config, old(leftHandState), left, leftGates, dt).hand;
              var r := HandleHandSpec(config, old(rightHandState), right, rightGates, dt).hand;
              totalMove == Add(MovementSpec(config, l, dt).movement, MovementSpec(config, r, dt).movement) &&
              locomotionEnds == old(locomotionEnds) +
                Flag(MovementSpec(config, l, dt).released) + Flag(MovementSpec(config, r, dt).released)
      ensures var sl := HandleHandSpec(config, old(leftHandState), left, leftGates, dt);
              var sr := HandleHandSpec(config, old(rightHandState), right, rightGates, dt);
              locomotionStarts == old(locomotionStarts) + Acquisitions(sl.started) + Acquisitions(sr.started) &&
              decalsSpawned == old(decalsSpawned) +
                Flag(MovementSpec(config, sl.hand, dt).released && sl.hand.isGroundSlamming &&
                     hasGroundSlamDecal && grounded) +
                Flag(MovementSpec(config, sr.hand, dt).released && sr.hand.isGroundSlamming &&
                     hasGroundSlamDecal && grounded)
      ensures moved <==> SqrMagnitude(totalMove) > 0.0001
    {
      FrameGateBalance(config, leftHandState, left, leftGates, dt);
      FrameGateBalance(config, rightHandState, right, rightGates, dt);
      ghost var sl := HandleHandSpec(config, leftHandState, left, leftGates, dt);
      ghost var sr := HandleHandSpec(config, rightHandState, right, rightGates, dt);
      var startedLeft, startedRight;
      leftHandState, startedLeft := HandleHand(leftHandState, left, leftGates, dt);
      rightHandState, startedRight := HandleHand(rightHandState, right, rightGates, dt);
      assert leftHandState == sl.hand && startedLeft == sl.started;
      assert rightHandState == sr.hand && startedRight == sr.started;
      locomotionStarts := locomotionStarts + Acquisitions(startedLeft) + Acquisitions(startedRight);

      var leftMove, leftReleased, leftDecal;
      leftMove, leftHandState, leftReleased, leftDecal := Movement(leftHandState, dt, grounded);
      var rightMove, rightReleased, rightDecal;
      rightMove, rightHandState, rightReleased, rightDecal := Movement(rightHandState, dt, grounded);
      assert leftReleased == MovementSpec(config, sl.hand, dt).released;
      assert rightReleased == MovementSpec(config, sr.hand, dt).released;
      locomotionEnds := locomotionEnds + Flag(leftReleased) + Flag(rightReleased);
      decalsSpawned := decalsSpawned + Flag(leftDecal) + Flag(rightDecal);

      totalMove := Add(leftMove, rightMove);
      moved := SqrMagnitude(totalMove) > 0.0001;
    }

    /** One frame of the gesture classifier for one hand. */
    method HandleHand(h: HandState, input: HandInput, gates: GateAnswers, dt: real)
      returns (h': HandState, started: seq<Gesture>)
      requires dt > 0.0 && config.maxChargeTime != 0.0
      ensures Handled(h', started) == HandleHandSpec(config, h, input, gates, dt)
    {
      var grabPressed := IsPressed(input.gripBound, input.gripValue);
      var triggerPressed := IsPressed(input.triggerBound, input.triggerValue);
      var handVelocity := HandVelocity(input.position, h.lastHandPosition, dt);
      h', started := h, [];

      // charging and dash
      if grabPressed && triggerPressed && !h'.isCharging && !AnyMovementActive(h') {
        h' := StartCharging(h');
        started := started + [Charging];
      } else if h'.isCharging && HorizontalSpeedAtLeast(handVelocity, config.minPunchSpeed) {
        h' := StartDash(h', input.dashDirection, gates.dash);
        if gates.dash {
          started := started + [Dashing];
        }
      }
      assert Handled(h', started) == ChargeOrDash(config, h, input, gates, handVelocity);

      // uppercut
      ghost var s1 := Handled(h', started);
      if !h'.isUppercutting && !h'.isDashing && !h'.isCharging && !h'.isGroundSlamming
         && handVelocity.y >= config.upperCutSpeedThreshold {
        h' := StartUppercut(h', input.uppercutDirection, gates.uppercut);
        if gates.uppercut {
          started := started + [Uppercutting];
        }
      }
      assert Handled(h', started) == TryUppercut(config, s1, input, gates, handVelocity);

      // ground slam
      ghost var s2 := Handled(h', started);
      if !h'.isGroundSlamming && !h'.isCharging && !h'.isDashing && !h'.isUppercutting
         && handVelocity.y <= -config.slamSpeedThreshold {
        h' := StartGroundSlam(h', gates.groundSlam);
        if gates.groundSlam {
          started := started + [GroundSlamming];
        }
      }
      assert Handled(h', started) == TryGroundSlam(config, s2, gates, handVelocity);

      // charging time
      if h'.isCharging {
        h' := h'.(chargeTime := h'.chargeTime + dt);
        h' := h'.(chargeTime := Clamp(h'.chargeTime, 0.0, config.maxChargeTime));
      }

      h' := h'.(lastHandPosition := input.position);
    }

    method StartCharging(h: HandState) returns (h': HandState)
      ensures h' == StartChargingSpec(h)
    {
      h' := h;
      h' := h'.(isCharging := true);
      h' := h'.(chargeTime := 0.0);
    }

    /** `granted` is what TryStartLocomotionImmediately returns. */
    method StartDash(h: HandState, direction: Vec3, granted: bool) returns (h': HandState)
      requires config.maxChargeTime != 0.0
      ensures h' == StartDashSpec(config, h, direction, granted)
    {
      h' := h;
      if !granted {
        return;
      }
      h' := h'.(isCharging := false);
      h' := h'.(isDashing := true);
      h' := h'.(moveDirection := direction);
      h' := h'.(distanceRemaining :=
                  Lerp(config.minDashDistance, config.maxDashDistance, h'.chargeTime / config.maxChargeTime));
    }

    /** `granted` is what TryStartLocomotionImmediately returns. */
    method StartUppercut(h: HandState, direction: Vec3, granted: bool) returns (h': HandState)
      ensures h' == StartUppercutSpec(config, h, direction, granted)
    {
      h' := h;
      if !granted {
        return;
      }
      h' := h'.(isCharging := false);
      h' := h'.(isDashing := false);
      h' := h'.(isUppercutting := true);
      h' := h'.(moveDirection := direction);
      h' := h'.(distanceRemaining := config.maxUpperCutDistance);
    }

    /** `granted` is what TryStartLocomotionImmediately returns. */
    method StartGroundSlam(h: HandState, granted: bool) returns (h': HandState)
      ensures h' == StartGroundSlamSpec(config, h, granted)
    {
      h' := h;
      if !granted {
        return;
      }
      h' := h'.(isCharging := false);
      h' := h'.(isDashing := false);
      h' := h'.(isUppercutting := false);
      h' := h'.(isGroundSlamming := true);
      h' := h'.(moveDirection := Down);
      h' := h'.(distanceRemaining := config.maxSlamDistance);
    }

    /** This frame's displacement for one hand. `released` says whether
        TryEndLocomotion was called, `decalSpawned` whether the ground-slam
        decal was instantiated. */
    method Movement(h: HandState, dt: real, grounded: bool)
      returns (movement: Vec3, h': HandState, released: bool, decalSpawned: bool)
      ensures Moved(movement, h', released) == MovementSpec(config, h, dt)
      ensures decalSpawned <==> released && h.isGroundSlamming && hasGroundSlamDecal && grounded
    {
      h', released, decalSpawned := h, false, false;
      if !AnyMovementActive(h') {
        movement := Zero;
        return;
      }

      var step := config.dashSpeed * dt;
      var moveStep := Min(step, h'.distanceRemaining);
      movement := Scale(h'.moveDirection, moveStep);
      h' := h'.(distanceRemaining := h'.distanceRemaining - moveStep);

      if h'.distanceRemaining <= 0.01 {
        released := true;
        decalSpawned := h'.isGroundSlamming && hasGroundSlamDecal && grounded;
        h' := ResetHandState(h');
      }
    }

    method ResetHandState(h: HandState) returns (h': HandState)
      ensures h' == ResetHandStateSpec(h)
    {
      h' := h;
      h' := h'.(isDashing := false);
      h' := h'.(isUppercutting := false);
      h' := h'.(isGroundSlamming := false);
      h' := h'.(isCharging := false);
      h' := h'.(distanceRemaining := 0.0);
    }
  }
}
