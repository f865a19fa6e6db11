# DoomfistDash hand-gesture state machine, in Dafny

This project models the core of `DoomfistDash`, a Unity XR locomotion
provider that turns hand punches into movement. Each hand has a `HandState`
with four gesture flags (charging, dashing, uppercutting, ground-slamming), a
charge time, the last hand position, a move direction and a remaining
distance budget. Every frame, `HandleHand` runs a fixed order of guarded
transitions for each hand:

1. start charging;
2. or else commit a charged dash;
3. start an uppercut;
4. start a ground slam;
5. accumulate the charge time;
6. record the hand position.

Then `Movement` spends a capped step of the active gesture's budget. When the
budget falls to 0.01 or below, it releases the locomotion gate and resets the
hand. `Update` does this for both hands and applies the summed displacement.

Layout:

- `mathf.dfy` (module `Mathf`): the parts of Unity's `Vector3` and `Mathf`
  that the controller uses (`Min`, `Clamp`, `Clamp01`, `Lerp`,
  `sqrMagnitude`, `zero`, `down`), over real numbers.
- `hand_spec.dfy` (module `HandSpec`): the `HandState` and configuration
  datatypes and one specification function per operation. Each function's
  ensures clauses state what that one step promises. The predicate
  `AnyMovementActive` is the source's helper of the same name.
- `hand_properties.dfy` (module `HandProperties`): lemmas over several
  frames. A run of frames is `Run`, which does `HandleHand` then `Movement`
  once per frame. The lemmas cover the per-hand invariant along any run,
  termination of a gesture within ceil(d / (dashSpeed * dt)) frames, charge
  accumulation, the horizontal speed test and the dash budget's
  monotonicity.
- `doom_dash.dfy` (module `DoomDash`): the class `DoomfistDash`. Its methods
  update a `HandState` step by step as the C# code does, and each one is
  proved equal to its specification function. A C# `ref HandState` parameter
  becomes an in-parameter plus an out-parameter of the same type. A C#
  `ref` is an alias, not a copy; the two agree here because no callee reads
  or writes `leftHandState` or `rightHandState` except through its `ref`
  parameter. They would differ only if a callee threw part-way through an
  update, which the model does not represent.
  `Update` assigns the two hand-state fields. Ghost counters record the
  gate's grants and releases, and `Valid()` proves every grant is released
  exactly once: the grant count equals the release count plus the number of
  hands currently moving.

A button counts as pressed when its value is strictly greater than 0.5
(`DoomDashProvider.cs:85-86`).

## Model

| member | source | states |
|---|---|---|
| `Mathf.Clamp` | Assets/My/DoomDashProvider.cs:107 | Mathf.Clamp with Unity's test order: the result lies in [min, max] when min <= max, and a value already in range is returned unchanged |
| `Mathf.Lerp` | Assets/My/DoomDashProvider.cs:134 | Mathf.Lerp with t clamped to [0, 1]: the result lies between the endpoints, equals a for t <= 0 and b for t >= 1 |
| `Mathf.LerpMonotone` | Assets/My/DoomDashProvider.cs:134 | Lerp is non-decreasing in t when a <= b |
| `Mathf.Min` | Assets/My/DoomDashProvider.cs:175 | Mathf.Min is at most both arguments and is one of them |
| `Mathf.SqrMagnitude` | Assets/My/DoomDashProvider.cs:78 | the squared length is never negative and is zero for the zero vector |
| `HandSpec.InitialHandState` | Assets/My/DoomDashProvider.cs:60-69 | a hand starts with no gesture, zero charge and zero budget, at the position Start captured |
| `HandSpec.DefaultConfigOk` | Assets/My/DoomDashProvider.cs:23-36 | the inspector defaults satisfy the tunables' expectations (positive maxChargeTime, non-negative distances) |
| `HandSpec.DashBudget` | Assets/My/DoomDashProvider.cs:134 | the dash budget is minDashDistance at zero charge and maxDashDistance at full charge, and otherwise lies between them |
| `HandSpec.StartChargingSpec` | Assets/My/DoomDashProvider.cs:118-123 | charging begins with a zero charge time and nothing else changes; from rest the flags stay exclusive |
| `HandSpec.StartDashSpec` | Assets/My/DoomDashProvider.cs:125-140 | a denied gate leaves the hand unchanged, so it is still charging; a granted one turns charging into a dash with the charge's budget and the given direction; exclusion is kept |
| `HandSpec.StartUppercutSpec` | Assets/My/DoomDashProvider.cs:142-153 | a denied gate changes nothing; a granted one sets only the uppercut, with maxUpperCutDistance and the given direction; the charge time and position are kept |
| `HandSpec.StartGroundSlamSpec` | Assets/My/DoomDashProvider.cs:155-167 | a denied gate changes nothing; a granted one sets only the slam, straight down, with maxSlamDistance |
| `HandSpec.ResetHandStateSpec` | Assets/My/DoomDashProvider.cs:195-202 | every flag is cleared and the budget is zero; the charge time, direction and last position are untouched |
| `HandSpec.HandleHandSpec` | Assets/My/DoomDashProvider.cs:83-111 | exclusion is kept and at most one gesture starts per frame; a denied dash leaves charging on; the charge time stays in [0, maxChargeTime]; a moving hand is left alone except for its position; a charge that goes on gains dt, clamped; a resting hand that starts nothing changes only its recorded position; the position is always recorded; the per-hand invariant is kept |
| `HandSpec.HandleHandTriggers` | Assets/My/DoomDashProvider.cs:85-101 | each of the four gestures starts exactly when its guard holds and, for dash, uppercut and slam, the gate grants it (both directions of each condition) |
| `HandSpec.HandleHandStartsLogged` | Assets/My/DoomDashProvider.cs:89-101 | a flag turns on only through its logged start, and a gated start only with the gate's consent |
| `HandSpec.HandleHandStartEffects` | Assets/My/DoomDashProvider.cs:89-108 | a fresh charge is clamp(dt) on its first frame; a dash gets the charge's budget and the dash direction, an uppercut maxUpperCutDistance and its direction, a slam maxSlamDistance straight down; a dash, uppercut or slam start keeps the charge time, and a charge start keeps the direction and budget |
| `HandSpec.HandleHandGateAccounting` | Assets/My/DoomDashProvider.cs:83-111 | the hand holds the gate after the frame exactly when it held it before or has just acquired it |
| `HandSpec.MovementSpec` | Assets/My/DoomDashProvider.cs:170-193 | with no dash, uppercut or slam (charging alone included) it returns zero and changes nothing; otherwise it moves min(dashSpeed*dt, budget) along the direction; it releases the gate exactly when the budget falls to 0.01 or below and then resets; the budget never grows or goes negative; a gesture that goes on has spent a full step |
| `HandProperties.HorizontalSpeedIsMagnitude` | Assets/My/DoomDashProvider.cs:92 | the squared test in the model agrees with `Vector2(vx, vz).magnitude >= minPunchSpeed` |
| `HandProperties.DashBudgetMonotone` | Assets/My/DoomDashProvider.cs:134 | a longer charge never yields a shorter dash |
| `HandProperties.FrameGateBalance` | Assets/My/DoomDashProvider.cs:71-81 | one frame (HandleHand then Movement) keeps the per-hand invariant, and every gate grant of the frame is either still held or released by it |
| `HandProperties.RunKeepsHandOk` | Assets/My/DoomDashProvider.cs:71-81 | across any run of frames the flags stay exclusive, the charge time stays in [0, maxChargeTime] and the budget stays non-negative |
| `HandProperties.RunKeepsExclusion` | Assets/My/DoomDashProvider.cs:71-81 | under any tunables and any inputs, at most one gesture flag is ever true |
| `HandProperties.GestureEndsWithin` | Assets/My/DoomDashProvider.cs:170-193 | with a positive step, an active gesture with budget d ends within any n >= 1 frames where n * step >= d, whatever the hand does meanwhile |
| `HandProperties.GestureEndsWithinCeil` | Assets/My/DoomDashProvider.cs:170-193 | a gesture with budget d > 0 ends within ceil(d / (dashSpeed * dt)) frames |
| `HandProperties.ChargeAccumulates` | Assets/My/DoomDashProvider.cs:103-108 | a stationary charging hand gains dt of charge per frame up to maxChargeTime, and nothing else about it changes |
| `HandProperties.ChargeFromRest` | Assets/My/DoomDashProvider.cs:89-108 | from rest, holding grip and trigger gives a charge of min(n * dt, maxChargeTime) after n stationary frames, still charging |
| `HandProperties.RestartAfterRelease` | Assets/My/DoomDashProvider.cs:195-202 | after a gesture ends, holding both buttons starts a new charge on the very next frame |
| `DoomDash.DoomfistDash.constructor` | Assets/My/DoomDashProvider.cs:62-69 | both hands start at rest at their captured positions, and the invariant holds |
| `DoomDash.DoomfistDash.Update` | Assets/My/DoomDashProvider.cs:71-81 | each hand's new state is HandleHand then Movement of its own inputs; the displacement is the sum of the two hands' movements; Move is called exactly when its squared length exceeds 0.0001; the grant counter grows by each hand's starts of the frame and the decal counter by one for each hand whose ground slam ends while the prefab is assigned and the character is grounded; the invariant (exclusive flags, bounded charge, one release per grant) is kept |
| `DoomDash.DoomfistDash.HandleHand` | Assets/My/DoomDashProvider.cs:83-111 | the step-by-step guarded updates compute exactly HandleHandSpec |
| `DoomDash.DoomfistDash.StartCharging` | Assets/My/DoomDashProvider.cs:118-123 | computes exactly StartChargingSpec |
| `DoomDash.DoomfistDash.StartDash` | Assets/My/DoomDashProvider.cs:125-140 | the early return on a denied gate and the four assignments compute exactly StartDashSpec |
| `DoomDash.DoomfistDash.StartUppercut` | Assets/My/DoomDashProvider.cs:142-153 | computes exactly StartUppercutSpec |
| `DoomDash.DoomfistDash.StartGroundSlam` | Assets/My/DoomDashProvider.cs:155-167 | computes exactly StartGroundSlamSpec |
| `DoomDash.DoomfistDash.Movement` | Assets/My/DoomDashProvider.cs:170-193 | computes exactly MovementSpec; the decal is spawned exactly when a ground slam ends while the prefab is assigned and the character is grounded |
| `DoomDash.DoomfistDash.ResetHandState` | Assets/My/DoomDashProvider.cs:195-202 | computes exactly ResetHandStateSpec |

## Left out

- Floating point: every scalar is a real, so single-precision rounding is not modelled. The 0.5, 0.01 and 0.0001 constants are exact.
- `HandSpec.HandleHandSpec`, `HandSpec.DashBudget` and `HandSpec.StartDashSpec` require `maxChargeTime != 0`. In floats, a zero maximum makes `chargeTime / maxChargeTime` NaN, and a real division cannot express that.
- `HandSpec.HandleHandSpec` requires `dt > 0` because the hand velocity divides by `Time.deltaTime`. The frame time is a parameter, not a global read.
- Input: `InputActionReference.ReadValue` and the null checks are reduced to a bound flag and an analog value per action, in `HandInput`.
- Directions: the dash direction (normalised hand velocity blended with the headset's horizontal forward by `blendFactor_howMuchHeadsetDirection`) and the uppercut direction are square-root numerics. They arrive as ready-made vectors in `HandInput`. Only the slam's `Vector3.down` is computed in the model.
- Locomotion gate: the internals of `TryStartLocomotionImmediately` and `TryEndLocomotion` belong to the `LocomotionProvider` base class. Each call site's answer is an input (`GateAnswers`), and the calls are counted in ghost fields. The gate is one object shared by both hands. The model counts grants and releases per hand and does not model the gate's own state.
- Audio: `PlayOneShot` and `Stop` are not modelled. The `started` log returned by `HandleHand` marks the frames on which each start cue would play.
- Decal: the spawn position and rotation and `Instantiate` are not modelled. Only the decision to spawn is modelled.
- Physics: `CharacterController.Move` is represented by the returned displacement and the `moved` flag. `ApplyGravity` and `isGrounded` are not modelled beyond an input flag.
- Startup diagnostics: `Start()` only logs missing references. Its position capture is the constructor.
- `DoomDash.DoomfistDash.constructor`, `HandProperties.RunKeepsHandOk` and `HandProperties.FrameGateBalance` expect a positive `maxChargeTime` and non-negative distance tunables (`ConfigOk`). The source does not check these inspector values; the defaults meet them (`HandSpec.DefaultConfigOk`).
- `HandProperties.GestureEndsWithin`: the frame-count bound is proved for a fixed frame time `dt`, as the bound itself assumes.
- `HandProperties.ChargeAccumulates`: states the charge growth for a stationary hand. A moving hand may instead commit a dash, which `HandSpec.HandleHandSpec` covers.
