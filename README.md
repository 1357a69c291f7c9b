# PositionDirection: the 3D map camera's state, in Dafny

This project models the camera-state controller of EDDiscovery's 3D map, the
C# class `PositionDirection`. The class keeps:

- the point the camera looks at (the view target), stored with Y inverted;
- the camera direction in degrees (X pitch, Y roll, Z yaw);
- the perspective/orthographic flag;
- two slew timers, each holding a progress, a duration and a goal. One carries
  the view target to a new position, the other the direction to a new
  direction, along a sine ease-in/ease-out curve.

Keyboard input turns and moves the camera once per frame tick. Callers can
also request position slews and direction pans.

The model has four modules:

- `Geometry`: vectors; the flip between the real-world frame and the internal
  frame; C#'s float remainder by 360; `BoundedAngle`; the pitch limit.
- `Slew`: one timer as a value. `Advance` is one frame tick and `Run` is a
  sequence of ticks. Convergence is proved for any tick sizes.
- `Keyboard`: the held action flags, the order in which the camera tests
  them, the rotation and the movement a tick asks for, and the step distance.
- `Camera`: the class `PositionDirection`. Its fields are those of the C#
  class and its methods change them in place. Each method's `ensures` ties
  the new state to the specification functions of the modules above. The
  module also holds `AzEl`, the quirky distance check and the projection
  parameters.

Floats are modelled as reals. Code the model cannot see is passed in as a
function-valued parameter:

- `ease`: the curve x ↦ sin((x − 0.5)π). `IsEasing` states the only facts the
  slew step relies on: the curve does not decrease on [0, 1], and it stays
  below 1 before x reaches 1.
- `sqrt`: `Math.Sqrt`.
- `polar`: the acos/atan pair of `AzEl`, in degrees.
- `rotate`: OpenTK's rotation of a camera-local vector by the direction.

NaN is modelled only as the documented "ignore this call" sentinel on X
(`VecArg.NaNX`). The Shift modifier is a boolean, and the `KeyboardActions`
object is a set of held `Action`s.

Behaviour kept as the code has it:

- `StartCameraSlew` computes its distance check with
  `(vt.Y − p.Y) * (−vt.Y − p.Y)` as the Y term. This radicand can be negative,
  and then its root is NaN and `NaN >= 1` is false. The model therefore reads
  the test as radicand ≥ 1.
  - `RadicandMisreadsY` gives the error exactly.
  - `RadicandExactIff` shows that the check equals the true squared distance
    only when the internal Y is 0 or unchanged.
  - `RadicandRejectsDistantTarget` gives a target 5 units away that is ignored.
- A request whose distance check is below 1 does nothing at all: it neither
  snaps nor slews.
- `StartCameraPan` with duration 0 turns at once. Its `0 → 1 second` default
  can never be reached.
- Of two opposing keys, the one tested later wins. The flags assign; they do
  not add up.
- `SetCameraPos` stores its argument raw while `Position` negates Y. Reading a
  position back gives the one set only when its Y is 0.

Where the class's own comments and its code part ways, the model follows
the code:

- The comments on the two progress fields (PositionDirection.cs:27 and :31)
  describe progress as running from 0 to 1. The code stores the overshooting
  progress of the completing tick, so an idle timer's progress can exceed 1.
- `StartCameraPan` picks a duration of 1 second when the requested one is 0
  (PositionDirection.cs:108). That choice sits inside the branch for a
  non-zero duration, so it is never taken: a pan of duration 0 is instant,
  as the comment at PositionDirection.cs:49 says of position slews.

Other behaviour of the code:

- A zero-time jump made while a position slew runs leaves that slew running.
- A negative pan duration is accepted and makes the direction slew's progress
  run backwards.
- `AzEl`'s `radius < 0.1` is modelled as squared length `< 0.01`.

## Model

| member | source | states |
|---|---|---|
| `Geometry.FlipY` | EDDiscovery/3DMap/PositionDirection.cs:14 | the frame flip keeps X and Z and negates Y (`r.y + v.y == 0`) |
| `Geometry.FlipYInvolution` | EDDiscovery/3DMap/PositionDirection.cs:14 | flipping twice gives the vector back, so real-world and internal coordinates convert losslessly |
| `Geometry.SquaredLengthPositive` | EDDiscovery/3DMap/PositionDirection.cs:226 | a squared length is positive exactly when some component is non-zero: the handlers' `LengthSquared > 0` test is the non-zero test |
| `Geometry.Mod360` | EDDiscovery/3DMap/PositionDirection.cs:404 | C#'s float `% 360` is in [0, 360) for a non-negative dividend and in (−360, 0] for a negative one, and differs from the dividend by whole turns |
| `Geometry.BoundedAngle` | EDDiscovery/3DMap/PositionDirection.cs:402-405 | for every angle ≥ −540 the result is in [−180, 180); below −540 it is in (−540, −180]; an angle already in [−180, 180) is returned unchanged; the result is always a whole number of turns from the angle |
| `Geometry.BoundedAngleIdempotent` | EDDiscovery/3DMap/PositionDirection.cs:402-405 | wrapping an angle ≥ −540 twice gives the same result as wrapping it once |
| `Geometry.ClampPitch` | EDDiscovery/3DMap/PositionDirection.cs:89-93 | the pitch limit ends in [0, 180]: a pitch in [0, 180] is kept, one in (−90, 0) becomes 0, one above 180 or at most −90 becomes 180 |
| `Slew.NextProgress` | EDDiscovery/3DMap/PositionDirection.cs:142 | the tick advances progress by its share of the duration, (p − progress)·time·1000 = msticks, so a non-negative tick never lowers the progress of a slew with positive duration (line 166 computes the same for the direction slew) |
| `Slew.SlewFactor` | EDDiscovery/3DMap/PositionDirection.cs:151-154 | no contract of its own (it is the quotient of lines 151-154); `Slew.SlewFactorInUnit` states its range and that its divisor is non-zero |
| `Slew.SlewFactorInUnit` | EDDiscovery/3DMap/PositionDirection.cs:151-154 | for 0 ≤ from ≤ to < 1 and an easing curve, 1 − s(from) ≠ 0 (so the asserted condition holds), and the share of the remaining way covered is in [0, 1) |
| `Slew.Advance` | EDDiscovery/3DMap/PositionDirection.cs:138-162 | an idle timer leaves timer and quantity unchanged; an active one gains msticks/(time·1000) of progress; a step that completes lands the quantity exactly on the goal |
| `Slew.CompletedSlewStays` | EDDiscovery/3DMap/PositionDirection.cs:144-148 | after the completing step the quantity is the goal and any later step changes nothing |
| `Slew.AdvanceTowardGoal` | EDDiscovery/3DMap/PositionDirection.cs:141-161 | with a positive duration, msticks ≥ 0 and an easing curve, a tick is allowed, keeps the timer healthy, never lowers progress, and leaves each component of the quantity between its old value and the goal |
| `Slew.Run` | EDDiscovery/3DMap/PositionDirection.cs:134-190 | a sequence of non-negative ticks keeps the timer healthy and never changes its duration or goal |
| `Slew.RunIdle` | EDDiscovery/3DMap/PositionDirection.cs:138 | an idle (completed or killed) timer stays as it is, with its quantity, through any number of ticks |
| `Slew.RunCompletes` | EDDiscovery/3DMap/PositionDirection.cs:144-148 | once some tick takes progress to 1 or beyond, the quantity ends exactly on the goal and the timer is idle |
| `Slew.CoveringTicksComplete` | EDDiscovery/3DMap/PositionDirection.cs:142 | ticks adding up to the remaining (1 − progress)·duration complete the slew |
| `Slew.RunReachesGoal` | EDDiscovery/3DMap/PositionDirection.cs:134-190 | frame-rate independence: however the time is cut into ticks, once they cover the rest of the duration the quantity is exactly the goal and the timer is idle |
| `Keyboard.TurnRotation` | EDDiscovery/3DMap/PositionDirection.cs:198-224 | each axis is ±msticks·0.075 from its two keys (pitch Dive/Pitch, roll RollLeft/RollRight, yaw YawLeft/YawRight), the key tested later winning, 0 when neither is held |
| `Keyboard.TurnsIffKeyHeld` | EDDiscovery/3DMap/PositionDirection.cs:198-226 | the rotation is non-zero exactly when the tick takes time and some turning key is held |
| `Keyboard.ZoomLimited` | EDDiscovery/3DMap/PositionDirection.cs:248 | the zoom used for movement is in [0.01, 15]: a zoom below 0.01 becomes 0.01, one above 15 becomes 15, one in range is kept |
| `Keyboard.StepDistance` | EDDiscovery/3DMap/PositionDirection.cs:248-252 | distance × clamped zoom = msticks, doubled with Shift; non-negative for non-negative ticks; zero exactly when msticks is 0 |
| `Keyboard.MoveVector` | EDDiscovery/3DMap/PositionDirection.cs:246-278 | each axis is ±StepDistance from its two keys (X Left/Right, Y Forwards/Backwards, Z Up/Down), the key tested later winning |
| `Keyboard.MovesIffKeyHeld` | EDDiscovery/3DMap/PositionDirection.cs:246-280 | the movement is non-zero exactly when the tick takes time and some movement key is held |
| `Keyboard.ForwardsAtZoomOne` | EDDiscovery/3DMap/PositionDirection.cs:248-266 | Forwards alone, 100 ms at zoom 1, moves (0, 100, 0), or (0, 200, 0) with Shift |
| `Camera.SlewRadicand` | EDDiscovery/3DMap/PositionDirection.cs:57 | no contract of its own (it is the radicand as written); `Camera.RadicandMisreadsY`, `Camera.RadicandExactIff` and `Camera.RadicandRejectsDistantTarget` state what it computes |
| `Camera.SlewAccepted` | EDDiscovery/3DMap/PositionDirection.cs:52-59 | no contract of its own (the NaN guard of line 52 and the `dist >= 1` guard of line 59, with a negative radicand failing the guard); `Camera.PositionDirection.StartCameraSlew` states that a request it refuses changes nothing and one it accepts jumps or slews |
| `Camera.RadicandMisreadsY` | EDDiscovery/3DMap/PositionDirection.cs:57 | the distance check's radicand is the true squared distance minus 2·c.y·(c.y − p.y) |
| `Camera.RadicandExactIff` | EDDiscovery/3DMap/PositionDirection.cs:57 | the radicand equals the true squared distance exactly when the internal Y is 0 or equal to the target's internal Y |
| `Camera.RadicandRejectsDistantTarget` | EDDiscovery/3DMap/PositionDirection.cs:57-59 | from internal (0, 5, 0) to the origin, 5 units away, the radicand is −25, below the threshold of 1 |
| `Camera.SlewDuration` | EDDiscovery/3DMap/PositionDirection.cs:69 | a positive requested time is used as given; a negative one gives the larger of 2 seconds and dist/10000: at least both, and equal to one of them |
| `Camera.StartedSlewArrives` | EDDiscovery/3DMap/PositionDirection.cs:55-69 | a slew started to real-world v with positive duration T ends, after ticks summing to T·1000 ms, with the real-world position exactly v and the timer idle |
| `Camera.AzEl` | EDDiscovery/3DMap/PositionDirection.cs:412-433 | a target within 0.1 gives (180, 0, 0); the third component is always 0; otherwise, with atan in [−90, 90], the azimuth is in [180, 360] when delta.X < 0 and in [0, 180] otherwise |
| `Camera.LookDirection` | EDDiscovery/3DMap/PositionDirection.cs:115-119 | a real-world target on top of the eye gives the pan goal (180, 180, 0); the mirrored azimuth 180 − y lies in [−180, 180] |
| `Camera.TurnedDirection` | EDDiscovery/3DMap/PositionDirection.cs:228-236 | after keyboard turning, pitch is in [0, 180]; roll and yaw are in [−180, 180) when their sums are ≥ −540, a whole number of turns from the sums, and unchanged when already in range |
| `Camera.MovedTarget` | EDDiscovery/3DMap/PositionDirection.cs:282-307 | in elite movement the internal Y moves by exactly −up/down and X and Z by the rotated horizontal move; otherwise the target moves by the rotated move |
| `Camera.ProjectionFor` | EDDiscovery/3DMap/PositionDirection.cs:381-395 | perspective exactly in perspective mode, with the viewport's aspect (aspect·h = w) and near plane 1; orthographic with a centred box 2000 wide, half-height·w = 1000·h, near plane −5000; near before far either way |
| `Camera.OrthographicFourByThree` | EDDiscovery/3DMap/PositionDirection.cs:389-394 | an 800 × 600 orthographic viewport has half-height 750 and depth range [−5000, 5000] |
| `Camera.PositionDirection.constructor` | EDDiscovery/3DMap/PositionDirection.cs:21-33 | a new camera is orthographic, at the origin, facing (0, 0, 0), with no slew running |
| `Camera.PositionDirection.Position` | EDDiscovery/3DMap/PositionDirection.cs:14 | the real-world position is the view target with Y flipped back |
| `Camera.PositionDirection.InSlews` | EDDiscovery/3DMap/PositionDirection.cs:18 | nothing is slewing exactly when both timers are idle |
| `Camera.PositionDirection.SetCameraPos` | EDDiscovery/3DMap/PositionDirection.cs:39-42 | the internal target becomes pos unflipped; Position reads back pos exactly when pos.y is 0; nothing else changes |
| `Camera.PositionDirection.MoveCameraPos` | EDDiscovery/3DMap/PositionDirection.cs:44-47 | the internal target moves by delta, so the real-world position moves by delta with Y flipped; nothing else changes |
| `Camera.PositionDirection.StartCameraSlew` | EDDiscovery/3DMap/PositionDirection.cs:50-73 | a NaN X or a radicand below 1 changes nothing; time 0 puts Position exactly on the request and leaves the slew timer alone; any other time starts a slew from progress 0 to the flipped request with SlewDuration; direction is untouched |
| `Camera.PositionDirection.SetCameraDir` | EDDiscovery/3DMap/PositionDirection.cs:80-83 | the direction becomes dir, with no pitch limit; nothing else changes |
| `Camera.PositionDirection.RotateCameraDir` | EDDiscovery/3DMap/PositionDirection.cs:85-94 | the new direction is the old plus rot with the pitch limit applied to X, so pitch ends in [0, 180] |
| `Camera.PositionDirection.StartCameraPan` | EDDiscovery/3DMap/PositionDirection.cs:96-111 | a NaN X changes nothing; time 0 turns at once; any other time, negative included, starts a direction slew of exactly that duration to dir |
| `Camera.PositionDirection.CameraLookAt` | EDDiscovery/3DMap/PositionDirection.cs:113-121 | pans (at once for time 0, else as a slew) to LookDirection from the view target; position untouched |
| `Camera.PositionDirection.KillSlews` | EDDiscovery/3DMap/PositionDirection.cs:127-131 | afterwards InSlews is false, both timers keep duration and goal, and position and direction stay where they were |
| `Camera.PositionDirection.DoCameraSlew` | EDDiscovery/3DMap/PositionDirection.cs:134-190 | asks for a repaint exactly when a slew was running; each timer and its quantity move as Advance says; the timer invariant is kept |
| `Camera.PositionDirection.HandleTurningAdjustments` | EDDiscovery/3DMap/PositionDirection.cs:196-242 | turns (and returns true) exactly when the tick takes time and a turning key is held, to TurnedDirection of TurnRotation; otherwise the direction is unchanged |
| `Camera.PositionDirection.TurnBy` | EDDiscovery/3DMap/PositionDirection.cs:228-236 | the direction becomes TurnedDirection of the old direction and rot |
| `Camera.PositionDirection.HandleMovementAdjustments` | EDDiscovery/3DMap/PositionDirection.cs:244-313 | moves (and returns true) exactly when the tick takes time and a movement key is held, to MovedTarget of MoveVector, elite only in perspective mode; otherwise the target is unchanged |
| `Camera.PositionDirection.MoveBy` | EDDiscovery/3DMap/PositionDirection.cs:282-307 | the target becomes MovedTarget with the elite flag forced false outside perspective mode; direction untouched |
| `Camera.PositionDirection.SetProjectionMatrix` | EDDiscovery/3DMap/PositionDirection.cs:373-399 | requires a positive viewport; records the mode; reports znear 1 in perspective and −5000 in orthographic mode, the near plane of ProjectionFor |
| `Camera.SlewInTwoTicks` | EDDiscovery/3DMap/PositionDirection.cs:50-73 | on the class itself: a one-second slew to real-world v followed by two DoCameraSlew ticks of 500 ms leaves Position exactly v and the position slew idle, and nothing slewing if the direction was at rest |

## Left out

- OpenGL side effects are not modelled: `GL.*` in `SetProjectionMatrix`, `SetModelMatrix` and `GetResMat`. `SetProjectionMatrix` returns the projection parameters instead of loading a matrix.
- `CalculateEyePosition`, `SetModelMatrix` and `GetResMat` are not modelled. They consist only of OpenTK matrix arithmetic and GL calls.
- `DegreesToRadians` and the rotation matrices of `HandleMovementAdjustments` are the `rotate` parameter. No property of rotations is assumed.
- `AzEl`'s acos/atan branch is modelled only up to the `polar` parameter. The quadrant correction and the +90 offset are modelled.
- The easing curve and `Math.Sqrt` are parameters (`ease`, `sqrt`). The slew proofs assume only `IsEasing` of the curve.
- IEEE single-precision rounding, infinities and NaN are not modelled, except for the X sentinel. A NaN produced inside `AzEl` or `CameraLookAt` is not modelled.
- `Control.ModifierKeys` and `KeyboardActions` are not modelled. They are replaced by a Shift boolean and a set of held actions.
- The `CameraDirection` and `InPerspectiveMode` getters are not modelled separately; they are reads of the fields `cameraDir` and `perspective`.
- Camera.PositionDirection.HandleTurningAdjustments: tests `rotation != Zero` in place of `LengthSquared > 0`. `SquaredLengthPositive` proves the two tests equal. The rotation step is the separate method `TurnBy`.
- Camera.PositionDirection.HandleMovementAdjustments: tests `movement != Zero` in place of `LengthSquared > 0`, for the same reason. It takes the step distance from `StepDistance`, and the moving step is the separate method `MoveBy`.
- Camera.PositionDirection.DoCameraSlew: requires the class invariant, which is the source's `Debug.Assert` that a running position slew has a positive duration. It also requires the asserted `1 − s(progress) ≠ 0` before a step that does not complete. Convergence (`RunReachesGoal`) is proved only for non-negative ticks and positive durations.
- The C# default of 0 for `timeslewsec` in `StartCameraSlew` and `StartCameraPan` and for `time` in `CameraLookAt` (PositionDirection.cs:50, :96, :113) is not modelled: Dafny has no default arguments, so callers pass the duration explicitly, and passing 0.0 gives the default behaviour.
- `EDDiscovery/UserControls/Helpers/FindSystemsUserControl.cs` is not part of this model. It is a WinForms control driven by settings, network queries and database lookups.
