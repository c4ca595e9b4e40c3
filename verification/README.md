# VrPlayer drag-to-rotate, modelled in Dafny

VrPlayer shows a 360° video on the inside of a sphere around a camera. The
only logic in it is `VrScene.drag(value:)`, which turns the camera while the
user drags a finger across the screen. This project models that handler as a
pure state step and proves what it does.

The handler keeps two pieces of state: the last `DragGesture.Value` it saw
and the camera node's orientation quaternion. Each sample is handled in four steps:

1. **Session check.** A stored sample whose `startLocation` differs from the
   incoming one is dropped. No stored sample at all counts as different.
2. **Offset.** The offset is the incoming `location` minus the baseline. The
   baseline is the stored sample's `location` if one is kept, otherwise the
   incoming `startLocation`.
3. **Unit conversion** (`cameraDragPoint`). The offset becomes degrees. One full
   screen width (or height) is 180°. The vertical angle is not negated.
4. **Composition** (`rotateCamera`). The new orientation is
   `(yaw * current) * pitch`. The yaw is about the up axis (0, 1, 0) and the
   pitch is about the right axis (1, 0, 0). Then the incoming sample becomes
   the stored one.

Files:

- `option.dfy`: `Optional.Option`, Swift's optional.
- `geometry.dfy`: points, the viewport and vector addition and subtraction, over exact reals.
- `quaternion.dfy`: GLKit's quaternion product, which is the Hamilton product, and the shape
  of its axis-angle constructor. The sine and cosine are left uninterpreted.
- `vr_scene.dfy`: the scene state, the four steps of `drag(value:)`, and one-step properties.
- `drag_session.dfy`: runs of samples as the gesture source delivers them,
  the telescoping of offsets within one touch, and the whole touch as one turn.

Modelling choices:

- Coordinates and angles are `real`. `UIScreen.main.bounds` is a `Viewport`
  parameter and must be positive in both dimensions.
- `GLKMathDegreesToRadians` and the half-angle sine and cosine inside
  `GLKQuaternionMakeWithAngleAndAxis` are the two function fields of a `Trig`
  value. Facts such as "sin 0 = 0" or "sin² + cos² = 1" appear only as
  hypotheses of the lemmas that need them.
- `Scene<Rest>` carries the rest of the scene graph as an opaque `rest` field.
  This makes "the handler changes nothing else" a checkable statement.

## Model

| member | source | states |
|---|---|---|
| VrScene.Init | VrPlayer/VrScene.swift:23-32 | Nothing is stored at first. The camera starts at the unit quaternion (x, y, z, w) = (0, 1, 0, 0). The rest of the scene is as given. |
| VrScene.InitialIsHalfTurnAboutUp | VrPlayer/VrScene.swift:31-32 | If the sine and cosine take their real values, the initial orientation is a 180° yaw about the up axis, which faces the camera toward the video's centre. |
| VrScene.ForgetOtherSession | VrPlayer/VrScene.swift:70 | The stored sample is kept if and only if it exists and has the incoming start location. When kept, it is unchanged. |
| VrScene.DragOffset | VrPlayer/VrScene.swift:70-72 | When the stored sample has the incoming start location, the offset is the incoming location minus the stored location. Otherwise (nothing stored, or a different start location) it is the incoming location minus its start location. Both hold on each axis. |
| VrScene.NewSessionIgnoresOldLocation | VrPlayer/VrScene.swift:70-72 | A sample whose start location differs from the stored one's has the same effect as if nothing were stored. The stored location is then never the baseline. |
| VrScene.SameStartContinuesOldTouch | VrPlayer/VrScene.swift:70-72 | Touches are told apart only by start location. A sample whose start location equals the stored one's is measured from the stored location, even if it belongs to a new touch that began at the same point. |
| VrScene.CameraDragPoint | VrPlayer/VrScene.swift:84-89 | angle.x · width = 180 · offset.x and angle.y · height = 180 · offset.y. Each axis depends only on its own offset and screen dimension. |
| VrScene.CameraDragPointZero | VrPlayer/VrScene.swift:84-88 | A zero offset gives zero angles. |
| VrScene.CameraDragPointFullScreen | VrPlayer/VrScene.swift:84-88 | An offset of one full width gives 180° of yaw. An offset of one full height gives 180° of pitch. |
| VrScene.CameraDragPointAdditive | VrPlayer/VrScene.swift:84-88 | The conversion is additive: the angles of a sum of offsets equal the sum of their angles. |
| VrScene.CameraDragPointKeepsSign | VrPlayer/VrScene.swift:86-87 | No axis flips sign. Each angle is positive or negative exactly when its own offset component is. |
| VrScene.RotateCameraByNothing | VrPlayer/VrScene.swift:92-102 | `RotateCamera` models `rotateCamera`. If sin 0 = 0 and cos 0 = 1, zero angles leave the orientation unchanged. |
| VrScene.HorizontalDragTurnsInWorldFrame | VrPlayer/VrScene.swift:96-100 | If sin 0 = 0 and cos 0 = 1, `RotateCamera` with a purely horizontal angle multiplies the orientation on the left by the yaw about (0, 1, 0). So the turn is in the world frame. |
| VrScene.VerticalDragTurnsInCameraFrame | VrPlayer/VrScene.swift:96-100 | If sin 0 = 0 and cos 0 = 1, `RotateCamera` with a purely vertical angle multiplies the orientation on the right by the pitch about (1, 0, 0). So the turn is in the camera's own frame. |
| VrScene.CompositionOrderIsSignificant | VrPlayer/VrScene.swift:100 | `RotateCamera` composes `(yaw * current) * pitch`. Starting from the identity, yaw·pitch has z = −sin·sin. The swapped order pitch·yaw has z = +sin·sin. So the code's order cannot be exchanged. |
| VrScene.RotateCameraKeepsUnit | VrPlayer/VrScene.swift:92-102 | A unit orientation stays unit after one `RotateCamera`, given sin² + cos² = 1 at both angles. So the missing renormalisation loses nothing in exact arithmetic. |
| VrScene.RotateTwice | VrPlayer/VrScene.swift:92-102 | Given the addition formulas for the half-angle sine and cosine, two `rotateCamera` calls by angles a and then b equal one call by a + b. The yaws collect on the left and the pitches on the right. |
| VrScene.Drag | VrPlayer/VrScene.swift:68-80 | After a drag, the stored value is exactly the incoming sample and the rest of the scene is untouched. The orientation is rotated by the converted offset: from the stored location when the stored sample has the incoming start location, from the incoming start location otherwise. |
| VrScene.DragRepeatedSampleIsIdempotent | VrPlayer/VrScene.swift:68-80 | If sin 0 = 0 and cos 0 = 1, feeding the same sample twice gives the same scene as feeding it once. |
| VrScene.FullWidthDragYawsHalfTurn | VrPlayer/VrScene.swift:68-100 | If sin 0 = 0 and cos 0 = 1, a first sample one full width right of its start yaws the current orientation by exactly 180° about the up axis and does not pitch. |
| VrScene.FirstDragFromInit | VrPlayer/VrScene.swift:68-102 | If sin 0 = 0 and cos 0 = 1, then from the initial state on a 1000×500 screen, a drag from (100, 100) to (600, 100) yaws by 90°. The result is (0, cos 45°, 0, −sin 45°). |
| Quaternion.MulIdentityLeft | VrPlayer/VrScene.swift:100 | The identity quaternion is a left unit of `GLKQuaternionMultiply`. |
| Quaternion.MulIdentityRight | VrPlayer/VrScene.swift:100 | The identity quaternion is a right unit of `GLKQuaternionMultiply`. |
| Quaternion.MulAssociative | VrPlayer/VrScene.swift:100 | `GLKQuaternionMultiply` is associative, so `(yaw * current) * pitch` equals `yaw * (current * pitch)`. |
| Quaternion.AxisAngleCompose | VrPlayer/VrScene.swift:96-98 | Given the addition formulas at a and b, the rotation by b after the rotation by a about the same up or right axis is the rotation by a + b about it. |
| Quaternion.NormMultiplicative | VrPlayer/VrScene.swift:100 | `Mul` models `GLKQuaternionMultiply`, the Hamilton product. Its squared norm is the product of the squared norms. This is Euler's four-square identity. |
| Quaternion.AxisAngleZero | VrPlayer/VrScene.swift:96-98 | If sin 0 = 0 and cos 0 = 1, a zero angle gives the identity about any axis. |
| Quaternion.AxisAngleUnit | VrPlayer/VrScene.swift:96-98 | `AxisAngle` models `GLKQuaternionMakeWithAngleAndAxis` as (sin h · axis, cos h). About a unit axis, it is a unit quaternion whenever sin² + cos² = 1 at that angle. |
| DragSession.RunStoresLastSample | VrPlayer/VrScene.swift:68-80 | `Run` models the gesture source calling `drag(value:)` once per sample (VrPlayer/ContentView.swift:18). After any run of drags, the last sample is stored and the rest of the scene is unchanged. An empty run changes nothing. |
| DragSession.RunTurnsByOffsets | VrPlayer/VrScene.swift:68-80 | A run turns the camera by the angles of the offsets the handler computes, applied one after another. |
| DragSession.OffsetsTelescopeWithinTouch | VrPlayer/VrScene.swift:70-79 | Within one touch, starting from a stored sample of that touch, the offsets sum to the last location minus the stored location. |
| DragSession.OffsetsTelescope | VrPlayer/VrScene.swift:70-79 | For one touch fed after a reset, the summed x and y offsets equal the last location minus the start location. |
| DragSession.AnglesOfSum | VrPlayer/VrScene.swift:84-88 | The angles of a list of offsets sum to the angles of the summed offset. |
| DragSession.AnglesTelescope | VrPlayer/VrScene.swift:70-88 | For one touch fed after a reset, the per-sample angles sum to the angles of the whole drag from start to last location. |
| DragSession.TurnIsOneRotation | VrPlayer/VrScene.swift:92-102 | Given sin 0 = 0, cos 0 = 1 and the addition formulas, turning by a list of angle pairs one after another is one `rotateCamera` by their sum. |
| DragSession.OneTouchIsOneTurn | VrPlayer/VrScene.swift:68-102 | For one touch fed after a reset, and under the same trigonometric hypotheses, the camera ends up turned once by the angles of the whole drag, from the start location to the last location, however the samples split it. |
| DragSession.StationaryRunKeepsOrientation | VrPlayer/VrScene.swift:68-80 | If no sample moves from its start, and neither does the stored one, the orientation is unchanged after any run. This assumes sin 0 = 0 and cos 0 = 1. |
| DragSession.RunKeepsUnit | VrPlayer/VrScene.swift:68-102 | Starting from a unit orientation, the orientation stays a unit quaternion after any run of drags, given sin² + cos² = 1 at every angle. |

## Left out

- Scene construction in `init()` (VrPlayer/VrScene.swift:25-61): the camera node, video looper, SpriteKit video node and sphere are framework setup. Only the initial orientation at line 32 is modelled.
- `init?(coder:)` (VrPlayer/VrScene.swift:63-65) only stops the program.
- VrPlayer/ContentView.swift is view and gesture wiring only. Its repeated calls of `drag(value:)` are modelled as `DragSession.Run`.
- Trigonometry and the degrees-to-radians conversion inside GLKit are foreign calls on `Float`. They stay uninterpreted in `Quaternion.Trig`.
- `CGFloat` and `Float` rounding, including the `Float(point.x)` narrowing, are not modelled. Arithmetic is exact over reals, so telescoping holds for the model but not bit-exactly for floats.
- `UIScreen.main.bounds` is a parameter. `DragSession.Run` uses one screen size for a whole run, while the app reads the bounds anew on every sample.
- `DragGesture.Value` has further fields (time, translation, predicted end). The handler never reads them, and they are not modelled.
- The conversions between `SCNQuaternion` and `GLKQuaternion` (VrPlayer/VrScene.swift:94, 101) copy the four components. They are modelled as the same `Quat`.
- Zero viewport: the code divides by the screen size without a guard. The model requires a positive width and height, and adds no clamp to zero.
- Renormalisation: the code does not renormalise the quaternion after composing. The model does not either, and proves that exact arithmetic keeps unit quaternions unit.
- Vertical sign: the vertical angle is not negated (VrPlayer/VrScene.swift:87), and the model follows the Swift code.
- Session detection: the Swift code compares only start locations (VrPlayer/VrScene.swift:70), so a new touch that begins exactly where the previous one began continues the old session. The model reproduces this (`VrScene.SameStartContinuesOldTouch`) and promises no reset for that case.
