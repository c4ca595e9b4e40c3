/**
  The drag-to-rotate handler of `VrScene`: the scene keeps the last drag
  sample it saw and the camera's orientation, and every new sample turns the
  camera by the distance dragged since the previous sample with the same start
  location.
 */
module VrScene {
  import opened Optional
  import opened Geometry
  import opened Quaternion

  /** One `DragGesture.Value`, reduced to the two points the handler reads. */
  datatype DragValue = DragValue(startLocation: Point, location: Point)

  /**
    The state `drag(value:)` reads and writes: the camera node's orientation and
    the stored drag value. `rest` is everything else in the scene (the sphere,
    the video player, the camera's other properties), which the handler never touches.
   */
  datatype Scene<Rest> = Scene(orientation: Quat, currentDragValue: Option<DragValue>, rest: Rest)

  /** `.init(0, 1, 0, 0)`: x = 0, y = 1, z = 0, w = 0, half a turn about the up axis. */
  const InitialOrientation: Quat := Quat(0.0, 1.0, 0.0, 0.0)

  /** Degrees of rotation for a drag across one full screen dimension. */
  const MaxSwing: real := 180.0

  /** The state right after `init()`: no drag seen yet, camera turned towards the video's centre. */
  function Init<Rest>(rest: Rest): (s: Scene<Rest>)
    ensures s.currentDragValue == None
    ensures s.orientation == InitialOrientation && IsUnit(s.orientation)
    ensures s.rest == rest
  {
    Scene(InitialOrientation, None, rest)
  }

  /** The stored value has the same start location as `v`. */
  predicate SameSession(stored: Option<DragValue>, v: DragValue) {
    stored.Some? && stored.value.startLocation == v.startLocation
  }

  /**
    The session check: the stored value is dropped unless it has the incoming
    sample's start location. Comparing an absent value with a point is
    "different" too, so nothing stored stays nothing stored.
   */
  function ForgetOtherSession(stored: Option<DragValue>, v: DragValue): (kept: Option<DragValue>)
    ensures kept.Some? <==> SameSession(stored, v)
    ensures kept.Some? ==> kept == stored
  {
    match stored
    case None => None
    case Some(d) => if d.startLocation != v.startLocation then None else stored
  }

  /**
    The distance dragged since the baseline: the stored sample's location when
    it has the incoming start location, the incoming start location otherwise.
   */
  function DragOffset(stored: Option<DragValue>, v: DragValue): (d: Point)
    ensures SameSession(stored, v) ==> d == Sub(v.location, stored.value.location)
    ensures !SameSession(stored, v) ==> d == Sub(v.location, v.startLocation)
  {
    var kept := ForgetOtherSession(stored, v);
    Point(v.location.x - (if kept.Some? then kept.value.location.x else v.startLocation.x),
          v.location.y - (if kept.Some? then kept.value.location.y else v.startLocation.y))
  }

  /**
    `cameraDragPoint`: a drag offset in points to a pair of angles in degrees,
    one full screen width (height) being `MaxSwing` degrees. Each axis is scaled
    on its own, and the vertical angle keeps the sign of the vertical drag.
   */
  function CameraDragPoint(offset: Point, screen: Viewport): (angle: Point)
    requires ValidViewport(screen)
    ensures angle.x * screen.width == offset.x * MaxSwing
    ensures angle.y * screen.height == offset.y * MaxSwing
  {
    Point(offset.x / screen.width * MaxSwing, offset.y / screen.height * MaxSwing)
  }

  /** The rotation a horizontal drag of `degrees` produces: about the up axis. */
  function Yaw(t: Trig, degrees: real): Quat {
    AxisAngle(t, degrees, Up)
  }

  /** The rotation a vertical drag of `degrees` produces: about the right axis. */
  function Pitch(t: Trig, degrees: real): Quat {
    AxisAngle(t, degrees, Right)
  }

  /** `rotateCamera`: the yaw multiplies the current orientation from the left, the pitch from the right. */
  function RotateCamera(t: Trig, q: Quat, angle: Point): Quat {
    Mul(Mul(Yaw(t, angle.x), q), Pitch(t, angle.y))
  }

  /** `drag(value:)`: one gesture sample turns the camera and becomes the stored value. */
  function Drag<Rest>(screen: Viewport, t: Trig, s: Scene<Rest>, v: DragValue): (s': Scene<Rest>)
    requires ValidViewport(screen)
    ensures s'.currentDragValue == Some(v)
    ensures s'.rest == s.rest
    ensures SameSession(s.currentDragValue, v) ==>
      s'.orientation == RotateCamera(t, s.orientation,
                                     CameraDragPoint(Sub(v.location, s.currentDragValue.value.location), screen))
    ensures !SameSession(s.currentDragValue, v) ==>
      s'.orientation == RotateCamera(t, s.orientation, CameraDragPoint(Sub(v.location, v.startLocation), screen))
  {
    var angle := CameraDragPoint(DragOffset(s.currentDragValue, v), screen);
    s.(orientation := RotateCamera(t, s.orientation, angle), currentDragValue := Some(v))
  }

  // Unit conversion

  lemma CameraDragPointZero(screen: Viewport)
    requires ValidViewport(screen)
    ensures CameraDragPoint(Origin, screen) == Origin
  {
  }

  /** Dragging across the whole width turns by 180 degrees; across the whole height, likewise. */
  lemma CameraDragPointFullScreen(screen: Viewport)
    requires ValidViewport(screen)
    ensures CameraDragPoint(Point(screen.width, 0.0), screen) == Point(MaxSwing, 0.0)
    ensures CameraDragPoint(Point(0.0, screen.height), screen) == Point(0.0, MaxSwing)
  {
    assert screen.width / screen.width == 1.0;
    assert screen.height / screen.height == 1.0;
  }

  /** The conversion is linear: the angles of a sum of offsets are the sum of their angles. */
  lemma CameraDragPointAdditive(a: Point, b: Point, screen: Viewport)
    requires ValidViewport(screen)
    ensures CameraDragPoint(Add(a, b), screen) == Add(CameraDragPoint(a, screen), CameraDragPoint(b, screen))
  {
    var w, h := screen.width, screen.height;
    assert (a.x + b.x) / w == a.x / w + b.x / w;
    assert (a.y + b.y) / h == a.y / h + b.y / h;
  }

  /** No axis is flipped: each angle has the sign of its own offset component, and only of that one. */
  lemma CameraDragPointKeepsSign(offset: Point, screen: Viewport)
    requires ValidViewport(screen)
    ensures CameraDragPoint(offset, screen).x > 0.0 <==> offset.x > 0.0
    ensures CameraDragPoint(offset, screen).x < 0.0 <==> offset.x < 0.0
    ensures CameraDragPoint(offset, screen).y > 0.0 <==> offset.y > 0.0
    ensures CameraDragPoint(offset, screen).y < 0.0 <==> offset.y < 0.0
  {
  }

  // Composition order

  /** With the real sine and cosine, no angle means no turn. */
  lemma RotateCameraByNothing(t: Trig, q: Quat)
    requires ZeroIsNoTurn(t)
    ensures RotateCamera(t, q, Origin) == q
  {
    AxisAngleZero(t, Up);
    AxisAngleZero(t, Right);
    MulIdentityLeft(q);
    MulIdentityRight(q);
  }

  /** A purely horizontal drag turns the camera about the world's up axis: the yaw is on the left. */
  lemma HorizontalDragTurnsInWorldFrame(t: Trig, q: Quat, degrees: real)
    requires ZeroIsNoTurn(t)
    ensures RotateCamera(t, q, Point(degrees, 0.0)) == Mul(Yaw(t, degrees), q)
  {
    AxisAngleZero(t, Right);
    MulIdentityRight(Mul(Yaw(t, degrees), q));
  }

  /** A purely vertical drag turns the camera about its own right axis: the pitch is on the right. */
  lemma VerticalDragTurnsInCameraFrame(t: Trig, q: Quat, degrees: real)
    requires ZeroIsNoTurn(t)
    ensures RotateCamera(t, q, Point(0.0, degrees)) == Mul(q, Pitch(t, degrees))
  {
    AxisAngleZero(t, Up);
    MulIdentityLeft(q);
  }

  /**
    The order matters: from the identity, yaw-then-pitch and pitch-then-yaw
    differ in the z component whenever both half-angle sines are non-zero, so
    the composition cannot be reordered.
   */
  lemma CompositionOrderIsSignificant(t: Trig, angle: Point)
    requires t.sinHalf(angle.x) != 0.0 && t.sinHalf(angle.y) != 0.0
    ensures RotateCamera(t, Identity, angle).z == -(t.sinHalf(angle.x) * t.sinHalf(angle.y))
    ensures Mul(Mul(Pitch(t, angle.y), Identity), Yaw(t, angle.x)).z == t.sinHalf(angle.x) * t.sinHalf(angle.y)
    ensures RotateCamera(t, Identity, angle) != Mul(Mul(Pitch(t, angle.y), Identity), Yaw(t, angle.x))
  {
    var sy, sp := t.sinHalf(angle.x), t.sinHalf(angle.y);
    MulIdentityRight(Yaw(t, angle.x));
    MulIdentityRight(Pitch(t, angle.y));
    assert sy * sp != 0.0;
  }

  /** The code never renormalises; in exact arithmetic it need not, as unit rotations compose to a unit rotation. */
  lemma RotateCameraKeepsUnit(t: Trig, q: Quat, angle: Point)
    requires IsUnit(q)
    requires Pythagorean(t, angle.x) && Pythagorean(t, angle.y)
    ensures IsUnit(RotateCamera(t, q, angle))
  {
    var yaw, pitch := Yaw(t, angle.x), Pitch(t, angle.y);
    AxisAngleUnit(t, angle.x, Up);
    AxisAngleUnit(t, angle.y, Right);
    NormMultiplicative(yaw, q);
    NormMultiplicative(Mul(yaw, q), pitch);
  }

  /**
    Two drags' rotations make one: with the addition formulas, turning by `a`
    and then by `b` is turning once by `a + b`. The yaws meet on the left and
    the pitches on the right, so the bracketing of the code does not matter.
   */
  lemma RotateTwice(t: Trig, q: Quat, a: Point, b: Point)
    requires AddsUp(t, a.x, b.x) && AddsUp(t, a.y, b.y)
    ensures RotateCamera(t, RotateCamera(t, q, a), b) == RotateCamera(t, q, Add(a, b))
  {
    var ya, yb, pa, pb := Yaw(t, a.x), Yaw(t, b.x), Pitch(t, a.y), Pitch(t, b.y);
    var m := Mul(Yaw(t, a.x + b.x), q);
    AxisAngleCompose(t, a.x, b.x, Up);
    assert AddsUp(t, b.y, a.y) by {
      assert b.y + a.y == a.y + b.y;
    }
    AxisAngleCompose(t, b.y, a.y, Right);
    assert b.y + a.y == a.y + b.y;
    calc {
      RotateCamera(t, RotateCamera(t, q, a), b);
      Mul(Mul(yb, Mul(Mul(ya, q), pa)), pb);
      { MulAssociative(yb, Mul(ya, q), pa); }
      Mul(Mul(Mul(yb, Mul(ya, q)), pa), pb);
      { MulAssociative(yb, ya, q); }
      Mul(Mul(Mul(Mul(yb, ya), q), pa), pb);
      Mul(Mul(m, pa), pb);
      { MulAssociative(m, pa, pb); }
      Mul(m, Mul(pa, pb));
      Mul(m, Pitch(t, a.y + b.y));
    }
  }

  // The state step

  /** With a real sine and cosine, the initial orientation is half a turn about the up axis. */
  lemma InitialIsHalfTurnAboutUp(t: Trig)
    requires t.sinHalf(180.0) == 1.0 && t.cosHalf(180.0) == 0.0
    ensures Yaw(t, 180.0) == InitialOrientation
  {
  }

  /**
    A sample whose start location differs from the stored one's never uses the
    stored location: it rotates by its own offset from its start, exactly as if
    nothing were stored.
   */
  lemma NewSessionIgnoresOldLocation<Rest>(screen: Viewport, t: Trig, s: Scene<Rest>, v: DragValue)
    requires ValidViewport(screen)
    requires !SameSession(s.currentDragValue, v)
    ensures Drag(screen, t, s, v) == Drag(screen, t, s.(currentDragValue := None), v)
  {
  }

  /**
    Touches are told apart only by their start location: a new touch that
    begins exactly where the previous one began counts as the same touch, and
    its first sample is measured from the previous touch's last location.
   */
  lemma SameStartContinuesOldTouch<Rest>(screen: Viewport, t: Trig, s: Scene<Rest>, previous: DragValue, v: DragValue)
    requires ValidViewport(screen)
    requires s.currentDragValue == Some(previous) && previous.startLocation == v.startLocation
    ensures DragOffset(s.currentDragValue, v) == Sub(v.location, previous.location)
    ensures Drag(screen, t, s, v).orientation
         == RotateCamera(t, s.orientation, CameraDragPoint(Sub(v.location, previous.location), screen))
  {
  }

  /** Feeding the same sample twice is the same as feeding it once: the second one has no offset. */
  lemma DragRepeatedSampleIsIdempotent<Rest>(screen: Viewport, t: Trig, s: Scene<Rest>, v: DragValue)
    requires ValidViewport(screen)
    requires ZeroIsNoTurn(t)
    ensures Drag(screen, t, Drag(screen, t, s, v), v) == Drag(screen, t, s, v)
  {
    var s1 := Drag(screen, t, s, v);
    assert SameSession(s1.currentDragValue, v);
    assert Sub(v.location, v.location) == Origin;
    CameraDragPointZero(screen);
    RotateCameraByNothing(t, s1.orientation);
  }

  /** A first sample one full screen width to the right of its start yaws by exactly 180 degrees. */
  lemma FullWidthDragYawsHalfTurn<Rest>(screen: Viewport, t: Trig, s: Scene<Rest>, v: DragValue)
    requires ValidViewport(screen)
    requires ZeroIsNoTurn(t)
    requires !SameSession(s.currentDragValue, v)
    requires v.location == Point(v.startLocation.x + screen.width, v.startLocation.y)
    ensures Drag(screen, t, s, v).orientation == Mul(Yaw(t, MaxSwing), s.orientation)
  {
    assert Sub(v.location, v.startLocation) == Point(screen.width, 0.0);
    CameraDragPointFullScreen(screen);
    HorizontalDragTurnsInWorldFrame(t, s.orientation, MaxSwing);
  }

  /**
    From the initial state, on a 1000 x 500 screen, a first sample dragged from
    (100, 100) to (600, 100) yaws by 90 degrees and does not pitch.
   */
  lemma FirstDragFromInit<Rest>(t: Trig, rest: Rest)
    requires ZeroIsNoTurn(t)
    ensures Drag(Viewport(1000.0, 500.0), t, Init(rest), DragValue(Point(100.0, 100.0), Point(600.0, 100.0))).orientation
         == Quat(0.0, t.cosHalf(90.0), 0.0, -t.sinHalf(90.0))
  {
    var screen := Viewport(1000.0, 500.0);
    assert CameraDragPoint(Point(500.0, 0.0), screen) == Point(90.0, 0.0);
    HorizontalDragTurnsInWorldFrame(t, InitialOrientation, 90.0);
  }
}
