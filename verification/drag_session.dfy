/**
  A whole gesture: the gesture source calls `drag(value:)` once per sample
  (`.onChanged` in `ContentView`), so a run of samples is a left fold of the
  state step. Within one touch the per-sample offsets telescope, so the camera
  turns, in total, by the distance from where the touch began to where it is now
  (given the addition formulas for the half-angle sine and cosine).
 */
module DragSession {
  import opened Optional
  import opened Geometry
  import opened Quaternion
  import opened VrScene

  /** The scene after the samples `vs` have been delivered one after the other. */
  function Run<Rest>(screen: Viewport, t: Trig, s: Scene<Rest>, vs: seq<DragValue>): Scene<Rest>
    requires ValidViewport(screen)
    decreases |vs|
  {
    if |vs| == 0 then s else Run(screen, t, Drag(screen, t, s, vs[0]), vs[1..])
  }

  /** The offsets the handler computes for the samples `vs`, starting with `stored` as the stored value. */
  function Offsets(stored: Option<DragValue>, vs: seq<DragValue>): (ds: seq<Point>)
    ensures |ds| == |vs|
    decreases |vs|
  {
    if |vs| == 0 then [] else [DragOffset(stored, vs[0])] + Offsets(Some(vs[0]), vs[1..])
  }

  /** The angles each offset converts to. */
  function AnglesOf(ds: seq<Point>, screen: Viewport): (angles: seq<Point>)
    requires ValidViewport(screen)
    ensures |angles| == |ds|
    decreases |ds|
  {
    if |ds| == 0 then [] else [CameraDragPoint(ds[0], screen)] + AnglesOf(ds[1..], screen)
  }

  /** The orientation after turning `q` by each pair of angles in turn. */
  function Turn(t: Trig, q: Quat, angles: seq<Point>): Quat
    decreases |angles|
  {
    if |angles| == 0 then q else Turn(t, RotateCamera(t, q, angles[0]), angles[1..])
  }

  function Sum(ps: seq<Point>): Point
    decreases |ps|
  {
    if |ps| == 0 then Origin else Add(ps[0], Sum(ps[1..]))
  }

  /** Every sample of `vs` has start location `start`. */
  predicate OneTouch(vs: seq<DragValue>, start: Point) {
    forall i :: 0 <= i < |vs| ==> vs[i].startLocation == start
  }

  /** A sample, if any, that has not moved from where its touch began. */
  predicate Stationary(stored: Option<DragValue>) {
    stored.Some? ==> stored.value.location == stored.value.startLocation
  }

  /** After a run the last sample is stored, and nothing outside the handler's own state has changed. */
  lemma {:induction false} RunStoresLastSample<Rest>(screen: Viewport, t: Trig, s: Scene<Rest>, vs: seq<DragValue>)
    requires ValidViewport(screen)
    ensures Run(screen, t, s, vs).rest == s.rest
    ensures |vs| == 0 ==> Run(screen, t, s, vs) == s
    ensures |vs| > 0 ==> Run(screen, t, s, vs).currentDragValue == Some(vs[|vs| - 1])
    decreases |vs|
  {
    if |vs| > 0 {
      var s1 := Drag(screen, t, s, vs[0]);
      RunStoresLastSample(screen, t, s1, vs[1..]);
      if |vs| > 1 {
        assert vs[1..][|vs[1..]| - 1] == vs[|vs| - 1];
      }
    }
  }

  /** A run turns the camera by the angles of the offsets the handler computes, one after the other. */
  lemma {:induction false} RunTurnsByOffsets<Rest>(screen: Viewport, t: Trig, s: Scene<Rest>, vs: seq<DragValue>)
    requires ValidViewport(screen)
    ensures Run(screen, t, s, vs).orientation
         == Turn(t, s.orientation, AnglesOf(Offsets(s.currentDragValue, vs), screen))
    decreases |vs|
  {
    if |vs| > 0 {
      var s1 := Drag(screen, t, s, vs[0]);
      var ds := Offsets(s.currentDragValue, vs);
      RunTurnsByOffsets(screen, t, s1, vs[1..]);
      assert ds[1..] == Offsets(s1.currentDragValue, vs[1..]);
    }
  }

  /** Within one touch, offsets measured from a stored sample of that touch add up to the distance from it. */
  lemma {:induction false} OffsetsTelescopeWithinTouch(stored: DragValue, vs: seq<DragValue>, start: Point)
    requires |vs| > 0 && OneTouch(vs, start) && stored.startLocation == start
    ensures Sum(Offsets(Some(stored), vs)) == Sub(vs[|vs| - 1].location, stored.location)
    decreases |vs|
  {
    var ds := Offsets(Some(stored), vs);
    assert ds[0] == Sub(vs[0].location, stored.location);
    if |vs| > 1 {
      OffsetsTelescopeWithinTouch(vs[0], vs[1..], start);
      assert ds[1..] == Offsets(Some(vs[0]), vs[1..]);
    }
  }

  /**
    Telescoping: for the samples of one touch, fed after a reset (nothing stored,
    or a sample of another touch), the offsets add up to the last location minus
    the start location.
   */
  lemma {:induction false} OffsetsTelescope(stored: Option<DragValue>, vs: seq<DragValue>, start: Point)
    requires |vs| > 0 && OneTouch(vs, start) && !SameSession(stored, vs[0])
    ensures Sum(Offsets(stored, vs)) == Sub(vs[|vs| - 1].location, start)
  {
    var ds := Offsets(stored, vs);
    assert ds[0] == Sub(vs[0].location, start);
    if |vs| > 1 {
      OffsetsTelescopeWithinTouch(vs[0], vs[1..], start);
      assert ds[1..] == Offsets(Some(vs[0]), vs[1..]);
    }
  }

  /** By linearity, the angles of the offsets add up to the angles of their sum. */
  lemma {:induction false} AnglesOfSum(ds: seq<Point>, screen: Viewport)
    requires ValidViewport(screen)
    ensures Sum(AnglesOf(ds, screen)) == CameraDragPoint(Sum(ds), screen)
    decreases |ds|
  {
    if |ds| == 0 {
      CameraDragPointZero(screen);
    } else {
      var angles := AnglesOf(ds, screen);
      AnglesOfSum(ds[1..], screen);
      assert angles[1..] == AnglesOf(ds[1..], screen);
      CameraDragPointAdditive(ds[0], Sum(ds[1..]), screen);
    }
  }

  /**
    For one touch fed after a reset, the per-sample angles add up to the angles
    of the whole drag, from the start location to the last location.
   */
  lemma AnglesTelescope(stored: Option<DragValue>, vs: seq<DragValue>, start: Point, screen: Viewport)
    requires ValidViewport(screen)
    requires |vs| > 0 && OneTouch(vs, start) && !SameSession(stored, vs[0])
    ensures Sum(AnglesOf(Offsets(stored, vs), screen)) == CameraDragPoint(Sub(vs[|vs| - 1].location, start), screen)
  {
    AnglesOfSum(Offsets(stored, vs), screen);
    OffsetsTelescope(stored, vs, start);
  }

  /** With the addition formulas, turning by each pair of angles in turn is one turn by their sum. */
  lemma {:induction false} TurnIsOneRotation(t: Trig, q: Quat, angles: seq<Point>)
    requires ZeroIsNoTurn(t)
    requires forall a: real, b: real :: AddsUp(t, a, b)
    ensures Turn(t, q, angles) == RotateCamera(t, q, Sum(angles))
    decreases |angles|
  {
    if |angles| == 0 {
      RotateCameraByNothing(t, q);
    } else {
      var first, rest := angles[0], angles[1..];
      TurnIsOneRotation(t, RotateCamera(t, q, first), rest);
      RotateTwice(t, q, first, Sum(rest));
    }
  }

  /**
    For one touch fed after a reset, the camera ends up turned once by the
    angles of the whole drag, from the start location to the last location,
    however the samples split it.
   */
  lemma OneTouchIsOneTurn<Rest>(screen: Viewport, t: Trig, s: Scene<Rest>, vs: seq<DragValue>, start: Point)
    requires ValidViewport(screen)
    requires ZeroIsNoTurn(t)
    requires forall a: real, b: real :: AddsUp(t, a, b)
    requires |vs| > 0 && OneTouch(vs, start) && !SameSession(s.currentDragValue, vs[0])
    ensures Run(screen, t, s, vs).orientation
         == RotateCamera(t, s.orientation, CameraDragPoint(Sub(vs[|vs| - 1].location, start), screen))
  {
    var angles := AnglesOf(Offsets(s.currentDragValue, vs), screen);
    RunTurnsByOffsets(screen, t, s, vs);
    TurnIsOneRotation(t, s.orientation, angles);
    AnglesTelescope(s.currentDragValue, vs, start, screen);
  }

  /**
    Samples that never move from their start leave the camera where it was,
    provided the stored sample, if any, has not moved either.
   */
  lemma {:induction false} StationaryRunKeepsOrientation<Rest>(screen: Viewport, t: Trig, s: Scene<Rest>, vs: seq<DragValue>)
    requires ValidViewport(screen)
    requires ZeroIsNoTurn(t)
    requires Stationary(s.currentDragValue)
    requires forall i :: 0 <= i < |vs| ==> vs[i].location == vs[i].startLocation
    ensures Run(screen, t, s, vs).orientation == s.orientation
    decreases |vs|
  {
    if |vs| > 0 {
      var s1 := Drag(screen, t, s, vs[0]);
      assert DragOffset(s.currentDragValue, vs[0]) == Origin;
      CameraDragPointZero(screen);
      RotateCameraByNothing(t, s.orientation);
      StationaryRunKeepsOrientation(screen, t, s1, vs[1..]);
    }
  }

  /**
    The orientation stays a unit quaternion after any run of drags that starts
    from one, given sin^2 + cos^2 = 1 at every angle, although the code never
    renormalises.
   */
  lemma {:induction false} RunKeepsUnit<Rest>(screen: Viewport, t: Trig, s: Scene<Rest>, vs: seq<DragValue>)
    requires ValidViewport(screen)
    requires forall d :: Pythagorean(t, d)
    requires IsUnit(s.orientation)
    ensures IsUnit(Run(screen, t, s, vs).orientation)
    decreases |vs|
  {
    if |vs| > 0 {
      var angle := CameraDragPoint(DragOffset(s.currentDragValue, vs[0]), screen);
      RotateCameraKeepsUnit(t, s.orientation, angle);
      RunKeepsUnit(screen, t, Drag(screen, t, s, vs[0]), vs[1..]);
    }
  }
}
