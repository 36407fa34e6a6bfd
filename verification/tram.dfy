/**
 The tram controller of the render loop: the tram position, the follow flag
 and the camera position it writes.

 Per frame, in source order: SPACE snaps the camera to the tram; E flips the
 follow flag (every frame it is held, not once per press); UP moves the tram
 one unit along +x, otherwise DOWN moves it one unit along -x, and before
 either move the camera is synced to the tram through `camToTram` if follow
 is on, using the position from before the move.
 */
module Tram {
  import opened Vectors

  /** The offset the camera is placed at, relative to the tram position divided by 100. */
  const CameraOffset: Vec3 := Vec3(-1.2, 0.0, -0.8)

  /** The offset `camToTram` compares the camera against: CameraOffset with its signs flipped. */
  const GuardOffset: Vec3 := Vec3(1.2, 0.0, 0.8)

  /** Where a sync puts the camera for a tram at `p`. */
  function SyncTarget(p: Vec3): Vec3 {
    Add(Hundredth(p), CameraOffset)
  }

  /** Where `camToTram` believes an already synced camera stands. */
  function GuardTarget(p: Vec3): Vec3 {
    Add(Hundredth(p), GuardOffset)
  }

  /**
   `camToTram`: the camera position after the call.  The guard compares
   component by component against p/100 + (1.2, 0, 0.8), but the write
   puts the camera at p/100 + (-1.2, 0, -0.8); the mismatch is kept.  The
   camera keeps its value exactly when it stands at either of the two
   targets, and ends at the sync target exactly when it was not at the
   guard target.  The exact float comparison becomes exact real equality.
   */
  function CamToTram(camera: Vec3, p: Vec3): (r: Vec3)
    ensures r == camera <==> (camera == GuardTarget(p) || camera == SyncTarget(p))
    ensures r == SyncTarget(p) <==> camera != GuardTarget(p)
  {
    if camera.x != p.x / 100.0 + 1.2 || camera.y != p.y / 100.0 + 0.0 || camera.z != p.z / 100.0 + 0.8 then
      Add(Vec3(p.x / 100.0, p.y / 100.0, p.z / 100.0), Vec3(-1.2, 0.0, -0.8))
    else
      camera
  }

  /** State owned by the controller; the camera stands for `camera.Position` only. */
  datatype Controller = Controller(position: Vec3, follow: bool, camera: Vec3)

  /** Tram at (1, 1, 1), follow on, camera at its constructor position (-1.2, 0, -0.8). */
  const Start: Controller := Controller(Vec3(1.0, 1.0, 1.0), true, Vec3(-1.2, 0.0, -0.8))

  /** The camera after the SPACE block of a frame. */
  function Snapped(c: Controller, space: bool): (camera: Vec3)
    ensures space ==> camera == SyncTarget(c.position)
    ensures !space ==> camera == c.camera
  {
    if space then
      Add(Vec3(c.position.x / 100.0, c.position.y / 100.0, c.position.z / 100.0), Vec3(-1.2, 0.0, -0.8))
    else
      c.camera
  }

  /** The tram part of one frame: SPACE, then E, then UP or else DOWN. */
  function Step(c: Controller, space: bool, e: bool, up: bool, down: bool): (r: Controller)
    ensures r.position.y == c.position.y && r.position.z == c.position.z
    ensures up ==> r.position.x == c.position.x + 1.0
    ensures !up && down ==> r.position.x == c.position.x - 1.0
    ensures !up && !down ==> r.position == c.position
    ensures r.follow == (c.follow != e)
    ensures (up || down) && r.follow ==> r.camera == CamToTram(Snapped(c, space), c.position)
    ensures !((up || down) && r.follow) ==> r.camera == Snapped(c, space)
  {
    var camera := Snapped(c, space);
    var follow := if e then !c.follow else c.follow;
    if up then
      var synced := if follow then CamToTram(camera, c.position) else camera;
      Controller(Add(c.position, Vec3(1.0, 0.0, 0.0)), follow, synced)
    else if down then
      var synced := if follow then CamToTram(camera, c.position) else camera;
      Controller(Add(c.position, Vec3(-1.0, 0.0, 0.0)), follow, synced)
    else
      Controller(c.position, follow, camera)
  }

  // ---------------------------------------------------------------------------
  // Properties
  // ---------------------------------------------------------------------------

  /** The two targets never coincide, so the guard can never recognise a synced camera. */
  lemma TargetsDiffer(p: Vec3)
    ensures SyncTarget(p) != GuardTarget(p)
  {
    assert SyncTarget(p).x + 2.4 == GuardTarget(p).x;
  }

  /** Applying `camToTram` twice gives the same camera as applying it once. */
  lemma CamToTramIdempotent(camera: Vec3, p: Vec3)
    ensures CamToTram(CamToTram(camera, p), p) == CamToTram(camera, p)
  {
  }

  /**
   The inherited guard quirk: a camera standing at the guard target is left
   there, away from where a sync would place it.
   */
  lemma GuardSkipsMirroredCamera(p: Vec3)
    ensures CamToTram(GuardTarget(p), p) == GuardTarget(p)
    ensures CamToTram(GuardTarget(p), p) != SyncTarget(p)
  {
    TargetsDiffer(p);
  }

  /** UP takes priority: holding DOWN as well makes no difference. */
  lemma UpWinsOverDown(c: Controller, space: bool, e: bool)
    ensures Step(c, space, e, true, true) == Step(c, space, e, true, false)
  {
  }

  /** A forward frame followed by a backward frame brings the tram back exactly. */
  lemma ForwardThenBackward(c: Controller)
    ensures Step(Step(c, false, false, true, false), false, false, false, true).position == c.position
  {
  }

  /** Two frames with E held restore the follow flag and leave the tram where it was. */
  lemma ToggleTwice(c: Controller)
    ensures Step(Step(c, false, true, false, false), false, true, false, false) == c
  {
  }

  /**
   Following uses the position from before the move: after a moving frame
   with follow on (and the camera not parked at the guard target) the camera
   is synced to where the tram was, one unit behind where it now is.
   */
  lemma CameraLagsOneUnit(c: Controller, space: bool, e: bool, up: bool, down: bool)
    requires up || down
    requires c.follow != e
    requires Snapped(c, space) != GuardTarget(c.position)
    ensures var r := Step(c, space, e, up, down);
            && r.camera == SyncTarget(c.position)
            && r.camera == SyncTarget(Add(r.position, Vec3(if up then -1.0 else 1.0, 0.0, 0.0)))
  {
  }

  /** After SPACE, the follow sync of the same frame leaves the snapped camera where it is. */
  lemma SnapThenFollow(c: Controller, e: bool, up: bool, down: bool)
    ensures Step(c, true, e, up, down).camera == SyncTarget(c.position)
  {
    TargetsDiffer(c.position);
  }
}
