/**
 One iteration of the render loop, reduced to its state update: the tram
 controller first, then the three door groups, then the tram's model matrix
 rebuilt from the position the tram has after its move.  Keys are the
 booleans "held this frame".
 */
module Frame {
  import opened Vectors
  import Tram
  import DoorBlocks
  import Transform

  /** The keys the state update reads. */
  datatype Keys = Keys(space: bool, e: bool, up: bool, down: bool, left: bool, right: bool)

  /** Everything the frame update changes. */
  datatype World = World(tram: Tram.Controller, doors: DoorBlocks.DoorScene)

  const Start: World := World(Tram.Start, DoorBlocks.Start)

  function Step(w: World, k: Keys): World {
    World(Tram.Step(w.tram, k.space, k.e, k.up, k.down), DoorBlocks.Frame(w.doors, k.left, k.right))
  }

  /** The tram node's local transform as set in a frame that ends in `w`. */
  function TramTransform(w: World): Transform.Affine {
    Transform.TramModel(w.tram.position)
  }

  /** The frames `ks`, one after another. */
  function Run(w: World, ks: seq<Keys>): World
    decreases |ks|
  {
    if |ks| == 0 then w else Run(Step(w, ks[0]), ks[1..])
  }

  /** The tram rides along the line y = 1, z = 1 at a whole-number x. */
  predicate OnTrack(p: Vec3) {
    p.y == 1.0 && p.z == 1.0 && p.x == p.x.Floor as real
  }

  /** What every reachable world satisfies. */
  predicate Invariant(w: World) {
    DoorBlocks.Consistent(w.doors) && OnTrack(w.tram.position)
  }

  lemma StartInvariant()
    ensures Invariant(Start)
  {
    DoorBlocks.StartConsistent();
  }

  /** One frame keeps the invariant, whatever keys are held. */
  lemma StepInvariant(w: World, k: Keys)
    requires Invariant(w)
    ensures Invariant(Step(w, k))
  {
    DoorBlocks.FrameConsistent(w.doors, k.left, k.right);
    var p := w.tram.position;
    var q := Step(w, k).tram.position;
    if k.up {
      assert q.x == p.x + 1.0;
      assert q.x.Floor == p.x.Floor + 1;
    } else if k.down {
      assert q.x == p.x - 1.0;
      assert q.x.Floor == p.x.Floor - 1;
    }
  }

  /** Any sequence of frames keeps the invariant. */
  lemma {:induction false} RunInvariant(w: World, ks: seq<Keys>)
    requires Invariant(w)
    ensures Invariant(Run(w, ks))
    decreases |ks|
  {
    if |ks| > 0 {
      StepInvariant(w, ks[0]);
      RunInvariant(Step(w, ks[0]), ks[1..]);
    }
  }

  /**
   Whatever keys are held over any number of frames after start-up, the
   door counters stay within [0, 15], [0, 5] and [0, 10], mirrored leaves
   keep opposite angles, and the tram stays on its track.
   */
  lemma Reachable(ks: seq<Keys>)
    ensures var w := Run(Start, ks);
            && 0 <= w.doors.statex1 <= 15
            && 0 <= w.doors.statex2 <= 5
            && 0 <= w.doors.statex3 <= 10
            && w.doors.rotate5 + w.doors.rotate8 == 0.0
            && w.doors.rotate6 + w.doors.rotate7 == 0.0
            && w.doors.rotate1 + w.doors.rotate2 == 0.0
            && w.doors.rotate3 + w.doors.rotate4 == 0.0
            && w.tram.position.y == 1.0 && w.tram.position.z == 1.0
  {
    StartInvariant();
    RunInvariant(Start, ks);
    DoorBlocks.MirroredAngles(Run(Start, ks).doors);
  }

  /**
   The tram node's matrix is rebuilt from the moved position: its offset is
   (0, -0.5, 0) + 0.01 times the position after the frame's move.
   */
  lemma TramTransformAfterMove(w: World, k: Keys)
    ensures var p := w.tram.position;
            var dx := if k.up then 1.0 else if k.down then -1.0 else 0.0;
            TramTransform(Step(w, k))
              == Transform.Affine(0.01, Add(Vec3(0.0, -0.5, 0.0), Scale(0.01, Vec3(p.x + dx, p.y, p.z))))
  {
    var p := w.tram.position;
    var dx := if k.up then 1.0 else if k.down then -1.0 else 0.0;
    var q := Step(w, k).tram.position;
    assert q == Vec3(p.x + dx, p.y, p.z);
    Transform.TramModelClosedForm(q);
  }

  /** The door keys do not affect the tram, and the tram keys do not affect the doors. */
  lemma PartsIndependent(w: World, k: Keys)
    ensures Step(w, k).tram == Step(w, k.(left := false, right := false)).tram
    ensures Step(w, k).doors == Step(w, k.(space := false, e := false, up := false, down := false)).doors
  {
  }
}
