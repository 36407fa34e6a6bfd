/**
 The eight door leaves of the tram exactly as the render loop keeps them:
 one position and one angle per leaf, three step counters, written out block
 by block.  Each block is then shown to be an instance of the shared rule in
 `Doors` with a constant table:

   group A: counter `doorsStatex1`, limit 15, leaves 1, 2, 7, 8 with the
            angles `doorsRotate5`, `doorsRotate6`, `doorsRotate7`, `doorsRotate8`;
   group B: counter `doorsStatex2`, limit 5, leaves 3, 4 with the angles
            `doorsRotate1`, `doorsRotate2`;
   group C: counter `doorsStatex3`, limit 10, leaves 5, 6 with the angles
            `doorsRotate3`, `doorsRotate4`.

 The program declares the counters `float` but only ever adds or subtracts 1
 starting from 0, so they are integers here; positions and angles are exact
 reals, so `0.33f` is exactly 33/100.
 */
module DoorBlocks {
  import opened Vectors
  import Doors

  /** The door variables of the render loop; `doorsOpen` is set by either key and never read. */
  datatype DoorScene = DoorScene(
    position1: Vec3, position2: Vec3, position3: Vec3, position4: Vec3,
    position5: Vec3, position6: Vec3, position7: Vec3, position8: Vec3,
    rotate1: real, rotate2: real, rotate3: real, rotate4: real,
    rotate5: real, rotate6: real, rotate7: real, rotate8: real,
    statex1: int, statex2: int, statex3: int,
    doorsOpen: bool)

  /** The door variables as declared before the render loop. */
  const Start: DoorScene := DoorScene(
    Vec3(31.0, 2.0, -20.0), Vec3(29.0, 2.0, -20.0), Vec3(-2.0, 2.0, -20.0), Vec3(-7.0, 2.0, -20.0),
    Vec3(-33.0, 2.0, -20.0), Vec3(-38.0, 2.0, -20.0), Vec3(27.0, 2.0, -20.0), Vec3(25.0, 2.0, -20.0),
    0.0, 0.0, 0.0, 0.0,
    0.0, 0.0, 0.0, 0.0,
    0, 0, 0,
    false)

  // ---------------------------------------------------------------------------
  // The six blocks, as written in the render loop
  // ---------------------------------------------------------------------------

  /** Group A, LEFT held. */
  function OpenBlockA(s: DoorScene): DoorScene {
    if s.statex1 < 15 then
      s.(position1 := Add(s.position1, Vec3(0.2, 0.0, 0.33)),
         position2 := Add(s.position2, Vec3(-0.33, 0.0, 0.33)),
         position7 := Add(s.position7, Vec3(0.33, 0.0, 0.33)),
         position8 := Add(s.position8, Vec3(-0.2, 0.0, 0.33)),
         rotate5 := s.rotate5 + 0.1,
         rotate6 := s.rotate6 + 0.05,
         rotate7 := s.rotate7 - 0.05,
         rotate8 := s.rotate8 - 0.1,
         statex1 := s.statex1 + 1)
    else
      s
  }

  /** Group A, RIGHT held. */
  function CloseBlockA(s: DoorScene): DoorScene {
    if s.statex1 > 0 then
      s.(position1 := Add(s.position1, Vec3(-0.2, 0.0, -0.33)),
         position2 := Add(s.position2, Vec3(0.33, 0.0, -0.33)),
         position7 := Add(s.position7, Vec3(-0.33, 0.0, -0.33)),
         position8 := Add(s.position8, Vec3(0.2, 0.0, -0.33)),
         rotate5 := s.rotate5 - 0.1,
         rotate6 := s.rotate6 - 0.05,
         rotate7 := s.rotate7 + 0.05,
         rotate8 := s.rotate8 + 0.1,
         statex1 := s.statex1 - 1)
    else
      s
  }

  /** Group B, LEFT held. */
  function OpenBlockB(s: DoorScene): DoorScene {
    if s.statex2 < 5 then
      s.(position3 := Add(s.position3, Vec3(-0.6, 0.0, 1.0)),
         position4 := Add(s.position4, Vec3(0.6, 0.0, 1.0)),
         rotate1 := s.rotate1 + 0.3,
         rotate2 := s.rotate2 - 0.3,
         statex2 := s.statex2 + 1)
    else
      s
  }

  /** Group B, RIGHT held. */
  function CloseBlockB(s: DoorScene): DoorScene {
    if s.statex2 > 0 then
      s.(position3 := Add(s.position3, Vec3(0.6, 0.0, -1.0)),
         position4 := Add(s.position4, Vec3(-0.6, 0.0, -1.0)),
         rotate1 := s.rotate1 - 0.3,
         rotate2 := s.rotate2 + 0.3,
         statex2 := s.statex2 - 1)
    else
      s
  }

  /** Group C, LEFT held. */
  function OpenBlockC(s: DoorScene): DoorScene {
    if s.statex3 < 10 then
      s.(position5 := Add(s.position5, Vec3(0.05, 0.0, 0.5)),
         position6 := Add(s.position6, Vec3(-0.05, 0.0, 0.5)),
         rotate3 := s.rotate3 + 0.15,
         rotate4 := s.rotate4 - 0.15,
         statex3 := s.statex3 + 1)
    else
      s
  }

  /** Group C, RIGHT held. */
  function CloseBlockC(s: DoorScene): DoorScene {
    if s.statex3 > 0 then
      s.(position5 := Add(s.position5, Vec3(-0.05, 0.0, -0.5)),
         position6 := Add(s.position6, Vec3(0.05, 0.0, -0.5)),
         rotate3 := s.rotate3 - 0.15,
         rotate4 := s.rotate4 + 0.15,
         statex3 := s.statex3 - 1)
    else
      s
  }

  /**
   The door part of one frame: the six blocks in source order, each guarded
   by its key; either key also raises `doorsOpen`.
   */
  function Frame(s: DoorScene, left: bool, right: bool): DoorScene {
    var a1 := if left then OpenBlockA(s) else s;
    var a2 := if right then CloseBlockA(a1) else a1;
    var b1 := if left then OpenBlockB(a2) else a2;
    var b2 := if right then CloseBlockB(b1) else b1;
    var c1 := if left then OpenBlockC(b2) else b2;
    var c2 := if right then CloseBlockC(c1) else c1;
    c2.(doorsOpen := s.doorsOpen || left || right)
  }

  // ---------------------------------------------------------------------------
  // The constant tables and the views of the scene as three groups
  // ---------------------------------------------------------------------------

  const TableA: Doors.GroupConfig := Doors.GroupConfig(15, [
    Doors.LeafConfig(Vec3(31.0, 2.0, -20.0), Vec3(0.2, 0.0, 0.33), 0.1),
    Doors.LeafConfig(Vec3(29.0, 2.0, -20.0), Vec3(-0.33, 0.0, 0.33), 0.05),
    Doors.LeafConfig(Vec3(27.0, 2.0, -20.0), Vec3(0.33, 0.0, 0.33), -0.05),
    Doors.LeafConfig(Vec3(25.0, 2.0, -20.0), Vec3(-0.2, 0.0, 0.33), -0.1)])

  const TableB: Doors.GroupConfig := Doors.GroupConfig(5, [
    Doors.LeafConfig(Vec3(-2.0, 2.0, -20.0), Vec3(-0.6, 0.0, 1.0), 0.3),
    Doors.LeafConfig(Vec3(-7.0, 2.0, -20.0), Vec3(0.6, 0.0, 1.0), -0.3)])

  const TableC: Doors.GroupConfig := Doors.GroupConfig(10, [
    Doors.LeafConfig(Vec3(-33.0, 2.0, -20.0), Vec3(0.05, 0.0, 0.5), 0.15),
    Doors.LeafConfig(Vec3(-38.0, 2.0, -20.0), Vec3(-0.05, 0.0, 0.5), -0.15)])

  function ViewA(s: DoorScene): Doors.Group {
    Doors.Group(s.statex1, [Doors.Leaf(s.position1, s.rotate5), Doors.Leaf(s.position2, s.rotate6),
                            Doors.Leaf(s.position7, s.rotate7), Doors.Leaf(s.position8, s.rotate8)])
  }

  function ViewB(s: DoorScene): Doors.Group {
    Doors.Group(s.statex2, [Doors.Leaf(s.position3, s.rotate1), Doors.Leaf(s.position4, s.rotate2)])
  }

  function ViewC(s: DoorScene): Doors.Group {
    Doors.Group(s.statex3, [Doors.Leaf(s.position5, s.rotate3), Doors.Leaf(s.position6, s.rotate4)])
  }

  /** The invariant of the whole door scene: each of the three groups is consistent with its table. */
  predicate Consistent(s: DoorScene) {
    && Doors.Consistent(TableA, ViewA(s))
    && Doors.Consistent(TableB, ViewB(s))
    && Doors.Consistent(TableC, ViewC(s))
  }

  // ---------------------------------------------------------------------------
  // Each block is an instance of the shared rule and touches only its group
  // ---------------------------------------------------------------------------

  lemma OpenBlockAIsInstance(s: DoorScene)
    ensures ViewA(OpenBlockA(s)) == Doors.Open(TableA, ViewA(s))
    ensures ViewB(OpenBlockA(s)) == ViewB(s) && ViewC(OpenBlockA(s)) == ViewC(s)
    ensures OpenBlockA(s).doorsOpen == s.doorsOpen
  {
    var r := Doors.Open(TableA, ViewA(s));
    if s.statex1 < 15 {
      assert ViewA(OpenBlockA(s)).leaves == r.leaves;
    }
  }

  lemma CloseBlockAIsInstance(s: DoorScene)
    ensures ViewA(CloseBlockA(s)) == Doors.Close(TableA, ViewA(s))
    ensures ViewB(CloseBlockA(s)) == ViewB(s) && ViewC(CloseBlockA(s)) == ViewC(s)
    ensures CloseBlockA(s).doorsOpen == s.doorsOpen
  {
    var r := Doors.Close(TableA, ViewA(s));
    if s.statex1 > 0 {
      assert ViewA(CloseBlockA(s)).leaves == r.leaves;
    }
  }

  lemma OpenBlockBIsInstance(s: DoorScene)
    ensures ViewB(OpenBlockB(s)) == Doors.Open(TableB, ViewB(s))
    ensures ViewA(OpenBlockB(s)) == ViewA(s) && ViewC(OpenBlockB(s)) == ViewC(s)
    ensures OpenBlockB(s).doorsOpen == s.doorsOpen
  {
    var r := Doors.Open(TableB, ViewB(s));
    if s.statex2 < 5 {
      assert ViewB(OpenBlockB(s)).leaves == r.leaves;
    }
  }

  lemma CloseBlockBIsInstance(s: DoorScene)
    ensures ViewB(CloseBlockB(s)) == Doors.Close(TableB, ViewB(s))
    ensures ViewA(CloseBlockB(s)) == ViewA(s) && ViewC(CloseBlockB(s)) == ViewC(s)
    ensures CloseBlockB(s).doorsOpen == s.doorsOpen
  {
    var r := Doors.Close(TableB, ViewB(s));
    if s.statex2 > 0 {
      assert ViewB(CloseBlockB(s)).leaves == r.leaves;
    }
  }

  lemma OpenBlockCIsInstance(s: DoorScene)
    ensures ViewC(OpenBlockC(s)) == Doors.Open(TableC, ViewC(s))
    ensures ViewA(OpenBlockC(s)) == ViewA(s) && ViewB(OpenBlockC(s)) == ViewB(s)
    ensures OpenBlockC(s).doorsOpen == s.doorsOpen
  {
    var r := Doors.Open(TableC, ViewC(s));
    if s.statex3 < 10 {
      assert ViewC(OpenBlockC(s)).leaves == r.leaves;
    }
  }

  lemma CloseBlockCIsInstance(s: DoorScene)
    ensures ViewC(CloseBlockC(s)) == Doors.Close(TableC, ViewC(s))
    ensures ViewA(CloseBlockC(s)) == ViewA(s) && ViewB(CloseBlockC(s)) == ViewB(s)
    ensures CloseBlockC(s).doorsOpen == s.doorsOpen
  {
    var r := Doors.Close(TableC, ViewC(s));
    if s.statex3 > 0 {
      assert ViewC(CloseBlockC(s)).leaves == r.leaves;
    }
  }

  /**
   The door part of a frame, seen group by group, is the shared rule applied
   to each group independently; `doorsOpen` becomes true once either key is held.
   */
  lemma FrameIsInstance(s: DoorScene, left: bool, right: bool)
    ensures ViewA(Frame(s, left, right)) == Doors.Tick(TableA, ViewA(s), left, right)
    ensures ViewB(Frame(s, left, right)) == Doors.Tick(TableB, ViewB(s), left, right)
    ensures ViewC(Frame(s, left, right)) == Doors.Tick(TableC, ViewC(s), left, right)
    ensures Frame(s, left, right).doorsOpen == (s.doorsOpen || left || right)
  {
    var a1 := if left then OpenBlockA(s) else s;
    OpenBlockAIsInstance(s);
    var a2 := if right then CloseBlockA(a1) else a1;
    CloseBlockAIsInstance(a1);
    var b1 := if left then OpenBlockB(a2) else a2;
    OpenBlockBIsInstance(a2);
    var b2 := if right then CloseBlockB(b1) else b1;
    CloseBlockBIsInstance(b1);
    var c1 := if left then OpenBlockC(b2) else b2;
    OpenBlockCIsInstance(b2);
    CloseBlockCIsInstance(c1);
  }

  // ---------------------------------------------------------------------------
  // Properties of the door scene
  // ---------------------------------------------------------------------------

  /** The declared start state is the rest pose of all three groups, every counter at 0. */
  lemma StartConsistent()
    ensures Consistent(Start)
    ensures Start.statex1 == 0 && Start.statex2 == 0 && Start.statex3 == 0
  {
    Doors.InitialConsistent(TableA);
    Doors.InitialConsistent(TableB);
    Doors.InitialConsistent(TableC);
    assert ViewA(Start).leaves == Doors.Initial(TableA).leaves;
    assert ViewB(Start).leaves == Doors.Initial(TableB).leaves;
    assert ViewC(Start).leaves == Doors.Initial(TableC).leaves;
  }

  /** Every frame keeps the invariant; hence A stays in [0, 15], B in [0, 5] and C in [0, 10]. */
  lemma FrameConsistent(s: DoorScene, left: bool, right: bool)
    requires Consistent(s)
    ensures Consistent(Frame(s, left, right))
    ensures 0 <= Frame(s, left, right).statex1 <= 15
    ensures 0 <= Frame(s, left, right).statex2 <= 5
    ensures 0 <= Frame(s, left, right).statex3 <= 10
  {
    FrameIsInstance(s, left, right);
    Doors.TickConsistent(TableA, ViewA(s), left, right);
    Doors.TickConsistent(TableB, ViewB(s), left, right);
    Doors.TickConsistent(TableC, ViewC(s), left, right);
  }

  /** Mirrored leaves keep opposite angles in every consistent scene. */
  lemma MirroredAngles(s: DoorScene)
    requires Consistent(s)
    ensures s.rotate5 + s.rotate8 == 0.0
    ensures s.rotate6 + s.rotate7 == 0.0
    ensures s.rotate1 + s.rotate2 == 0.0
    ensures s.rotate3 + s.rotate4 == 0.0
  {
    Doors.MirroredAnglesCancel(TableA, ViewA(s), 0, 3);
    Doors.MirroredAnglesCancel(TableA, ViewA(s), 1, 2);
    Doors.MirroredAnglesCancel(TableB, ViewB(s), 0, 1);
    Doors.MirroredAnglesCancel(TableC, ViewC(s), 0, 1);
  }

  /**
   At its limit an opening block changes nothing, and at 0 a closing block
   changes nothing.
   */
  lemma BlocksIdleAtBounds(s: DoorScene)
    ensures s.statex1 >= 15 ==> OpenBlockA(s) == s
    ensures s.statex1 <= 0 ==> CloseBlockA(s) == s
    ensures s.statex2 >= 5 ==> OpenBlockB(s) == s
    ensures s.statex2 <= 0 ==> CloseBlockB(s) == s
    ensures s.statex3 >= 10 ==> OpenBlockC(s) == s
    ensures s.statex3 <= 0 ==> CloseBlockC(s) == s
  {
  }

  /**
   One frame with LEFT followed by one frame with RIGHT restores a consistent
   scene exactly when no group was fully open.  Group by group: a group below
   its limit comes back unchanged, while a group already at its limit is
   closed by one tick (15 to 14, 5 to 4, 10 to 9).
   */
  lemma OpenFrameThenCloseFrame(s: DoorScene)
    requires Consistent(s)
    ensures var r := Frame(Frame(s, true, false), false, true);
            && (r == s.(doorsOpen := true) <==> s.statex1 < 15 && s.statex2 < 5 && s.statex3 < 10)
            && (s.statex1 < 15 ==> ViewA(r) == ViewA(s))
            && (s.statex1 == 15 ==> r.statex1 == 14 && ViewA(r) == Doors.Close(TableA, ViewA(s)))
            && (s.statex2 < 5 ==> ViewB(r) == ViewB(s))
            && (s.statex2 == 5 ==> r.statex2 == 4 && ViewB(r) == Doors.Close(TableB, ViewB(s)))
            && (s.statex3 < 10 ==> ViewC(r) == ViewC(s))
            && (s.statex3 == 10 ==> r.statex3 == 9 && ViewC(r) == Doors.Close(TableC, ViewC(s)))
  {
    var m := Frame(s, true, false);
    var r := Frame(m, false, true);
    FrameIsInstance(s, true, false);
    FrameIsInstance(m, false, true);
    if s.statex1 < 15 {
      Doors.CloseUndoesOpen(TableA, ViewA(s));
    }
    if s.statex2 < 5 {
      Doors.CloseUndoesOpen(TableB, ViewB(s));
    }
    if s.statex3 < 10 {
      Doors.CloseUndoesOpen(TableC, ViewC(s));
    }
    if s.statex1 < 15 && s.statex2 < 5 && s.statex3 < 10 {
      assert ViewA(r) == ViewA(s) && ViewB(r) == ViewB(s) && ViewC(r) == ViewC(s);
    }
  }

  /**
   LEFT and RIGHT held in the same frame: a counter strictly between 0 and
   its limit, or at 0, comes back unchanged (and so do its leaves); a counter
   at its limit drops by one.
   */
  lemma BothKeysHeld(s: DoorScene)
    requires Consistent(s)
    ensures var r := Frame(s, true, true);
            && (s.statex1 < 15 ==> ViewA(r) == ViewA(s))
            && (s.statex1 == 15 ==> r.statex1 == 14 && ViewA(r) == Doors.Close(TableA, ViewA(s)))
            && (s.statex2 < 5 ==> ViewB(r) == ViewB(s))
            && (s.statex2 == 5 ==> r.statex2 == 4 && ViewB(r) == Doors.Close(TableB, ViewB(s)))
            && (s.statex3 < 10 ==> ViewC(r) == ViewC(s))
            && (s.statex3 == 10 ==> r.statex3 == 9 && ViewC(r) == Doors.Close(TableC, ViewC(s)))
  {
    FrameIsInstance(s, true, true);
    Doors.BothHeld(TableA, ViewA(s));
    Doors.BothHeld(TableB, ViewB(s));
    Doors.BothHeld(TableC, ViewC(s));
  }

  /**
   The worked example for group A: one opening frame from the start moves
   door 1 from (31, 2, -20) to (31.2, 2, -19.67), turns it by 0.1 and sets
   the counter to 1.
   */
  lemma FirstOpeningFrame()
    ensures Frame(Start, true, false).position1 == Vec3(31.2, 2.0, -19.67)
    ensures Frame(Start, true, false).rotate5 == 0.1
    ensures Frame(Start, true, false).statex1 == 1
  {
  }
}
