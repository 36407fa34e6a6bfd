/**
 The door animation rule shared by every door group of the tram.

 A group is a set of leaves driven by one integer step counter running from
 0 (closed) to `limit` (open).  An opening tick, taken only below the limit,
 moves every leaf by its own position delta, turns it by its own angle delta
 and increments the counter; a closing tick, taken only above 0, applies the
 negated deltas and decrements the counter.  In one frame the opening tick
 (LEFT held) is evaluated first and the closing tick (RIGHT held) second.
 */
module Doors {
  import opened Vectors

  /** Geometry of one leaf: its rest position, and how far one tick moves and turns it. */
  datatype LeafConfig = LeafConfig(base: Vec3, step: Vec3, turn: real)

  /** The constant table of one group: the counter limit and one entry per leaf. */
  datatype GroupConfig = GroupConfig(limit: int, leaves: seq<LeafConfig>)

  /** Current placement of one leaf; the angle is about the vertical axis. */
  datatype Leaf = Leaf(position: Vec3, angle: real)

  /** Current state of one group: the step counter and one placement per leaf. */
  datatype Group = Group(counter: int, leaves: seq<Leaf>)

  /** The state holds exactly one placement per configured leaf. */
  predicate Shaped(cfg: GroupConfig, g: Group) {
    |g.leaves| == |cfg.leaves|
  }

  /** Where leaf `c` stands after `k` net opening ticks. */
  function LeafAt(c: LeafConfig, k: int): Leaf {
    Leaf(Add(c.base, Scale(k as real, c.step)), k as real * c.turn)
  }

  /** The group state whose counter is `k` and whose leaves all stand where `k` ticks put them. */
  function Pose(cfg: GroupConfig, k: int): Group
  {
    Group(k, seq(|cfg.leaves|, i requires 0 <= i < |cfg.leaves| => LeafAt(cfg.leaves[i], k)))
  }

  /**
   The invariant every reachable state keeps: the counter is within
   [0, limit] and each leaf is at base + counter * step, turned by
   counter * turn.
   */
  predicate Consistent(cfg: GroupConfig, g: Group) {
    && 0 <= g.counter <= cfg.limit
    && Shaped(cfg, g)
    && forall i :: 0 <= i < |g.leaves| ==> g.leaves[i] == LeafAt(cfg.leaves[i], g.counter)
  }

  /** The state before any key was pressed: counter 0, leaves at rest. */
  function Initial(cfg: GroupConfig): Group {
    Pose(cfg, 0)
  }

  /** One leaf moved forward by one tick. */
  function Push(l: Leaf, c: LeafConfig): Leaf {
    Leaf(Add(l.position, c.step), l.angle + c.turn)
  }

  /** One leaf moved back by one tick: the negated deltas. */
  function Pull(l: Leaf, c: LeafConfig): Leaf {
    Leaf(Add(l.position, Neg(c.step)), l.angle - c.turn)
  }

  /** The opening tick (LEFT held). */
  function Open(cfg: GroupConfig, g: Group): (r: Group)
    requires Shaped(cfg, g)
    ensures Shaped(cfg, r)
    ensures g.counter >= cfg.limit ==> r == g
    ensures g.counter < cfg.limit ==>
              && r.counter == g.counter + 1
              && forall i :: 0 <= i < |r.leaves| ==> r.leaves[i] == Push(g.leaves[i], cfg.leaves[i])
  {
    if g.counter < cfg.limit then
      Group(g.counter + 1, seq(|g.leaves|, i requires 0 <= i < |g.leaves| => Push(g.leaves[i], cfg.leaves[i])))
    else
      g
  }

  /** The closing tick (RIGHT held). */
  function Close(cfg: GroupConfig, g: Group): (r: Group)
    requires Shaped(cfg, g)
    ensures Shaped(cfg, r)
    ensures g.counter <= 0 ==> r == g
    ensures g.counter > 0 ==>
              && r.counter == g.counter - 1
              && forall i :: 0 <= i < |r.leaves| ==> r.leaves[i] == Pull(g.leaves[i], cfg.leaves[i])
  {
    if g.counter > 0 then
      Group(g.counter - 1, seq(|g.leaves|, i requires 0 <= i < |g.leaves| => Pull(g.leaves[i], cfg.leaves[i])))
    else
      g
  }

  /** One frame: the opening tick if LEFT is held, then the closing tick if RIGHT is held. */
  function Tick(cfg: GroupConfig, g: Group, left: bool, right: bool): (r: Group)
    requires Shaped(cfg, g)
    ensures Shaped(cfg, r)
    ensures !left && !right ==> r == g
    ensures g.counter - 1 <= r.counter <= g.counter + 1
  {
    var h := if left then Open(cfg, g) else g;
    if right then Close(cfg, h) else h
  }

  /** `n` frames with only LEFT held. */
  function OpenTimes(cfg: GroupConfig, g: Group, n: nat): (r: Group)
    requires Shaped(cfg, g)
    ensures Shaped(cfg, r)
    decreases n
  {
    if n == 0 then g else OpenTimes(cfg, Open(cfg, g), n - 1)
  }

  /** `n` frames with only RIGHT held. */
  function CloseTimes(cfg: GroupConfig, g: Group, n: nat): (r: Group)
    requires Shaped(cfg, g)
    ensures Shaped(cfg, r)
    decreases n
  {
    if n == 0 then g else CloseTimes(cfg, Close(cfg, g), n - 1)
  }

  function Min(a: int, b: int): int {
    if a <= b then a else b
  }

  function Max(a: int, b: int): int {
    if a <= b then b else a
  }

  // ---------------------------------------------------------------------------
  // Properties
  // ---------------------------------------------------------------------------

  /** The initial state satisfies the invariant and puts every leaf at its base, unturned. */
  lemma InitialConsistent(cfg: GroupConfig)
    requires cfg.limit >= 0
    ensures Consistent(cfg, Initial(cfg)) && Initial(cfg).counter == 0
    ensures forall i :: 0 <= i < |cfg.leaves| ==> Initial(cfg).leaves[i] == Leaf(cfg.leaves[i].base, 0.0)
  {
    forall i | 0 <= i < |cfg.leaves|
      ensures Initial(cfg).leaves[i] == Leaf(cfg.leaves[i].base, 0.0)
    {
      assert Scale(0.0, cfg.leaves[i].step) == Zero;
    }
  }

  /** A consistent state is fully determined by its counter. */
  lemma ConsistentIsPose(cfg: GroupConfig, g: Group)
    requires Consistent(cfg, g)
    ensures g == Pose(cfg, g.counter)
  {
    var p := Pose(cfg, g.counter);
    assert g.leaves == p.leaves;
  }

  /** Moving one tick forward from the closed form for `k` gives the closed form for `k + 1`. */
  lemma PushLeafAt(c: LeafConfig, k: int)
    ensures Push(LeafAt(c, k), c) == LeafAt(c, k + 1)
  {
  }

  /** Moving one tick back from the closed form for `k` gives the closed form for `k - 1`. */
  lemma PullLeafAt(c: LeafConfig, k: int)
    ensures Pull(LeafAt(c, k), c) == LeafAt(c, k - 1)
  {
  }

  /** An opening tick keeps the invariant; it lands on the pose for the next counter, or stays at the limit. */
  lemma OpenConsistent(cfg: GroupConfig, g: Group)
    requires Consistent(cfg, g)
    ensures Consistent(cfg, Open(cfg, g))
    ensures Open(cfg, g) == Pose(cfg, Min(g.counter + 1, cfg.limit))
  {
    var r := Open(cfg, g);
    if g.counter < cfg.limit {
      forall i | 0 <= i < |r.leaves|
        ensures r.leaves[i] == LeafAt(cfg.leaves[i], r.counter)
      {
        PushLeafAt(cfg.leaves[i], g.counter);
      }
    }
    ConsistentIsPose(cfg, r);
  }

  /** A closing tick keeps the invariant; it lands on the pose for the previous counter, or stays at 0. */
  lemma CloseConsistent(cfg: GroupConfig, g: Group)
    requires Consistent(cfg, g)
    ensures Consistent(cfg, Close(cfg, g))
    ensures Close(cfg, g) == Pose(cfg, Max(g.counter - 1, 0))
  {
    var r := Close(cfg, g);
    if g.counter > 0 {
      forall i | 0 <= i < |r.leaves|
        ensures r.leaves[i] == LeafAt(cfg.leaves[i], r.counter)
      {
        PullLeafAt(cfg.leaves[i], g.counter);
      }
    }
    ConsistentIsPose(cfg, r);
  }

  /** Every frame keeps the invariant, so the counter never leaves [0, limit]. */
  lemma TickConsistent(cfg: GroupConfig, g: Group, left: bool, right: bool)
    requires Consistent(cfg, g)
    ensures Consistent(cfg, Tick(cfg, g, left, right))
    ensures 0 <= Tick(cfg, g, left, right).counter <= cfg.limit
  {
    var h := if left then Open(cfg, g) else g;
    if left {
      OpenConsistent(cfg, g);
    }
    if right {
      CloseConsistent(cfg, h);
    }
  }

  /** A closing tick undoes an opening tick taken below the limit, for any state. */
  lemma CloseUndoesOpen(cfg: GroupConfig, g: Group)
    requires Shaped(cfg, g) && 0 <= g.counter < cfg.limit
    ensures Close(cfg, Open(cfg, g)) == g
  {
    var r := Close(cfg, Open(cfg, g));
    assert r.leaves == g.leaves;
  }

  /** An opening tick undoes a closing tick taken above 0 (and not beyond the limit), for any state. */
  lemma OpenUndoesClose(cfg: GroupConfig, g: Group)
    requires Shaped(cfg, g) && 0 < g.counter <= cfg.limit
    ensures Open(cfg, Close(cfg, g)) == g
  {
    var r := Open(cfg, Close(cfg, g));
    assert r.leaves == g.leaves;
  }

  /**
   LEFT and RIGHT held together: open then close run in sequence, so a
   state below the limit (including 0) comes back unchanged, while a
   fully open group closes by one tick.
   */
  lemma BothHeld(cfg: GroupConfig, g: Group)
    requires Consistent(cfg, g)
    ensures g.counter < cfg.limit ==> Tick(cfg, g, true, true) == g
    ensures 0 < g.counter == cfg.limit ==>
              && Tick(cfg, g, true, true) == Close(cfg, g)
              && Tick(cfg, g, true, true) == Pose(cfg, cfg.limit - 1)
  {
    if g.counter < cfg.limit {
      CloseUndoesOpen(cfg, g);
    } else {
      CloseConsistent(cfg, g);
    }
  }

  /** Leaves whose angle deltas cancel keep opposite angles in every consistent state. */
  lemma MirroredAnglesCancel(cfg: GroupConfig, g: Group, i: int, j: int)
    requires Consistent(cfg, g)
    requires 0 <= i < |cfg.leaves| && 0 <= j < |cfg.leaves|
    requires cfg.leaves[i].turn + cfg.leaves[j].turn == 0.0
    ensures g.leaves[i].angle + g.leaves[j].angle == 0.0
  {
    var k := g.counter as real;
    calc {
      g.leaves[i].angle + g.leaves[j].angle;
      k * cfg.leaves[i].turn + k * cfg.leaves[j].turn;
      k * (cfg.leaves[i].turn + cfg.leaves[j].turn);
    }
  }

  /** `n` opening frames from a consistent state reach the pose for counter + n, capped at the limit. */
  lemma {:induction false} OpenTimesPose(cfg: GroupConfig, g: Group, n: nat)
    requires Consistent(cfg, g)
    ensures OpenTimes(cfg, g, n) == Pose(cfg, Min(g.counter + n, cfg.limit))
    decreases n
  {
    if n == 0 {
      ConsistentIsPose(cfg, g);
    } else {
      OpenConsistent(cfg, g);
      OpenTimesPose(cfg, Open(cfg, g), n - 1);
    }
  }

  /** `n` closing frames from a consistent state reach the pose for counter - n, floored at 0. */
  lemma {:induction false} CloseTimesPose(cfg: GroupConfig, g: Group, n: nat)
    requires Consistent(cfg, g)
    ensures CloseTimes(cfg, g, n) == Pose(cfg, Max(g.counter - n, 0))
    decreases n
  {
    if n == 0 {
      ConsistentIsPose(cfg, g);
    } else {
      CloseConsistent(cfg, g);
      CloseTimesPose(cfg, Close(cfg, g), n - 1);
    }
  }

  /**
   Opening `limit` times from rest reaches the fully open pose, and one
   further opening tick changes nothing.
   */
  lemma OpenFully(cfg: GroupConfig)
    requires cfg.limit >= 0
    ensures OpenTimes(cfg, Initial(cfg), cfg.limit as nat) == Pose(cfg, cfg.limit)
    ensures Open(cfg, Pose(cfg, cfg.limit)) == Pose(cfg, cfg.limit)
  {
    InitialConsistent(cfg);
    OpenTimesPose(cfg, Initial(cfg), cfg.limit as nat);
  }

  /**
   `n` opening frames followed by `n` closing frames restore a consistent
   state exactly, counter, positions and angles, as long as the opening
   frames did not run into the limit.
   */
  lemma OpenThenCloseRestores(cfg: GroupConfig, g: Group, n: nat)
    requires Consistent(cfg, g) && g.counter + n <= cfg.limit
    ensures CloseTimes(cfg, OpenTimes(cfg, g, n), n) == g
  {
    OpenTimesPose(cfg, g, n);
    var p := Pose(cfg, g.counter + n);
    assert Consistent(cfg, p);
    CloseTimesPose(cfg, p, n);
    ConsistentIsPose(cfg, g);
  }
}
