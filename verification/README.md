# Tram scene: per-frame state update

A Dafny model of the state update that the tram scene renderer runs once per
frame inside its render loop. The scene shows a tram whose eight door leaves
animate and whose body can be driven along the x axis. The update does four
things:

- **Door groups** (`Doors`, `DoorBlocks`). There are three independent step
  counters:
  - group A: `doorsStatex1`, limit 15, doors 1, 2, 7 and 8;
  - group B: `doorsStatex2`, limit 5, doors 3 and 4;
  - group C: `doorsStatex3`, limit 10, doors 5 and 6.

  With LEFT held, each group opens by one tick if it is below its limit.
  With RIGHT held, it closes by one tick if it is above 0. Both blocks run in
  the same frame, opening first.

  `Doors` states one parameterised rule: a limit plus a per-leaf base
  position, position delta and angle delta. `DoorBlocks` writes the six
  source blocks out literally over the loop's own variables. It then proves
  that each block is that rule with a constant table, and that it touches no
  other group.
- **Tram controller** (`Tram`). In order, each frame:
  1. SPACE snaps the camera to the tram.
  2. E flips the follow flag.
  3. UP moves the tram +1 in x; otherwise DOWN moves it -1.

  Before either move, if follow is on, the camera is synced through
  `camToTram`. The sync uses the position from before the move.
- **`camToTram`** (`Tram.CamToTram`). It writes the camera to
  p/100 + (-1.2, 0, -0.8). But its guard compares against
  p/100 + (1.2, 0, 0.8), with the opposite signs. The model keeps that
  mismatch and proves what it implies:
  - the value stays put exactly when the camera sits at either target;
  - a camera parked at the guard target is never synced.
- **Tram model matrix** (`Transform`). The matrix is
  translate(0, -0.5, 0) · scale(0.01) · translate(p). It has no rotation, so
  it is modelled as a uniform-scale affine map. The offset is
  (0, -0.5, 0) + 0.01·p.
- **Building instance offsets** (`Grid`). A nested loop fills a 20-element
  array. The model is a method with loop invariants that proves every write
  is in bounds and that entry i holds (-9 + 2·(i mod 10), 0, -2 + 3·(i div 10)).

`Frame` composes the tram and door updates into one step over a `Keys`
record of "held this frame" booleans. Over any key sequence from start-up,
it proves:
- every counter stays in range;
- mirrored leaves keep opposite angles;
- the tram stays on the line y = 1, z = 1.

Floats are modelled as exact reals and the float-typed counters as integers.
Every identity here therefore holds exactly. The program's single-precision
accumulation of 0.33f or 0.05 would drift.

Three facts about the program shape the model:
- There are three door counters, with limits 15, 5 and 10.
- With LEFT and RIGHT held together, opening and closing both run in
  sequence.
- The camera-sync guard compares against a different position from the one
  it writes.

## Model

| member | source | states |
|---|---|---|
| Doors.Open | Juliusz_Gasecki_210184_zad5/src/main.cpp:562-597 | Below the limit an opening tick increments the counter and adds each leaf's own position and angle delta; at or above the limit it changes nothing |
| Doors.Close | Juliusz_Gasecki_210184_zad5/src/main.cpp:598-634 | Above 0 a closing tick decrements the counter and applies each leaf's negated deltas; at or below 0 it changes nothing |
| Doors.Tick | Juliusz_Gasecki_210184_zad5/src/main.cpp:562-634 | A frame with neither key held leaves the group alone, and any frame moves the counter by at most one |
| Doors.InitialConsistent | Juliusz_Gasecki_210184_zad5/src/main.cpp:418-445 | The start state (counter 0, every leaf at its declared position, angle 0) satisfies the group invariant |
| Doors.ConsistentIsPose | Juliusz_Gasecki_210184_zad5/src/main.cpp:565-575 | A group satisfying the invariant is fully determined by its counter |
| Doors.OpenConsistent | Juliusz_Gasecki_210184_zad5/src/main.cpp:565-575 | An opening tick keeps every leaf at base + counter·delta with angle counter·turn, landing on the pose for min(counter+1, limit) |
| Doors.CloseConsistent | Juliusz_Gasecki_210184_zad5/src/main.cpp:601-611 | A closing tick keeps the closed form, landing on the pose for max(counter-1, 0) |
| Doors.TickConsistent | Juliusz_Gasecki_210184_zad5/src/main.cpp:562-634 | Every frame keeps the invariant, so the counter never leaves [0, limit] |
| Doors.CloseUndoesOpen | Juliusz_Gasecki_210184_zad5/src/main.cpp:567-611 | For any state with 0 <= counter < limit, a closing tick exactly undoes an opening tick: counter, positions and angles |
| Doors.OpenUndoesClose | Juliusz_Gasecki_210184_zad5/src/main.cpp:567-611 | For any state with 0 < counter <= limit, an opening tick exactly undoes a closing tick |
| Doors.BothHeld | Juliusz_Gasecki_210184_zad5/src/main.cpp:562-634 | With LEFT and RIGHT both held, a group below its limit (including at 0) is unchanged, and a fully open group closes by one tick |
| Doors.MirroredAnglesCancel | Juliusz_Gasecki_210184_zad5/src/main.cpp:571-574 | Two leaves whose angle deltas cancel keep opposite angles in every consistent state |
| Doors.OpenTimesPose | Juliusz_Gasecki_210184_zad5/src/main.cpp:565-575 | n opening frames reach the pose for min(counter+n, limit) |
| Doors.CloseTimesPose | Juliusz_Gasecki_210184_zad5/src/main.cpp:601-611 | n closing frames reach the pose for max(counter-n, 0) |
| Doors.OpenFully | Juliusz_Gasecki_210184_zad5/src/main.cpp:565-575 | limit opening frames from rest reach the fully open pose, and one more opening tick changes nothing |
| Doors.OpenThenCloseRestores | Juliusz_Gasecki_210184_zad5/src/main.cpp:562-634 | n opening frames then n closing frames restore the state exactly, provided counter + n <= limit |
| DoorBlocks.OpenBlockAIsInstance | Juliusz_Gasecki_210184_zad5/src/main.cpp:565-575 | The group-A LEFT block is the shared opening rule with table A (limit 15, doors 1, 2, 7, 8) and leaves groups B and C alone |
| DoorBlocks.CloseBlockAIsInstance | Juliusz_Gasecki_210184_zad5/src/main.cpp:601-611 | The group-A RIGHT block is the shared closing rule with table A and leaves groups B and C alone |
| DoorBlocks.OpenBlockBIsInstance | Juliusz_Gasecki_210184_zad5/src/main.cpp:720-726 | The group-B LEFT block is the shared opening rule with table B (limit 5, doors 3, 4) and leaves groups A and C alone |
| DoorBlocks.CloseBlockBIsInstance | Juliusz_Gasecki_210184_zad5/src/main.cpp:742-748 | The group-B RIGHT block is the shared closing rule with table B and leaves groups A and C alone |
| DoorBlocks.OpenBlockCIsInstance | Juliusz_Gasecki_210184_zad5/src/main.cpp:780-786 | The group-C LEFT block is the shared opening rule with table C (limit 10, doors 5, 6) and leaves groups A and B alone |
| DoorBlocks.CloseBlockCIsInstance | Juliusz_Gasecki_210184_zad5/src/main.cpp:802-808 | The group-C RIGHT block is the shared closing rule with table C and leaves groups A and B alone |
| DoorBlocks.FrameIsInstance | Juliusz_Gasecki_210184_zad5/src/main.cpp:562-821 | The door part of a frame acts on each group independently as the shared rule, and raises doorsOpen once either key is held |
| DoorBlocks.StartConsistent | Juliusz_Gasecki_210184_zad5/src/main.cpp:418-445 | The declared door positions, angles and counters form the rest pose of all three groups, every counter 0 |
| DoorBlocks.FrameConsistent | Juliusz_Gasecki_210184_zad5/src/main.cpp:562-821 | Every frame keeps the scene invariant; counter A stays in [0, 15], B in [0, 5] and C in [0, 10] |
| DoorBlocks.MirroredAngles | Juliusz_Gasecki_210184_zad5/src/main.cpp:571-574 | In every consistent scene rot5+rot8, rot6+rot7, rot1+rot2 and rot3+rot4 are all 0 |
| DoorBlocks.BlocksIdleAtBounds | Juliusz_Gasecki_210184_zad5/src/main.cpp:562-821 | Each opening block changes nothing at its limit and each closing block changes nothing at 0 |
| DoorBlocks.OpenFrameThenCloseFrame | Juliusz_Gasecki_210184_zad5/src/main.cpp:562-821 | A LEFT frame followed by a RIGHT frame restores every door if and only if no group was fully open; per group, one below its limit comes back unchanged and one at its limit closes by one tick (15 to 14, 5 to 4, 10 to 9) |
| DoorBlocks.BothKeysHeld | Juliusz_Gasecki_210184_zad5/src/main.cpp:562-821 | With both keys held, a group below its limit keeps its counter, positions and angles, and a group at its limit closes by one tick (15 to 14, 5 to 4, 10 to 9) |
| DoorBlocks.FirstOpeningFrame | Juliusz_Gasecki_210184_zad5/src/main.cpp:418-575 | One opening frame from the start moves door 1 from (31, 2, -20) to (31.2, 2, -19.67), turns it by 0.1 and sets counter A to 1 |
| Tram.CamToTram | Juliusz_Gasecki_210184_zad5/src/main.cpp:38-47 | The camera keeps its value exactly when it is at p/100+(1.2,0,0.8) or at p/100+(-1.2,0,-0.8), and ends at p/100+(-1.2,0,-0.8) exactly when it was not at p/100+(1.2,0,0.8) |
| Tram.TargetsDiffer | Juliusz_Gasecki_210184_zad5/src/main.cpp:39-44 | The position the guard compares against is never the position the sync writes |
| Tram.CamToTramIdempotent | Juliusz_Gasecki_210184_zad5/src/main.cpp:38-47 | Applying camToTram twice gives the same camera as applying it once |
| Tram.GuardSkipsMirroredCamera | Juliusz_Gasecki_210184_zad5/src/main.cpp:39 | A camera at p/100+(1.2,0,0.8) is left there, away from where a sync would place it |
| Tram.Snapped | Juliusz_Gasecki_210184_zad5/src/main.cpp:494-500 | SPACE puts the camera at the tram's sync target; without SPACE the camera is untouched |
| Tram.Step | Juliusz_Gasecki_210184_zad5/src/main.cpp:494-528 | y and z never change; UP adds 1 to x, DOWN subtracts 1 only without UP; E flips follow; a move with follow on syncs the camera against the pre-move position, otherwise the camera keeps its post-SPACE value |
| Tram.UpWinsOverDown | Juliusz_Gasecki_210184_zad5/src/main.cpp:509-528 | Holding DOWN together with UP behaves as UP alone |
| Tram.ForwardThenBackward | Juliusz_Gasecki_210184_zad5/src/main.cpp:509-528 | A forward frame followed by a backward frame returns the tram to its position exactly |
| Tram.ToggleTwice | Juliusz_Gasecki_210184_zad5/src/main.cpp:501-504 | Two frames with E held restore the follow flag and the whole controller |
| Tram.CameraLagsOneUnit | Juliusz_Gasecki_210184_zad5/src/main.cpp:509-528 | After a moving frame with follow on, unless the camera stood at p/100+(1.2,0,0.8), the camera is synced to where the tram was, one unit behind its new position |
| Tram.SnapThenFollow | Juliusz_Gasecki_210184_zad5/src/main.cpp:494-528 | After SPACE the follow sync of the same frame leaves the camera at the pre-move sync target |
| Transform.Compose | Juliusz_Gasecki_210184_zad5/src/main.cpp:507-529 | The product of two rotation-free matrices applies the right factor first, then the left |
| Transform.Translate | Juliusz_Gasecki_210184_zad5/src/main.cpp:507 | translate(m, v) maps q to m applied to q + v |
| Transform.ScaleBy | Juliusz_Gasecki_210184_zad5/src/main.cpp:508 | scale(m, k) maps q to m applied to k·q |
| Transform.TramModelClosedForm | Juliusz_Gasecki_210184_zad5/src/main.cpp:507-529 | The tram matrix has scale 0.01 and offset (0,-0.5,0) + 0.01·p, mapping q to 0.01·(q+p) + (0,-0.5,0) |
| Grid.Translations | Juliusz_Gasecki_210184_zad5/src/main.cpp:298-312 | The nested loop makes exactly 20 in-bounds writes, index ends at 20, and entry i is (-9 + 2·(i mod 10), 0, -2 + 3·(i div 10)) |
| Grid.EntryAt | Juliusz_Gasecki_210184_zad5/src/main.cpp:301-309 | The write for row y = -3 + 3·row and column x = -10 + 2·column lands at index 10·row + column with offset (x+1, 0, y+1) |
| Grid.EntriesDistinct | Juliusz_Gasecki_210184_zad5/src/main.cpp:298-312 | No two building instances share an offset |
| Grid.EntriesInBounds | Juliusz_Gasecki_210184_zad5/src/main.cpp:298-312 | Every offset has x in [-9, 9], y = 0 and z in {-2, 1} |
| Frame.StartInvariant | Juliusz_Gasecki_210184_zad5/src/main.cpp:415-447 | The start-up state (tram at (1,1,1), doors at rest) satisfies the frame invariant |
| Frame.StepInvariant | Juliusz_Gasecki_210184_zad5/src/main.cpp:494-821 | One frame keeps the doors consistent and the tram on y = 1, z = 1 at a whole-number x, whatever keys are held |
| Frame.RunInvariant | Juliusz_Gasecki_210184_zad5/src/main.cpp:448-821 | Any sequence of frames keeps the invariant |
| Frame.Reachable | Juliusz_Gasecki_210184_zad5/src/main.cpp:415-821 | From start-up, under any key sequence, counters stay in [0,15], [0,5], [0,10], mirrored angle sums stay 0, and the tram's y and z stay 1 |
| Frame.TramTransformAfterMove | Juliusz_Gasecki_210184_zad5/src/main.cpp:507-531 | The tram node's matrix is rebuilt from the post-move position, giving offset (0,-0.5,0) + 0.01·(moved position) |
| Frame.PartsIndependent | Juliusz_Gasecki_210184_zad5/src/main.cpp:494-821 | The door keys do not affect the tram and the tram keys do not affect the doors |

## Left out

- Window, context, shader, VAO/VBO, texture and cubemap setup, uniform upload, draw calls and buffer swap/poll: these are graphics-API I/O with no state logic.
- `loadTexture` and `loadCubemap`: image file I/O and texture upload.
- `GraphNode`, `DrawModel`, `Model`, `Shader` and `Camera`: their definitions (`shader.h`, `camera.h`, `model.h`) are not part of this model. Draw traversal, child composition and camera movement cannot be stated against source. The tram node's eight fixed door children (lines 405-412) are taken as given.
- Door local-transform matrices: they contain `glm::rotate`, i.e. sine and cosine in floating point. Only the angles are tracked.
- The door-2 and door-7 matrices built inside the door-A blocks without resetting to identity: these are transform values, not door state.
- Floating-point rounding: the 0.33f and 0.05 accumulations, and the exact float `!=` in `camToTram`. Reals are used, so every identity here holds exactly where the program would drift.
- Keyboard camera movement in `processInput` (W/A/S/D with `deltaTime`), mouse and scroll callbacks, and frame timing. The tram step takes the camera position as it stands after them.
- The counters `doorsStatez1` to `doorsStatez3`: they are only used in commented-out code.
- The hard-coded vertex arrays and the draw counts at lines 890 and 915: data and draw-call arguments, not state logic.
- Tram.CamToTram: only the resulting camera value is modelled, not whether a write happened. So the model cannot show that a camera already at the sync target is still rewritten every time.
- Grid.Translations: the array starts filled with zero vectors, whereas the program leaves `glm::vec3` default-constructed. The contract shows every entry is overwritten, so this makes no difference.
