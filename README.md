# Raycasting engine model

A Dafny model of the `Engine` class of a small first-person raycaster (`index.js`).
The engine keeps a camera pose over a 2D occupancy grid (the *level*). The pose is
a position in cells and a heading in degrees. The engine also keeps a `prev` value
for each of the three coordinates (the *snapshot* fields). Each holds the value the
coordinate had before the last command that changed it, or its value at the last
render, whichever came later. Four key commands move or turn the camera:

- Moves are gated by a collision test. They either apply the whole displacement
  and record the old position in `prevX`/`prevY`, or change nothing.
- Turns add or subtract a fixed step from the heading and record the old heading
  in `prevAngle`. The heading is never normalised.

So a turn left followed by a turn right restores the rendered heading, yet leaves
`prevAngle` at the intermediate heading. The next frame is then redrawn although
the view has not changed (`Camera.TurnBackRenders`).

On each frame the engine checks whether any coordinate differs from its `prev`
value. If one does, it casts one ray per screen column. Each ray is a fixed-step march that
stops at the first point inside a wall. The engine then writes
`floor(halfHeight / correctedDistance)` into the column's slot of a reused buffer,
hands the buffer to the renderer and copies every coordinate into its `prev` field.

Modules, one per component:

- `Level` (level.dfy): the grid, the cell lookup `hasCollision` (`Blocked`), and
  what a well-formed level is. A well-formed level is rectangular, and every cell
  of its outer ring is a wall. The x coordinate selects the row, y the column.
- `Camera` (camera.dfy): the pose as a value (`Pose`, with `None` standing for the
  `null` snapshot fields). It also holds pure definitions of what each command,
  the render snapshot and the change test do to the pose, and lemmas about them.
- `March` (march.dfy): the fixed-step march as a function (`MarchSteps`) with an
  integer measure that proves it terminates, and the lemma that it stops at the
  first wall.
- `Raycaster` (raycaster.dfy): the `Engine` class. The camera fields are mutable
  fields and the configuration is `const`. `halfWallHeights` is an `array`
  overwritten in place. Each method is proved against the `Camera` and `March`
  definitions.

Abstractions:

- Numbers are exact reals. `Math.floor` is `.Floor`.
- `Math.cos` and `Math.sin` are composed with `toRadians`, then taken as given
  functions of the angle in degrees. `Math.sqrt` is also a given function. These
  three form a `Trig` value passed to the constructor. The engine relies only on
  these facts about them:
  - the cosine and sine of any angle lie in [-1, 1], and cos² + sin² = 1;
  - the square root of v ≥ 0 is the non-negative r with r·r = v.
- The renderer is a sink. The ghost field `drawn` records every buffer handed to
  it.
- A half-wall height is a `Height`: `Finite(n)`, or `NonFinite` for the Infinity
  or NaN that JavaScript produces when the distance is zero.

The engine's invariant (`Engine.Valid`) and the constructor's preconditions:

- The level is well formed.
- The camera stands in a cell off the outer ring.
- `velocity >= 1` and `rate >= 1`.

Together these ensure the following (the shipped configuration meets all of
them; see `Level.SampleLevelIsWellFormed`):

- Every grid read of a move or of a ray march has valid indices. With a step of
  at most one cell per axis, nothing can jump over the ring.
- Every ray march terminates.

## Model

| member | source | states |
|---|---|---|
| `Level.Blocked` | index.js:129-131 | `hasCollision` reads the cell `level[floor(x)][floor(y)]`. It requires both floored coordinates to index the grid. On a well-formed level a free cell is never on the outer ring. |
| `Level.SampleLevelIsWellFormed` | index.js:197-216 | The shipped 10×10 level has a fully walled outer ring. The shipped start point (2, 2) is a free cell off the ring. |
| `Camera.Moved` | index.js:53-58 | The collision gate shared by both moves never leaves the camera on the outer ring. |
| `Camera.MoveForward` | index.js:49-59 | `moveForward` keeps the camera off the outer ring. |
| `Camera.MoveBack` | index.js:61-71 | `moveBack` keeps the camera off the outer ring. |
| `Camera.ForwardIsAllOrNothing` | index.js:49-59 | The candidate cell is always on the grid. A wall at the candidate cell leaves the whole pose unchanged. Otherwise the position becomes old + delta, and the previous position is the pre-move position. The heading and its snapshot are never touched. |
| `Camera.BackIsAllOrNothing` | index.js:61-71 | The same as for `moveForward`, with the delta subtracted: the candidate cell is on the grid, and the move is all or nothing. |
| `Camera.ForwardThenBackReturns` | index.js:49-71 | Start from a free cell and make a successful forward move. A back move then returns to the start position, because the heading and so the delta are unchanged. |
| `Camera.RotationRoundTrip` | index.js:81-89 | Left then right, or right then left, restores the heading exactly. Each turn records the heading it started from. Neither turn touches the position or its snapshot. |
| `Camera.RotateLeft` | index.js:81-84 | `rotateLeft` lowers the heading by the rotation step and records the old heading. Nothing else changes. The round trip with `rotateRight` is `Camera.RotationRoundTrip`. |
| `Camera.RotateRight` | index.js:86-89 | `rotateRight` raises the heading by the rotation step and records the old heading. Nothing else changes. |
| `Camera.Snapshot` | index.js:95-97 | After drawing, every snapshot field equals its current field, and the heading and position are kept. `Camera.SnapshotSilences` shows no render is due afterwards. |
| `Camera.ShouldRender` | index.js:103-105 | The `shouldRender` getter, with y compared against its own snapshot: a render is due exactly when taking the snapshot would change the pose. `Camera.SnapshotSilences` and `Camera.CommandAfterRenderIsDetected` state its consequences. |
| `Camera.ShouldRenderAsWritten` | index.js:103-105 | The getter as written never asks for a render the corrected test would not. When it stays silent, the corrected test fires exactly when y differs from its snapshot. `Camera.AsWrittenIgnoresY` shows it never looks at y. |
| `Camera.SnapshotSilences` | index.js:91-105 | Right after the snapshot no render is due, under the corrected test and under the test as written. |
| `Camera.TurnBackRenders` | index.js:81-105 | After a render, a left turn and a right turn by the same non-zero step restore the rendered heading and position. Yet a render is due, because `prevAngle` holds the intermediate heading. |
| `Camera.Initial` | index.js:7-12 | The pose the constructor builds: the given heading and position with all three snapshot fields unset. `Raycaster.Engine.constructor` starts from it, and `Camera.InitialPoseRenders` shows the first frame is drawn. |
| `Camera.InitialPoseRenders` | index.js:10-12 | The snapshot fields start unset, so the first frame is always drawn. |
| `Camera.CommandAfterRenderIsDetected` | index.js:103-105 | After a render, one command makes the next render due exactly when it changed the heading or the position (corrected test). |
| `Camera.AsWrittenIgnoresY` | index.js:104 | The change test as written gives the same answer whatever y and its snapshot are. |
| `Camera.AsWrittenMissesYOnlyMove` | index.js:104 | After a render, take a successful move whose delta is purely along y. The test as written reports no change; the corrected test reports one. |
| `Camera.KeyCommand` | index.js:32-47 | `KeyW`, `KeyS`, `KeyA` and `KeyD` select forward, back, left and right, each exactly for its own key. Every other key selects nothing. |
| `Camera.Apply` | index.js:32-47 | No command can leave the camera on the outer ring. |
| `March.MeasureDecreases` | index.js:121-125 | From a cell off the outer ring, one march step stays on the grid and lowers a non-negative integer measure by one. This is why the loop terminates. |
| `March.MarchSteps` | index.js:118-125 | The number of steps the `castRay` loop takes. It is zero exactly when the start point is in a wall. `March.MarchStopsAtFirstWall` proves it is the first step point in a wall. |
| `March.MarchStopsAtFirstWall` | index.js:118-125 | The march takes no step when it starts in a wall. Otherwise it stops at the first step point inside a wall, every earlier point is free, and every visited point is on the grid. |
| `March.Advance` | index.js:122-123 | The point after k `+=` steps. It never moves against the step: a non-negative step never lowers the coordinate and a non-positive one never raises it. `March.AdvanceIsLinear` gives its closed form, and `Raycaster.Engine.CastRay`'s loop invariant ties its variables to it. |
| `March.AdvanceIsLinear` | index.js:122-123 | Adding the step k times moves the point by exactly k times the step. |
| `Raycaster.MarchLength` | index.js:137-138 | k steps of `(cos, sin) / rate` cover a Euclidean distance of exactly `k / rate`. |
| `Raycaster.DistanceFacts` | index.js:137-138 | The square root in `calculateDistance` is never negative, and it is zero between a point and itself. |
| `Raycaster.Engine.constructor` | index.js:2-21 | Sets the configuration and the derived half height, half view angle and ray step. The camera starts with unset snapshots. The buffer is a fresh array of `width` zeros. |
| `Raycaster.Engine.CoordinatesDelta` | index.js:73-79 | The move delta `(cos, sin) / velocity` is at most one cell per axis and never zero. |
| `Raycaster.Engine.HandleControls` | index.js:32-47 | Applies the command of a known key to the pose. Any other key leaves the pose unchanged. |
| `Raycaster.Engine.MoveForward` | index.js:49-59 | The new pose is `Camera.MoveForward` of the old pose and the old delta. The invariant is kept. |
| `Raycaster.Engine.MoveBack` | index.js:61-71 | The new pose is `Camera.MoveBack` of the old pose and the old delta. The invariant is kept. |
| `Raycaster.Engine.RotateLeft` | index.js:81-84 | The new pose is `Camera.RotateLeft` of the old pose and the rotation step. |
| `Raycaster.Engine.RotateRight` | index.js:86-89 | The new pose is `Camera.RotateRight` of the old pose and the rotation step. |
| `Raycaster.Engine.MarchStep` | index.js:122-123 | The per-step ray displacement `(cos, sin) / rate` is at most one cell per axis and never zero. |
| `Raycaster.Engine.CalculateDistance` | index.js:137-141 | `calculateDistance` is zero between a point and itself, and non-negative when the fisheye cosine is. `Raycaster.MarchLength` gives the raw length of a march. |
| `Raycaster.Engine.RayDistance` | index.js:116-127 | The value `castRay` returns: the corrected distance to the first step point inside a wall (`March.MarchStopsAtFirstWall`). It is 0 when the camera stands in a wall, and non-negative when the ray is within 90° of the heading. `Raycaster.Engine.CastRay` computes it, and `Raycaster.Engine.RayDistanceIsMarchLength` gives its closed form. |
| `Raycaster.Engine.ColumnAngle` | index.js:108-110 | The angle of column i's ray. Column 0 looks along the left edge of the view (heading − viewAngle/2). Column `width` would look along the right edge (heading + viewAngle/2), and the middle column along the heading. |
| `Raycaster.Engine.ColumnHeight` | index.js:110-112 | The entry `castRays` writes for column i. It is non-finite when the camera stands in a wall. `Raycaster.Engine.CalculateHalfWallHeight` bounds it for a positive distance, and `Raycaster.Engine.CastRays` writes it. |
| `Raycaster.Engine.CastRay` | index.js:116-127 | The loop ends. It returns the fisheye-corrected distance from the camera to the first step point inside a wall. |
| `Raycaster.Engine.RayDistanceIsMarchLength` | index.js:126-140 | `castRay`'s distance is (steps / rate) × cos(ray angle − heading). A camera standing in a wall gets distance 0. |
| `Raycaster.Engine.CalculateHalfWallHeight` | index.js:143-145 | A zero distance gives a non-finite value. Otherwise the result n satisfies n ≤ halfHeight / d < n + 1, and n ≥ 0 when d > 0. |
| `Raycaster.Engine.HalfWallHeightMonotone` | index.js:143-145 | A farther wall is never drawn taller than a nearer one. |
| `Raycaster.Engine.CastRays` | index.js:107-114 | Every entry i of the buffer becomes the height of the ray at angle `heading − viewAngle/2 + i·(viewAngle/width)`. The array keeps its length. |
| `Raycaster.Engine.ShouldRender` | index.js:103-105 | The engine's change test, read from its fields: a render is due exactly when the snapshot would change the pose (corrected test). |
| `Raycaster.Engine.Render` | index.js:91-98 | If a render is due: the buffer is recomputed from the current pose, handed to the renderer, and the pose is snapshotted. Otherwise nothing changes. Either way no render is due afterwards. |

## Left out

- `Renderer` (index.js:148-192): canvas drawing through a browser 2D context, a foreign API. The model keeps only the record of which buffers were handed to it (`drawn`).
- `run`, `initControls` and the self-scheduling through `window.requestAnimationFrame` (index.js:23-30, index.js:100): DOM event and frame plumbing. `Render` models one frame.
- The top-level canvas, colour and engine setup (index.js:194-233). Only the level and start point appear, in `Level.SampleLevelIsWellFormed`.
- `toRadians`, `Math.cos`, `Math.sin` and `Math.sqrt`: abstracted as the `Trig` functions described above. Nothing is proved about particular angles, so the model says nothing about which columns of a given view come out shorter.
- IEEE-754 rounding: all arithmetic is exact. The exact rotation round trip, the exact step count and the termination of the march hold in exact arithmetic. With floats, a step smaller than the rounding error could fail to move the point at all.
- The `renderer` constructor argument: the engine takes a `Trig` value in its place.
- Out-of-range grid reads: in JavaScript a missing row throws a TypeError, and a missing column reads `undefined`, which is treated as free. The model rules both out through the invariant (well-formed level, camera off the ring, `velocity >= 1`, `rate >= 1`) instead of modelling them.
- Raycaster.Engine.constructor: stores a ray step of 0 when `width` is 0. JavaScript stores `viewAngle / 0` (Infinity or NaN), which no loop iteration ever reads.
- Raycaster.Engine.CalculateHalfWallHeight: does not tell +Infinity from NaN, and has no signed zero. A distance of exactly zero is `NonFinite` either way.
- Camera.ShouldRender and Raycaster.Engine.ShouldRender: compute the corrected change test, which compares y with `prevCameraY`. The source's getter at index.js:104 compares y with itself; that version is `Camera.ShouldRenderAsWritten`.
- Raycaster.Engine.Render: uses the corrected change test (see Findings). The source's test ignores y.

## Findings

| source | as written | input that shows it | evidently intended | confidence | as-written member | corrected member |
|---|---|---|---|---|---|---|
| index.js:104 | the last clause of `shouldRender` is `this.cameraY !== this.cameraY`, which is false for every number except NaN | after a render, a successful `moveForward` at heading exactly 90° (delta `(0, 1/velocity)`) changes only y; `shouldRender` stays false and the moved view is not drawn | `this.cameraY !== this.prevCameraY`, so that any change of x, y or heading triggers a render | high (not executed; the shipped program shows it on its first forward step: at heading 90° with velocity 1, `Math.cos` gives about 6.1e-17 and `Math.sin` gives 1, and adding 6.1e-17 to x = 2 rounds back to 2 because half the spacing of doubles near 2 is about 2.2e-16; the camera moves from (2, 2) to the free cell (2, 3), x and the heading equal their snapshots, and the frame is not redrawn) | `Camera.AsWrittenMissesYOnlyMove` (on `Camera.ShouldRenderAsWritten`) | `Camera.CommandAfterRenderIsDetected` (on `Camera.ShouldRender`, which `Raycaster.Engine.Render` uses) |
