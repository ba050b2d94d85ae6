# Roaming Ralph: the per-frame character controller

This project models the controller of the Roaming Ralph demo (`roaming_ralph/world.cpp`):

- the table of five held keys, which key events fill in;
- the per-frame `move` task. Each frame the task:
  - orbits the camera;
  - turns Ralph and runs him forward;
  - switches his animation between running and standing;
  - keeps the camera between 5 and 10 units from him in the ground plane;
  - commits or rolls back his move depending on what lies under him;
  - lifts the camera above the terrain and above Ralph;
  - places the floater the camera looks at.

The model has five modules:

- `Geometry`: points as triples of reals, and the squared planar distance.
- `Animation`: the moving/idle state machine as the pure function `Animate`. The lemma `AnimateKeepsAlternation` shows that the commands it sends to the actor always form the sequence loop "run", stop "run", pose "walk" 5, loop "run", and so on, in step with the moving flag.
- `Camera`: the dead-band correction `ClampDistance`. The lemma `ClampDistanceBand` shows that afterwards the planar distance to Ralph is the old distance clamped into [5, 10].
- `Ground`: the terrain rule for Ralph (`GroundRalph`, commit or roll back) and for the camera (`CameraHeight`).
- `Roaming`:
  - the frame as a specification function `Step` over a `State` value, with its distance lemmas;
  - the class `World`. Its fields are the ones `move` updates in place. `World.Move` runs the frame phase by phase, in source order, and its postcondition ties the new fields to `Step`;
  - the two static adapters that the event and task managers call.

What the engine computes is an input of the frame (`FrameInput`):

- the frame time;
- the world-space displacements of the translations made along the camera's and Ralph's own axes;
- the planar length of the camera-to-Ralph vector;
- the hits of the two downward rays, sorted nearest first.

Where the distance lemmas need the length to be the real distance, they say so with the predicate `Measured`.

Three behaviours of the code are easy to misread:

- `set_key` with a key outside the table reports the error and then still writes the table (lines 217-222). It is not a no-op. Only the adapter `call_set_key` rejects such a key. `World.SetKey` therefore requires the key to be in range, and `World.CallSetKey` handles the out-of-range case.
- A rolled-back move restores Ralph's position only (line 319). A turn made in the same frame is kept.
- The [5, 10] camera band is established against the candidate position Ralph was moved to (lines 287-300), before the ground check. When the move is committed, the band also holds at the end of the frame (`FrameDistanceAfterCommit`). When the move is rolled back, it need not hold: `RollbackCanLeaveBand` gives a frame that ends with the camera 15 units from Ralph.

## Model

| member | source | states |
|---|---|---|
| Roaming.Initial | roaming_ralph/world.cpp:54-138 | the state after construction: a five-key table with every key released, not moving, Ralph at the start point, the camera 10 units behind him along y at height 2 |
| Roaming.World.constructor | roaming_ralph/world.cpp:44-138 | a new World satisfies the invariant, its fields equal `Initial` of the start point, and no animation command has been sent |
| Roaming.World.SetKey | roaming_ralph/world.cpp:215-223 | the table keeps five entries, the given key holds the given value and every other key keeps its value |
| Roaming.World.CallSetKey | roaming_ralph/world.cpp:350-368 | with no World nothing happens; a key outside 0..4 leaves the table unchanged; otherwise exactly that entry is written; no other field changes |
| Roaming.World.CallMove | roaming_ralph/world.cpp:370-382 | with no World the task is done; otherwise one frame runs as `Step` specifies and the task continues |
| Roaming.World.Move | roaming_ralph/world.cpp:227-343 | the fields after the frame are `Step` of the fields before, the new animation commands are appended to the log, and the animation invariant is kept |
| Roaming.World.OrbitCamera | roaming_ralph/world.cpp:234-241 | the camera becomes `Orbited` of the frame: shifted by the camera-left displacement, then by the camera-right one, each only while its key is held |
| Roaming.World.TurnAndRun | roaming_ralph/world.cpp:250-261 | the heading becomes `Turn` of the old heading, and Ralph moves to `Candidate` of the frame, shifted by the forward displacement exactly when the forward key is held |
| Roaming.World.UpdateRunAnimation | roaming_ralph/world.cpp:266-282 | the moving flag and the commands sent are those of `Animate`, and the alternation invariant is kept |
| Roaming.World.KeepCameraInBand | roaming_ralph/world.cpp:287-300 | the camera moves to `ClampDistance` of Ralph's candidate position, the old camera and the measured distance |
| Roaming.World.SettleOnTerrain | roaming_ralph/world.cpp:311-320 | Ralph's position becomes `GroundRalph` of the candidate, the saved start position and the ray's hits |
| Roaming.World.LiftCamera | roaming_ralph/world.cpp:325-334 | only the camera's height changes, to `CameraHeight` of its old height, Ralph's height and the camera ray's hits |
| Roaming.World.PlaceFloater | roaming_ralph/world.cpp:340-341 | the floater sits at Ralph's x and y, two units above him |
| Roaming.Turn | roaming_ralph/world.cpp:250-257 | the left key adds 300·dt to the heading and the right key subtracts it; with both or neither held, the heading is unchanged |
| Animation.Animate | roaming_ralph/world.cpp:266-282 | the new moving flag is whether a movement key is held; commands are issued exactly when the flag changes, a run loop on start and a run stop followed by a walk pose at frame 5 on stop |
| Animation.AnimateKeepsAlternation | roaming_ralph/world.cpp:266-282 | every frame keeps the command log a prefix of loop, stop, pose, repeated, never ending between a stop and its pose, and keeps the moving flag set exactly when the last command is a loop |
| Camera.ClampDistance | roaming_ralph/world.cpp:287-300 | the correction is horizontal and leaves a camera already 5 to 10 units away in place |
| Camera.ShiftToDistance | roaming_ralph/world.cpp:293 | moving the camera toward Ralph by the distance minus a target leaves it at exactly the target distance |
| Camera.ClampDistanceBand | roaming_ralph/world.cpp:287-300 | after the correction the planar distance is the old one clamped into [5, 10], so its square lies in [25, 100] |
| Ground.GroundRalph | roaming_ralph/world.cpp:311-320 | when the nearest hit under Ralph is terrain, he keeps his new x and y and stands at the surface height; otherwise (another object or no hit) his whole position is the saved start position |
| Ground.CameraHeight | roaming_ralph/world.cpp:325-334 | the camera ends at least two units above Ralph: the higher of one unit above the terrain hit (or its old height without one) and two units above Ralph |
| Roaming.Step | roaming_ralph/world.cpp:227-343 | one frame: the keys are kept; moving follows the movement keys; commands are issued only on a change; the heading turns; the move is committed or rolled back; the camera's planar position is the band correction against the candidate position; the camera's height is `CameraHeight` of its height after the orbit, Ralph's final height and the camera ray's hits, so at least two units above Ralph; the floater is two units above him |
| Roaming.Run | roaming_ralph/world.cpp:370-382 | the task re-run frame after frame keeps the key table, and after at least one frame the moving flag says whether a movement key is held |
| Roaming.RunKeepsAlternation | roaming_ralph/world.cpp:266-282 | over any number of frames the commands sent to the actor keep alternating loop, stop, pose, and the moving flag stays set exactly when the last one was a loop |
| Roaming.RunSettles | roaming_ralph/world.cpp:266-282 | while the keys are unchanged, a run of frames sends only the commands of its first frame's transition, at most two |
| Roaming.StepSettles | roaming_ralph/world.cpp:266-282 | with the keys unchanged, the frame after any frame sends no animation command |
| Roaming.FrameDistanceToCandidate | roaming_ralph/world.cpp:287-300 | at the end of a frame, the camera's planar distance to the position Ralph was moved to is the band-clamped distance |
| Roaming.FrameDistanceAfterCommit | roaming_ralph/world.cpp:287-320 | when the move is committed, the camera ends the frame between 5 and 10 units from Ralph in the ground plane |
| Roaming.RollbackDistance | roaming_ralph/world.cpp:287-320 | when the move is rolled back, the camera's distance to Ralph is the distance from his start position to the camera as corrected against the rejected candidate |
| Roaming.RollbackCanLeaveBand | roaming_ralph/world.cpp:287-320 | a frame exists in which Ralph runs 25 units, the camera follows, a rock rolls the move back, and the camera ends more than 10 units from Ralph |

## Left out

- The engine setup in the constructor is not modelled: the title and instructions, the environment and actor models, the lights, the collision rays and handlers, and the task and key registration. Registration is reflected only in the two adapters. The actor is a log of animation commands.
- The constructor's early return when the window framework is missing is not modelled. It leaves the object without a key table, and `World` always has one.
- Ralph's start point and initial heading are read from the loaded models. They are constructor parameters.
- Orientation is not modelled: neither `look_at` (lines 233 and 342) nor the camera's or Ralph's rotation other than the heading value. Translations along an object's own axes (lines 236, 240, 260) are world-space displacements supplied by the engine in `FrameInput`.
- The clock, the collision traversal and the sorting of hits are engine work. The frame time and the sorted hit lists are inputs, and each hit carries the node name and the surface height.
- The length and normalisation of the camera vector (lines 289-290): the planar length is an input. The distance lemmas assume it is the true length through `Measured`. A zero length, where the engine's normalisation gives no direction, is excluded by the requirement that it be positive.
- Single-precision floats are modelled as reals. For example, pressing both turn keys cancels exactly here, and rounding is not modelled.
- `sys_exit` (lines 345-348) ends the process and is not modelled.
- The diagnostic messages written to `nout` are not modelled.
- `world.h` is not part of this model. The key indices follow the order of initialisation at lines 55-59: left, right, forward, camera-left, camera-right.
- `bump_mapping/bumpMapDemo.h` belongs to another demo and is not part of this model.
- Roaming.World.SetKey: requires the key to be in range. The source writes outside the table after reporting an out-of-range key, which is undefined behaviour that the model does not capture.
