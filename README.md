# Box demo: camera approach and dimension controls

The demo shows a textured box on a grid floor. The user can resize it and fly the
camera to a front or a left viewpoint. It exists in two variants:

- `src/script.js` takes its input from two number fields and three buttons.
- `task-webpack/taks/src/script.js` uses a debug panel with Width and Depth sliders and two buttons.

Everything except two pieces of logic is a call into the 3D engine. This project models those
two pieces and proves properties of them.

**Camera-approach controller** (module `Camera`).
- Two flags, `moveToFront` and `moveToLeft`, encode the states Idle, ApproachingFront and ApproachingLeft.
- A trigger first recomputes its target vector. It then sets its flag, unless the other flag is set.
- The render loop's tick clears the active flag once the camera is closer than 0.09 to that flag's target.
- `CameraApproach` is the controller as a class with these fields.
- `AfterMoveFront`, `AfterMoveLeft`, `AfterFrame` and `Run` are the same logic as pure functions on flag pairs.
- `Transition` states the three-state machine directly. `RunRefinesMachine` proves that the flags implement it.
- A target is kept as the literal it was built from, or as a direction plus the length
  `normalize().multiplyScalar(s)` gave it. Its direction never changes, so the front target always
  has x = 0 and y = z, and the left target always has z = 0 and x = -y.

**Dimension controller** (modules `Materials`, `Scene`, `DomControls`, `GuiControls`).
- The box has six materials, one per face in the geometry's group order. Each material holds six
  texture maps, keyed like the texture table (`map`, `normalMap`, …). Each map has a repeat factor
  (x, y).
- The table is an `array` of six maps from texture key to repeat. The handlers rewrite it in place,
  in a loop over the keys, with the source's eight (or four) assignments per key.
- `Retile` states the face-to-axis mapping per cell. `Retable` applies it to the whole table.
- The methods are proved to produce `Retable` of the old table. The lemmas then prove the
  properties of `Retable`: which cells change, that width and depth commute, idempotence, and the
  [1, 30] range under the sliders.
- `SceneState` adds the cube's scale (y fixed at 0.8), `prevScale`, and the camera approach.
- Each handler ends with a guarded fit of the camera: unless an approach is in flight,
  `prevScale` becomes the bounding max size and the camera is pushed out by the difference.
- The camera position is not modelled. Instead, every push is recorded in the log `moves`.
  The class invariant proves that the pushes add up to `prevScale - 1`.

Three behaviours of the code are easy to misread; the model follows the code:
- **Which trigger wins.** One might expect a later trigger to replace the running approach.
  The code drops it and the first approach continues (`FrontThenLeftKeepsFront`).
- **The dimension guard.** One might expect the dimension controls to do nothing during an
  approach. The code still rescales the cube and retiles the maps; only the camera fit and
  `prevScale` are skipped.
- **The face mapping.** It is the code's literal one: repeat.y follows the depth on materials 2
  and 4, not on 2 and 3.

## Model

| member | source | states |
|---|---|---|
| `Camera.RescaledCollinear` | src/script.js:184-186 | after normalising then scaling a non-zero target, the new vector is a non-negative multiple of the old one and its squared length is the requested length squared |
| `Camera.FrontTargetShape` | task-webpack/taks/src/script.js:178-185 | every vector along the front direction (0,5,5) has x = 0 and y = z |
| `Camera.LeftTargetShape` | task-webpack/taks/src/script.js:187-194 | every vector along the left direction (-5,5,0) has z = 0 and x = -y |
| `Camera.AfterMoveFront` | src/script.js:183-189 | "move front" leaves the flags unchanged while left is set, and otherwise yields front-only |
| `Camera.AfterMoveLeft` | src/script.js:193-199 | "move left" leaves the flags unchanged while front is set, and otherwise yields left-only |
| `Camera.AfterFrame` | src/script.js:294-306 | a frame never sets a flag; without arrival it changes nothing; on arrival with exclusive flags both end clear; with both set it does nothing |
| `Camera.StepKeepsExclusive` | task-webpack/taks/src/script.js:307-319 | one trigger or one frame keeps the flags from being both set |
| `Camera.RunKeepsExclusive` | src/script.js:183-199 | any sequence of triggers and frames keeps the flags from being both set |
| `Camera.ReachableExclusive` | task-webpack/taks/src/script.js:144-146 | starting from both flags false, no sequence of events sets both |
| `Camera.FrontThenLeftKeepsFront` | src/script.js:193-199 | "move front" then "move left" leaves only the front approach running |
| `Camera.LeftThenFrontKeepsLeft` | src/script.js:183-189 | "move left" then "move front" leaves only the left approach running |
| `Camera.PhaseEncoding` | src/script.js:149-150 | the three phases and the exclusive flag pairs are in one-to-one correspondence |
| `Camera.StepRefinesTransition` | src/script.js:294-306 | one event moves the flags exactly as the three-state machine moves their phase |
| `Camera.RunRefinesMachine` | task-webpack/taks/src/script.js:178-194 | over any event sequence the flags' phase is the machine's state |
| `Camera.CameraApproach.constructor` | src/script.js:180-181 | both flags clear; targets start as the literals (0,5,5) and (-5,5,0) |
| `Camera.CameraApproach.TriggerFront` | src/script.js:183-189 | the front target becomes the front direction at length 1.3 × max size even when the trigger is dropped; the left target is untouched; the flags follow `AfterMoveFront`, and their phase follows the machine's `Transition` |
| `Camera.CameraApproach.TriggerLeft` | src/script.js:193-199 | the left target becomes the left direction at length 1.5 × max size even when the trigger is dropped; the front target is untouched; the flags follow `AfterMoveLeft`, and their phase follows the machine's `Transition` |
| `Camera.CameraApproach.Tick` | src/script.js:294-306 | the flags follow `AfterFrame` with arrival meaning distance < 0.09, and their phase follows the machine's `Transition`; the targets are untouched |
| `Materials.KeysComplete` | src/script.js:66-73 | the key list names every texture channel |
| `Materials.InitRepeats` | task-webpack/taks/src/script.js:122-134 | the setup loop gives every material every map at repeat (1, 1) |
| `Materials.InitialTableIsOnes` | src/script.js:129-141 | after setup every material has all six maps, each with repeat (1, 1) |
| `Materials.WidthForKey` | task-webpack/taks/src/script.js:151-154 | for one key, repeat.x of materials 2–5 becomes the width and nothing else changes |
| `Materials.DepthForKey` | task-webpack/taks/src/script.js:167-170 | for one key, repeat.x of materials 0, 1 and repeat.y of materials 2, 4 become the depth and nothing else changes |
| `Materials.ApplyWidth` | task-webpack/taks/src/script.js:149-155 | the in-place loop leaves the table width-retiled for every key |
| `Materials.ApplyDepth` | task-webpack/taks/src/script.js:165-171 | the in-place loop leaves the table depth-retiled for every key |
| `Materials.ApplyDimension` | src/script.js:160-170 | the in-place loop leaves the table retiled by width and depth together for every key |
| `Materials.RetablePreservesWellFormed` | src/script.js:160-170 | a retiled table still has six materials with all six maps each |
| `Materials.WidthCells` | task-webpack/taks/src/script.js:150-155 | a width change sets repeat.x = width on materials 2–5 and changes no other cell |
| `Materials.DepthCells` | task-webpack/taks/src/script.js:166-171 | a depth change sets repeat.x on materials 0, 1 and repeat.y on materials 2, 4, and changes no other cell |
| `Materials.DimensionCells` | src/script.js:161-169 | repeat.x is the width on materials 2–5 and the depth on 0, 1; repeat.y is the depth on 2, 4 and untouched on 0, 1, 3, 5 |
| `Materials.UntouchedMaterialUnchanged` | task-webpack/taks/src/script.js:151-154 | a material a change does not write comes out as it went in |
| `Materials.RetableCompose` | task-webpack/taks/src/script.js:150-171 | two changes that compose cell by cell compose on the whole table |
| `Materials.WidthDepthCommute` | task-webpack/taks/src/script.js:151-170 | width and depth changes write disjoint cells, so they commute on the table |
| `Materials.DimensionIsWidthThenDepth` | src/script.js:160-170 | the combined update equals the width handler's update followed by the depth handler's |
| `Materials.RetableIdempotent` | task-webpack/taks/src/script.js:166-170 | applying the same change twice equals applying it once |
| `Scene.BoundingMaxSize` | src/script.js:204-210 | the result bounds every extent of the scaled unit box and equals one of them |
| `Scene.SceneState.constructor` | src/script.js:114-150 | unit cube scaled to height 0.8, every map tiled (1, 1), prevScale 1, no camera moves, both flags clear |
| `Scene.SceneState.SetCameraDistance` | src/script.js:212-219 | the camera is pushed by val − prevScale, which is recorded, and prevScale becomes val; pushes keep summing to prevScale − 1 |
| `Scene.SceneState.FitCamera` | src/script.js:172-174 | during an approach nothing changes; otherwise prevScale becomes the bounding max size, bounding every extent, and the push is its growth, zero exactly when the size is unchanged |
| `Scene.SceneState.MoveCameraFront` | task-webpack/taks/src/script.js:179-185 | the front target is recomputed from the current bounding max size; the flags follow `AfterMoveFront` |
| `Scene.SceneState.MoveCameraLeft` | task-webpack/taks/src/script.js:188-194 | the left target is recomputed from the current bounding max size; the flags follow `AfterMoveLeft` |
| `DomControls.SetDimension` | src/script.js:152-175 | scale becomes (width, 0.8, depth) and the table is retiled, even during an approach; prevScale and the camera move only when idle, and then prevScale bounds every extent and the push is zero exactly when the largest extent equals the previous prevScale |
| `GuiControls.OnWidthChange` | task-webpack/taks/src/script.js:148-161 | scale.x becomes the value and only the width cells change, even during an approach; the camera fit is guarded, and when it runs prevScale bounds every extent |
| `GuiControls.OnDepthChange` | task-webpack/taks/src/script.js:164-176 | scale.z becomes the value and only the depth cells change, even during an approach; the camera fit is guarded, and when it runs prevScale bounds every extent |
| `GuiControls.RetableKeepsRange` | task-webpack/taks/src/script.js:148-155 | a slider change keeps every repeat factor in [1, 30] |
| `GuiControls.ReplayKeepsRange` | task-webpack/taks/src/script.js:148-171 | any sequence of slider changes keeps every repeat factor in [1, 30] |
| `GuiControls.SlidersStayInRange` | task-webpack/taks/src/script.js:122-171 | starting from the (1, 1) setup, every repeat factor stays in [1, 30] |

## Left out

- Scene, renderer, lights, floor, grid, orbit controls, the resize listener, and the DOM and panel bindings: calls into the engine and the browser. The handlers are methods that take the input values.
- Texture loading: the loading manager, the chain of awaited loads, and the wrap and filter flags. This is asynchronous I/O and engine configuration. `texture.clone()` is modelled only as each material getting its own repeat factor.
- The camera position: the per-frame `lerp`, orbit dragging, and the direction of `setCameraDistance`'s push, which is the normalised horizontal projection of the camera. These are floating-point vector operations. Each push is recorded as a signed length in `moves`. Convergence of the approach is not modelled.
- `Camera.CameraApproach.Tick`: receives the camera's distance to the running approach's target after this frame's interpolation, instead of computing it, because the camera position is not modelled.
- `Camera.CameraApproach.TriggerFront`, `Camera.CameraApproach.TriggerLeft`: require a positive bounding size, so normalising a zero vector, which three.js turns into the zero vector, is not modelled. Both callers meet it: the class invariant fixes scale.y at 0.8, so the bounding size is at least 0.8.
- `Scene.BoundingMaxSize`: rests on the cube being a unit box centred at its origin, so each bounding side is the magnitude of a scale factor. The engine's `Box3.setFromObject` is not part of this model.
- The clock, delta time and `requestAnimationFrame` scheduling: host event-loop plumbing.
- The string-to-number coercion of the two number fields in `src/script.js`: the inputs are taken as reals.
- The sliders' clamping to [1, 30] belongs to the panel library: `OnWidthChange` and `OnDepthChange` require values in that range.
