# rust-game wireframe core, in Dafny

This project models the sequential core of a Rust/WebAssembly wireframe toy: a
`Game` object that drives a render loop on the browser's animation-frame
scheduler, a `GameLogic` that turns arrow keys into a heading and tracks frame
timestamps, a small homogeneous linear-algebra module (`Vec4`, `Mat4` and the
translation, rotation and perspective builders), and the renderer's own point
pipeline (three rotation stages, a 2×3 projection and a y-flipping screen mapping).

Modules, one per source file, plus `Trig` for the host's trigonometry:

- `Trig` (trig.dfy): the host's `cos`, `sin` and `tan`, passed in as functions,
  with the only laws the proofs assume: cos 0 = 1 and sin 0 = 0, cos² + sin² = 1 at
  an angle, and cos and sin of an opposite angle; and the one plane-rotation identity
  both the math module and the renderer rely on.
- `Vec` (vec.dfy), `Mat` (mat.dfy), `Transformation` (transformation.dfy): the
  math module over `real`. `[f64; 4]` and `[[f64; 4]; 4]` are sequences of length 4.
  `Dot`, the sum over j of a[j]·b[j], is the reference definition against which the
  source's written-out four-term products are proved.
- `Logic` (logic.dfy): `ControlKey::from_str` as a pure function, `GameLogic` as a
  class whose methods update `direction` and `last_frame_time`. Headings are
  multiples of π/2 and are counted in quarter turns (π/2 = 1, π = 2).
- `Render` (renderer.dfy): `Renderer` as a class whose `rotate_*` methods update its
  angle fields, and the pure pipeline `apply_rotation`, `project_2d`, `normalize`,
  `transform_2d`.
- `GameLoop` (game.dfy): the lifecycle as a pure state machine over `Loop` (the
  `request_id` slot, whether an event target is attached, the scheduler's next id and
  queue, and a trace of effects), and `Game` as a class whose `Run`, `Stop` and `Reset`
  are proved to produce exactly the state that machine describes, and whose `Tick`
  produces the state of the corrected tick `AfterTick` (see "## Findings").

The browser scheduler is abstract: `request_animation_frame` hands out the next id
of a counter and queues it, `cancel_animation_frame` removes an id from the queue,
and the host fires only queued ids. `Date::now()` is a parameter `now`. The "frame"
event listener that the page may attach is a `Listener` parameter that either does
nothing or calls `run`, `stop` or `reset` on the game while the event is dispatched.

The logic keeps only `direction` and `last_frame_time`; the renderer does not use
the math module, its projection is a fixed 2×3 orthographic one with no translation
or perspective step, and `normalize` flips y.

## Model

| member | source | states |
|---|---|---|
| Vec.Dot4 | src/game/math/mat.rs:28-45 | the written-out four-term product equals the sum over j of a[j]·b[j] |
| Vec.New | src/game/math/vec.rs:57-63 | `Vec4::new(x, y, z, w)` reads back through the accessors `x()`, `y()`, `z()`, `w()` of vec.rs:11-25 as x, y, z, w |
| Vec.Default | src/game/math/vec.rs:5 | the derived default vector has all four components 0 |
| Vec.From | src/game/math/vec.rs:45-55 | `Vec4::from(a).as_ref()` is `a`, and the accessors read `a[0..3]` |
| Vec.FromTriple | src/game/math/vec.rs:73-79 | an integer triple converts to (x, y, z, 1) with x, y, z the integers |
| Vec.FromTripleRef | src/game/math/vec.rs:81-87 | the borrowed triple converts to (x, y, z, 1) too |
| Vec.FromTriplesAgree | src/game/math/vec.rs:73-87 | the owned and the borrowed conversions give the same vector |
| Vec.MulRows | src/game/math/vec.rs:28-43 | `v * P` for a 2×4 array is the pair of dot products of v with P's two rows |
| Mat.From | src/game/math/mat.rs:12-22 | `Mat4::from(a).as_ref()` is `a` |
| Mat.MulVecRows | src/game/math/mat.rs:24-47 | component i of `M * v` is the dot product of row i of M with v, for every i |
| Mat.VecMulMat | src/game/math/vec.rs:65-71 | `v * M` is the column-vector product `M * v` (row i of M against v), not a row-vector product |
| Mat.IdentityMul | src/game/math/mat.rs:24-47 | the identity matrix maps every vector to itself |
| Mat.DotLinear | src/game/math/mat.rs:28-45 | the dot product with a row is linear in the vector |
| Mat.MulLinear | src/game/math/mat.rs:24-47 | M(a·u + b·v) = a·(Mu) + b·(Mv) |
| Mat.AffineKeepsW | src/game/math/mat.rs:41-44 | a last row (0, 0, 0, 1) keeps w |
| Transformation.TranslationMovesPoint | src/game/math/transformation.rs:3-12 | `new_translation(x, y, z)` moves a point (w = 1) to (px + x, py + y, pz + z, 1) |
| Transformation.TranslationZeroIsIdentity | src/game/math/transformation.rs:3-12 | the zero translation is the identity matrix |
| Transformation.TranslationUndo | src/game/math/transformation.rs:3-12 | translating by the opposite offsets undoes a translation, for any w |
| Transformation.RotationXAction | src/game/math/transformation.rs:14-23 | `new_rotation_x` keeps y and w and maps (x, z) to (c·x + s·z, −s·x + c·z) |
| Transformation.RotationYAction | src/game/math/transformation.rs:25-34 | `new_rotation_y` keeps x and w and maps (y, z) to (c·y − s·z, s·y + c·z) |
| Transformation.RotationZAction | src/game/math/transformation.rs:36-45 | `new_rotation_z` keeps z and w and maps (x, y) to (c·x − s·y, s·x + c·y) |
| Transformation.RotationsAtZero | src/game/math/transformation.rs:14-45 | with cos 0 = 1 and sin 0 = 0 every rotation builder returns the identity |
| Transformation.RotationXKeepsLength | src/game/math/transformation.rs:14-23 | with cos² + sin² = 1 the x rotation keeps x² + z² |
| Transformation.RotationYKeepsLength | src/game/math/transformation.rs:25-34 | with cos² + sin² = 1 the y rotation keeps y² + z² |
| Transformation.RotationZKeepsLength | src/game/math/transformation.rs:36-45 | with cos² + sin² = 1 the z rotation keeps x² + y² |
| Transformation.RotationXUndo | src/game/math/transformation.rs:14-23 | the x rotation by the opposite angle undoes the x rotation |
| Transformation.RotationYUndo | src/game/math/transformation.rs:25-34 | the y rotation by the opposite angle undoes the y rotation |
| Transformation.RotationZUndo | src/game/math/transformation.rs:36-45 | the z rotation by the opposite angle undoes the z rotation |
| Transformation.PerspectiveAction | src/game/math/transformation.rs:47-61 | `new_perspective` gives x' = (h/w)·f·x, y' = f·y, z' = q1·z + q2·w and w' = z |
| Transformation.PerspectiveDepth | src/game/math/transformation.rs:50-58 | for a point (w = 1), z' = z_far·(z − z_near)/(z_far − z_near): 0 on the near plane, and z' = w' = z_far on the far plane, so depth 1 after division |
| Transformation.DepthRemap | src/game/math/transformation.rs:50-58 | q1·z + q2 with q1 = z_far/(z_far − z_near) and q2 = −z_far·z_near/(z_far − z_near) is that depth remap |
| Transformation.DepthPlanes | src/game/math/transformation.rs:50-58 | the depth remap is 0 at z_near and z_far at z_far |
| Logic.FromStr | src/game/logic.rs:32-40 | parsing succeeds exactly for "ArrowUp", "ArrowDown", "ArrowLeft" and "ArrowRight", gives the key of that name, and fails otherwise with `NotAControlKey` |
| Logic.FromStrName | src/game/logic.rs:32-40 | parsing a key's name gives the key back |
| Logic.HeadingsDistinct | src/game/logic.rs:48-61 | the four headings 0, π/2, π, 3π/2 are distinct and below a full turn |
| Logic.AfterKeydown | src/game/logic.rs:44-63 | a key-down event keeps the heading among the four values |
| Logic.AfterKeydownsSnoc | src/game/logic.rs:44-63 | a sequence of key-down events is folded one event at a time |
| Logic.LastControlKeyWins | src/game/logic.rs:44-63 | after any sequence of key-down events the heading is that of the last arrow key, or unchanged if there was none |
| Logic.GameLogic.constructor | src/game/logic.rs:9-13 | the default state has `direction` 0 and `last_frame_time` 0 |
| Logic.GameLogic.OnKeydown | src/game/logic.rs:44-63 | an arrow key sets the heading (Right 0, Up π/2, Left π, Down π/2 + π) and prevents the default action; any other key changes nothing and does not |
| Logic.GameLogic.OnKeyup | src/game/logic.rs:65-69 | changes no field; prevents the default action exactly for the four arrow keys |
| Logic.GameLogic.Setup | src/game/logic.rs:71-73 | `last_frame_time` becomes now |
| Logic.GameLogic.Update | src/game/logic.rs:75-77 | `last_frame_time` becomes now |
| Logic.GameLogic.IsRunning | src/game/logic.rs:84-86 | always true |
| Logic.GameLogic.ComputeDelta | src/game/logic.rs:88-95 | returns now − the previous `last_frame_time`, which becomes now |
| Render.FromReals | src/game/renderer.rs:128-136 | a real triple converts to the point with those coordinates |
| Render.FromInts | src/game/renderer.rs:138-146 | an integer triple converts to the point with those integers as coordinates |
| Render.ProjectIgnoresDepth | src/game/renderer.rs:93-98 | a projection whose last column is zero ignores z |
| Render.ProjectDefault | src/game/renderer.rs:27 | the default projection returns (x, y) |
| Render.StageZ | src/game/renderer.rs:103-108 | the first stage keeps z |
| Render.StageY | src/game/renderer.rs:110-115 | the second stage keeps x |
| Render.StageX | src/game/renderer.rs:117-122 | the third stage keeps y |
| Render.StageZLength | src/game/renderer.rs:103-108 | with c² + s² = 1 the first stage keeps x² + y² + z² |
| Render.StageYLength | src/game/renderer.rs:110-115 | with c² + s² = 1 the second stage keeps x² + y² + z² |
| Render.StageXLength | src/game/renderer.rs:117-122 | with c² + s² = 1 the third stage keeps x² + y² + z² |
| Render.StagesKeepLength | src/game/renderer.rs:103-122 | with c² + s² = 1 every stage keeps x² + y² + z² |
| Render.RotationKeepsLength | src/game/renderer.rs:100-125 | `apply_rotation` keeps the distance from the origin |
| Render.RotationAtZero | src/game/renderer.rs:100-125 | with all angles 0 `apply_rotation` returns its input |
| Render.StageOrderMatters | src/game/renderer.rs:103-115 | the stages do not commute, so the fixed order z, y, x matters |
| Render.Renderer.constructor | src/game/renderer.rs:20-32 | size from the arguments, centre at half the size, angles 0, projection [[1,0,0],[0,1,0]]; size, centre and projection are constants from then on |
| Render.Renderer.RotateX | src/game/renderer.rs:34-36 | adds the increment to `rotation_x` and changes nothing else |
| Render.Renderer.RotateY | src/game/renderer.rs:38-40 | adds the increment to `rotation_y` and changes nothing else |
| Render.Renderer.RotateZ | src/game/renderer.rs:42-44 | adds the increment to `rotation_z` and changes nothing else |
| Render.Renderer.Normalize | src/game/renderer.rs:81-83 | x is shifted by the centre and y is flipped; with the constructor's centre the origin maps to (width/2, height/2) |
| Render.Renderer.Transform2D | src/game/renderer.rs:73-79 | with the default projection, the rotated point's x and y go through `normalize` and its z is dropped |
| GameLoop.Init | src/game/game.rs:61-69 | a new game is idle, has no event target and is steady |
| GameLoop.AfterPostConstruct | src/game/game.rs:136-141 | attaching the event target keeps the invariants |
| GameLoop.RunWhenRunning | src/game/game.rs:72-75 | `run` while a frame is pending changes nothing: no setup, no request, no event |
| GameLoop.RunFromIdle | src/game/game.rs:77-116 | `run` from idle calls `setup` once, requests one fresh frame which becomes the pending id, dispatches "running" iff a target is attached, and leaves exactly that frame queued |
| GameLoop.RunIdempotent | src/game/game.rs:72-75 | calling `run` twice is calling it once |
| GameLoop.StopWhenIdle | src/game/game.rs:124-125 | `stop` when idle does nothing: no cancel, no event |
| GameLoop.StopWhenRunning | src/game/game.rs:124-134 | `stop` cancels exactly the pending id, leaves nothing pending or queued, and dispatches "running" iff a target is attached |
| GameLoop.StopIdempotent | src/game/game.rs:124-134 | calling `stop` twice is calling it once |
| GameLoop.RunningEventOnTransition | src/game/game.rs:112-116 | "running" is dispatched by `run` and `stop` exactly when they change the lifecycle state and a target is attached |
| GameLoop.ResetOutcome | src/game/game.rs:119-122 | `reset` ends with exactly one fresh frame pending and queued and one more `setup` call, whatever the state before |
| GameLoop.CancelledFrameNotQueued | src/game/game.rs:124-134 | a frame cancelled by `stop` is not queued after `stop` nor after `reset`, and its id stays below the next id to hand out |
| GameLoop.TickOutcome | src/game/game.rs:88-104 | for a "frame" listener that does not call back into the game (`Ignores`), a tick dispatches "frame" (iff attached) before update and draw, then requests the next frame and makes it the pending id if the logic runs, else clears the id |
| GameLoop.TickCallsNoSetup | src/game/game.rs:88-104 | for a "frame" listener that does not call back into the game (`Ignores`), a tick calls no `setup` |
| GameLoop.SoundInFrame | src/game/game.rs:88-93 | inside a tick, after the fired frame has left the queue, the invariant holds |
| GameLoop.ReactInFrame | src/game/game.rs:89-93 | a listener of "frame" either leaves the fired frame pending or stops or restarts the loop cleanly |
| GameLoop.TickKeepsSteady | src/game/game.rs:88-104 | whatever the "frame" listener does, the corrected tick ends with exactly the pending frame queued |
| GameLoop.ListenerStopEndsLoop | src/game/game.rs:88-104 | with the correction, a listener calling `stop` ends the loop |
| GameLoop.ListenerResetRestarts | src/game/game.rs:88-104 | with the correction, a listener calling `reset` leaves only the frame `reset` requested |
| GameLoop.TickAgreesWithWritten | src/game/game.rs:88-104 | the correction changes nothing unless the listener calls `stop` or `reset` |
| GameLoop.Started | src/game/game.rs:72-141 | a game attached and started at time 0 has frame 0 pending and queued |
| GameLoop.WrittenTickIgnoresStop | src/game/game.rs:98-104 | as written, a listener calling `stop` does not stop the loop |
| GameLoop.WrittenTickDoubleSchedules | src/game/game.rs:98-104 | as written, a listener calling `reset` leaves two frames queued, and the orphan frame restarts the loop after a later `stop` |
| GameLoop.Game.constructor | src/game/game.rs:25-70 | a new game is idle, steady, with default logic and a 480 × 360 renderer as `Renderer::new` builds it: centred, default projection, angles 0 |
| GameLoop.Game.PostConstruct | src/game/game.rs:136-141 | attaches the event target and keeps the invariant |
| GameLoop.Game.Dispatch | src/game/game.rs:112-116 | appends the event to the trace iff a target is attached, and changes nothing else (the same block recurs at game.rs:89-93 and 128-132) |
| GameLoop.Game.RequestAnimationFrame | src/game/game.rs:171-176 | returns the counter's next id, fresh against every earlier request when the invariant holds, advances the counter, queues the id and records the request |
| GameLoop.Game.CancelAnimationFrame | src/game/game.rs:178-183 | removes the id from the host's queue and records the cancel |
| GameLoop.Game.Run | src/game/game.rs:72-117 | the new state is exactly `AfterRun` of the old one; the invariant holds; `setup` recorded now iff the game was idle |
| GameLoop.Game.Stop | src/game/game.rs:124-134 | the new state is exactly `AfterStop` of the old one, and steady |
| GameLoop.Game.Reset | src/game/game.rs:119-122 | the new state is exactly `AfterReset` of the old one, and steady |
| GameLoop.Game.Tick | src/game/game.rs:88-105 | the new state is exactly the corrected `AfterTick` of the old one, and steady; the logic's timestamp becomes now and its heading is kept |
| GameLoop.Game.Reschedule | src/game/game.rs:98-104 | requests the next frame and makes it pending if running, else clears the pending id |

## Left out

- Canvas drawing (`clear_frame`, `point`, `line`) is I/O on the 2D context; `GameLogic::draw` is recorded as the `Drew` effect. `draw_arrow`, which `draw` calls, is not part of this model.
- DOM and WebAssembly plumbing: `create_canvas`, the `Drop` that removes the canvas, the `request_animation_frame` and `cancel_animation_frame` wrappers (replaced by the abstract scheduler), the keyboard `EventHandler`s, handler.rs, assets_loader.rs, error.rs, declaration.rs, the module wiring, main.ts and scripts/transform.ts.
- The `Rc<RefCell<…>>` sharing between the game and its closures is modelled as one object; the borrow panics it could raise are not modelled. In particular a "running" listener that calls back into the game while `stop` still holds the `request_id` borrow is not modelled.
- f64 rounding, NaN and infinities, and real trigonometry: the model is over `real`, and cos, sin and tan are parameters with the laws listed above. `NewPerspective` therefore requires w ≠ 0, z_far ≠ z_near and tan(fov/2) ≠ 0, where the source would produce infinities or NaN.
- Logic.GameLogic.OnKeydown: the heading is kept in quarter turns; that `FRAC_PI_2 + PI` rounds in f64 is not modelled.
- Frame ids are unbounded integers; the wrap-around of the host's `i32` ids is not modelled.
- That `M * v` leaves both operands unchanged holds by value semantics in the model and is not stated separately.
- The derived `Mat4::default()` (all zeros) is not modelled.
- The "frame" listener is modelled as one of four reactions (nothing, `run`, `stop`, `reset`); arbitrary page code is not.
- No "running" listener is modelled as calling back into the game: the "running" dispatch (src/game/game.rs:112-116, reached from `run` and `stop`) happens inside a `&mut self` call made through wasm-bindgen, so a re-entrant call from the listener would throw rather than run.

## Findings

| source | as written | input that shows it | evidently intended | confidence | as-written member | corrected member |
|---|---|---|---|---|---|---|
| src/game/game.rs:98-104 | after dispatching "frame" the tick always requests a new frame (or clears the slot), whatever the listener did | a game attached and running with frame 0; the "frame" listener calls `stop` (the loop keeps running with frame 1) or `reset` (frames 1 and 2 both queued; a later `stop` cancels only 2 and frame 1 restarts the loop) | reschedule only if the fired frame is still the pending request | medium, not executed | GameLoop.WrittenTickIgnoresStop | GameLoop.TickKeepsSteady |
