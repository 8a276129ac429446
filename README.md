# UIEffectKit effect cores in Dafny

UIEffectKit is a Swift package of Metal-backed visual effects for UIKit and
AppKit views. This project models the logic these effects run on the CPU,
with every Metal call stripped away. It covers:

- **Break-glass transition renderer** (`BreakGlassView.Renderer`). Covers the
  lattice mesh that `setupGeometry` cuts a snapshot into, and the per-frame
  physics of every shard (delta clamping, delay gating, damped motion,
  smoothstep fade, bounded growth, alive counting). Also covers the run
  lifecycle driven by `prepare`, `draw`, `handleCompletion`,
  `cleanupResources` and `cancel`.
  - The background setup job and every `DispatchQueue.main.async` block are
    explicit queues. `RunSetupJob` and `RunMainTask` run them one at a time.
- **Sweep band mask** (`SweepBandContainerView` and `SweepTransitionView`).
  Covers how the entry, leaving and feather fractions become six ordered
  gradient stops and their colours, the gradient's start and end points, and
  the setters that replace one field of the stored configuration.
  - The source declares two types with the same name, so the two files are
    two modules.
  - `Clamped` and `GradientPoints` are written once, in the container module,
    because both files define them identically.
- **Shimmer grid** (`ShimmerGridPointsView.Renderer`). Covers the row-major
  lattice of points with a checkerboard shape type, and the frame clock that
  restarts on every resize.
- **Shimmering background** (`ShimmeringBackgroundView.Renderer`). Covers the
  area-proportional particle field with a floor of 128 particles, the elapsed
  time clock, and the ceiling division that sizes the compute dispatch.
- **Metal host** (`MetalHostView`, `EffectHostConfig`). Covers how the Metal
  view's frame grows beyond the host's bounds for each `ExtendingArea` and
  the drawable size it then gets. Also covers the forwarding setters, and a
  configuration value with component-wise equality that `apply(config:)`
  copies onto a host.

Modelling choices:

- `Float` and `CGFloat` are `real`. `Int(x)` is truncation toward zero
  (`Support.TruncateToInt`) and `round` rounds half away from zero
  (`Support.RoundToInt`).
- Every `Float.random` and `Bool.random` is an input drawn from its literal
  range. A per-cell, per-point or per-particle draw is a function from the
  cell's or particle's index to a record of those values.
- The results of `sqrt`, `powf`, `sin`, `cos`, `simd_length` and
  `normalizeSafe` are inputs with the range facts the code relies on.
  The sweep views' (cos θ, sin θ) is a function `direction` that must land
  on the unit circle. `powf` of the radial falloff maps [0, 1] into [0, 1]
  and grows with its argument.
- `CACurrentMediaTime()` is the parameter `now`, and the display scale is a
  parameter of layout.
- Metal objects (device, queues, pipelines, buffers, textures, drawables)
  are reduced to whether they exist. Whether an encoder or a drawable can be
  obtained is a parameter.
- Callbacks are only present or absent. Invoking one appends it to a
  `delivered` log.

Modules:

- `support.dfy`: `Support` (options, min and max, numeric conversions, 2-D
  vectors) and `RowMajor` (row-major flattening of a grid).
- `break_glass_shard.dfy`, `break_glass_mesh.dfy` and
  `break_glass_renderer.dfy`: the shard state and its per-frame step, the
  mesh, and the renderer class.
- `sweep_band_container.dfy` and `sweep_transition.dfy`: the two sweep views.
- `shimmer_grid.dfy` and `shimmering_background.dfy`: the two shimmer
  renderers.
- `metal_host.dfy` and `effect_host_config.dfy`: the host view and its
  configuration.

## Model

| member | source | states |
|---|---|---|
| Support.TruncateToInt | Sources/UIEffectKit+ShimmeringBackground/ShimmeringBackgroundView+Renderer.swift:107 | `Int(x)` truncates toward zero: for x >= 0 the result is the largest integer not above x, for x < 0 the smallest integer not below x |
| Support.RoundToInt | Sources/UIEffectKit+BreakGlassTransition/BreakGlassView+Renderer.swift:234-235 | `round` lands within 0.5 of its argument and is non-negative for a non-negative argument |
| BreakGlassMesh.SafeExtent | Sources/UIEffectKit+BreakGlassTransition/BreakGlassView+Renderer.swift:231-232 | the frame extent used for the mesh is at least 1, and equals the extent when that is at least 1 |
| BreakGlassMesh.LayoutRounding | Sources/UIEffectKit+BreakGlassTransition/BreakGlassView+Renderer.swift:231-237 | the lattice has the safe width and height; columns are the column estimate rounded, or 3 when the estimate is below 2.5; rows are fractureCount / columns rounded, or 3 when that is below 2.5 |
| BreakGlassMesh.ColumnsFromRoot | Sources/UIEffectKit+BreakGlassTransition/BreakGlassView+Renderer.swift:234 | when the column estimate is the square root of fractureCount x width / height, the column count n satisfies n² − n + ¼ <= fractureCount x width / height <= n² + n + ¼ |
| BreakGlassMesh.GridPointPlacement | Sources/UIEffectKit+BreakGlassTransition/BreakGlassView+Renderer.swift:247-256 | border points sit exactly on the lattice, the outer corners are (0, 0) and (safeWidth, safeHeight), and every point lies within a quarter cell of its lattice point on each axis |
| BreakGlassMesh.CellSizesPositive | Sources/UIEffectKit+BreakGlassTransition/BreakGlassView+Renderer.swift:239-240 | cell width and cell height are positive |
| BreakGlassMesh.OuterCorner | Sources/UIEffectKit+BreakGlassTransition/BreakGlassView+Renderer.swift:249-254 | the grid's first and last points are the frame's two corners, whatever the jitter |
| BreakGlassMesh.CellsSpanExtent | Sources/UIEffectKit+BreakGlassTransition/BreakGlassView+Renderer.swift:239-240 | count cells of width extent / count span the whole extent |
| BreakGlassMesh.FillGridPoints | Sources/UIEffectKit+BreakGlassTransition/BreakGlassView+Renderer.swift:242-257 | the nested loops fill a (rows + 1) x (columns + 1) grid whose every entry is the placed point of its row and column |
| BreakGlassMesh.NeighbouringCellsShareCorners | Sources/UIEffectKit+BreakGlassTransition/BreakGlassView+Renderer.swift:271-274 | a cell's right corners are its right neighbour's left corners and its lower corners are the next row's upper corners, so neighbouring shards share their corners and hence their common edges |
| BreakGlassMesh.CentroidBalances | Sources/UIEffectKit+BreakGlassTransition/BreakGlassView+Renderer.swift:285-286 | the four corners' offsets from the centroid sum to zero |
| BreakGlassMesh.TrianglePoints | Sources/UIEffectKit+BreakGlassTransition/BreakGlassView+Renderer.swift:279-283 | six points that use exactly the cell's four corners, start p00, p10, and whose two triangles share the chosen diagonal (p00–p11 or p10–p01) |
| BreakGlassMesh.MakeVertex | Sources/UIEffectKit+BreakGlassTransition/BreakGlassView+Renderer.swift:316-326 | local position plus centroid gives back the point, the texture coordinate times the frame size gives back the point, and the vertex carries its shard index |
| BreakGlassMesh.ShardVertices | Sources/UIEffectKit+BreakGlassTransition/BreakGlassView+Renderer.swift:312-329 | six vertices per shard, all tagged with that shard's index, one per triangle point |
| BreakGlassMesh.Perpendicular | Sources/UIEffectKit+BreakGlassTransition/BreakGlassView+Renderer.swift:592-594 | the result is orthogonal to its argument and has the same length |
| BreakGlassMesh.MaxDistance | Sources/UIEffectKit+BreakGlassTransition/BreakGlassView+Renderer.swift:266-267 | the normalising distance is at least 1 |
| BreakGlassMesh.MakeShard | Sources/UIEffectKit+BreakGlassTransition/BreakGlassView+Renderer.swift:288-347 | a new shard is centred on its cell's centroid with no offset, age 0, opacity 1 and scale 1, keeps its drawn life, rotation and spin, has expansion boost at most 2.65 and delay at most 0.18 x normalised distance + 0.05, and is within every range the physics relies on, spin within ±3 and angular acceleration within ±1.5 included |
| BreakGlassMesh.NearerShardsBurstFirst | Sources/UIEffectKit+BreakGlassTransition/BreakGlassView+Renderer.swift:288-347 | with the same random draws, a shard whose centroid is nearer the frame centre gets at least the expansion boost and radial opacity of a farther one and a delay no longer than its delay |
| BreakGlassMesh.DelayCeiling | Sources/UIEffectKit+BreakGlassTransition/BreakGlassView+Renderer.swift:289-293 | a shard whose centroid is no farther from the frame centre than `maxDistance` waits between 0 and 0.18 + 0.05 = 0.23 seconds |
| BreakGlassMesh.CoordinateInFrame | Sources/UIEffectKit+BreakGlassTransition/BreakGlassView+Renderer.swift:250-254 | one coordinate of a lattice point, moved by at most a quarter cell and not at all on the border, stays between 0 and the frame's extent |
| BreakGlassMesh.GridPointInFrame | Sources/UIEffectKit+BreakGlassTransition/BreakGlassView+Renderer.swift:247-256 | every lattice point lies inside the frame |
| BreakGlassMesh.CentroidInFrame | Sources/UIEffectKit+BreakGlassTransition/BreakGlassView+Renderer.swift:271-286 | the centroid of every cell lies inside the frame |
| BreakGlassMesh.InFrameWithinMaxDistance | Sources/UIEffectKit+BreakGlassTransition/BreakGlassView+Renderer.swift:266-289 | a point inside the frame is no farther from the frame centre than `maxDistance`, the half-diagonal or 1 |
| BreakGlassMesh.MeshDelayCeiling | Sources/UIEffectKit+BreakGlassTransition/BreakGlassView+Renderer.swift:266-293 | every shard of a generated mesh waits between 0 and 0.23 seconds before it moves |
| BreakGlassMesh.MeshShardAt | Sources/UIEffectKit+BreakGlassTransition/BreakGlassView+Renderer.swift:269-276 | the mesh has rows x columns shards, in row-major order: shard r x columns + c is the shard of cell (r, c) |
| BreakGlassMesh.MeshShardsWellFormed | Sources/UIEffectKit+BreakGlassTransition/BreakGlassView+Renderer.swift:331-348 | every shard of the mesh is within its ranges |
| BreakGlassMesh.MeshVertexRunAt | Sources/UIEffectKit+BreakGlassTransition/BreakGlassView+Renderer.swift:312-329 | the run of vertices for cell (r, c) has six vertices, each tagged with that cell's shard index |
| BreakGlassMesh.MeshVertexAt | Sources/UIEffectKit+BreakGlassTransition/BreakGlassView+Renderer.swift:312-329 | the mesh has 6 x rows x columns vertices, and vertex n belongs to shard base + n / 6 |
| BreakGlassMesh.MeshSizes | Sources/UIEffectKit+BreakGlassTransition/BreakGlassView+Renderer.swift:234-264 | at least 9 shards, and exactly six vertices per shard |
| BreakGlassMesh.MeshAllWellFormed | Sources/UIEffectKit+BreakGlassTransition/BreakGlassView+Renderer.swift:331-348 | all shards of a new mesh are within their ranges |
| BreakGlassShard.ClampFrameDelta | Sources/UIEffectKit+BreakGlassTransition/BreakGlassView+Renderer.swift:432-433 | the frame delta lies in [1/240, 1/24], equals the raw gap inside that range and the nearer bound outside it |
| BreakGlassShard.ClampPhysicsDelta | Sources/UIEffectKit+BreakGlassTransition/BreakGlassView+Renderer.swift:452 | the physics step lies in [1/240, 1/30], equals its argument inside that range and 1/30 above it |
| BreakGlassShard.PhysicsStepBounded | Sources/UIEffectKit+BreakGlassTransition/BreakGlassView+Renderer.swift:433-452 | after both clamps every physics step lies in [1/240, 1/30], and a gap of 1/30 or more gives exactly 1/30 |
| BreakGlassShard.Clamp01 | Sources/UIEffectKit+BreakGlassTransition/BreakGlassView+Renderer.swift:484 | the clamp inside `simd_smoothstep` lands in [0, 1] and keeps values already there |
| BreakGlassShard.Smoothstep | Sources/UIEffectKit+BreakGlassTransition/BreakGlassView+Renderer.swift:484 | smoothstep is in [0, 1], 0 at or before the first edge and 1 at or after the second |
| BreakGlassShard.SmoothstepMonotonic | Sources/UIEffectKit+BreakGlassTransition/BreakGlassView+Renderer.swift:484 | smoothstep never decreases as its argument grows |
| BreakGlassShard.HermiteMonotonic | Sources/UIEffectKit+BreakGlassTransition/BreakGlassView+Renderer.swift:484 | the cubic 3t² − 2t³ is non-decreasing on [0, 1] |
| BreakGlassShard.ShardOpacity | Sources/UIEffectKit+BreakGlassTransition/BreakGlassView+Renderer.swift:484-496 | an active shard's opacity lies in [0, radialOpacity], is either 0 or above the 0.005 alive threshold, is 0 once age >= life, and, for a radial opacity in (0.005, 1], equals it until the last 0.75 s of the shard's life |
| BreakGlassShard.ShardOpacityNonIncreasing | Sources/UIEffectKit+BreakGlassTransition/BreakGlassView+Renderer.swift:484-496 | an older shard is never more opaque |
| BreakGlassShard.AdvanceAll | Sources/UIEffectKit+BreakGlassTransition/BreakGlassView+Renderer.swift:457-507 | one frame keeps the number of shards and advances shard i on its own |
| BreakGlassShard.UniformsAfter | Sources/UIEffectKit+BreakGlassTransition/BreakGlassView+Renderer.swift:461-504 | one uniform per shard, uniform i describing shard i after the frame |
| BreakGlassShard.InitialUniforms | Sources/UIEffectKit+BreakGlassTransition/BreakGlassView+Renderer.swift:349-352 | one initial uniform per shard, carrying its radial opacity |
| BreakGlassShard.InitialUniformsAppend | Sources/UIEffectKit+BreakGlassTransition/BreakGlassView+Renderer.swift:348-352 | appending a shard appends its uniform |
| BreakGlassShard.AllWellFormedConcat | Sources/UIEffectKit+BreakGlassTransition/BreakGlassView+Renderer.swift:348 | appending well-formed shards to well-formed shards keeps them all well formed |
| BreakGlassShard.AliveCountBounded | Sources/UIEffectKit+BreakGlassTransition/BreakGlassView+Renderer.swift:455-509 | the alive count never exceeds the number of shards |
| BreakGlassShard.AliveCountZero | Sources/UIEffectKit+BreakGlassTransition/BreakGlassView+Renderer.swift:469-496 | the alive count is zero exactly when no shard counts as alive this frame |
| BreakGlassShard.DelayedShardWaits | Sources/UIEffectKit+BreakGlassTransition/BreakGlassView+Renderer.swift:460-471 | before its delay a shard keeps its age, velocity, offset, rotation, spin and scale, shows its radial opacity, and counts as alive |
| BreakGlassShard.ActiveShardStep | Sources/UIEffectKit+BreakGlassTransition/BreakGlassView+Renderer.swift:473-496 | past its delay a shard ages by the step; its opacity is the smoothstep fade capped by radial opacity, within [0, radialOpacity], and 0 once age >= life; it counts as alive exactly when that opacity is above 0.005; its scale stays in [1, 1 + 0.5 x expansionBoost] |
| BreakGlassShard.AdvanceKeepsWellFormed | Sources/UIEffectKit+BreakGlassTransition/BreakGlassView+Renderer.swift:458-506 | a frame with a step of at most 1/30 s keeps a shard within its ranges, spin within ±3 included, and its opacity never exceeds its radial opacity |
| BreakGlassShard.DampingWithoutForces | Sources/UIEffectKit+BreakGlassTransition/BreakGlassView+Renderer.swift:475-482 | with no acceleration and no expansion boost the velocity is exactly 0.992 times the old one; with no angular acceleration the spin is 0.98 times the old one and so strictly smaller in magnitude |
| BreakGlassShard.SpinStaysBounded | Sources/UIEffectKit+BreakGlassTransition/BreakGlassView+Renderer.swift:479-481 | a spin within ±3 and an angular acceleration within ±1.5 keep the spin within ±3 after a step of at most 1/30 s |
| BreakGlassShard.OpacityNeverRises | Sources/UIEffectKit+BreakGlassTransition/BreakGlassView+Renderer.swift:460-496 | over two frames with non-decreasing elapsed time and non-negative steps a shard's opacity never rises |
| BreakGlassShard.AdvanceAllKeepsWellFormed | Sources/UIEffectKit+BreakGlassTransition/BreakGlassView+Renderer.swift:457-507 | a frame with a step of at most 1/30 s keeps every shard within its ranges |
| BreakGlassRenderer.Renderer.constructor | Sources/UIEffectKit+BreakGlassTransition/BreakGlassView+Renderer.swift:50-70 | a new renderer is idle: every flag false, clock and sizes zero, no shards, buffers, texture or callbacks, and nothing queued |
| BreakGlassRenderer.Renderer.Prepare | Sources/UIEffectKit+BreakGlassTransition/BreakGlassView+Renderer.swift:72-112 | while a run is prepared or being set up nothing changes at all; otherwise the run is setting up with the device and both callbacks stored, the first-frame flag, clock and finishing flag reset, the target size at least 1 x 1 published in the globals, and one setup job queued |
| BreakGlassRenderer.Renderer.BeginRun | Sources/UIEffectKit+BreakGlassTransition/BreakGlassView+Renderer.swift:82-90 | setting up, device and callbacks stored, first frame not sent, not finishing, and the log of this run's callbacks emptied |
| BreakGlassRenderer.Renderer.ResetClock | Sources/UIEffectKit+BreakGlassTransition/BreakGlassView+Renderer.swift:88-89 | start and last update time are zero |
| BreakGlassRenderer.Renderer.FixTargetSize | Sources/UIEffectKit+BreakGlassTransition/BreakGlassView+Renderer.swift:92-95 | the target size is the frame size with each side at least 1, and only the globals' target size changes with it |
| BreakGlassRenderer.Renderer.SetupGeometry | Sources/UIEffectKit+BreakGlassTransition/BreakGlassView+Renderer.swift:230-357 | the mesh's shards and their initial uniforms are appended to the existing ones, and the pending vertices become the mesh's vertices, indexed from the old shard count |
| BreakGlassRenderer.Renderer.SetupBuffers | Sources/UIEffectKit+BreakGlassTransition/BreakGlassView+Renderer.swift:359-380 | with pending vertices, the buffers exist and the globals are reset to the target size with no elapsed time; with none, nothing changes |
| BreakGlassRenderer.Renderer.SetupTexture | Sources/UIEffectKit+BreakGlassTransition/BreakGlassView+Renderer.swift:382-414 | the texture exists |
| BreakGlassRenderer.Renderer.FinalizeSetup | Sources/UIEffectKit+BreakGlassTransition/BreakGlassView+Renderer.swift:416-420 | the clock starts at the current time |
| BreakGlassRenderer.Renderer.RunSetupJob | Sources/UIEffectKit+BreakGlassTransition/BreakGlassView+Renderer.swift:97-111 | corrected: the oldest setup job is removed; if its run has been cleaned up and the device is gone, nothing else changes and no hop is queued; otherwise the mesh is appended, buffers and texture exist, the clock starts and the end-of-setup hop is queued; the invariant is kept |
| BreakGlassRenderer.Renderer.RunSetupJobAsWritten | Sources/UIEffectKit+BreakGlassTransition/BreakGlassView+Renderer.swift:97-111 | as written: the job needs the stored device, which the pipeline and sampler are built from; it appends the mesh, creates buffers and texture, resets the globals, starts the clock, removes the job and queues the end-of-setup hop; the invariant is kept |
| BreakGlassRenderer.Renderer.SetupResources | Sources/UIEffectKit+BreakGlassTransition/BreakGlassView+Renderer.swift:103-107 | buffers, texture, globals and clock set up, and the end-of-setup hop queued |
| BreakGlassRenderer.Renderer.FinishSetup | Sources/UIEffectKit+BreakGlassTransition/BreakGlassView+Renderer.swift:107-110 | corrected hop: the run becomes prepared only if it was still setting up and its buffers and texture exist; it is then no longer setting up |
| BreakGlassRenderer.Renderer.FinishSetupAsWritten | Sources/UIEffectKit+BreakGlassTransition/BreakGlassView+Renderer.swift:107-110 | as written: the run is marked prepared and not setting up, whatever happened meanwhile |
| BreakGlassRenderer.Renderer.CleanupResources | Sources/UIEffectKit+BreakGlassTransition/BreakGlassView+Renderer.swift:527-556 | corrected cleanup: all four flags false, clock and sizes zero, shards, uniforms and vertices empty, device, buffers, texture and callbacks released, from any state |
| BreakGlassRenderer.Renderer.CleanupResourcesAsWritten | Sources/UIEffectKit+BreakGlassTransition/BreakGlassView+Renderer.swift:527-556 | as written: the same cleaned-up state, but only when the buffers and the texture exist, because it force-unwraps them |
| BreakGlassRenderer.Renderer.ResetRunState | Sources/UIEffectKit+BreakGlassTransition/BreakGlassView+Renderer.swift:528-534 | not prepared, not setting up, first frame not sent, clock, target size and globals zero |
| BreakGlassRenderer.Renderer.ClearMesh | Sources/UIEffectKit+BreakGlassTransition/BreakGlassView+Renderer.swift:536-538 | shards, uniforms and pending vertices are empty |
| BreakGlassRenderer.Renderer.ReleaseGpuObjects | Sources/UIEffectKit+BreakGlassTransition/BreakGlassView+Renderer.swift:540-551 | corrected: no device, buffers or texture afterwards, whether or not they existed |
| BreakGlassRenderer.Renderer.ReleaseGpuObjectsAsWritten | Sources/UIEffectKit+BreakGlassTransition/BreakGlassView+Renderer.swift:540-551 | as written: releasing needs the buffers and the texture to exist; afterwards there are no device, buffers or texture |
| BreakGlassRenderer.Renderer.DropCallbacks | Sources/UIEffectKit+BreakGlassTransition/BreakGlassView+Renderer.swift:553-555 | both callbacks dropped and the finishing flag cleared |
| BreakGlassRenderer.Renderer.Cancel | Sources/UIEffectKit+BreakGlassTransition/BreakGlassView+Renderer.swift:558-565 | a no-op unless prepared or setting up; otherwise the run is finishing, so no completion can be scheduled, and exactly one cleanup is queued; no callback is invoked |
| BreakGlassRenderer.Renderer.HandleCompletion | Sources/UIEffectKit+BreakGlassTransition/BreakGlassView+Renderer.swift:514-525 | the run is finishing afterwards, and the completion hop is queued only if it was not finishing before, so at most once per run |
| BreakGlassRenderer.Renderer.UpdateTime | Sources/UIEffectKit+BreakGlassTransition/BreakGlassView+Renderer.swift:425-442 | the first frame starts the clock at `now`; the returned delta is the gap since the previous frame (none on the first) clamped to [1/240, 1/24]; the globals carry the time since the start |
| BreakGlassRenderer.Renderer.UpdateShardStates | Sources/UIEffectKit+BreakGlassTransition/BreakGlassView+Renderer.swift:451-510 | every shard and its uniform advanced by the step clamped to [1/240, 1/30], the returned count is the number of shards alive, and the shard count and well-formedness are kept |
| BreakGlassRenderer.Renderer.AdvanceFrame | Sources/UIEffectKit+BreakGlassTransition/BreakGlassView+Renderer.swift:117-125 | the viewport is the view size with each side at least 1, the clock and every shard are advanced as above, and the alive count is returned; the invariant is kept |
| BreakGlassRenderer.Renderer.Draw | Sources/UIEffectKit+BreakGlassTransition/BreakGlassView+Renderer.swift:114-163 | nothing unless prepared; otherwise the frame advances; a zero alive count hands over to completion instead of drawing; an encoded frame queues the first-frame callback only on the run's first encoded frame; a frame that cannot be encoded queues nothing |
| BreakGlassRenderer.Renderer.SendFirstFrame | Sources/UIEffectKit+BreakGlassTransition/BreakGlassView+Renderer.swift:155-162 | the first-frame flag is set, and the callback hop is queued only if it was not set before |
| BreakGlassRenderer.Renderer.RunMainTask | Sources/UIEffectKit+BreakGlassTransition/BreakGlassView+Renderer.swift:107-564 | the oldest main-queue block runs. End of setup: the corrected hop. First frame: the callback if still held, then dropped. Completion: cleanup, then the callback read before it. Cancel: cleanup with no callback. The end-of-setup hop leaves the finishing flag, callbacks, mesh, clock, sizes, globals and GPU objects as they were; the first-frame hop leaves the lifecycle flags, the completion callback, mesh, clock, sizes, globals and GPU objects as they were. The ghost log of the run's callbacks grows by exactly what is delivered, and the invariant keeps it in order: each callback at most once and the first-frame callback never after the completion callback, because the completion block drops both callbacks; a first-frame hop that runs after the completion invokes nothing |
| BreakGlassRenderer.Renderer.DeliverFirstFrameCallback | Sources/UIEffectKit+BreakGlassTransition/BreakGlassView+Renderer.swift:157-161 | the first-frame callback is invoked if present and then dropped; the run's log records it |
| BreakGlassRenderer.Renderer.CompleteRun | Sources/UIEffectKit+BreakGlassTransition/BreakGlassView+Renderer.swift:518-524 | the renderer is cleaned up, and the completion callback held before cleanup is invoked after it and recorded in the run's log |
| BreakGlassRenderer.Renderer.RunMainTaskAsWritten | Sources/UIEffectKit+BreakGlassTransition/BreakGlassView+Renderer.swift:107-564 | the same blocks with the hop and cleanup as written: the end-of-setup hop always marks the run prepared and changes nothing else, the first-frame hop touches only its callback, and a cleanup needs the buffers and the texture |
| BreakGlassRenderer.MeshExtendsShards | Sources/UIEffectKit+BreakGlassTransition/BreakGlassView+Renderer.swift:269-356 | appending a new mesh keeps every shard well formed and always produces vertices |
| BreakGlassRenderer.BuildMesh | Sources/UIEffectKit+BreakGlassTransition/BreakGlassView+Renderer.swift:242-356 | the nested loops produce exactly the mesh's shards, their initial uniforms and the mesh's vertices |
| BreakGlassRenderer.BuildRow | Sources/UIEffectKit+BreakGlassTransition/BreakGlassView+Renderer.swift:270-353 | one row of the inner loop extends the row-major shards, uniforms and vertices by that row's cells |
| BreakGlassRenderer.GenerateCell | Sources/UIEffectKit+BreakGlassTransition/BreakGlassView+Renderer.swift:271-347 | one cell yields its shard and its six vertices |
| BreakGlassRenderer.StepShard | Sources/UIEffectKit+BreakGlassTransition/BreakGlassView+Renderer.swift:458-506 | one loop iteration yields the advanced shard, its uniform and whether it counts as alive |
| BreakGlassRenderer.MoveShard | Sources/UIEffectKit+BreakGlassTransition/BreakGlassView+Renderer.swift:475-482 | offset and rotation move by the new velocity and spin times the step; with no acceleration and no boost the velocity is 0.992 times the old one, with no angular acceleration the spin is 0.98 times the old one, and a spin within ±3 under an angular acceleration within ±1.5 stays within ±3 for a step of at most 1/30 s |
| BreakGlassRenderer.FadeAndGrow | Sources/UIEffectKit+BreakGlassTransition/BreakGlassView+Renderer.swift:484-496 | the shard is alive exactly when its faded opacity exceeds 0.005, in which case it keeps that opacity, and otherwise it is zeroed; its scale is the capped growth |
| BreakGlassRenderer.AdvanceShards | Sources/UIEffectKit+BreakGlassTransition/BreakGlassView+Renderer.swift:457-509 | the indexed loop produces every advanced shard, every uniform and the alive count |
| BreakGlassRenderer.CancelDuringSetup | Sources/UIEffectKit+BreakGlassTransition/BreakGlassView+Renderer.swift:558-565 | after `prepare` then `cancel`, before the setup job runs, a cleanup is queued while neither buffers nor texture exist |
| BreakGlassRenderer.PreparedAfterCancel | Sources/UIEffectKit+BreakGlassTransition/BreakGlassView+Renderer.swift:107-110 | as written, `prepare`, `cancel`, the setup job, the cleanup and then the end-of-setup hop leave the renderer prepared with no shards, buffers or texture |
| BreakGlassRenderer.CancelledSetupStaysUnprepared | Sources/UIEffectKit+BreakGlassTransition/BreakGlassView+Renderer.swift:107-110 | with the corrected hop and cleanup the same interleaving leaves the renderer cleaned up, unprepared and valid |
| BreakGlassRenderer.StaleSetupJob | Sources/UIEffectKit+BreakGlassTransition/BreakGlassView+Renderer.swift:551-563 | `prepare`, `cancel` and the corrected cleanup leave the renderer cleaned up with no device while the setup job is still queued, so the job as written cannot run |
| BreakGlassRenderer.NeverEncodedFrame | Sources/UIEffectKit+BreakGlassTransition/BreakGlassView+Renderer.swift:123-142 | in a prepared run with nothing encoded yet, a frame without drawable or encoder either completes the run, when no shard is alive (always, with no shards), with the completion callback alone, or leaves the run prepared, unsent and holding both callbacks, so such frames can repeat until the run completes without a first-frame callback |
| BreakGlassRenderer.StaleSetupJobDropped | Sources/UIEffectKit+BreakGlassTransition/BreakGlassView+Renderer.swift:97-111 | the corrected job then drops the stale request, leaving the renderer cleaned up with no job, no main-queue block and no callback invoked |
| SweepBandContainer.Clamped | Sources/UIEffectKit+SweepTransition/SweepBandContainerView.swift:266-268 | the result lies in the range, equals the value inside it, and is the nearer bound outside it |
| SweepBandContainer.SanitizedParameters | Sources/UIEffectKit+SweepTransition/SweepBandContainerView.swift:213-230 | 0 <= lower <= lowerFeatherEnd <= upperFeatherStart <= upper <= 1; {lower, upper} are the two clamped fractions; the direction angle is kept |
| SweepBandContainer.SwapEdgesSameBand | Sources/UIEffectKit+SweepTransition/SweepBandContainerView.swift:214-217 | swapping the entry and leaving fractions gives the same band parameters |
| SweepBandContainer.FeatherBounds | Sources/UIEffectKit+SweepTransition/SweepBandContainerView.swift:218-222 | the feather lies in [0, 0.5] and is at most half the span; in a band at least 0.0001 wide each feathered edge sits exactly one feather inside its band edge |
| SweepBandContainer.FeatherExample | Sources/UIEffectKit+SweepTransition/SweepBandContainerView.swift:213-230 | entry 0.2, leaving 0.8 and feather 0.5 cut the feather to 0.3, so both feathered edges meet at 0.5 |
| SweepBandContainer.StopsOrdered | Sources/UIEffectKit+SweepTransition/SweepBandContainerView.swift:182-189 | the six gradient locations run from 0 to 1 and never decrease |
| SweepBandContainer.MaskOpaqueBetweenFeathers | Sources/UIEffectKit+SweepTransition/SweepBandContainerView.swift:182-191 | every mask colour is white; only the two stops at the feathered edges are opaque, the other four are transparent |
| SweepBandContainer.GradientPoints | Sources/UIEffectKit+SweepTransition/SweepBandContainerView.swift:232-239 | start and end are symmetric about (0.5, 0.5), and end − start is the value of `direction` at the angle converted from degrees to radians |
| SweepBandContainer.UnitCircleComponents | Sources/UIEffectKit+SweepTransition/SweepBandContainerView.swift:232-239 | both coordinates of a point on the unit circle, as (cos θ, sin θ) is, lie in [−1, 1] |
| SweepBandContainer.GradientAxisOnUnitCircle | Sources/UIEffectKit+SweepTransition/SweepBandContainerView.swift:232-239 | for a (cos, sin) direction the gradient axis has length 1 and both ends lie in the unit square |
| SweepBandContainer.GradientPointsInUnitSquare | Sources/UIEffectKit+SweepTransition/SweepBandContainerView.swift:232-239 | for a direction with components in [−1, 1], both points lie in the unit square |
| SweepBandContainer.SweepBandContainerView.constructor | Sources/UIEffectKit+SweepTransition/SweepBandContainerView.swift:134-157 | the default configuration (0.85, 0.0, 0.08, 90°) is applied to the mask with actions disabled |
| SweepBandContainer.MaskAxisInUnitSquare | Sources/UIEffectKit+SweepTransition/SweepBandContainerView.swift:180-208 | between updates the mask's gradient axis has length 1 and both of its ends lie in the unit square |
| SweepBandContainer.SweepBandContainerView.SetConfiguration | Sources/UIEffectKit+SweepTransition/SweepBandContainerView.swift:41-44 | the setter stores the new value and applies it without animation |
| SweepBandContainer.SweepBandContainerView.SetEntryFraction | Sources/UIEffectKit+SweepTransition/SweepBandContainerView.swift:89-101 | only the entry fraction changes, plus the leaving fraction when one is given; animated by default with a 0.35 s duration and the given timing function |
| SweepBandContainer.SweepBandContainerView.SetDirectionAngle | Sources/UIEffectKit+SweepTransition/SweepBandContainerView.swift:103-108 | only the direction angle changes; unanimated by default |
| SweepBandContainer.SweepBandContainerView.SetFeatherFraction | Sources/UIEffectKit+SweepTransition/SweepBandContainerView.swift:110-115 | only the feather fraction changes; unanimated by default |
| SweepBandContainer.SweepBandContainerView.PerformConfigurationUpdate | Sources/UIEffectKit+SweepTransition/SweepBandContainerView.swift:117-130 | the value is stored and applied, animated with the given duration and timing only when `animated` |
| SweepBandContainer.SweepBandContainerView.ApplyConfiguration | Sources/UIEffectKit+SweepTransition/SweepBandContainerView.swift:180-211 | the mask shows the stored configuration's stops, colours and gradient points; the transaction animates only when asked and a context is pending; the context is consumed |
| SweepTransition.BandOf | Sources/UIEffectKit+SweepTransition/SweepTransitionView.swift:171-181 | 0 <= lower <= lowerEdgeEnd <= upperEdgeStart <= upper <= 1 |
| SweepTransition.BandMatchesContainer | Sources/UIEffectKit+SweepTransition/SweepTransitionView.swift:171-181 | the inline band arithmetic gives exactly the container's sanitized parameters |
| SweepTransition.BandFeatherAndSymmetry | Sources/UIEffectKit+SweepTransition/SweepTransitionView.swift:172-181 | each feathered edge lies within min(span / 2, 0.5) inside its band edge, and swapping entry and leaving gives the same band |
| SweepTransition.GreyMaskLevels | Sources/UIEffectKit+SweepTransition/SweepTransitionView.swift:191-198 | every colour is opaque; its white level is 1 exactly at the two feathered-edge stops; the colours agree with the container's mask only at those two stops |
| SweepTransition.SweepTransitionView.constructor | Sources/UIEffectKit+SweepTransition/SweepTransitionView.swift:126-146 | the default configuration is applied to the mask with actions disabled |
| SweepTransition.TransitionMaskAxisInUnitSquare | Sources/UIEffectKit+SweepTransition/SweepTransitionView.swift:170-216 | between updates the mask's gradient axis has length 1 and both of its ends lie in the unit square |
| SweepTransition.SweepTransitionView.SetConfiguration | Sources/UIEffectKit+SweepTransition/SweepTransitionView.swift:39-45 | the setter stores the new value and applies it without animation |
| SweepTransition.SweepTransitionView.SetEntryFraction | Sources/UIEffectKit+SweepTransition/SweepTransitionView.swift:85-97 | only the entry fraction changes, plus the leaving fraction when one is given; animated by default |
| SweepTransition.SweepTransitionView.SetDirectionAngle | Sources/UIEffectKit+SweepTransition/SweepTransitionView.swift:99-103 | only the direction angle changes; unanimated by default |
| SweepTransition.SweepTransitionView.SetFeatherFraction | Sources/UIEffectKit+SweepTransition/SweepTransitionView.swift:105-109 | only the feather fraction changes; unanimated by default |
| SweepTransition.SweepTransitionView.PerformConfigurationUpdate | Sources/UIEffectKit+SweepTransition/SweepTransitionView.swift:111-124 | the value is stored and applied, animated only when `animated` |
| SweepTransition.SweepTransitionView.ApplyConfiguration | Sources/UIEffectKit+SweepTransition/SweepTransitionView.swift:170-218 | the mask shows the band's stops, the grey levels and the gradient points; the transaction animates only when asked and a context is pending; the context is consumed |
| ShimmerGrid.LatticeCount | Sources/UIEffectKit+ShimmerGridPoints/ShimmerGridPointsView+Renderer.swift:88-93 | at least one column (row), and when the extent allows one, the lattice plus both margins fits in the extent |
| ShimmerGrid.LatticeCountFits | Sources/UIEffectKit+ShimmerGridPoints/ShimmerGridPointsView+Renderer.swift:88-93 | the count is the largest that fits: one more column (row) would overflow the extent |
| ShimmerGrid.GridPointAt | Sources/UIEffectKit+ShimmerGridPoints/ShimmerGridPointsView+Renderer.swift:98-125 | rows x columns points in row-major order; point (r, c) sits at (8 + 16c, 8 + 16r), has shape type 0 exactly when r + c is even, and wave phases (0.35r, 0.42c) |
| ShimmerGrid.CheckerboardNeighbours | Sources/UIEffectKit+ShimmerGridPoints/ShimmerGridPointsView+Renderer.swift:104 | horizontally and vertically adjacent points have different shape types |
| ShimmerGrid.GridPointRanges | Sources/UIEffectKit+ShimmerGridPoints/ShimmerGridPointsView+Renderer.swift:107-111 | every point's radius is in [4, 8], blur in [0.08, 0.25], intensity in [0.6, 0.9], and both jitter phases in [0, 2π) |
| ShimmerGrid.BuildPoints | Sources/UIEffectKit+ShimmerGridPoints/ShimmerGridPointsView+Renderer.swift:95-127 | the nested loops produce exactly the row-major lattice |
| ShimmerGrid.ShimmerGridRenderer.constructor | Sources/UIEffectKit+ShimmerGridPoints/ShimmerGridPointsView+Renderer.swift:22-31 | nothing exists, size and time are zero, and there is no previous frame |
| ShimmerGrid.ShimmerGridRenderer.Setup | Sources/UIEffectKit+ShimmerGridPoints/ShimmerGridPointsView+Renderer.swift:33-39 | the device is kept, the queue, pipeline and vertex buffer exist as created, and the grid is regenerated; size and clock are untouched |
| ShimmerGrid.ShimmerGridRenderer.RegenerateGrid | Sources/UIEffectKit+ShimmerGridPoints/ShimmerGridPointsView+Renderer.swift:84-133 | without a device or with an empty size nothing changes; otherwise the instance count is the number of lattice points for the current size, and the buffer holds those points if it can be created and is absent if not |
| ShimmerGrid.ShimmerGridRenderer.UpdateDrawableSize | Sources/UIEffectKit+ShimmerGridPoints/ShimmerGridPointsView+Renderer.swift:41-45 | the size is stored, the previous-frame timestamp is forgotten and the grid is regenerated |
| ShimmerGrid.ShimmerGridRenderer.Draw | Sources/UIEffectKit+ShimmerGridPoints/ShimmerGridPointsView+Renderer.swift:135-166 | nothing without pipeline, queue, buffers and points, or without a drawable; otherwise the clock advances by the gap since the last frame (or restarts at 0) before encoding is attempted |
| ShimmerGrid.ResizeRestartsClock | Sources/UIEffectKit+ShimmerGridPoints/ShimmerGridPointsView+Renderer.swift:41-45 | after a resize the next drawn frame has time 0 and the one after it the gap between the two |
| ShimmeringBackground.ParticleCount | Sources/UIEffectKit+ShimmeringBackground/ShimmeringBackgroundView+Renderer.swift:105-107 | at least 128 particles: exactly 128 when area x 0.00025 is below 128, otherwise the whole part of area x 0.00025 |
| ShimmeringBackground.Particles | Sources/UIEffectKit+ShimmeringBackground/ShimmeringBackgroundView+Renderer.swift:109-141 | count particles, particle i made from draw i |
| ShimmeringBackground.ParticleRanges | Sources/UIEffectKit+ShimmeringBackground/ShimmeringBackgroundView+Renderer.swift:113-138 | every particle starts inside the drawable, drifts upward with horizontal speed at most 0.24, and has fade speed, size, blur, type, flicker and intensity in their literal ranges, with phases in [0, 2π) |
| ShimmeringBackground.DriftBounds | Sources/UIEffectKit+ShimmeringBackground/ShimmeringBackgroundView+Renderer.swift:114-119 | a direction within ±30° and a speed in [4, 12] give horizontal drift within ±0.24 and a strictly upward vertical drift |
| ShimmeringBackground.BuildParticles | Sources/UIEffectKit+ShimmeringBackground/ShimmeringBackgroundView+Renderer.swift:109-141 | the counted loop produces exactly the particle field |
| ShimmeringBackground.ThreadgroupsCoverParticles | Sources/UIEffectKit+ShimmeringBackground/ShimmeringBackgroundView+Renderer.swift:183-185 | the threadgroups cover every particle, one group fewer would not, and no particles need no groups |
| ShimmeringBackground.ShimmeringBackgroundRenderer.constructor | Sources/UIEffectKit+ShimmeringBackground/ShimmeringBackgroundView+Renderer.swift:27-36 | nothing exists, size and elapsed time are zero, and there is no previous frame |
| ShimmeringBackground.ShimmeringBackgroundRenderer.Setup | Sources/UIEffectKit+ShimmeringBackground/ShimmeringBackgroundView+Renderer.swift:38-44 | the device is kept, queue, pipelines and vertex buffer exist as created, and the particles are regenerated; size and clock are untouched |
| ShimmeringBackground.ShimmeringBackgroundRenderer.RegenerateParticles | Sources/UIEffectKit+ShimmeringBackground/ShimmeringBackgroundView+Renderer.swift:102-151 | without a device or with an empty size nothing changes; otherwise the count is the size of the particle field for the current area, and the buffer holds that field if it can be created and is absent if not |
| ShimmeringBackground.ShimmeringBackgroundRenderer.UpdateDrawableSize | Sources/UIEffectKit+ShimmeringBackground/ShimmeringBackgroundView+Renderer.swift:46-49 | the size is stored and the particles regenerated; the frame clock keeps running |
| ShimmeringBackground.ShimmeringBackgroundRenderer.Draw | Sources/UIEffectKit+ShimmeringBackground/ShimmeringBackgroundView+Renderer.swift:153-209 | nothing without device, pipelines, queue, buffers and particles, or without a drawable; otherwise the clock advances by the gap since the last frame (or restarts at 0), and a compute pass, when encoded, dispatches just enough threadgroups for every particle |
| MetalHost.MetalView.constructor | Sources/UIEffectKitBase/MetalHostView.swift:76 | a new `MTKView` has a zero frame and drawable, runs unpaused at 60 frames per second, clears to opaque black, has a write-only framebuffer and no delegate |
| MetalHost.InsetBy | Sources/UIEffectKitBase/MetalHostView.swift:114-128 | an inset keeps the centre and changes each side by twice the inset, and yields a rectangle whenever both sides stay non-negative |
| MetalHost.ExpandedBounds | Sources/UIEffectKitBase/MetalHostView.swift:114-128 | `.none` and `.multiple(by)` with by <= 1 leave the bounds unchanged; `.extending(pt)` with pt >= 0 moves the origin by −pt and grows each side by 2pt; `.multiple(by)` with by > 1 scales both sides by `by`; every case keeps the centre |
| MetalHost.ExpandedBoundsGrow | Sources/UIEffectKitBase/MetalHostView.swift:114-128 | a non-negative extension never shrinks the bounds or yields the null rectangle |
| MetalHost.DrawableSize | Sources/UIEffectKitBase/MetalHostView.swift:144-146 | the drawable is non-negative for a non-negative frame and scale, and equals the frame size at scale 1 |
| MetalHost.MetalHostView.constructor | Sources/UIEffectKitBase/MetalHostView.swift:36-41 | the host's bounds sit at the origin with the frame's size, with no extension and 60 frames per second; its new Metal view, without a delegate, runs unpaused at that rate, is not redrawn on demand, clears to transparent black with a readable framebuffer, and covers the bounds at the display scale |
| MetalHost.MetalHostView.ConfigureMetalView | Sources/UIEffectKitBase/MetalHostView.swift:96-110 | unpaused, display-link driven, at the host's frame rate, transparent clear colour, framebuffer not write-only |
| MetalHost.MetalHostView.UpdateMetalViewLayout | Sources/UIEffectKitBase/MetalHostView.swift:141-147 | the Metal view's frame is the expanded bounds and its drawable size is that frame times the scale |
| MetalHost.MetalHostView.LayoutSubviews | Sources/UIEffectKitBase/MetalHostView.swift:149-160 | a layout pass puts the Metal view over the current expanded bounds and clears the pending layout |
| MetalHost.MetalHostView.SetBounds | Sources/UIEffectKitBase/MetalHostView.swift:149-160 | a resize marks a layout pass as due, keeping the invariant |
| MetalHost.MetalHostView.SetExtendingArea | Sources/UIEffectKitBase/MetalHostView.swift:28-30 | the area is stored and a layout pass is requested |
| MetalHost.MetalHostView.SetPreferredFramesPerSecond | Sources/UIEffectKitBase/MetalHostView.swift:32-34 | the rate is stored and forwarded to the Metal view |
| MetalHost.MetalHostView.SetDelegate | Sources/UIEffectKitBase/MetalHostView.swift:50-52 | the Metal view's delegate is attached or removed |
| MetalHost.MetalHostView.SetPaused | Sources/UIEffectKitBase/MetalHostView.swift:54-56 | sets exactly the Metal view's pause state |
| MetalHost.MetalHostView.SetFramebufferOnly | Sources/UIEffectKitBase/MetalHostView.swift:58-60 | sets exactly the Metal view's framebuffer mode |
| MetalHost.MetalHostView.SetClearColor | Sources/UIEffectKitBase/MetalHostView.swift:62-64 | sets exactly the Metal view's clear colour |
| MetalHost.ExtendThenLayout | Sources/UIEffectKitBase/MetalHostView.swift:141-147 | changing the area and laying out covers the grown bounds, with a drawable at least the bounds times the scale |
| EffectHost.StandardDefaults | Sources/UIEffectKitBase/EffectHostConfig.swift:18-30 | `standard` is `.none`, 60 frames per second, framebuffer not write-only, and clear colour (0, 0, 0, 0) |
| EffectHost.ConfigEquals | Sources/UIEffectKitBase/EffectHostConfig.swift:33-41 | the component-wise `==` holds exactly when the two configurations are equal |
| EffectHost.ConfigEqualsEquivalence | Sources/UIEffectKitBase/EffectHostConfig.swift:33-41 | `==` is reflexive, symmetric and transitive |
| EffectHost.ConfigEqualsSeesAlpha | Sources/UIEffectKitBase/EffectHostConfig.swift:40 | configurations differing only in clear-colour alpha are not equal |
| EffectHost.AreaShorthands | Sources/UIEffectKitBase/EffectHostConfig.swift:52-56 | `standard` is `.none` and leaves the bounds alone, `padding(x)` is `.extending(pt: x)` and grows every side by x, `multiple(x)` is `.multiple(by: x)` and scales both sides by x > 1 |
| EffectHost.Apply | Sources/UIEffectKitBase/EffectHostConfig.swift:44-49 | afterwards the host's configuration is exactly the applied one, the Metal view runs at its rate and a layout pass is due |
| EffectHost.NewHostIsStandard | Sources/UIEffectKitBase/EffectHostConfig.swift:44-49 | after creating a host, applying `standard` and laying out, the host's configuration is `standard`, its Metal view keeps the settings `configureMetalView` gave it, and covers the bounds at the display scale |

## Left out

- Metal itself: device, library and pipeline creation, buffer allocation
  and copies, texture loading, command encoding, presenting and committing.
  Each object is only present or absent, and whether encoding succeeds is a
  parameter.
- `makeTransformMatrix`, the shard transform, is left out. A uniform
  records the translation, rotation, scale and opacity that feed it.
- `normalizeSafe`, `sqrt`, `round` applied to the column estimate, `powf`,
  `sin`, `cos` and `simd_length`: their results are inputs with the ranges
  the code relies on.
- BreakGlassMesh.LayoutRounding: the column estimate is an input and is not
  constrained. `BreakGlassMesh.ColumnsFromRoot` ties it to the square root.
- Floating-point rounding, NaN and infinity: all arithmetic is on reals.
- EffectHost.ConfigEquals: it is reflexive here, which Swift's `==` is not
  for a NaN component, because the model has no NaN.
- The `UInt32` conversion of the shard index is not modelled. Indices are
  unbounded naturals, so wrap-around is not modelled.
- Concurrency: the background setup queue and the main queue are explicit
  FIFO queues stepped one block at a time. Setup jobs run in the order
  queued, and no interleaving inside a block is modelled.
- BreakGlassRenderer.Renderer.RunSetupJob: the setup job captures `self`
  weakly, but the model always finds the renderer. A job that runs after
  its run's cleanup traps in the source on the device the cleanup cleared
  (`RunSetupJobAsWritten` requires the device), and the corrected job drops
  it. A job that runs after a cleanup and a new `prepare` finds the new
  run's device, so both versions append its stale mesh to the new run; a
  per-run token that would tell the two apart is not modelled.
- BreakGlassRenderer.Renderer.RunMainTask: the model promises that the
  first-frame callback never comes after the completion callback in a run,
  not that it always comes before it. A run none of whose frames gets a
  command buffer, drawable or encoder (BreakGlassView+Renderer.swift:131-142)
  completes with the completion callback alone, as the source does
  (`BreakGlassRenderer.NeverEncodedFrame`).
- `setupPipeline` and `setupSampler` are left out beyond their use of the
  stored device, because they only create Metal objects.
- `updateBuffers` and the first-frame/completion closures' `[weak self]`
  checks are left out.
- BreakGlassRenderer.Renderer.Cancel: the cleanup block it queues captures
  `self` weakly (BreakGlassView+Renderer.swift:561-563), so it is skipped
  when the renderer is gone. The model always finds the renderer and always
  runs the cleanup.
- Layer-mask compositing (how `CAGradientLayer` and `CATransaction` render)
  is left out. Each sweep view records the locations, colours, end points
  and the transaction it would commit.
- The sweep views' layout, content view and `commonInit` are left out.
- Shader-side animation (particle wrap-around, grid waves, flicker, shard
  fragment shading) is not visible in the Swift code and is left out.
- The hosting views of the shimmer and break-glass effects, the transition
  entry points, platform snapshots, SwiftUI wrappers and the example app
  are left out, because they are platform glue.
- MetalHost.MetalView.constructor: these are MetalKit's documented defaults
  for a new `MTKView`. MetalKit is not part of this model.
- MetalHost.MetalHostView.constructor: a missing Metal device
  (`fatalError`) is not modelled. AppKit/UIKit layer flags
  (`clipsToBounds`, `wantsLayer`, background colours) are left out, and so
  is the `deinit` that clears the delegate.
- MetalHost.InsetBy: it assumes a rectangle with non-negative sides, as view
  bounds are. Core Graphics' standardisation of a negative-size rectangle
  before insetting is not modelled.
- The display scale chosen from window, screen or layer is a parameter of
  layout.

## Findings

| source | as written | input that shows it | evidently intended | confidence | as-written member | corrected member |
|---|---|---|---|---|---|---|
| Sources/UIEffectKit+BreakGlassTransition/BreakGlassView+Renderer.swift:540-547 | `cleanupResources` calls `setPurgeableState` on `vertexBuffer`, `shardUniformBuffer`, `globalUniformBuffer` and `texture` through implicitly unwrapped optionals, while `cancel` (line 559) queues it whenever `isSettingUp` | `prepare` followed at once by `cancel`, with the main queue running the cleanup before the setup job has created the buffers: the cleanup meets nil buffers and traps. With only the cleanup corrected, the setup job that runs afterwards traps instead: `setupPipeline` and `setupSampler` (lines 174, 227) use the `device` the cleanup cleared (line 551) | release whatever exists, from any state, and drop a setup job whose run has been cleaned up | not executed | BreakGlassRenderer.Renderer.CleanupResourcesAsWritten, BreakGlassRenderer.CancelDuringSetup, BreakGlassRenderer.Renderer.RunSetupJobAsWritten, BreakGlassRenderer.StaleSetupJob | BreakGlassRenderer.Renderer.CleanupResources, BreakGlassRenderer.Renderer.RunSetupJob, BreakGlassRenderer.StaleSetupJobDropped |
| Sources/UIEffectKit+BreakGlassTransition/BreakGlassView+Renderer.swift:107-110 | the end-of-setup hop sets `isPrepared = true` unconditionally | `prepare`, `cancel`, the setup job finishing, the queued cleanup, then the setup hop: the renderer is prepared with no shards, buffers or texture, which breaks the rule that a prepared renderer holds its buffers and texture; a caller that went on drawing would reach the force-unwrap of the missing global buffer in `updateTime`. The only caller of `cancel` is `BreakGlassView`'s `deinit` (BreakGlassView.swift:45-47), which first clears the view's delegate, so the shipped view issues no further `draw`. The setup job holds the renderer strongly once it has started, so the cleanup and the hop both still run | a run cancelled during setup stays unprepared | not executed | BreakGlassRenderer.Renderer.FinishSetupAsWritten, BreakGlassRenderer.PreparedAfterCancel | BreakGlassRenderer.Renderer.FinishSetup, BreakGlassRenderer.CancelledSetupStaysUnprepared |
