/**
  The break-glass renderer (`BreakGlassView.Renderer`): the run lifecycle
  driven by `prepare`, `draw`, `handleCompletion`, `cleanupResources` and
  `cancel`, the background setup job that builds the mesh, and the per-frame
  update of every shard.

  The two `DispatchQueue` hops are explicit: `prepare` queues a setup
  request that `RunSetupJob` later executes, and every `DispatchQueue.main.async`
  block is a `MainTask` appended to `mainQueue` that `RunMainTask` runs in
  order. The callbacks `onFirstFrameRendered` and `onComplete` are only
  present or absent; calling one appends it to `delivered`. Metal objects
  are reduced to whether they exist.
 */
module BreakGlassRenderer {
  import opened Support
  import opened BreakGlassShard
  import opened BreakGlassMesh
  import RowMajor

  /** The arguments `prepare` hands to the background setup job. */
  datatype SetupRequest = SetupRequest(width: real, height: real, fractureCount: int)

  /** What the setup job's random draws and transcendental calls produce. */
  datatype SetupInputs = SetupInputs(
    columnRoot: real,
    jitter: (nat, nat) -> Vec2,
    geometry: Geometry,
    draws: (nat, nat) -> ShardDraw)

  ghost predicate ValidSetupInputs(request: SetupRequest, inputs: SetupInputs)
  {
    && ValidJitter(MakeLayout(request.width, request.height, request.fractureCount, inputs.columnRoot), inputs.jitter)
    && ValidGeometry(inputs.geometry)
    && ValidDraws(inputs.draws)
  }

  /** The lattice the setup job lays over the request's frame. */
  function RequestLayout(request: SetupRequest, inputs: SetupInputs): Layout
  {
    MakeLayout(request.width, request.height, request.fractureCount, inputs.columnRoot)
  }

  /** The start of the run's clock after `updateTime`: the first frame starts it at `now`. */
  function RunStart(startTime: real, now: real): real
  {
    if startTime == 0.0 then now else startTime
  }

  /** The unclamped gap `updateTime` measures since the previous frame: none on the first frame. */
  function FrameGap(startTime: real, lastUpdateTime: real, now: real): real
  {
    if startTime == 0.0 then 0.0 else now - lastUpdateTime
  }

  /** A block queued with `DispatchQueue.main.async`. */
  datatype MainTask =
    | SetupFinished      // end of the setup job
    | DeliverFirstFrame  // after the first encoded frame
    | FinishCompletion   // from `handleCompletion`
    | CancelCleanup      // from `cancel`

  datatype Callback = FirstFrameRendered | Completed

  /**
    The callbacks one run may invoke, in the order it may invoke them: each
    at most once, and the first-frame callback never after the completion.
   */
  predicate InRunOrder(log: seq<Callback>)
  {
    log == [] || log == [FirstFrameRendered] || log == [Completed] || log == [FirstFrameRendered, Completed]
  }

  /** How a call to `draw` ended. */
  datatype DrawOutcome =
    | NotPrepared  // the `isPrepared` guard returned
    | Completing   // no shard alive: completion handled instead of drawing
    | NotEncoded   // a command queue, buffer, pass descriptor, drawable or encoder was missing
    | Rendered     // the frame was encoded and committed

  /** `GlobalUniform` without its padding. */
  datatype GlobalUniform = GlobalUniform(viewportSize: Vec2, targetSize: Vec2, elapsed: real)

  const ZeroGlobals: GlobalUniform := GlobalUniform(Zero, Zero, 0.0)

  class Renderer {
    var isPrepared: bool
    var hasSentFirstFrame: bool
    var isSettingUp: bool
    var isFinishing: bool
    var startTime: real
    var lastUpdateTime: real
    var shards: seq<ShardState>
    var shardUniforms: seq<ShardUniform>
    var pendingVertices: seq<Vertex>
    var targetFrameSize: Vec2
    var globalUniform: GlobalUniform
    /** Whether `device` is set: by `prepare`, until `cleanupResources` clears it. */
    var hasDevice: bool
    /** Whether `vertexBuffer`, `shardUniformBuffer` and `globalUniformBuffer` exist. */
    var hasBuffers: bool
    /** Whether `texture` exists. */
    var hasTexture: bool
    var hasFirstFrameCallback: bool
    var hasCompleteCallback: bool
    /** Setup jobs queued on the background queue and not yet run. */
    var setupJobs: seq<SetupRequest>
    /** Blocks queued on the main queue and not yet run, oldest first. */
    var mainQueue: seq<MainTask>
    /** Callbacks invoked so far, in order. */
    var delivered: seq<Callback>
    /** Callbacks invoked since the last accepted `prepare`, in order. */
    ghost var runLog: seq<Callback>

    /**
      The renderer's invariant: one uniform per shard, every shard within its
      ranges, never prepared and setting up at once, never prepared without
      its buffers and texture, never prepared or setting up without a device,
      and each callback invoked at most once per run, the first frame's
      never after the completion's: a callback already invoked in this run
      is no longer held, and once the run has completed neither is.
     */
    ghost predicate Valid()
      reads this
    {
      && |shardUniforms| == |shards|
      && AllWellFormed(shards)
      && !(isPrepared && isSettingUp)
      && (isPrepared ==> hasBuffers && hasTexture)
      && (isPrepared || isSettingUp ==> hasDevice)
      && InRunOrder(runLog)
      && (FirstFrameRendered in runLog ==> !hasFirstFrameCallback)
      && (Completed in runLog ==> !hasFirstFrameCallback && !hasCompleteCallback)
    }

    /** The state `cleanupResources` leaves behind. */
    predicate IsCleanedUp()
      reads this
    {
      && !isPrepared && !isSettingUp && !hasSentFirstFrame && !isFinishing
      && startTime == 0.0 && lastUpdateTime == 0.0
      && targetFrameSize == Zero && globalUniform == ZeroGlobals
      && shards == [] && shardUniforms == [] && pendingVertices == []
      && !hasDevice && !hasBuffers && !hasTexture
      && !hasFirstFrameCallback && !hasCompleteCallback
    }

    constructor()
      ensures Valid() && IsCleanedUp()
      ensures setupJobs == [] && mainQueue == [] && delivered == []
    {
      isPrepared, hasSentFirstFrame, isSettingUp, isFinishing := false, false, false, false;
      startTime, lastUpdateTime := 0.0, 0.0;
      shards, shardUniforms, pendingVertices := [], [], [];
      targetFrameSize, globalUniform := Zero, ZeroGlobals;
      hasDevice, hasBuffers, hasTexture := false, false, false;
      hasFirstFrameCallback, hasCompleteCallback := false, false;
      setupJobs, mainQueue, delivered := [], [], [];
      runLog := [];
    }

    /**
      `prepare`: ignored while a run is prepared or being set up; otherwise
      starts a run — device and callbacks stored, first-frame flag and clock
      reset, the target size fixed at no less than 1 x 1 — and queues the
      setup job.
     */
    method Prepare(width: real, height: real, fractureCount: int)
      requires Valid()
      modifies this`isSettingUp, this`hasDevice, this`hasFirstFrameCallback, this`hasCompleteCallback, this`hasSentFirstFrame
      modifies this`startTime, this`lastUpdateTime, this`isFinishing, this`targetFrameSize, this`globalUniform
      modifies this`setupJobs, this`runLog
      ensures Valid()
      ensures old(isPrepared || isSettingUp) ==> unchanged(this)
      ensures !old(isPrepared || isSettingUp) ==>
        && isSettingUp && hasDevice && !isFinishing && !hasSentFirstFrame
        && hasFirstFrameCallback && hasCompleteCallback
        && startTime == 0.0 && lastUpdateTime == 0.0
        && targetFrameSize == Vec2(Max(width, 1.0), Max(height, 1.0))
        && globalUniform == old(globalUniform).(targetSize := targetFrameSize)
        && setupJobs == old(setupJobs) + [SetupRequest(width, height, fractureCount)]
    {
      if isPrepared || isSettingUp {
        return;
      }
      BeginRun();
      ResetClock();
      FixTargetSize(width, height);
      setupJobs := setupJobs + [SetupRequest(width, height, fractureCount)];
    }

    /** The run state `prepare` sets: setting up, device and callbacks stored, nothing sent or finishing yet. */
    method BeginRun()
      modifies this`isSettingUp, this`hasDevice, this`hasFirstFrameCallback, this`hasCompleteCallback, this`hasSentFirstFrame
      modifies this`isFinishing, this`runLog
      ensures isSettingUp && hasDevice && hasFirstFrameCallback && hasCompleteCallback && !hasSentFirstFrame && !isFinishing
      ensures runLog == []
    {
      isSettingUp := true;
      hasDevice := true;
      hasFirstFrameCallback, hasCompleteCallback := true, true;
      hasSentFirstFrame := false;
      isFinishing := false;
      runLog := [];
    }

    /** Both clock readings back to zero, so the first frame restarts the clock. */
    method ResetClock()
      modifies this`startTime, this`lastUpdateTime
      ensures startTime == 0.0 && lastUpdateTime == 0.0
    {
      startTime, lastUpdateTime := 0.0, 0.0;
    }

    /** The target size, no less than 1 x 1, also published in the globals. */
    method FixTargetSize(width: real, height: real)
      modifies this`targetFrameSize, this`globalUniform
      ensures targetFrameSize == Vec2(Max(width, 1.0), Max(height, 1.0))
      ensures globalUniform == old(globalUniform).(targetSize := targetFrameSize)
    {
      targetFrameSize := Vec2(Max(width, 1.0), Max(height, 1.0));
      globalUniform := globalUniform.(targetSize := targetFrameSize);
    }

    /**
      `setupGeometry`: appends one shard and one uniform per cell of the
      request's lattice in row-major order, and replaces `pendingVertices`
      with six vertices per new shard, numbered from the current shard count.
     */
    method SetupGeometry(request: SetupRequest, inputs: SetupInputs)
      requires ValidSetupInputs(request, inputs)
      modifies this`shards, this`shardUniforms, this`pendingVertices
      ensures var m := RequestLayout(request, inputs);
        && shards == old(shards) + MeshShards(m, inputs.jitter, inputs.geometry, inputs.draws)
        && shardUniforms == old(shardUniforms) + InitialUniforms(MeshShards(m, inputs.jitter, inputs.geometry, inputs.draws))
        && pendingVertices == MeshVertices(m, inputs.jitter, inputs.draws, |old(shards)|)
    {
      var m := RequestLayout(request, inputs);
      var newShards, newUniforms, vertices := BuildMesh(m, inputs.jitter, inputs.geometry, inputs.draws, |shards|);
      shards := shards + newShards;
      shardUniforms := shardUniforms + newUniforms;
      pendingVertices := vertices;
    }

    /**
      `setupBuffers`: with vertices pending, allocates the three buffers and
      resets the globals to the target size with no time elapsed.
     */
    method SetupBuffers()
      modifies this`hasBuffers, this`globalUniform
      ensures |pendingVertices| > 0 ==> hasBuffers && globalUniform == GlobalUniform(targetFrameSize, targetFrameSize, 0.0)
      ensures |pendingVertices| == 0 ==> hasBuffers == old(hasBuffers) && globalUniform == old(globalUniform)
    {
      if |pendingVertices| == 0 {
        return;
      }
      hasBuffers := true;
      globalUniform := GlobalUniform(targetFrameSize, targetFrameSize, 0.0);
    }

    /** `setupTexture`: creates the texture from the snapshot. */
    method SetupTexture()
      modifies this`hasTexture
      ensures hasTexture
    {
      hasTexture := true;
    }

    /** `finalizeSetup`: creates the command queue and starts the clock at `now`. */
    method FinalizeSetup(now: real)
      modifies this`startTime, this`lastUpdateTime
      ensures startTime == now && lastUpdateTime == now
    {
      startTime := now;
      lastUpdateTime := startTime;
    }

    /**
      The background setup job for the oldest queued request, corrected: a
      job whose run has been cleaned up, so that the device is gone, is
      dropped and changes nothing else; otherwise it runs as written.
     */
    method RunSetupJob(inputs: SetupInputs, now: real)
      requires Valid() && |setupJobs| > 0 && ValidSetupInputs(setupJobs[0], inputs)
      modifies this`setupJobs, this`shards, this`shardUniforms, this`pendingVertices, this`hasBuffers
      modifies this`globalUniform, this`hasTexture, this`startTime, this`lastUpdateTime, this`mainQueue
      ensures Valid()
      ensures setupJobs == old(setupJobs[1..])
      ensures !old(hasDevice) ==> ResourcesKept() && mainQueue == old(mainQueue)
      ensures old(hasDevice) ==>
        var request := old(setupJobs[0]);
        var mesh := MeshShards(RequestLayout(request, inputs), inputs.jitter, inputs.geometry, inputs.draws);
        && shards == old(shards) + mesh
        && shardUniforms == old(shardUniforms) + InitialUniforms(mesh)
        && hasBuffers && hasTexture
        && startTime == now && lastUpdateTime == now
        && mainQueue == old(mainQueue) + [SetupFinished]
    {
      if !hasDevice {
        setupJobs := setupJobs[1..];
        return;
      }
      RunSetupJobAsWritten(inputs, now);
    }

    /**
      The background setup job as written, for the oldest queued request:
      builds the mesh, allocates buffers and texture, starts the clock at
      `now` and queues the hop that marks the run prepared. Building the
      pipeline and the sampler first goes through the stored device, which
      traps once a cleanup has cleared it.
     */
    method RunSetupJobAsWritten(inputs: SetupInputs, now: real)
      requires Valid() && |setupJobs| > 0 && ValidSetupInputs(setupJobs[0], inputs)
      requires hasDevice
      modifies this`setupJobs, this`shards, this`shardUniforms, this`pendingVertices, this`hasBuffers
      modifies this`globalUniform, this`hasTexture, this`startTime, this`lastUpdateTime, this`mainQueue
      ensures Valid()
      ensures var request := old(setupJobs[0]);
        var mesh := MeshShards(RequestLayout(request, inputs), inputs.jitter, inputs.geometry, inputs.draws);
        && shards == old(shards) + mesh
        && shardUniforms == old(shardUniforms) + InitialUniforms(mesh)
        && pendingVertices == MeshVertices(RequestLayout(request, inputs), inputs.jitter, inputs.draws, |old(shards)|)
      ensures hasBuffers && hasTexture
      ensures globalUniform == GlobalUniform(targetFrameSize, targetFrameSize, 0.0)
      ensures startTime == now && lastUpdateTime == now
      ensures setupJobs == old(setupJobs[1..]) && mainQueue == old(mainQueue) + [SetupFinished]
    {
      var request := setupJobs[0];
      setupJobs := setupJobs[1..];
      MeshExtendsShards(shards, request, inputs);
      SetupGeometry(request, inputs);
      SetupResources(now);
    }

    /**
      The rest of the setup job once the vertices are pending: buffers,
      texture and clock, then the end-of-setup hop queued on the main queue.
     */
    method SetupResources(now: real)
      requires |pendingVertices| > 0
      modifies this`hasBuffers, this`globalUniform, this`hasTexture, this`startTime, this`lastUpdateTime, this`mainQueue
      ensures hasBuffers && hasTexture
      ensures globalUniform == GlobalUniform(targetFrameSize, targetFrameSize, 0.0)
      ensures startTime == now && lastUpdateTime == now
      ensures mainQueue == old(mainQueue) + [SetupFinished]
    {
      SetupBuffers();
      SetupTexture();
      FinalizeSetup(now);
      mainQueue := mainQueue + [SetupFinished];
    }

    /**
      The hop at the end of setup, corrected: the run becomes prepared only
      if it is still being set up and its buffers and texture exist.
     */
    method FinishSetup()
      requires Valid()
      modifies this`isPrepared, this`isSettingUp
      ensures Valid()
      ensures isPrepared == (old(isPrepared) || (old(isSettingUp) && hasBuffers && hasTexture))
      ensures isSettingUp == (old(isSettingUp) && !isPrepared)
    {
      if isSettingUp && hasBuffers && hasTexture {
        isPrepared := true;
        isSettingUp := false;
      }
    }

    /** The hop at the end of setup as written: it marks the run prepared unconditionally. */
    method FinishSetupAsWritten()
      modifies this`isPrepared, this`isSettingUp
      ensures isPrepared && !isSettingUp
    {
      isPrepared := true;
      isSettingUp := false;
    }

    /**
      `cleanupResources`, corrected to release only what exists: every flag
      false, clock and sizes zero, shards, uniforms and vertices emptied,
      buffers, texture and callbacks released.
     */
    method CleanupResources()
      modifies this`isPrepared, this`isSettingUp, this`hasSentFirstFrame, this`isFinishing
      modifies this`startTime, this`lastUpdateTime, this`targetFrameSize, this`globalUniform
      modifies this`shards, this`shardUniforms, this`pendingVertices, this`hasDevice, this`hasBuffers, this`hasTexture
      modifies this`hasFirstFrameCallback, this`hasCompleteCallback
      ensures IsCleanedUp()
    {
      ResetRunState();
      ClearMesh();
      ReleaseGpuObjects();
      DropCallbacks();
    }

    /**
      `cleanupResources` as written: it force-unwraps the three buffers and
      the texture, so it traps unless they all exist.
     */
    method CleanupResourcesAsWritten()
      requires hasBuffers && hasTexture
      modifies this`isPrepared, this`isSettingUp, this`hasSentFirstFrame, this`isFinishing
      modifies this`startTime, this`lastUpdateTime, this`targetFrameSize, this`globalUniform
      modifies this`shards, this`shardUniforms, this`pendingVertices, this`hasDevice, this`hasBuffers, this`hasTexture
      modifies this`hasFirstFrameCallback, this`hasCompleteCallback
      ensures IsCleanedUp()
    {
      ResetRunState();
      ClearMesh();
      ReleaseGpuObjectsAsWritten();
      DropCallbacks();
    }

    /** The first part of `cleanupResources`: run flags, clock, target size and globals back to zero. */
    method ResetRunState()
      modifies this`isPrepared, this`isSettingUp, this`hasSentFirstFrame
      modifies this`startTime, this`lastUpdateTime, this`targetFrameSize, this`globalUniform
      ensures !isPrepared && !isSettingUp && !hasSentFirstFrame
      ensures startTime == 0.0 && lastUpdateTime == 0.0
      ensures targetFrameSize == Zero && globalUniform == ZeroGlobals
    {
      isPrepared, isSettingUp, hasSentFirstFrame := false, false, false;
      startTime, lastUpdateTime := 0.0, 0.0;
      targetFrameSize, globalUniform := Zero, ZeroGlobals;
    }

    /** Shards, uniforms and pending vertices emptied. */
    method ClearMesh()
      modifies this`shards, this`shardUniforms, this`pendingVertices
      ensures shards == [] && shardUniforms == [] && pendingVertices == []
    {
      shards, shardUniforms, pendingVertices := [], [], [];
    }

    /** The buffers and the texture released, whether or not they exist, and the device cleared. */
    method ReleaseGpuObjects()
      modifies this`hasDevice, this`hasBuffers, this`hasTexture
      ensures !hasDevice && !hasBuffers && !hasTexture
    {
      hasDevice, hasBuffers, hasTexture := false, false, false;
    }

    /**
      The buffers and the texture released as written: each is marked
      purgeable through a force unwrap before it is dropped, which traps
      when it does not exist; the device is then cleared.
     */
    method ReleaseGpuObjectsAsWritten()
      requires hasBuffers && hasTexture
      modifies this`hasDevice, this`hasBuffers, this`hasTexture
      ensures !hasDevice && !hasBuffers && !hasTexture
    {
      hasDevice, hasBuffers, hasTexture := false, false, false;
    }

    /** Both callbacks dropped and the finishing flag cleared. */
    method DropCallbacks()
      modifies this`hasFirstFrameCallback, this`hasCompleteCallback, this`isFinishing
      ensures !hasFirstFrameCallback && !hasCompleteCallback && !isFinishing
    {
      hasFirstFrameCallback, hasCompleteCallback := false, false;
      isFinishing := false;
    }

    /**
      `cancel`: ignored unless a run is prepared or being set up; otherwise
      marks the run finishing, so no completion can be scheduled, and queues
      a cleanup. It never invokes a callback.
     */
    method Cancel()
      requires Valid()
      modifies this`isFinishing, this`mainQueue
      ensures Valid()
      ensures !old(isPrepared || isSettingUp) ==> unchanged(this)
      ensures old(isPrepared || isSettingUp) ==> isFinishing && mainQueue == old(mainQueue) + [CancelCleanup]
    {
      if !(isPrepared || isSettingUp) {
        return;
      }
      isFinishing := true;
      mainQueue := mainQueue + [CancelCleanup];
    }

    /** `handleCompletion`: schedules the completion hop once per run. */
    method HandleCompletion()
      requires Valid()
      modifies this`isFinishing, this`mainQueue
      ensures Valid()
      ensures isFinishing
      ensures mainQueue == old(mainQueue) + (if old(isFinishing) then [] else [FinishCompletion])
    {
      if isFinishing {
        return;
      }
      isFinishing := true;
      mainQueue := mainQueue + [FinishCompletion];
    }

    /**
      `updateTime`: starts the clock on the first frame, returns the gap
      since the previous frame clamped to [1/240, 1/24] and publishes the
      time elapsed since the start. Writing the globals force-unwraps their
      buffer.
     */
    method UpdateTime(now: real) returns (deltaTime: real)
      requires hasBuffers
      modifies this`startTime, this`lastUpdateTime, this`globalUniform
      ensures startTime == RunStart(old(startTime), now) && lastUpdateTime == now
      ensures deltaTime == ClampFrameDelta(FrameGap(old(startTime), old(lastUpdateTime), now))
      ensures globalUniform == old(globalUniform).(elapsed := now - startTime)
    {
      if startTime == 0.0 {
        startTime := now;
        lastUpdateTime := now;
      }
      var rawDelta := now - lastUpdateTime;
      deltaTime := Max(1.0 / 240.0, Min(1.0 / 24.0, rawDelta));
      lastUpdateTime := now;
      globalUniform := globalUniform.(elapsed := now - startTime);
    }

    /**
      `updateShardStates`: advances every shard by one frame in place,
      rewrites its uniform, and returns how many shards are alive. Every
      shard stays within its ranges.
     */
    method UpdateShardStates(deltaTime: real) returns (aliveCount: nat)
      requires |shardUniforms| == |shards| && AllWellFormed(shards)
      modifies this`shards, this`shardUniforms
      ensures var dt := ClampPhysicsDelta(deltaTime);
        && shards == AdvanceAll(old(shards), globalUniform.elapsed, dt)
        && shardUniforms == UniformsAfter(old(shards), globalUniform.elapsed, dt)
        && aliveCount == AliveCount(old(shards), globalUniform.elapsed, dt)
      ensures |shardUniforms| == |shards| && AllWellFormed(shards)
    {
      var dt := Max(1.0 / 240.0, Min(1.0 / 30.0, deltaTime));
      var states, uniforms, alive := AdvanceShards(shards, shardUniforms, globalUniform.elapsed, dt);
      AdvanceAllKeepsWellFormed(shards, globalUniform.elapsed, dt);
      shards := states;
      shardUniforms := uniforms;
      aliveCount := alive;
    }

    /**
      One frame of `draw` past its guard, between the state before it and
      the state after it: the clock started (on the first frame) and read at
      `now`, the viewport of at least 1 x 1 and the target size published
      with the elapsed time, and every shard advanced by the frame's step.
     */
    twostate predicate FrameAdvanced(viewWidth: real, viewHeight: real, now: real)
      reads this`startTime, this`lastUpdateTime, this`globalUniform, this`targetFrameSize, this`shards, this`shardUniforms
    {
      var dt := ClampPhysicsDelta(ClampFrameDelta(FrameGap(old(startTime), old(lastUpdateTime), now)));
      var elapsed := now - RunStart(old(startTime), now);
      && startTime == RunStart(old(startTime), now) && lastUpdateTime == now
      && globalUniform == GlobalUniform(Vec2(Max(viewWidth, 1.0), Max(viewHeight, 1.0)), targetFrameSize, elapsed)
      && shards == AdvanceAll(old(shards), elapsed, dt)
      && shardUniforms == UniformsAfter(old(shards), elapsed, dt)
    }

    /** How many shards the frame read at `now` leaves alive, from the state before it. */
    twostate function AliveAfterFrame(now: real): nat
      reads this`startTime, this`lastUpdateTime, this`shards
    {
      var dt := ClampPhysicsDelta(ClampFrameDelta(FrameGap(old(startTime), old(lastUpdateTime), now)));
      AliveCount(old(shards), now - RunStart(old(startTime), now), dt)
    }

    /**
      The part of `draw` before the alive check: sizes the viewport, advances
      the clock and every shard, and returns how many shards are alive.
     */
    method AdvanceFrame(viewWidth: real, viewHeight: real, now: real) returns (aliveCount: nat)
      requires Valid() && isPrepared
      modifies this`globalUniform, this`startTime, this`lastUpdateTime, this`shards, this`shardUniforms
      ensures Valid()
      ensures FrameAdvanced(viewWidth, viewHeight, now)
      ensures aliveCount == AliveAfterFrame(now)
    {
      globalUniform := GlobalUniform(Vec2(Max(viewWidth, 1.0), Max(viewHeight, 1.0)), targetFrameSize, globalUniform.elapsed);
      var deltaTime := UpdateTime(now);
      aliveCount := UpdateShardStates(deltaTime);
    }

    /**
      `draw` (control flow only): nothing unless prepared; otherwise sizes
      the viewport, advances the clock and every shard, and either hands
      over to completion when no shard is alive or encodes the frame, the
      first encoded frame of a run queuing the first-frame callback.
     */
    method Draw(viewWidth: real, viewHeight: real, now: real, canEncode: bool) returns (outcome: DrawOutcome)
      requires Valid()
      modifies this`globalUniform, this`startTime, this`lastUpdateTime, this`shards, this`shardUniforms
      modifies this`isFinishing, this`mainQueue, this`hasSentFirstFrame
      ensures Valid()
      ensures !old(isPrepared) ==> outcome == NotPrepared && unchanged(this)
      ensures old(isPrepared) ==>
        && FrameAdvanced(viewWidth, viewHeight, now)
        && outcome != NotPrepared
        && (outcome == Completing <==> AliveAfterFrame(now) == 0)
      ensures outcome == Completing ==>
        && isFinishing && hasSentFirstFrame == old(hasSentFirstFrame)
        && mainQueue == old(mainQueue) + (if old(isFinishing) then [] else [FinishCompletion])
      ensures outcome == Rendered ==>
        && canEncode && hasSentFirstFrame && isFinishing == old(isFinishing)
        && mainQueue == old(mainQueue) + (if old(hasSentFirstFrame) then [] else [DeliverFirstFrame])
      ensures outcome == NotEncoded ==>
        && !canEncode && hasSentFirstFrame == old(hasSentFirstFrame) && isFinishing == old(isFinishing)
        && mainQueue == old(mainQueue)
    {
      if !isPrepared {
        outcome := NotPrepared;
      } else {
        var aliveCount := AdvanceFrame(viewWidth, viewHeight, now);
        if aliveCount == 0 {
          HandleCompletion();
          outcome := Completing;
        } else if !canEncode {
          outcome := NotEncoded;
        } else {
          SendFirstFrame();
          outcome := Rendered;
        }
      }
    }

    /** After an encoded frame: the first one of a run queues the first-frame callback. */
    method SendFirstFrame()
      modifies this`hasSentFirstFrame, this`mainQueue
      ensures hasSentFirstFrame
      ensures mainQueue == old(mainQueue) + (if old(hasSentFirstFrame) then [] else [DeliverFirstFrame])
    {
      if !hasSentFirstFrame {
        hasSentFirstFrame := true;
        mainQueue := mainQueue + [DeliverFirstFrame];
      }
    }

    /** Between two states: the mesh, the clock, the sizes and the GPU objects are untouched. */
    twostate predicate ResourcesKept()
      reads this
    {
      && shards == old(shards) && shardUniforms == old(shardUniforms) && pendingVertices == old(pendingVertices)
      && hasDevice == old(hasDevice) && hasBuffers == old(hasBuffers) && hasTexture == old(hasTexture)
      && startTime == old(startTime) && lastUpdateTime == old(lastUpdateTime)
      && targetFrameSize == old(targetFrameSize) && globalUniform == old(globalUniform)
      && hasSentFirstFrame == old(hasSentFirstFrame)
    }

    /** Between two states: both callbacks and everything invoked so far are untouched. */
    twostate predicate CallbacksKept()
      reads this
    {
      && hasFirstFrameCallback == old(hasFirstFrameCallback) && hasCompleteCallback == old(hasCompleteCallback)
      && delivered == old(delivered)
      && runLog == old(runLog)
    }

    /**
      Runs the oldest main-queue block. The completion block reads
      `onComplete` before cleaning up and invokes it afterwards; the
      first-frame block invokes and then drops `onFirstFrameRendered`; the
      cancel block only cleans up.
     */
    method RunMainTask()
      requires Valid() && |mainQueue| > 0
      modifies this
      ensures Valid()
      ensures mainQueue == old(mainQueue[1..])
      ensures setupJobs == old(setupJobs)
      ensures |old(delivered)| <= |delivered| && runLog == old(runLog) + delivered[|old(delivered)|..]
      ensures old(mainQueue[0]) == DeliverFirstFrame && Completed in old(runLog) ==> delivered == old(delivered)
      ensures old(mainQueue[0]) == SetupFinished ==>
        && isPrepared == (old(isPrepared) || (old(isSettingUp) && hasBuffers && hasTexture))
        && isSettingUp == (old(isSettingUp) && !isPrepared)
        && isFinishing == old(isFinishing) && ResourcesKept() && CallbacksKept()
        && (old(IsCleanedUp()) ==> IsCleanedUp())
      ensures old(mainQueue[0]) == DeliverFirstFrame ==>
        && delivered == old(delivered) + (if old(hasFirstFrameCallback) then [FirstFrameRendered] else [])
        && !hasFirstFrameCallback
        && isPrepared == old(isPrepared) && isSettingUp == old(isSettingUp) && isFinishing == old(isFinishing)
        && hasCompleteCallback == old(hasCompleteCallback) && ResourcesKept()
      ensures old(mainQueue[0]) == FinishCompletion ==>
        && IsCleanedUp()
        && delivered == old(delivered) + (if old(hasCompleteCallback) then [Completed] else [])
      ensures old(mainQueue[0]) == CancelCleanup ==>
        IsCleanedUp() && delivered == old(delivered)
    {
      var task := mainQueue[0];
      mainQueue := mainQueue[1..];
      match task {
        case SetupFinished =>
          FinishSetup();
        case DeliverFirstFrame =>
          DeliverFirstFrameCallback();
        case FinishCompletion =>
          CompleteRun();
        case CancelCleanup =>
          CleanupResources();
      }
    }

    /** The first-frame block: invokes `onFirstFrameRendered` if present, then drops it. */
    method DeliverFirstFrameCallback()
      requires Valid()
      modifies this`delivered, this`runLog, this`hasFirstFrameCallback
      ensures Valid()
      ensures delivered == old(delivered) + (if old(hasFirstFrameCallback) then [FirstFrameRendered] else [])
      ensures runLog == old(runLog) + (if old(hasFirstFrameCallback) then [FirstFrameRendered] else [])
      ensures !hasFirstFrameCallback
    {
      if hasFirstFrameCallback {
        delivered := delivered + [FirstFrameRendered];
        runLog := runLog + [FirstFrameRendered];
      }
      hasFirstFrameCallback := false;
    }

    /** The completion block: reads `onComplete`, cleans up, then invokes what it read. */
    method CompleteRun()
      requires Valid()
      modifies this`isPrepared, this`isSettingUp, this`hasSentFirstFrame, this`isFinishing
      modifies this`startTime, this`lastUpdateTime, this`targetFrameSize, this`globalUniform
      modifies this`shards, this`shardUniforms, this`pendingVertices, this`hasDevice, this`hasBuffers, this`hasTexture
      modifies this`hasFirstFrameCallback, this`hasCompleteCallback, this`delivered, this`runLog
      ensures Valid() && IsCleanedUp()
      ensures delivered == old(delivered) + (if old(hasCompleteCallback) then [Completed] else [])
      ensures runLog == old(runLog) + (if old(hasCompleteCallback) then [Completed] else [])
    {
      var completion := hasCompleteCallback;
      CleanupResources();
      if completion {
        delivered := delivered + [Completed];
        runLog := runLog + [Completed];
      }
    }

    /**
      Runs the oldest main-queue block as the source does: with the
      unguarded end-of-setup hop and the force-unwrapping cleanup, which
      traps when a cleanup block meets missing buffers or texture.
     */
    method RunMainTaskAsWritten()
      requires |mainQueue| > 0
      requires mainQueue[0] == FinishCompletion || mainQueue[0] == CancelCleanup ==> hasBuffers && hasTexture
      modifies this
      ensures mainQueue == old(mainQueue[1..])
      ensures setupJobs == old(setupJobs)
      ensures old(mainQueue[0]) == SetupFinished ==>
        && isPrepared && !isSettingUp
        && isFinishing == old(isFinishing) && ResourcesKept() && CallbacksKept()
      ensures old(mainQueue[0]) == DeliverFirstFrame ==>
        && delivered == old(delivered) + (if old(hasFirstFrameCallback) then [FirstFrameRendered] else [])
        && !hasFirstFrameCallback
        && isPrepared == old(isPrepared) && isSettingUp == old(isSettingUp) && isFinishing == old(isFinishing)
        && hasCompleteCallback == old(hasCompleteCallback) && ResourcesKept()
      ensures old(mainQueue[0]) == FinishCompletion ==>
        && IsCleanedUp()
        && delivered == old(delivered) + (if old(hasCompleteCallback) then [Completed] else [])
      ensures old(mainQueue[0]) == CancelCleanup ==>
        IsCleanedUp() && delivered == old(delivered)
    {
      var task := mainQueue[0];
      mainQueue := mainQueue[1..];
      match task {
        case SetupFinished =>
          FinishSetupAsWritten();
        case DeliverFirstFrame =>
          if hasFirstFrameCallback {
            delivered := delivered + [FirstFrameRendered];
          }
          hasFirstFrameCallback := false;
        case FinishCompletion =>
          var completion := hasCompleteCallback;
          CleanupResourcesAsWritten();
          if completion {
            delivered := delivered + [Completed];
          }
        case CancelCleanup =>
          CleanupResourcesAsWritten();
      }
    }
  }

  /**
    The shards a setup job appends are well formed and come with a
    non-empty vertex list, so the buffers are always allocated.
   */
  lemma MeshExtendsShards(shards: seq<ShardState>, request: SetupRequest, inputs: SetupInputs)
    requires AllWellFormed(shards) && ValidSetupInputs(request, inputs)
    ensures var m := RequestLayout(request, inputs);
      && AllWellFormed(shards + MeshShards(m, inputs.jitter, inputs.geometry, inputs.draws))
      && |MeshVertices(m, inputs.jitter, inputs.draws, |shards|)| > 0
  {
    var m := RequestLayout(request, inputs);
    MeshAllWellFormed(m, inputs.jitter, inputs.geometry, inputs.draws);
    AllWellFormedConcat(shards, MeshShards(m, inputs.jitter, inputs.geometry, inputs.draws));
    MeshSizes(m, inputs.jitter, inputs.geometry, inputs.draws, |shards|);
  }

  /**
    The nested loops of `setupGeometry` over the lattice `m`: one shard, one
    uniform and six vertices per cell in row-major order, the vertices
    numbered from shard `base`.
   */
  method BuildMesh(m: Layout, jitter: (nat, nat) -> Vec2, g: Geometry, draws: (nat, nat) -> ShardDraw, base: nat)
    returns (newShards: seq<ShardState>, newUniforms: seq<ShardUniform>, vertices: seq<Vertex>)
    requires ValidJitter(m, jitter) && ValidGeometry(g) && ValidDraws(draws)
    ensures newShards == MeshShards(m, jitter, g, draws)
    ensures newUniforms == InitialUniforms(newShards)
    ensures vertices == MeshVertices(m, jitter, draws, base)
  {
    var grid := FillGridPoints(m, jitter);
    var frameCenter := FrameCenter(m);
    var maxDistance := MaxDistance(m, g);
    newShards, newUniforms, vertices := [], [], [];
    for row := 0 to m.rowCount
      modifies {}
      invariant newShards == RowMajor.Cells(m.columnCount, row, 0, ShardOfCell(m, jitter, g, draws))
      invariant newUniforms == InitialUniforms(newShards)
      invariant vertices == RowMajor.Concat(RowMajor.Cells(m.columnCount, row, 0, VerticesOfCell(m, jitter, draws, base)))
    {
      newShards, newUniforms, vertices := BuildRow(m, jitter, g, draws, grid, frameCenter, maxDistance, base, row,
                                                   newShards, newUniforms, vertices);
    }
  }

  /** The inner loop of `setupGeometry` over the cells of one row. */
  method BuildRow(m: Layout, jitter: (nat, nat) -> Vec2, g: Geometry, draws: (nat, nat) -> ShardDraw,
                  grid: array2<Vec2>, frameCenter: Vec2, maxDistance: real, base: nat, row: nat,
                  shardsBefore: seq<ShardState>, uniformsBefore: seq<ShardUniform>, verticesBefore: seq<Vertex>)
    returns (newShards: seq<ShardState>, newUniforms: seq<ShardUniform>, vertices: seq<Vertex>)
    requires ValidGeometry(g) && ValidDraws(draws) && row < m.rowCount
    requires grid.Length0 == m.rowCount + 1 && grid.Length1 == m.columnCount + 1
    requires forall r, c :: 0 <= r <= m.rowCount && 0 <= c <= m.columnCount ==> grid[r, c] == GridPointAt(m, jitter, r, c)
    requires frameCenter == FrameCenter(m) && maxDistance == MaxDistance(m, g)
    requires shardsBefore == RowMajor.Cells(m.columnCount, row, 0, ShardOfCell(m, jitter, g, draws))
    requires uniformsBefore == InitialUniforms(shardsBefore)
    requires verticesBefore == RowMajor.Concat(RowMajor.Cells(m.columnCount, row, 0, VerticesOfCell(m, jitter, draws, base)))
    ensures newShards == RowMajor.Cells(m.columnCount, row + 1, 0, ShardOfCell(m, jitter, g, draws))
    ensures newUniforms == InitialUniforms(newShards)
    ensures vertices == RowMajor.Concat(RowMajor.Cells(m.columnCount, row + 1, 0, VerticesOfCell(m, jitter, draws, base)))
  {
    ghost var shardOf := ShardOfCell(m, jitter, g, draws);
    ghost var verticesOf := VerticesOfCell(m, jitter, draws, base);
    newShards, newUniforms, vertices := shardsBefore, uniformsBefore, verticesBefore;
    for column := 0 to m.columnCount
      invariant newShards == RowMajor.Cells(m.columnCount, row, column, shardOf)
      invariant newUniforms == InitialUniforms(newShards)
      invariant vertices == RowMajor.Concat(RowMajor.Cells(m.columnCount, row, column, verticesOf))
    {
      RowMajor.CellsLength(m.columnCount, row, column, shardOf);
      var quad := Quad(grid[row, column], grid[row, column + 1], grid[row + 1, column], grid[row + 1, column + 1]);
      var shardState, shardVertices := GenerateCell(m, jitter, g, draws, quad, frameCenter, maxDistance, row, column, base + |newShards|, base);
      RowMajor.ConcatAppend(RowMajor.Cells(m.columnCount, row, column, verticesOf), shardVertices);
      InitialUniformsAppend(newShards, shardState);
      vertices := vertices + shardVertices;
      newShards := newShards + [shardState];
      newUniforms := newUniforms + [InitialUniform(shardState)];
    }
  }

  /**
    One pass of the inner `setupGeometry` loop once the cell's corners are
    read from the grid: its shard and its six vertices tagged with `shardIndex`.
   */
  method GenerateCell(m: Layout, jitter: (nat, nat) -> Vec2, g: Geometry, draws: (nat, nat) -> ShardDraw,
                      quad: Quad, frameCenter: Vec2, maxDistance: real, row: nat, column: nat, shardIndex: nat, ghost base: nat)
    returns (shardState: ShardState, shardVertices: seq<Vertex>)
    requires ValidGeometry(g) && ValidDraws(draws)
    requires row < m.rowCount && column < m.columnCount
    requires quad == CellQuad(m, jitter, row, column)
    requires frameCenter == FrameCenter(m) && maxDistance == MaxDistance(m, g)
    requires shardIndex == base + row * m.columnCount + column
    ensures shardState == ShardOfCell(m, jitter, g, draws)(row, column)
    ensures shardVertices == VerticesOfCell(m, jitter, draws, base)(row, column)
  {
    var useDiagonal := draws(row, column).useDiagonal;
    var trianglePoints := TrianglePoints(quad, useDiagonal);
    var centroid := Centroid(quad);
    shardState := MakeShard(quad, frameCenter, maxDistance, g, draws(row, column));
    shardVertices := [];
    for k := 0 to 6
      invariant shardVertices == ShardVertices(m, quad, useDiagonal, shardIndex)[..k]
    {
      shardVertices := shardVertices + [MakeVertex(m, trianglePoints[k], centroid, shardIndex)];
    }
  }

  /**
    The body of the `updateShardStates` loop for one shard: a shard inside
    its delay shows its radial opacity and counts as alive; any other shard
    ages, moves, turns, fades and grows, and its opacity drops to zero once
    it is no longer above the alive threshold.
   */
  method StepShard(s: ShardState, elapsed: real, dt: real) returns (next: ShardState, uniform: ShardUniform, alive: bool)
    ensures next == Advance(s, elapsed, dt)
    ensures uniform == UniformAfter(s, elapsed, dt)
    ensures alive == CountsAlive(s, elapsed, dt)
  {
    if elapsed < s.delay {
      next := s.(opacity := s.radialOpacity);
      return next, ShardUniform(next.center, next.rotation, next.scale, next.opacity), true;
    }
    var age := s.age + dt;
    var velocity, offset, angularVelocity, rotation := MoveShard(s, dt);
    var opacity, scale;
    opacity, scale, alive := FadeAndGrow(s, age);
    next := s.(age := age, velocity := velocity, offset := offset, angularVelocity := angularVelocity,
               rotation := rotation, opacity := opacity, scale := scale);
    uniform := ShardUniform(next.center.Plus(offset), rotation, scale, opacity);
  }

  /**
    The motion half of one `updateShardStates` step: velocity gains the
    acceleration and the radial push and is damped by 0.992, the offset
    moves by it, and the angular velocity, damped by 0.98, turns the shard.
    Without forces the damping alone scales velocity and spin down, and a
    spin within 3 rad/s stays there over a clamped step.
   */
  method MoveShard(s: ShardState, dt: real) returns (velocity: Vec2, offset: Vec2, angularVelocity: real, rotation: real)
    ensures velocity == NextVelocity(s, dt) && offset == s.offset.Plus(velocity.Times(dt))
    ensures angularVelocity == NextAngularVelocity(s, dt) && rotation == s.rotation + angularVelocity * dt
    ensures s.acceleration == Zero && s.expansionBoost == 0.0 ==>
      velocity == Vec2(0.992 * s.velocity.x, 0.992 * s.velocity.y)
    ensures s.angularAcceleration == 0.0 ==> angularVelocity == 0.98 * s.angularVelocity
    ensures -3.0 <= s.angularVelocity <= 3.0 && -1.5 <= s.angularAcceleration <= 1.5 && 0.0 <= dt <= 1.0 / 30.0 ==>
      -3.0 <= angularVelocity <= 3.0
  {
    DampingWithoutForces(s, dt);
    if -3.0 <= s.angularVelocity <= 3.0 && -1.5 <= s.angularAcceleration <= 1.5 && 0.0 <= dt <= 1.0 / 30.0 {
      SpinStaysBounded(s, dt);
    }
    velocity := s.velocity.Plus(s.acceleration.Times(dt));
    velocity := velocity.Plus(s.radialDirection.Times(s.expansionBoost).Times(45.0).Times(dt));
    velocity := velocity.Times(0.992);
    offset := s.offset.Plus(velocity.Times(dt));
    angularVelocity := s.angularVelocity + s.angularAcceleration * dt;
    angularVelocity := angularVelocity * 0.98;
    rotation := s.rotation + angularVelocity * dt;
  }

  /**
    The appearance half of one `updateShardStates` step at the new `age`:
    the faded opacity, zero once it is no longer above the alive threshold,
    and the growth scale.
   */
  method FadeAndGrow(s: ShardState, age: real) returns (opacity: real, scale: real, alive: bool)
    ensures alive == (VisibleOpacity(age, s.life, s.radialOpacity) > AliveThreshold)
    ensures opacity == if alive then VisibleOpacity(age, s.life, s.radialOpacity) else 0.0
    ensures scale == GrowthScale(age, s.life, s.expansionBoost)
  {
    var fadeProgress := Smoothstep(s.life - FadeWindow, s.life, age);
    var timeOpacity := Max(0.0, 1.0 - fadeProgress);
    opacity := Min(timeOpacity, s.radialOpacity);

    var growthAge := Min(age, s.life);
    var expansionGrowth := Min(0.5 * s.expansionBoost, growthAge * 0.18 * s.expansionBoost);
    scale := 1.0 + expansionGrowth;

    alive := opacity > AliveThreshold;
    if !alive {
      opacity := 0.0;
    }
  }

  /**
    The `updateShardStates` loop over every shard, on the shard array and
    the uniform buffer: each shard is replaced by its next state, its
    uniform rewritten, and the alive ones counted.
   */
  method AdvanceShards(states: seq<ShardState>, uniforms: seq<ShardUniform>, elapsed: real, dt: real)
    returns (nextStates: seq<ShardState>, nextUniforms: seq<ShardUniform>, aliveCount: nat)
    requires |uniforms| == |states|
    ensures nextStates == AdvanceAll(states, elapsed, dt)
    ensures nextUniforms == UniformsAfter(states, elapsed, dt)
    ensures aliveCount == AliveCount(states, elapsed, dt)
  {
    nextStates, nextUniforms, aliveCount := states, uniforms, 0;
    for index := 0 to |states|
      invariant |nextStates| == |states| && |nextUniforms| == |states|
      invariant forall i :: 0 <= i < index ==> nextStates[i] == Advance(states[i], elapsed, dt)
      invariant forall i :: 0 <= i < index ==> nextUniforms[i] == UniformAfter(states[i], elapsed, dt)
      invariant forall i :: index <= i < |states| ==> nextStates[i] == states[i]
      invariant aliveCount == AliveCount(states[..index], elapsed, dt)
    {
      assert states[..index + 1][..index] == states[..index];
      var next, uniform, alive := StepShard(nextStates[index], elapsed, dt);
      nextStates := nextStates[index := next];
      nextUniforms := nextUniforms[index := uniform];
      if alive {
        aliveCount := aliveCount + 1;
      }
    }
    assert states[..|states|] == states;
  }

  /**
    Cancelling while the setup job has not run yet queues a cleanup that
    will find neither buffers nor texture: the next main-queue block is that
    cleanup, and the force-unwrapping cleanup's precondition fails.
   */
  method CancelDuringSetup() returns (r: Renderer)
    ensures fresh(r) && r.Valid()
    ensures r.isSettingUp && r.isFinishing
    ensures r.mainQueue == [CancelCleanup] && !(r.hasBuffers && r.hasTexture)
  {
    r := new Renderer();
    r.Prepare(100.0, 100.0, 9);
    r.Cancel();
  }

  /**
    Cancelling during setup when the setup job finishes before the cleanup
    runs: as written, the cleanup finds the buffers and texture and releases
    them, and the end-of-setup hop that follows marks the renderer prepared
    with no shards, buffers or texture, so the next `draw` force-unwraps a
    missing buffer.
   */
  method PreparedAfterCancel(width: real, height: real, fractureCount: int, inputs: SetupInputs, now: real)
    returns (r: Renderer)
    requires ValidSetupInputs(SetupRequest(width, height, fractureCount), inputs)
    ensures fresh(r) && r.isPrepared && !r.hasBuffers && !r.hasTexture
    ensures r.shards == [] && r.mainQueue == []
  {
    r := new Renderer();
    r.Prepare(width, height, fractureCount);
    r.Cancel();
    r.RunSetupJobAsWritten(inputs, now);
    r.RunMainTaskAsWritten();
    r.RunMainTaskAsWritten();
  }

  /** The same interleaving with the corrected end-of-setup hop leaves the renderer cleaned up and unprepared. */
  method CancelledSetupStaysUnprepared(width: real, height: real, fractureCount: int, inputs: SetupInputs, now: real)
    returns (r: Renderer)
    requires ValidSetupInputs(SetupRequest(width, height, fractureCount), inputs)
    ensures fresh(r) && r.Valid() && r.IsCleanedUp() && r.mainQueue == []
  {
    r := new Renderer();
    r.Prepare(width, height, fractureCount);
    r.Cancel();
    r.RunSetupJob(inputs, now);
    r.RunMainTask();
    r.RunMainTask();
  }

  /**
    Cancelling during setup when the corrected cleanup runs before the
    setup job: the cleanup clears the device while the job is still queued,
    so the job as written, which builds the pipeline through that device,
    cannot run (its precondition fails).
   */
  method StaleSetupJob(width: real, height: real, fractureCount: int) returns (r: Renderer)
    ensures fresh(r) && r.Valid() && r.IsCleanedUp()
    ensures r.setupJobs == [SetupRequest(width, height, fractureCount)] && r.mainQueue == [] && r.delivered == []
    ensures !r.hasDevice
  {
    r := new Renderer();
    r.Prepare(width, height, fractureCount);
    r.Cancel();
    r.RunMainTask();
  }

  /** The corrected setup job drops that stale request and leaves the renderer cleaned up with nothing queued. */
  method StaleSetupJobDropped(width: real, height: real, fractureCount: int, inputs: SetupInputs, now: real)
    returns (r: Renderer)
    requires ValidSetupInputs(SetupRequest(width, height, fractureCount), inputs)
    ensures fresh(r) && r.Valid() && r.IsCleanedUp()
    ensures r.setupJobs == [] && r.mainQueue == [] && r.delivered == []
  {
    r := StaleSetupJob(width, height, fractureCount);
    r.RunSetupJob(inputs, now);
  }

  /**
    A frame of a run that has encoded nothing yet, drawn without a drawable
    or encoder, then the main-queue block it queued, if any. Either no shard
    was alive and the run completes with the completion callback alone, or
    the frame was dropped and the renderer is back where it started, so
    such frames can repeat until every shard has faded. Either way the
    first-frame callback is never invoked.
   */
  method NeverEncodedFrame(r: Renderer, viewWidth: real, viewHeight: real, now: real) returns (outcome: DrawOutcome)
    requires r.Valid() && r.isPrepared && !r.isFinishing && !r.hasSentFirstFrame && r.mainQueue == []
    requires r.hasFirstFrameCallback && r.hasCompleteCallback
    modifies r
    ensures r.Valid() && r.mainQueue == [] && r.setupJobs == old(r.setupJobs)
    ensures outcome == NotEncoded || outcome == Completing
    ensures old(r.shards) == [] ==> outcome == Completing
    ensures outcome == NotEncoded ==>
      && r.isPrepared && !r.isFinishing && !r.hasSentFirstFrame
      && r.hasFirstFrameCallback && r.hasCompleteCallback && r.delivered == old(r.delivered)
    ensures outcome == Completing ==>
      && r.IsCleanedUp() && r.delivered == old(r.delivered) + [Completed]
      && r.runLog == [Completed]
  {
    outcome := r.Draw(viewWidth, viewHeight, now, false);
    if outcome == Completing {
      r.RunMainTask();
    }
  }
}
