/**
  The shimmering background renderer (`ShimmeringBackgroundView.Renderer`):
  a field of particles whose number grows with the drawable's area, each
  with a random position, a slow upward drift and random fade, size, blur,
  type, flicker and intensity; a compute pass that moves them, dispatched in
  threadgroups that cover every particle; and the elapsed time `draw` keeps.

  Metal objects are reduced to whether they exist; the particle buffer to
  the particles written into it. Each particle's random draws, and the sine
  and cosine of its drift direction, are an input.
 */
module ShimmeringBackground {
  import opened Support

  /** Particles per square pixel. */
  const Density: real := 0.00025
  /** The fewest particles a field has. */
  const MinimumCount: int := 128
  /** `Float.pi * 2` in single precision. */
  const TwoPi: real := 6.283185482025146484375

  /** `Particle`: position, velocity, (fade phase, speed), (size, blur), (flicker phase, amplitude), (type, intensity). */
  datatype Particle = Particle(position: Vec2, velocity: Vec2, fade: Vec2, size: Vec2, flicker: Vec2, properties: Vec2)

  /**
    The random draws of one particle; `sinDirection` and `cosDirection` are
    the sine and cosine of its drift direction, drawn in [-pi/6, pi/6].
   */
  datatype ParticleDraw = ParticleDraw(
    x: real, y: real,
    baseSpeed: real, sinDirection: real, cosDirection: real,
    fadePhase: real, fadeSpeed: real,
    size: real, blur: real,
    typeFlag: bool,
    flickerPhase: real, flickerAmplitude: real,
    baseIntensity: real)

  /** The ranges of the draws for a `width` x `height` drawable. */
  /**
    A particle's draws lie in their literal ranges. (sin, cos) is one point
    of the unit circle within pi/6 of straight up: cos is at least
    cos(pi/6), that is cos^2 >= 3/4, and sin lies in [-1/2, 1/2].
   */
  predicate ValidParticleDraw(d: ParticleDraw, width: real, height: real)
  {
    && 0.0 <= d.x < width && 0.0 <= d.y < height
    && 4.0 <= d.baseSpeed <= 12.0
    && d.sinDirection * d.sinDirection + d.cosDirection * d.cosDirection == 1.0
    && 0.0 < d.cosDirection && 3.0 / 4.0 <= d.cosDirection * d.cosDirection
    && -0.5 <= d.sinDirection <= 0.5 && d.cosDirection <= 1.0
    && 0.0 <= d.fadePhase < TwoPi && 0.3 <= d.fadeSpeed <= 0.7
    && 1.4 <= d.size <= 4.6 && 0.15 <= d.blur <= 0.65
    && 0.0 <= d.flickerPhase < TwoPi && 0.05 <= d.flickerAmplitude <= 0.25
    && 0.5 <= d.baseIntensity <= 0.8
  }

  ghost predicate ValidParticleDraws(draws: nat -> ParticleDraw, width: real, height: real)
  {
    forall i :: ValidParticleDraw(draws(i), width, height)
  }

  /** The number of particles for a drawable: one per 4000 square pixels, but never fewer than 128. */
  function ParticleCount(width: real, height: real): (count: int)
    ensures count >= MinimumCount
    ensures width * height * Density < MinimumCount as real ==> count == MinimumCount
    ensures width * height * Density >= MinimumCount as real ==>
      count as real <= width * height * Density < count as real + 1.0
  {
    IntMax(MinimumCount, TruncateToInt(width * height * Density))
  }

  function Abs(x: real): real
  {
    if x < 0.0 then -x else x
  }

  /** The particle built from one set of draws. */
  function MakeParticle(d: ParticleDraw): Particle
  {
    Particle(
      Vec2(d.x, d.y),
      Vec2(d.sinDirection * d.baseSpeed * 0.02, -Abs(d.cosDirection) * d.baseSpeed * 0.02),
      Vec2(d.fadePhase, d.fadeSpeed),
      Vec2(d.size, d.blur),
      Vec2(d.flickerPhase, d.flickerAmplitude),
      Vec2(if d.typeFlag then 0.0 else 1.0, d.baseIntensity))
  }

  /** The particles `regenerateParticles` generates, in order. */
  function Particles(count: nat, draws: nat -> ParticleDraw): (particles: seq<Particle>)
    ensures |particles| == count
    ensures forall i :: 0 <= i < count ==> particles[i] == MakeParticle(draws(i))
  {
    seq(count, i requires 0 <= i < count => MakeParticle(draws(i)))
  }

  /**
    Every generated particle starts inside the drawable, drifts upward or
    not at all vertically, by at most 0.24 pixels per step sideways, and
    has its other attributes in the ranges they are drawn from.
   */
  lemma ParticleRanges(count: nat, draws: nat -> ParticleDraw, width: real, height: real, i: nat)
    requires ValidParticleDraws(draws, width, height) && i < count
    ensures var p := Particles(count, draws)[i];
      && 0.0 <= p.position.x < width && 0.0 <= p.position.y < height
      && p.velocity.y < 0.0 && -0.24 <= p.velocity.x <= 0.24
      && 0.3 <= p.fade.y <= 0.7 && 1.4 <= p.size.x <= 4.6 && 0.15 <= p.size.y <= 0.65
      && (p.properties.x == 0.0 || p.properties.x == 1.0)
      && 0.05 <= p.flicker.y <= 0.25 && 0.5 <= p.properties.y <= 0.8
      && 0.0 <= p.fade.x < TwoPi && 0.0 <= p.flicker.x < TwoPi
  {
    var d := draws(i);
    assert ValidParticleDraw(d, width, height);
    DriftBounds(d.sinDirection, d.cosDirection, d.baseSpeed);
  }

  /** A drift of speed in [4, 12] along a direction within 30 degrees of straight up. */
  lemma DriftBounds(sine: real, cosine: real, speed: real)
    requires -0.5 <= sine <= 0.5 && 0.0 < cosine <= 1.0 && 4.0 <= speed <= 12.0
    ensures -0.24 <= sine * speed * 0.02 <= 0.24
    ensures -Abs(cosine) * speed * 0.02 < 0.0
  {
    if sine >= 0.0 {
      assert sine * speed <= 0.5 * speed;
    } else {
      assert (-sine) * speed <= 0.5 * speed;
    }
    assert Abs(cosine) * speed > 0.0;
  }

  /** The counted loop of `regenerateParticles`: one particle per draw, appended in order. */
  method BuildParticles(count: nat, draws: nat -> ParticleDraw) returns (particles: seq<Particle>)
    ensures particles == Particles(count, draws)
  {
    particles := [];
    for i := 0 to count
      invariant particles == Particles(i, draws)
    {
      var d := draws(i);
      var velocity := Vec2(d.sinDirection * d.baseSpeed * 0.02, -Abs(d.cosDirection) * d.baseSpeed * 0.02);
      var kind := if d.typeFlag then 0.0 else 1.0;
      particles := particles + [Particle(Vec2(d.x, d.y), velocity, Vec2(d.fadePhase, d.fadeSpeed), Vec2(d.size, d.blur),
                                         Vec2(d.flickerPhase, d.flickerAmplitude), Vec2(kind, d.baseIntensity))];
      assert particles == Particles(i + 1, draws) by {
        assert forall k :: 0 <= k <= i ==> particles[k] == Particles(i + 1, draws)[k];
      }
    }
  }

  /** The threadgroups dispatched for `count` particles, `width` threads each: `(count + width - 1) / width`. */
  function ThreadgroupCount(count: nat, width: nat): (groups: nat)
    requires width > 0
  {
    (count + width - 1) / width
  }

  /** The threadgroups cover every particle, with fewer than one group's worth of threads to spare. */
  lemma ThreadgroupsCoverParticles(count: nat, width: nat)
    requires width > 0
    ensures ThreadgroupCount(count, width) * width >= count
    ensures count > 0 ==> (ThreadgroupCount(count, width) - 1) * width < count
    ensures count == 0 ==> ThreadgroupCount(count, width) == 0
  {
    var g := ThreadgroupCount(count, width);
    var rem := (count + width - 1) % width;
    assert g * width + rem == count + width - 1;
  }

  /** How a call to `draw` ended. */
  datatype DrawOutcome =
    | NothingToDraw  // a device, pipeline, queue or buffer is missing, or there are no particles
    | NoDrawable     // no drawable or render pass descriptor
    | NotRendered    // no render command buffer or encoder, after the clock moved
    | Rendered

  class ShimmeringBackgroundRenderer {
    var hasDevice: bool
    var hasCommandQueue: bool
    var hasRenderPipeline: bool
    var hasComputePipeline: bool
    var hasVertexBuffer: bool
    /** The contents of `particleBuffer`, once it exists. */
    var particleBuffer: Option<seq<Particle>>
    var particleCount: int
    var drawableSize: Vec2
    var elapsedTime: real
    var lastFrameTimestamp: Option<real>

    /**
      The particle count is never negative and, once a buffer exists, is the
      number of particles in it. A buffer that could not be created leaves
      the count of the particles that were generated for it.
     */
    predicate Valid()
      reads this
    {
      && 0 <= particleCount
      && (particleBuffer.Some? ==> particleCount == |particleBuffer.value|)
    }

    constructor()
      ensures Valid()
      ensures !hasDevice && !hasCommandQueue && !hasRenderPipeline && !hasComputePipeline && !hasVertexBuffer
      ensures particleBuffer.None? && drawableSize == Zero && elapsedTime == 0.0 && lastFrameTimestamp.None?
    {
      hasDevice, hasCommandQueue, hasRenderPipeline, hasComputePipeline, hasVertexBuffer := false, false, false, false, false;
      particleBuffer, particleCount := None, 0;
      drawableSize, elapsedTime, lastFrameTimestamp := Zero, 0.0, None;
    }

    /**
      What `regenerateParticles` leaves behind, given the buffer and count
      before it: a fresh field for the current drawable size when a device
      exists and both dimensions are positive, the old ones otherwise. The
      count is set before the buffer is made, so a buffer that cannot be
      created (`bufferCreated` false) leaves no buffer but the new count.
     */
    ghost predicate Regenerated(oldBuffer: Option<seq<Particle>>, oldCount: int, draws: nat -> ParticleDraw,
                                bufferCreated: bool)
      reads this
    {
      if hasDevice && drawableSize.x > 0.0 && drawableSize.y > 0.0 then
        var count := ParticleCount(drawableSize.x, drawableSize.y);
        && particleBuffer == (if bufferCreated then Some(Particles(count, draws)) else None)
        && particleCount == count
      else
        particleBuffer == oldBuffer && particleCount == oldCount
    }

    /**
      `setup(with:)`: keeps the device, the command queue, the pipelines and
      the quad vertex buffer that could be created, and regenerates the
      field. The compute pipeline is only attempted once the render pipeline
      exists.
     */
    method Setup(queueCreated: bool, renderPipelineCreated: bool, computePipelineCreated: bool,
                 vertexBufferCreated: bool, draws: nat -> ParticleDraw, bufferCreated: bool)
      requires Valid() && (computePipelineCreated ==> renderPipelineCreated)
      modifies this
      ensures Valid()
      ensures hasDevice && hasCommandQueue == queueCreated
      ensures hasRenderPipeline == renderPipelineCreated && hasComputePipeline == computePipelineCreated
      ensures hasVertexBuffer == vertexBufferCreated
      ensures drawableSize == old(drawableSize) && elapsedTime == old(elapsedTime)
      ensures lastFrameTimestamp == old(lastFrameTimestamp)
      ensures Regenerated(old(particleBuffer), old(particleCount), draws, bufferCreated)
    {
      hasDevice := true;
      hasCommandQueue := queueCreated;
      hasRenderPipeline := renderPipelineCreated;
      hasComputePipeline := computePipelineCreated;
      hasVertexBuffer := vertexBufferCreated;
      RegenerateParticles(draws, bufferCreated);
    }

    /**
      `regenerateParticles`: does nothing without a device or with an empty
      drawable; otherwise generates max(128, Int(w * h * 0.00025)) particles
      and writes them, and their number, to the particle buffer.
     */
    method RegenerateParticles(draws: nat -> ParticleDraw, bufferCreated: bool)
      requires Valid()
      modifies this`particleBuffer, this`particleCount
      ensures Valid()
      ensures Regenerated(old(particleBuffer), old(particleCount), draws, bufferCreated)
    {
      if !(hasDevice && drawableSize.x > 0.0 && drawableSize.y > 0.0) {
        return;
      }
      var count := ParticleCount(drawableSize.x, drawableSize.y);
      var particles := BuildParticles(count, draws);
      particleCount := |particles|;
      particleBuffer := if bufferCreated then Some(particles) else None;
    }

    /** `updateDrawableSize`: stores the size and regenerates the field; the frame clock keeps running. */
    method UpdateDrawableSize(width: real, height: real, draws: nat -> ParticleDraw, bufferCreated: bool)
      requires Valid()
      modifies this`drawableSize, this`particleBuffer, this`particleCount
      ensures Valid()
      ensures drawableSize == Vec2(width, height)
      ensures Regenerated(old(particleBuffer), old(particleCount), draws, bufferCreated)
    {
      drawableSize := Vec2(width, height);
      RegenerateParticles(draws, bufferCreated);
    }

    /** Whether `draw` gets past its first guard. */
    predicate CanDraw()
      reads this
    {
      && hasDevice && hasRenderPipeline && hasComputePipeline && hasCommandQueue && hasVertexBuffer
      && particleBuffer.Some? && particleCount > 0
    }

    /**
      `draw` (control flow, clock and dispatch size): with every resource,
      some particles and a drawable, the elapsed time restarts at 0 on the
      first frame and otherwise grows by the wall-clock gap; when a compute
      encoder exists the update pass is dispatched over enough threadgroups
      of `threadExecutionWidth` threads to cover every particle.
     */
    method Draw(now: real, hasDrawable: bool, threadExecutionWidth: nat, computeEncoded: bool, renderEncoded: bool)
      returns (outcome: DrawOutcome, threadgroups: Option<nat>)
      requires threadExecutionWidth > 0
      modifies this`elapsedTime, this`lastFrameTimestamp
      ensures !old(CanDraw()) ==> outcome == NothingToDraw
      ensures old(CanDraw()) && !hasDrawable ==> outcome == NoDrawable
      ensures old(CanDraw()) && hasDrawable ==> outcome == (if renderEncoded then Rendered else NotRendered)
      ensures outcome in {NothingToDraw, NoDrawable} ==>
        && elapsedTime == old(elapsedTime) && lastFrameTimestamp == old(lastFrameTimestamp)
        && threadgroups.None?
      ensures outcome in {NotRendered, Rendered} ==>
        && elapsedTime == (if old(lastFrameTimestamp).Some? then old(elapsedTime) + (now - old(lastFrameTimestamp).value) else 0.0)
        && lastFrameTimestamp == Some(now)
        && (computeEncoded <==> threadgroups.Some?)
      ensures threadgroups.Some? ==>
        && threadgroups.value * threadExecutionWidth >= particleCount
        && (threadgroups.value - 1) * threadExecutionWidth < particleCount
    {
      threadgroups := None;
      if !CanDraw() {
        return NothingToDraw, None;
      }
      if !hasDrawable {
        return NoDrawable, None;
      }
      if lastFrameTimestamp.Some? {
        elapsedTime := elapsedTime + (now - lastFrameTimestamp.value);
      } else {
        elapsedTime := 0.0;
      }
      lastFrameTimestamp := Some(now);
      if computeEncoded {
        ThreadgroupsCoverParticles(particleCount, threadExecutionWidth);
        threadgroups := Some(ThreadgroupCount(particleCount, threadExecutionWidth));
      }
      outcome := if renderEncoded then Rendered else NotRendered;
    }
  }
}
