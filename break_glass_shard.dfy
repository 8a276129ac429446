/**
  The per-shard state of the break-glass transition and the rule that advances
  one shard by one frame (`ShardState`, `updateTime`'s and
  `updateShardStates`'s arithmetic in BreakGlassView+Renderer.swift).

  A shard's transform matrix is built from sine and cosine of its rotation;
  the model keeps the three inputs of that matrix (translation, rotation,
  scale) instead of the matrix itself.
 */
module BreakGlassShard {
  import opened Support

  /** One shard of the fractured snapshot (`ShardState`). */
  datatype ShardState = ShardState(
    center: Vec2,
    velocity: Vec2,
    acceleration: Vec2,
    radialDirection: Vec2,
    expansionBoost: real,
    radialOpacity: real,
    angularVelocity: real,
    angularAcceleration: real,
    rotation: real,
    offset: Vec2,
    life: real,
    age: real,
    delay: real,
    opacity: real,
    scale: real)

  /**
    What the renderer uploads for one shard (`ShardUniform`): the inputs of
    its transform matrix and its opacity (`parameters.x`).
   */
  datatype ShardUniform = ShardUniform(translation: Vec2, rotation: real, scale: real, opacity: real)

  /** Length of the fade at the end of a shard's life, in seconds. */
  const FadeWindow: real := 0.75
  /** A shard whose opacity is at or below this no longer counts as alive. */
  const AliveThreshold: real := 0.005

  /** The clamp `updateTime` applies to the wall-clock gap between frames. */
  function ClampFrameDelta(raw: real): (dt: real)
    ensures 1.0 / 240.0 <= dt <= 1.0 / 24.0
    ensures 1.0 / 240.0 <= raw <= 1.0 / 24.0 ==> dt == raw
    ensures raw < 1.0 / 240.0 ==> dt == 1.0 / 240.0
    ensures raw > 1.0 / 24.0 ==> dt == 1.0 / 24.0
  {
    Max(1.0 / 240.0, Min(1.0 / 24.0, raw))
  }

  /** The second clamp `updateShardStates` applies before integrating. */
  function ClampPhysicsDelta(deltaTime: real): (dt: real)
    ensures 1.0 / 240.0 <= dt <= 1.0 / 30.0
    ensures 1.0 / 240.0 <= deltaTime <= 1.0 / 30.0 ==> dt == deltaTime
    ensures deltaTime > 1.0 / 30.0 ==> dt == 1.0 / 30.0
  {
    Max(1.0 / 240.0, Min(1.0 / 30.0, deltaTime))
  }

  /** Whatever the wall clock does, every physics step uses a step in [1/240, 1/30]. */
  lemma PhysicsStepBounded(raw: real)
    ensures 1.0 / 240.0 <= ClampPhysicsDelta(ClampFrameDelta(raw)) <= 1.0 / 30.0
    ensures raw >= 1.0 / 30.0 ==> ClampPhysicsDelta(ClampFrameDelta(raw)) == 1.0 / 30.0
  {
  }

  /** `simd_clamp(x, 0, 1)`. */
  function Clamp01(x: real): (r: real)
    ensures 0.0 <= r <= 1.0
    ensures 0.0 <= x <= 1.0 ==> r == x
  {
    Min(Max(x, 0.0), 1.0)
  }

  /** The Hermite ramp t*t*(3 - 2t) that smoothstep applies to its clamped argument. */
  function Hermite(t: real): real
  {
    t * t * (3.0 - 2.0 * t)
  }

  /** `simd_smoothstep(edge0, edge1, x)`: the Hermite ramp of the clamped position of `x`. */
  function Smoothstep(edge0: real, edge1: real, x: real): (r: real)
    requires edge0 < edge1
    ensures 0.0 <= r <= 1.0
    ensures x <= edge0 ==> r == 0.0
    ensures x >= edge1 ==> r == 1.0
  {
    var t := Clamp01(RampPosition(edge0, edge1, x));
    HermiteMonotonic(0.0, t);
    HermiteMonotonic(t, 1.0);
    Hermite(t)
  }

  /** Where `x` lies between the edges: 0 at `edge0`, 1 at `edge1`. */
  function RampPosition(edge0: real, edge1: real, x: real): (p: real)
    requires edge0 < edge1
    ensures x <= edge0 ==> p <= 0.0
    ensures x >= edge1 ==> p >= 1.0
  {
    var d := edge1 - edge0;
    assert (x - edge0) / d * d == x - edge0;
    (x - edge0) / d
  }

  /** The Hermite ramp never decreases on [0, 1]. */
  lemma HermiteMonotonic(a: real, b: real)
    requires 0.0 <= a <= b <= 1.0
    ensures Hermite(a) <= Hermite(b)
  {
    var aa, ab, bb := a * a, a * b, b * b;
    var k := 3.0 * (a + b) - 2.0 * (aa + ab + bb);
    assert Hermite(b) - Hermite(a) == (b - a) * k by {
      assert Hermite(b) == 3.0 * bb - 2.0 * bb * b;
      assert Hermite(a) == 3.0 * aa - 2.0 * aa * a;
      assert (b - a) * k == 3.0 * (bb - aa) - 2.0 * (bb * b - aa * a);
    }
    ProductNonNegative(a, 1.0 - a);
    ProductNonNegative(b, 1.0 - b);
    ProductNonNegative(a, 1.0 - b);
    ProductNonNegative(b, 1.0 - a);
    assert k >= 0.0;
    ProductNonNegative(b - a, k);
  }

  lemma ProductNonNegative(x: real, y: real)
    requires 0.0 <= x && 0.0 <= y
    ensures 0.0 <= x * y
  {
  }

  lemma QuotientMonotonic(p: real, q: real, d: real)
    requires p <= q && 0.0 < d
    ensures p / d <= q / d
  {
    assert q / d - p / d == (q - p) / d;
    assert (q - p) / d * d == q - p;
  }

  /** smoothstep never decreases as its argument grows. */
  lemma {:induction false} SmoothstepMonotonic(edge0: real, edge1: real, x: real, y: real)
    requires edge0 < edge1 && x <= y
    ensures Smoothstep(edge0, edge1, x) <= Smoothstep(edge0, edge1, y)
  {
    QuotientMonotonic(x - edge0, y - edge0, edge1 - edge0);
    HermiteMonotonic(Clamp01(RampPosition(edge0, edge1, x)), Clamp01(RampPosition(edge0, edge1, y)));
  }

  /**
    The opacity a shard past its delay gets at `age`, before the alive
    threshold: the lifetime fade, capped by its radial weight.
   */
  function VisibleOpacity(age: real, life: real, radialOpacity: real): real
  {
    var fadeProgress := Smoothstep(life - FadeWindow, life, age);
    var timeOpacity := Max(0.0, 1.0 - fadeProgress);
    Min(timeOpacity, radialOpacity)
  }

  /**
    The opacity stored for a shard past its delay: the visible opacity, or 0
    once it is at or below the alive threshold.
   */
  function ShardOpacity(age: real, life: real, radialOpacity: real): (r: real)
    requires 0.0 <= radialOpacity
    ensures 0.0 <= r <= radialOpacity
    ensures r == 0.0 || r > AliveThreshold
    ensures age >= life ==> r == 0.0
    ensures age <= life - FadeWindow && radialOpacity <= 1.0 && radialOpacity > AliveThreshold ==> r == radialOpacity
  {
    var visible := VisibleOpacity(age, life, radialOpacity);
    if visible > AliveThreshold then visible else 0.0
  }

  /** The stored opacity never rises as a shard ages. */
  lemma {:induction false} ShardOpacityNonIncreasing(age1: real, age2: real, life: real, radialOpacity: real)
    requires 0.0 <= radialOpacity && age1 <= age2
    ensures ShardOpacity(age2, life, radialOpacity) <= ShardOpacity(age1, life, radialOpacity)
  {
    SmoothstepMonotonic(life - FadeWindow, life, age1, age2);
    assert VisibleOpacity(age2, life, radialOpacity) <= VisibleOpacity(age1, life, radialOpacity);
  }

  /** The bounded growth of a shard's scale at `age`. */
  function GrowthScale(age: real, life: real, expansionBoost: real): real
  {
    var growthAge := Min(age, life);
    var expansionGrowth := Min(0.5 * expansionBoost, growthAge * 0.18 * expansionBoost);
    1.0 + expansionGrowth
  }

  /**
    One frame of `updateShardStates` for one shard: a shard still inside its
    delay only shows its radial opacity; any other shard ages by `dt`,
    integrates velocity, offset and rotation with damping, fades and grows.
   */
  function Advance(s: ShardState, elapsed: real, dt: real): ShardState
  {
    if elapsed < s.delay then
      s.(opacity := s.radialOpacity)
    else
      var age := s.age + dt;
      var velocity := NextVelocity(s, dt);
      var offset := s.offset.Plus(velocity.Times(dt));
      var angularVelocity := NextAngularVelocity(s, dt);
      var rotation := s.rotation + angularVelocity * dt;
      var visible := VisibleOpacity(age, s.life, s.radialOpacity);
      s.(age := age,
         velocity := velocity,
         offset := offset,
         angularVelocity := angularVelocity,
         rotation := rotation,
         opacity := if visible > AliveThreshold then visible else 0.0,
         scale := GrowthScale(age, s.life, s.expansionBoost))
  }

  /** The velocity after a step of `dt`: accelerated, pushed outward along the radial direction, damped by 0.992. */
  function NextVelocity(s: ShardState, dt: real): Vec2
  {
    var accelerated := s.velocity.Plus(s.acceleration.Times(dt));
    accelerated.Plus(s.radialDirection.Times(s.expansionBoost).Times(45.0).Times(dt)).Times(0.992)
  }

  /** The angular velocity after a step of `dt`, damped by 0.98. */
  function NextAngularVelocity(s: ShardState, dt: real): real
  {
    (s.angularVelocity + s.angularAcceleration * dt) * 0.98
  }

  /**
    The damping on its own, as a fact about the update formula: with no
    acceleration and no radial push each velocity component keeps 99.2% of
    its value per step, and with no angular acceleration the spin keeps 98%
    of its value, so an unforced spin dies out. Generated shards always
    have a radial push (an expansion boost of at least 1), so the velocity
    clause describes the damping factor rather than a reachable shard; the
    spin clause applies to any shard whose angular acceleration is 0.
   */
  lemma DampingWithoutForces(s: ShardState, dt: real)
    ensures s.acceleration == Zero && s.expansionBoost == 0.0 ==>
      NextVelocity(s, dt) == Vec2(0.992 * s.velocity.x, 0.992 * s.velocity.y)
    ensures s.angularAcceleration == 0.0 ==> NextAngularVelocity(s, dt) == 0.98 * s.angularVelocity
    ensures s.angularAcceleration == 0.0 && s.angularVelocity != 0.0 ==>
      -s.angularVelocity * s.angularVelocity < NextAngularVelocity(s, dt) * s.angularVelocity < s.angularVelocity * s.angularVelocity
  {
    if s.angularAcceleration == 0.0 && s.angularVelocity != 0.0 {
      assert NextAngularVelocity(s, dt) * s.angularVelocity == 0.98 * (s.angularVelocity * s.angularVelocity);
      assert 0.0 < s.angularVelocity * s.angularVelocity;
    }
  }

  /**
    A spin of at most 3 rad/s under an angular acceleration of at most
    1.5 rad/s² stays within 3 rad/s after a physics step of at most 1/30 s:
    the damping outweighs the push.
   */
  lemma {:induction false} SpinStaysBounded(s: ShardState, dt: real)
    requires -3.0 <= s.angularVelocity <= 3.0 && -1.5 <= s.angularAcceleration <= 1.5
    requires 0.0 <= dt <= 1.0 / 30.0
    ensures -3.0 <= NextAngularVelocity(s, dt) <= 3.0
  {
    assert -0.05 <= s.angularAcceleration * dt <= 0.05 by {
      ProductNonNegative(1.5 - s.angularAcceleration, dt);
      ProductNonNegative(s.angularAcceleration + 1.5, dt);
      assert (1.5 - s.angularAcceleration) * dt == 1.5 * dt - s.angularAcceleration * dt;
      assert (s.angularAcceleration + 1.5) * dt == s.angularAcceleration * dt + 1.5 * dt;
    }
  }

  /** Whether `updateShardStates` counts the shard as alive in this frame. */
  predicate CountsAlive(s: ShardState, elapsed: real, dt: real)
  {
    elapsed < s.delay || VisibleOpacity(s.age + dt, s.life, s.radialOpacity) > AliveThreshold
  }

  /** The uniform written for the shard in this frame. */
  function UniformAfter(s: ShardState, elapsed: real, dt: real): ShardUniform
  {
    var next := Advance(s, elapsed, dt);
    if elapsed < s.delay then
      ShardUniform(next.center, next.rotation, next.scale, next.opacity)
    else
      ShardUniform(next.center.Plus(next.offset), next.rotation, next.scale, next.opacity)
  }

  /** The uniform appended for a freshly generated shard. */
  function InitialUniform(s: ShardState): ShardUniform
  {
    ShardUniform(s.center, s.rotation, 1.0, s.radialOpacity)
  }

  /** Every shard after one frame of `updateShardStates`. */
  function AdvanceAll(shards: seq<ShardState>, elapsed: real, dt: real): (next: seq<ShardState>)
    ensures |next| == |shards|
    ensures forall i :: 0 <= i < |shards| ==> next[i] == Advance(shards[i], elapsed, dt)
  {
    seq(|shards|, i requires 0 <= i < |shards| => Advance(shards[i], elapsed, dt))
  }

  /** Every shard's uniform after one frame of `updateShardStates`. */
  function UniformsAfter(shards: seq<ShardState>, elapsed: real, dt: real): (uniforms: seq<ShardUniform>)
    ensures |uniforms| == |shards|
    ensures forall i :: 0 <= i < |shards| ==> uniforms[i] == UniformAfter(shards[i], elapsed, dt)
  {
    seq(|shards|, i requires 0 <= i < |shards| => UniformAfter(shards[i], elapsed, dt))
  }

  /** The uniforms appended for freshly generated shards. */
  function InitialUniforms(shards: seq<ShardState>): (uniforms: seq<ShardUniform>)
    ensures |uniforms| == |shards|
    ensures forall i :: 0 <= i < |shards| ==> uniforms[i] == InitialUniform(shards[i])
  {
    seq(|shards|, i requires 0 <= i < |shards| => InitialUniform(shards[i]))
  }

  /** Appending a shard appends its initial uniform. */
  lemma InitialUniformsAppend(shards: seq<ShardState>, s: ShardState)
    ensures InitialUniforms(shards + [s]) == InitialUniforms(shards) + [InitialUniform(s)]
  {
  }

  /** The ranges a generated shard lies in, kept by every frame. */
  ghost predicate WellFormed(s: ShardState)
  {
    && 0.2 <= s.radialOpacity <= 1.0
    && 1.0 <= s.expansionBoost
    && 1.4 <= s.life <= 2.2
    && 0.0 <= s.age
    && 0.0 <= s.delay
    && 0.0 <= s.opacity <= 1.0
    && 1.0 <= s.scale <= 1.0 + 0.5 * s.expansionBoost
    && -1.5 <= s.angularAcceleration <= 1.5
    && -3.0 <= s.angularVelocity <= 3.0
  }

  /** Every shard of a sequence is well formed. */
  ghost predicate AllWellFormed(shards: seq<ShardState>)
  {
    forall i :: 0 <= i < |shards| ==> WellFormed(shards[i])
  }

  lemma AllWellFormedConcat(a: seq<ShardState>, b: seq<ShardState>)
    requires AllWellFormed(a) && AllWellFormed(b)
    ensures AllWellFormed(a + b)
  {
    forall i | 0 <= i < |a + b|
      ensures WellFormed((a + b)[i])
    {
      if i >= |a| {
        assert (a + b)[i] == b[i - |a|];
      }
    }
  }

  /** Number of shards `updateShardStates` reports as alive. */
  function AliveCount(shards: seq<ShardState>, elapsed: real, dt: real): nat
  {
    if |shards| == 0 then 0
    else
      AliveCount(shards[..|shards| - 1], elapsed, dt)
      + (if CountsAlive(shards[|shards| - 1], elapsed, dt) then 1 else 0)
  }

  /** The alive count never exceeds the number of shards. */
  lemma {:induction false} AliveCountBounded(shards: seq<ShardState>, elapsed: real, dt: real)
    ensures AliveCount(shards, elapsed, dt) <= |shards|
  {
    if |shards| > 0 {
      AliveCountBounded(shards[..|shards| - 1], elapsed, dt);
    }
  }

  /** The count is zero exactly when no shard is delayed or visible. */
  lemma {:induction false} AliveCountZero(shards: seq<ShardState>, elapsed: real, dt: real)
    ensures AliveCount(shards, elapsed, dt) == 0 <==>
            forall i :: 0 <= i < |shards| ==> !CountsAlive(shards[i], elapsed, dt)
  {
    if |shards| > 0 {
      var init := shards[..|shards| - 1];
      AliveCountZero(init, elapsed, dt);
      assert forall i :: 0 <= i < |init| ==> init[i] == shards[i];
    }
  }

  /**
    A shard still inside its delay keeps its age, motion and rotation, shows
    exactly its radial opacity and counts as alive.
   */
  lemma DelayedShardWaits(s: ShardState, elapsed: real, dt: real)
    requires elapsed < s.delay
    ensures var next := Advance(s, elapsed, dt);
      && next.age == s.age && next.velocity == s.velocity && next.offset == s.offset
      && next.rotation == s.rotation && next.angularVelocity == s.angularVelocity
      && next.scale == s.scale && next.opacity == s.radialOpacity
    ensures CountsAlive(s, elapsed, dt)
  {
  }

  /**
    A shard past its delay: its opacity is the capped fade of its new age,
    lies in [0, radialOpacity], is zero once its age reaches its life, and it
    counts as alive exactly when that opacity is above the threshold; its
    scale stays in [1, 1 + 0.5 * expansionBoost].
   */
  lemma {:induction false} ActiveShardStep(s: ShardState, elapsed: real, dt: real)
    requires WellFormed(s) && elapsed >= s.delay && 0.0 <= dt
    ensures var next := Advance(s, elapsed, dt);
      && next.age == s.age + dt
      && next.opacity == ShardOpacity(s.age + dt, s.life, s.radialOpacity)
      && 0.0 <= next.opacity <= s.radialOpacity
      && (next.age >= s.life ==> next.opacity == 0.0)
      && (CountsAlive(s, elapsed, dt) <==> next.opacity > AliveThreshold)
      && 1.0 <= next.scale <= 1.0 + 0.5 * s.expansionBoost
  {
    var age := s.age + dt;
    var growthAge := Min(age, s.life);
    assert 0.0 <= growthAge;
    assert 0.0 <= growthAge * 0.18 * s.expansionBoost;
  }

  /** Every frame keeps a generated shard within its ranges. */
  lemma {:induction false} AdvanceKeepsWellFormed(s: ShardState, elapsed: real, dt: real)
    requires WellFormed(s) && 0.0 <= dt <= 1.0 / 30.0
    ensures WellFormed(Advance(s, elapsed, dt))
    ensures Advance(s, elapsed, dt).opacity <= s.radialOpacity
  {
    if elapsed >= s.delay {
      ActiveShardStep(s, elapsed, dt);
      SpinStaysBounded(s, dt);
    }
  }

  /**
    Between two frames whose elapsed times do not decrease, a shard's opacity
    never rises: a delayed shard shows its radial opacity, and once past its
    delay it only fades.
   */
  lemma {:induction false} OpacityNeverRises(s: ShardState, elapsed1: real, elapsed2: real, dt1: real, dt2: real)
    requires WellFormed(s) && elapsed1 <= elapsed2 && 0.0 <= dt1 <= 1.0 / 30.0 && 0.0 <= dt2 <= 1.0 / 30.0
    ensures Advance(Advance(s, elapsed1, dt1), elapsed2, dt2).opacity <= Advance(s, elapsed1, dt1).opacity
  {
    var first := Advance(s, elapsed1, dt1);
    AdvanceKeepsWellFormed(s, elapsed1, dt1);
    if elapsed1 < s.delay {
      AdvanceKeepsWellFormed(first, elapsed2, dt2);
    } else {
      ActiveShardStep(s, elapsed1, dt1);
      ActiveShardStep(first, elapsed2, dt2);
      ShardOpacityNonIncreasing(first.age, first.age + dt2, s.life, s.radialOpacity);
    }
  }

  /** A frame of `updateShardStates` keeps every shard well formed. */
  lemma AdvanceAllKeepsWellFormed(shards: seq<ShardState>, elapsed: real, dt: real)
    requires AllWellFormed(shards) && 0.0 <= dt <= 1.0 / 30.0
    ensures AllWellFormed(AdvanceAll(shards, elapsed, dt))
  {
    forall i | 0 <= i < |shards|
      ensures WellFormed(AdvanceAll(shards, elapsed, dt)[i])
    {
      AdvanceKeepsWellFormed(shards[i], elapsed, dt);
    }
  }
}
