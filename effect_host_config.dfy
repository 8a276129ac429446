/**
  `EffectHostConfig`: a value that bundles a host's extending area, frame
  rate, framebuffer mode and clear colour, compared component by component
  and copied onto a `MetalHostView` by `apply(config:)`.
 */
module EffectHost {
  import opened MetalHost

  /** The configuration, with the initialiser's default for every field. */
  datatype EffectHostConfig = EffectHostConfig(
    extendingArea: ExtendingArea := None,
    preferredFramesPerSecond: int := 60,
    framebufferOnly: bool := false,
    clearColor: ClearColor := ClearColor(0.0, 0.0, 0.0, 0.0))

  /** `EffectHostConfig.standard`: every field at its default. */
  const Standard := EffectHostConfig()

  /** The defaults: no extension, 60 frames per second, a readable framebuffer, transparent black. */
  lemma StandardDefaults()
    ensures Standard.extendingArea == None
    ensures Standard.preferredFramesPerSecond == 60
    ensures !Standard.framebufferOnly
    ensures Standard.clearColor == ClearColor(0.0, 0.0, 0.0, 0.0)
  {
  }

  /**
    The hand-written `==`: the extending areas, the frame rates, the
    framebuffer modes and each of the four colour components agree. It
    holds exactly when the two configurations are the same value.
   */
  function ConfigEquals(lhs: EffectHostConfig, rhs: EffectHostConfig): (equal: bool)
    ensures equal <==> lhs == rhs
  {
    && lhs.extendingArea == rhs.extendingArea
    && lhs.preferredFramesPerSecond == rhs.preferredFramesPerSecond
    && lhs.framebufferOnly == rhs.framebufferOnly
    && lhs.clearColor.red == rhs.clearColor.red
    && lhs.clearColor.green == rhs.clearColor.green
    && lhs.clearColor.blue == rhs.clearColor.blue
    && lhs.clearColor.alpha == rhs.clearColor.alpha
  }

  /** `==` is an equivalence: reflexive, symmetric and transitive. */
  lemma ConfigEqualsEquivalence(a: EffectHostConfig, b: EffectHostConfig, c: EffectHostConfig)
    ensures ConfigEquals(a, a)
    ensures ConfigEquals(a, b) ==> ConfigEquals(b, a)
    ensures ConfigEquals(a, b) && ConfigEquals(b, c) ==> ConfigEquals(a, c)
  {
  }

  /** Two configurations that differ only in one colour component are not equal. */
  lemma ConfigEqualsSeesAlpha(config: EffectHostConfig, alpha: real)
    requires alpha != config.clearColor.alpha
    ensures !ConfigEquals(config, config.(clearColor := config.clearColor.(alpha := alpha)))
  {
  }

  /** `ExtendingArea.standard`. */
  function StandardArea(): ExtendingArea
  {
    None
  }

  /** `ExtendingArea.multiple(_:)`. */
  function MultipleArea(factor: real): ExtendingArea
  {
    Multiple(factor)
  }

  /** `ExtendingArea.padding(_:)`. */
  function PaddingArea(pt: real): ExtendingArea
  {
    Extending(pt)
  }

  /**
    The shorthands name the enum's cases: `standard` leaves the bounds as
    they are, `padding(pt)` with `pt >= 0` grows every side by `pt`, and
    `multiple(x)` with `x > 1` scales both sides by `x`.
   */
  lemma AreaShorthands(bounds: Rect, x: real)
    ensures StandardArea() == None && MultipleArea(x) == Multiple(x) && PaddingArea(x) == Extending(x)
    ensures ExpandedBounds(bounds, StandardArea()) == bounds
    ensures Standardized(bounds) && x >= 0.0 ==>
      ExpandedBounds(bounds, PaddingArea(x)) == Rect(bounds.x - x, bounds.y - x, bounds.width + 2.0 * x, bounds.height + 2.0 * x)
    ensures Standardized(bounds) && x > 1.0 ==>
      && ExpandedBounds(bounds, MultipleArea(x)).Rect?
      && ExpandedBounds(bounds, MultipleArea(x)).width == bounds.width * x
      && ExpandedBounds(bounds, MultipleArea(x)).height == bounds.height * x
  {
  }

  /** The configuration a host currently has: its own area and rate, the Metal view's framebuffer mode and clear colour. */
  function CurrentConfig(host: MetalHostView): EffectHostConfig
    reads host, host.metalView
  {
    EffectHostConfig(host.extendingArea, host.preferredFramesPerSecond, host.metalView.framebufferOnly, host.metalView.clearColor)
  }

  /**
    `apply(config:)`: sets the extending area (which asks for a layout) and
    the frame rate (which the Metal view follows), and forwards the
    framebuffer mode and the clear colour. Afterwards the host's
    configuration is exactly `config`; the pause state, the bounds and the
    Metal view's frame until the next layout are untouched.
   */
  method Apply(host: MetalHostView, config: EffectHostConfig)
    requires host.Valid()
    modifies host`extendingArea, host`needsLayout, host`preferredFramesPerSecond
    modifies host.metalView`preferredFramesPerSecond, host.metalView`framebufferOnly, host.metalView`clearColor
    ensures host.Valid() && host.needsLayout
    ensures CurrentConfig(host) == config
    ensures host.metalView.preferredFramesPerSecond == config.preferredFramesPerSecond
  {
    host.SetExtendingArea(config.extendingArea);
    host.SetPreferredFramesPerSecond(config.preferredFramesPerSecond);
    host.SetFramebufferOnly(config.framebufferOnly);
    host.SetClearColor(config.clearColor);
  }

  /**
    A new host already has the standard configuration, and applying
    `standard` to it, then laying out, changes none of its Metal view's
    settings.
   */
  method NewHostIsStandard(frame: Rect, scale: real) returns (host: MetalHostView)
    ensures fresh(host) && host.Valid() && !host.needsLayout
    ensures CurrentConfig(host) == Standard && host.Configured() && !host.metalView.hasDelegate
    ensures host.metalView.frame == host.bounds && host.metalView.drawableSize == DrawableSize(host.bounds, scale)
  {
    host := new MetalHostView(frame, scale);
    StandardDefaults();
    var before := CurrentConfig(host);
    Apply(host, Standard);
    host.LayoutSubviews(scale);
    assert CurrentConfig(host) == before;
  }
}
