/**
  The Metal host view (`MetalHostView`): a view that owns an `MTKView`,
  lays it out over its own bounds grown by the configured `ExtendingArea`,
  and forwards frame rate, pause, framebuffer and clear-colour settings to
  it.

  The `MTKView` is reduced to the properties the host sets. The display
  scale read during layout (window, screen or layer scale) is a parameter.
  Layout runs when the platform calls `LayoutSubviews`; `needsLayout`
  records that the host asked for it.
 */
module MetalHost {

  /** How far the Metal view extends beyond the host's bounds (`factor` is Swift's `by:` label). */
  datatype ExtendingArea =
    | None
    | Multiple(factor: real)
    | Extending(pt: real)

  /**
    A `CGRect`: an origin and a size, or `CGRect.null`, which Core Graphics
    returns when an inset would make a side negative.
   */
  datatype Rect =
    | Rect(x: real, y: real, width: real, height: real)
    | NullRect

  /** A `CGSize`. */
  datatype Size = Size(width: real, height: real)

  /** An `MTLClearColor`. */
  datatype ClearColor = ClearColor(red: real, green: real, blue: real, alpha: real)

  /** A rectangle with non-negative sides, as every view's bounds are. */
  predicate Standardized(r: Rect)
  {
    r.Rect? && r.width >= 0.0 && r.height >= 0.0
  }

  /** `CGRect.width`: zero for the null rectangle. */
  function Width(r: Rect): real
  {
    if r.Rect? then r.width else 0.0
  }

  /** `CGRect.height`: zero for the null rectangle. */
  function Height(r: Rect): real
  {
    if r.Rect? then r.height else 0.0
  }

  /** `CGRect.midX`. */
  function MidX(r: Rect): real
    requires r.Rect?
  {
    r.x + r.width / 2.0
  }

  /** `CGRect.midY`. */
  function MidY(r: Rect): real
    requires r.Rect?
  {
    r.y + r.height / 2.0
  }

  /**
    `CGRect.insetBy(dx:dy:)` on a rectangle with non-negative sides: each
    side moves inward by `dx` (or `dy`); a negative result is the null rectangle.
   */
  function InsetBy(r: Rect, dx: real, dy: real): (e: Rect)
    ensures e.Rect? ==> r.Rect? && MidX(e) == MidX(r) && MidY(e) == MidY(r)
    ensures e.Rect? ==> e.width == r.width - 2.0 * dx && e.height == r.height - 2.0 * dy
    ensures r.Rect? && r.width - 2.0 * dx >= 0.0 && r.height - 2.0 * dy >= 0.0 ==> e.Rect?
  {
    if r.NullRect? || r.width - 2.0 * dx < 0.0 || r.height - 2.0 * dy < 0.0 then NullRect
    else Rect(r.x + dx, r.y + dy, r.width - 2.0 * dx, r.height - 2.0 * dy)
  }

  /**
    `expandedBounds(for:)`: the rectangle the Metal view covers. It keeps
    the centre of the bounds in every case; `.none` and `.multiple(by)`
    with `by <= 1` leave the bounds as they are, `.extending(pt)` grows
    each side outward by `pt`, and `.multiple(by)` with `by > 1` scales
    both sides by `by`.
   */
  function ExpandedBounds(bounds: Rect, area: ExtendingArea): (e: Rect)
    ensures area.None? ==> e == bounds
    ensures area.Multiple? && area.factor <= 1.0 ==> e == bounds
    ensures bounds.Rect? && e.Rect? ==> MidX(e) == MidX(bounds) && MidY(e) == MidY(bounds)
    ensures Standardized(bounds) && area.Extending? && area.pt >= 0.0 ==>
      e == Rect(bounds.x - area.pt, bounds.y - area.pt, bounds.width + 2.0 * area.pt, bounds.height + 2.0 * area.pt)
    ensures Standardized(bounds) && area.Multiple? && area.factor > 1.0 ==>
      e.Rect? && e.width == bounds.width * area.factor && e.height == bounds.height * area.factor
  {
    match area
    case None => bounds
    case Extending(pt) => InsetBy(bounds, -pt, -pt)
    case Multiple(factor) =>
      if factor <= 1.0 then bounds
      else
        var w := Width(bounds) * factor;
        var h := Height(bounds) * factor;
        var dx := (w - Width(bounds)) / 2.0;
        var dy := (h - Height(bounds)) / 2.0;
        InsetBy(bounds, -dx, -dy)
  }

  /** Growing by a non-negative amount never yields the null rectangle and never shrinks a side. */
  lemma ExpandedBoundsGrow(bounds: Rect, area: ExtendingArea)
    requires Standardized(bounds)
    requires area.Extending? ==> area.pt >= 0.0
    ensures Standardized(ExpandedBounds(bounds, area))
    ensures ExpandedBounds(bounds, area).width >= bounds.width
    ensures ExpandedBounds(bounds, area).height >= bounds.height
  {
    if area.Multiple? && area.factor > 1.0 {
      MultiplyAtLeast(bounds.width, area.factor);
      MultiplyAtLeast(bounds.height, area.factor);
    }
  }

  lemma MultiplyAtLeast(a: real, b: real)
    requires a >= 0.0 && b > 1.0
    ensures a * b >= a
  {
    assert a * b - a == a * (b - 1.0);
  }

  /** The drawable size for a frame: each side times the display scale. */
  function DrawableSize(frame: Rect, scale: real): (size: Size)
    ensures scale >= 0.0 && Width(frame) >= 0.0 ==> size.width >= 0.0
    ensures scale >= 0.0 && Height(frame) >= 0.0 ==> size.height >= 0.0
    ensures scale == 1.0 ==> size == Size(Width(frame), Height(frame))
  {
    Size(Width(frame) * scale, Height(frame) * scale)
  }

  /** The `MTKView` a host owns, reduced to the properties the host sets. */
  class MetalView {
    var frame: Rect
    var drawableSize: Size
    var isPaused: bool
    var enableSetNeedsDisplay: bool
    var preferredFramesPerSecond: int
    var clearColor: ClearColor
    var framebufferOnly: bool
    var hasDelegate: bool

    /** `MTKView(frame: .zero, device:)`, with MetalKit's own defaults. */
    constructor()
      ensures frame == Rect(0.0, 0.0, 0.0, 0.0) && drawableSize == Size(0.0, 0.0)
      ensures !isPaused && !enableSetNeedsDisplay && preferredFramesPerSecond == 60
      ensures clearColor == ClearColor(0.0, 0.0, 0.0, 1.0) && framebufferOnly && !hasDelegate
    {
      frame := Rect(0.0, 0.0, 0.0, 0.0);
      drawableSize := Size(0.0, 0.0);
      isPaused := false;
      enableSetNeedsDisplay := false;
      preferredFramesPerSecond := 60;
      clearColor := ClearColor(0.0, 0.0, 0.0, 1.0);
      framebufferOnly := true;
      hasDelegate := false;
    }
  }

  class MetalHostView {
    const metalView: MetalView
    var bounds: Rect
    var extendingArea: ExtendingArea
    var preferredFramesPerSecond: int
    var needsLayout: bool

    /**
      The Metal view always runs at the host's frame rate, and whenever no
      layout is pending it covers the host's bounds expanded by the
      extending area.
     */
    predicate Valid()
      reads this, metalView
    {
      && metalView.preferredFramesPerSecond == preferredFramesPerSecond
      && (!needsLayout ==> metalView.frame == ExpandedBounds(bounds, extendingArea))
    }

    /**
      `init(frame:)`: creates the Metal view, configures it (running, no
      `setNeedsDisplay`, 60 frames per second, transparent clear colour,
      readable framebuffer) and lays it out over the bounds, whose origin
      is zero and whose size is the frame's.
     */
    constructor(frame: Rect, scale: real)
      ensures Valid() && fresh(metalView) && !needsLayout
      ensures bounds == Rect(0.0, 0.0, Width(frame), Height(frame))
      ensures extendingArea == None && preferredFramesPerSecond == 60
      ensures Configured() && !metalView.hasDelegate
      ensures metalView.frame == bounds && metalView.drawableSize == DrawableSize(bounds, scale)
    {
      bounds := Rect(0.0, 0.0, Width(frame), Height(frame));
      extendingArea := None;
      preferredFramesPerSecond := 60;
      needsLayout := false;
      metalView := new MetalView();
      new;
      ConfigureMetalView();
      UpdateMetalViewLayout(bounds, scale);
      assert metalView.frame == bounds;
    }

    /**
      What `configureMetalView` sets: the view runs, is redrawn by its
      display link rather than on demand, clears to transparent black and
      keeps a readable framebuffer.
     */
    predicate Configured()
      reads metalView`isPaused, metalView`enableSetNeedsDisplay, metalView`clearColor, metalView`framebufferOnly
    {
      && !metalView.isPaused
      && !metalView.enableSetNeedsDisplay
      && metalView.clearColor == ClearColor(0.0, 0.0, 0.0, 0.0)
      && !metalView.framebufferOnly
    }

    /** `configureMetalView`: running, driven by the display link, at the host's rate, transparent and readable. */
    method ConfigureMetalView()
      modifies metalView`isPaused, metalView`enableSetNeedsDisplay, metalView`preferredFramesPerSecond
      modifies metalView`clearColor, metalView`framebufferOnly
      ensures Configured() && metalView.preferredFramesPerSecond == preferredFramesPerSecond
    {
      metalView.isPaused := false;
      metalView.enableSetNeedsDisplay := false;
      metalView.preferredFramesPerSecond := preferredFramesPerSecond;
      metalView.clearColor := ClearColor(0.0, 0.0, 0.0, 0.0);
      metalView.framebufferOnly := false;
    }

    /**
      `updateMetalViewLayout(for:)`: the Metal view's frame becomes the
      expanded bounds and its drawable size that frame times the scale.
     */
    method UpdateMetalViewLayout(forBounds: Rect, scale: real)
      modifies metalView`frame, metalView`drawableSize
      ensures metalView.frame == ExpandedBounds(forBounds, extendingArea)
      ensures metalView.drawableSize == DrawableSize(metalView.frame, scale)
    {
      var expanded := ExpandedBounds(forBounds, extendingArea);
      metalView.frame := expanded;
      metalView.drawableSize := DrawableSize(expanded, scale);
    }

    /** `layoutSubviews` / `layout`: the platform's layout pass. */
    method LayoutSubviews(scale: real)
      requires Valid()
      modifies this`needsLayout, metalView`frame, metalView`drawableSize
      ensures Valid() && !needsLayout
      ensures metalView.frame == ExpandedBounds(bounds, extendingArea)
      ensures metalView.drawableSize == DrawableSize(metalView.frame, scale)
    {
      UpdateMetalViewLayout(bounds, scale);
      needsLayout := false;
    }

    /** The platform resizing the host: the bounds change and a layout pass is due. */
    method SetBounds(newBounds: Rect)
      requires Valid()
      modifies this`bounds, this`needsLayout
      ensures Valid() && bounds == newBounds && needsLayout
    {
      bounds := newBounds;
      needsLayout := true;
    }

    /** Setting `extendingArea`: its observer asks for a layout pass. */
    method SetExtendingArea(area: ExtendingArea)
      requires Valid()
      modifies this`extendingArea, this`needsLayout
      ensures Valid() && extendingArea == area && needsLayout
    {
      extendingArea := area;
      needsLayout := true;
    }

    /** Setting `preferredFramesPerSecond`: its observer forwards the rate to the Metal view. */
    method SetPreferredFramesPerSecond(rate: int)
      requires Valid()
      modifies this`preferredFramesPerSecond, metalView`preferredFramesPerSecond
      ensures Valid() && preferredFramesPerSecond == rate && metalView.preferredFramesPerSecond == rate
    {
      preferredFramesPerSecond := rate;
      metalView.preferredFramesPerSecond := rate;
    }

    /** `setDelegate(_:)`: only whether a delegate is attached is kept. */
    method SetDelegate(present: bool)
      modifies metalView`hasDelegate
      ensures metalView.hasDelegate == present
    {
      metalView.hasDelegate := present;
    }

    /** `setPaused(_:)`. */
    method SetPaused(paused: bool)
      modifies metalView`isPaused
      ensures metalView.isPaused == paused
    {
      metalView.isPaused := paused;
    }

    /** `setFramebufferOnly(_:)`. */
    method SetFramebufferOnly(value: bool)
      modifies metalView`framebufferOnly
      ensures metalView.framebufferOnly == value
    {
      metalView.framebufferOnly := value;
    }

    /** `setClearColor(_:)`. */
    method SetClearColor(color: ClearColor)
      modifies metalView`clearColor
      ensures metalView.clearColor == color
    {
      metalView.clearColor := color;
    }
  }

  /**
    Changing the extending area and then letting the platform lay out
    puts the Metal view over the bounds grown by the new area, with a
    drawable at least as large as the bounds times the scale.
   */
  method ExtendThenLayout(host: MetalHostView, area: ExtendingArea, scale: real)
    requires host.Valid() && Standardized(host.bounds) && scale >= 0.0
    requires area.Extending? ==> area.pt >= 0.0
    modifies host, host.metalView
    ensures host.Valid() && !host.needsLayout && host.extendingArea == area
    ensures host.metalView.frame == ExpandedBounds(host.bounds, area)
    ensures host.metalView.drawableSize.width >= Width(host.bounds) * scale
    ensures host.metalView.drawableSize.height >= Height(host.bounds) * scale
  {
    host.SetExtendingArea(area);
    host.LayoutSubviews(scale);
    ExpandedBoundsGrow(host.bounds, area);
    ScaleMonotonic(host.bounds.width, Width(host.metalView.frame), scale);
    ScaleMonotonic(host.bounds.height, Height(host.metalView.frame), scale);
  }

  lemma ScaleMonotonic(a: real, b: real, scale: real)
    requires a <= b && scale >= 0.0
    ensures a * scale <= b * scale
  {
    assert b * scale - a * scale == (b - a) * scale;
  }
}
