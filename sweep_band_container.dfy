/**
  The sweep band container (`SweepBandContainerView`): a view that reveals its
  content through an axial gradient mask whose opaque band runs between two
  edge fractions, with a feather on each edge. The pure band arithmetic
  (`clamped`, `sanitizedParameters`, `gradientPoints`) is a set of functions;
  the view's stored configuration, pending animation context and mask layer
  are the fields of a class.

  `cos` and `sin` are not computed: each view carries `direction`, standing
  for the angle in radians mapped to (cos, sin). Colours are reduced to
  their white level and alpha; a Core Animation transaction to whether it
  animates (and for how long) or has its actions disabled.
 */
module SweepBandContainer {
  import opened Support

  /** The value of `CGFloat.pi` on a 64-bit platform. */
  const Pi: real := 3.141592653589793115997963468544185161590576171875

  datatype Configuration = Configuration(
    entryFraction: real := 0.85,
    leavingFraction: real := 0.0,
    featherFraction: real := 0.08,
    directionAngle: real := 90.0)

  /** `Comparable.clamped(to: lower ... upper)`; building the range traps unless lower <= upper. */
  function Clamped(x: real, lower: real, upper: real): (r: real)
    requires lower <= upper
    ensures lower <= r <= upper
    ensures lower <= x <= upper ==> r == x
    ensures x < lower ==> r == lower
    ensures upper < x ==> r == upper
  {
    Min(Max(x, lower), upper)
  }

  /** The band edges, in sweep-axis fractions, and the sweep direction. */
  datatype BandParameters = BandParameters(
    lower: real,
    upper: real,
    lowerFeatherEnd: real,
    upperFeatherStart: real,
    directionAngle: real)

  /** The lower band edge: the smaller of the two edge fractions, each clamped to [0, 1]. */
  function LowerEdge(config: Configuration): real
  {
    Min(Clamped(config.entryFraction, 0.0, 1.0), Clamped(config.leavingFraction, 0.0, 1.0))
  }

  /** The upper band edge: the larger of the two clamped edge fractions. */
  function UpperEdge(config: Configuration): real
  {
    Max(Clamped(config.entryFraction, 0.0, 1.0), Clamped(config.leavingFraction, 0.0, 1.0))
  }

  /** The band's width, never below 0.0001. */
  function Span(config: Configuration): real
  {
    Max(UpperEdge(config) - LowerEdge(config), 0.0001)
  }

  /** The feather actually applied: the requested one clamped to [0, 0.5], at most half the span. */
  function Feather(config: Configuration): real
  {
    Min(Span(config) / 2.0, Clamped(config.featherFraction, 0.0, 0.5))
  }

  /**
    `sanitizedParameters`: the band edges taken from the two clamped edge
    fractions whichever way round they are given, with feathered edges
    that stay ordered inside the band.
   */
  function SanitizedParameters(config: Configuration): (p: BandParameters)
    ensures 0.0 <= p.lower <= p.lowerFeatherEnd <= p.upperFeatherStart <= p.upper <= 1.0
    ensures {p.lower, p.upper} == {Clamped(config.entryFraction, 0.0, 1.0), Clamped(config.leavingFraction, 0.0, 1.0)}
    ensures p.directionAngle == config.directionAngle
  {
    var lower := LowerEdge(config);
    var upper := UpperEdge(config);
    var feather := Feather(config);
    var lowerFeatherEnd := Min(lower + feather, upper);
    var upperFeatherStart := Max(upper - feather, lowerFeatherEnd);
    BandParameters(lower, upper, lowerFeatherEnd, upperFeatherStart, config.directionAngle)
  }

  /** Giving the two edge fractions the other way round yields the same band. */
  lemma SwapEdgesSameBand(config: Configuration)
    ensures SanitizedParameters(config.(entryFraction := config.leavingFraction, leavingFraction := config.entryFraction))
         == SanitizedParameters(config)
  {
    var swapped := config.(entryFraction := config.leavingFraction, leavingFraction := config.entryFraction);
    assert LowerEdge(swapped) == LowerEdge(config);
    assert UpperEdge(swapped) == UpperEdge(config);
  }

  /**
    The feather lies in [0, 0.5] and is at most half the span; when the
    band is at least 0.0001 wide, each feathered edge sits exactly one
    feather inside its band edge.
   */
  lemma FeatherBounds(config: Configuration)
    ensures 0.0 <= Feather(config) <= 0.5
    ensures Feather(config) <= Span(config) / 2.0
    ensures UpperEdge(config) - LowerEdge(config) >= 0.0001 ==>
      && SanitizedParameters(config).lowerFeatherEnd == LowerEdge(config) + Feather(config)
      && SanitizedParameters(config).upperFeatherStart == UpperEdge(config) - Feather(config)
  {
  }

  /** Entry 0.2, leaving 0.8 and a requested feather of 0.5: the feather is cut to 0.3 and both feathered edges meet at 0.5. */
  lemma FeatherExample()
    ensures var p := SanitizedParameters(Configuration(0.2, 0.8, 0.5, 90.0));
      && p.lower == 0.2 && p.upper == 0.8
      && p.lowerFeatherEnd == 0.5 && p.upperFeatherStart == 0.5
  {
    var config := Configuration(0.2, 0.8, 0.5, 90.0);
    assert LowerEdge(config) == 0.2 && UpperEdge(config) == 0.8;
    assert Feather(config) == 0.3;
  }

  /** The six gradient locations, from the start of the sweep axis to its end. */
  function Stops(p: BandParameters): (stops: seq<real>)
    ensures |stops| == 6
  {
    [0.0, p.lower, p.lowerFeatherEnd, p.upperFeatherStart, p.upper, 1.0]
  }

  /** The gradient locations are non-decreasing, from 0 to 1. */
  lemma StopsOrdered(config: Configuration)
    ensures var stops := Stops(SanitizedParameters(config));
      && stops[0] == 0.0 && stops[5] == 1.0
      && forall i, j :: 0 <= i <= j < 6 ==> stops[i] <= stops[j]
  {
  }

  /** A mask colour: its white level and its alpha. */
  datatype MaskColor = MaskColor(white: real, alpha: real)

  /** The alpha of each gradient location. */
  const MaskAlphas: seq<real> := [0.0, 0.0, 1.0, 1.0, 0.0, 0.0]

  /** `alphas.map { maskColor(alpha: $0) }`: white, with the alpha carrying the mask. */
  function MaskColors(): (colors: seq<MaskColor>)
    ensures |colors| == 6
  {
    seq(6, i requires 0 <= i < 6 => MaskColor(1.0, MaskAlphas[i]))
  }

  /**
    The mask is white throughout, opaque at exactly the third and fourth
    locations, which are the two feathered edges, and transparent at the
    other four: the content shows through between `lowerFeatherEnd` and
    `upperFeatherStart`, fading out towards `lower` and `upper`.
   */
  lemma MaskOpaqueBetweenFeathers(config: Configuration)
    ensures var p := SanitizedParameters(config);
      && Stops(p)[2] == p.lowerFeatherEnd && Stops(p)[3] == p.upperFeatherStart
      && forall i :: 0 <= i < 6 ==>
        && MaskColors()[i].white == 1.0
        && (MaskColors()[i].alpha == 1.0 <==> 2 <= i <= 3)
        && (MaskColors()[i].alpha == 0.0 <==> !(2 <= i <= 3))
  {
  }

  /** The two ends of the axial gradient. */
  datatype GradientEnds = GradientEnds(start: Vec2, end: Vec2)

  /**
    `gradientPoints`: the ends of a unit-length axis through (0.5, 0.5)
    pointing along `angle` degrees, `direction` giving (cos, sin) of an
    angle in radians. The two ends are symmetric about the centre.
   */
  function GradientPoints(angle: real, direction: real -> Vec2): (points: GradientEnds)
    ensures points.start.Plus(points.end) == Vec2(1.0, 1.0)
    ensures points.end.Minus(points.start) == direction(angle * Pi / 180.0)
  {
    var radians := angle * Pi / 180.0;
    var d := direction(radians);
    GradientEnds(Vec2(0.5 - d.x / 2.0, 0.5 - d.y / 2.0), Vec2(0.5 + d.x / 2.0, 0.5 + d.y / 2.0))
  }

  /** `direction` maps every angle to a point of the unit circle, as (cos, sin) does. */
  ghost predicate OnUnitCircle(direction: real -> Vec2)
  {
    forall a :: direction(a).x * direction(a).x + direction(a).y * direction(a).y == 1.0
  }

  /** Both coordinates of a point of the unit circle lie in [-1, 1]. */
  lemma UnitCircleComponents(d: Vec2)
    requires d.x * d.x + d.y * d.y == 1.0
    ensures -1.0 <= d.x <= 1.0 && -1.0 <= d.y <= 1.0
  {
  }

  /**
    For a direction on the unit circle, the gradient axis has length 1 and
    both of its ends lie in the unit square.
   */
  lemma GradientAxisOnUnitCircle(angle: real, direction: real -> Vec2)
    requires OnUnitCircle(direction)
    ensures var points := GradientPoints(angle, direction);
      var axis := points.end.Minus(points.start);
      && axis.x * axis.x + axis.y * axis.y == 1.0
      && 0.0 <= points.start.x <= 1.0 && 0.0 <= points.start.y <= 1.0
      && 0.0 <= points.end.x <= 1.0 && 0.0 <= points.end.y <= 1.0
  {
    var d := direction(angle * Pi / 180.0);
    UnitCircleComponents(d);
    GradientPointsInUnitSquare(angle, direction);
  }

  /** With cosine and sine in [-1, 1], both ends lie in the unit square. */
  lemma GradientPointsInUnitSquare(angle: real, direction: real -> Vec2)
    requires var d := direction(angle * Pi / 180.0); -1.0 <= d.x <= 1.0 && -1.0 <= d.y <= 1.0
    ensures var points := GradientPoints(angle, direction);
      && 0.0 <= points.start.x <= 1.0 && 0.0 <= points.start.y <= 1.0
      && 0.0 <= points.end.x <= 1.0 && 0.0 <= points.end.y <= 1.0
  {
  }

  /** What an animated update keeps until the mask is next applied. */
  datatype AnimationContext = AnimationContext(duration: real, hasTimingFunction: bool)

  /** How the Core Animation transaction around a mask update was set up. */
  datatype Transaction =
    | Animated(duration: real, hasTimingFunction: bool)
    | ActionsDisabled

  /** The default duration of the setters. */
  const DefaultDuration: real := 0.35

  class SweepBandContainerView {
    var storedConfiguration: Configuration
    var pendingAnimationContext: Option<AnimationContext>
    /** The gradient layer's `locations`, `colors`, `startPoint` and `endPoint`. */
    var locations: seq<real>
    var colors: seq<MaskColor>
    var startPoint: Vec2
    var endPoint: Vec2
    /** The transaction of the most recent mask update. */
    var lastTransaction: Transaction
    /** (cos, sin) of an angle in radians. */
    const direction: real -> Vec2

    /** The mask layer shows the band of `config`. */
    predicate MaskShows(config: Configuration)
      reads this
    {
      var points := GradientPoints(config.directionAngle, direction);
      && locations == Stops(SanitizedParameters(config))
      && colors == MaskColors()
      && startPoint == points.start && endPoint == points.end
    }

    /**
      Between updates the mask shows the stored configuration and no
      animation is pending; `direction` is a cosine and sine pair.
     */
    ghost predicate Valid()
      reads this
    {
      OnUnitCircle(direction) && MaskShows(storedConfiguration) && pendingAnimationContext.None?
    }

    /** `init(frame:)` and `commonInit`: the default configuration applied without animation. */
    constructor(direction: real -> Vec2)
      requires OnUnitCircle(direction)
      ensures Valid()
      ensures storedConfiguration == Configuration() && lastTransaction == ActionsDisabled
      ensures this.direction == direction
    {
      this.direction := direction;
      storedConfiguration := Configuration();
      pendingAnimationContext := None;
      locations, colors, startPoint, endPoint := [], [], Zero, Zero;
      lastTransaction := ActionsDisabled;
      new;
      ApplyConfiguration(false);
    }

    /** The `configuration` setter: stores the value and applies it without animation. */
    method SetConfiguration(newValue: Configuration)
      requires OnUnitCircle(direction)
      modifies this
      ensures Valid()
      ensures storedConfiguration == newValue
      ensures lastTransaction == ActionsDisabled
    {
      PerformConfigurationUpdate(newValue, false, 0.0, false);
    }

    /**
      `setEntryFraction`: replaces the entry fraction, and the leaving
      fraction when one is given, and applies the result.
     */
    method SetEntryFraction(entryFraction: real, leavingFraction: Option<real> := None,
                            animated: bool := true, duration: real := DefaultDuration, hasTimingFunction: bool := false)
      requires OnUnitCircle(direction)
      modifies this
      ensures Valid()
      ensures storedConfiguration == old(storedConfiguration).(
        entryFraction := entryFraction,
        leavingFraction := if leavingFraction.Some? then leavingFraction.value else old(storedConfiguration.leavingFraction))
      ensures lastTransaction == if animated then Animated(duration, hasTimingFunction) else ActionsDisabled
    {
      var next := storedConfiguration.(entryFraction := entryFraction);
      if leavingFraction.Some? {
        next := next.(leavingFraction := leavingFraction.value);
      }
      PerformConfigurationUpdate(next, animated, duration, hasTimingFunction);
    }

    /** `setDirectionAngle`: replaces only the direction and applies the result. */
    method SetDirectionAngle(angle: real, animated: bool := false, duration: real := DefaultDuration)
      requires OnUnitCircle(direction)
      modifies this
      ensures Valid()
      ensures storedConfiguration == old(storedConfiguration).(directionAngle := angle)
      ensures lastTransaction == if animated then Animated(duration, false) else ActionsDisabled
    {
      PerformConfigurationUpdate(storedConfiguration.(directionAngle := angle), animated, duration, false);
    }

    /** `setFeatherFraction`: replaces only the requested feather and applies the result. */
    method SetFeatherFraction(feather: real, animated: bool := false, duration: real := DefaultDuration)
      requires OnUnitCircle(direction)
      modifies this
      ensures Valid()
      ensures storedConfiguration == old(storedConfiguration).(featherFraction := feather)
      ensures lastTransaction == if animated then Animated(duration, false) else ActionsDisabled
    {
      PerformConfigurationUpdate(storedConfiguration.(featherFraction := feather), animated, duration, false);
    }

    /**
      `performConfigurationUpdate`: stores the configuration as given,
      unsanitised, keeps an animation context only for an animated update,
      and applies it.
     */
    method PerformConfigurationUpdate(newValue: Configuration, animated: bool, duration: real, hasTimingFunction: bool)
      requires OnUnitCircle(direction)
      modifies this
      ensures Valid()
      ensures storedConfiguration == newValue
      ensures lastTransaction == if animated then Animated(duration, hasTimingFunction) else ActionsDisabled
    {
      storedConfiguration := newValue;
      if animated {
        pendingAnimationContext := Some(AnimationContext(duration, hasTimingFunction));
      } else {
        pendingAnimationContext := None;
      }
      ApplyConfiguration(animated);
    }

    /**
      `applyConfiguration`: writes the stops, colours and end points of the
      stored configuration to the mask, animated with the pending context
      when asked to and one is pending and with actions disabled otherwise,
      then drops the context.
     */
    method ApplyConfiguration(animated: bool)
      modifies this`locations, this`colors, this`startPoint, this`endPoint
      modifies this`lastTransaction, this`pendingAnimationContext
      ensures MaskShows(storedConfiguration) && pendingAnimationContext.None?
      ensures lastTransaction ==
        if animated && old(pendingAnimationContext).Some?
        then Animated(old(pendingAnimationContext).value.duration, old(pendingAnimationContext).value.hasTimingFunction)
        else ActionsDisabled
    {
      var parameters := SanitizedParameters(storedConfiguration);
      var stops := Stops(parameters);
      var points := GradientPoints(parameters.directionAngle, direction);
      if animated && pendingAnimationContext.Some? {
        var context := pendingAnimationContext.value;
        lastTransaction := Animated(context.duration, context.hasTimingFunction);
      } else {
        lastTransaction := ActionsDisabled;
      }
      locations := stops;
      colors := MaskColors();
      startPoint, endPoint := points.start, points.end;
      pendingAnimationContext := None;
    }
  }

  /**
    Between updates the mask's gradient axis has length 1 and both of its
    ends lie in the unit square.
   */
  lemma MaskAxisInUnitSquare(view: SweepBandContainerView)
    requires view.Valid()
    ensures var axis := view.endPoint.Minus(view.startPoint);
      && axis.x * axis.x + axis.y * axis.y == 1.0
      && 0.0 <= view.startPoint.x <= 1.0 && 0.0 <= view.startPoint.y <= 1.0
      && 0.0 <= view.endPoint.x <= 1.0 && 0.0 <= view.endPoint.y <= 1.0
  {
    GradientAxisOnUnitCircle(view.storedConfiguration.directionAngle, view.direction);
  }
}
