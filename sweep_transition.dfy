/**
  The earlier sweep view (`SweepTransitionView` in its own file): the same
  configuration, setters and gradient axis as the band container, but the
  band is computed inline in `applyConfiguration` and the mask colours are
  grey levels at full alpha instead of white at varying alpha. The two
  files declare the same type name, so they are separate modules here.
 */
module SweepTransition {
  import opened Support
  import opened SweepBandContainer

  /** The band edges `applyConfiguration` computes. */
  datatype Band = Band(lower: real, upper: real, lowerEdgeEnd: real, upperEdgeStart: real)

  /** The band arithmetic of `applyConfiguration`. */
  function BandOf(config: Configuration): (band: Band)
    ensures 0.0 <= band.lower <= band.lowerEdgeEnd <= band.upperEdgeStart <= band.upper <= 1.0
  {
    var entry := Clamped(config.entryFraction, 0.0, 1.0);
    var leaving := Clamped(config.leavingFraction, 0.0, 1.0);
    var lower := Min(entry, leaving);
    var upper := Max(entry, leaving);
    var span := Max(upper - lower, 0.0001);
    var maxFeather := span / 2.0;
    var requestedFeather := Clamped(config.featherFraction, 0.0, 0.5);
    var feather := Min(maxFeather, requestedFeather);
    var lowerEdgeEnd := Min(lower + feather, upper);
    var upperEdgeStart := Max(upper - feather, lowerEdgeEnd);
    Band(lower, upper, lowerEdgeEnd, upperEdgeStart)
  }

  /** The inline band is the band container's sanitised band, edge for edge. */
  lemma BandMatchesContainer(config: Configuration)
    ensures var band := BandOf(config);
      var p := SanitizedParameters(config);
      && band.lower == p.lower && band.upper == p.upper
      && band.lowerEdgeEnd == p.lowerFeatherEnd && band.upperEdgeStart == p.upperFeatherStart
  {
  }

  /**
    The feather applied lies in [0, min(span / 2, 0.5)], and the band does
    not depend on which edge fraction is the entry and which the leaving one.
   */
  lemma BandFeatherAndSymmetry(config: Configuration)
    ensures 0.0 <= BandOf(config).lowerEdgeEnd - BandOf(config).lower <= Min(Span(config) / 2.0, 0.5)
    ensures 0.0 <= BandOf(config).upper - BandOf(config).upperEdgeStart <= Min(Span(config) / 2.0, 0.5)
    ensures BandOf(config.(entryFraction := config.leavingFraction, leavingFraction := config.entryFraction)) == BandOf(config)
  {
    var swapped := config.(entryFraction := config.leavingFraction, leavingFraction := config.entryFraction);
    BandMatchesContainer(config);
    BandMatchesContainer(swapped);
    SwapEdgesSameBand(config);
    FeatherBounds(config);
  }

  /** The six gradient locations of a band. */
  function BandStops(band: Band): (stops: seq<real>)
    ensures |stops| == 6
  {
    [0.0, band.lower, band.lowerEdgeEnd, band.upperEdgeStart, band.upper, 1.0]
  }

  /** The white level of each gradient location. */
  const MaskWhites: seq<real> := [0.0, 0.0, 1.0, 1.0, 0.0, 0.0]

  /** `maskColor(_:)` over the six levels: grey levels, all at alpha 1. */
  function GreyMaskColors(): (colors: seq<MaskColor>)
    ensures |colors| == 6
  {
    seq(6, i requires 0 <= i < 6 => MaskColor(MaskWhites[i], 1.0))
  }

  /**
    The colours carry the band in their white level, not in their alpha:
    every colour is fully opaque, white exactly at the two inner edges and
    black elsewhere, and each differs from the band container's colour at
    the same location except at those two edges.
   */
  lemma GreyMaskLevels()
    ensures forall i :: 0 <= i < 6 ==>
      && GreyMaskColors()[i].alpha == 1.0
      && (GreyMaskColors()[i].white == 1.0 <==> 2 <= i <= 3)
      && (GreyMaskColors()[i] == MaskColors()[i] <==> 2 <= i <= 3)
  {
  }

  class SweepTransitionView {
    var storedConfiguration: Configuration
    var pendingAnimationContext: Option<AnimationContext>
    /** The gradient layer's `locations`, `colors`, `startPoint` and `endPoint`. */
    var locations: seq<real>
    var colors: seq<MaskColor>
    var startPoint: Vec2
    var endPoint: Vec2
    /** The transaction of the most recent mask update. */
    var lastTransaction: Transaction
    /** (cos, sin) of an angle in radians. */
    const direction: real -> Vec2

    /** The mask layer shows the band of `config`. */
    predicate MaskShows(config: Configuration)
      reads this
    {
      var points := GradientPoints(config.directionAngle, direction);
      && locations == BandStops(BandOf(config))
      && colors == GreyMaskColors()
      && startPoint == points.start && endPoint == points.end
    }

    /**
      Between updates the mask shows the stored configuration and no
      animation is pending; `direction` is a cosine and sine pair.
     */
    ghost predicate Valid()
      reads this
    {
      OnUnitCircle(direction) && MaskShows(storedConfiguration) && pendingAnimationContext.None?
    }

    /** `init(frame:)` and `commonInit`: the default configuration applied without animation. */
    constructor(direction: real -> Vec2)
      requires OnUnitCircle(direction)
      ensures Valid()
      ensures storedConfiguration == Configuration() && lastTransaction == ActionsDisabled
      ensures this.direction == direction
    {
      this.direction := direction;
      storedConfiguration := Configuration();
      pendingAnimationContext := None;
      locations, colors, startPoint, endPoint := [], [], Zero, Zero;
      lastTransaction := ActionsDisabled;
      new;
      ApplyConfiguration(false);
    }

    /**
      The `configuration` setter: stores the value and applies it without
      animation, leaving any pending context for the mask update to drop.
     */
    method SetConfiguration(newValue: Configuration)
      requires OnUnitCircle(direction)
      modifies this
      ensures Valid()
      ensures storedConfiguration == newValue
      ensures lastTransaction == ActionsDisabled
    {
      storedConfiguration := newValue;
      ApplyConfiguration(false);
    }

    /** `setEntryFraction`: replaces the entry fraction, and the leaving fraction when one is given. */
    method SetEntryFraction(entryFraction: real, leavingFraction: Option<real> := None,
                            animated: bool := true, duration: real := DefaultDuration, hasTimingFunction: bool := false)
      requires OnUnitCircle(direction)
      modifies this
      ensures Valid()
      ensures storedConfiguration == old(storedConfiguration).(
        entryFraction := entryFraction,
        leavingFraction := if leavingFraction.Some? then leavingFraction.value else old(storedConfiguration.leavingFraction))
      ensures lastTransaction == if animated then Animated(duration, hasTimingFunction) else ActionsDisabled
    {
      var next := storedConfiguration.(entryFraction := entryFraction);
      if leavingFraction.Some? {
        next := next.(leavingFraction := leavingFraction.value);
      }
      PerformConfigurationUpdate(next, animated, duration, hasTimingFunction);
    }

    /** `setDirectionAngle`: replaces only the direction. */
    method SetDirectionAngle(angle: real, animated: bool := false, duration: real := DefaultDuration)
      requires OnUnitCircle(direction)
      modifies this
      ensures Valid()
      ensures storedConfiguration == old(storedConfiguration).(directionAngle := angle)
      ensures lastTransaction == if animated then Animated(duration, false) else ActionsDisabled
    {
      PerformConfigurationUpdate(storedConfiguration.(directionAngle := angle), animated, duration, false);
    }

    /** `setFeatherFraction`: replaces only the requested feather. */
    method SetFeatherFraction(feather: real, animated: bool := false, duration: real := DefaultDuration)
      requires OnUnitCircle(direction)
      modifies this
      ensures Valid()
      ensures storedConfiguration == old(storedConfiguration).(featherFraction := feather)
      ensures lastTransaction == if animated then Animated(duration, false) else ActionsDisabled
    {
      PerformConfigurationUpdate(storedConfiguration.(featherFraction := feather), animated, duration, false);
    }

    /**
      `performConfigurationUpdate`: keeps an animation context only for an
      animated update, then stores the configuration and applies it.
     */
    method PerformConfigurationUpdate(newValue: Configuration, animated: bool, duration: real, hasTimingFunction: bool)
      requires OnUnitCircle(direction)
      modifies this
      ensures Valid()
      ensures storedConfiguration == newValue
      ensures lastTransaction == if animated then Animated(duration, hasTimingFunction) else ActionsDisabled
    {
      if animated {
        pendingAnimationContext := Some(AnimationContext(duration, hasTimingFunction));
      } else {
        pendingAnimationContext := None;
      }
      storedConfiguration := newValue;
      ApplyConfiguration(animated);
    }

    /**
      `applyConfiguration`: writes the band's stops, the grey colours and
      the end points to the mask, animated with the pending context when
      asked to and one is pending and with actions disabled otherwise, then
      drops the context.
     */
    method ApplyConfiguration(animated: bool)
      modifies this`locations, this`colors, this`startPoint, this`endPoint
      modifies this`lastTransaction, this`pendingAnimationContext
      ensures MaskShows(storedConfiguration) && pendingAnimationContext.None?
      ensures lastTransaction ==
        if animated && old(pendingAnimationContext).Some?
        then Animated(old(pendingAnimationContext).value.duration, old(pendingAnimationContext).value.hasTimingFunction)
        else ActionsDisabled
    {
      var band := BandOf(storedConfiguration);
      var points := GradientPoints(storedConfiguration.directionAngle, direction);
      if animated && pendingAnimationContext.Some? {
        var context := pendingAnimationContext.value;
        lastTransaction := Animated(context.duration, context.hasTimingFunction);
      } else {
        lastTransaction := ActionsDisabled;
      }
      locations := BandStops(band);
      colors := GreyMaskColors();
      startPoint, endPoint := points.start, points.end;
      pendingAnimationContext := None;
    }
  }

  /**
    Between updates the mask's gradient axis has length 1 and both of its
    ends lie in the unit square.
   */
  lemma TransitionMaskAxisInUnitSquare(view: SweepTransitionView)
    requires view.Valid()
    ensures var axis := view.endPoint.Minus(view.startPoint);
      && axis.x * axis.x + axis.y * axis.y == 1.0
      && 0.0 <= view.startPoint.x <= 1.0 && 0.0 <= view.startPoint.y <= 1.0
      && 0.0 <= view.endPoint.x <= 1.0 && 0.0 <= view.endPoint.y <= 1.0
  {
    GradientAxisOnUnitCircle(view.storedConfiguration.directionAngle, view.direction);
  }
}
