/**
  The shimmer grid renderer (`ShimmerGridPointsView.Renderer`): a regular
  lattice of points 16 pixels apart inside an 8-pixel margin, laid out row by
  row, with a checkerboard of two shape types, random per-point size, blur,
  jitter phases and intensity, and wave phases that grow along rows and
  columns; and the frame clock `draw` keeps.

  Metal objects are reduced to whether they exist; the point buffer to the
  points written into it. Each point's random draws are an input.
 */
module ShimmerGrid {
  import opened Support
  import RowMajor

  const Spacing: real := 16.0
  const Margin: real := 8.0

  /** `Float.pi * 2` in single precision. */
  const TwoPi: real := 6.283185482025146484375

  /** `GridPoint`: origin, jitter phases, (radius, blur), (type, intensity), (row phase, column phase). */
  datatype GridPoint = GridPoint(origin: Vec2, jitter: Vec2, size: Vec2, props: Vec2, wave: Vec2)

  /** The random draws of one point. */
  datatype PointDraw = PointDraw(radius: real, blur: real, jitterX: real, jitterY: real, baseIntensity: real)

  /** The ranges `Float.random(in:)` draws from. */
  predicate ValidPointDraw(d: PointDraw)
  {
    && 4.0 <= d.radius <= 8.0
    && 0.08 <= d.blur <= 0.25
    && 0.0 <= d.jitterX < TwoPi && 0.0 <= d.jitterY < TwoPi
    && 0.6 <= d.baseIntensity <= 0.9
  }

  ghost predicate ValidPointDraws(draws: (nat, nat) -> PointDraw)
  {
    forall r, c :: ValidPointDraw(draws(r, c))
  }

  /** How many columns (or rows) fit along a drawable extent: at least one. */
  function LatticeCount(extent: real): (n: int)
    ensures n >= 1
    ensures extent >= Margin * 2.0 + Spacing ==> Margin * 2.0 + n as real * Spacing <= extent
  {
    IntMax(1, TruncateToInt((extent - Margin * 2.0) / Spacing))
  }

  /** Every lattice count is the largest number of whole spacings that fit inside the margins, but never below one. */
  lemma LatticeCountFits(extent: real)
    ensures var n := LatticeCount(extent);
      && n >= 1
      && (n > 1 ==> Margin * 2.0 + n as real * Spacing <= extent)
      && Margin * 2.0 + (n + 1) as real * Spacing > extent
  {
  }

  /** The point `regenerateGrid` builds at row `r`, column `c`. */
  function MakeGridPoint(r: nat, c: nat, d: PointDraw): GridPoint
  {
    var kind := if (r + c) % 2 == 0 then 0.0 else 1.0;
    GridPoint(
      Vec2(Margin + c as real * Spacing, Margin + r as real * Spacing),
      Vec2(d.jitterX, d.jitterY),
      Vec2(d.radius, d.blur),
      Vec2(kind, d.baseIntensity),
      Vec2(r as real * 0.35, c as real * 0.42))
  }

  /** The cell function of the lattice loops. */
  function PointOf(draws: (nat, nat) -> PointDraw): (nat, nat) -> GridPoint
  {
    (r: nat, c: nat) => MakeGridPoint(r, c, draws(r, c))
  }

  /** The points of a `cols` x `rows` lattice, row by row. */
  function GridPoints(cols: nat, rows: nat, draws: (nat, nat) -> PointDraw): seq<GridPoint>
  {
    RowMajor.Cells(cols, rows, 0, PointOf(draws))
  }

  /**
    The lattice holds rows * cols points, and the one at index r * cols + c
    sits at (8 + 16c, 8 + 16r), has type 0 exactly when r + c is even, and
    carries the wave phases (0.35r, 0.42c).
   */
  lemma {:induction false} GridPointAt(cols: nat, rows: nat, draws: (nat, nat) -> PointDraw, r: nat, c: nat)
    requires r < rows && c < cols
    ensures |GridPoints(cols, rows, draws)| == rows * cols
    ensures r * cols + c < rows * cols
    ensures var p := GridPoints(cols, rows, draws)[r * cols + c];
      && p.origin == Vec2(8.0 + 16.0 * c as real, 8.0 + 16.0 * r as real)
      && (p.props.x == 0.0 <==> (r + c) % 2 == 0)
      && (p.props.x == 1.0 <==> (r + c) % 2 == 1)
      && p.wave == Vec2(0.35 * r as real, 0.42 * c as real)
  {
    RowMajor.CellsLength(cols, rows, 0, PointOf(draws));
    RowMajor.CellsAt(cols, rows, 0, PointOf(draws), r, c);
    assert GridPoints(cols, rows, draws)[r * cols + c] == MakeGridPoint(r, c, draws(r, c));
  }

  /** Horizontally and vertically adjacent points have different shape types. */
  lemma CheckerboardNeighbours(r: nat, c: nat, d1: PointDraw, d2: PointDraw, d3: PointDraw)
    ensures MakeGridPoint(r, c, d1).props.x != MakeGridPoint(r, c + 1, d2).props.x
    ensures MakeGridPoint(r, c, d1).props.x != MakeGridPoint(r + 1, c, d3).props.x
  {
  }

  /** Every point's attributes lie in the ranges they are drawn from. */
  lemma {:induction false} GridPointRanges(cols: nat, rows: nat, draws: (nat, nat) -> PointDraw, i: nat)
    requires ValidPointDraws(draws) && i < |GridPoints(cols, rows, draws)|
    ensures var p := GridPoints(cols, rows, draws)[i];
      && 4.0 <= p.size.x <= 8.0 && 0.08 <= p.size.y <= 0.25
      && 0.6 <= p.props.y <= 0.9
      && 0.0 <= p.jitter.x < TwoPi && 0.0 <= p.jitter.y < TwoPi
  {
    RowMajor.CellsLength(cols, rows, 0, PointOf(draws));
    var r, c := RowMajor.RowColumnOf(cols, rows, i);
    RowMajor.CellsAt(cols, rows, 0, PointOf(draws), r, c);
  }

  /** The nested loops of `regenerateGrid`: one point per cell, appended row by row. */
  method BuildPoints(cols: nat, rows: nat, draws: (nat, nat) -> PointDraw) returns (points: seq<GridPoint>)
    ensures points == GridPoints(cols, rows, draws)
  {
    points := [];
    for r := 0 to rows
      invariant points == RowMajor.Cells(cols, r, 0, PointOf(draws))
    {
      for c := 0 to cols
        invariant points == RowMajor.Cells(cols, r, c, PointOf(draws))
      {
        var x := Margin + c as real * Spacing;
        var y := Margin + r as real * Spacing;
        var kind := if (r + c) % 2 == 0 then 0.0 else 1.0;
        var d := draws(r, c);
        var rowPhase := r as real * 0.35;
        var colPhase := c as real * 0.42;
        points := points + [GridPoint(Vec2(x, y), Vec2(d.jitterX, d.jitterY), Vec2(d.radius, d.blur),
                                      Vec2(kind, d.baseIntensity), Vec2(rowPhase, colPhase))];
      }
    }
  }

  /** How a call to `draw` ended. */
  datatype DrawOutcome =
    | NothingToDraw  // a pipeline, queue or buffer is missing, or there are no points
    | NoDrawable     // no drawable or render pass descriptor
    | NotEncoded     // no command buffer or encoder, after the clock moved
    | Drawn

  class ShimmerGridRenderer {
    var hasDevice: bool
    var hasCommandQueue: bool
    var hasPipeline: bool
    var hasVertexBuffer: bool
    /** The contents of `pointsBuffer`, once it exists. */
    var pointsBuffer: Option<seq<GridPoint>>
    var instanceCount: int
    var drawableSize: Vec2
    var time: real
    var last: Option<real>

    /**
      The instance count is never negative and, once a buffer exists, is the
      number of points in it. A buffer that could not be created leaves the
      count of the points that were generated for it.
     */
    predicate Valid()
      reads this
    {
      && 0 <= instanceCount
      && (pointsBuffer.Some? ==> instanceCount == |pointsBuffer.value|)
    }

    constructor()
      ensures Valid()
      ensures !hasDevice && !hasCommandQueue && !hasPipeline && !hasVertexBuffer && pointsBuffer.None?
      ensures drawableSize == Zero && time == 0.0 && last.None?
    {
      hasDevice, hasCommandQueue, hasPipeline, hasVertexBuffer := false, false, false, false;
      pointsBuffer, instanceCount := None, 0;
      drawableSize, time, last := Zero, 0.0, None;
    }

    /**
      `setup(with:)`: keeps the device, the command queue, pipeline and
      quad vertex buffer that could be created, and regenerates the grid.
     */
    method Setup(queueCreated: bool, pipelineCreated: bool, vertexBufferCreated: bool, draws: (nat, nat) -> PointDraw,
                 bufferCreated: bool)
      requires Valid()
      modifies this
      ensures Valid()
      ensures hasDevice && hasCommandQueue == queueCreated && hasPipeline == pipelineCreated
      ensures hasVertexBuffer == vertexBufferCreated
      ensures drawableSize == old(drawableSize) && time == old(time) && last == old(last)
      ensures Regenerated(old(pointsBuffer), old(instanceCount), draws, bufferCreated)
    {
      hasDevice := true;
      hasCommandQueue := queueCreated;
      hasPipeline := pipelineCreated;
      hasVertexBuffer := vertexBufferCreated;
      RegenerateGrid(draws, bufferCreated);
    }

    /**
      What `regenerateGrid` leaves behind, given the buffer and count before
      it: the lattice for the current drawable size when a device exists
      and both dimensions are positive, and the old buffer and count otherwise.
      The count is set before the buffer is made, so a buffer that cannot be
      created (`bufferCreated` false) leaves no buffer but the new count.
     */
    ghost predicate Regenerated(oldBuffer: Option<seq<GridPoint>>, oldCount: int, draws: (nat, nat) -> PointDraw,
                                bufferCreated: bool)
      reads this
    {
      if hasDevice && drawableSize.x > 0.0 && drawableSize.y > 0.0 then
        var cols := LatticeCount(drawableSize.x);
        var rows := LatticeCount(drawableSize.y);
        && pointsBuffer == (if bufferCreated then Some(GridPoints(cols, rows, draws)) else None)
        && instanceCount == rows * cols
      else
        pointsBuffer == oldBuffer && instanceCount == oldCount
    }

    /**
      `regenerateGrid`: does nothing without a device or with an empty
      drawable; otherwise lays out max(1, Int((w - 16) / 16)) columns by
      max(1, Int((h - 16) / 16)) rows and writes them to the point buffer.
     */
    method RegenerateGrid(draws: (nat, nat) -> PointDraw, bufferCreated: bool)
      requires Valid()
      modifies this`pointsBuffer, this`instanceCount
      ensures Valid()
      ensures Regenerated(old(pointsBuffer), old(instanceCount), draws, bufferCreated)
    {
      if !(hasDevice && drawableSize.x > 0.0 && drawableSize.y > 0.0) {
        return;
      }
      var cols := LatticeCount(drawableSize.x);
      var rows := LatticeCount(drawableSize.y);
      var points := BuildPoints(cols, rows, draws);
      RowMajor.CellsLength(cols, rows, 0, PointOf(draws));
      instanceCount := |points|;
      pointsBuffer := if bufferCreated then Some(points) else None;
    }

    /**
      `updateDrawableSize`: stores the new size, forgets the previous frame
      time so the clock restarts, and regenerates the grid.
     */
    method UpdateDrawableSize(width: real, height: real, draws: (nat, nat) -> PointDraw, bufferCreated: bool)
      requires Valid()
      modifies this`drawableSize, this`last, this`pointsBuffer, this`instanceCount
      ensures Valid()
      ensures drawableSize == Vec2(width, height) && last.None?
      ensures Regenerated(old(pointsBuffer), old(instanceCount), draws, bufferCreated)
    {
      drawableSize := Vec2(width, height);
      last := None;
      RegenerateGrid(draws, bufferCreated);
    }

    /** Whether `draw` gets past its first guard. */
    predicate CanDraw()
      reads this
    {
      hasPipeline && hasCommandQueue && hasVertexBuffer && pointsBuffer.Some? && instanceCount > 0
    }

    /**
      `draw` (control flow and clock only): with every resource present,
      some points and a drawable, the frame clock restarts at 0 if there
      was no previous frame and otherwise grows by the wall-clock gap.
     */
    method Draw(now: real, hasDrawable: bool, canEncode: bool) returns (outcome: DrawOutcome)
      modifies this`time, this`last
      ensures !old(CanDraw()) ==> outcome == NothingToDraw
      ensures old(CanDraw()) && !hasDrawable ==> outcome == NoDrawable
      ensures old(CanDraw()) && hasDrawable ==> outcome == (if canEncode then Drawn else NotEncoded)
      ensures outcome in {NothingToDraw, NoDrawable} ==> time == old(time) && last == old(last)
      ensures outcome in {NotEncoded, Drawn} ==>
        && time == (if old(last).Some? then old(time) + (now - old(last).value) else 0.0)
        && last == Some(now)
    {
      if !CanDraw() {
        return NothingToDraw;
      }
      if !hasDrawable {
        return NoDrawable;
      }
      if last.Some? {
        time := time + (now - last.value);
      } else {
        time := 0.0;
      }
      last := Some(now);
      outcome := if canEncode then Drawn else NotEncoded;
    }
  }

  /**
    After a resize, the next frame that gets past its guards starts the
    clock at 0, and the frame after it advances it by exactly the gap
    between the two.
   */
  method ResizeRestartsClock(r: ShimmerGridRenderer, width: real, height: real, draws: (nat, nat) -> PointDraw,
                             bufferCreated: bool, now1: real, now2: real)
    returns (first: DrawOutcome, second: DrawOutcome, time1: real, time2: real)
    requires r.Valid()
    modifies r
    ensures first == Drawn ==> time1 == 0.0 && second == Drawn && time2 == now2 - now1
  {
    r.UpdateDrawableSize(width, height, draws, bufferCreated);
    first := r.Draw(now1, true, true);
    time1 := r.time;
    second := r.Draw(now2, true, true);
    time2 := r.time;
  }
}
