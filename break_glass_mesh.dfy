/**
  The fracture mesh of the break-glass transition (`setupGeometry` in
  BreakGlassView+Renderer.swift): a lattice of at least 3 x 3 cells whose
  border points are fixed and whose interior points are jittered, one shard
  per cell, six vertices per shard.

  Every `Float.random` / `Bool.random` the generation draws is an input: the
  grid jitter is a function of the lattice point, and the other draws of a
  cell are a `ShardDraw`. The results of `simd_length`, `normalizeSafe` and
  `powf(_, 0.6)` come from a `Geometry` whose functions are only known to
  keep their ranges and their monotonicity.
 */
module BreakGlassMesh {
  import opened Support
  import opened BreakGlassShard
  import RowMajor

  /** One vertex of the shard mesh (`Vertex`). */
  datatype Vertex = Vertex(localPosition: Vec2, uv: Vec2, shardIndex: nat)

  /** The size of the captured frame and the lattice laid over it. */
  datatype MeshLayout = MeshLayout(width: real, height: real, columnCount: nat, rowCount: nat)

  /** A lattice of at least 3 x 3 cells over a frame at least 1 x 1 point large. */
  type Layout = m: MeshLayout | m.width >= 1.0 && m.height >= 1.0 && m.columnCount >= 3 && m.rowCount >= 3
    witness MeshLayout(1.0, 1.0, 3, 3)

  /** `max(extent, 1)`: the frame size the mesh is laid over. */
  function SafeExtent(extent: real): (r: real)
    ensures r >= 1.0
    ensures extent >= 1.0 ==> r == extent
  {
    Max(extent, 1.0)
  }

  /**
    The lattice for a target frame and a requested fracture count:
    `columnRoot` is `sqrt(fractureCount * safeWidth / safeHeight)` rounded to
    the column count, then `fractureCount / columns` rounded to the row
    count, never fewer than three of either.
   */
  function MakeLayout(width: real, height: real, fractureCount: int, columnRoot: real): Layout
  {
    var columns := IntMax(3, RoundToInt(columnRoot));
    var rows := IntMax(3, RoundToInt(fractureCount as real / columns as real));
    var columnCount := IntMax(columns, 3);
    var rowCount := IntMax(rows, 3);
    MeshLayout(SafeExtent(width), SafeExtent(height), columnCount, rowCount)
  }

  /** `columnRoot` is `sqrt(fractureCount * safeWidth / safeHeight)`. */
  predicate IsColumnRoot(columnRoot: real, fractureCount: int, width: real, height: real)
  {
    0.0 <= columnRoot && columnRoot * columnRoot == fractureCount as real * (SafeExtent(width) / SafeExtent(height))
  }

  /**
    The lattice covers the frame at no less than 1 x 1; it has the nearest
    whole number of columns to the root and the nearest whole number of rows
    to the fractures per column, and three of either where those are smaller.
   */
  lemma LayoutRounding(width: real, height: real, fractureCount: int, columnRoot: real)
    ensures var m := MakeLayout(width, height, fractureCount, columnRoot);
      && m.width == SafeExtent(width) && m.height == SafeExtent(height)
      && (columnRoot >= 2.5 ==> m.columnCount as real - 0.5 <= columnRoot <= m.columnCount as real + 0.5)
      && (columnRoot < 2.5 ==> m.columnCount == 3)
      && var perColumn := fractureCount as real / m.columnCount as real;
      && (perColumn >= 2.5 ==> m.rowCount as real - 0.5 <= perColumn <= m.rowCount as real + 0.5)
      && (perColumn < 2.5 ==> m.rowCount == 3)
  {
  }

  /**
    With at least three columns from the rounding, the square of the column
    count is within a column count plus a quarter of fractureCount * aspect.
   */
  lemma ColumnsFromRoot(width: real, height: real, fractureCount: int, columnRoot: real)
    requires IsColumnRoot(columnRoot, fractureCount, width, height) && columnRoot >= 2.5
    ensures var n := MakeLayout(width, height, fractureCount, columnRoot).columnCount as real;
      var target := fractureCount as real * (SafeExtent(width) / SafeExtent(height));
      n * n - n + 0.25 <= target <= n * n + n + 0.25
  {
    var n := MakeLayout(width, height, fractureCount, columnRoot).columnCount as real;
    LayoutRounding(width, height, fractureCount, columnRoot);
    assert n - 0.5 <= columnRoot <= n + 0.5;
    assert 0.0 <= n - 0.5;
    assert (n - 0.5) * (n - 0.5) <= columnRoot * columnRoot by {
      ProductMonotonic(n - 0.5, columnRoot);
    }
    assert columnRoot * columnRoot <= (n + 0.5) * (n + 0.5) by {
      ProductMonotonic(columnRoot, n + 0.5);
    }
  }

  lemma ProductMonotonic(a: real, b: real)
    requires 0.0 <= a <= b
    ensures a * a <= b * b
  {
  }

  function CellWidth(m: Layout): real
  {
    m.width / m.columnCount as real
  }

  function CellHeight(m: Layout): real
  {
    m.height / m.rowCount as real
  }

  /** Lattice points on the outer rows and columns are never jittered. */
  predicate IsBoundary(m: Layout, row: nat, column: nat)
  {
    row == 0 || row == m.rowCount || column == 0 || column == m.columnCount
  }

  /** The unjittered position of lattice point (row, column). */
  function BasePoint(m: Layout, row: nat, column: nat): Vec2
  {
    Vec2(column as real * CellWidth(m), row as real * CellHeight(m))
  }

  /** A jitter drawn from a quarter of a cell either way on each axis. */
  predicate JitterInRange(m: Layout, jitter: Vec2)
  {
    && -CellWidth(m) * 0.25 <= jitter.x <= CellWidth(m) * 0.25
    && -CellHeight(m) * 0.25 <= jitter.y <= CellHeight(m) * 0.25
  }

  ghost predicate ValidJitter(m: Layout, jitter: (nat, nat) -> Vec2)
  {
    forall row: nat, column: nat :: JitterInRange(m, jitter(row, column))
  }

  /** Lattice point (row, column) as `setupGeometry` stores it in `gridPoints`. */
  function GridPointAt(m: Layout, jitter: (nat, nat) -> Vec2, row: nat, column: nat): Vec2
  {
    var base := BasePoint(m, row, column);
    var offset := if IsBoundary(m, row, column) then Zero else jitter(row, column);
    base.Plus(offset)
  }

  /**
    Border points sit exactly on the lattice, so the outer corners are (0, 0)
    and (width, height); interior points stay within a quarter cell of
    theirs on each axis.
   */
  lemma GridPointPlacement(m: Layout, jitter: (nat, nat) -> Vec2, row: nat, column: nat)
    requires ValidJitter(m, jitter)
    ensures IsBoundary(m, row, column) ==> GridPointAt(m, jitter, row, column) == BasePoint(m, row, column)
    ensures GridPointAt(m, jitter, 0, 0) == Vec2(0.0, 0.0)
    ensures GridPointAt(m, jitter, m.rowCount, m.columnCount) == Vec2(m.width, m.height)
    ensures var p, b := GridPointAt(m, jitter, row, column), BasePoint(m, row, column);
      && b.x - CellWidth(m) * 0.25 <= p.x <= b.x + CellWidth(m) * 0.25
      && b.y - CellHeight(m) * 0.25 <= p.y <= b.y + CellHeight(m) * 0.25
  {
    OuterCorner(m, jitter);
    var offset := if IsBoundary(m, row, column) then Zero else jitter(row, column);
    assert JitterInRange(m, offset) by {
      if IsBoundary(m, row, column) {
        CellSizesPositive(m);
      } else {
        assert JitterInRange(m, jitter(row, column));
      }
    }
    assert GridPointAt(m, jitter, row, column) == BasePoint(m, row, column).Plus(offset);
  }

  lemma CellSizesPositive(m: Layout)
    ensures 0.0 < CellWidth(m) && 0.0 < CellHeight(m)
  {
  }

  lemma OuterCorner(m: Layout, jitter: (nat, nat) -> Vec2)
    ensures GridPointAt(m, jitter, 0, 0) == Vec2(0.0, 0.0)
    ensures GridPointAt(m, jitter, m.rowCount, m.columnCount) == Vec2(m.width, m.height)
  {
    CellsSpanExtent(m.width, m.columnCount);
    CellsSpanExtent(m.height, m.rowCount);
    assert IsBoundary(m, m.rowCount, m.columnCount);
    var b := BasePoint(m, m.rowCount, m.columnCount);
    assert b.x == m.width && b.y == m.height;
    assert GridPointAt(m, jitter, m.rowCount, m.columnCount) == b.Plus(Zero);
  }

  lemma CellsSpanExtent(extent: real, count: nat)
    requires count > 0
    ensures count as real * (extent / count as real) == extent
  {
  }

  /**
    One coordinate of lattice point k of `count` over `extent`, moved by at
    most a quarter cell and not at all on the border, stays in [0, extent].
   */
  lemma CoordinateInFrame(k: nat, count: nat, extent: real, j: real)
    requires count >= 1 && extent > 0.0 && k <= count
    requires k == 0 || k == count ==> j == 0.0
    requires -(extent / count as real) * 0.25 <= j <= (extent / count as real) * 0.25
    ensures 0.0 <= k as real * (extent / count as real) + j <= extent
  {
    var cell := extent / count as real;
    CellsSpanExtent(extent, count);
    if 0 < k < count {
      ProductNonNegative((k - 1) as real, cell);
      ProductNonNegative((count - 1 - k) as real, cell);
    }
  }

  /** Every lattice point lies in the frame. */
  lemma GridPointInFrame(m: Layout, jitter: (nat, nat) -> Vec2, row: nat, column: nat)
    requires ValidJitter(m, jitter) && row <= m.rowCount && column <= m.columnCount
    ensures var p := GridPointAt(m, jitter, row, column);
      0.0 <= p.x <= m.width && 0.0 <= p.y <= m.height
  {
    var offset := if IsBoundary(m, row, column) then Zero else jitter(row, column);
    assert JitterInRange(m, offset) by {
      if IsBoundary(m, row, column) {
        CellSizesPositive(m);
      } else {
        assert JitterInRange(m, jitter(row, column));
      }
    }
    CoordinateInFrame(column, m.columnCount, m.width, offset.x);
    CoordinateInFrame(row, m.rowCount, m.height, offset.y);
  }

  /** The centroid of every cell lies in the frame. */
  lemma CentroidInFrame(m: Layout, jitter: (nat, nat) -> Vec2, row: nat, column: nat)
    requires ValidJitter(m, jitter) && row < m.rowCount && column < m.columnCount
    ensures var c := Centroid(CellQuad(m, jitter, row, column));
      0.0 <= c.x <= m.width && 0.0 <= c.y <= m.height
  {
    GridPointInFrame(m, jitter, row, column);
    GridPointInFrame(m, jitter, row, column + 1);
    GridPointInFrame(m, jitter, row + 1, column);
    GridPointInFrame(m, jitter, row + 1, column + 1);
  }

  /** A point of the frame is no farther from its centre than `maxDistance`. */
  lemma InFrameWithinMaxDistance(m: Layout, g: Geometry, p: Vec2)
    requires ValidGeometry(g) && 0.0 <= p.x <= m.width && 0.0 <= p.y <= m.height
    ensures g.length(p.Minus(FrameCenter(m))) <= MaxDistance(m, g)
  {
    var center := FrameCenter(m);
    var offset := p.Minus(center);
    assert -center.x <= offset.x <= center.x && -center.y <= offset.y <= center.y;
    assert g.length(offset) <= g.length(center);
  }

  /** The first nested loop of `setupGeometry`: the (rows + 1) x (columns + 1) lattice. */
  method FillGridPoints(m: Layout, jitter: (nat, nat) -> Vec2) returns (grid: array2<Vec2>)
    ensures fresh(grid)
    ensures grid.Length0 == m.rowCount + 1 && grid.Length1 == m.columnCount + 1
    ensures forall row, column :: 0 <= row <= m.rowCount && 0 <= column <= m.columnCount ==>
      grid[row, column] == GridPointAt(m, jitter, row, column)
  {
    grid := new Vec2[m.rowCount + 1, m.columnCount + 1]((_, _) => Zero);
    for row := 0 to m.rowCount + 1
      invariant forall r, c :: 0 <= r < row && 0 <= c <= m.columnCount ==> grid[r, c] == GridPointAt(m, jitter, r, c)
    {
      for column := 0 to m.columnCount + 1
        invariant forall r, c :: 0 <= r < row && 0 <= c <= m.columnCount ==> grid[r, c] == GridPointAt(m, jitter, r, c)
        invariant forall c :: 0 <= c < column ==> grid[row, c] == GridPointAt(m, jitter, row, c)
      {
        var isBoundary := row == 0 || row == m.rowCount || column == 0 || column == m.columnCount;
        var baseX := column as real * CellWidth(m);
        var baseY := row as real * CellHeight(m);
        var jitterX := if isBoundary then 0.0 else jitter(row, column).x;
        var jitterY := if isBoundary then 0.0 else jitter(row, column).y;
        grid[row, column] := Vec2(baseX + jitterX, baseY + jitterY);
      }
    }
  }

  /** The four lattice points around one cell. */
  datatype Quad = Quad(p00: Vec2, p10: Vec2, p01: Vec2, p11: Vec2)

  function CellQuad(m: Layout, jitter: (nat, nat) -> Vec2, row: nat, column: nat): Quad
  {
    Quad(GridPointAt(m, jitter, row, column), GridPointAt(m, jitter, row, column + 1),
         GridPointAt(m, jitter, row + 1, column), GridPointAt(m, jitter, row + 1, column + 1))
  }

  /** Neighbouring cells share their common corners, and hence their common edges. */
  lemma NeighbouringCellsShareCorners(m: Layout, jitter: (nat, nat) -> Vec2, row: nat, column: nat)
    ensures CellQuad(m, jitter, row, column).p10 == CellQuad(m, jitter, row, column + 1).p00
    ensures CellQuad(m, jitter, row, column).p11 == CellQuad(m, jitter, row, column + 1).p01
    ensures CellQuad(m, jitter, row, column).p01 == CellQuad(m, jitter, row + 1, column).p00
    ensures CellQuad(m, jitter, row, column).p11 == CellQuad(m, jitter, row + 1, column).p10
  {
  }

  /** The mean of the four corners. */
  function Centroid(q: Quad): Vec2
  {
    Zero.Plus(q.p00).Plus(q.p10).Plus(q.p01).Plus(q.p11).DividedBy(4.0)
  }

  /** The corners, taken relative to the centroid, balance out. */
  lemma CentroidBalances(q: Quad)
    ensures var c := Centroid(q);
      q.p00.Minus(c).Plus(q.p10.Minus(c)).Plus(q.p01.Minus(c)).Plus(q.p11.Minus(c)) == Zero
  {
  }

  /**
    The cell split into two triangles: along the p00-p11 diagonal when
    `useDiagonal`, along p10-p01 otherwise.
   */
  function TrianglePoints(q: Quad, useDiagonal: bool): (points: seq<Vec2>)
    ensures |points| == 6
    ensures points[0] == q.p00 && points[1] == q.p10
    ensures forall k :: 0 <= k < 6 ==> points[k] in {q.p00, q.p10, q.p01, q.p11}
    ensures {q.p00, q.p10, q.p01, q.p11} <= set k | 0 <= k < 6 :: points[k]
    ensures useDiagonal ==> q.p00 in points[..3] && q.p11 in points[..3] && q.p00 in points[3..] && q.p11 in points[3..]
    ensures !useDiagonal ==> q.p10 in points[..3] && q.p01 in points[..3] && q.p10 in points[3..] && q.p01 in points[3..]
  {
    if useDiagonal then
      var points := [q.p00, q.p10, q.p11, q.p00, q.p11, q.p01];
      assert points[..3] == [q.p00, q.p10, q.p11] && points[3..] == [q.p00, q.p11, q.p01];
      assert q.p01 == points[5] && q.p11 == points[2];
      points
    else
      var points := [q.p00, q.p10, q.p01, q.p10, q.p11, q.p01];
      assert points[..3] == [q.p00, q.p10, q.p01] && points[3..] == [q.p10, q.p11, q.p01];
      assert q.p01 == points[5] && q.p11 == points[4];
      points
  }

  /** The vertex for one triangle point of shard `shardIndex`. */
  function MakeVertex(m: Layout, point: Vec2, centroid: Vec2, shardIndex: nat): (v: Vertex)
    ensures v.localPosition.Plus(centroid) == point
    ensures v.uv.x * m.width == point.x && v.uv.y * m.height == point.y
    ensures v.shardIndex == shardIndex
  {
    Vertex(point.Minus(centroid), Vec2(point.x / m.width, point.y / m.height), shardIndex)
  }

  /** The six vertices a shard contributes, all tagged with its index. */
  function ShardVertices(m: Layout, q: Quad, useDiagonal: bool, shardIndex: nat): (vertices: seq<Vertex>)
    ensures |vertices| == 6
    ensures forall k :: 0 <= k < 6 ==> vertices[k].shardIndex == shardIndex
    ensures forall k :: 0 <= k < 6 ==> vertices[k] == MakeVertex(m, TrianglePoints(q, useDiagonal)[k], Centroid(q), shardIndex)
  {
    var points := TrianglePoints(q, useDiagonal);
    seq(6, k requires 0 <= k < 6 => MakeVertex(m, points[k], Centroid(q), shardIndex))
  }

  /** The results of `simd_length`, `normalizeSafe` and `powf(_, 0.6)`. */
  datatype Geometry = Geometry(length: Vec2 -> real, normalize: Vec2 -> Vec2, radialPower: real -> real)

  /**
    A length is never negative and never shrinks as either coordinate grows
    in magnitude, and a power of a value in [0, 1] stays in [0, 1] and
    grows with the value.
   */
  ghost predicate ValidGeometry(g: Geometry)
  {
    && (forall v :: 0.0 <= g.length(v))
    && (forall u: Vec2, v: Vec2 :: -v.x <= u.x <= v.x && -v.y <= u.y <= v.y ==> g.length(u) <= g.length(v))
    && (forall t :: 0.0 <= t <= 1.0 ==> 0.0 <= g.radialPower(t) <= 1.0)
    && (forall t, u :: 0.0 <= t <= u <= 1.0 ==> g.radialPower(t) <= g.radialPower(u))
  }

  /** The random draws `setupGeometry` makes for one cell. */
  datatype ShardDraw = ShardDraw(
    useDiagonal: bool,
    delayJitter: real,
    speedJitter: real,
    lateralJitter: real,
    gravityX: real,
    accelerationJitter: real,
    angularVelocity: real,
    angularAcceleration: real,
    life: real,
    rotation: real)

  /** Each draw lies in the range `setupGeometry` asks `Float.random` for. */
  predicate ValidShardDraw(d: ShardDraw)
  {
    && 0.0 <= d.delayJitter <= 0.05
    && 0.0 <= d.speedJitter <= 0.5
    && -80.0 <= d.lateralJitter <= 80.0
    && -30.0 <= d.gravityX <= 30.0
    && 0.0 <= d.accelerationJitter <= 60.0
    && -3.0 <= d.angularVelocity <= 3.0
    && -1.5 <= d.angularAcceleration <= 1.5
    && 1.4 <= d.life <= 2.2
    && -0.35 <= d.rotation <= 0.35
  }

  ghost predicate ValidDraws(draws: (nat, nat) -> ShardDraw)
  {
    forall row: nat, column: nat :: ValidShardDraw(draws(row, column))
  }

  /** `perpendicular`: the vector turned a quarter turn counter-clockwise. */
  function Perpendicular(v: Vec2): (p: Vec2)
    ensures p.x * v.x + p.y * v.y == 0.0
    ensures p.x * p.x + p.y * p.y == v.x * v.x + v.y * v.y
  {
    Vec2(-v.y, v.x)
  }

  function FrameCenter(m: Layout): Vec2
  {
    Vec2(m.width / 2.0, m.height / 2.0)
  }

  /** The distance that counts as the edge of the frame, never below 1. */
  function MaxDistance(m: Layout, g: Geometry): (d: real)
    ensures d >= 1.0
  {
    Max(g.length(FrameCenter(m)), 1.0)
  }

  /**
    The shard for one cell: it starts at the cell's centroid with no
    offset, age 0, its drawn spin and rotation, fully opaque at scale 1.
    How its boost, radial opacity and delay depend on its distance from the
    frame centre is `NearerShardsBurstFirst`; the delay's ceiling is
    `DelayCeiling`.
   */
  function MakeShard(q: Quad, frameCenter: Vec2, maxDistance: real, g: Geometry, d: ShardDraw): (s: ShardState)
    requires maxDistance >= 1.0 && ValidGeometry(g) && ValidShardDraw(d)
    ensures WellFormed(s)
    ensures s.center == Centroid(q) && s.offset == Zero
    ensures s.age == 0.0 && s.opacity == 1.0 && s.scale == 1.0
    ensures s.expansionBoost <= 2.65
    ensures s.life == d.life && s.rotation == d.rotation
    ensures s.angularVelocity == d.angularVelocity && s.angularAcceleration == d.angularAcceleration
    ensures s.delay <= 0.18 * (g.length(Centroid(q).Minus(frameCenter)) / maxDistance) + 0.05
  {
    var centroid := Centroid(q);
    var direction := g.normalize(centroid.Minus(frameCenter));
    var distance := g.length(centroid.Minus(frameCenter));
    assert 0.0 <= distance / maxDistance;
    var normalizedDistance := Min(1.0, distance / maxDistance);
    var centerBias := Max(0.0, 1.0 - normalizedDistance);
    var radialOpacity := Max(0.2, g.radialPower(Max(0.0, 1.0 - normalizedDistance)));
    var delay := distance / maxDistance * 0.18 + d.delayJitter;
    var speed := 220.0 * (0.75 + d.speedJitter);
    var radialBoost := 1.0 + centerBias * 1.35;
    var radialVelocity := direction.Times(speed).Times(radialBoost);
    var lateralVariance := d.lateralJitter * (0.6 + (1.0 - centerBias) * 0.4);
    var lateral := Perpendicular(direction).Times(lateralVariance);
    var radialAcceleration := direction.Times(140.0 * centerBias + d.accelerationJitter);
    var gravity := Vec2(d.gravityX, 280.0);
    ShardState(
      center := centroid,
      velocity := radialVelocity.Plus(lateral),
      acceleration := gravity.Plus(radialAcceleration),
      radialDirection := direction,
      expansionBoost := 1.0 + centerBias * 1.65,
      radialOpacity := radialOpacity,
      angularVelocity := d.angularVelocity,
      angularAcceleration := d.angularAcceleration,
      rotation := d.rotation,
      offset := Zero,
      life := d.life,
      age := 0.0,
      delay := delay,
      opacity := 1.0,
      scale := 1.0)
  }

  /**
    Of two cells with the same random draws, the one whose centroid is
    nearer the frame centre gets at least the expansion boost and the radial
    opacity of the farther one, and starts no later.
   */
  lemma NearerShardsBurstFirst(q1: Quad, q2: Quad, frameCenter: Vec2, maxDistance: real, g: Geometry, d: ShardDraw)
    requires maxDistance >= 1.0 && ValidGeometry(g) && ValidShardDraw(d)
    requires g.length(Centroid(q1).Minus(frameCenter)) <= g.length(Centroid(q2).Minus(frameCenter))
    ensures var near, far := MakeShard(q1, frameCenter, maxDistance, g, d), MakeShard(q2, frameCenter, maxDistance, g, d);
      && far.expansionBoost <= near.expansionBoost
      && far.radialOpacity <= near.radialOpacity
      && near.delay <= far.delay
  {
    var d1 := g.length(Centroid(q1).Minus(frameCenter));
    var d2 := g.length(Centroid(q2).Minus(frameCenter));
    QuotientMonotonic(d1, d2, maxDistance);
    var n1, n2 := Min(1.0, d1 / maxDistance), Min(1.0, d2 / maxDistance);
    assert 0.0 <= d1 / maxDistance;
    assert 0.0 <= 1.0 - n2 <= 1.0 - n1 <= 1.0;
    assert g.radialPower(1.0 - n2) <= g.radialPower(1.0 - n1);
  }

  /**
    A shard whose centroid is no farther from the frame centre than
    `maxDistance` starts within 0.18 + 0.05 = 0.23 seconds.
   */
  lemma DelayCeiling(q: Quad, frameCenter: Vec2, maxDistance: real, g: Geometry, d: ShardDraw)
    requires maxDistance >= 1.0 && ValidGeometry(g) && ValidShardDraw(d)
    requires g.length(Centroid(q).Minus(frameCenter)) <= maxDistance
    ensures 0.0 <= MakeShard(q, frameCenter, maxDistance, g, d).delay <= 0.23
  {
    var distance := g.length(Centroid(q).Minus(frameCenter));
    QuotientMonotonic(distance, maxDistance, maxDistance);
    assert distance / maxDistance <= 1.0;
  }

  /** The shard generated for cell (row, column). */
  function CellShard(m: Layout, jitter: (nat, nat) -> Vec2, g: Geometry, draws: (nat, nat) -> ShardDraw,
                     row: nat, column: nat): ShardState
    requires ValidGeometry(g) && ValidDraws(draws)
  {
    MakeShard(CellQuad(m, jitter, row, column), FrameCenter(m), MaxDistance(m, g), g, draws(row, column))
  }

  /** The vertices generated for cell (row, column), the `base`-th shard counting from the first cell. */
  function CellVertices(m: Layout, jitter: (nat, nat) -> Vec2, draws: (nat, nat) -> ShardDraw,
                        base: nat, row: nat, column: nat): seq<Vertex>
  {
    ShardVertices(m, CellQuad(m, jitter, row, column), draws(row, column).useDiagonal, base + row * m.columnCount + column)
  }

  /** `CellShard` as a function of the cell. */
  function ShardOfCell(m: Layout, jitter: (nat, nat) -> Vec2, g: Geometry, draws: (nat, nat) -> ShardDraw): (nat, nat) -> ShardState
    requires ValidGeometry(g) && ValidDraws(draws)
  {
    (r: nat, c: nat) => CellShard(m, jitter, g, draws, r, c)
  }

  /** `CellVertices` as a function of the cell. */
  function VerticesOfCell(m: Layout, jitter: (nat, nat) -> Vec2, draws: (nat, nat) -> ShardDraw, base: nat): (nat, nat) -> seq<Vertex>
  {
    (r: nat, c: nat) => CellVertices(m, jitter, draws, base, r, c)
  }

  /** All shards of the mesh, in the row-major order the loops append them. */
  function MeshShards(m: Layout, jitter: (nat, nat) -> Vec2, g: Geometry, draws: (nat, nat) -> ShardDraw): seq<ShardState>
    requires ValidGeometry(g) && ValidDraws(draws)
  {
    RowMajor.Cells(m.columnCount, m.rowCount, 0, ShardOfCell(m, jitter, g, draws))
  }

  /** All vertices of the mesh when the first generated shard gets index `base`. */
  function MeshVertices(m: Layout, jitter: (nat, nat) -> Vec2, draws: (nat, nat) -> ShardDraw, base: nat): seq<Vertex>
  {
    RowMajor.Concat(MeshVertexRuns(m, jitter, draws, base))
  }

  /**
    The mesh has columnCount * rowCount shards in row-major order: shard
    r * columnCount + c comes from cell (r, c).
   */
  lemma MeshShardAt(m: Layout, jitter: (nat, nat) -> Vec2, g: Geometry, draws: (nat, nat) -> ShardDraw, r: nat, c: nat)
    requires ValidGeometry(g) && ValidDraws(draws)
    requires r < m.rowCount && c < m.columnCount
    ensures |MeshShards(m, jitter, g, draws)| == m.rowCount * m.columnCount
    ensures r * m.columnCount + c < |MeshShards(m, jitter, g, draws)|
    ensures MeshShards(m, jitter, g, draws)[r * m.columnCount + c] == CellShard(m, jitter, g, draws, r, c)
  {
    var f := ShardOfCell(m, jitter, g, draws);
    RowMajor.CellsLength(m.columnCount, m.rowCount, 0, f);
    RowMajor.CellsAt(m.columnCount, m.rowCount, 0, f, r, c);
  }

  /** Every generated shard is well formed. */
  lemma MeshShardsWellFormed(m: Layout, jitter: (nat, nat) -> Vec2, g: Geometry, draws: (nat, nat) -> ShardDraw, i: nat)
    requires ValidGeometry(g) && ValidDraws(draws)
    requires i < |MeshShards(m, jitter, g, draws)|
    ensures WellFormed(MeshShards(m, jitter, g, draws)[i])
  {
    RowMajor.CellsLength(m.columnCount, m.rowCount, 0, ShardOfCell(m, jitter, g, draws));
    var r, c := RowMajor.RowColumnOf(m.columnCount, m.rowCount, i);
    MeshShardAt(m, jitter, g, draws, r, c);
  }

  /** The per-cell vertex runs of the mesh, in row-major order. */
  function MeshVertexRuns(m: Layout, jitter: (nat, nat) -> Vec2, draws: (nat, nat) -> ShardDraw, base: nat): seq<seq<Vertex>>
  {
    RowMajor.Cells(m.columnCount, m.rowCount, 0, VerticesOfCell(m, jitter, draws, base))
  }

  /** The run of cell (r, c) has six vertices, all tagged with shard base + r * columnCount + c. */
  lemma MeshVertexRunAt(m: Layout, jitter: (nat, nat) -> Vec2, draws: (nat, nat) -> ShardDraw, base: nat, r: nat, c: nat, k: nat)
    requires r < m.rowCount && c < m.columnCount && k < 6
    ensures r * m.columnCount + c < |MeshVertexRuns(m, jitter, draws, base)|
    ensures |MeshVertexRuns(m, jitter, draws, base)[r * m.columnCount + c]| == 6
    ensures MeshVertexRuns(m, jitter, draws, base)[r * m.columnCount + c][k].shardIndex == base + r * m.columnCount + c
  {
    RowMajor.CellsAt(m.columnCount, m.rowCount, 0, VerticesOfCell(m, jitter, draws, base), r, c);
  }

  /**
    The mesh has six vertices per shard, and vertex n belongs to shard
    base + n / 6.
   */
  lemma MeshVertexAt(m: Layout, jitter: (nat, nat) -> Vec2, draws: (nat, nat) -> ShardDraw, base: nat, n: nat)
    ensures |MeshVertices(m, jitter, draws, base)| == 6 * (m.rowCount * m.columnCount)
    ensures n < 6 * (m.rowCount * m.columnCount) ==> MeshVertices(m, jitter, draws, base)[n].shardIndex == base + n / 6
  {
    var parts := MeshVertexRuns(m, jitter, draws, base);
    RowMajor.CellsLength(m.columnCount, m.rowCount, 0, VerticesOfCell(m, jitter, draws, base));
    forall i | 0 <= i < |parts|
      ensures |parts[i]| == 6
    {
      var r, c := RowMajor.RowColumnOf(m.columnCount, m.rowCount, i);
      MeshVertexRunAt(m, jitter, draws, base, r, c, 0);
    }
    RowMajor.ConcatLength(parts, 6);
    if n < 6 * (m.rowCount * m.columnCount) {
      var i, k := n / 6, n % 6;
      RowMajor.ConcatAt(parts, 6, i, k);
      var r, c := RowMajor.RowColumnOf(m.columnCount, m.rowCount, i);
      MeshVertexRunAt(m, jitter, draws, base, r, c, k);
    }
  }

  /** A mesh has at least the 3 x 3 cells of the smallest lattice, and six vertices per shard. */
  lemma MeshSizes(m: Layout, jitter: (nat, nat) -> Vec2, g: Geometry, draws: (nat, nat) -> ShardDraw, base: nat)
    requires ValidGeometry(g) && ValidDraws(draws)
    ensures |MeshShards(m, jitter, g, draws)| >= 9
    ensures |MeshVertices(m, jitter, draws, base)| == 6 * |MeshShards(m, jitter, g, draws)|
  {
    MeshShardAt(m, jitter, g, draws, 0, 0);
    MeshVertexAt(m, jitter, draws, base, 0);
    AtLeastNine(m.rowCount, m.columnCount);
  }

  /** Every shard of a mesh is well formed. */
  lemma MeshAllWellFormed(m: Layout, jitter: (nat, nat) -> Vec2, g: Geometry, draws: (nat, nat) -> ShardDraw)
    requires ValidGeometry(g) && ValidDraws(draws)
    ensures AllWellFormed(MeshShards(m, jitter, g, draws))
  {
    forall i | 0 <= i < |MeshShards(m, jitter, g, draws)|
      ensures WellFormed(MeshShards(m, jitter, g, draws)[i])
    {
      MeshShardsWellFormed(m, jitter, g, draws, i);
    }
  }

  /**
    Every shard of a mesh starts within 0.18 + 0.05 = 0.23 seconds: its
    centroid is in the frame, so its distance term is at most 0.18.
   */
  lemma MeshDelayCeiling(m: Layout, jitter: (nat, nat) -> Vec2, g: Geometry, draws: (nat, nat) -> ShardDraw, i: nat)
    requires ValidJitter(m, jitter) && ValidGeometry(g) && ValidDraws(draws)
    requires i < |MeshShards(m, jitter, g, draws)|
    ensures 0.0 <= MeshShards(m, jitter, g, draws)[i].delay <= 0.23
  {
    RowMajor.CellsLength(m.columnCount, m.rowCount, 0, ShardOfCell(m, jitter, g, draws));
    var r, c := RowMajor.RowColumnOf(m.columnCount, m.rowCount, i);
    MeshShardAt(m, jitter, g, draws, r, c);
    CentroidInFrame(m, jitter, r, c);
    InFrameWithinMaxDistance(m, g, Centroid(CellQuad(m, jitter, r, c)));
    DelayCeiling(CellQuad(m, jitter, r, c), FrameCenter(m), MaxDistance(m, g), g, draws(r, c));
  }

  lemma AtLeastNine(a: nat, b: nat)
    requires a >= 3 && b >= 3
    ensures a * b >= 9
  {
    RowMajor.MultiplyMonotonic(b, 3, a);
  }
}
