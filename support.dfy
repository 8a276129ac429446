/**
  Shared vocabulary of the effect renderers: two-component vectors (simd_float2,
  CGPoint, CGSize), the Swift `min`/`max` helpers, the truncating `Int(_:)`
  conversion of a floating-point value, and an optional value.
  Floating-point numbers are modelled as mathematical reals.
 */
module Support {

  datatype Option<+T> = None | Some(value: T)

  /** Swift `min(a, b)` on floating-point values. */
  function Min(a: real, b: real): real
  {
    if b < a then b else a
  }

  /** Swift `max(a, b)` on floating-point values. */
  function Max(a: real, b: real): real
  {
    if b > a then b else a
  }

  /** Swift `max(a, b)` on integers. */
  function IntMax(a: int, b: int): int
  {
    if b > a then b else a
  }

  /** Swift `Int(x)` for a floating-point `x`: truncation toward zero. */
  function TruncateToInt(x: real): (n: int)
    ensures 0.0 <= x ==> n as real <= x < n as real + 1.0
    ensures x < 0.0 ==> n as real - 1.0 < x <= n as real
  {
    if x >= 0.0 then x.Floor else -((-x).Floor)
  }

  /** Swift `round` followed by `Int(_:)`: to the nearest integer, halves away from zero. */
  function RoundToInt(x: real): (n: int)
    ensures n as real - 0.5 <= x <= n as real + 0.5
    ensures 0.0 <= x ==> 0 <= n
  {
    if x >= 0.0 then (x + 0.5).Floor else -((-x + 0.5).Floor)
  }

  /** A two-component vector. */
  datatype Vec2 = Vec2(x: real, y: real)
  {
    function Plus(other: Vec2): Vec2
    {
      Vec2(x + other.x, y + other.y)
    }

    function Minus(other: Vec2): Vec2
    {
      Vec2(x - other.x, y - other.y)
    }

    function Times(k: real): Vec2
    {
      Vec2(x * k, y * k)
    }

    function DividedBy(k: real): Vec2
      requires k != 0.0
    {
      Vec2(x / k, y / k)
    }
  }

  const Zero: Vec2 := Vec2(0.0, 0.0)
}

/**
  The row-major order in which the renderers visit a lattice of cells: the
  nested `for row { for column { ... } }` loops that append one value per cell.
 */
module RowMajor {

  /**
    The values appended by the nested loops before they reach cell
    (`row`, `column`), for a lattice `cols` cells wide; `f` gives the value of
    one cell.
   */
  function Cells<T>(cols: nat, row: nat, column: nat, f: (nat, nat) -> T): seq<T>
    requires column <= cols
    decreases row, column
  {
    if column > 0 then Cells(cols, row, column - 1, f) + [f(row, column - 1)]
    else if row > 0 then Cells(cols, row - 1, cols, f)
    else []
  }

  lemma {:induction false} CellsLength<T>(cols: nat, row: nat, column: nat, f: (nat, nat) -> T)
    requires column <= cols
    ensures |Cells(cols, row, column, f)| == row * cols + column
    decreases row, column
  {
    if column > 0 {
      CellsLength(cols, row, column - 1, f);
    } else if row > 0 {
      CellsLength(cols, row - 1, cols, f);
    }
  }

  /** The value of cell (r, c) sits at index r * cols + c. */
  lemma {:induction false} CellsAt<T>(cols: nat, row: nat, column: nat, f: (nat, nat) -> T, r: nat, c: nat)
    requires column <= cols && c < cols
    requires r < row || (r == row && c < column)
    ensures r * cols + c < |Cells(cols, row, column, f)|
    ensures Cells(cols, row, column, f)[r * cols + c] == f(r, c)
    decreases row, column
  {
    CellsLength(cols, row, column, f);
    if column > 0 {
      CellsLength(cols, row, column - 1, f);
      if r == row && c == column - 1 {
      } else {
        CellsAt(cols, row, column - 1, f, r, c);
      }
    } else {
      CellsAt(cols, row - 1, cols, f, r, c);
    }
  }

  /** The cell (r, c) whose value the finished loops put at index i. */
  lemma RowColumnOf(cols: nat, rows: nat, i: nat) returns (r: nat, c: nat)
    requires i < rows * cols
    ensures r < rows && c < cols && i == r * cols + c
  {
    r, c := i / cols, i % cols;
    if r >= rows {
      MultiplyMonotonic(cols, rows, r);
    }
  }

  /** The concatenation of a sequence of sequences, in order. */
  function Concat<T>(parts: seq<seq<T>>): seq<T>
  {
    if |parts| == 0 then [] else Concat(parts[..|parts| - 1]) + parts[|parts| - 1]
  }

  lemma ConcatAppend<T>(parts: seq<seq<T>>, last: seq<T>)
    ensures Concat(parts + [last]) == Concat(parts) + last
  {
    assert (parts + [last])[..|parts|] == parts;
  }

  /** When every part has length k, the concatenation has k * |parts| elements. */
  lemma {:induction false} ConcatLength<T>(parts: seq<seq<T>>, k: nat)
    requires forall i :: 0 <= i < |parts| ==> |parts[i]| == k
    ensures |Concat(parts)| == k * |parts|
  {
    if |parts| > 0 {
      ConcatLength(parts[..|parts| - 1], k);
    }
  }

  /** When every part has length k, element k * i + j of the concatenation is element j of part i. */
  lemma {:induction false} ConcatAt<T>(parts: seq<seq<T>>, k: nat, i: nat, j: nat)
    requires forall n :: 0 <= n < |parts| ==> |parts[n]| == k
    requires i < |parts| && j < k
    ensures k * i + j < |Concat(parts)|
    ensures Concat(parts)[k * i + j] == parts[i][j]
  {
    var init := parts[..|parts| - 1];
    ConcatLength(init, k);
    ConcatLength(parts, k);
    if i < |init| {
      assert k * i + j < k * |init| by {
        MultiplyMonotonic(k, i + 1, |init|);
      }
      ConcatAt(init, k, i, j);
    } else {
      assert k * i == k * |init|;
    }
  }

  lemma MultiplyMonotonic(k: nat, a: nat, b: nat)
    requires a <= b
    ensures k * a <= k * b
  {
  }
}
