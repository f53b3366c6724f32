/**
 * The heat map of `Soccer_Analytics/core/heat_map_analyzer.py`: a
 * `grid_size[0]` by `grid_size[1]` matrix of time spent, indexed by the
 * cell a pitch position falls in, with its normalisation and its zone
 * statistics. The grid is a two-dimensional array updated in place; its
 * contents are specified as a `seq<seq<real>>` value.
 */
module HeatMap {
  import opened Numerics

  // ---------------------------------------------------------------------------
  // Grids as values

  /** A `rows` by `cols` matrix. */
  predicate IsGrid(g: seq<seq<real>>, rows: nat, cols: nat)
  {
    |g| == rows && forall i :: 0 <= i < |g| ==> |g[i]| == cols
  }

  /** A matrix with at least one row and no empty row, so that `np.max` is defined. */
  predicate NonEmptyGrid(g: seq<seq<real>>)
  {
    0 < |g| && forall i :: 0 <= i < |g| ==> 0 < |g[i]|
  }

  /** `np.zeros(grid_size)` */
  function Zeros(rows: nat, cols: nat): (g: seq<seq<real>>)
    ensures IsGrid(g, rows, cols)
    ensures forall i, j :: 0 <= i < rows && 0 <= j < cols ==> g[i][j] == 0.0
  {
    seq(rows, _ => seq(cols, _ => 0.0))
  }

  /** `np.sum(grid)`, row by row. */
  function Total(g: seq<seq<real>>): real
  {
    if |g| == 0 then 0.0 else Total(g[..|g| - 1]) + Sum(g[|g| - 1])
  }

  lemma {:induction false} TotalAppend(g: seq<seq<real>>, h: seq<seq<real>>)
    ensures Total(g + h) == Total(g) + Total(h)
    decreases |h|
  {
    if |h| == 0 {
      assert g + h == g;
    } else {
      var n := |h| - 1;
      assert (g + h)[..|g + h| - 1] == g + h[..n];
      assert (g + h)[|g + h| - 1] == h[n];
      TotalAppend(g, h[..n]);
    }
  }

  lemma {:induction false} TotalOfZeros(rows: nat, cols: nat)
    ensures Total(Zeros(rows, cols)) == 0.0
    decreases rows
  {
    if rows != 0 {
      var row := Zeros(rows, cols)[rows - 1];
      SumBounded(row, 0.0);
      SumAtLeast(row, 0.0);
      assert Zeros(rows, cols)[..rows - 1] == Zeros(rows - 1, cols);
      TotalOfZeros(rows - 1, cols);
    }
  }

  /** A cell of the grid: `(x_cell, y_cell)`. */
  datatype Cell = Cell(row: nat, col: nat)

  predicate Fits(c: Cell, g: seq<seq<real>>)
  {
    c.row < |g| && c.col < |g[c.row]|
  }

  /** `grid[x, y] += d`: exactly one cell is raised by `d`, every other cell keeps its value. */
  function Bump(g: seq<seq<real>>, c: Cell, d: real): (h: seq<seq<real>>)
    requires Fits(c, g)
    ensures |h| == |g| && forall i :: 0 <= i < |g| ==> |h[i]| == |g[i]|
    ensures h[c.row][c.col] == g[c.row][c.col] + d
    ensures forall i, j :: 0 <= i < |g| && 0 <= j < |g[i]| && Cell(i, j) != c ==> h[i][j] == g[i][j]
  {
    g[c.row := g[c.row][c.col := g[c.row][c.col] + d]]
  }

  /** Raising one cell by `d` raises the grid's total by `d`. */
  lemma {:induction false} TotalBump(g: seq<seq<real>>, c: Cell, d: real)
    requires Fits(c, g)
    ensures Total(Bump(g, c, d)) == Total(g) + d
    decreases |g|
  {
    var n := |g| - 1;
    var h := Bump(g, c, d);
    if c.row == n {
      assert h[..n] == g[..n];
      SumUpdate(g[n], c.col, g[n][c.col] + d);
    } else {
      assert h[..n] == Bump(g[..n], c, d);
      assert h[n] == g[n];
      TotalBump(g[..n], c, d);
    }
  }

  predicate AllFit(cells: seq<Cell>, g: seq<seq<real>>)
  {
    forall k :: 0 <= k < |cells| ==> Fits(cells[k], g)
  }

  /** Observations `(cells[k], ds[k])` added one after the other, duplicates included. */
  function Accumulate(g: seq<seq<real>>, cells: seq<Cell>, ds: seq<real>): (h: seq<seq<real>>)
    requires |cells| == |ds| && AllFit(cells, g)
    ensures |h| == |g| && forall i :: 0 <= i < |g| ==> |h[i]| == |g[i]|
  {
    if |cells| == 0 then g
    else
      var n := |cells| - 1;
      Bump(Accumulate(g, cells[..n], ds[..n]), cells[n], ds[n])
  }

  /** Accumulating one more observation is one more bump. */
  lemma AccumulateStep(g: seq<seq<real>>, cells: seq<Cell>, ds: seq<real>, k: nat)
    requires k < |cells| && k < |ds| && AllFit(cells, g)
    ensures AllFit(cells[..k], g) && AllFit(cells[..k + 1], g)
    ensures Accumulate(g, cells[..k + 1], ds[..k + 1]) == Bump(Accumulate(g, cells[..k], ds[..k]), cells[k], ds[k])
  {
    assert cells[..k + 1][..k] == cells[..k];
    assert ds[..k + 1][..k] == ds[..k];
  }

  /** Every position lands in a cell of a `rows` by `cols` grid. */
  lemma CellsFit(length: real, width: real, rows: nat, cols: nat, ps: seq<Point>, g: seq<seq<real>>)
    requires length != 0.0 && width != 0.0 && 0 < rows && 0 < cols && IsGrid(g, rows, cols)
    ensures AllFit(CellsOf(length, width, rows, cols, ps), g)
  {
  }

  /** The durations observed at one cell. */
  function Weight(cells: seq<Cell>, ds: seq<real>, c: Cell): real
    requires |cells| == |ds|
  {
    if |cells| == 0 then 0.0
    else
      var n := |cells| - 1;
      Weight(cells[..n], ds[..n], c) + (if cells[n] == c then ds[n] else 0.0)
  }

  /** Each cell ends up raised by the sum of the durations observed there, and by nothing else. */
  lemma {:induction false} AccumulateCell(g: seq<seq<real>>, cells: seq<Cell>, ds: seq<real>, c: Cell)
    requires |cells| == |ds| && AllFit(cells, g) && Fits(c, g)
    ensures Accumulate(g, cells, ds)[c.row][c.col] == g[c.row][c.col] + Weight(cells, ds, c)
    decreases |cells|
  {
    if |cells| != 0 {
      var n := |cells| - 1;
      AccumulateCell(g, cells[..n], ds[..n], c);
    }
  }

  /** The grid's total grows by the sum of all the durations. */
  lemma {:induction false} TotalAccumulate(g: seq<seq<real>>, cells: seq<Cell>, ds: seq<real>)
    requires |cells| == |ds| && AllFit(cells, g)
    ensures Total(Accumulate(g, cells, ds)) == Total(g) + Sum(ds)
    decreases |cells|
  {
    if |cells| != 0 {
      var n := |cells| - 1;
      TotalAccumulate(g, cells[..n], ds[..n]);
      TotalBump(Accumulate(g, cells[..n], ds[..n]), cells[n], ds[n]);
    }
  }

  // ---------------------------------------------------------------------------
  // `position_to_grid`

  /** One axis of `position_to_grid`: `min(max(int(v / extent * size), 0), size - 1)`. */
  function AxisCell(v: real, extent: real, size: nat): (i: nat)
    requires extent != 0.0 && 0 < size
    ensures i < size
  {
    ClampIndex(Trunc(v / extent * size as real), size)
  }

  /** A coordinate before the pitch scales below zero. */
  lemma ScaledBelow(v: real, extent: real, n: real)
    requires 0.0 < extent && 0.0 < n && v < 0.0
    ensures v / extent * n < 0.0
  {
    var q := v / extent;
    QuotientNonneg(-v, extent);
    assert q == -((-v) / extent);
    ProductPositive(-q, n, (-q) * n);
  }

  /** A coordinate at or past the far end scales to at least the grid size. */
  lemma ScaledPast(v: real, extent: real, n: real)
    requires 0.0 < extent && 0.0 < n && extent <= v
    ensures n <= v / extent * n
  {
    var q := v / extent;
    QuotientTimesDivisor(v, extent);
    if q < 1.0 {
      ProductPositive(1.0 - q, extent, (1.0 - q) * extent);
    }
    ProductNonneg(q - 1.0, n, (q - 1.0) * n);
  }

  /** A coordinate on the pitch scales into `[0, size)`. */
  lemma ScaledInside(v: real, extent: real, n: real)
    requires 0.0 < extent && 0.0 < n && 0.0 <= v < extent
    ensures 0.0 <= v / extent * n < n
  {
    var q := v / extent;
    QuotientNonneg(v, extent);
    ProductNonneg(q, n, q * n);
    assert q < 1.0 by {
      ProductPositive(extent - v, 1.0 / extent, (extent - v) * (1.0 / extent));
      assert 1.0 - q == (extent - v) * (1.0 / extent);
    }
    ProductPositive(1.0 - q, n, (1.0 - q) * n);
  }

  /** Cell `i` of width `w` contains `t w` when `i <= t < i + 1`. */
  lemma StripContains(t: real, i: real, w: real)
    requires 0.0 < w && i <= t < i + 1.0
    ensures Mul(i, w) <= Mul(t, w) < Mul(i + 1.0, w)
  {
    ProductNonneg(t - i, w, Mul(t - i, w));
    ProductPositive(i + 1.0 - t, w, Mul(i + 1.0 - t, w));
  }

  /**
   * On a positive extent, a coordinate inside the pitch falls in the cell
   * whose strip `[i w, (i + 1) w)`, `w = extent / size`, contains it; one
   * before the pitch lands in the first cell, one past it in the last.
   */
  lemma AxisCellContains(v: real, extent: real, size: nat)
    requires 0.0 < extent && 0 < size
    ensures v < 0.0 ==> AxisCell(v, extent, size) == 0
    ensures extent <= v ==> AxisCell(v, extent, size) == size - 1
    ensures 0.0 <= v < extent ==>
      var i, w := AxisCell(v, extent, size), extent / size as real;
      Mul(i as real, w) <= v < Mul(i as real + 1.0, w)
  {
    if v < 0.0 {
      CellBefore(v, extent, size);
    } else if extent <= v {
      CellPast(v, extent, size);
    } else {
      ScaledInside(v, extent, size as real);
      InsideCell(v, extent, size, Trunc(v / extent * size as real));
    }
  }

  lemma CellBefore(v: real, extent: real, size: nat)
    requires 0.0 < extent && 0 < size && v < 0.0
    ensures AxisCell(v, extent, size) == 0
  {
    var n := size as real;
    var t := v / extent * n;
    ScaledBelow(v, extent, n);
    TruncBelowZero(t);
  }

  lemma CellPast(v: real, extent: real, size: nat)
    requires 0.0 < extent && 0 < size && extent <= v
    ensures AxisCell(v, extent, size) == size - 1
  {
    var n := size as real;
    var t := v / extent * n;
    ScaledPast(v, extent, n);
    TruncAtLeast(t, size);
  }

  lemma TruncBelowZero(t: real)
    requires t < 0.0
    ensures Trunc(t) <= 0
  {
  }

  lemma TruncAtLeast(t: real, k: nat)
    requires k as real <= t
    ensures k <= Trunc(t)
  {
  }

  lemma InsideCell(v: real, extent: real, size: nat, k: int)
    requires 0.0 < extent && 0 < size && 0.0 <= v < extent
    requires 0.0 <= v / extent * size as real < size as real
    requires k == Trunc(v / extent * size as real)
    ensures 0 <= k < size && AxisCell(v, extent, size) == k
    ensures Mul(k as real, extent / size as real) <= v < Mul(k as real + 1.0, extent / size as real)
  {
    var n := size as real;
    var t := v / extent * n;
    ScaledBack(v, extent, n);
    StripContains(t, k as real, extent / n);
  }

  /** Scaling by `size / extent` and then by the cell width `extent / size` gives the coordinate back. */
  lemma ScaledBack(v: real, extent: real, n: real)
    requires 0.0 < extent && 0.0 < n
    ensures Mul(v / extent * n, extent / n) == v
  {
    var q, w := v / extent, extent / n;
    QuotientTimesDivisor(v, extent);
    QuotientTimesDivisor(extent, n);
    calc {
      Mul(q * n, w);
      q * (n * w);
      { assert w * n == extent; }
      q * extent;
      v;
    }
  }

  /** `position_to_grid`: the cell of a pitch position, clamped into the grid. */
  function PositionToGrid(length: real, width: real, rows: nat, cols: nat, p: Point): (c: Cell)
    requires length != 0.0 && width != 0.0 && 0 < rows && 0 < cols
    ensures c.row < rows && c.col < cols
  {
    Cell(AxisCell(p.x, length, rows), AxisCell(p.y, width, cols))
  }

  function CellsOf(length: real, width: real, rows: nat, cols: nat, ps: seq<Point>): (cs: seq<Cell>)
    requires length != 0.0 && width != 0.0 && 0 < rows && 0 < cols
    ensures |cs| == |ps|
    ensures forall k :: 0 <= k < |ps| ==> cs[k] == PositionToGrid(length, width, rows, cols, ps[k])
  {
    seq(|ps|, k requires 0 <= k < |ps| => PositionToGrid(length, width, rows, cols, ps[k]))
  }

  /** `durations`, defaulting to `[1.0] * len(positions)`. */
  function Durations(ds: Option<seq<real>>, n: nat): (r: seq<real>)
  {
    if ds.Some? then ds.value else seq(n, _ => 1.0)
  }

  /** `zip(positions, durations)` stops at the shorter list. */
  function ZipLength(ps: seq<Point>, ds: seq<real>): (n: nat)
    ensures n <= |ps| && n <= |ds| && (n == |ps| || n == |ds|)
  {
    if |ps| <= |ds| then |ps| else |ds|
  }

  // ---------------------------------------------------------------------------
  // `get_normalized_heat_map` (before the Gaussian filter)

  function RowMaxes(g: seq<seq<real>>): (r: seq<real>)
    requires NonEmptyGrid(g)
    ensures |r| == |g| && forall i :: 0 <= i < |g| ==> r[i] == Max(g[i])
  {
    seq(|g|, i requires 0 <= i < |g| => Max(g[i]))
  }

  /** `np.max(grid)` */
  function GridMax(g: seq<seq<real>>): (top: real)
    requires NonEmptyGrid(g)
    ensures forall i, j :: 0 <= i < |g| && 0 <= j < |g[i]| ==> g[i][j] <= top
  {
    var r := RowMaxes(g);
    assert forall i, j :: 0 <= i < |g| && 0 <= j < |g[i]| ==> g[i][j] <= r[i];
    Max(r)
  }

  /** `grid / np.max(grid)` when the maximum is positive, else the grid itself. */
  function Normalized(g: seq<seq<real>>): (h: seq<seq<real>>)
    requires NonEmptyGrid(g)
    ensures |h| == |g| && forall i :: 0 <= i < |g| ==> |h[i]| == |g[i]|
  {
    var top := GridMax(g);
    if top > 0.0 then seq(|g|, i requires 0 <= i < |g| => seq(|g[i]|, j requires 0 <= j < |g[i]| => g[i][j] / top))
    else g
  }

  /** Before smoothing, no entry of the normalised map exceeds 1, and a positive maximum becomes exactly 1. */
  lemma NormalizedAtMostOne(g: seq<seq<real>>)
    requires NonEmptyGrid(g)
    ensures forall i, j :: 0 <= i < |g| && 0 <= j < |g[i]| ==> Normalized(g)[i][j] <= 1.0
    ensures 0.0 < GridMax(g) ==>
      var c := MostVisited(g); Normalized(g)[c.row][c.col] == 1.0
  {
    var top := GridMax(g);
    var h := Normalized(g);
    if top > 0.0 {
      forall i, j | 0 <= i < |g| && 0 <= j < |g[i]|
        ensures h[i][j] <= 1.0
      {
        assert h[i][j] == g[i][j] / top;
        QuotientAtMostOne(g[i][j], top);
      }
      var c := MostVisited(g);
      MostVisitedIsFirstMaximum(g);
      assert h[c.row][c.col] == g[c.row][c.col] / top == top / top;
    }
  }

  // ---------------------------------------------------------------------------
  // `np.unravel_index(np.argmax(grid), grid.shape)`

  /**
   * The first row holding the maximum, then the first column of that row
   * holding it: the first maximal cell in row-major order.
   */
  function MostVisited(g: seq<seq<real>>): (c: Cell)
    requires NonEmptyGrid(g)
    ensures Fits(c, g)
  {
    var i := ArgMax(RowMaxes(g));
    Cell(i, ArgMax(g[i]))
  }

  /** The most visited cell holds the grid's maximum, and every cell before it in row-major order holds less. */
  lemma MostVisitedIsFirstMaximum(g: seq<seq<real>>)
    requires NonEmptyGrid(g)
    ensures var c := MostVisited(g); g[c.row][c.col] == GridMax(g)
    ensures var c := MostVisited(g);
      forall i, j :: 0 <= i < |g| && 0 <= j < |g[i]| && (i < c.row || (i == c.row && j < c.col)) ==>
        g[i][j] < g[c.row][c.col]
  {
    var c := MostVisited(g);
    var r := RowMaxes(g);
    assert g[c.row][c.col] == r[c.row];
    forall i, j | 0 <= i < |g| && 0 <= j < |g[i]| && (i < c.row || (i == c.row && j < c.col))
      ensures g[i][j] < g[c.row][c.col]
    {
      if i < c.row {
        assert g[i][j] <= r[i];
      }
    }
  }

  // ---------------------------------------------------------------------------
  // `get_zone_statistics`

  /** Row boundaries of `np.array_split(grid, 3, axis=0)`: the remainder goes to the first parts. */
  function ArraySplitBounds(n: nat): (b: (nat, nat))
  {
    var q, r := n / 3, n % 3;
    var first := q + (if 0 < r then 1 else 0);
    var second := q + (if 1 < r then 1 else 0);
    (first, first + second)
  }

  /** The three parts cover the rows in order; their sizes never grow and differ by at most one. */
  lemma ArraySplitBalanced(n: nat)
    ensures var (a, b) := ArraySplitBounds(n);
      a <= b <= n && n - b <= b - a <= a && a <= n - b + 1 && a + (b - a) + (n - b) == n
  {
  }

  datatype ThirdShares = ThirdShares(defensive: real, middle: real, attacking: real)

  /** `shares` is absent where numpy would divide by a zero total (NaN or infinite percentages). */
  datatype ZoneStatistics = ZoneStatistics(shares: Option<ThirdShares>, mostVisited: Cell)

  /** The totals of the three parts add up to the grid's total. */
  lemma ThirdsCoverGrid(g: seq<seq<real>>, a: nat, b: nat)
    requires a <= b <= |g|
    ensures Total(g[..a]) + Total(g[a..b]) + Total(g[b..]) == Total(g)
  {
    assert g[..b] == g[..a] + g[a..b];
    assert g == g[..b] + g[b..];
    TotalAppend(g[..a], g[a..b]);
    TotalAppend(g[..b], g[b..]);
  }

  /** Each third's percentage of the three thirds' total, for row boundaries `a <= b`. */
  function SharesOf(g: seq<seq<real>>, a: nat, b: nat): (s: ThirdShares)
    requires a <= b <= |g| && Total(g) != 0.0
    ensures s.defensive + s.middle + s.attacking == 100.0
  {
    var defensive, middle, attacking := Total(g[..a]), Total(g[a..b]), Total(g[b..]);
    var total := defensive + middle + attacking;
    ThirdsCoverGrid(g, a, b);
    PercentagesOfParts(defensive, middle, attacking, total);
    ThirdShares(defensive / total * 100.0, middle / total * 100.0, attacking / total * 100.0)
  }

  /**
   * `get_zone_statistics`: each third's share of the grid's total, and the
   * most visited cell. The shares exist exactly when the total is not zero,
   * and then add up to 100.
   */
  function GetZoneStatistics(g: seq<seq<real>>): (r: ZoneStatistics)
    requires NonEmptyGrid(g)
    ensures r.shares.None? <==> Total(g) == 0.0
    ensures r.shares.Some? ==> r.shares.value.defensive + r.shares.value.middle + r.shares.value.attacking == 100.0
    ensures r.mostVisited == MostVisited(g)
  {
    var (a, b) := ArraySplitBounds(|g|);
    if Total(g) == 0.0 then ZoneStatistics(None, MostVisited(g))
    else ZoneStatistics(Some(SharesOf(g, a, b)), MostVisited(g))
  }

  // ---------------------------------------------------------------------------
  // The grid array

  /** The contents of a grid array as a value. */
  function Contents(a: array2<real>): (g: seq<seq<real>>)
    reads a
    ensures IsGrid(g, a.Length0, a.Length1)
    ensures forall i, j :: 0 <= i < a.Length0 && 0 <= j < a.Length1 ==> g[i][j] == a[i, j]
  {
    seq(a.Length0, i requires 0 <= i < a.Length0 reads a =>
      seq(a.Length1, j requires 0 <= j < a.Length1 reads a => a[i, j]))
  }

  /** `grid[x, y] += d` on the array. */
  method AddAt(a: array2<real>, c: Cell, d: real)
    requires c.row < a.Length0 && c.col < a.Length1
    modifies a
    ensures Contents(a) == Bump(old(Contents(a)), c, d)
  {
    a[c.row, c.col] := a[c.row, c.col] + d;
    forall i | 0 <= i < a.Length0
      ensures Contents(a)[i] == Bump(old(Contents(a)), c, d)[i]
    {
    }
  }

  /** A fresh all-zero array. */
  method ZeroGrid(rows: nat, cols: nat) returns (a: array2<real>)
    ensures fresh(a) && a.Length0 == rows && a.Length1 == cols
    ensures Contents(a) == Zeros(rows, cols)
  {
    a := new real[rows, cols]((_, _) => 0.0);
    forall i | 0 <= i < rows
      ensures Contents(a)[i] == Zeros(rows, cols)[i]
    {
    }
  }

  // ---------------------------------------------------------------------------
  // The analyzer

  class HeatMapAnalyzer {
    const fieldLength: real
    const fieldWidth: real
    const rows: nat
    const cols: nat
    const grid: array2<real>

    ghost predicate Valid()
    {
      fieldLength != 0.0 && fieldWidth != 0.0 && 0 < rows && 0 < cols
      && grid.Length0 == rows && grid.Length1 == cols
    }

    /** The grid starts at zero. */
    constructor(length: real, width: real, gridRows: nat, gridCols: nat)
      requires length != 0.0 && width != 0.0 && 0 < gridRows && 0 < gridCols
      ensures Valid() && fresh(grid)
      ensures fieldLength == length && fieldWidth == width && rows == gridRows && cols == gridCols
      ensures Contents(grid) == Zeros(gridRows, gridCols)
    {
      var a := ZeroGrid(gridRows, gridCols);
      fieldLength, fieldWidth, rows, cols, grid := length, width, gridRows, gridCols, a;
    }

    /** `add_position`: the position's cell is raised by `duration`. */
    method AddPosition(p: Point, duration: real)
      requires Valid()
      modifies grid
      ensures Contents(grid) == Bump(old(Contents(grid)), PositionToGrid(fieldLength, fieldWidth, rows, cols, p), duration)
    {
      AddAt(grid, PositionToGrid(fieldLength, fieldWidth, rows, cols, p), duration);
    }

    /**
     * `add_positions`: the observations `zip(positions, durations)` are
     * added in order, durations defaulting to 1.
     */
    method AddPositions(ps: seq<Point>, ds: Option<seq<real>>)
      requires Valid()
      modifies grid
      ensures var durations := Durations(ds, |ps|);
              var n := ZipLength(ps, durations);
              Contents(grid) == Accumulate(old(Contents(grid)), CellsOf(fieldLength, fieldWidth, rows, cols, ps)[..n], durations[..n])
    {
      var durations := Durations(ds, |ps|);
      var n := ZipLength(ps, durations);
      ghost var start := Contents(grid);
      ghost var cells := CellsOf(fieldLength, fieldWidth, rows, cols, ps);
      CellsFit(fieldLength, fieldWidth, rows, cols, ps, start);
      var k := 0;
      while k < n
        invariant k <= n && AllFit(cells[..k], start)
        invariant Contents(grid) == Accumulate(start, cells[..k], durations[..k])
      {
        AccumulateStep(start, cells, durations, k);
        AddPosition(ps[k], durations[k]);
        k := k + 1;
      }
    }

    /** `get_normalized_heat_map`, before the Gaussian filter. */
    function NormalizedGrid(): (h: seq<seq<real>>)
      requires Valid()
      reads this, grid
      ensures |h| == rows && forall i, j :: 0 <= i < rows && 0 <= j < |h[i]| ==> h[i][j] <= 1.0
    {
      NormalizedAtMostOne(Contents(grid));
      Normalized(Contents(grid))
    }

    /** `get_zone_statistics` on the current grid. */
    function ZoneStatisticsOfGrid(): (r: ZoneStatistics)
      requires Valid()
      reads this, grid
      ensures r.shares.None? <==> Total(Contents(grid)) == 0.0
      ensures r.mostVisited.row < rows && r.mostVisited.col < cols
    {
      GetZoneStatistics(Contents(grid))
    }
  }
}
