/**
 * The vectorised heat map of `Soccer_Analytics/core/heat_map_analyzer_np.py`.
 * It keeps the same grid as the loop version, but converts positions with
 * precomputed scale factors, accumulates with `np.add.at`, and splits the
 * thirds at `grid_size[0] // 3`.
 */
module HeatMapNp {
  import opened Numerics
  import opened HeatMap

  /** `grid_size[k] / extent`, precomputed by the constructor. */
  function ScaleFactor(size: nat, extent: real): real
    requires extent != 0.0
  {
    size as real / extent
  }

  /** One column of `positions_to_grid`: `clip(astype(int32)(v * scale), 0, size - 1)`. */
  function AxisCellNp(v: real, scale: real, size: nat): (i: nat)
    requires 0 < size
    ensures i < size
  {
    ClampIndex(Trunc(v * scale), size)
  }

  /** Multiplying by the precomputed factor is the loop version's `v / extent * size`. */
  lemma AxisCellsAgree(v: real, extent: real, size: nat)
    requires extent != 0.0 && 0 < size
    ensures AxisCellNp(v, ScaleFactor(size, extent), size) == AxisCell(v, extent, size)
  {
    var n := size as real;
    assert v * (n / extent) == v / extent * n by {
      QuotientTimesDivisor(n, extent);
      QuotientTimesDivisor(v, extent);
      ReassociateScale(v, extent, n);
    }
  }

  lemma ReassociateScale(v: real, extent: real, n: real)
    requires extent != 0.0
    ensures v * (n / extent) == v / extent * n
  {
    var a, b := n / extent, v / extent;
    QuotientTimesDivisor(n, extent);
    QuotientTimesDivisor(v, extent);
    calc {
      v * a;
      (b * extent) * a;
      b * (a * extent);
      b * n;
    }
  }

  /** `positions_to_grid`: every row of the position array mapped to its clipped cell. */
  function PositionsToGrid(scaleX: real, scaleY: real, rows: nat, cols: nat, ps: seq<Point>): (cs: seq<Cell>)
    requires 0 < rows && 0 < cols
    ensures |cs| == |ps|
    ensures forall k :: 0 <= k < |ps| ==>
      cs[k] == Cell(AxisCellNp(ps[k].x, scaleX, rows), AxisCellNp(ps[k].y, scaleY, cols))
  {
    seq(|ps|, k requires 0 <= k < |ps| => Cell(AxisCellNp(ps[k].x, scaleX, rows), AxisCellNp(ps[k].y, scaleY, cols)))
  }

  /** The vectorised conversion puts every position in the same cell as `position_to_grid` does. */
  lemma PositionsToGridAgrees(length: real, width: real, rows: nat, cols: nat, ps: seq<Point>)
    requires length != 0.0 && width != 0.0 && 0 < rows && 0 < cols
    ensures PositionsToGrid(ScaleFactor(rows, length), ScaleFactor(cols, width), rows, cols, ps)
            == CellsOf(length, width, rows, cols, ps)
  {
    forall k | 0 <= k < |ps|
      ensures PositionsToGrid(ScaleFactor(rows, length), ScaleFactor(cols, width), rows, cols, ps)[k]
              == CellsOf(length, width, rows, cols, ps)[k]
    {
      AxisCellsAgree(ps[k].x, length, rows);
      AxisCellsAgree(ps[k].y, width, cols);
    }
  }

  /**
   * The durations `np.add.at` can broadcast against `n` positions: none
   * (ones are used), one per position, or a single value for all of them.
   */
  predicate Broadcastable(ds: Option<seq<real>>, n: nat)
  {
    ds.None? || |ds.value| == n || |ds.value| == 1
  }

  /** The durations after numpy broadcasting. */
  function BroadcastDurations(ds: Option<seq<real>>, n: nat): (r: seq<real>)
    requires Broadcastable(ds, n)
    ensures |r| == n
    ensures ds.None? ==> forall k :: 0 <= k < n ==> r[k] == 1.0
    ensures ds.Some? && |ds.value| == n ==> r == ds.value
    ensures ds.Some? && |ds.value| == 1 ==> forall k :: 0 <= k < n ==> r[k] == ds.value[0]
  {
    if ds.None? then seq(n, _ => 1.0)
    else if |ds.value| == n then ds.value
    else seq(n, _ => ds.value[0])
  }

  /** One observation accumulated onto a grid is that observation's bump. */
  lemma AccumulateOne(g: seq<seq<real>>, c: Cell, d: real)
    requires Fits(c, g)
    ensures Accumulate(g, [c], [d]) == Bump(g, c, d)
  {
    assert [c][..0] == [] && [d][..0] == [];
  }

  /** The thirds' row boundaries: `third_size = grid_size[0] // 3`, the remainder in the last third. */
  function ThirdBounds(n: nat): (b: (nat, nat))
    ensures b.0 <= b.1 <= n
    ensures b.1 - b.0 == b.0 && n - b.1 == b.0 + n % 3
  {
    (n / 3, 2 * (n / 3))
  }

  /** The two splittings agree exactly when the row count is a multiple of three. */
  lemma ThirdBoundsMatchArraySplit(n: nat)
    ensures ThirdBounds(n) == ArraySplitBounds(n) <==> n % 3 == 0
  {
  }

  /** `get_zone_statistics`: percentages are zeros when the total is not positive. */
  datatype ZoneStatisticsNp = ZoneStatisticsNp(shares: ThirdShares, mostVisited: Cell)

  function GetZoneStatisticsNp(g: seq<seq<real>>): (r: ZoneStatisticsNp)
    requires NonEmptyGrid(g)
    ensures 0.0 < Total(g) ==> r.shares.defensive + r.shares.middle + r.shares.attacking == 100.0
    ensures !(0.0 < Total(g)) ==> r.shares == ThirdShares(0.0, 0.0, 0.0)
    ensures r.mostVisited == MostVisited(g)
  {
    var (a, b) := ThirdBounds(|g|);
    ThirdsCoverGrid(g, a, b);
    if 0.0 < Total(g) then ZoneStatisticsNp(SharesOf(g, a, b), MostVisited(g))
    else ZoneStatisticsNp(ThirdShares(0.0, 0.0, 0.0), MostVisited(g))
  }

  /**
   * On a positive total and a row count that is a multiple of three, the
   * two versions report the same shares and the same cell.
   */
  lemma ZoneStatisticsAgreeOnMultiplesOfThree(g: seq<seq<real>>)
    requires NonEmptyGrid(g) && |g| % 3 == 0 && 0.0 < Total(g)
    ensures GetZoneStatistics(g).shares == Some(GetZoneStatisticsNp(g).shares)
    ensures GetZoneStatistics(g).mostVisited == GetZoneStatisticsNp(g).mostVisited
  {
    ThirdBoundsMatchArraySplit(|g|);
  }

  /** `np.add.at(grid, (xs, ys), ds)`: unbuffered, so repeated cells receive every duration. */
  method AddEach(a: array2<real>, cells: seq<Cell>, ds: seq<real>)
    requires |cells| == |ds| && forall k :: 0 <= k < |cells| ==> cells[k].row < a.Length0 && cells[k].col < a.Length1
    modifies a
    ensures Contents(a) == Accumulate(old(Contents(a)), cells, ds)
  {
    ghost var start := Contents(a);
    var k := 0;
    while k < |cells|
      invariant k <= |cells|
      invariant Contents(a) == Accumulate(start, cells[..k], ds[..k])
    {
      AddAt(a, cells[k], ds[k]);
      assert cells[..k + 1][..k] == cells[..k];
      assert ds[..k + 1][..k] == ds[..k];
      k := k + 1;
    }
    assert cells[..k] == cells && ds[..k] == ds;
  }

  class HeatMapAnalyzerNp {
    const fieldLength: real
    const fieldWidth: real
    const rows: nat
    const cols: nat
    const scaleX: real
    const scaleY: real
    const grid: array2<real>

    ghost predicate Valid()
    {
      fieldLength != 0.0 && fieldWidth != 0.0 && 0 < rows && 0 < cols
      && scaleX == ScaleFactor(rows, fieldLength) && scaleY == ScaleFactor(cols, fieldWidth)
      && grid.Length0 == rows && grid.Length1 == cols
    }

    /** The grid starts at zero; the scale factors are computed once. */
    constructor(length: real, width: real, gridRows: nat, gridCols: nat)
      requires length != 0.0 && width != 0.0 && 0 < gridRows && 0 < gridCols
      ensures Valid() && fresh(grid)
      ensures fieldLength == length && fieldWidth == width && rows == gridRows && cols == gridCols
      ensures Contents(grid) == Zeros(gridRows, gridCols)
    {
      var a := ZeroGrid(gridRows, gridCols);
      fieldLength, fieldWidth, rows, cols, grid := length, width, gridRows, gridCols, a;
      scaleX, scaleY := ScaleFactor(gridRows, length), ScaleFactor(gridCols, width);
    }

    /**
     * `add_positions`: `np.add.at` adds every observation, duplicates
     * included, in order, and `added` is true. An empty position list does
     * not broadcast against the two scale factors, and a duration list of
     * another length than one or the number of positions does not broadcast
     * against the indices: numpy raises, `added` is false and the grid is
     * as it was.
     */
    method AddPositions(ps: seq<Point>, ds: Option<seq<real>>) returns (added: bool)
      requires Valid()
      modifies grid
      ensures added <==> 0 < |ps| && Broadcastable(ds, |ps|)
      ensures !added ==> Contents(grid) == old(Contents(grid))
      ensures added ==> Contents(grid) == Accumulate(old(Contents(grid)), PositionsToGrid(scaleX, scaleY, rows, cols, ps),
                                                     BroadcastDurations(ds, |ps|))
    {
      if |ps| == 0 || !Broadcastable(ds, |ps|) {
        return false;
      }
      AddEach(grid, PositionsToGrid(scaleX, scaleY, rows, cols, ps), BroadcastDurations(ds, |ps|));
      added := true;
    }

    /** `add_position(p, d)` is `add_positions([p], [d])`: one cell is raised by `d`. */
    method AddPosition(p: Point, duration: real)
      requires Valid()
      modifies grid
      ensures Contents(grid) == Bump(old(Contents(grid)), PositionToGrid(fieldLength, fieldWidth, rows, cols, p), duration)
    {
      PositionsToGridAgrees(fieldLength, fieldWidth, rows, cols, [p]);
      AccumulateOne(Contents(grid), PositionToGrid(fieldLength, fieldWidth, rows, cols, p), duration);
      var added := AddPositions([p], Some([duration]));
    }
  }
}
