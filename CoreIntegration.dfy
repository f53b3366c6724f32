/**
 * `Soccer_Analytics/core/integration.py`, the older copy of the integration
 * script. Its possession, space-control and passing inputs are built the
 * same way as in `analytics/integration.py` (module `Integration`). Its
 * heat map differs: the grids are `np.zeros((15, 10))`, the cells come from
 * the core `HeatMapAnalyzer.position_to_grid` (module `HeatMap`), and every
 * count, the carried ball's included, goes to `[x_c][y_c]`.
 */
module CoreIntegration {
  import opened Numerics
  import HeatMap
  import Integration

  /** The grids are `np.zeros((15, 10))`: 15 rows of 10 columns, indexed by `x_c` then `y_c`. */
  const Rows := 15
  const Cols := 10

  /**
   * The configuration the core heat-map analyzer reads: pitch length and
   * width, and its own `grid_size`. Indexing the 15 by 10 grids with its
   * cells only stays in range for a `grid_size` of at most 15 by 10.
   */
  datatype Config = Config(length: real, width: real, gridRows: nat, gridCols: nat)

  predicate Fits(config: Config)
  {
    config.length != 0.0 && config.width != 0.0 && 0 < config.gridRows <= Rows && 0 < config.gridCols <= Cols
  }

  /** `[x_c][y_c]` with `x_c, y_c = position_to_grid(p)`. */
  function Mark(config: Config): Point -> Integration.GridIndex
    requires Fits(config)
  {
    p =>
      var c := HeatMap.PositionToGrid(config.length, config.width, config.gridRows, config.gridCols, p);
      Integration.GridIndex(c.row, c.col)
  }

  /** Every count, detections and carried ball alike, lands inside the 15 by 10 grids. */
  lemma MarkFits(config: Config)
    requires Fits(config)
    ensures Integration.MarksInto(Mark(config), Rows, Cols)
  {
    forall p: Point
      ensures 0 <= Mark(config)(p).row < Rows && 0 <= Mark(config)(p).col < Cols
    {
      var c := HeatMap.PositionToGrid(config.length, config.width, config.gridRows, config.gridCols, p);
      assert Mark(config)(p) == Integration.GridIndex(c.row, c.col);
    }
  }

  /** `last_ball_position = [field_length/2, field_width/2]` */
  function Centre(config: Config): Point
  {
    Point(config.length / 2.0, config.width / 2.0)
  }

  /**
   * `heatmap_integrate`: referees are removed in place, and each entry
   * `[x][y]` of the three grids holds the number of counts for that cell,
   * one per frame without a ball going to the cell of the last ball seen.
   */
  method HeatmapIntegrate(data: array<seq<Integration.Detection>>, config: Config)
    returns (left: array2<int>, right: array2<int>, ball: array2<int>)
    requires Fits(config)
    modifies data
    ensures forall f :: 0 <= f < data.Length ==> data[f] == Integration.Keep(old(data[f]), {3})
    ensures fresh(left) && fresh(right) && fresh(ball)
    ensures left.Length0 == Rows && left.Length1 == Cols && right.Length0 == Rows && right.Length1 == Cols
    ensures ball.Length0 == Rows && ball.Length1 == Cols
    ensures Integration.Holds(left, Integration.TeamMarks(data[..], data.Length, 1, Mark(config)))
    ensures Integration.Holds(right, Integration.TeamMarks(data[..], data.Length, 2, Mark(config)))
    ensures Integration.Holds(ball, Integration.BallMarks(data[..], data.Length, Centre(config), Mark(config)))
  {
    Integration.RemoveClasses(data, {3});
    left := Integration.ZeroGrid(Rows, Cols);
    right := Integration.ZeroGrid(Rows, Cols);
    ball := Integration.ZeroGrid(Rows, Cols);
    MarkFits(config);
    Integration.CountFrames(data[..], left, right, ball, Centre(config), Mark(config));
  }

  /** Every ball count of the first `n` frames is an entry of the grid, so no count raises. */
  lemma {:induction false} BallMarksInGrid(data: seq<seq<Integration.Detection>>, n: nat, config: Config)
    requires n <= |data| && Fits(config)
    ensures forall m :: m in Integration.BallMarks(data, n, Centre(config), Mark(config)) ==>
      0 <= m.row < Rows && 0 <= m.col < Cols
  {
    if n != 0 {
      BallMarksInGrid(data, n - 1, config);
      FrameMarksInGrid(data[n - 1], 0, config);
      MarkFits(config);
    }
  }

  lemma {:induction false} FrameMarksInGrid(frame: seq<Integration.Detection>, cls: int, config: Config)
    requires Fits(config)
    ensures forall m :: m in Integration.FrameMarks(frame, cls, Mark(config)) ==> 0 <= m.row < Rows && 0 <= m.col < Cols
  {
    if |frame| != 0 {
      FrameMarksInGrid(frame[..|frame| - 1], cls, config);
      MarkFits(config);
    }
  }

  /**
   * A ball seen at `p` in frame `k` and missing from the frames after it is
   * counted once per such frame in the entry `[x_c][y_c]` of `p`, the very
   * entry its detection was counted in.
   */
  lemma CarriedBallStaysInItsCell(data: seq<seq<Integration.Detection>>, k: nat, n: nat, config: Config)
    requires k < n <= |data| && Integration.LastBall(data[k]).Some? && Fits(config)
    requires forall k' :: k < k' < n ==> Integration.LastBall(data[k']).None?
    ensures var p := Integration.LastBall(data[k]).value;
      var c := HeatMap.PositionToGrid(config.length, config.width, config.gridRows, config.gridCols, p);
      var at := Integration.GridIndex(c.row, c.col);
      Integration.Count(Integration.BallMarks(data, n, Centre(config), Mark(config)), at)
        == Integration.Count(Integration.BallMarks(data, k + 1, Centre(config), Mark(config)), at) + (n - 1 - k)
  {
    var p := Integration.LastBall(data[k]).value;
    Integration.Resting(data, k, n, Centre(config), Mark(config));
    var c := HeatMap.PositionToGrid(config.length, config.width, config.gridRows, config.gridCols, p);
    assert Mark(config)(p) == Integration.GridIndex(c.row, c.col);
  }
}
