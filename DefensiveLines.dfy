/**
 * The defensive-line analyzer of `Soccer_Analytics/core/defensive_line_analyzer.py`:
 * a straight line is fitted through the defenders, and its height, angle,
 * straightness, spacing, coordination and offside line are logged frame by
 * frame.
 */
module DefensiveLines {
  import opened Numerics
  import opened Calculations

  /**
   * `scipy.stats.linregress(xs, ys)`: slope, intercept and the correlation
   * coefficient r. It is not definable here, so it is a parameter; all the
   * model relies on is that r is a correlation coefficient.
   */
  type Regression = (seq<real>, seq<real>) -> (real, real, real)

  ghost predicate Correlation(reg: Regression)
  {
    forall xs, ys :: -1.0 <= reg(xs, ys).2 <= 1.0
  }

  /** A fitted slope; `float('inf')` marks a vertical line. */
  datatype Slope = Vertical | Finite(value: real)

  /** The intercept is `None` where numpy gives NaN (the mean of no x at all). */
  datatype LineFit = LineFit(slope: Slope, intercept: Option<real>, rSquared: real)

  /** `set(x_coords)` */
  function DistinctXs(ps: seq<Point>): set<real>
  {
    set p | p in ps :: p.x
  }

  /** `fit_defensive_line`: fewer than two distinct x values is the vertical case. */
  function FitDefensiveLine(reg: Regression, ps: seq<Point>): (f: LineFit)
    ensures f.slope.Vertical? <==> |DistinctXs(ps)| < 2
    ensures f.slope.Vertical? ==> f.rSquared == 1.0 && f.intercept == (if |ps| == 0 then None else Some(Mean(Xs(ps))))
  {
    if |DistinctXs(ps)| < 2 then
      LineFit(Vertical, if |ps| == 0 then None else Some(Mean(Xs(ps))), 1.0)
    else
      var (slope, intercept, r) := reg(Xs(ps), Ys(ps));
      LineFit(Finite(slope), Some(intercept), r * r)
  }

  /** The vertical case is exactly the one where every defender stands at the same x. */
  lemma VerticalIffSameX(reg: Regression, ps: seq<Point>)
    requires 0 < |ps|
    ensures FitDefensiveLine(reg, ps).slope.Vertical? <==> forall i :: 0 <= i < |ps| ==> ps[i].x == ps[0].x
  {
    var xs := DistinctXs(ps);
    if forall i :: 0 <= i < |ps| ==> ps[i].x == ps[0].x {
      assert xs == {ps[0].x};
    } else {
      var i :| 0 <= i < |ps| && ps[i].x != ps[0].x;
      var two := {ps[0].x, ps[i].x};
      assert two <= xs;
      assert xs == two + (xs - two);
      assert |two| == 2;
    }
  }

  lemma UnitSquare(r: real)
    requires -1.0 <= r <= 1.0
    ensures 0.0 <= r * r <= 1.0
  {
    if 0.0 <= r {
      ProductNonneg(r, 1.0 - r, r * (1.0 - r));
    } else {
      ProductNonneg(-r, 1.0 + r, -r * (1.0 + r));
    }
    ProductNonneg(r, r, r * r);
  }

  /** The straightness (r squared) lies in [0, 1]. */
  lemma StraightnessIsAFraction(reg: Regression, ps: seq<Point>)
    requires Correlation(reg)
    ensures 0.0 <= FitDefensiveLine(reg, ps).rSquared <= 1.0
  {
    if 2 <= |DistinctXs(ps)| {
      UnitSquare(reg(Xs(ps), Ys(ps)).2);
    }
  }

  /** `np.degrees(np.arctan(slope))`, and 90 for a vertical line. */
  function LineAngle(m: Math, s: Slope): (a: real)
    requires Lawful(m)
    ensures s.Vertical? ==> a == 90.0
    ensures s.Finite? ==> -90.0 < a < 90.0
  {
    match s
    case Vertical => 90.0
    case Finite(k) =>
      AngleLaws(m, 0.0, k);
      HalfTurnInDegrees(m, m.arctan(k));
      Degrees(m, m.arctan(k))
  }

  /** An angle strictly inside a quarter turn either way is strictly inside (-90, 90) degrees. */
  lemma HalfTurnInDegrees(m: Math, t: real)
    requires Lawful(m) && -m.pi / 2.0 < t < m.pi / 2.0
    ensures -90.0 < Degrees(m, t) < 90.0
  {
    var q := t / m.pi;
    QuotientTimesDivisor(t, m.pi);
    if 0.5 <= q {
      ProductNonneg(q - 0.5, m.pi, (q - 0.5) * m.pi);
    }
    if q <= -0.5 {
      ProductNonneg(-0.5 - q, m.pi, (-0.5 - q) * m.pi);
    }
    assert Degrees(m, t) == 180.0 * q;
  }

  /** Points in non-decreasing order of x. */
  predicate SortedByX(s: seq<Point>)
  {
    forall i, j :: 0 <= i < j < |s| ==> s[i].x <= s[j].x
  }

  /** Puts `p` before the first point whose x is not below its own. */
  function InsertByX(p: Point, s: seq<Point>): (r: seq<Point>)
    ensures |r| == |s| + 1 && multiset(r) == multiset(s) + multiset{p}
  {
    if |s| == 0 || p.x <= s[0].x then [p] + s
    else
      assert s == [s[0]] + s[1..];
      [s[0]] + InsertByX(p, s[1..])
  }

  /** `sorted(positions, key=lambda x: x[0])`: ties keep their order. */
  function SortByX(s: seq<Point>): (r: seq<Point>)
    ensures multiset(r) == multiset(s) && |r| == |s|
  {
    if |s| == 0 then []
    else
      assert s == [s[0]] + s[1..];
      InsertByX(s[0], SortByX(s[1..]))
  }

  lemma {:induction false} InsertKeepsSorted(p: Point, s: seq<Point>)
    requires SortedByX(s)
    ensures SortedByX(InsertByX(p, s))
    decreases |s|
  {
    if |s| != 0 && s[0].x < p.x {
      InsertKeepsSorted(p, s[1..]);
      var r := InsertByX(p, s);
      forall i, j | 0 <= i < j < |r| ensures r[i].x <= r[j].x {
        if i == 0 {
          assert r[j] in multiset(InsertByX(p, s[1..]));
          assert r[j] == p || r[j] in s[1..];
        }
      }
    }
  }

  /** The defenders come out from left to right, each of them once. */
  lemma {:induction false} SortByXIsSorted(s: seq<Point>)
    ensures SortedByX(SortByX(s))
    decreases |s|
  {
    if |s| != 0 {
      SortByXIsSorted(s[1..]);
      InsertKeepsSorted(s[0], SortByX(s[1..]));
    }
  }

  /** The distances between neighbours, in order. */
  function Gaps(m: Math, s: seq<Point>): (r: seq<real>)
    requires Lawful(m)
    ensures |r| == if |s| == 0 then 0 else |s| - 1
  {
    if |s| < 2 then [] else seq(|s| - 1, i requires 0 <= i < |s| - 1 => Dist(m, s[i], s[i + 1]))
  }

  /** The gaps between neighbours add up to the length of the path through them. */
  lemma {:induction false} GapsAddUpToPath(m: Math, s: seq<Point>)
    requires Lawful(m)
    ensures Sum(Gaps(m, s)) == PathLength(m, s)
    decreases |s|
  {
    if 2 <= |s| {
      var n := |s|;
      GapsAddUpToPath(m, s[..n - 1]);
      var g := Gaps(m, s);
      if n == 2 {
        assert g == [Dist(m, s[0], s[1])];
        assert g[..0] == [];
      } else {
        assert g[..n - 2] == Gaps(m, s[..n - 1]);
      }
    }
  }

  /** `calculate_line_spacing`: 0 for fewer than two defenders, else the mean gap between neighbours left to right. */
  function LineSpacing(m: Math, ps: seq<Point>): real
    requires Lawful(m)
  {
    if |ps| < 2 then 0.0 else Mean(Gaps(m, SortByX(ps)))
  }

  /** The spacing is never negative. */
  lemma LineSpacingSign(m: Math, ps: seq<Point>)
    requires Lawful(m)
    ensures 0.0 <= LineSpacing(m, ps)
  {
    if 2 <= |ps| {
      var g := Gaps(m, SortByX(ps));
      SumNonneg(g);
      QuotientNonneg(Sum(g), |g| as real);
    }
  }

  /** The spacing of n defenders is the length of the left-to-right path through them shared over the n - 1 gaps. */
  lemma LineSpacingSharesThePath(m: Math, ps: seq<Point>)
    requires Lawful(m) && 2 <= |ps|
    ensures LineSpacing(m, ps) == PathLength(m, SortByX(ps)) / (|ps| - 1) as real
  {
    GapsAddUpToPath(m, SortByX(ps));
  }

  /** The spacing loop: one gap per adjacent pair of the defenders sorted by x, then their mean. */
  method CalculateLineSpacing(m: Math, positions: seq<Point>) returns (spacing: real)
    requires Lawful(m)
    ensures spacing == LineSpacing(m, positions)
  {
    if |positions| < 2 {
      return 0.0;
    }
    var sorted := SortByX(positions);
    var spacings := AdjacentGaps(m, sorted);
    spacing := Mean(spacings);
  }

  /** The loop of `calculate_line_spacing`. */
  method AdjacentGaps(m: Math, sorted: seq<Point>) returns (spacings: seq<real>)
    requires Lawful(m) && 2 <= |sorted|
    ensures spacings == Gaps(m, sorted)
  {
    spacings := [];
    for i := 0 to |sorted| - 1
      invariant |spacings| == i
      invariant forall k :: 0 <= k < i ==> spacings[k] == Dist(m, sorted[k], sorted[k + 1])
    {
      spacings := spacings + [Dist(m, sorted[i], sorted[i + 1])];
    }
  }

  /** How far each defender moved since the previous frame, player by player. */
  function Movements(m: Math, current: seq<Point>, previous: seq<Point>): (r: seq<real>)
    requires Lawful(m) && |current| == |previous|
    ensures |r| == |current|
  {
    seq(|current|, i requires 0 <= i < |current| => Dist(m, current[i], previous[i]))
  }

  /** `np.std`: the square root of the population variance. */
  function Std(m: Math, s: seq<real>): (d: real)
    requires Lawful(m) && 0 < |s|
    ensures 0.0 <= d
  {
    SqrtLaw(m, Variance(s));
    m.sqrt(Variance(s))
  }

  /**
   * `calculate_coordination`: 0 when the two frames have different numbers
   * of defenders, else the spread of the movements; `None` stands for the
   * NaN `np.std` gives when both frames are empty.
   */
  function Coordination(m: Math, current: seq<Point>, previous: seq<Point>): (c: Option<real>)
    requires Lawful(m)
    ensures c.None? <==> |current| == |previous| == 0
    ensures c.Some? ==> 0.0 <= c.value
    ensures |current| != |previous| ==> c == Some(0.0)
  {
    if |current| != |previous| then Some(0.0)
    else if |current| == 0 then None
    else Some(Std(m, Movements(m, current, previous)))
  }

  /** The movement loop of `calculate_coordination`. */
  method CalculateCoordination(m: Math, current: seq<Point>, previous: seq<Point>) returns (c: Option<real>)
    requires Lawful(m)
    ensures c == Coordination(m, current, previous)
  {
    if |current| != |previous| {
      return Some(0.0);
    }
    var movements: seq<real> := [];
    for i := 0 to |current|
      invariant |movements| == i
      invariant forall k :: 0 <= k < i ==> movements[k] == Dist(m, current[k], previous[k])
    {
      movements := movements + [Dist(m, current[i], previous[i])];
    }
    if |movements| == 0 {
      return None;
    }
    assert movements == Movements(m, current, previous);
    c := Some(Std(m, movements));
  }

  /** A line that steps forward as one (every defender moved by the same vector) is perfectly coordinated. */
  lemma UnisonIsPerfectlyCoordinated(m: Math, current: seq<Point>, previous: seq<Point>, step: Point)
    requires Lawful(m) && 0 < |current| == |previous|
    requires forall i :: 0 <= i < |current| ==> current[i] == Add(previous[i], step)
    ensures Coordination(m, current, previous) == Some(0.0)
  {
    var s := Movements(m, current, previous);
    var d := Dist(m, Add(previous[0], step), previous[0]);
    forall i | 0 <= i < |s| ensures s[i] == d {
      assert SqDist(current[i], previous[i]) == SqDist(Add(previous[0], step), previous[0]);
    }
    VarianceOfConstant(s, d);
    SqrtOfSquare(m, 0.0);
  }

  /** A logged defensive line; the source's dictionary result holds the same metrics. */
  datatype DefensiveLine = DefensiveLine(
    timestamp: real,
    positions: seq<Point>,
    lineHeight: real,
    lineAngle: real,
    straightness: real,
    spacing: real,
    coordination: real,
    offsideLine: real)

  /**
   * The line `analyze_defensive_line` logs for at least three defenders:
   * the mean y is the height, the highest y the offside line, and the
   * coordination is measured only against a previous frame.
   */
  function LineOf(m: Math, reg: Regression, timestamp: real, positions: seq<Point>,
                  previous: Option<seq<Point>>, previousTime: Option<real>): DefensiveLine
    requires Lawful(m) && 3 <= |positions|
  {
    var fit := FitDefensiveLine(reg, positions);
    var coordination :=
      if previous.Some? && previousTime.Some? then Coordination(m, positions, previous.value).value else 0.0;
    DefensiveLine(timestamp, positions, Mean(Ys(positions)), LineAngle(m, fit.slope), fit.rSquared,
                  LineSpacing(m, positions), coordination, Max(Ys(positions)))
  }

  /** The offside line is never below the line height; every metric keeps its range. */
  lemma LineFacts(m: Math, reg: Regression, timestamp: real, positions: seq<Point>,
                  previous: Option<seq<Point>>, previousTime: Option<real>)
    requires Lawful(m) && Correlation(reg) && 3 <= |positions|
    ensures var l := LineOf(m, reg, timestamp, positions, previous, previousTime);
      && l.lineHeight <= l.offsideLine
      && 0.0 <= l.straightness <= 1.0
      && -90.0 < l.lineAngle <= 90.0
      && 0.0 <= l.spacing
      && 0.0 <= l.coordination
      && (previous.None? || previousTime.None? ==> l.coordination == 0.0)
      && ((forall i :: 0 <= i < |positions| ==> positions[i].x == positions[0].x) ==> l.lineAngle == 90.0 && l.straightness == 1.0)
  {
    var ys := Ys(positions);
    MeanWithinExtremes(ys);
    StraightnessIsAFraction(reg, positions);
    LineSpacingSign(m, positions);
    VerticalIffSameX(reg, positions);
  }

  class DefensiveLineAnalyzer {
    const math: Math
    const regression: Regression
    var defensiveLines: seq<DefensiveLine>
    var previousPositions: Option<seq<Point>>
    var previousTimestamp: Option<real>

    /** The previous state is that of the last logged line, and every logged line has at least three defenders. */
    ghost predicate Valid()
      reads this
    {
      && Lawful(math) && Correlation(regression)
      && (forall k :: 0 <= k < |defensiveLines| ==> 3 <= |defensiveLines[k].positions|)
      && (|defensiveLines| == 0 ==> previousPositions.None? && previousTimestamp.None?)
      && (|defensiveLines| != 0 ==>
            && previousPositions == Some(defensiveLines[|defensiveLines| - 1].positions)
            && previousTimestamp == Some(defensiveLines[|defensiveLines| - 1].timestamp))
    }

    constructor(m: Math, reg: Regression)
      requires Lawful(m) && Correlation(reg)
      ensures Valid() && math == m && regression == reg
      ensures defensiveLines == [] && previousPositions.None? && previousTimestamp.None?
    {
      math, regression := m, reg;
      defensiveLines, previousPositions, previousTimestamp := [], None, None;
    }

    /**
     * `analyze_defensive_line`: fewer than three defenders gives nothing and
     * changes nothing; otherwise exactly one line is logged and becomes the
     * previous state.
     */
    method AnalyzeDefensiveLine(timestamp: real, positions: seq<Point>) returns (r: Option<DefensiveLine>)
      requires Valid()
      modifies this
      ensures Valid()
      ensures |positions| < 3 ==> r.None? && unchanged(this)
      ensures 3 <= |positions| ==>
        && r == Some(LineOf(math, regression, timestamp, positions, old(previousPositions), old(previousTimestamp)))
        && defensiveLines == old(defensiveLines) + [r.value]
        && previousPositions == Some(positions) && previousTimestamp == Some(timestamp)
    {
      if |positions| < 3 {
        return None;
      }
      var line := MeasureLine(timestamp, positions);
      Log(line);
      r := Some(line);
    }

    /** Appends a line to the log and makes its frame the previous one. */
    method Log(line: DefensiveLine)
      requires Valid() && 3 <= |line.positions|
      modifies this
      ensures Valid()
      ensures defensiveLines == old(defensiveLines) + [line]
      ensures previousPositions == Some(line.positions) && previousTimestamp == Some(line.timestamp)
    {
      defensiveLines, previousPositions, previousTimestamp := defensiveLines + [line], Some(line.positions), Some(line.timestamp);
    }

    /** The metrics of `analyze_defensive_line`, measured against the previous frame when there is one. */
    method MeasureLine(timestamp: real, positions: seq<Point>) returns (line: DefensiveLine)
      requires Lawful(math) && 3 <= |positions|
      ensures line == LineOf(math, regression, timestamp, positions, previousPositions, previousTimestamp)
      ensures line.positions == positions && line.timestamp == timestamp
    {
      var fit := FitDefensiveLine(regression, positions);
      var lineHeight := Mean(Ys(positions));
      var lineAngle := LineAngle(math, fit.slope);
      var spacing := CalculateLineSpacing(math, positions);
      var coordination := 0.0;
      if previousPositions.Some? && previousTimestamp.Some? {
        var c := CalculateCoordination(math, positions, previousPositions.value);
        coordination := c.value;
      }
      var offsideLine := Max(Ys(positions));
      line := DefensiveLine(timestamp, positions, lineHeight, lineAngle, fit.rSquared, spacing, coordination, offsideLine);
    }
  }

  /** A line level across the pitch sits exactly on its own offside line. */
  lemma LevelLineIsOnsideLine(m: Math, reg: Regression, timestamp: real, positions: seq<Point>,
                              previous: Option<seq<Point>>, previousTime: Option<real>)
    requires Lawful(m) && Correlation(reg) && 3 <= |positions|
    requires (forall i :: 0 <= i < |positions| ==> positions[i].y == positions[0].y)
    ensures LineOf(m, reg, timestamp, positions, previous, previousTime).offsideLine
         == LineOf(m, reg, timestamp, positions, previous, previousTime).lineHeight
  {
    var ys := Ys(positions);
    MeanOfConstant(ys, positions[0].y);
  }
}
