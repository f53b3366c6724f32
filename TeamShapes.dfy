/**
 * The team-shape analyzer of `Soccer_Analytics/core/team_shape_analyzer.py`:
 * per frame, the spread, centroid, compactness and stretch of a team, and
 * the distance between every pair of its players; and the count of players
 * per third of the pitch behind `analyze_tactical_balance`.
 */
module TeamShapes {
  import opened Numerics
  import opened Calculations

  /**
   * `ConvexHull(positions).area`, which scipy raises on for too few or
   * collinear points: `None` stands for that error. A hull's `area` in two
   * dimensions is its perimeter, and never negative.
   */
  type Hull = seq<Point> -> Option<real>

  ghost predicate Measurable(hull: Hull)
  {
    forall ps :: hull(ps).Some? ==> 0.0 <= hull(ps).value
  }

  /** Every pair of player indices `(i, j)` with `i < j`: the keys of `player_distances`. */
  function PairKeys(n: nat): set<(nat, nat)>
  {
    set i: nat, j: nat | i < j < n :: (i, j)
  }

  /** The pairs whose second index is `j` and whose first is below `k`. */
  function Column(k: nat, j: nat): set<(nat, nat)>
  {
    set i: nat | i < k :: (i, j)
  }

  lemma {:induction false} ColumnSize(k: nat, j: nat)
    ensures |Column(k, j)| == k
  {
    if k != 0 {
      ColumnSize(k - 1, j);
      assert Column(k, j) == Column(k - 1, j) + {(k - 1, j)};
    }
  }

  /** There are n(n - 1)/2 pairs of n players. */
  lemma {:induction false} PairKeysSize(n: nat)
    ensures 2 * |PairKeys(n)| == n * (n - 1)
  {
    if n != 0 {
      PairKeysSize(n - 1);
      var col := Column(n - 1, n - 1);
      assert PairKeys(n) == PairKeys(n - 1) + col;
      assert PairKeys(n - 1) * col == {};
      ColumnSize(n - 1, n - 1);
      assert n * (n - 1) == (n - 1) * (n - 2) + 2 * (n - 1);
    }
  }

  /** The pairs of row `i` in `pdist` order: `(i, i + 1)`, ..., `(i, n - 1)`. */
  function Row(i: nat, n: nat): (r: seq<(nat, nat)>)
    requires i < n
    ensures |r| == n - i - 1
  {
    seq(n - i - 1, k requires 0 <= k < n - i - 1 => (i, i + 1 + k))
  }

  /** The pairs from row `i` on, in the row-major order in which `pdist` lists the distances. */
  function PdistOrder(i: nat, n: nat): seq<(nat, nat)>
    decreases n - i
  {
    if n <= i then [] else Row(i, n) + PdistOrder(i + 1, n)
  }

  /** `pdist` lists each pair from row `i` on exactly once: the right pairs, and as many as there are. */
  lemma PdistOrderFacts(i: nat, n: nat)
    ensures forall p :: p in PdistOrder(i, n) <==> i <= p.0 < p.1 < n
    ensures i <= n ==> 2 * |PdistOrder(i, n)| == (n - i) * (n - i - 1)
  {
    PdistOrderMembers(i, n);
    PdistOrderLength(i, n);
  }

  lemma {:induction false} PdistOrderMembers(i: nat, n: nat)
    ensures forall p :: p in PdistOrder(i, n) <==> i <= p.0 < p.1 < n
    decreases n - i
  {
    if i < n {
      PdistOrderMembers(i + 1, n);
      RowMembers(i, n);
      assert PdistOrder(i, n) == Row(i, n) + PdistOrder(i + 1, n);
    }
  }

  /** Row `i` holds exactly the pairs `(i, j)` with `i < j < n`. */
  lemma RowMembers(i: nat, n: nat)
    requires i < n
    ensures forall p :: p in Row(i, n) <==> p.0 == i < p.1 < n
  {
    var r := Row(i, n);
    forall p: (nat, nat) | p in r ensures p.0 == i < p.1 < n {
      var k :| 0 <= k < |r| && r[k] == p;
    }
    forall p: (nat, nat) | p.0 == i < p.1 < n ensures p in r {
      assert r[p.1 - i - 1] == p;
    }
  }

  lemma {:induction false} PdistOrderLength(i: nat, n: nat)
    ensures i <= n ==> 2 * |PdistOrder(i, n)| == (n - i) * (n - i - 1)
    decreases n - i
  {
    if i < n {
      PdistOrderLength(i + 1, n);
      var k := n - i - 1;
      assert |PdistOrder(i, n)| == k + |PdistOrder(i + 1, n)|;
      assert (n - i) * (n - i - 1) == (k + 1) * k == k * (k - 1) + 2 * k;
    }
  }

  /** `pdist(positions)`: the distance of every pair, row by row. */
  function Pdist(m: Math, ps: seq<Point>): (d: seq<real>)
    requires Lawful(m)
  {
    var order := PdistOrder(0, |ps|);
    PdistOrderFacts(0, |ps|);
    seq(|order|, k requires 0 <= k < |order| => Dist(m, ps[order[k].0], ps[order[k].1]))
  }

  /** The `player_distances` dictionary. */
  function PlayerDistances(m: Math, ps: seq<Point>): map<(nat, nat), real>
    requires Lawful(m)
  {
    map p | p in PairKeys(|ps|) :: Dist(m, ps[p.0], ps[p.1])
  }

  /**
   * One entry per pair of players, n(n - 1)/2 of them, each the players'
   * distance; `pdist` holds the same distances in row-major order.
   */
  lemma PlayerDistancesFacts(m: Math, ps: seq<Point>)
    requires Lawful(m)
    ensures var d := PlayerDistances(m, ps);
      && (forall i: nat, j: nat :: (i, j) in d <==> i < j < |ps|)
      && 2 * |d.Keys| == |ps| * (|ps| - 1)
      && |Pdist(m, ps)| == |d.Keys|
      && forall k :: 0 <= k < |Pdist(m, ps)| ==>
           PdistOrder(0, |ps|)[k] in d && d[PdistOrder(0, |ps|)[k]] == Pdist(m, ps)[k]
  {
    var d := PlayerDistances(m, ps);
    assert d.Keys == PairKeys(|ps|);
    PairKeysSize(|ps|);
    PdistOrderFacts(0, |ps|);
  }

  /** `stretch_index`: the hull's measure over half the bounding box, 0 when that box is flat. */
  function StretchIndex(area: real, width: real, depth: real): (s: real)
  {
    var minArea := Mul(width, depth) / 2.0;
    if minArea > 0.0 then area / minArea else 0.0
  }

  /** A flat team has stretch 0; otherwise the stretch times half the box is the hull's measure. */
  lemma StretchIndexFacts(area: real, width: real, depth: real)
    requires 0.0 <= width && 0.0 <= depth
    ensures Mul(width, depth) == 0.0 ==> StretchIndex(area, width, depth) == 0.0
    ensures 0.0 < width && 0.0 < depth ==> StretchIndex(area, width, depth) * (Mul(width, depth) / 2.0) == area
    ensures 0.0 <= area ==> 0.0 <= StretchIndex(area, width, depth)
  {
    var minArea := Mul(width, depth) / 2.0;
    if 0.0 < width && 0.0 < depth {
      ProductPositive(width, depth, Mul(width, depth));
      QuotientTimesDivisor(area, minArea);
    }
    if 0.0 <= area && 0.0 < minArea {
      QuotientNonneg(area, minArea);
    }
  }

  datatype TeamShape = TeamShape(
    timestamp: real,
    positions: seq<Point>,
    width: real,
    depth: real,
    area: real,
    /** `np.mean(pdist(...))`; `None` where numpy gives NaN, for a single player. */
    compactness: Option<real>,
    centroid: Point,
    stretchIndex: real,
    playerDistances: map<(nat, nat), real>)

  /** The shape `calculate_team_shape` records for a non-empty team whose hull measures `area`. */
  function ShapeOf(m: Math, timestamp: real, positions: seq<Point>, area: real): (s: TeamShape)
    requires Lawful(m) && 0 < |positions|
    ensures s.timestamp == timestamp && s.positions == positions && s.area == area
    ensures s.width == Max(Xs(positions)) - Min(Xs(positions)) && s.depth == Max(Ys(positions)) - Min(Ys(positions))
    ensures s.stretchIndex == StretchIndex(area, s.width, s.depth)
  {
    var xs, ys := Xs(positions), Ys(positions);
    var width, depth := Max(xs) - Min(xs), Max(ys) - Min(ys);
    var distances := Pdist(m, positions);
    TeamShape(timestamp, positions, width, depth, area,
              if |distances| == 0 then None else Some(Mean(distances)),
              Centroid(positions), StretchIndex(area, width, depth), PlayerDistances(m, positions))
  }

  /** Width and depth are the team's extents and never negative; the centroid lies between its extremes. */
  lemma ShapeExtents(m: Math, timestamp: real, positions: seq<Point>, area: real)
    requires Lawful(m) && 0 < |positions|
    ensures var s := ShapeOf(m, timestamp, positions, area);
      && s.width == Max(Xs(positions)) - Min(Xs(positions)) && 0.0 <= s.width
      && s.depth == Max(Ys(positions)) - Min(Ys(positions)) && 0.0 <= s.depth
      && Min(Xs(positions)) <= s.centroid.x <= Max(Xs(positions))
      && Min(Ys(positions)) <= s.centroid.y <= Max(Ys(positions))
  {
    CentroidInBoundingBox(positions);
  }

  /** Compactness is a mean pair distance, measured once there are two players. */
  lemma CompactnessFacts(m: Math, timestamp: real, positions: seq<Point>, area: real)
    requires Lawful(m) && 0 < |positions|
    ensures var s := ShapeOf(m, timestamp, positions, area);
      && (s.compactness.Some? <==> 2 <= |positions|)
      && (s.compactness.Some? ==> 0.0 <= s.compactness.value)
  {
    var d := Pdist(m, positions);
    PdistOrderFacts(0, |positions|);
    if 2 <= |positions| {
      assert (0, 1) in PdistOrder(0, |positions|);
      MeanBetween(d, 0.0, Max(d));
    }
  }

  /** The stretch index of a flat team is 0, and never negative. */
  lemma StretchFacts(m: Math, timestamp: real, positions: seq<Point>, area: real)
    requires Lawful(m) && 0 < |positions|
    ensures var s := ShapeOf(m, timestamp, positions, area);
      && (Mul(s.width, s.depth) == 0.0 ==> s.stretchIndex == 0.0)
      && (0.0 <= area ==> 0.0 <= s.stretchIndex)
  {
    var s := ShapeOf(m, timestamp, positions, area);
    var w, d := s.width, s.depth;
    assert 0.0 <= w by {
      assert Min(Xs(positions)) <= Xs(positions)[0] <= Max(Xs(positions));
    }
    assert 0.0 <= d by {
      assert Min(Ys(positions)) <= Ys(positions)[0] <= Max(Ys(positions));
    }
    StretchIndexFacts(area, w, d);
  }

  /** The result of `calculate_team_shape`. */
  datatype ShapeOutcome =
    | TooFewPlayers   // `{}`
    | HullFailed      // scipy raises before anything is recorded
    | Measured(shape: TeamShape)

  /** The counts of `np.histogram(values, bins=3, range=(0, top))`: values outside the range are not counted, and the top edge belongs to the last bin. */
  function Thirds(values: seq<real>, top: real): (c: (nat, nat, nat))
    ensures c.0 + c.1 + c.2 <= |values|
  {
    if |values| == 0 then (0, 0, 0)
    else
      var c := Thirds(values[..|values| - 1], top);
      var v := values[|values| - 1];
      if v < 0.0 || top < v then c
      else if v < top / 3.0 then (c.0 + 1, c.1, c.2)
      else if v < 2.0 * top / 3.0 then (c.0, c.1 + 1, c.2)
      else (c.0, c.1, c.2 + 1)
  }

  /** Every value inside the range is counted in exactly one third. */
  lemma {:induction false} ThirdsCountEveryValueInRange(values: seq<real>, top: real)
    requires forall i :: 0 <= i < |values| ==> 0.0 <= values[i] <= top
    ensures var c := Thirds(values, top); c.0 + c.1 + c.2 == |values|
  {
    if |values| != 0 {
      ThirdsCountEveryValueInRange(values[..|values| - 1], top);
    }
  }

  /** No value below two thirds of the range reaches the last third. */
  lemma {:induction false} ThirdsLastBinEmpty(values: seq<real>, top: real)
    requires forall i :: 0 <= i < |values| ==> values[i] < 2.0 * top / 3.0
    ensures Thirds(values, top).2 == 0
  {
    if |values| != 0 {
      ThirdsLastBinEmpty(values[..|values| - 1], top);
    }
  }

  /** The `player_distribution` of `analyze_tactical_balance`: players per third, by y against the field length. */
  datatype Distribution = Distribution(defensiveThird: nat, middleThird: nat, attackingThird: nat)

  class TeamShapeAnalyzer {
    const math: Math
    const hull: Hull
    const minPlayers: int
    const fieldLength: real
    const fieldWidth: real
    var shapes: seq<TeamShape>

    ghost predicate Valid()
      reads this
    {
      Lawful(math) && Measurable(hull) && 1 <= minPlayers
    }

    /** The thresholds and pitch size of the configuration file. */
    constructor(m: Math, h: Hull, minPlayers: int, fieldLength: real, fieldWidth: real)
      requires Lawful(m) && Measurable(h) && 1 <= minPlayers
      ensures Valid() && shapes == []
      ensures math == m && hull == h && this.minPlayers == minPlayers
      ensures this.fieldLength == fieldLength && this.fieldWidth == fieldWidth
    {
      math, hull := m, h;
      this.minPlayers, this.fieldLength, this.fieldWidth := minPlayers, fieldLength, fieldWidth;
      shapes := [];
    }

    /**
     * `calculate_team_shape`: too few players give nothing and record
     * nothing; a hull that scipy cannot build raises before anything is
     * recorded; otherwise exactly one shape is recorded and returned.
     */
    method CalculateTeamShape(timestamp: real, positions: seq<Point>) returns (o: ShapeOutcome)
      requires Valid()
      modifies this
      ensures Valid()
      ensures |positions| < minPlayers ==> o == TooFewPlayers && shapes == old(shapes)
      ensures minPlayers <= |positions| && hull(positions).None? ==> o == HullFailed && shapes == old(shapes)
      ensures minPlayers <= |positions| && hull(positions).Some? ==>
        && o == Measured(ShapeOf(math, timestamp, positions, hull(positions).value))
        && shapes == old(shapes) + [o.shape]
    {
      if |positions| < minPlayers {
        return TooFewPlayers;
      }
      var area := hull(positions);
      if area.None? {
        return HullFailed;
      }
      var shape := ShapeOf(math, timestamp, positions, area.value);
      shapes := shapes + [shape];
      o := Measured(shape);
    }

    /** The player counts of `analyze_tactical_balance`, for the last recorded shape. */
    function PlayerDistribution(): (d: Option<Distribution>)
      requires Valid()
      reads this
      ensures d.None? <==> |shapes| == 0
      ensures d.Some? ==> d.value.defensiveThird + d.value.middleThird + d.value.attackingThird <= |shapes[|shapes| - 1].positions|
    {
      if |shapes| == 0 then None
      else
        var c := Thirds(Ys(shapes[|shapes| - 1].positions), fieldLength);
        Some(Distribution(c.0, c.1, c.2))
    }
  }

  /**
   * Players inside the pitch's length are all counted; on a pitch whose
   * width is under two thirds of its length (105 by 68 among them) the
   * y coordinate never reaches the attacking third.
   */
  lemma DistributionFacts(a: TeamShapeAnalyzer)
    requires a.Valid() && 0 < |a.shapes| && 0.0 <= a.fieldWidth < 2.0 * a.fieldLength / 3.0
    requires forall p :: p in a.shapes[|a.shapes| - 1].positions ==> 0.0 <= p.y <= a.fieldWidth
    ensures var d := a.PlayerDistribution().value;
      && d.defensiveThird + d.middleThird + d.attackingThird == |a.shapes[|a.shapes| - 1].positions|
      && d.attackingThird == 0
  {
    var ys := Ys(a.shapes[|a.shapes| - 1].positions);
    ThirdsCountEveryValueInRange(ys, a.fieldLength);
    ThirdsLastBinEmpty(ys, a.fieldLength);
  }
}
