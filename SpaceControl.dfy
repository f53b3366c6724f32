/**
 * Pitch control by arrival time. Every player reaches every point of a
 * regular grid over the pitch after a time given by a two-phase motion
 * (constant acceleration up to a top speed, then the top speed); a point
 * close enough in time gets a control score that decays exponentially
 * with that time. A point belongs to the home side only when the home
 * scores add up to strictly more than the away scores. The analyzer keeps
 * the per-player control zones and the grid of dominant sides of its last
 * analysis.
 */
module SpaceControl {
  import opened Numerics

  datatype SpaceConfig = SpaceConfig(
    fieldLength: real,
    fieldWidth: real,
    gridResolution: real,
    maxReachTime: real,
    acceleration: real,
    maxSpeed: real,
    controlDecay: real)

  /** The settings the analyzer divides by are positive, and the pitch has an area. */
  predicate ValidConfig(c: SpaceConfig)
  {
    0.0 < c.fieldLength && 0.0 < c.fieldWidth && 0.0 < c.gridResolution
    && 0.0 < c.acceleration && 0.0 < c.maxSpeed
  }

  /** The defaults used when the configuration names no space-control settings. */
  function DefaultConfig(fieldLength: real, fieldWidth: real): SpaceConfig
  {
    SpaceConfig(fieldLength, fieldWidth, 1.0, 4.0, 3.0, 8.0, 0.7)
  }

  /** `np.sqrt(vx**2 + vy**2)` */
  function Speed(m: Math, vel: Point): (s: real)
    requires Lawful(m)
    ensures 0.0 <= s && Sq(s) == Sq(vel.x) + Sq(vel.y)
  {
    Dist(m, vel, Point(0.0, 0.0))
  }

  /** `(max_speed - current_speed) / acceleration`; not clamped, so negative above top speed. */
  function TimeToMax(c: SpaceConfig, v: real): (t: real)
    requires ValidConfig(c)
    ensures Mul(c.acceleration, t) == c.maxSpeed - v
  {
    QuotientTimesDivisor(c.maxSpeed - v, c.acceleration);
    (c.maxSpeed - v) / c.acceleration
  }

  /** `v * t + 0.5 * a * t**2` at `t = TimeToMax`. */
  function DistanceToMax(c: SpaceConfig, v: real): real
    requires ValidConfig(c)
  {
    var t := TimeToMax(c, v);
    Mul(v, t) + Mul(0.5 * c.acceleration, Sq(t))
  }

  /** `a * y == 0` with `a` positive forces `y == 0`. */
  lemma CancelPositive(a: real, y: real)
    requires 0.0 < a && Mul(a, y) == 0.0
    ensures y == 0.0
  {
    if y < 0.0 {
      ProductPositive(a, -y, Mul(a, -y));
    } else if 0.0 < y {
      ProductPositive(a, y, Mul(a, y));
    }
  }

  /** The sign of a quantity `y` with `a * y == w` and `a` positive is the sign of `w`. */
  lemma SignOfQuotient(a: real, y: real, w: real)
    requires 0.0 < a && Mul(a, y) == w
    ensures 0.0 <= y <==> 0.0 <= w
    ensures 0.0 < y <==> 0.0 < w
  {
    if y < 0.0 {
      ProductPositive(a, -y, Mul(a, -y));
    } else {
      ProductNonneg(a, y, Mul(a, y));
      if 0.0 < y {
        ProductPositive(a, y, Mul(a, y));
      }
    }
  }

  /**
   * Speeding up from `v` to the top speed `M` covers `(M^2 - v^2) / 2a`: it is
   * non-negative exactly when the player is not already above top speed.
   */
  lemma DistanceToMaxSign(c: SpaceConfig, v: real)
    requires ValidConfig(c) && 0.0 <= v
    ensures Mul(c.acceleration, DistanceToMax(c, v)) == 0.5 * (Sq(c.maxSpeed) - Sq(v))
    ensures 0.0 <= DistanceToMax(c, v) <==> v <= c.maxSpeed
  {
    var a, M, t := c.acceleration, c.maxSpeed, TimeToMax(c, v);
    var dtm := DistanceToMax(c, v);
    assert Mul(a, dtm) == Mul(v, Mul(a, t)) + 0.5 * Sq(Mul(a, t));
    assert Mul(a, dtm) == 0.5 * (Sq(M) - Sq(v));
    SignOfQuotient(a, dtm, 0.5 * (Sq(M) - Sq(v)));
    if v <= M {
      ProductNonneg(M - v, M + v, (M - v) * (M + v));
    } else {
      ProductPositive(v - M, v + M, (v - M) * (v + M));
    }
  }

  /**
   * The accelerating-phase root `t = (-v + sqrt(v^2 + 2ad)) / a` is the
   * non-negative solution of `0.5 a t^2 + v t == d`.
   */
  lemma AcceleratingRoot(v: real, a: real, d: real, s: real, t: real)
    requires 0.0 <= v && 0.0 < a && 0.0 <= d && 0.0 <= s
    requires Sq(s) == Sq(v) + 2.0 * Mul(a, d)
    requires Mul(a, t) == s - v
    ensures 0.0 <= t
    ensures Mul(0.5 * a, Sq(t)) + Mul(v, t) == d
  {
    ProductNonneg(a, d, Mul(a, d));
    if s < v {
      SquareStrictlyMonotone(s, v);
    }
    SignOfQuotient(a, t, s - v);
    var x := Mul(0.5 * a, Sq(t)) + Mul(v, t);
    assert Mul(a, x) == 0.5 * Sq(Mul(a, t)) + Mul(v, Mul(a, t));
    assert Mul(a, x) == 0.5 * (Sq(s) - Sq(v));
    assert Mul(a, x - d) == 0.0;
    CancelPositive(a, x - d);
  }

  /**
   * In the top-speed branch `t = T + (d - D) / M`, where `T` and `D` are the
   * time and distance to top speed: `M t` is `M T + d - D`.
   */
  lemma CruisingTime(c: SpaceConfig, v: real, d: real, t: real)
    requires ValidConfig(c) && 0.0 <= v && 0.0 <= d
    requires Mul(c.maxSpeed, t - TimeToMax(c, v)) == d - DistanceToMax(c, v)
    ensures 0.0 <= t
    ensures d == 0.0 && c.maxSpeed < v ==> 0.0 < t
  {
    var a, M, T := c.acceleration, c.maxSpeed, TimeToMax(c, v);
    var dtm := DistanceToMax(c, v);
    DistanceToMaxSign(c, v);
    var w := Mul(a, Mul(M, t));
    assert w == Mul(M, Mul(a, T)) + Mul(a, d) - Mul(a, dtm);
    assert w == Mul(a, d) + 0.5 * Sq(M - v);
    ProductNonneg(a, d, Mul(a, d));
    SquareNonneg(M - v);
    SignOfQuotient(a, Mul(M, t), w);
    SignOfQuotient(M, t, Mul(M, t));
    if d == 0.0 && M < v {
      ProductPositive(v - M, v - M, Sq(M - v));
    }
  }

  /** `(-v + sqrt(v**2 + 2 a d)) / a`: the time to cover `d` while still accelerating. */
  function AcceleratingTime(m: Math, c: SpaceConfig, v: real, d: real): (t: real)
    requires Lawful(m) && ValidConfig(c) && 0.0 <= v && 0.0 <= d
    ensures 0.0 <= t && Mul(0.5 * c.acceleration, Sq(t)) + Mul(v, t) == d
  {
    var a := c.acceleration;
    var radicand := Sq(v) + 2.0 * Mul(a, d);
    ProductNonneg(a, d, Mul(a, d));
    SquareNonneg(v);
    SqrtLaw(m, radicand);
    var s := m.sqrt(radicand);
    QuotientTimesDivisor(-v + s, a);
    AcceleratingRoot(v, a, d, s, (-v + s) / a);
    (-v + s) / a
  }

  /** `time_to_max + (d - distance_to_max) / max_speed`: the rest of `d` is run at top speed. */
  function CruisingArrival(c: SpaceConfig, v: real, d: real): (t: real)
    requires ValidConfig(c) && 0.0 <= v && 0.0 <= d
    ensures 0.0 <= t && DistanceToMax(c, v) + Mul(c.maxSpeed, t - TimeToMax(c, v)) == d
    ensures d == 0.0 && c.maxSpeed < v ==> 0.0 < t
  {
    var rest := (d - DistanceToMax(c, v)) / c.maxSpeed;
    QuotientTimesDivisor(d - DistanceToMax(c, v), c.maxSpeed);
    CruisingTime(c, v, d, TimeToMax(c, v) + rest);
    TimeToMax(c, v) + rest
  }

  /**
   * `calculate_arrival_time`: the distance is reached while still
   * accelerating when the distance to top speed covers it, otherwise the
   * rest is run at top speed. The time is never negative.
   */
  function ArrivalTime(m: Math, c: SpaceConfig, start: Point, vel: Point, target: Point): (t: real)
    requires Lawful(m) && ValidConfig(c)
    ensures 0.0 <= t
    ensures var d, v := Dist(m, target, start), Speed(m, vel);
            DistanceToMax(c, v) >= d ==> Mul(0.5 * c.acceleration, Sq(t)) + Mul(v, t) == d
    ensures var d, v := Dist(m, target, start), Speed(m, vel);
            DistanceToMax(c, v) < d ==> DistanceToMax(c, v) + Mul(c.maxSpeed, t - TimeToMax(c, v)) == d
  {
    var d := Dist(m, target, start);
    var v := Speed(m, vel);
    if DistanceToMax(c, v) >= d then AcceleratingTime(m, c, v, d) else CruisingArrival(c, v, d)
  }

  /**
   * With `time_to_max` unclamped, a point the player already stands on is
   * reached at time 0 exactly when the player is not above top speed.
   */
  lemma ArrivalAtOwnPosition(m: Math, c: SpaceConfig, p: Point, vel: Point)
    requires Lawful(m) && ValidConfig(c)
    ensures ArrivalTime(m, c, p, vel, p) == 0.0 <==> Speed(m, vel) <= c.maxSpeed
  {
    var v := Speed(m, vel);
    var t := ArrivalTime(m, c, p, vel, p);
    DistSelf(m, p);
    DistanceToMaxSign(c, v);
    if v <= c.maxSpeed {
      assert Mul(0.5 * c.acceleration, Sq(t)) + Mul(v, t) == 0.0;
      ProductNonneg(0.5 * c.acceleration, Sq(t), Mul(0.5 * c.acceleration, Sq(t)));
      ProductNonneg(v, t, Mul(v, t));
      SquareNonneg(t);
      if t != 0.0 {
        ProductPositive(t, t, Sq(t));
        ProductPositive(0.5 * c.acceleration, Sq(t), Mul(0.5 * c.acceleration, Sq(t)));
      }
    }
  }

  /** `calculate_control_score`: zero beyond `max_reach_time`, else `exp(-decay * t)`. */
  function ControlScore(m: Math, c: SpaceConfig, point: Point, pos: Point, vel: Point): (r: real)
    requires Lawful(m) && ValidConfig(c)
    ensures 0.0 <= r
    ensures r == 0.0 <==> ArrivalTime(m, c, pos, vel, point) > c.maxReachTime
    ensures 0.0 <= c.controlDecay ==> r <= 1.0
  {
    var t := ArrivalTime(m, c, pos, vel, point);
    if t > c.maxReachTime then 0.0
    else
      ExpLaw(m, -c.controlDecay * t);
      DecayExponentSign(c.controlDecay, t);
      m.exp(-c.controlDecay * t)
  }

  lemma DecayExponentSign(decay: real, t: real)
    requires 0.0 <= t
    ensures 0.0 <= decay ==> -decay * t <= 0.0
  {
    if 0.0 <= decay {
      ProductNonneg(decay, t, decay * t);
    }
  }

  /** A player: `(player_id, position, velocity)`. */
  datatype Tracked = Tracked(id: int, pos: Point, vel: Point)

  /** One row of `control_matrix`: every player's score at `point`. */
  function Scores(m: Math, c: SpaceConfig, point: Point, players: seq<Tracked>): (r: seq<real>)
    requires Lawful(m) && ValidConfig(c)
    ensures |r| == |players|
    ensures forall j :: 0 <= j < |players| ==> r[j] == ControlScore(m, c, point, players[j].pos, players[j].vel)
  {
    seq(|players|, j requires 0 <= j < |players| => ControlScore(m, c, point, players[j].pos, players[j].vel))
  }

  /** `control_matrix[i, j]`: grid point `i`, player `j`. */
  function ControlMatrix(m: Math, c: SpaceConfig, grid: seq<Point>, players: seq<Tracked>): (r: seq<seq<real>>)
    requires Lawful(m) && ValidConfig(c)
    ensures |r| == |grid|
    ensures forall i :: 0 <= i < |grid| ==> r[i] == Scores(m, c, grid[i], players)
  {
    seq(|grid|, i requires 0 <= i < |grid| => Scores(m, c, grid[i], players))
  }

  /** `np.where(home_control > away_control, 'home', 'away')` at one point: ties go to away. */
  function Dominant(row: seq<real>, homeCount: nat): (t: Team)
    requires homeCount <= |row|
    ensures t == Home <==> Sum(row[..homeCount]) > Sum(row[homeCount..])
  {
    if Sum(row[..homeCount]) > Sum(row[homeCount..]) then Home else Away
  }

  predicate RowsCover(matrix: seq<seq<real>>, homeCount: nat)
  {
    forall i :: 0 <= i < |matrix| ==> homeCount <= |matrix[i]|
  }

  function DominantTeams(matrix: seq<seq<real>>, homeCount: nat): (r: seq<Team>)
    requires RowsCover(matrix, homeCount)
    ensures |r| == |matrix|
    ensures forall i :: 0 <= i < |matrix| ==> r[i] == Dominant(matrix[i], homeCount)
  {
    seq(|matrix|, i requires 0 <= i < |matrix| => Dominant(matrix[i], homeCount))
  }

  /** `np.maximum(home_control, away_control)` */
  function DominanceStrength(matrix: seq<seq<real>>, homeCount: nat): (r: seq<real>)
    requires RowsCover(matrix, homeCount)
    ensures |r| == |matrix|
    ensures forall i :: 0 <= i < |matrix| ==>
      r[i] == MaxR(Sum(matrix[i][..homeCount]), Sum(matrix[i][homeCount..]))
  {
    seq(|matrix|, i requires 0 <= i < |matrix| => MaxR(Sum(matrix[i][..homeCount]), Sum(matrix[i][homeCount..])))
  }

  /** `np.sum(dominant_team == team)` */
  function CountOf(ts: seq<Team>, t: Team): (n: nat)
    ensures n <= |ts|
  {
    if |ts| == 0 then 0 else CountOf(ts[..|ts| - 1], t) + (if ts[|ts| - 1] == t then 1 else 0)
  }

  /** Every point is home's or away's, never both and never neither. */
  lemma {:induction false} CountsPartition(ts: seq<Team>)
    ensures CountOf(ts, Home) + CountOf(ts, Away) == |ts|
  {
    if |ts| != 0 {
      CountsPartition(ts[..|ts| - 1]);
    }
  }

  /** `control_matrix[:, j]` */
  function Column(matrix: seq<seq<real>>, j: nat): (r: seq<real>)
    requires forall i :: 0 <= i < |matrix| ==> j < |matrix[i]|
    ensures |r| == |matrix| && forall i :: 0 <= i < |matrix| ==> r[i] == matrix[i][j]
  {
    seq(|matrix|, i requires 0 <= i < |matrix| => matrix[i][j])
  }

  /** The first `n` points of `grid_points[scores > threshold]`, in grid order. */
  function PointsAboveUpTo(grid: seq<Point>, scores: seq<real>, threshold: real, n: nat): (r: seq<Point>)
    requires |scores| == |grid| && n <= |grid|
    ensures |r| <= n
    ensures (forall i :: 0 <= i < n ==> scores[i] <= threshold) ==> r == []
  {
    if n == 0 then []
    else PointsAboveUpTo(grid, scores, threshold, n - 1) + (if scores[n - 1] > threshold then [grid[n - 1]] else [])
  }

  /** `grid_points[scores > threshold]`, in grid order. */
  function PointsAbove(grid: seq<Point>, scores: seq<real>, threshold: real): (r: seq<Point>)
    requires |scores| == |grid|
    ensures |r| <= |grid|
    ensures (forall i :: 0 <= i < |grid| ==> scores[i] <= threshold) ==> r == []
  {
    PointsAboveUpTo(grid, scores, threshold, |grid|)
  }

  /** The indices below `n` of the scores above the threshold, increasing. */
  function IndicesAboveUpTo(scores: seq<real>, threshold: real, n: nat): (idx: seq<nat>)
    requires n <= |scores|
    ensures forall k :: 0 <= k < |idx| ==> idx[k] < n && scores[idx[k]] > threshold
    ensures forall k, l :: 0 <= k < l < |idx| ==> idx[k] < idx[l]
    ensures forall i {:trigger i in idx} :: 0 <= i < n && scores[i] > threshold ==> i in idx
  {
    if n == 0 then []
    else IndicesAboveUpTo(scores, threshold, n - 1) + (if scores[n - 1] > threshold then [n - 1] else [])
  }

  /**
   * The positions of the scores above the threshold, increasing: exactly
   * the indices of the boolean mask `scores > threshold`.
   */
  function IndicesAbove(scores: seq<real>, threshold: real): (idx: seq<nat>)
    ensures forall k :: 0 <= k < |idx| ==> idx[k] < |scores| && scores[idx[k]] > threshold
    ensures forall k, l :: 0 <= k < l < |idx| ==> idx[k] < idx[l]
    ensures forall i {:trigger i in idx} :: 0 <= i < |scores| && scores[i] > threshold ==> i in idx
  {
    IndicesAboveUpTo(scores, threshold, |scores|)
  }

  /** `r` lists the grid points at the indices `idx`, in that order. */
  predicate PicksAt(r: seq<Point>, grid: seq<Point>, idx: seq<nat>)
  {
    |r| == |idx| && forall k :: 0 <= k < |r| ==> idx[k] < |grid| && r[k] == grid[idx[k]]
  }

  lemma PicksAtAppend(r: seq<Point>, grid: seq<Point>, idx: seq<nat>, n: nat)
    requires n < |grid| && PicksAt(r, grid, idx)
    ensures PicksAt(r + [grid[n]], grid, idx + [n])
  {
  }

  lemma {:induction false} PointsAboveUpToAreIndexed(grid: seq<Point>, scores: seq<real>, threshold: real, n: nat)
    requires |scores| == |grid| && n <= |grid|
    ensures PicksAt(PointsAboveUpTo(grid, scores, threshold, n), grid, IndicesAboveUpTo(scores, threshold, n))
  {
    if n != 0 {
      PointsAboveUpToAreIndexed(grid, scores, threshold, n - 1);
      if scores[n - 1] > threshold {
        PicksAtAppend(PointsAboveUpTo(grid, scores, threshold, n - 1), grid, IndicesAboveUpTo(scores, threshold, n - 1), n - 1);
      }
    }
  }

  /** Masking the grid picks the grid points at those indices, in order. */
  lemma PointsAboveAreIndexed(grid: seq<Point>, scores: seq<real>, threshold: real)
    requires |scores| == |grid|
    ensures PicksAt(PointsAbove(grid, scores, threshold), grid, IndicesAbove(scores, threshold))
  {
    PointsAboveUpToAreIndexed(grid, scores, threshold, |grid|);
  }

  /** A positive best score lies above half of itself, so its index is selected. */
  lemma BestIsAboveHalf(column: seq<real>)
    requires 0 < |column|
    ensures 0.0 < Max(column) ==> 0 < |IndicesAbove(column, 0.5 * Max(column))|
  {
    if 0.0 < Max(column) {
      var a :| 0 <= a < |column| && column[a] == Max(column);
      assert a in IndicesAbove(column, 0.5 * Max(column));
    }
  }

  datatype ControlZone = ControlZone(
    position: Point,
    velocity: Point,
    controlledArea: real,
    dominanceScore: real,
    reachableSpace: seq<Point>,
    team: Team,
    playerId: int)

  /**
   * A player's zone: the grid points, in grid order, where its score is
   * strictly above half its own best score; their count times the area of
   * one grid cell; and its mean score. A player with a positive best score
   * reaches at least the point where it attains it.
   */
  function ZoneOf(c: SpaceConfig, grid: seq<Point>, column: seq<real>, p: Tracked, team: Team): (z: ControlZone)
    requires 0 < |grid| && |column| == |grid|
    ensures z.playerId == p.id && z.team == team && z.position == p.pos && z.velocity == p.vel
    ensures PicksAt(z.reachableSpace, grid, IndicesAbove(column, 0.5 * Max(column)))
    ensures z.controlledArea == Mul(|z.reachableSpace| as real, Sq(c.gridResolution))
    ensures z.dominanceScore == Mean(column)
    ensures 0.0 < Max(column) ==> 0 < |z.reachableSpace|
  {
    var reach := PointsAbove(grid, column, 0.5 * Max(column));
    PointsAboveAreIndexed(grid, column, 0.5 * Max(column));
    BestIsAboveHalf(column);
    ControlZone(p.pos, p.vel, Mul(|reach| as real, Sq(c.gridResolution)), Mean(column), reach, team, p.id)
  }

  /** Home players first, then away players, as `all_positions` lists them. */
  function AllPositions(home: seq<Tracked>, away: seq<Tracked>): seq<Tracked>
  {
    home + away
  }

  /** Every row of the matrix has one score per player. */
  predicate Rectangular(matrix: seq<seq<real>>, width: nat)
  {
    forall i :: 0 <= i < |matrix| ==> |matrix[i]| == width
  }

  lemma ControlMatrixIsRectangular(m: Math, c: SpaceConfig, grid: seq<Point>, players: seq<Tracked>)
    requires Lawful(m) && ValidConfig(c)
    ensures Rectangular(ControlMatrix(m, c, grid, players), |players|)
  {
  }

  /** `control_zones`: one zone per player of `all_positions`, in that order. */
  function Zones(c: SpaceConfig, grid: seq<Point>, matrix: seq<seq<real>>, all: seq<Tracked>, homeCount: nat)
    : (r: seq<ControlZone>)
    requires 0 < |grid| && |matrix| == |grid| && Rectangular(matrix, |all|)
    ensures |r| == |all|
    ensures forall j :: 0 <= j < |all| ==>
      r[j].playerId == all[j].id && r[j].team == (if j < homeCount then Home else Away)
  {
    seq(|all|, j requires 0 <= j < |all| =>
      ZoneOf(c, grid, Column(matrix, j), all[j], if j < homeCount then Home else Away))
  }

  /** `[z for z in control_zones if z.team == team]` */
  function ZonesOfTeam(zones: seq<ControlZone>, t: Team): (r: seq<ControlZone>)
    ensures |r| <= |zones|
    ensures forall k :: 0 <= k < |r| ==> r[k].team == t
  {
    if |zones| == 0 then []
    else ZonesOfTeam(zones[..|zones| - 1], t) + (if zones[|zones| - 1].team == t then [zones[|zones| - 1]] else [])
  }

  // ---------------------------------------------------------------------------
  // `_calculate_zone_control`

  datatype ZoneShare = ZoneShare(home: real, away: real)

  /** Which coordinate a band of the pitch is measured on. */
  datatype Axis = AlongX | AlongY

  function Coordinate(p: Point, axis: Axis): real
  {
    match axis
    case AlongX => p.x
    case AlongY => p.y
  }

  /** `(grid[:, axis] >= lo) & (grid[:, axis] < hi)` */
  function BandMask(grid: seq<Point>, lo: real, hi: real, axis: Axis): (r: seq<bool>)
    ensures |r| == |grid|
    ensures forall i :: 0 <= i < |grid| ==> (r[i] <==> lo <= Coordinate(grid[i], axis) < hi)
  {
    seq(|grid|, i requires 0 <= i < |grid| => lo <= Coordinate(grid[i], axis) < hi)
  }

  function CountTrue(mask: seq<bool>): (n: nat)
    ensures n <= |mask|
    ensures n == 0 <==> forall i :: 0 <= i < |mask| ==> !mask[i]
  {
    if |mask| == 0 then 0 else CountTrue(mask[..|mask| - 1]) + (if mask[|mask| - 1] then 1 else 0)
  }

  /** `np.sum(dominant[mask] == 'home')` */
  function CountHomeIn(mask: seq<bool>, dominant: seq<Team>): (n: nat)
    requires |mask| == |dominant|
    ensures n <= CountTrue(mask)
  {
    if |mask| == 0 then 0
    else
      var k := |mask| - 1;
      CountHomeIn(mask[..k], dominant[..k]) + (if mask[k] && dominant[k] == Home then 1 else 0)
  }

  /**
   * `home_points / total * 100` and `(total - home_points) / total * 100`:
   * the percentages of home and of away points among the points the mask
   * selects. An empty band divides zero by zero, which numpy answers with
   * NaN: `None` here.
   */
  function ZoneShares(mask: seq<bool>, dominant: seq<Team>): (r: Option<ZoneShare>)
    requires |mask| == |dominant|
    ensures r.None? <==> forall i :: 0 <= i < |mask| ==> !mask[i]
    ensures r.Some? ==> r.value.home + r.value.away == 100.0
    ensures r.Some? ==> 0.0 <= r.value.home <= 100.0
    ensures r.Some? ==>
      && r.value.home == Percent(CountOf(Masked(dominant, mask), Home), |Masked(dominant, mask)|)
      && r.value.away == Percent(CountOf(Masked(dominant, mask), Away), |Masked(dominant, mask)|)
  {
    var total := CountTrue(mask);
    if total == 0 then None
    else
      var home := CountHomeIn(mask, dominant);
      PercentsOfComplements(home, total - home, total);
      FractionBounds(home as real, total as real, home as real / total as real);
      CountHomeInIsMaskedHome(mask, dominant);
      CountsPartition(Masked(dominant, mask));
      Some(ZoneShare(Percent(home, total), Percent(total - home, total)))
  }

  /** `dominant[mask]`: the sides of the points the mask selects, in grid order. */
  function Masked(dominant: seq<Team>, mask: seq<bool>): (r: seq<Team>)
    requires |mask| == |dominant|
    ensures |r| == CountTrue(mask)
  {
    if |mask| == 0 then []
    else
      var k := |mask| - 1;
      Masked(dominant[..k], mask[..k]) + (if mask[k] then [dominant[k]] else [])
  }

  /** `np.sum(zone_teams == 'home')` counts the home points among `dominant[mask]`. */
  lemma {:induction false} CountHomeInIsMaskedHome(mask: seq<bool>, dominant: seq<Team>)
    requires |mask| == |dominant|
    ensures CountHomeIn(mask, dominant) == CountOf(Masked(dominant, mask), Home)
  {
    if |mask| != 0 {
      var k := |mask| - 1;
      var prefix := Masked(dominant[..k], mask[..k]);
      CountHomeInIsMaskedHome(mask[..k], dominant[..k]);
      if mask[k] {
        assert (prefix + [dominant[k]])[..|prefix|] == prefix;
      } else {
        assert prefix + [] == prefix;
      }
    }
  }

  /** A side's count is its number of occurrences. */
  lemma {:induction false} CountOfIsOccurrences(ts: seq<Team>, t: Team)
    ensures CountOf(ts, t) == multiset(ts)[t]
  {
    if |ts| != 0 {
      var k := |ts| - 1;
      CountOfIsOccurrences(ts[..k], t);
      assert ts == ts[..k] + [ts[k]];
    }
  }

  lemma FractionBounds(k: real, n: real, q: real)
    requires 0.0 <= k <= n && 0.0 < n && q == k / n
    ensures 0.0 <= q <= 1.0
  {
    QuotientNonneg(k, n);
    QuotientTimesDivisor(k, n);
    if 1.0 < q {
      ProductPositive(q - 1.0, n, (q - 1.0) * n);
    }
  }

  /** The band test as written: the `y` coordinate against thirds of the pitch length. */
  function ZoneControlAsWritten(grid: seq<Point>, dominant: seq<Team>, lo: real, hi: real): Option<ZoneShare>
    requires |grid| == |dominant|
  {
    ZoneShares(BandMask(grid, lo, hi, AlongY), dominant)
  }

  /** The band test along the length of the pitch, the axis the thirds are drawn on. */
  function ZoneControl(grid: seq<Point>, dominant: seq<Team>, lo: real, hi: real): Option<ZoneShare>
    requires |grid| == |dominant|
  {
    ZoneShares(BandMask(grid, lo, hi, AlongX), dominant)
  }

  // ---------------------------------------------------------------------------
  // `analyze_space_control`

  datatype SpaceControlResult = SpaceControlResult(
    homeShare: real,
    awayShare: real,
    homeZones: seq<ControlZone>,
    awayZones: seq<ControlZone>,
    defensiveThird: Option<ZoneShare>,
    middleThird: Option<ZoneShare>,
    attackingThird: Option<ZoneShare>)

  /** The three thirds of the pitch, `[0, L/3)`, `[L/3, 2L/3)` and `[2L/3, L)`. */
  function ThirdBounds(c: SpaceConfig, third: nat): (real, real)
    requires third < 3
  {
    var L := c.fieldLength;
    if third == 0 then (0.0, L / 3.0) else if third == 1 then (L / 3.0, 2.0 * L / 3.0) else (2.0 * L / 3.0, L)
  }

  /** The grid of the analyzer: `arange(0, L, res) x arange(0, W, res)`, x-major. */
  function FieldGrid(c: SpaceConfig): seq<Point>
    requires ValidConfig(c)
  {
    Grid(Arange(c.fieldLength, c.gridResolution), Arange(c.fieldWidth, c.gridResolution))
  }

  lemma FieldGridNonEmpty(c: SpaceConfig)
    requires ValidConfig(c)
    ensures 0 < |FieldGrid(c)|
  {
    var xs, ys := Arange(c.fieldLength, c.gridResolution), Arange(c.fieldWidth, c.gridResolution);
    assert 0 < |xs| && 0 < |ys|;
    assert Grid(xs, ys) == Grid(xs[..|xs| - 1], ys) + Row(xs[|xs| - 1], ys);
  }

  /** `count / total * 100` */
  function Percent(count: nat, total: nat): real
    requires 0 < total
  {
    count as real / total as real * 100.0
  }

  /** The scores of `home + away` split into the home scores and the away scores. */
  lemma ScoresSplit(m: Math, c: SpaceConfig, p: Point, home: seq<Tracked>, away: seq<Tracked>)
    requires Lawful(m) && ValidConfig(c)
    ensures Scores(m, c, p, home + away)[..|home|] == Scores(m, c, p, home)
    ensures Scores(m, c, p, home + away)[|home|..] == Scores(m, c, p, away)
  {
  }

  /** `dominant_team`, one side per grid point. */
  function DominantOf(m: Math, c: SpaceConfig, grid: seq<Point>, home: seq<Tracked>, away: seq<Tracked>)
    : (r: seq<Team>)
    requires Lawful(m) && ValidConfig(c)
    ensures |r| == |grid|
  {
    ControlMatrixIsRectangular(m, c, grid, AllPositions(home, away));
    DominantTeams(ControlMatrix(m, c, grid, AllPositions(home, away)), |home|)
  }

  /**
   * A grid point is home's exactly when the home scores there add up to
   * strictly more than the away scores; ties, 0 against 0 included, are
   * away's.
   */
  lemma DominanceBySide(m: Math, c: SpaceConfig, grid: seq<Point>, home: seq<Tracked>, away: seq<Tracked>,
                        i: nat, p: Point)
    requires Lawful(m) && ValidConfig(c) && i < |grid| && grid[i] == p
    ensures DominantOf(m, c, grid, home, away)[i] == Home <==>
            Sum(Scores(m, c, p, home)) > Sum(Scores(m, c, p, away))
  {
    ControlMatrixIsRectangular(m, c, grid, AllPositions(home, away));
    ScoresSplit(m, c, p, home, away);
  }



  function ZonesFor(m: Math, c: SpaceConfig, grid: seq<Point>, home: seq<Tracked>, away: seq<Tracked>)
    : (r: seq<ControlZone>)
    requires Lawful(m) && ValidConfig(c) && 0 < |grid|
    ensures |r| == |home| + |away| && SidesInOrder(r, |home|)
    ensures forall j :: 0 <= j < |home| ==> r[j].playerId == home[j].id
    ensures forall j :: 0 <= j < |away| ==> r[|home| + j].playerId == away[j].id
  {
    var all := AllPositions(home, away);
    ControlMatrixIsRectangular(m, c, grid, all);
    Zones(c, grid, ControlMatrix(m, c, grid, all), all, |home|)
  }

  /** Zones listed home first, then away. */
  predicate SidesInOrder(zones: seq<ControlZone>, homeCount: nat)
  {
    homeCount <= |zones| && forall j :: 0 <= j < |zones| ==> zones[j].team == (if j < homeCount then Home else Away)
  }

  /**
   * The dictionary `analyze_space_control` builds from the dominant side of
   * every grid point and the players' zones: each side's share of the pitch
   * is the percentage of grid points it dominates, the two add up to 100,
   * the zone lists are the home block and the away block, and each third
   * holds the shares of its band of the pitch.
   */
  function Report(c: SpaceConfig, grid: seq<Point>, dominant: seq<Team>, zones: seq<ControlZone>, homeCount: nat)
    : (r: SpaceControlResult)
    requires 0 < |grid| && |dominant| == |grid| && SidesInOrder(zones, homeCount)
    ensures r.homeShare + r.awayShare == 100.0 && 0.0 <= r.homeShare
    ensures r.homeShare == Percent(CountOf(dominant, Home), |grid|)
    ensures r.awayShare == Percent(CountOf(dominant, Away), |grid|)
    ensures r.defensiveThird == ZoneControl(grid, dominant, ThirdBounds(c, 0).0, ThirdBounds(c, 0).1)
    ensures r.middleThird == ZoneControl(grid, dominant, ThirdBounds(c, 1).0, ThirdBounds(c, 1).1)
    ensures r.attackingThird == ZoneControl(grid, dominant, ThirdBounds(c, 2).0, ThirdBounds(c, 2).1)
    ensures r.homeZones == zones[..homeCount] && r.awayZones == zones[homeCount..]
    ensures r.defensiveThird.Some? ==> r.defensiveThird.value.home + r.defensiveThird.value.away == 100.0
    ensures r.middleThird.Some? ==> r.middleThird.value.home + r.middleThird.value.away == 100.0
    ensures r.attackingThird.Some? ==> r.attackingThird.value.home + r.attackingThird.value.away == 100.0
  {
    CountsPartition(dominant);
    PercentsOfComplements(CountOf(dominant, Home), CountOf(dominant, Away), |grid|);
    ZonesSplitBySide(zones, homeCount);
    SpaceControlResult(
      Percent(CountOf(dominant, Home), |grid|),
      Percent(CountOf(dominant, Away), |grid|),
      ZonesOfTeam(zones, Home),
      ZonesOfTeam(zones, Away),
      ZoneControl(grid, dominant, ThirdBounds(c, 0).0, ThirdBounds(c, 0).1),
      ZoneControl(grid, dominant, ThirdBounds(c, 1).0, ThirdBounds(c, 1).1),
      ZoneControl(grid, dominant, ThirdBounds(c, 2).0, ThirdBounds(c, 2).1))
  }

  /**
   * `analyze_space_control` for one frame: one zone per player, home then
   * away, each carrying its player's id.
   */
  function Analysis(m: Math, c: SpaceConfig, grid: seq<Point>, home: seq<Tracked>, away: seq<Tracked>)
    : (r: SpaceControlResult)
    requires Lawful(m) && ValidConfig(c) && 0 < |grid|
    ensures |r.homeZones| == |home| && |r.awayZones| == |away|
    ensures forall j :: 0 <= j < |home| ==> r.homeZones[j].playerId == home[j].id && r.homeZones[j].team == Home
    ensures forall j :: 0 <= j < |away| ==> r.awayZones[j].playerId == away[j].id && r.awayZones[j].team == Away
  {
    Report(c, grid, DominantOf(m, c, grid, home, away), ZonesFor(m, c, grid, home, away), |home|)
  }

  /** `np.maximum(home_control, away_control)` over the whole grid. */
  function SurfaceOf(m: Math, c: SpaceConfig, grid: seq<Point>, home: seq<Tracked>, away: seq<Tracked>)
    : (r: seq<real>)
    requires Lawful(m) && ValidConfig(c)
    ensures |r| == |grid|
  {
    ControlMatrixIsRectangular(m, c, grid, AllPositions(home, away));
    DominanceStrength(ControlMatrix(m, c, grid, AllPositions(home, away)), |home|)
  }

  /** `Analysis` and its parts, written over the control matrix the class fills. */
  lemma AnalysisOfMatrix(m: Math, c: SpaceConfig, grid: seq<Point>, home: seq<Tracked>, away: seq<Tracked>,
                         matrix: seq<seq<real>>)
    requires Lawful(m) && ValidConfig(c) && 0 < |grid|
    requires matrix == ControlMatrix(m, c, grid, AllPositions(home, away))
    ensures |matrix| == |grid| && RowsCover(matrix, |home|)
    ensures Rectangular(matrix, |AllPositions(home, away)|)
    ensures DominantOf(m, c, grid, home, away) == DominantTeams(matrix, |home|)
    ensures ZonesFor(m, c, grid, home, away) == Zones(c, grid, matrix, AllPositions(home, away), |home|)
    ensures SurfaceOf(m, c, grid, home, away) == DominanceStrength(matrix, |home|)
    ensures Analysis(m, c, grid, home, away)
         == Report(c, grid, DominantTeams(matrix, |home|), Zones(c, grid, matrix, AllPositions(home, away), |home|), |home|)
  {
    ControlMatrixIsRectangular(m, c, grid, AllPositions(home, away));
  }

  /** A count and its complement, as percentages of the total, add up to 100. */
  lemma PercentsOfComplements(k: nat, rest: nat, n: nat)
    requires 0 < n && k + rest == n
    ensures Percent(k, n) + Percent(rest, n) == 100.0
    ensures 0.0 <= Percent(k, n)
  {
    PercentagesOfParts(k as real, rest as real, 0.0, n as real);
    QuotientNonneg(k as real, n as real);
  }

  /**
   * `dominant_team.reshape(len(x_grid), len(y_grid))`: entry `[i][j]` of the
   * reshaped grid, i.e. flat index `i * |ys| + j`, is the side dominating
   * the point `(xs[i], ys[j])`.
   */
  lemma RegionsAreXMajor(m: Math, c: SpaceConfig, xs: seq<real>, ys: seq<real>,
                         home: seq<Tracked>, away: seq<Tracked>, i: nat, j: nat)
    requires Lawful(m) && ValidConfig(c) && i < |xs| && j < |ys|
    ensures var dominant := DominantOf(m, c, Grid(xs, ys), home, away);
            i * |ys| + j < |dominant| &&
            (dominant[i * |ys| + j] == Home <==>
             Sum(Scores(m, c, Point(xs[i], ys[j]), home)) > Sum(Scores(m, c, Point(xs[i], ys[j]), away)))
  {
    GridIndex(xs, ys, i, j);
    DominanceBySide(m, c, Grid(xs, ys), home, away, i * |ys| + j, Point(xs[i], ys[j]));
  }

  lemma {:induction false} ZonesOfTeamAppend(s: seq<ControlZone>, u: seq<ControlZone>, t: Team)
    ensures ZonesOfTeam(s + u, t) == ZonesOfTeam(s, t) + ZonesOfTeam(u, t)
    decreases |u|
  {
    if |u| == 0 {
      assert s + u == s;
    } else {
      var u', last := u[..|u| - 1], u[|u| - 1];
      var kept := if last.team == t then [last] else [];
      ZonesOfTeamAppend(s, u', t);
      assert (s + u)[..|s + u| - 1] == s + u' && (s + u)[|s + u| - 1] == last;
      assert ZonesOfTeam(s + u, t) == ZonesOfTeam(s + u', t) + kept;
      assert ZonesOfTeam(u, t) == ZonesOfTeam(u', t) + kept;
      assert (ZonesOfTeam(s, t) + ZonesOfTeam(u', t)) + kept == ZonesOfTeam(s, t) + (ZonesOfTeam(u', t) + kept);
    }
  }

  lemma {:induction false} ZonesOfTeamAll(s: seq<ControlZone>, t: Team)
    requires forall k :: 0 <= k < |s| ==> s[k].team == t
    ensures ZonesOfTeam(s, t) == s
  {
    if |s| != 0 {
      ZonesOfTeamAll(s[..|s| - 1], t);
    }
  }

  lemma {:induction false} ZonesOfTeamNone(s: seq<ControlZone>, t: Team)
    requires forall k :: 0 <= k < |s| ==> s[k].team != t
    ensures ZonesOfTeam(s, t) == []
  {
    if |s| != 0 {
      ZonesOfTeamNone(s[..|s| - 1], t);
    }
  }

  lemma FilterKeepsFirstBlock(hz: seq<ControlZone>, az: seq<ControlZone>, t: Team)
    requires forall k :: 0 <= k < |hz| ==> hz[k].team == t
    requires forall k :: 0 <= k < |az| ==> az[k].team != t
    ensures ZonesOfTeam(hz + az, t) == hz
  {
    ZonesOfTeamAll(hz, t);
    ZonesOfTeamNone(az, t);
    ZonesOfTeamAppend(hz, az, t);
    assert hz + [] == hz;
  }

  lemma FilterKeepsSecondBlock(hz: seq<ControlZone>, az: seq<ControlZone>, t: Team)
    requires forall k :: 0 <= k < |hz| ==> hz[k].team != t
    requires forall k :: 0 <= k < |az| ==> az[k].team == t
    ensures ZonesOfTeam(hz + az, t) == az
  {
    ZonesOfTeamNone(hz, t);
    ZonesOfTeamAll(az, t);
    ZonesOfTeamAppend(hz, az, t);
    assert [] + az == az;
  }

  /**
   * Zones listed home first, then away: filtering by side gives back the
   * two parts, in order.
   */
  lemma ZonesSplitBySide(zones: seq<ControlZone>, homeCount: nat)
    requires homeCount <= |zones|
    requires forall j :: 0 <= j < |zones| ==> zones[j].team == (if j < homeCount then Home else Away)
    ensures ZonesOfTeam(zones, Home) == zones[..homeCount] && ZonesOfTeam(zones, Away) == zones[homeCount..]
  {
    var hz, az := zones[..homeCount], zones[homeCount..];
    assert zones == hz + az;
    HomeBlock(hz, az);
    AwayBlock(hz, az);
  }

  lemma HomeBlock(hz: seq<ControlZone>, az: seq<ControlZone>)
    requires forall j :: 0 <= j < |hz + az| ==> (hz + az)[j].team == (if j < |hz| then Home else Away)
    ensures ZonesOfTeam(hz + az, Home) == hz
  {
    forall k | 0 <= k < |hz| ensures hz[k].team == Home {
      assert hz[k] == (hz + az)[k];
    }
    forall k | 0 <= k < |az| ensures az[k].team != Home {
      assert az[k] == (hz + az)[|hz| + k];
    }
    FilterKeepsFirstBlock(hz, az, Home);
  }

  lemma AwayBlock(hz: seq<ControlZone>, az: seq<ControlZone>)
    requires forall j :: 0 <= j < |hz + az| ==> (hz + az)[j].team == (if j < |hz| then Home else Away)
    ensures ZonesOfTeam(hz + az, Away) == az
  {
    forall k | 0 <= k < |hz| ensures hz[k].team != Away {
      assert hz[k] == (hz + az)[k];
    }
    forall k | 0 <= k < |az| ensures az[k].team == Away {
      assert az[k] == (hz + az)[|hz| + k];
    }
    FilterKeepsSecondBlock(hz, az, Away);
  }

  /** A zone whose control column is all zero covers no grid point and no area. */
  lemma ZoneOfZeroColumn(c: SpaceConfig, grid: seq<Point>, column: seq<real>, p: Tracked, team: Team)
    requires 0 < |grid| && |column| == |grid|
    requires forall i :: 0 <= i < |column| ==> column[i] == 0.0
    ensures ZoneOf(c, grid, column, p, team).controlledArea == 0.0
    ensures ZoneOf(c, grid, column, p, team).reachableSpace == []
  {
    assert Max(column) == 0.0;
  }

  /** A player who reaches no grid point in time controls no area. */
  lemma UnreachingPlayerControlsNothing(m: Math, c: SpaceConfig, grid: seq<Point>, all: seq<Tracked>, homeCount: nat, j: nat)
    requires Lawful(m) && ValidConfig(c) && 0 < |grid| && j < |all|
    requires forall i :: 0 <= i < |grid| ==> ArrivalTime(m, c, all[j].pos, all[j].vel, grid[i]) > c.maxReachTime
    ensures var matrix := ControlMatrix(m, c, grid, all);
            Rectangular(matrix, |all|) &&
            Zones(c, grid, matrix, all, homeCount)[j].controlledArea == 0.0 &&
            Zones(c, grid, matrix, all, homeCount)[j].reachableSpace == []
  {
    var matrix := ControlMatrix(m, c, grid, all);
    ControlMatrixIsRectangular(m, c, grid, all);
    var column := Column(matrix, j);
    assert forall i :: 0 <= i < |grid| ==> column[i] == 0.0;
    ZoneOfZeroColumn(c, grid, column, all[j], if j < homeCount then Home else Away);
  }


  // ---------------------------------------------------------------------------
  // The band test of `_calculate_zone_control`

  /**
   * As written, the thirds are bands of the `y` coordinate, which runs along
   * the width of the pitch. On a pitch no wider than two thirds of its
   * length no grid point reaches the attacking band, so that third's shares
   * are NaN.
   */
  lemma AsWrittenAttackingThirdIsEmpty(c: SpaceConfig, dominant: seq<Team>)
    requires ValidConfig(c) && c.fieldWidth <= 2.0 * c.fieldLength / 3.0
    requires |dominant| == |FieldGrid(c)|
    ensures ZoneControlAsWritten(FieldGrid(c), dominant, ThirdBounds(c, 2).0, ThirdBounds(c, 2).1).None?
  {
    var xs, ys := Arange(c.fieldLength, c.gridResolution), Arange(c.fieldWidth, c.gridResolution);
    GridPointsFromAxes(xs, ys);
    ArangeBounds(c.fieldWidth, c.gridResolution);
    var grid := FieldGrid(c);
    forall i | 0 <= i < |grid|
      ensures grid[i].y < 2.0 * c.fieldLength / 3.0
    {
      var k :| 0 <= k < |ys| && ys[k] == grid[i].y;
    }
  }

  /** The default 105 x 68 pitch at one-metre resolution: the attacking third comes out NaN. */
  lemma DefaultPitchAttackingThirdIsEmpty(dominant: seq<Team>)
    requires |dominant| == |FieldGrid(DefaultConfig(105.0, 68.0))|
    ensures var c := DefaultConfig(105.0, 68.0);
            ZoneControlAsWritten(FieldGrid(c), dominant, ThirdBounds(c, 2).0, ThirdBounds(c, 2).1).None?
  {
    AsWrittenAttackingThirdIsEmpty(DefaultConfig(105.0, 68.0), dominant);
  }

  /** The first multiple of `step` at or above `lo` lies within one step of it. */
  lemma MultipleInStep(lo: real, step: real) returns (k: nat)
    requires 0.0 < step && 0.0 <= lo
    ensures lo <= k as real * step < lo + step
  {
    var q := lo / step;
    QuotientNonneg(lo, step);
    QuotientTimesDivisor(lo, step);
    k := if q.Floor as real == q then q.Floor else q.Floor + 1;
    assert k as real - 1.0 < q <= k as real;
    ProductNonneg(k as real - q, step, (k as real - q) * step);
    ProductPositive(q - (k as real - 1.0), step, (q - (k as real - 1.0)) * step);
  }

  /** `np.arange(0, stop, step)` has a value in every half-open interval at least one step wide inside `[0, stop)`. */
  lemma ArangeHits(stop: real, step: real, lo: real, hi: real)
    requires 0.0 < step && 0.0 <= lo && lo + step <= hi <= stop
    ensures exists k :: 0 <= k < |Arange(stop, step)| && lo <= Arange(stop, step)[k] < hi
  {
    var k := MultipleInStep(lo, step);
    ArangeBounds(stop, step);
    var n := |Arange(stop, step)|;
    if n <= k {
      ProductNonneg(k as real - n as real, step, (k as real - n as real) * step);
      assert false;
    }
    assert Arange(stop, step)[k] == k as real * step;
  }


  /**
   * Measured along the length, every third of the pitch holds grid points
   * as soon as a third is at least one grid step long, so its two shares
   * exist and add up to 100.
   */
  lemma ThirdsAlongLengthAreNonEmpty(c: SpaceConfig, dominant: seq<Team>, third: nat)
    requires ValidConfig(c) && 3.0 * c.gridResolution <= c.fieldLength && third < 3
    requires |dominant| == |FieldGrid(c)|
    ensures ZoneControl(FieldGrid(c), dominant, ThirdBounds(c, third).0, ThirdBounds(c, third).1).Some?
    ensures var s := ZoneControl(FieldGrid(c), dominant, ThirdBounds(c, third).0, ThirdBounds(c, third).1).value;
            s.home + s.away == 100.0
  {
    var xs, ys := Arange(c.fieldLength, c.gridResolution), Arange(c.fieldWidth, c.gridResolution);
    var (lo, hi) := ThirdBounds(c, third);
    ArangeHits(c.fieldLength, c.gridResolution, lo, hi);
    var k :| 0 <= k < |xs| && lo <= xs[k] < hi;
    assert 0 < |ys|;
    GridIndex(xs, ys, k, 0);
    var mask := BandMask(FieldGrid(c), lo, hi, AlongX);
    assert mask[k * |ys|];
  }

  class SpaceControlAnalyzer {
    const math: Math
    const config: SpaceConfig
    const xGrid: seq<real>
    const yGrid: seq<real>
    const gridPoints: seq<Point>
    var controlZones: seq<ControlZone>
    var dominantRegions: Option<seq<Team>>
    var controlSurface: Option<seq<real>>

    ghost predicate Valid()
    {
      Lawful(math) && ValidConfig(config)
      && xGrid == Arange(config.fieldLength, config.gridResolution)
      && yGrid == Arange(config.fieldWidth, config.gridResolution)
      && gridPoints == FieldGrid(config) && 0 < |gridPoints|
    }

    /** The grid is built once; nothing has been analysed yet. */
    constructor(m: Math, c: SpaceConfig)
      requires Lawful(m) && ValidConfig(c)
      ensures Valid() && math == m && config == c
      ensures controlZones == [] && dominantRegions == None && controlSurface == None
    {
      math, config := m, c;
      xGrid := Arange(c.fieldLength, c.gridResolution);
      yGrid := Arange(c.fieldWidth, c.gridResolution);
      gridPoints := Grid(Arange(c.fieldLength, c.gridResolution), Arange(c.fieldWidth, c.gridResolution));
      FieldGridNonEmpty(c);
      controlZones, dominantRegions, controlSurface := [], None, None;
    }

    /** The double loop that fills `control_matrix`. */
    method FillControlMatrix(all: seq<Tracked>) returns (matrix: seq<seq<real>>)
      requires Valid()
      ensures matrix == ControlMatrix(math, config, gridPoints, all)
    {
      matrix := [];
      var i := 0;
      while i < |gridPoints|
        invariant i <= |gridPoints| && |matrix| == i
        invariant forall k :: 0 <= k < i ==> matrix[k] == Scores(math, config, gridPoints[k], all)
      {
        var row := [];
        var j := 0;
        while j < |all|
          invariant j <= |all| && row == Scores(math, config, gridPoints[i], all)[..j]
        {
          row := row + [ControlScore(math, config, gridPoints[i], all[j].pos, all[j].vel)];
          j := j + 1;
        }
        matrix := matrix + [row];
        i := i + 1;
      }
    }

    /** The loop that builds `control_zones`, one zone per player. */
    method BuildZones(matrix: seq<seq<real>>, all: seq<Tracked>, homeCount: nat) returns (zones: seq<ControlZone>)
      requires Valid() && |matrix| == |gridPoints| && Rectangular(matrix, |all|)
      ensures zones == Zones(config, gridPoints, matrix, all, homeCount)
    {
      zones := [];
      var j := 0;
      ghost var target := Zones(config, gridPoints, matrix, all, homeCount);
      while j < |all|
        invariant j <= |all| && zones == target[..j]
      {
        var team := if j < homeCount then Home else Away;
        var zone := ZoneOf(config, gridPoints, Column(matrix, j), all[j], team);
        assert zone == target[j];
        zones := zones + [zone];
        assert zones == target[..j + 1];
        j := j + 1;
      }
      assert target[..|all|] == target;
    }

    /** Stores one frame's zones, dominant sides and control surface. */
    method Store(zones: seq<ControlZone>, dominant: seq<Team>, surface: seq<real>)
      modifies this
      ensures controlZones == zones && dominantRegions == Some(dominant) && controlSurface == Some(surface)
    {
      controlZones, dominantRegions, controlSurface := zones, Some(dominant), Some(surface);
    }

    /**
     * `analyze_space_control`: returns the frame's metrics and replaces the
     * stored zones, dominant regions and control surface.
     */
    method AnalyzeSpaceControl(home: seq<Tracked>, away: seq<Tracked>) returns (r: SpaceControlResult)
      requires Valid()
      modifies this
      ensures Valid()
      ensures r == Analysis(math, config, gridPoints, home, away)
      ensures controlZones == ZonesFor(math, config, gridPoints, home, away)
      ensures dominantRegions == Some(DominantOf(math, config, gridPoints, home, away))
      ensures controlSurface == Some(SurfaceOf(math, config, gridPoints, home, away))
    {
      var all := AllPositions(home, away);
      var matrix := FillControlMatrix(all);
      AnalysisOfMatrix(math, config, gridPoints, home, away, matrix);
      var dominant := DominantTeams(matrix, |home|);
      var zones := BuildZones(matrix, all, |home|);
      Store(zones, dominant, DominanceStrength(matrix, |home|));
      r := Report(config, gridPoints, dominant, zones, |home|);
    }
  }
}
