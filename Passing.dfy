/**
 * The passing-opportunity engine: for a ball carrier it scores every
 * teammate as a receiver (lane length window, defenders close to the lane,
 * pressure on the receiver, progress and space gained), keeps the passes
 * whose success probability reaches a threshold, and picks the best one.
 */
module Passing {
  import opened Numerics

  // ---------------------------------------------------------------------------
  // Geometry of a passing lane

  /** The point `a + t (b - a)`. */
  function Along(a: Point, b: Point, t: real): Point
  {
    Point(a.x + Mul(t, b.x - a.x), a.y + Mul(t, b.y - a.y))
  }

  /** `max(0, min(1, ratio))`: the projection parameter kept on the segment. */
  function ClampedParameter(ratio: real): (t: real)
    ensures 0.0 <= t <= 1.0
    ensures 0.0 <= ratio <= 1.0 ==> t == ratio
  {
    MaxR(0.0, MinR(1.0, ratio))
  }

  /** `(p - a).(b - a)` */
  function LaneDot(p: Point, a: Point, b: Point): real
  {
    Mul(p.x - a.x, b.x - a.x) + Mul(p.y - a.y, b.y - a.y)
  }

  /** `|p - (a + t (b - a))|^2 = |p - a|^2 - 2 t (p - a).(b - a) + t^2 |b - a|^2` */
  lemma SqDistAlong(p: Point, a: Point, b: Point, t: real)
    ensures SqDist(p, Along(a, b, t)) ==
      SqDist(p, a) - 2.0 * t * LaneDot(p, a, b) + t * t * SqDist(b, a)
  {
    var c := Along(a, b, t);
    AlongIdentity(p.x - a.x, p.y - a.y, b.x - a.x, b.y - a.y, t, p.x - c.x, p.y - c.y,
      SqDist(p, c), SqDist(p, a), SqDist(b, a), LaneDot(p, a, b));
  }

  /** The same expansion at the far end of the lane, `t = 1`. */
  lemma SqDistToEnd(p: Point, a: Point, b: Point)
    ensures SqDist(p, b) ==
      SqDist(p, a) - 2.0 * 1.0 * LaneDot(p, a, b) + 1.0 * 1.0 * SqDist(b, a)
  {
    AlongIdentity(p.x - a.x, p.y - a.y, b.x - a.x, b.y - a.y, 1.0, p.x - b.x, p.y - b.y,
      SqDist(p, b), SqDist(p, a), SqDist(b, a), LaneDot(p, a, b));
  }

  /** `|q - t d|^2 = |q|^2 - 2 t (q.d) + t^2 |d|^2` */
  lemma ExpandAlong(qx: real, qy: real, dx: real, dy: real, t: real)
    ensures Sq(qx - t * dx) + Sq(qy - t * dy)
         == (Sq(qx) + Sq(qy)) - 2.0 * t * (Mul(qx, dx) + Mul(qy, dy)) + t * t * (Sq(dx) + Sq(dy))
  {
  }

  /** `ExpandAlong` with every term named, so that callers match only atoms. */
  lemma AlongIdentity(qx: real, qy: real, dx: real, dy: real, t: real, ex: real, ey: real,
                      along: real, start: real, len2: real, dot: real)
    requires ex == qx - Mul(t, dx) && ey == qy - Mul(t, dy)
    requires along == Sq(ex) + Sq(ey)
    requires start == Sq(qx) + Sq(qy) && len2 == Sq(dx) + Sq(dy) && dot == Mul(qx, dx) + Mul(qy, dy)
    ensures along == start - 2.0 * t * dot + t * t * len2
  {
    ExpandAlong(qx, qy, dx, dy, t);
  }

  /**
   * On plain numbers: with `dot = v * len2` and `len2 > 0`, the quadratic
   * `q2 - 2 t dot + t^2 len2` at `t = clamp(v, 0, 1)` is no larger than at
   * `t = 0` or at `t = 1`.
   */
  lemma ClampedMinimiser(q2: real, dot: real, len2: real, v: real, t: real, at: real, atEnd: real)
    requires 0.0 < len2 && dot == v * len2
    requires t == ClampedParameter(v)
    requires at == q2 - 2.0 * t * dot + t * t * len2
    requires atEnd == q2 - 2.0 * 1.0 * dot + 1.0 * 1.0 * len2
    ensures at <= q2 && at <= atEnd
  {
    if v <= 0.0 {
      var u := -v * len2;
      ProductNonneg(-v, len2, u);
    } else if 1.0 <= v {
      var u := (v - 1.0) * len2;
      ProductNonneg(v - 1.0, len2, u);
      assert dot == u + len2;
    } else {
      var w := t * len2;
      ProductPositive(t, len2, w);
      var u := t * dot;
      ProductPositive(t, w, u);
      var y := (1.0 - t) * len2;
      ProductPositive(1.0 - t, len2, y);
      var z := (1.0 - t) * y;
      ProductPositive(1.0 - t, y, z);
      assert q2 - 2.0 * t * dot + t * t * len2 == q2 - u;
      assert (q2 - 2.0 * dot + len2) - (q2 - 2.0 * t * dot + t * t * len2) == z;
    }
  }

  /**
   * Squared form of the lane property: with `v` the projection ratio
   * `(p - a).(b - a) / |b - a|^2`, the clamped projection is no further
   * from `p` than either end of the lane.
   */
  lemma ClampedProjectionIsCloser(p: Point, a: Point, b: Point, v: real)
    requires 0.0 < SqDist(b, a) && LaneDot(p, a, b) == v * SqDist(b, a)
    ensures SqDist(p, Along(a, b, ClampedParameter(v))) <= SqDist(p, a)
    ensures SqDist(p, Along(a, b, ClampedParameter(v))) <= SqDist(p, b)
  {
    var t := ClampedParameter(v);
    SqDistAlong(p, a, b, t);
    SqDistToEnd(p, a, b);
    ClampedMinimiser(SqDist(p, a), LaneDot(p, a, b), SqDist(b, a), v, t, SqDist(p, Along(a, b, t)), SqDist(p, b));
  }

  /**
   * `point_to_line_distance`: the distance from `p` to the segment `a`-`b`,
   * measured to the projection of `p` clamped onto the segment. It is never
   * more than the distance to either end, and a zero-length segment gives
   * the distance to its start.
   */
  function PointToLineDistance(m: Math, p: Point, a: Point, b: Point): (d: real)
    requires Lawful(m)
    ensures 0.0 <= d
    ensures d <= Dist(m, p, a) && d <= Dist(m, p, b)
    ensures a == b ==> d == Dist(m, p, a)
  {
    var denominator := m.sqrt(SqDist(b, a));
    if denominator == 0.0 then
      LaneEndsMeet(m, a, b);
      Dist(m, p, a)
    else
      var t := ClampedParameter(LaneDot(p, a, b) / (denominator * denominator));
      ProjectionBounds(m, p, a, b, denominator);
      Dist(m, p, Along(a, b, t))
  }

  /** A lane whose length has square root 0 has both ends at one point. */
  lemma LaneEndsMeet(m: Math, a: Point, b: Point)
    requires Lawful(m) && m.sqrt(SqDist(b, a)) == 0.0
    ensures a == b
  {
    SqDistNonneg(b, a);
    SqrtLaw(m, SqDist(b, a));
    SqDistZero(b, a);
  }

  /** On a lane of positive length the clamped projection is no further than either end. */
  lemma ProjectionBounds(m: Math, p: Point, a: Point, b: Point, denominator: real)
    requires Lawful(m) && denominator == m.sqrt(SqDist(b, a)) && denominator != 0.0
    ensures a != b
    ensures var t := ClampedParameter(LaneDot(p, a, b) / (denominator * denominator));
      Dist(m, p, Along(a, b, t)) <= Dist(m, p, a) && Dist(m, p, Along(a, b, t)) <= Dist(m, p, b)
  {
    var len2 := SqDist(b, a);
    SqDistNonneg(b, a);
    SqrtLaw(m, len2);
    var ratio := LaneDot(p, a, b) / (denominator * denominator);
    ProductPositive(denominator, denominator, len2);
    QuotientTimesDivisor(LaneDot(p, a, b), len2);
    var t := ClampedParameter(ratio);
    ClampedProjectionIsCloser(p, a, b, ratio);
    SqDistNonneg(p, Along(a, b, t));
    SqrtMonotone(m, SqDist(p, Along(a, b, t)), SqDist(p, a));
    SqrtMonotone(m, SqDist(p, Along(a, b, t)), SqDist(p, b));
    SqDistZero(b, a);
  }

  // ---------------------------------------------------------------------------
  // Interceptors

  /** `(player_id, distance to passing lane)` */
  datatype Interceptor = Interceptor(id: int, distance: real)

  /** `x` is some defender paired with its distance to the lane `a`-`b`. */
  predicate IsLaneDistanceOf(m: Math, a: Point, b: Point, defenders: seq<Player>, x: Interceptor)
    requires Lawful(m)
  {
    exists k :: 0 <= k < |defenders| && x == Interceptor(defenders[k].id, PointToLineDistance(m, defenders[k].pos, a, b))
  }

  /** Defenders whose lane distance is at most `reach`, in input order. */
  function CloseDefenders(m: Math, reach: real, a: Point, b: Point, defenders: seq<Player>): (r: seq<Interceptor>)
    requires Lawful(m)
    ensures forall x :: x in r ==> x.distance <= reach && IsLaneDistanceOf(m, a, b, defenders, x)
    ensures forall k :: 0 <= k < |defenders| && PointToLineDistance(m, defenders[k].pos, a, b) <= reach ==>
      Interceptor(defenders[k].id, PointToLineDistance(m, defenders[k].pos, a, b)) in r
  {
    if |defenders| == 0 then []
    else
      var last := defenders[|defenders| - 1];
      var d := PointToLineDistance(m, last.pos, a, b);
      var prefix := CloseDefenders(m, reach, a, b, defenders[..|defenders| - 1]);
      assert forall k :: 0 <= k < |defenders| - 1 ==> defenders[..|defenders| - 1][k] == defenders[k];
      if d <= reach then prefix + [Interceptor(last.id, d)] else prefix
  }

  predicate SortedByDistance(s: seq<Interceptor>)
  {
    forall i, j :: 0 <= i < j < |s| ==> s[i].distance <= s[j].distance
  }

  /** Inserts `x` after every element whose distance is at most `x`'s, which keeps the sort stable. */
  function InsertByDistance(x: Interceptor, s: seq<Interceptor>): (r: seq<Interceptor>)
    ensures multiset(r) == multiset(s) + multiset{x}
  {
    if |s| == 0 then [x]
    else if x.distance < s[0].distance then [x] + s
    else
      assert s == [s[0]] + s[1..];
      [s[0]] + InsertByDistance(x, s[1..])
  }

  lemma {:induction false} InsertKeepsSorted(x: Interceptor, s: seq<Interceptor>)
    requires SortedByDistance(s)
    ensures SortedByDistance(InsertByDistance(x, s))
  {
    if |s| != 0 && s[0].distance <= x.distance {
      var rest := InsertByDistance(x, s[1..]);
      InsertKeepsSorted(x, s[1..]);
      assert s[0].distance <= rest[0].distance;
      var r := [s[0]] + rest;
      forall i, j | 0 <= i < j < |r| ensures r[i].distance <= r[j].distance {
        if i == 0 {
          assert rest[0].distance <= rest[j - 1].distance;
        } else {
          assert r[i] == rest[i - 1] && r[j] == rest[j - 1];
        }
      }
    }
  }

  /** `sorted(interceptors, key=lambda x: x[1])`, as an insertion sort (stable like Python's). */
  function SortByDistance(s: seq<Interceptor>): (r: seq<Interceptor>)
    ensures multiset(r) == multiset(s)
    ensures SortedByDistance(r)
  {
    if |s| == 0 then []
    else
      assert s == s[..|s| - 1] + [s[|s| - 1]];
      var sortedPrefix := SortByDistance(s[..|s| - 1]);
      InsertKeepsSorted(s[|s| - 1], sortedPrefix);
      InsertByDistance(s[|s| - 1], sortedPrefix)
  }

  /** How close to the lane a defender must be: `max_interceptor_distance` times the pass length. */
  function Reach(m: Math, maxInterceptorDistance: real, a: Point, b: Point): real
    requires Lawful(m)
  {
    maxInterceptorDistance * Dist(m, a, b)
  }

  /** `find_interceptors`: the result of the loop and the final sort. */
  function InterceptorsOf(m: Math, maxInterceptorDistance: real, a: Point, b: Point, defenders: seq<Player>): seq<Interceptor>
    requires Lawful(m)
  {
    SortByDistance(CloseDefenders(m, Reach(m, maxInterceptorDistance, a, b), a, b, defenders))
  }

  /**
   * The interceptors are exactly the defenders whose lane distance is at
   * most `max_interceptor_distance` times the pass length, sorted ascending.
   */
  lemma InterceptorsAreExactlyTheCloseDefenders(m: Math, maxInterceptorDistance: real, a: Point, b: Point,
                                                defenders: seq<Player>)
    requires Lawful(m)
    ensures var r := InterceptorsOf(m, maxInterceptorDistance, a, b, defenders);
      var reach := Reach(m, maxInterceptorDistance, a, b);
      && SortedByDistance(r)
      && (forall x :: x in r ==> x.distance <= reach && IsLaneDistanceOf(m, a, b, defenders, x))
      && (forall k :: 0 <= k < |defenders| && PointToLineDistance(m, defenders[k].pos, a, b) <= reach ==>
            Interceptor(defenders[k].id, PointToLineDistance(m, defenders[k].pos, a, b)) in r)
  {
    var reach := Reach(m, maxInterceptorDistance, a, b);
    var close := CloseDefenders(m, reach, a, b, defenders);
    var r := InterceptorsOf(m, maxInterceptorDistance, a, b, defenders);
    assert multiset(r) == multiset(close);
    forall x | x in r ensures x in close {
      assert x in multiset(close);
    }
    forall x | x in close ensures x in r {
      assert x in multiset(r);
    }
  }

  // ---------------------------------------------------------------------------
  // Scores

  datatype RiskWeights = RiskWeights(interceptorProbability: real, receiverPressure: real, passDistance: real)
  datatype RewardWeights = RewardWeights(horizontalProgress: real, spaceGained: real)

  datatype PassConfig = PassConfig(
    fieldLength: real,
    fieldWidth: real,
    minPassDistance: real,
    maxPassDistance: real,
    successProbabilityThreshold: real,
    maxInterceptorDistance: real,
    defensivePressureRadius: real,
    riskWeights: RiskWeights,
    rewardWeights: RewardWeights)

  /**
   * The divisors of the formulas are non-zero. A positive minimum pass
   * distance keeps the interceptor term `2 * dist / distance` defined.
   */
  predicate ValidConfig(c: PassConfig)
  {
    0.0 < c.fieldLength && 0.0 < c.minPassDistance && 0.0 < c.maxPassDistance && 0.0 < c.defensivePressureRadius
  }

  function PressureTerms(m: Math, radius: real, p: Point, defenders: seq<Point>): (r: seq<real>)
    requires Lawful(m) && 0.0 < radius
    ensures |r| == |defenders|
    ensures forall i :: 0 <= i < |r| ==> 0.0 < r[i] <= 1.0
  {
    if |defenders| == 0 then []
    else
      var d := Dist(m, p, defenders[|defenders| - 1]);
      QuotientNonneg(d, radius);
      ExpLaw(m, -d / radius);
      PressureTerms(m, radius, p, defenders[..|defenders| - 1]) + [m.exp(-d / radius)]
  }

  /** `calculate_defensive_pressure`: 0 with no defenders, else a sum of terms in (0, 1]. */
  function DefensivePressure(m: Math, radius: real, p: Point, defenders: seq<Point>): (r: real)
    requires Lawful(m) && 0.0 < radius
    ensures |defenders| == 0 ==> r == 0.0
    ensures |defenders| > 0 ==> 0.0 < r
    ensures r <= |defenders| as real
  {
    var terms := PressureTerms(m, radius, p, defenders);
    SumBounded(terms, 1.0);
    if |defenders| == 0 then 0.0
    else
      SumAtLeast(terms[..|terms| - 1], 0.0);
      Sum(terms)
  }

  function InterceptorRisk(interceptors: seq<Interceptor>, distance: real): (r: real)
    requires 0.0 < distance
    requires forall i :: 0 <= i < |interceptors| ==> 0.0 <= interceptors[i].distance
    ensures 0.0 <= r
  {
    if |interceptors| == 0 then 0.0
    else
      var d := interceptors[|interceptors| - 1].distance;
      QuotientNonneg(2.0 * d, distance);
      QuotientNonneg(1.0, 1.0 + 2.0 * d / distance);
      InterceptorRisk(interceptors[..|interceptors| - 1], distance) + 1.0 / (1.0 + 2.0 * d / distance)
  }

  lemma ProductOfUnitFactors(a: real, b: real, c: real)
    requires 0.0 < a <= 1.0 && 0.0 < b <= 1.0 && 0.0 < c <= 1.0
    ensures 0.0 < a * b * c <= 1.0
  {
    var ab := a * b;
    ProductPositive(a, b, ab);
    ProductNonneg(1.0 - a, b, b - ab);
    var abc := ab * c;
    ProductPositive(ab, c, abc);
    ProductNonneg(1.0 - ab, c, c - abc);
  }

  /** `calculate_pass_success_probability`: a product of three factors in (0, 1]. */
  function SuccessProbability(m: Math, c: PassConfig, distance: real, interceptors: seq<Interceptor>,
                              pressure: real): (r: real)
    requires Lawful(m) && ValidConfig(c)
    requires 0.0 < distance && 0.0 <= pressure
    requires forall i :: 0 <= i < |interceptors| ==> 0.0 <= interceptors[i].distance
    ensures 0.0 < r <= 1.0
  {
    var baseProb := m.exp(-distance / c.maxPassDistance);
    var interceptorFactor := m.exp(-InterceptorRisk(interceptors, distance));
    var pressureFactor := m.exp(-pressure / 2.0);
    QuotientNonneg(distance, c.maxPassDistance);
    ExpLaw(m, -distance / c.maxPassDistance);
    ExpLaw(m, -InterceptorRisk(interceptors, distance));
    ExpLaw(m, -pressure / 2.0);
    ProductOfUnitFactors(baseProb, interceptorFactor, pressureFactor);
    baseProb * interceptorFactor * pressureFactor
  }

  /** `calculate_risk_score` */
  function RiskScore(c: PassConfig, interceptorCount: nat, distance: real, pressure: real): (r: real)
    requires ValidConfig(c)
    ensures r <= 1.0
  {
    var w := c.riskWeights;
    var interceptorRisk := MinR(1.0, interceptorCount as real / 3.0);
    var pressureRisk := MinR(1.0, pressure / 3.0);
    var distanceRisk := distance / c.maxPassDistance;
    var risk := w.interceptorProbability * interceptorRisk + w.receiverPressure * pressureRisk
                + w.passDistance * distanceRisk;
    MinR(1.0, risk)
  }

  /** `calculate_reward_score` */
  function RewardScore(c: PassConfig, horizontalProgress: real, spaceGained: real): (r: real)
    ensures r <= 1.0
  {
    var w := c.rewardWeights;
    var progressNorm := (horizontalProgress + 1.0) / 2.0;
    var spaceNorm := MinR(1.0, spaceGained / 20.0);
    MinR(1.0, w.horizontalProgress * progressNorm + w.spaceGained * spaceNorm)
  }

  /** With non-negative weights and inputs, the risk score lies in [0, 1]. */
  lemma RiskScoreNonneg(c: PassConfig, interceptorCount: nat, distance: real, pressure: real)
    requires ValidConfig(c)
    requires 0.0 <= c.riskWeights.interceptorProbability && 0.0 <= c.riskWeights.receiverPressure
    requires 0.0 <= c.riskWeights.passDistance && 0.0 <= pressure && 0.0 <= distance
    ensures 0.0 <= RiskScore(c, interceptorCount, distance, pressure)
  {
    var w := c.riskWeights;
    var interceptorRisk := MinR(1.0, interceptorCount as real / 3.0);
    var pressureRisk := MinR(1.0, pressure / 3.0);
    QuotientNonneg(distance, c.maxPassDistance);
    var distanceRisk := distance / c.maxPassDistance;
    ProductNonneg(w.interceptorProbability, interceptorRisk, w.interceptorProbability * interceptorRisk);
    ProductNonneg(w.receiverPressure, pressureRisk, w.receiverPressure * pressureRisk);
    ProductNonneg(w.passDistance, distanceRisk, w.passDistance * distanceRisk);
  }

  /** One more interceptor never lowers the risk score (for a non-negative interceptor weight). */
  lemma RiskScoreMonotoneInInterceptors(c: PassConfig, n: nat, distance: real, pressure: real)
    requires ValidConfig(c) && 0.0 <= c.riskWeights.interceptorProbability
    ensures RiskScore(c, n, distance, pressure) <= RiskScore(c, n + 1, distance, pressure)
  {
    var w := c.riskWeights.interceptorProbability;
    var lo, hi := MinR(1.0, n as real / 3.0), MinR(1.0, (n + 1) as real / 3.0);
    ProductNonneg(w, hi - lo, w * (hi - lo));
    assert w * hi == w * lo + w * (hi - lo);
  }

  /** With non-negative weights, progress at least -1 and non-negative space, the reward score lies in [0, 1]. */
  lemma RewardScoreNonneg(c: PassConfig, horizontalProgress: real, spaceGained: real)
    requires 0.0 <= c.rewardWeights.horizontalProgress && 0.0 <= c.rewardWeights.spaceGained
    requires -1.0 <= horizontalProgress && 0.0 <= spaceGained
    ensures 0.0 <= RewardScore(c, horizontalProgress, spaceGained)
  {
    var w := c.rewardWeights;
    var progressNorm := (horizontalProgress + 1.0) / 2.0;
    var spaceNorm := MinR(1.0, spaceGained / 20.0);
    ProductNonneg(w.horizontalProgress, progressNorm, w.horizontalProgress * progressNorm);
    ProductNonneg(w.spaceGained, spaceNorm, w.spaceGained * spaceNorm);
  }

  /** `calculate_space_gained`: how much further, on average, the receiver is from the opponents than the passer. */
  function SpaceGained(m: Math, start: Point, end: Point, opponents: seq<Point>): (r: real)
    requires Lawful(m)
    ensures 0.0 <= r
    ensures |opponents| == 0 ==> r == 0.0
    ensures |opponents| > 0 ==>
      r == MaxR(0.0, Mean(DistancesFrom(m, end, opponents)) - Mean(DistancesFrom(m, start, opponents)))
  {
    if |opponents| == 0 then 0.0
    else MaxR(0.0, Mean(DistancesFrom(m, end, opponents)) - Mean(DistancesFrom(m, start, opponents)))
  }

  // ---------------------------------------------------------------------------
  // Opportunities

  datatype PassingLane = PassingLane(
    start: Point,
    end: Point,
    distance: real,
    interceptors: seq<Interceptor>,
    successProbability: real,
    riskScore: real,
    rewardScore: real,
    totalScore: real)

  datatype PassingOpportunity = PassingOpportunity(
    passerId: int,
    receiverId: int,
    lane: PassingLane,
    defensivePressure: real,
    horizontalProgress: real,
    spaceGained: real,
    timestamp: real)

  /** `(receiver_x - passer_x) / field_length` */
  function HorizontalProgress(c: PassConfig, passerPos: Point, receiverPos: Point): real
    requires ValidConfig(c)
  {
    (receiverPos.x - passerPos.x) / c.fieldLength
  }

  /** The lane to `receiver` once its interceptors are known. */
  function Lane(m: Math, c: PassConfig, passerPos: Point, receiverPos: Point, interceptors: seq<Interceptor>,
                opponents: seq<Player>): (lane: PassingLane)
    requires Lawful(m) && ValidConfig(c)
    requires c.minPassDistance <= Dist(m, passerPos, receiverPos)
    requires forall i :: 0 <= i < |interceptors| ==> 0.0 <= interceptors[i].distance
  {
    var distance := Dist(m, receiverPos, passerPos);
    DistSymmetric(m, receiverPos, passerPos);
    var pressure := DefensivePressure(m, c.defensivePressureRadius, receiverPos, Positions(opponents));
    var progress := HorizontalProgress(c, passerPos, receiverPos);
    var gained := SpaceGained(m, passerPos, receiverPos, Positions(opponents));
    var success := SuccessProbability(m, c, distance, interceptors, pressure);
    var risk := RiskScore(c, |interceptors|, distance, pressure);
    var reward := RewardScore(c, progress, gained);
    PassingLane(passerPos, receiverPos, distance, interceptors, success, risk, reward, Mul(reward, 1.0 - risk))
  }

  lemma InterceptorDistancesNonneg(m: Math, c: PassConfig, a: Point, b: Point, opponents: seq<Player>)
    requires Lawful(m)
    ensures var r := InterceptorsOf(m, c.maxInterceptorDistance, a, b, opponents);
      forall i :: 0 <= i < |r| ==> 0.0 <= r[i].distance
  {
    InterceptorsAreExactlyTheCloseDefenders(m, c.maxInterceptorDistance, a, b, opponents);
  }

  /** The lane to a receiver inside the distance window, with its interceptors found. */
  function LaneTo(m: Math, c: PassConfig, passerPos: Point, receiverPos: Point, opponents: seq<Player>)
    : (lane: PassingLane)
    requires Lawful(m) && ValidConfig(c)
    requires c.minPassDistance <= Dist(m, passerPos, receiverPos)
  {
    InterceptorDistancesNonneg(m, c, passerPos, receiverPos, opponents);
    Lane(m, c, passerPos, receiverPos, InterceptorsOf(m, c.maxInterceptorDistance, passerPos, receiverPos, opponents),
         opponents)
  }

  /** One iteration of the receiver loop: `None` for a skipped or rejected receiver. */
  function Evaluate(m: Math, c: PassConfig, passerId: int, passerPos: Point, receiver: Player,
                    opponents: seq<Player>, timestamp: real): Option<PassingOpportunity>
    requires Lawful(m) && ValidConfig(c)
  {
    if receiver.id == passerId then None
    else
      var distance := Dist(m, receiver.pos, passerPos);
      DistSymmetric(m, receiver.pos, passerPos);
      if !(c.minPassDistance <= distance <= c.maxPassDistance) then None
      else
        var lane := LaneTo(m, c, passerPos, receiver.pos, opponents);
        if lane.successProbability >= c.successProbabilityThreshold then
          Some(PassingOpportunity(passerId, receiver.id, lane,
                                  DefensivePressure(m, c.defensivePressureRadius, receiver.pos, Positions(opponents)),
                                  HorizontalProgress(c, passerPos, receiver.pos),
                                  SpaceGained(m, passerPos, receiver.pos, Positions(opponents)),
                                  timestamp))
        else None
  }

  /** `analyze_passing_opportunities`: the kept opportunities, in teammate order. */
  function Opportunities(m: Math, c: PassConfig, passerId: int, passerPos: Point, teammates: seq<Player>,
                         opponents: seq<Player>, timestamp: real): seq<PassingOpportunity>
    requires Lawful(m) && ValidConfig(c)
  {
    if |teammates| == 0 then []
    else
      var prefix := Opportunities(m, c, passerId, passerPos, teammates[..|teammates| - 1], opponents, timestamp);
      match Evaluate(m, c, passerId, passerPos, teammates[|teammates| - 1], opponents, timestamp)
      case Some(o) => prefix + [o]
      case None => prefix
  }

  /** What every kept opportunity satisfies. */
  predicate WellFormed(m: Math, c: PassConfig, passerId: int, passerPos: Point, teammates: seq<Player>,
                       o: PassingOpportunity)
    requires Lawful(m)
  {
    && o.passerId == passerId
    && o.receiverId != passerId
    && (exists k :: 0 <= k < |teammates| && teammates[k].id == o.receiverId && teammates[k].pos == o.lane.end)
    && o.lane.start == passerPos
    && o.lane.distance == Dist(m, passerPos, o.lane.end)
    && c.minPassDistance <= o.lane.distance <= c.maxPassDistance
    && c.successProbabilityThreshold <= o.lane.successProbability
    && 0.0 < o.lane.successProbability <= 1.0
    && o.lane.riskScore <= 1.0
    && o.lane.rewardScore <= 1.0
    && o.lane.totalScore == Mul(o.lane.rewardScore, 1.0 - o.lane.riskScore)
    && SortedByDistance(o.lane.interceptors)
  }

  lemma EvaluateWellFormed(m: Math, c: PassConfig, passerId: int, passerPos: Point, teammates: seq<Player>,
                           k: nat, opponents: seq<Player>, timestamp: real)
    requires Lawful(m) && ValidConfig(c) && k < |teammates|
    ensures var e := Evaluate(m, c, passerId, passerPos, teammates[k], opponents, timestamp);
      e.Some? ==> WellFormed(m, c, passerId, passerPos, teammates, e.value)
  {
    var receiver := teammates[k];
    DistSymmetric(m, receiver.pos, passerPos);
  }

  lemma WellFormedInLongerSquad(m: Math, c: PassConfig, passerId: int, passerPos: Point,
                                prefix: seq<Player>, teammates: seq<Player>, o: PassingOpportunity)
    requires Lawful(m) && |prefix| <= |teammates| && prefix == teammates[..|prefix|]
    requires WellFormed(m, c, passerId, passerPos, prefix, o)
    ensures WellFormed(m, c, passerId, passerPos, teammates, o)
  {
    var k :| 0 <= k < |prefix| && prefix[k].id == o.receiverId && prefix[k].pos == o.lane.end;
    assert teammates[k] == prefix[k];
  }

  /**
   * Every kept opportunity has a receiver other than the passer, a lane
   * length inside the window, a success probability in (0, 1] at or above
   * the threshold, risk and reward at most 1, and total = reward * (1 - risk).
   */
  lemma {:induction false} OpportunitiesAreWellFormed(m: Math, c: PassConfig, passerId: int, passerPos: Point,
                                                     teammates: seq<Player>, opponents: seq<Player>, timestamp: real)
    requires Lawful(m) && ValidConfig(c)
    ensures var ops := Opportunities(m, c, passerId, passerPos, teammates, opponents, timestamp);
      && |ops| <= |teammates|
      && forall i :: 0 <= i < |ops| ==> WellFormed(m, c, passerId, passerPos, teammates, ops[i])
  {
    if |teammates| != 0 {
      var n := |teammates| - 1;
      var prefix := teammates[..n];
      OpportunitiesAreWellFormed(m, c, passerId, passerPos, prefix, opponents, timestamp);
      EvaluateWellFormed(m, c, passerId, passerPos, teammates, n, opponents, timestamp);
      var ops := Opportunities(m, c, passerId, passerPos, prefix, opponents, timestamp);
      forall i | 0 <= i < |ops|
        ensures WellFormed(m, c, passerId, passerPos, teammates, ops[i])
      {
        WellFormedInLongerSquad(m, c, passerId, passerPos, prefix, teammates, ops[i]);
      }
    }
  }

  /**
   * The receiver loop keeps a teammate exactly when it is not the passer,
   * the pass length lies in `[min_pass_distance, max_pass_distance]` and
   * the lane's success probability reaches the threshold; the opportunity
   * kept is that teammate's.
   */
  lemma EvaluateKeepsIff(m: Math, c: PassConfig, passerId: int, passerPos: Point, receiver: Player,
                         opponents: seq<Player>, timestamp: real)
    requires Lawful(m) && ValidConfig(c)
    ensures var e := Evaluate(m, c, passerId, passerPos, receiver, opponents, timestamp);
      && (e.Some? <==>
            && receiver.id != passerId
            && c.minPassDistance <= Dist(m, passerPos, receiver.pos) <= c.maxPassDistance
            && c.successProbabilityThreshold <= LaneTo(m, c, passerPos, receiver.pos, opponents).successProbability)
      && (e.Some? ==> e.value.receiverId == receiver.id && e.value.lane == LaneTo(m, c, passerPos, receiver.pos, opponents))
  {
    DistSymmetric(m, receiver.pos, passerPos);
  }

  /** The outcome of the receiver loop's body for every teammate, in order. */
  function Evaluations(m: Math, c: PassConfig, passerId: int, passerPos: Point, teammates: seq<Player>,
                       opponents: seq<Player>, timestamp: real): (r: seq<Option<PassingOpportunity>>)
    requires Lawful(m) && ValidConfig(c)
    ensures |r| == |teammates|
    ensures forall k :: 0 <= k < |teammates| ==> r[k] == Evaluate(m, c, passerId, passerPos, teammates[k], opponents, timestamp)
  {
    seq(|teammates|, k requires 0 <= k < |teammates| => Evaluate(m, c, passerId, passerPos, teammates[k], opponents, timestamp))
  }

  /** The values of the present entries, in order. */
  function Present(es: seq<Option<PassingOpportunity>>): (r: seq<PassingOpportunity>)
    ensures |r| <= |es|
  {
    if |es| == 0 then []
    else
      var prefix := Present(es[..|es| - 1]);
      match es[|es| - 1]
      case Some(o) => prefix + [o]
      case None => prefix
  }

  /** A value is present exactly when some entry holds it. */
  lemma {:induction false} PresentMembers(es: seq<Option<PassingOpportunity>>)
    ensures forall o :: o in Present(es) <==> exists k :: 0 <= k < |es| && es[k] == Some(o)
  {
    if |es| != 0 {
      var n := |es| - 1;
      var prefix := es[..n];
      PresentMembers(prefix);
      forall o
        ensures o in Present(es) <==> exists k :: 0 <= k < |es| && es[k] == Some(o)
      {
        if o in Present(prefix) {
          var k :| 0 <= k < |prefix| && prefix[k] == Some(o);
          assert es[k] == Some(o);
        }
        if exists k :: 0 <= k < |es| && es[k] == Some(o) {
          var k :| 0 <= k < |es| && es[k] == Some(o);
          if k < n {
            assert prefix[k] == Some(o);
          }
        }
      }
    }
  }

  /** `Opportunities` keeps the present outcomes of the loop's body. */
  lemma {:induction false} OpportunitiesArePresent(m: Math, c: PassConfig, passerId: int, passerPos: Point,
                                                   teammates: seq<Player>, opponents: seq<Player>, timestamp: real)
    requires Lawful(m) && ValidConfig(c)
    ensures Opportunities(m, c, passerId, passerPos, teammates, opponents, timestamp)
         == Present(Evaluations(m, c, passerId, passerPos, teammates, opponents, timestamp))
  {
    if |teammates| != 0 {
      var n := |teammates| - 1;
      var es := Evaluations(m, c, passerId, passerPos, teammates, opponents, timestamp);
      OpportunitiesArePresent(m, c, passerId, passerPos, teammates[..n], opponents, timestamp);
      assert es[..n] == Evaluations(m, c, passerId, passerPos, teammates[..n], opponents, timestamp);
    }
  }

  /** The kept opportunities are exactly the opportunities the loop makes of some teammate. */
  lemma OpportunitiesAreTheKeptReceivers(m: Math, c: PassConfig, passerId: int, passerPos: Point,
                                         teammates: seq<Player>, opponents: seq<Player>, timestamp: real)
    requires Lawful(m) && ValidConfig(c)
    ensures forall o :: o in Opportunities(m, c, passerId, passerPos, teammates, opponents, timestamp) <==>
      exists k :: 0 <= k < |teammates| && Evaluate(m, c, passerId, passerPos, teammates[k], opponents, timestamp) == Some(o)
  {
    var es := Evaluations(m, c, passerId, passerPos, teammates, opponents, timestamp);
    OpportunitiesArePresent(m, c, passerId, passerPos, teammates, opponents, timestamp);
    PresentMembers(es);
  }

  /**
   * The converse of `OpportunitiesAreWellFormed`: every teammate other than
   * the passer whose pass length lies in the window and whose lane reaches
   * the success threshold gets an opportunity.
   */
  lemma EveryQualifyingTeammateIsKept(m: Math, c: PassConfig, passerId: int, passerPos: Point,
                                      teammates: seq<Player>, opponents: seq<Player>, timestamp: real, k: nat)
    requires Lawful(m) && ValidConfig(c) && k < |teammates|
    requires teammates[k].id != passerId
    requires c.minPassDistance <= Dist(m, passerPos, teammates[k].pos) <= c.maxPassDistance
    requires c.successProbabilityThreshold <= LaneTo(m, c, passerPos, teammates[k].pos, opponents).successProbability
    ensures exists o :: (o in Opportunities(m, c, passerId, passerPos, teammates, opponents, timestamp)
                         && o.receiverId == teammates[k].id
                         && o.lane == LaneTo(m, c, passerPos, teammates[k].pos, opponents))
  {
    EvaluateKeepsIff(m, c, passerId, passerPos, teammates[k], opponents, timestamp);
    OpportunitiesAreTheKeptReceivers(m, c, passerId, passerPos, teammates, opponents, timestamp);
    var o := Evaluate(m, c, passerId, passerPos, teammates[k], opponents, timestamp).value;
    assert o in Opportunities(m, c, passerId, passerPos, teammates, opponents, timestamp);
  }

  /** `ops[i]` has the highest total score, and no earlier opportunity ties it. */
  predicate IsFirstBest(ops: seq<PassingOpportunity>, i: int)
  {
    && 0 <= i < |ops|
    && (forall j :: 0 <= j < |ops| ==> ops[j].lane.totalScore <= ops[i].lane.totalScore)
    && (forall j :: 0 <= j < i ==> ops[j].lane.totalScore < ops[i].lane.totalScore)
  }

  /** `get_best_opportunity`: `max` with a key returns the FIRST opportunity of highest total score. */
  function BestOpportunity(ops: seq<PassingOpportunity>): (r: Option<PassingOpportunity>)
    ensures r.None? <==> |ops| == 0
    ensures r.Some? ==> exists i :: IsFirstBest(ops, i) && r.value == ops[i]
  {
    if |ops| == 0 then None
    else
      var scores := TotalScores(ops);
      var i := ArgMax(scores);
      Some(ops[i])
  }

  function TotalScores(ops: seq<PassingOpportunity>): (r: seq<real>)
    ensures |r| == |ops| && forall i :: 0 <= i < |ops| ==> r[i] == ops[i].lane.totalScore
  {
    if |ops| == 0 then [] else TotalScores(ops[..|ops| - 1]) + [ops[|ops| - 1].lane.totalScore]
  }

  // ---------------------------------------------------------------------------
  // Space control on a 5 m grid (`calculate_space_control`)

  /** `generate_control_grid(resolution)`: x-major over `arange(0, L, res) x arange(0, W, res)`. */
  function ControlGrid(c: PassConfig, resolution: real): seq<Point>
    requires 0.0 < resolution
  {
    Grid(Arange(c.fieldLength, resolution), Arange(c.fieldWidth, resolution))
  }

  /** The team's nearest player is strictly closer to `p` than the opponents' nearest. */
  predicate TeamCloser(m: Math, p: Point, team: seq<Point>, opponents: seq<Point>)
    requires Lawful(m) && |team| > 0 && |opponents| > 0
  {
    Min(DistancesFrom(m, p, team)) < Min(DistancesFrom(m, p, opponents))
  }

  /** How many of the first `k` grid points the team reaches first. */
  function ControlledCount(m: Math, grid: seq<Point>, k: nat, team: seq<Point>, opponents: seq<Point>): (n: nat)
    requires Lawful(m) && |team| > 0 && |opponents| > 0 && k <= |grid|
    ensures n <= k
  {
    if k == 0 then 0
    else ControlledCount(m, grid, k - 1, team, opponents) + (if TeamCloser(m, grid[k - 1], team, opponents) then 1 else 0)
  }

  /** `team_control / len(grid_points)`: a fraction, 1 exactly when every point is controlled, 0 when none is. */
  function Share(k: nat, n: nat): (r: real)
    requires k <= n && 0 < n
    ensures 0.0 <= r <= 1.0
    ensures r == 1.0 <==> k == n
    ensures r == 0.0 <==> k == 0
  {
    FractionBounds(k as real, n as real, k as real / n as real);
    k as real / n as real
  }

  lemma FractionBounds(k: real, n: real, q: real)
    requires 0.0 <= k <= n && 0.0 < n && q == k / n
    ensures 0.0 <= q <= 1.0
    ensures q == 1.0 <==> k == n
    ensures q == 0.0 <==> k == 0.0
  {
    assert q * n == k;
    if q < 0.0 {
      ProductNonneg(-q, n, -q * n);
    } else if 1.0 < q {
      ProductPositive(q - 1.0, n, (q - 1.0) * n);
    }
  }

  // ---------------------------------------------------------------------------
  // The analyzer object

  class PassingOpportunitiesAnalyzer {
    const math: Math
    const config: PassConfig
    var currentOpportunities: seq<PassingOpportunity>

    constructor (m: Math, config: PassConfig)
      ensures math == m && this.config == config && currentOpportunities == []
    {
      math := m;
      this.config := config;
      currentOpportunities := [];
    }

    /** The loop of `find_interceptors` followed by its sort. */
    method FindInterceptors(start: Point, end: Point, defenders: seq<Player>) returns (r: seq<Interceptor>)
      requires Lawful(math)
      ensures r == InterceptorsOf(math, config.maxInterceptorDistance, start, end, defenders)
    {
      var reach := Reach(math, config.maxInterceptorDistance, start, end);
      var interceptors: seq<Interceptor> := [];
      var i := 0;
      while i < |defenders|
        invariant 0 <= i <= |defenders|
        invariant interceptors == CloseDefenders(math, reach, start, end, defenders[..i])
      {
        var distance := PointToLineDistance(math, defenders[i].pos, start, end);
        if distance <= reach {
          interceptors := interceptors + [Interceptor(defenders[i].id, distance)];
        }
        assert defenders[..i + 1][..i] == defenders[..i];
        i := i + 1;
      }
      assert defenders[..|defenders|] == defenders;
      r := SortByDistance(interceptors);
    }

    /** `analyze_passing_opportunities`: rebuilds `current_opportunities` receiver by receiver. */
    method AnalyzePassingOpportunities(passerId: int, passerPos: Point, teammates: seq<Player>,
                                       opponents: seq<Player>, timestamp: real)
      returns (opportunities: seq<PassingOpportunity>)
      requires Lawful(math) && ValidConfig(config)
      modifies this
      ensures opportunities == Opportunities(math, config, passerId, passerPos, teammates, opponents, timestamp)
      ensures currentOpportunities == opportunities
    {
      opportunities := [];
      var i := 0;
      while i < |teammates|
        invariant 0 <= i <= |teammates|
        invariant opportunities == Opportunities(math, config, passerId, passerPos, teammates[..i], opponents, timestamp)
      {
        assert teammates[..i + 1][..i] == teammates[..i];
        var receiver := teammates[i];
        ghost var step := Evaluate(math, config, passerId, passerPos, receiver, opponents, timestamp);
        if receiver.id != passerId {
          var passDistance := Dist(math, receiver.pos, passerPos);
          DistSymmetric(math, receiver.pos, passerPos);
          if config.minPassDistance <= passDistance <= config.maxPassDistance {
            var interceptors := FindInterceptors(passerPos, receiver.pos, opponents);
            InterceptorDistancesNonneg(math, config, passerPos, receiver.pos, opponents);
            var lane := Lane(math, config, passerPos, receiver.pos, interceptors, opponents);
            if lane.successProbability >= config.successProbabilityThreshold {
              var opportunity := PassingOpportunity(
                passerId, receiver.id, lane,
                DefensivePressure(math, config.defensivePressureRadius, receiver.pos, Positions(opponents)),
                HorizontalProgress(config, passerPos, receiver.pos),
                SpaceGained(math, passerPos, receiver.pos, Positions(opponents)),
                timestamp);
              opportunities := opportunities + [opportunity];
            }
          }
        }
        i := i + 1;
      }
      assert teammates[..|teammates|] == teammates;
      currentOpportunities := opportunities;
    }

    /** `get_best_opportunity` over `current_opportunities`. */
    method GetBestOpportunity() returns (r: Option<PassingOpportunity>)
      ensures r.None? <==> |currentOpportunities| == 0
      ensures r.Some? ==> exists i :: IsFirstBest(currentOpportunities, i) && r.value == currentOpportunities[i]
    {
      r := BestOpportunity(currentOpportunities);
    }

    /**
     * `calculate_space_control`: the share of 5 m grid points the team
     * reaches first. `None` when the call raises: `cdist` on an empty team
     * or opponent list inside the loop, or the division by the length of an
     * empty grid.
     */
    method CalculateSpaceControl(team: seq<Point>, opponents: seq<Point>) returns (share: Option<real>)
      requires Lawful(math)
      ensures share.None? <==> |ControlGrid(config, 5.0)| == 0 || |team| == 0 || |opponents| == 0
      ensures share.Some? ==>
        share.value == Share(ControlledCount(math, ControlGrid(config, 5.0), |ControlGrid(config, 5.0)|, team, opponents),
                             |ControlGrid(config, 5.0)|)
    {
      var gridPoints := ControlGrid(config, 5.0);
      if |gridPoints| == 0 || |team| == 0 || |opponents| == 0 {
        return None;
      }
      var teamControl := CountControlled(gridPoints, team, opponents);
      share := Some(Share(teamControl, |gridPoints|));
    }

    /** The loop of `calculate_space_control` over the grid points. */
    method CountControlled(gridPoints: seq<Point>, team: seq<Point>, opponents: seq<Point>) returns (teamControl: nat)
      requires Lawful(math)
      requires |team| > 0 && |opponents| > 0
      ensures teamControl == ControlledCount(math, gridPoints, |gridPoints|, team, opponents)
    {
      teamControl := 0;
      var i := 0;
      while i < |gridPoints|
        invariant 0 <= i <= |gridPoints|
        invariant teamControl == ControlledCount(math, gridPoints, i, team, opponents)
      {
        teamControl := CountPoint(gridPoints, i, team, opponents, teamControl);
        i := i + 1;
      }
    }

    /** One pass of that loop: the count goes up by one when the team reaches point `i` first. */
    method CountPoint(gridPoints: seq<Point>, i: nat, team: seq<Point>, opponents: seq<Point>, before: nat)
      returns (after: nat)
      requires Lawful(math) && |team| > 0 && |opponents| > 0 && i < |gridPoints|
      requires before == ControlledCount(math, gridPoints, i, team, opponents)
      ensures after == ControlledCount(math, gridPoints, i + 1, team, opponents)
    {
      after := before;
      if TeamCloser(math, gridPoints[i], team, opponents) {
        after := after + 1;
      }
    }
  }
}
