/**
 * The list-based pressing analyzer of `Soccer_Analytics/core/pressing_analyzer.py`:
 * per frame, the (up to) three defenders nearest the ball, their closing
 * speeds and a pressing intensity in [0, 100], logged as events.
 */
module Pressing {
  import opened Numerics

  /** Every entry of `s` indexes `d`. */
  predicate Indexes(s: seq<nat>, d: seq<real>)
  {
    forall k :: 0 <= k < |s| ==> s[k] < |d|
  }

  /** The indices in `s` point at non-decreasing values of `d`. */
  predicate AscendingBy(s: seq<nat>, d: seq<real>)
    requires Indexes(s, d)
  {
    forall a, b :: 0 <= a < b < |s| ==> d[s[a]] <= d[s[b]]
  }

  /** Puts index `i` after every index whose value is not above its own. */
  function InsertIndex(i: nat, d: seq<real>, s: seq<nat>): (r: seq<nat>)
    requires i < |d| && Indexes(s, d)
    ensures |r| == |s| + 1 && Indexes(r, d)
  {
    if |s| == 0 || d[i] < d[s[0]] then [i] + s
    else
      assert s == [s[0]] + s[1..];
      [s[0]] + InsertIndex(i, d, s[1..])
  }

  /** `np.argsort` of the first `n` values; equal values keep their index order. */
  function ArgSortUpTo(d: seq<real>, n: nat): (r: seq<nat>)
    requires n <= |d|
    ensures |r| == n && Indexes(r, d)
  {
    if n == 0 then [] else InsertIndex(n - 1, d, ArgSortUpTo(d, n - 1))
  }

  function ArgSort(d: seq<real>): (r: seq<nat>)
    ensures |r| == |d| && Indexes(r, d)
  {
    ArgSortUpTo(d, |d|)
  }

  /** Inserting keeps every index already present and adds the new one. */
  lemma {:induction false} InsertIndexKeepsMembers(i: nat, d: seq<real>, s: seq<nat>)
    requires i < |d| && Indexes(s, d)
    ensures i in InsertIndex(i, d, s)
    ensures forall x :: x in s ==> x in InsertIndex(i, d, s)
    decreases |s|
  {
    if |s| != 0 && d[s[0]] <= d[i] {
      var rest := InsertIndex(i, d, s[1..]);
      InsertIndexKeepsMembers(i, d, s[1..]);
      assert InsertIndex(i, d, s) == [s[0]] + rest;
      assert s == [s[0]] + s[1..];
    } else {
      assert InsertIndex(i, d, s) == [i] + s;
    }
  }

  /** Every index below `n` occurs in the order of the first `n` values. */
  lemma {:induction false} ArgSortUpToCovers(d: seq<real>, n: nat)
    requires n <= |d|
    ensures forall j :: 0 <= j < n ==> j in ArgSortUpTo(d, n)
  {
    if n != 0 {
      var s := ArgSortUpTo(d, n - 1);
      ArgSortUpToCovers(d, n - 1);
      InsertIndexKeepsMembers(n - 1, d, s);
      assert ArgSortUpTo(d, n) == InsertIndex(n - 1, d, s);
    }
  }

  /** Inserting an index whose value is at least `lo` among such indices keeps every value at least `lo`. */
  lemma {:induction false} InsertIndexAtLeast(i: nat, d: seq<real>, s: seq<nat>, lo: real)
    requires i < |d| && Indexes(s, d) && lo <= d[i]
    requires forall k :: 0 <= k < |s| ==> lo <= d[s[k]]
    ensures forall k :: 0 <= k < |InsertIndex(i, d, s)| ==> lo <= d[InsertIndex(i, d, s)[k]]
    decreases |s|
  {
    if |s| != 0 && d[s[0]] <= d[i] {
      InsertIndexAtLeast(i, d, s[1..], lo);
    }
  }

  lemma {:induction false} InsertIndexKeepsAscending(i: nat, d: seq<real>, s: seq<nat>)
    requires i < |d| && Indexes(s, d) && AscendingBy(s, d)
    ensures AscendingBy(InsertIndex(i, d, s), d)
    decreases |s|
  {
    if |s| != 0 && d[s[0]] <= d[i] {
      InsertIndexKeepsAscending(i, d, s[1..]);
      InsertIndexAtLeast(i, d, s[1..], d[s[0]]);
      assert InsertIndex(i, d, s) == [s[0]] + InsertIndex(i, d, s[1..]);
    }
  }

  lemma {:induction false} ArgSortUpToAscending(d: seq<real>, n: nat)
    requires n <= |d|
    ensures AscendingBy(ArgSortUpTo(d, n), d)
  {
    if n != 0 {
      ArgSortUpToAscending(d, n - 1);
      ArgSortStep(d, n);
    }
  }

  lemma ArgSortStep(d: seq<real>, n: nat)
    requires 0 < n <= |d|
    requires AscendingBy(ArgSortUpTo(d, n - 1), d)
    ensures AscendingBy(ArgSortUpTo(d, n), d)
  {
    var s := ArgSortUpTo(d, n - 1);
    InsertIndexKeepsAscending(n - 1, d, s);
    assert ArgSortUpTo(d, n) == InsertIndex(n - 1, d, s);
  }

  /** Every index turns up in the sorted order. */
  lemma ArgSortHasEveryIndex(d: seq<real>)
    ensures forall j :: 0 <= j < |d| ==> j in ArgSort(d)
  {
    ArgSortUpToCovers(d, |d|);
  }

  /** No index appears twice. */
  predicate Distinct(s: seq<nat>)
  {
    forall a, b :: 0 <= a < b < |s| ==> s[a] != s[b]
  }

  /** A value that is neither the inserted index nor in `s` is not in the result. */
  lemma {:induction false} InsertIndexAvoids(i: nat, d: seq<real>, s: seq<nat>, x: nat)
    requires i < |d| && Indexes(s, d) && x != i
    requires forall k :: 0 <= k < |s| ==> s[k] != x
    ensures forall k :: 0 <= k < |InsertIndex(i, d, s)| ==> InsertIndex(i, d, s)[k] != x
    decreases |s|
  {
    if |s| != 0 && d[s[0]] <= d[i] {
      InsertIndexAvoids(i, d, s[1..], x);
    }
  }

  /** Inserting an index below `n` into indices below `n` keeps them below `n`. */
  lemma {:induction false} InsertIndexBelow(i: nat, d: seq<real>, s: seq<nat>, n: nat)
    requires i < |d| && Indexes(s, d) && i < n
    requires forall k :: 0 <= k < |s| ==> s[k] < n
    ensures forall k :: 0 <= k < |InsertIndex(i, d, s)| ==> InsertIndex(i, d, s)[k] < n
    decreases |s|
  {
    if |s| != 0 && d[s[0]] <= d[i] {
      InsertIndexBelow(i, d, s[1..], n);
    }
  }

  lemma {:induction false} InsertIndexKeepsDistinct(i: nat, d: seq<real>, s: seq<nat>)
    requires i < |d| && Indexes(s, d) && Distinct(s)
    requires forall k :: 0 <= k < |s| ==> s[k] != i
    ensures Distinct(InsertIndex(i, d, s))
    decreases |s|
  {
    if |s| != 0 && d[s[0]] <= d[i] {
      InsertIndexKeepsDistinct(i, d, s[1..]);
      InsertIndexAvoids(i, d, s[1..], s[0]);
      var r := InsertIndex(i, d, s);
      assert r == [s[0]] + InsertIndex(i, d, s[1..]);
    }
  }

  /** The sorted order of the first `n` values names each of `0, ..., n - 1` once. */
  lemma ArgSortUpToDistinct(d: seq<real>, n: nat)
    requires n <= |d|
    ensures Distinct(ArgSortUpTo(d, n))
    ensures forall x :: x in ArgSortUpTo(d, n) ==> x < n
  {
    ArgSortUpToNoRepeats(d, n);
    var r := ArgSortUpTo(d, n);
    forall x | x in r ensures x < n {
      var k :| 0 <= k < |r| && r[k] == x;
    }
  }

  lemma {:induction false} ArgSortUpToNoRepeats(d: seq<real>, n: nat)
    requires n <= |d|
    ensures Distinct(ArgSortUpTo(d, n))
    ensures forall k :: 0 <= k < n ==> ArgSortUpTo(d, n)[k] < n
  {
    if n != 0 {
      var s := ArgSortUpTo(d, n - 1);
      ArgSortUpToNoRepeats(d, n - 1);
      InsertIndexKeepsDistinct(n - 1, d, s);
      InsertIndexBelow(n - 1, d, s, n);
    }
  }

  /** `np.argsort(distances)[:3]`: the indices of at most three defenders. */
  function NearestThree(d: seq<real>): (r: seq<nat>)
    ensures |r| == if |d| < 3 then |d| else 3
    ensures Indexes(r, d)
  {
    ArgSort(d)[..if |d| < 3 then |d| else 3]
  }

  /**
   * The pressing set holds the nearest defenders in ascending order of
   * distance, no defender left out is nearer than one chosen, and every
   * defender is chosen when there are at most three.
   */
  lemma NearestThreeAreNearest(d: seq<real>)
    ensures var r := NearestThree(d);
      && AscendingBy(r, d)
      && (forall a, j :: 0 <= a < |r| && 0 <= j < |d| && j !in r ==> d[r[a]] <= d[j])
      && (|d| <= 3 ==> forall j :: 0 <= j < |d| ==> j in r)
  {
    var s := ArgSort(d);
    var r := NearestThree(d);
    ArgSortUpToAscending(d, |d|);
    ArgSortHasEveryIndex(d);
    forall a, j | 0 <= a < |r| && 0 <= j < |d| && j !in r ensures d[r[a]] <= d[j] {
      assert j in s;
      var b :| 0 <= b < |s| && s[b] == j;
    }
    if |d| <= 3 {
      assert r == s;
    }
  }

  /** `max(0, 1 - d / max_distance)`: 1 at the ball, falling to 0 at `max_distance`. */
  function DistanceScore(d: real, maxDistance: real): real
    requires 0.0 < maxDistance
  {
    MaxR(0.0, 1.0 - d / maxDistance)
  }

  /** `max(0, min(1, s / intensity_threshold))` */
  function SpeedScore(s: real, threshold: real): (r: real)
    requires 0.0 < threshold
    ensures 0.0 <= r <= 1.0
  {
    MaxR(0.0, MinR(1.0, s / threshold))
  }

  function DistanceScores(ds: seq<real>, maxDistance: real): (r: seq<real>)
    requires 0.0 < maxDistance
    ensures |r| == |ds|
  {
    seq(|ds|, i requires 0 <= i < |ds| => DistanceScore(ds[i], maxDistance))
  }

  function SpeedScores(ss: seq<real>, threshold: real): (r: seq<real>)
    requires 0.0 < threshold
    ensures |r| == |ss| && forall i :: 0 <= i < |ss| ==> 0.0 <= r[i] <= 1.0
  {
    seq(|ss|, i requires 0 <= i < |ss| => SpeedScore(ss[i], threshold))
  }

  predicate Nonneg(s: seq<real>)
  {
    forall i :: 0 <= i < |s| ==> 0.0 <= s[i]
  }

  /** `_calculate_pressing_intensity`: 70% nearness and 30% closing speed, on a scale of 100. */
  function PressingIntensity(distances: seq<real>, speeds: seq<real>, maxDistance: real, threshold: real): real
    requires 0 < |distances| && 0 < |speeds| && 0.0 < maxDistance && 0.0 < threshold
  {
    100.0 * (0.7 * Mean(DistanceScores(distances, maxDistance)) + 0.3 * Mean(SpeedScores(speeds, threshold)))
  }

  /** For distances (never negative) the intensity lies in [0, 100]. */
  lemma IntensityBounds(distances: seq<real>, speeds: seq<real>, maxDistance: real, threshold: real)
    requires 0 < |distances| && 0 < |speeds| && 0.0 < maxDistance && 0.0 < threshold
    requires Nonneg(distances)
    ensures 0.0 <= PressingIntensity(distances, speeds, maxDistance, threshold) <= 100.0
  {
    var ds := DistanceScores(distances, maxDistance);
    forall i | 0 <= i < |ds| ensures 0.0 <= ds[i] <= 1.0 {
      QuotientNonneg(distances[i], maxDistance);
    }
    MeanBetween(ds, 0.0, 1.0);
    MeanBetween(SpeedScores(speeds, threshold), 0.0, 1.0);
  }

  /** Defenders on the ball and closing at least at the threshold speed press at full intensity. */
  lemma FullPress(distances: seq<real>, speeds: seq<real>, maxDistance: real, threshold: real)
    requires 0 < |distances| && 0 < |speeds| && 0.0 < maxDistance && 0.0 < threshold
    requires forall i :: 0 <= i < |distances| ==> distances[i] == 0.0
    requires forall i :: 0 <= i < |speeds| ==> threshold <= speeds[i]
    ensures PressingIntensity(distances, speeds, maxDistance, threshold) == 100.0
  {
    var ss := SpeedScores(speeds, threshold);
    forall i | 0 <= i < |ss| ensures ss[i] == 1.0 {
      QuotientTimesDivisor(speeds[i], threshold);
    }
    MeanOfConstant(DistanceScores(distances, maxDistance), 1.0);
    MeanOfConstant(ss, 1.0);
  }

  datatype PressingEvent = PressingEvent(
    timestamp: real,
    ballPosition: Point,
    pressingPlayers: seq<Point>,
    distances: seq<real>,
    closingSpeeds: seq<real>,
    reactionTime: real)

  /** The dictionary `analyze_frame` returns. */
  datatype FrameMetrics = FrameMetrics(
    averageDistance: real,
    minDistance: real,
    maxClosingSpeed: real,
    pressingIntensity: real)

  /** What `analyze_frame` does with one frame. */
  datatype FrameOutcome =
    | NoDefenders                // `cdist` raises on an empty array
    | ClosingSpeedFailed         // the closing-speed loop subtracts a timestamp from a position and raises
    | Pressed(metrics: FrameMetrics)

  /** The closing-speed loop raises as soon as a chosen index falls inside the previous frame. */
  predicate ClosingSpeedRaises(nearest: seq<nat>, previous: Option<seq<Point>>, previousTime: Option<real>)
  {
    previous.Some? && previousTime.Some? && exists i :: 0 <= i < |nearest| && nearest[i] < |previous.value|
  }

  /**
   * The closing-speed loop: speeds start at 0, and the only update the loop
   * can reach raises first; `None` stands for that error.
   */
  method ClosingSpeeds(nearest: seq<nat>, previous: Option<seq<Point>>, previousTime: Option<real>)
    returns (speeds: Option<seq<real>>)
    ensures speeds.None? <==> ClosingSpeedRaises(nearest, previous, previousTime)
    ensures speeds.Some? ==> speeds.value == seq(|nearest|, _ => 0.0)
  {
    var closing := seq(|nearest|, _ => 0.0);
    if previous.Some? && previousTime.Some? {
      for i := 0 to |nearest|
        invariant forall k :: 0 <= k < i ==> |previous.value| <= nearest[k]
      {
        if nearest[i] < |previous.value| {
          return None;
        }
      }
    }
    speeds := Some(closing);
  }

  /** The event `analyze_frame` logs when it gets through. */
  function EventOf(m: Math, reactionTime: real, timestamp: real, ball: Point, defenders: seq<Point>): (e: PressingEvent)
    requires Lawful(m)
  {
    var d := DistancesFrom(m, ball, defenders);
    var nearest := NearestThree(d);
    PressingEvent(timestamp, ball, seq(|nearest|, i requires 0 <= i < |nearest| => defenders[nearest[i]]),
                  seq(|nearest|, i requires 0 <= i < |nearest| => d[nearest[i]]),
                  seq(|nearest|, _ => 0.0), reactionTime)
  }

  /** A logged event: one to three defenders with their distances to the ball, closing speeds all 0. */
  predicate WellFormed(e: PressingEvent)
  {
    && 0 < |e.distances| <= 3
    && |e.closingSpeeds| == |e.distances| == |e.pressingPlayers|
    && Nonneg(e.distances)
    && forall i :: 0 <= i < |e.closingSpeeds| ==> e.closingSpeeds[i] == 0.0
  }

  /** The event records the nearest defenders, each at its distance to the ball. */
  lemma EventFacts(m: Math, reactionTime: real, timestamp: real, ball: Point, defenders: seq<Point>)
    requires Lawful(m) && 0 < |defenders|
    ensures var e := EventOf(m, reactionTime, timestamp, ball, defenders);
      && WellFormed(e)
      && (forall i :: 0 <= i < |e.distances| ==> e.distances[i] == Dist(m, ball, e.pressingPlayers[i]))
      && (forall i, j :: 0 <= i < j < |e.distances| ==> e.distances[i] <= e.distances[j])
  {
    var d := DistancesFrom(m, ball, defenders);
    NearestThreeAreNearest(d);
  }

  function MetricsOf(e: PressingEvent, maxDistance: real, threshold: real): FrameMetrics
    requires WellFormed(e) && 0.0 < maxDistance && 0.0 < threshold
  {
    FrameMetrics(Mean(e.distances), Min(e.distances), Max(e.closingSpeeds),
                 PressingIntensity(e.distances, e.closingSpeeds, maxDistance, threshold))
  }

  /** `get_pressing_statistics()` */
  datatype PressingStats = PressingStats(
    avgDistanceToBall: real,
    minDistanceToBall: real,
    maxClosingSpeed: real,
    avgClosingSpeed: real,
    pressingIntensity: real)

  /** Every event's distances, one event after another. */
  function AllDistances(events: seq<PressingEvent>): seq<real>
  {
    if |events| == 0 then [] else AllDistances(events[..|events| - 1]) + events[|events| - 1].distances
  }

  function AllSpeeds(events: seq<PressingEvent>): seq<real>
  {
    if |events| == 0 then [] else AllSpeeds(events[..|events| - 1]) + events[|events| - 1].closingSpeeds
  }

  function Intensities(events: seq<PressingEvent>, maxDistance: real, threshold: real): (r: seq<real>)
    requires forall k :: 0 <= k < |events| ==> WellFormed(events[k])
    requires 0.0 < maxDistance && 0.0 < threshold
    ensures |r| == |events|
  {
    seq(|events|, k requires 0 <= k < |events| =>
      assert WellFormed(events[k]);
      PressingIntensity(events[k].distances, events[k].closingSpeeds, maxDistance, threshold))
  }

  /** The pooled lists: at least one entry per event, distances never negative, speeds all 0. */
  lemma {:induction false} PooledFacts(events: seq<PressingEvent>)
    requires forall k :: 0 <= k < |events| ==> WellFormed(events[k])
    ensures |events| <= |AllDistances(events)| && |AllDistances(events)| == |AllSpeeds(events)|
    ensures Nonneg(AllDistances(events))
    ensures forall i :: 0 <= i < |AllSpeeds(events)| ==> AllSpeeds(events)[i] == 0.0
  {
    if |events| != 0 {
      var e := events[|events| - 1];
      assert WellFormed(e);
      PooledFacts(events[..|events| - 1]);
      var ds := AllDistances(events[..|events| - 1]);
      var ss := AllSpeeds(events[..|events| - 1]);
      assert forall i :: |ds| <= i < |ds| + |e.distances| ==> (ds + e.distances)[i] == e.distances[i - |ds|];
      assert forall i :: |ss| <= i < |ss| + |e.closingSpeeds| ==> (ss + e.closingSpeeds)[i] == e.closingSpeeds[i - |ss|];
    }
  }

  lemma PooledDistanceBounds(events: seq<PressingEvent>)
    requires 0 < |events| && forall k :: 0 <= k < |events| ==> WellFormed(events[k])
    ensures 0 < |AllDistances(events)|
    ensures 0.0 <= Min(AllDistances(events)) <= Mean(AllDistances(events))
  {
    PooledFacts(events);
    var ds := AllDistances(events);
    MeanWithinExtremes(ds);
  }

  lemma PooledSpeedsVanish(events: seq<PressingEvent>)
    requires 0 < |events| && forall k :: 0 <= k < |events| ==> WellFormed(events[k])
    ensures 0 < |AllSpeeds(events)|
    ensures Max(AllSpeeds(events)) == 0.0 && Mean(AllSpeeds(events)) == 0.0
  {
    PooledFacts(events);
    MeanOfConstant(AllSpeeds(events), 0.0);
  }

  lemma MeanIntensityBounded(events: seq<PressingEvent>, maxDistance: real, threshold: real)
    requires 0 < |events| && forall k :: 0 <= k < |events| ==> WellFormed(events[k])
    requires 0.0 < maxDistance && 0.0 < threshold
    ensures 0.0 <= Mean(Intensities(events, maxDistance, threshold)) <= 100.0
  {
    var scores := Intensities(events, maxDistance, threshold);
    forall k | 0 <= k < |events| ensures 0.0 <= scores[k] <= 100.0 {
      assert WellFormed(events[k]);
      IntensityBounds(events[k].distances, events[k].closingSpeeds, maxDistance, threshold);
    }
    MeanBetween(scores, 0.0, 100.0);
  }

  /**
   * `get_pressing_statistics()` over a non-empty log: the nearest approach
   * is never above the average distance, the closing speeds (all 0) give
   * 0, and the mean intensity stays in [0, 100].
   */
  function StatsOf(events: seq<PressingEvent>, maxDistance: real, threshold: real): (r: PressingStats)
    requires 0 < |events| && forall k :: 0 <= k < |events| ==> WellFormed(events[k])
    requires 0.0 < maxDistance && 0.0 < threshold
    ensures r.maxClosingSpeed == 0.0 && r.avgClosingSpeed == 0.0
    ensures 0.0 <= r.minDistanceToBall <= r.avgDistanceToBall
    ensures 0.0 <= r.pressingIntensity <= 100.0
  {
    PooledDistanceBounds(events);
    PooledSpeedsVanish(events);
    MeanIntensityBounded(events, maxDistance, threshold);
    var ds, ss := AllDistances(events), AllSpeeds(events);
    PressingStats(Mean(ds), Min(ds), Max(ss), Mean(ss), Mean(Intensities(events, maxDistance, threshold)))
  }

  class PressingAnalyzer {
    const math: Math
    const maxDistance: real
    const reactionTime: real
    const intensityThreshold: real
    var pressingEvents: seq<PressingEvent>
    var previousPositions: Option<seq<Point>>
    var previousTimestamp: Option<real>

    /** Every logged event is well formed; the previous frame is set exactly once an event is logged. */
    ghost predicate Valid()
      reads this
    {
      && Lawful(math) && 0.0 < maxDistance && 0.0 < intensityThreshold
      && (forall k :: 0 <= k < |pressingEvents| ==> WellFormed(pressingEvents[k]))
      && (previousPositions.Some? <==> 0 < |pressingEvents|)
      && (previousTimestamp.Some? <==> 0 < |pressingEvents|)
    }

    /** The pressing thresholds of the configuration file. */
    constructor(m: Math, maxDistance: real, reactionTime: real, intensityThreshold: real)
      requires Lawful(m) && 0.0 < maxDistance && 0.0 < intensityThreshold
      ensures Valid() && pressingEvents == [] && previousPositions.None? && previousTimestamp.None?
      ensures math == m && this.maxDistance == maxDistance && this.reactionTime == reactionTime
      ensures this.intensityThreshold == intensityThreshold
    {
      math := m;
      this.maxDistance, this.reactionTime, this.intensityThreshold := maxDistance, reactionTime, intensityThreshold;
      pressingEvents, previousPositions, previousTimestamp := [], None, None;
    }

    /**
     * `analyze_frame`: with defenders, and unless the closing-speed loop
     * raises, exactly one event is logged, the frame becomes the previous
     * one, and the metrics are those of the event. On either error nothing
     * changes.
     */
    method AnalyzeFrame(timestamp: real, ball: Point, defenders: seq<Point>) returns (o: FrameOutcome)
      requires Valid()
      modifies this
      ensures Valid()
      ensures |defenders| == 0 ==> o == NoDefenders && unchanged(this)
      ensures 0 < |defenders| && ClosingSpeedRaises(NearestThree(DistancesFrom(math, ball, defenders)),
                                                      old(previousPositions), old(previousTimestamp)) ==>
        o == ClosingSpeedFailed && unchanged(this)
      ensures 0 < |defenders| && !ClosingSpeedRaises(NearestThree(DistancesFrom(math, ball, defenders)),
                                                       old(previousPositions), old(previousTimestamp)) ==>
        o.Pressed?
      ensures o.Pressed? ==>
        && pressingEvents == old(pressingEvents) + [EventOf(math, reactionTime, timestamp, ball, defenders)]
        && previousPositions == Some(defenders) && previousTimestamp == Some(timestamp)
        && o.metrics == MetricsOf(pressingEvents[|pressingEvents| - 1], maxDistance, intensityThreshold)
      ensures o.Pressed? || unchanged(this)
    {
      if |defenders| == 0 {
        return NoDefenders;
      }
      var distances := DistancesFrom(math, ball, defenders);
      var nearest := NearestThree(distances);
      var closing := ClosingSpeeds(nearest, previousPositions, previousTimestamp);
      if closing.None? {
        return ClosingSpeedFailed;
      }
      var event := EventOf(math, reactionTime, timestamp, ball, defenders);
      EventFacts(math, reactionTime, timestamp, ball, defenders);
      Log(event, defenders, timestamp);
      o := Pressed(MetricsOf(event, maxDistance, intensityThreshold));
    }

    /** Appends a well-formed event and makes its frame the previous one. */
    method Log(event: PressingEvent, positions: seq<Point>, timestamp: real)
      requires Valid() && WellFormed(event)
      modifies this
      ensures Valid() && pressingEvents == old(pressingEvents) + [event]
      ensures previousPositions == Some(positions) && previousTimestamp == Some(timestamp)
    {
      previousPositions := Some(positions);
      previousTimestamp := Some(timestamp);
      pressingEvents := pressingEvents + [event];
    }

    /** `get_pressing_statistics()`: nothing without events. */
    function GetPressingStatistics(): (r: Option<PressingStats>)
      requires Valid()
      reads this
      ensures r.None? <==> |pressingEvents| == 0
      ensures r.Some? ==> r.value == StatsOf(pressingEvents, maxDistance, intensityThreshold)
    {
      if |pressingEvents| == 0 then None else Some(StatsOf(pressingEvents, maxDistance, intensityThreshold))
    }
  }
}
