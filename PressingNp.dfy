/**
 * The vectorised pressing analyzer of `Soccer_Analytics/core/pressing_analyzer_np.py`:
 * `np.argpartition` picks the three defenders nearest the ball, closing
 * speeds compare their distances with the previous frame, and the
 * intensity is clipped into [0, 100].
 */
module PressingNp {
  import opened Numerics
  import Pressing

  /**
   * `np.argpartition(distances, 3)[:3]`. numpy leaves the order of the
   * chosen indices open, so it is a parameter bound by `PartitionLaw`.
   */
  type Partition = seq<real> -> seq<nat>

  /** `chosen` is three different defenders, none of them farther than a defender left out. */
  predicate ThreeSmallest(d: seq<real>, chosen: seq<nat>)
  {
    && |chosen| == 3
    && Pressing.Indexes(chosen, d)
    && Pressing.Distinct(chosen)
    && forall a, j :: 0 <= a < 3 && 0 <= j < |d| && j !in chosen ==> d[chosen[a]] <= d[j]
  }

  /** Whenever `kth = 3` is a valid position (four or more values) the partition picks the three smallest. */
  ghost predicate PartitionLaw(part: Partition)
  {
    forall d :: 4 <= |d| ==> ThreeSmallest(d, part(d))
  }

  /** The first three indices of a full sort are a valid partition, so the law can be met. */
  lemma SortingIsAPartition()
    ensures PartitionLaw(d => Pressing.NearestThree(d))
  {
    forall d: seq<real> | 4 <= |d| ensures ThreeSmallest(d, Pressing.NearestThree(d)) {
      Pressing.NearestThreeAreNearest(d);
      Pressing.ArgSortUpToDistinct(d, |d|);
    }
  }

  /** `np.clip(1 - distances / max_distance, 0, 1)` for one defender. */
  function DistanceScore(d: real, maxDistance: real): real
    requires 0.0 < maxDistance
  {
    Clamp(1.0 - d / maxDistance, 0.0, 1.0)
  }

  /** `np.clip(closing_speeds / intensity_threshold, 0, 1)` for one defender. */
  function SpeedScore(s: real, threshold: real): real
    requires 0.0 < threshold
  {
    Clamp(s / threshold, 0.0, 1.0)
  }

  function DistanceScores(ds: seq<real>, maxDistance: real): (r: seq<real>)
    requires 0.0 < maxDistance
    ensures |r| == |ds| && forall i :: 0 <= i < |ds| ==> 0.0 <= r[i] <= 1.0
  {
    seq(|ds|, i requires 0 <= i < |ds| => DistanceScore(ds[i], maxDistance))
  }

  function SpeedScores(ss: seq<real>, threshold: real): (r: seq<real>)
    requires 0.0 < threshold
    ensures |r| == |ss| && forall i :: 0 <= i < |ss| ==> 0.0 <= r[i] <= 1.0
  {
    seq(|ss|, i requires 0 <= i < |ss| => SpeedScore(ss[i], threshold))
  }

  /** `_calculate_pressing_intensity`: the clipped scores weighted 70/30, on a scale of 100. */
  function PressingIntensity(distances: seq<real>, speeds: seq<real>, maxDistance: real, threshold: real): real
    requires 0 < |distances| && 0 < |speeds| && 0.0 < maxDistance && 0.0 < threshold
  {
    100.0 * (0.7 * Mean(DistanceScores(distances, maxDistance)) + 0.3 * Mean(SpeedScores(speeds, threshold)))
  }

  /** Clipping keeps the intensity in [0, 100] whatever the distances and speeds. */
  lemma IntensityBounds(distances: seq<real>, speeds: seq<real>, maxDistance: real, threshold: real)
    requires 0 < |distances| && 0 < |speeds| && 0.0 < maxDistance && 0.0 < threshold
    ensures 0.0 <= PressingIntensity(distances, speeds, maxDistance, threshold) <= 100.0
  {
    MeanBetween(DistanceScores(distances, maxDistance), 0.0, 1.0);
    MeanBetween(SpeedScores(speeds, threshold), 0.0, 1.0);
  }

  /** On distances (never negative) the clipped intensity is the list-based analyzer's. */
  lemma AgreesWithListAnalyzer(distances: seq<real>, speeds: seq<real>, maxDistance: real, threshold: real)
    requires 0 < |distances| && 0 < |speeds| && 0.0 < maxDistance && 0.0 < threshold
    requires Pressing.Nonneg(distances)
    ensures PressingIntensity(distances, speeds, maxDistance, threshold)
         == Pressing.PressingIntensity(distances, speeds, maxDistance, threshold)
  {
    var a, b := DistanceScores(distances, maxDistance), Pressing.DistanceScores(distances, maxDistance);
    forall i | 0 <= i < |distances| ensures a[i] == b[i] {
      QuotientNonneg(distances[i], maxDistance);
    }
    assert a == b;
    assert SpeedScores(speeds, threshold) == Pressing.SpeedScores(speeds, threshold);
  }

  /** What happens to the closing speeds of one frame. */
  datatype SpeedOutcome =
    | OutOfRange                // `prev_pos_array[nearest_three]` raises an IndexError
    | ZeroInterval              // the two frames share a timestamp: numpy divides by zero
    | Speeds(values: seq<real>)

  /** Some chosen index is past the end of the previous frame. */
  predicate MissingIndex(nearest: seq<nat>, previous: seq<Point>)
  {
    exists k :: 0 <= k < |nearest| && |previous| <= nearest[k]
  }

  /**
   * Lines 75-86: zeros without history or with an empty previous frame;
   * otherwise the previous distance (same indices, current ball) minus the
   * current one, over the time between the frames.
   */
  function ClosingSpeeds(m: Math, ball: Point, nearest: seq<nat>, distances: seq<real>,
                         previous: Option<seq<Point>>, previousTime: Option<real>, timestamp: real): (r: SpeedOutcome)
    requires Lawful(m) && |distances| == |nearest|
    ensures r.Speeds? ==> |r.values| == |nearest|
    ensures (previous.None? || previousTime.None?) ==> r == Speeds(seq(|nearest|, _ => 0.0))
  {
    if previous.None? || previousTime.None? || |previous.value| == 0 then
      Speeds(seq(|nearest|, _ => 0.0))
    else if MissingIndex(nearest, previous.value) then
      OutOfRange
    else if timestamp - previousTime.value == 0.0 then
      ZeroInterval
    else
      var prev, dt := previous.value, timestamp - previousTime.value;
      Speeds(seq(|nearest|, k requires 0 <= k < |nearest| => (Dist(m, ball, prev[nearest[k]]) - distances[k]) / dt))
  }

  /**
   * With history, in-range indices and time moving forward, a defender's
   * closing speed is positive exactly when they are now nearer the ball
   * than they were, and 0 exactly when the distance did not change.
   */
  lemma ClosingSpeedSign(m: Math, ball: Point, nearest: seq<nat>, distances: seq<real>,
                         previous: seq<Point>, previousTime: real, timestamp: real, k: nat)
    requires Lawful(m) && |distances| == |nearest| && k < |nearest|
    requires 0 < |previous| && forall i :: 0 <= i < |nearest| ==> nearest[i] < |previous|
    requires previousTime < timestamp
    ensures var r := ClosingSpeeds(m, ball, nearest, distances, Some(previous), Some(previousTime), timestamp);
      && r.Speeds?
      && (0.0 < r.values[k] <==> distances[k] < Dist(m, ball, previous[nearest[k]]))
      && (r.values[k] == 0.0 <==> distances[k] == Dist(m, ball, previous[nearest[k]]))
  {
    var dt := timestamp - previousTime;
    var gain := Dist(m, ball, previous[nearest[k]]) - distances[k];
    QuotientTimesDivisor(gain, dt);
    if 0.0 < gain {
      ProductPositive(gain, 1.0 / dt, gain / dt);
    } else if gain < 0.0 {
      ProductPositive(-gain, 1.0 / dt, -gain / dt);
    }
  }

  /** A defender index beyond the previous frame is an IndexError. */
  lemma OutOfRangeIsIndexError(m: Math, ball: Point, nearest: seq<nat>, distances: seq<real>,
                               previous: seq<Point>, previousTime: Option<real>, timestamp: real)
    requires Lawful(m) && |distances| == |nearest| && previousTime.Some? && 0 < |previous|
    ensures ClosingSpeeds(m, ball, nearest, distances, Some(previous), previousTime, timestamp) == OutOfRange
        <==> MissingIndex(nearest, previous)
  {
  }

  /** `distances[nearest_three]`: the chosen defenders' distances to the ball. */
  function ChosenDistances(m: Math, ball: Point, defenders: seq<Point>, chosen: seq<nat>): (r: seq<real>)
    requires Lawful(m) && forall a :: 0 <= a < |chosen| ==> chosen[a] < |defenders|
    ensures |r| == |chosen| && forall a :: 0 <= a < |chosen| ==> r[a] == Dist(m, ball, defenders[chosen[a]])
  {
    seq(|chosen|, a requires 0 <= a < |chosen| => Dist(m, ball, defenders[chosen[a]]))
  }

  /** The event logged for a frame, from the chosen three and their speeds. */
  function EventOf(m: Math, reactionTime: real, timestamp: real, ball: Point, defenders: seq<Point>,
                   chosen: seq<nat>, speeds: seq<real>): (e: Pressing.PressingEvent)
    requires Lawful(m) && forall a :: 0 <= a < |chosen| ==> chosen[a] < |defenders|
    ensures e.timestamp == timestamp && e.ballPosition == ball && e.closingSpeeds == speeds
    ensures e.distances == ChosenDistances(m, ball, defenders, chosen)
  {
    Pressing.PressingEvent(timestamp, ball,
      seq(|chosen|, a requires 0 <= a < |chosen| => defenders[chosen[a]]),
      ChosenDistances(m, ball, defenders, chosen), speeds, reactionTime)
  }

  /** A logged event: three defenders, their distances (never negative) and three speeds. */
  predicate WellFormed(e: Pressing.PressingEvent)
  {
    && |e.distances| == 3 && |e.closingSpeeds| == 3 && |e.pressingPlayers| == 3
    && Pressing.Nonneg(e.distances)
  }

  /**
   * The event records three defenders at their distance from the ball, and
   * no defender left out is nearer than any of them.
   */
  lemma EventFacts(m: Math, reactionTime: real, timestamp: real, ball: Point, defenders: seq<Point>,
                   chosen: seq<nat>, speeds: seq<real>)
    requires Lawful(m) && ThreeSmallest(DistancesFrom(m, ball, defenders), chosen) && |speeds| == 3
    ensures var e := EventOf(m, reactionTime, timestamp, ball, defenders, chosen, speeds);
      && WellFormed(e)
      && (forall a :: 0 <= a < 3 ==> e.distances[a] == Dist(m, ball, e.pressingPlayers[a]))
      && (forall a, j :: 0 <= a < 3 && 0 <= j < |defenders| && j !in chosen ==>
            e.distances[a] <= Dist(m, ball, defenders[j]))
  {
  }

  /** The dictionary `analyze_frame` returns for a logged event. */
  function MetricsOf(e: Pressing.PressingEvent, maxDistance: real, threshold: real): (r: Pressing.FrameMetrics)
    requires WellFormed(e) && 0.0 < maxDistance && 0.0 < threshold
    ensures 0.0 <= r.minDistance <= r.averageDistance
    ensures 0.0 <= r.pressingIntensity <= 100.0
  {
    MeanWithinExtremes(e.distances);
    IntensityBounds(e.distances, e.closingSpeeds, maxDistance, threshold);
    Pressing.FrameMetrics(Mean(e.distances), Min(e.distances), Max(e.closingSpeeds),
                          PressingIntensity(e.distances, e.closingSpeeds, maxDistance, threshold))
  }

  /** Lines 68-86 end to end: the distances, the chosen three, and their closing speeds. */
  function FrameSpeeds(m: Math, part: Partition, timestamp: real, ball: Point, defenders: seq<Point>,
                       previous: Option<seq<Point>>, previousTime: Option<real>): (r: SpeedOutcome)
    requires Lawful(m) && PartitionLaw(part) && 4 <= |defenders|
    ensures r.Speeds? ==> |r.values| == 3
  {
    var d := DistancesFrom(m, ball, defenders);
    var chosen := part(d);
    assert ThreeSmallest(d, chosen);
    ClosingSpeeds(m, ball, chosen, ChosenDistances(m, ball, defenders, chosen), previous, previousTime, timestamp)
  }

  /** What `analyze_frame` does with one frame. */
  datatype FrameOutcome =
    | TooFewDefenders            // `argpartition` with kth = 3 raises a ValueError below four defenders
    | IndexOutOfRange            // a chosen index is not in the previous frame
    | SameInstant                // zero time between frames: the speeds are not finite
    | Pressed(metrics: Pressing.FrameMetrics)

  /** The per-event intensities `get_pressing_statistics` averages. */
  function Intensities(events: seq<Pressing.PressingEvent>, maxDistance: real, threshold: real): (r: seq<real>)
    requires forall k :: 0 <= k < |events| ==> WellFormed(events[k])
    requires 0.0 < maxDistance && 0.0 < threshold
    ensures |r| == |events|
  {
    seq(|events|, k requires 0 <= k < |events| =>
      assert WellFormed(events[k]);
      PressingIntensity(events[k].distances, events[k].closingSpeeds, maxDistance, threshold))
  }

  /** `np.concatenate` of the logs: three entries per event, distances never negative. */
  lemma {:induction false} PooledFacts(events: seq<Pressing.PressingEvent>)
    requires forall k :: 0 <= k < |events| ==> WellFormed(events[k])
    ensures |Pressing.AllDistances(events)| == 3 * |events| == |Pressing.AllSpeeds(events)|
    ensures Pressing.Nonneg(Pressing.AllDistances(events))
  {
    if |events| != 0 {
      var e := events[|events| - 1];
      assert WellFormed(e);
      PooledFacts(events[..|events| - 1]);
      var ds := Pressing.AllDistances(events[..|events| - 1]);
      assert forall i :: |ds| <= i < |ds| + 3 ==> (ds + e.distances)[i] == e.distances[i - |ds|];
    }
  }

  lemma MeanIntensityBounded(events: seq<Pressing.PressingEvent>, maxDistance: real, threshold: real)
    requires 0 < |events| && forall k :: 0 <= k < |events| ==> WellFormed(events[k])
    requires 0.0 < maxDistance && 0.0 < threshold
    ensures 0.0 <= Mean(Intensities(events, maxDistance, threshold)) <= 100.0
  {
    var scores := Intensities(events, maxDistance, threshold);
    forall k | 0 <= k < |events| ensures 0.0 <= scores[k] <= 100.0 {
      assert WellFormed(events[k]);
      IntensityBounds(events[k].distances, events[k].closingSpeeds, maxDistance, threshold);
    }
    MeanBetween(scores, 0.0, 100.0);
  }

  lemma AppendKeepsWellFormed(events: seq<Pressing.PressingEvent>, e: Pressing.PressingEvent)
    requires forall k :: 0 <= k < |events| ==> WellFormed(events[k])
    requires WellFormed(e)
    ensures forall k :: 0 <= k < |events + [e]| ==> WellFormed((events + [e])[k])
    ensures (events + [e])[|events|] == e
  {
  }

  /**
   * `get_pressing_statistics()` over a non-empty log: the nearest approach
   * is never negative nor above the average, the average closing speed is
   * never above the maximum, and the mean intensity stays in [0, 100].
   */
  function StatsOf(events: seq<Pressing.PressingEvent>, maxDistance: real, threshold: real): (r: Pressing.PressingStats)
    requires 0 < |events| && forall k :: 0 <= k < |events| ==> WellFormed(events[k])
    requires 0.0 < maxDistance && 0.0 < threshold
    ensures 0.0 <= r.minDistanceToBall <= r.avgDistanceToBall
    ensures r.avgClosingSpeed <= r.maxClosingSpeed
    ensures 0.0 <= r.pressingIntensity <= 100.0
  {
    PooledFacts(events);
    var ds, ss := Pressing.AllDistances(events), Pressing.AllSpeeds(events);
    var scores := Intensities(events, maxDistance, threshold);
    MeanWithinExtremes(ds);
    MeanWithinExtremes(ss);
    MeanIntensityBounded(events, maxDistance, threshold);
    Pressing.PressingStats(Mean(ds), Min(ds), Max(ss), Mean(ss), Mean(scores))
  }

  class PressingAnalyzer {
    const math: Math
    const partition: Partition
    const maxDistance: real
    const reactionTime: real
    const intensityThreshold: real
    var pressingEvents: seq<Pressing.PressingEvent>
    var previousPositions: Option<seq<Point>>
    var previousTimestamp: Option<real>

    /** The numeric laws and positive thresholds; they hold for the analyzer's lifetime. */
    ghost predicate Configured()
    {
      Lawful(math) && PartitionLaw(partition) && 0.0 < maxDistance && 0.0 < intensityThreshold
    }

    /**
     * Every logged event is well formed; the previous frame is set exactly
     * once an event is logged, and then holds at least four defenders.
     */
    ghost predicate Valid()
      reads this
    {
      && Configured()
      && (forall k :: 0 <= k < |pressingEvents| ==> WellFormed(pressingEvents[k]))
      && (previousPositions.Some? <==> 0 < |pressingEvents|)
      && (previousTimestamp.Some? <==> 0 < |pressingEvents|)
      && (previousPositions.Some? ==> 4 <= |previousPositions.value|)
    }

    /** The pressing thresholds of the configuration file. */
    constructor(m: Math, partition: Partition, maxDistance: real, reactionTime: real, intensityThreshold: real)
      requires Lawful(m) && PartitionLaw(partition) && 0.0 < maxDistance && 0.0 < intensityThreshold
      ensures Valid() && pressingEvents == [] && previousPositions.None? && previousTimestamp.None?
      ensures math == m && this.partition == partition && this.maxDistance == maxDistance
      ensures this.reactionTime == reactionTime && this.intensityThreshold == intensityThreshold
    {
      math, this.partition := m, partition;
      this.maxDistance, this.reactionTime, this.intensityThreshold := maxDistance, reactionTime, intensityThreshold;
      pressingEvents, previousPositions, previousTimestamp := [], None, None;
    }

    /**
     * `analyze_frame`: below four defenders, on an index missing from the
     * previous frame, or with no time between frames nothing changes;
     * otherwise exactly one event is logged, the frame becomes the previous
     * one and the metrics are those of the event.
     */
    method AnalyzeFrame(timestamp: real, ball: Point, defenders: seq<Point>) returns (o: FrameOutcome)
      requires Valid()
      modifies this
      ensures Valid()
      ensures |defenders| < 4 <==> o == TooFewDefenders
      ensures 4 <= |defenders| ==>
        var speeds := FrameSpeeds(math, partition, timestamp, ball, defenders, old(previousPositions), old(previousTimestamp));
        && (speeds.Speeds? <==> o.Pressed?)
        && (speeds.OutOfRange? <==> o == IndexOutOfRange)
        && (speeds.ZeroInterval? <==> o == SameInstant)
      ensures o.Pressed? ==>
        && 4 <= |defenders|
        && var speeds := FrameSpeeds(math, partition, timestamp, ball, defenders, old(previousPositions), old(previousTimestamp));
        && speeds.Speeds?
        && pressingEvents == old(pressingEvents) + [EventOf(math, reactionTime, timestamp, ball, defenders,
                                                            partition(DistancesFrom(math, ball, defenders)), speeds.values)]
        && previousPositions == Some(defenders) && previousTimestamp == Some(timestamp)
        && o.metrics == MetricsOf(pressingEvents[|pressingEvents| - 1], maxDistance, intensityThreshold)
      ensures o.Pressed? || unchanged(this)
    {
      if |defenders| < 4 {
        return TooFewDefenders;
      }
      var speeds := FrameSpeeds(math, partition, timestamp, ball, defenders, previousPositions, previousTimestamp);
      if speeds.OutOfRange? {
        return IndexOutOfRange;
      } else if speeds.ZeroInterval? {
        return SameInstant;
      }
      var event, metrics := Event(timestamp, ball, defenders, speeds.values);
      Record(timestamp, defenders, event);
      o := Pressed(metrics);
    }

    /** Lines 89-101: the frame becomes the previous one and its event is logged. */
    method Record(timestamp: real, defenders: seq<Point>, event: Pressing.PressingEvent)
      requires Valid() && 4 <= |defenders| && WellFormed(event)
      modifies this
      ensures Valid()
      ensures pressingEvents == old(pressingEvents) + [event]
      ensures previousPositions == Some(defenders) && previousTimestamp == Some(timestamp)
    {
      previousPositions := Some(defenders);
      previousTimestamp := Some(timestamp);
      AppendKeepsWellFormed(pressingEvents, event);
      pressingEvents := pressingEvents + [event];
    }

    /** The event of a frame whose speeds are known. */
    method Event(timestamp: real, ball: Point, defenders: seq<Point>, speeds: seq<real>)
      returns (e: Pressing.PressingEvent, metrics: Pressing.FrameMetrics)
      requires Configured() && 4 <= |defenders| && |speeds| == 3
      ensures WellFormed(e) && metrics == MetricsOf(e, maxDistance, intensityThreshold)
      ensures e == EventOf(math, reactionTime, timestamp, ball, defenders, partition(DistancesFrom(math, ball, defenders)), speeds)
    {
      var chosen := partition(DistancesFrom(math, ball, defenders));
      assert ThreeSmallest(DistancesFrom(math, ball, defenders), chosen);
      e := EventOf(math, reactionTime, timestamp, ball, defenders, chosen, speeds);
      EventFacts(math, reactionTime, timestamp, ball, defenders, chosen, speeds);
      metrics := MetricsOf(e, maxDistance, intensityThreshold);
    }

    /** `get_pressing_statistics()`: `{}` without events. */
    function GetPressingStatistics(): (r: Option<Pressing.PressingStats>)
      requires Valid()
      reads this
      ensures r.None? <==> |pressingEvents| == 0
      ensures r.Some? ==> r.value == StatsOf(pressingEvents, maxDistance, intensityThreshold)
    {
      if |pressingEvents| == 0 then None else Some(StatsOf(pressingEvents, maxDistance, intensityThreshold))
    }
  }
}
