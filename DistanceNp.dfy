/**
 * The vectorised distance analyzer of
 * `Soccer_Analytics/core/distance_analyzer_np.py`. It keeps the same segment
 * log and running totals as the loop version, but picks the category with
 * `np.searchsorted` over the ascending thresholds, which puts a speed equal
 * to a threshold in the slower category.
 */
module DistanceNp {
  import opened Numerics
  import opened Distance
  import opened Calculations

  /** `np.searchsorted(a, v)` with side `'left'`: the first index whose entry is at least `v`, else `|a|`. */
  function SearchSortedLeft(a: seq<real>, v: real): (i: nat)
    ensures i <= |a|
    ensures forall k :: 0 <= k < i ==> a[k] < v
    ensures i < |a| ==> v <= a[i]
  {
    if |a| == 0 then 0
    else if v <= a[0] then 0
    else 1 + SearchSortedLeft(a[1..], v)
  }

  predicate Sorted(a: seq<real>)
  {
    forall i, j :: 0 <= i < j < |a| ==> a[i] <= a[j]
  }

  /** The number of entries strictly below `v`. */
  function CountBelow(a: seq<real>, v: real): nat
  {
    if |a| == 0 then 0 else (if a[0] < v then 1 else 0) + CountBelow(a[1..], v)
  }

  /** On a sorted array the insertion point is the number of entries strictly below the value. */
  lemma {:induction false} SearchSortedCountsBelow(a: seq<real>, v: real)
    requires Sorted(a)
    ensures SearchSortedLeft(a, v) == CountBelow(a, v)
    decreases |a|
  {
    if |a| != 0 {
      if v <= a[0] {
        NoneBelow(a, v);
      } else {
        SearchSortedCountsBelow(a[1..], v);
      }
    }
  }

  lemma {:induction false} NoneBelow(a: seq<real>, v: real)
    requires forall k :: 0 <= k < |a| ==> v <= a[k]
    ensures CountBelow(a, v) == 0
    decreases |a|
  {
    if |a| != 0 {
      NoneBelow(a[1..], v);
    }
  }

  /** `threshold_values`, ascending from jogging to sprint. */
  function ThresholdValues(th: Thresholds): seq<real>
  {
    [th.jogging, th.highIntensity, th.sprint]
  }

  /** `categories`, indexed by the insertion point. */
  function CategoryAt(i: nat): Category
    requires i <= 3
  {
    if i == 0 then Walking else if i == 1 then Jogging else if i == 2 then HighIntensity else Sprint
  }

  /** `categorize_movement`: the insertion point always indexes one of the four categories. */
  function CategorizeNp(th: Thresholds, v: real): (c: Category)
  {
    CategoryAt(SearchSortedLeft(ThresholdValues(th), v))
  }

  /** How many thresholds a speed strictly exceeds. */
  function Passed(th: Thresholds, v: real): nat
  {
    (if th.jogging < v then 1 else 0) + (if th.highIntensity < v then 1 else 0) + (if th.sprint < v then 1 else 0)
  }

  /**
   * With ascending thresholds the category's rank is the number of thresholds
   * the speed strictly exceeds: a speed equal to a threshold stays below it.
   */
  lemma CategorizeNpCountsPassedThresholds(th: Thresholds, v: real)
    requires Ascending(th)
    ensures Rank(CategorizeNp(th, v)) == Passed(th, v)
  {
    var a := ThresholdValues(th);
    SearchSortedCountsBelow(a, v);
    assert a[1..][1..][1..] == [];
    assert CountBelow(a[1..][1..], v) == if th.sprint < v then 1 else 0;
    assert CountBelow(a[1..], v) == (if th.highIntensity < v then 1 else 0) + CountBelow(a[1..][1..], v);
  }

  /** Away from the thresholds the two versions agree. */
  lemma CategorizersAgreeOffThresholds(th: Thresholds, v: real)
    requires Ascending(th) && v != th.jogging && v != th.highIntensity && v != th.sprint
    ensures CategorizeNp(th, v) == Categorize(th, v)
  {
    CategorizeNpCountsPassedThresholds(th, v);
    CategorizeCountsReachedThresholds(th, v);
  }

  /** On a threshold they differ: a speed equal to the jogging threshold is jogging in one and walking in the other. */
  lemma CategorizersDifferAtThreshold(th: Thresholds)
    requires th.jogging < th.highIntensity <= th.sprint
    ensures Categorize(th, th.jogging) == Jogging
    ensures CategorizeNp(th, th.jogging) == Walking
  {
    CategorizeNpCountsPassedThresholds(th, th.jogging);
  }

  class DistanceAnalyzerNp {
    const math: Math
    const thresholds: Thresholds
    var segments: seq<Segment>
    var totalDistance: real
    var distancesByCategory: PerCategory

    ghost predicate Valid()
      reads this
    {
      Lawful(math) && Ascending(thresholds) && Tallied()
    }

    /** The running totals agree with the segment log. */
    ghost predicate Tallied()
      reads this
    {
      Consistent(segments, totalDistance, distancesByCategory)
    }

    /** `np.searchsorted` needs the thresholds in ascending order. */
    constructor(m: Math, th: Thresholds)
      requires Lawful(m) && Ascending(th)
      ensures Valid() && math == m && thresholds == th
      ensures segments == [] && totalDistance == 0.0 && distancesByCategory == NoDistance
    {
      math, thresholds := m, th;
      segments, totalDistance, distancesByCategory := [], 0.0, NoDistance;
    }

    /**
     * `process_position`: without a previous reading nothing changes;
     * otherwise one segment is logged and the total and exactly one
     * category grow by its distance.
     */
    method ProcessPosition(timestamp: real, position: Point, lastTimestamp: Option<real>, lastPosition: Option<Point>)
      returns (r: Option<Movement>)
      requires Valid()
      requires lastTimestamp.Some? && lastPosition.Some? ==> timestamp != lastTimestamp.value
      modifies this
      ensures Valid()
      ensures lastTimestamp.None? || lastPosition.None? ==>
        r.None? && segments == old(segments) && totalDistance == old(totalDistance)
        && distancesByCategory == old(distancesByCategory)
      ensures lastTimestamp.Some? && lastPosition.Some? ==>
        var d := Dist(math, lastPosition.value, position);
        var v := Velocity(math, lastPosition.value, position, timestamp - lastTimestamp.value);
        var c := CategorizeNp(thresholds, v);
        && r == Some(Movement(d, v, c))
        && segments == old(segments) + [Segment(lastTimestamp.value, timestamp, lastPosition.value, position, d, v, c)]
        && totalDistance == old(totalDistance) + d
        && distancesByCategory == old(distancesByCategory).Raise(c, d)
    {
      if lastTimestamp.None? || lastPosition.None? {
        return None;
      }
      var d := Dist(math, lastPosition.value, position);
      var v := Velocity(math, lastPosition.value, position, timestamp - lastTimestamp.value);
      var c := CategorizeNp(thresholds, v);
      Log(Segment(lastTimestamp.value, timestamp, lastPosition.value, position, d, v, c));
      r := Some(Movement(d, v, c));
    }

    /** Appends a segment and adds its distance to the total and to its category. */
    method Log(s: Segment)
      requires Tallied()
      modifies this
      ensures Tallied()
      ensures segments == old(segments) + [s] && totalDistance == old(totalDistance) + s.distance
      ensures distancesByCategory == old(distancesByCategory).Raise(s.category, s.distance)
    {
      AppendSegment(segments, s);
      segments := segments + [s];
      totalDistance := totalDistance + s.distance;
      distancesByCategory := distancesByCategory.Raise(s.category, s.distance);
    }

    /** `get_distance_stats()` */
    function GetDistanceStats(): (r: Option<DistanceStats>)
      requires Valid()
      reads this
      ensures r.None? <==> |segments| == 0
      ensures r.Some? ==> r.value.totalDistance == totalDistance && r.value.distancesByCategory == distancesByCategory
    {
      DistanceStatsOf(segments)
    }
  }
}
