/**
 * The distance analyzer of `Soccer_Analytics/core/distance_analyzer.py`:
 * consecutive position readings become movement segments, each put in a
 * speed category, and running totals of the distance covered are kept per
 * category. Times are in seconds, positions in metres, speeds in km/h.
 */
module Distance {
  import opened Numerics
  import opened Calculations

  datatype Category = Sprint | HighIntensity | Jogging | Walking

  /** `sprint_threshold`, `high_intensity_threshold` and `jogging_threshold`, in km/h. */
  datatype Thresholds = Thresholds(sprint: real, highIntensity: real, jogging: real)

  /** The configuration the categories are meant for: faster categories need higher speeds. */
  predicate Ascending(th: Thresholds)
  {
    th.jogging <= th.highIntensity <= th.sprint
  }

  /** Faster categories rank higher. */
  function Rank(c: Category): nat
  {
    match c
    case Walking => 0
    case Jogging => 1
    case HighIntensity => 2
    case Sprint => 3
  }

  /** `categorize_movement`: the first threshold reached, compared from the fastest down. */
  function Categorize(th: Thresholds, v: real): Category
  {
    if v >= th.sprint then Sprint
    else if v >= th.highIntensity then HighIntensity
    else if v >= th.jogging then Jogging
    else Walking
  }

  /** How many thresholds a speed reaches (a speed equal to a threshold reaches it). */
  function Reached(th: Thresholds, v: real): nat
  {
    (if th.jogging <= v then 1 else 0) + (if th.highIntensity <= v then 1 else 0) + (if th.sprint <= v then 1 else 0)
  }

  /**
   * With ascending thresholds the category is the one whose rank is the
   * number of thresholds reached: a speed equal to a threshold takes the
   * faster category.
   */
  lemma CategorizeCountsReachedThresholds(th: Thresholds, v: real)
    requires Ascending(th)
    ensures Rank(Categorize(th, v)) == Reached(th, v)
  {
  }

  /** With ascending thresholds, a faster speed never gets a slower category. */
  lemma CategorizeMonotone(th: Thresholds, v: real, w: real)
    requires Ascending(th) && v <= w
    ensures Rank(Categorize(th, v)) <= Rank(Categorize(th, w))
  {
    CategorizeCountsReachedThresholds(th, v);
    CategorizeCountsReachedThresholds(th, w);
  }

  /** The distance per category, `distances_by_category`, one field per dictionary key. */
  datatype PerCategory = PerCategory(sprint: real, highIntensity: real, jogging: real, walking: real)
  {
    function Get(c: Category): real
    {
      match c
      case Sprint => sprint
      case HighIntensity => highIntensity
      case Jogging => jogging
      case Walking => walking
    }

    /** `self.distances_by_category[c] += d` */
    function Raise(c: Category, d: real): (r: PerCategory)
      ensures r.Get(c) == Get(c) + d
      ensures forall c' :: c' != c ==> r.Get(c') == Get(c')
      ensures r.Total() == Total() + d
    {
      match c
      case Sprint => this.(sprint := sprint + d)
      case HighIntensity => this.(highIntensity := highIntensity + d)
      case Jogging => this.(jogging := jogging + d)
      case Walking => this.(walking := walking + d)
    }

    function Total(): real
    {
      sprint + highIntensity + jogging + walking
    }
  }

  const NoDistance := PerCategory(0.0, 0.0, 0.0, 0.0)

  /** `MovementSegment` */
  datatype Segment = Segment(
    startTime: real, endTime: real,
    startPos: Point, endPos: Point,
    distance: real, velocity: real,
    category: Category)

  /** The result of `process_position`: distance, velocity and category. */
  datatype Movement = Movement(distance: real, velocity: real, category: Category)

  /** The distance of all the segments. */
  function SegmentsDistance(segs: seq<Segment>): real
  {
    if |segs| == 0 then 0.0 else SegmentsDistance(segs[..|segs| - 1]) + segs[|segs| - 1].distance
  }

  /** The distance of the segments of one category: `sum(s.distance for s in segments if s.category == c)`. */
  function CategoryDistance(segs: seq<Segment>, c: Category): real
  {
    if |segs| == 0 then 0.0
    else CategoryDistance(segs[..|segs| - 1], c) + (if segs[|segs| - 1].category == c then segs[|segs| - 1].distance else 0.0)
  }

  /** The dictionary comprehension over the four categories. */
  function DistancesByCategory(segs: seq<Segment>): PerCategory
  {
    PerCategory(CategoryDistance(segs, Sprint), CategoryDistance(segs, HighIntensity),
                CategoryDistance(segs, Jogging), CategoryDistance(segs, Walking))
  }

  /** Every segment lies in exactly one category, so the categories' distances add up to the whole. */
  lemma {:induction false} CategoriesPartitionDistance(segs: seq<Segment>)
    ensures DistancesByCategory(segs).Total() == SegmentsDistance(segs)
    decreases |segs|
  {
    if |segs| != 0 {
      CategoriesPartitionDistance(segs[..|segs| - 1]);
    }
  }

  /** Appending a segment raises its own category's distance by its distance. */
  lemma AppendSegment(segs: seq<Segment>, s: Segment)
    ensures DistancesByCategory(segs + [s]) == DistancesByCategory(segs).Raise(s.category, s.distance)
    ensures SegmentsDistance(segs + [s]) == SegmentsDistance(segs) + s.distance
  {
    assert (segs + [s])[..|segs|] == segs;
  }

  /**
   * The analyzer's running totals agree with its segment log: the total is
   * the log's distance and each category's entry is the distance of the
   * log's segments in that category.
   */
  predicate Consistent(segments: seq<Segment>, total: real, byCategory: PerCategory)
  {
    total == SegmentsDistance(segments) && byCategory == DistancesByCategory(segments)
  }

  /** `total_distance` equals the sum of `distances_by_category`. */
  lemma TotalIsSumOfCategories(segments: seq<Segment>, total: real, byCategory: PerCategory)
    requires Consistent(segments, total, byCategory)
    ensures total == byCategory.Total()
  {
    CategoriesPartitionDistance(segments);
  }

  // ---------------------------------------------------------------------------
  // `get_distance_stats` (without a time window)

  function Velocities(segs: seq<Segment>): (r: seq<real>)
    ensures |r| == |segs| && forall k :: 0 <= k < |segs| ==> r[k] == segs[k].velocity
  {
    seq(|segs|, k requires 0 <= k < |segs| => segs[k].velocity)
  }

  /** Each category's distance as a percentage of the total of the four: they add up to 100. */
  function Shares(d: PerCategory): (r: PerCategory)
    requires d.Total() != 0.0
    ensures r.Total() == 100.0
  {
    var total := d.Total();
    assert d.sprint / total + d.highIntensity / total + d.jogging / total + d.walking / total == total / total;
    PerCategory(d.sprint / total * 100.0, d.highIntensity / total * 100.0,
                d.jogging / total * 100.0, d.walking / total * 100.0)
  }

  /**
   * The statistics; `percentages` is absent where the total distance is 0
   * and `distancePerMinute` where the log spans no time, the cases numpy
   * turns into NaN or infinity.
   */
  datatype DistanceStats = DistanceStats(
    totalDistance: real,
    distancesByCategory: PerCategory,
    percentages: Option<PerCategory>,
    averageVelocity: real,
    maxVelocity: real,
    distancePerMinute: Option<real>)

  function DistanceStatsOf(segs: seq<Segment>): (r: Option<DistanceStats>)
    ensures r.None? <==> |segs| == 0
    ensures r.Some? ==> r.value.totalDistance == SegmentsDistance(segs)
    ensures r.Some? ==> r.value.distancesByCategory.Total() == r.value.totalDistance
    ensures r.Some? ==> (r.value.percentages.Some? <==> r.value.totalDistance != 0.0)
    ensures r.Some? && r.value.percentages.Some? ==> r.value.percentages.value.Total() == 100.0
    ensures r.Some? ==> r.value.averageVelocity <= r.value.maxVelocity
    ensures r.Some? ==> forall k :: 0 <= k < |segs| ==> segs[k].velocity <= r.value.maxVelocity
  {
    if |segs| == 0 then None
    else
      var totalTime := segs[|segs| - 1].endTime - segs[0].startTime;
      var distances := DistancesByCategory(segs);
      var total := distances.Total();
      var velocities := Velocities(segs);
      CategoriesPartitionDistance(segs);
      MeanWithinExtremes(velocities);
      Some(DistanceStats(
        total,
        distances,
        if total == 0.0 then None else Some(Shares(distances)),
        Mean(velocities),
        Max(velocities),
        if totalTime == 0.0 then None else Some(total / (totalTime / 60.0))))
  }

  /** The statistics recomputed from the log agree with the running totals. */
  lemma StatsMatchRunningTotals(segments: seq<Segment>, total: real, byCategory: PerCategory)
    requires Consistent(segments, total, byCategory) && 0 < |segments|
    ensures DistanceStatsOf(segments).value.totalDistance == total
    ensures DistanceStatsOf(segments).value.distancesByCategory == byCategory
  {
  }

  // ---------------------------------------------------------------------------
  // The analyzer

  class DistanceAnalyzer {
    const math: Math
    const thresholds: Thresholds
    var segments: seq<Segment>
    var totalDistance: real
    var distancesByCategory: PerCategory

    ghost predicate Valid()
      reads this
    {
      Lawful(math) && Tallied()
    }

    /** The running totals agree with the segment log. */
    ghost predicate Tallied()
      reads this
    {
      Consistent(segments, totalDistance, distancesByCategory)
    }

    constructor(m: Math, th: Thresholds)
      requires Lawful(m)
      ensures Valid() && math == m && thresholds == th
      ensures segments == [] && totalDistance == 0.0 && distancesByCategory == NoDistance
    {
      math, thresholds := m, th;
      segments, totalDistance, distancesByCategory := [], 0.0, NoDistance;
    }

    /**
     * `process_position`: without a previous reading nothing changes and
     * nothing is reported; otherwise one segment is logged and the total and
     * exactly one category grow by its distance.
     */
    method ProcessPosition(timestamp: real, position: Point, lastTimestamp: Option<real>, lastPosition: Option<Point>)
      returns (r: Option<Movement>)
      requires Valid()
      requires lastTimestamp.Some? && lastPosition.Some? ==> timestamp != lastTimestamp.value
      modifies this
      ensures Valid()
      ensures lastTimestamp.None? || lastPosition.None? ==>
        r.None? && segments == old(segments) && totalDistance == old(totalDistance)
        && distancesByCategory == old(distancesByCategory)
      ensures lastTimestamp.Some? && lastPosition.Some? ==>
        var d := Dist(math, lastPosition.value, position);
        var v := Velocity(math, lastPosition.value, position, timestamp - lastTimestamp.value);
        var c := Categorize(thresholds, v);
        && r == Some(Movement(d, v, c))
        && segments == old(segments) + [Segment(lastTimestamp.value, timestamp, lastPosition.value, position, d, v, c)]
        && totalDistance == old(totalDistance) + d
        && distancesByCategory == old(distancesByCategory).Raise(c, d)
    {
      if lastTimestamp.None? || lastPosition.None? {
        return None;
      }
      var d := Dist(math, lastPosition.value, position);
      var v := Velocity(math, lastPosition.value, position, timestamp - lastTimestamp.value);
      var c := Categorize(thresholds, v);
      Log(Segment(lastTimestamp.value, timestamp, lastPosition.value, position, d, v, c));
      r := Some(Movement(d, v, c));
    }

    /** Appends a segment and adds its distance to the total and to its category. */
    method Log(s: Segment)
      requires Tallied()
      modifies this
      ensures Tallied()
      ensures segments == old(segments) + [s] && totalDistance == old(totalDistance) + s.distance
      ensures distancesByCategory == old(distancesByCategory).Raise(s.category, s.distance)
    {
      AppendSegment(segments, s);
      segments := segments + [s];
      totalDistance := totalDistance + s.distance;
      distancesByCategory := distancesByCategory.Raise(s.category, s.distance);
    }

    /** `get_distance_stats()` */
    function GetDistanceStats(): (r: Option<DistanceStats>)
      requires Valid()
      reads this
      ensures r.None? <==> |segments| == 0
      ensures r.Some? ==> r.value.totalDistance == totalDistance && r.value.distancesByCategory == distancesByCategory
    {
      DistanceStatsOf(segments)
    }
  }
}
