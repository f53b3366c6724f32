/**
 * Sprint detection of `Soccer_Analytics/core/sprint_analyzer.py`: speeds
 * between consecutive fixes are smoothed over a moving window, a sprint
 * opens when the smoothed speed reaches the threshold, is updated while it
 * stays there, and is logged when it drops below if it lasted long enough.
 * The sprint logic and the statistics here are shared with the circular
 * buffer version in `SprintsNp`.
 */
module Sprints {
  import opened Numerics
  import opened Calculations
  import opened Counting

  /** `Sprint`; `avgVelocity` is absent where numpy divides by a zero duration (NaN). */
  datatype Sprint = Sprint(
    startTime: real, endTime: Option<real>,
    startPosition: Point, endPosition: Option<Point>,
    distance: real, duration: real,
    avgVelocity: Option<real>, maxVelocity: real,
    direction: string, recoveryTime: real)

  /** The `status` of `process_position`, with the figures reported while sprinting. */
  datatype Status =
    | Sprinting(currentVelocity: real, sprintDuration: real, sprintDistance: real)
    | SprintEnded
    | SprintDiscarded
    | NoSprint

  /** `min_velocity` (km/h), `min_duration` (s) and `smoothing_window` of the sprint configuration. */
  datatype Config = Config(sprintThreshold: real, minSprintDuration: real, smoothingWindow: nat)

  /** The logged sprints, the open one and the end time of the last logged one. */
  datatype Tracker = Tracker(sprints: seq<Sprint>, current: Option<Sprint>, lastSprintEnd: Option<real>)

  const NoSprints := Tracker([], None, None)

  /** A sprint opened at `t` from the previous position; the recovery counts from the last logged sprint's end. */
  function Opened(t: real, from: Point, lastEnd: Option<real>): Sprint
  {
    Sprint(t, None, from, None, 0.0, 0.0, Some(0.0), 0.0, "", if lastEnd.Some? then t - lastEnd.value else 0.0)
  }

  /**
   * `_update_sprint` as written: the end position is assigned before the
   * step is measured, so the step is the distance from the new position to
   * itself.
   */
  function UpdatedAsWritten(m: Math, s: Sprint, position: Point, t: real, v: real): Sprint
    requires Lawful(m)
  {
    Refreshed(m, s, position, t, v, s.distance + Dist(m, position, position))
  }

  /** The point the sprint last reached: its end position, or its start before the first update. */
  function Previous(s: Sprint): Point
  {
    if s.endPosition.Some? then s.endPosition.value else s.startPosition
  }

  /** `_update_sprint` with the step measured from the previous end position, before it is overwritten. */
  function Updated(m: Math, s: Sprint, position: Point, t: real, v: real): Sprint
    requires Lawful(m)
  {
    Refreshed(m, s, position, t, v, s.distance + Dist(m, Previous(s), position))
  }

  /** The fields `_update_sprint` sets, given the new distance. */
  function Refreshed(m: Math, s: Sprint, position: Point, t: real, v: real, distance: real): Sprint
    requires Lawful(m)
  {
    var duration := t - s.startTime;
    s.(endTime := Some(t), endPosition := Some(position), distance := distance, duration := duration,
       avgVelocity := if duration == 0.0 then None else Some(distance / duration * 3.6),
       maxVelocity := MaxR(v, s.maxVelocity),
       direction := CalculateDirection(m, s.startPosition, position))
  }

  /**
   * An update never shrinks the covered distance, measures the duration
   * from the start, keeps the running maximum of the speeds, and keeps the
   * start and the recovery time.
   */
  lemma UpdatedFacts(m: Math, s: Sprint, position: Point, t: real, v: real)
    requires Lawful(m)
    ensures var r := Updated(m, s, position, t, v);
      && s.distance <= r.distance
      && r.duration == t - s.startTime
      && v <= r.maxVelocity && s.maxVelocity <= r.maxVelocity && (r.maxVelocity == v || r.maxVelocity == s.maxVelocity)
      && r.startTime == s.startTime && r.startPosition == s.startPosition && r.recoveryTime == s.recoveryTime
      && r.endTime == Some(t) && r.endPosition == Some(position)
      && r.direction in Directions
  {
  }

  /** As written, an update adds nothing to the distance, wherever the player went. */
  lemma AsWrittenUpdateAddsNothing(m: Math, s: Sprint, position: Point, t: real, v: real)
    requires Lawful(m)
    ensures UpdatedAsWritten(m, s, position, t, v).distance == s.distance
  {
    DistSelf(m, position);
  }

  /** Any move away from the previous point shows the difference: the corrected update counts it, the written one does not. */
  lemma SprintDistanceDiscrepancy(m: Math, s: Sprint, position: Point, t: real, v: real)
    requires Lawful(m) && Previous(s) != position
    ensures UpdatedAsWritten(m, s, position, t, v).distance == s.distance < Updated(m, s, position, t, v).distance
  {
    AsWrittenUpdateAddsNothing(m, s, position, t, v);
    DistPositive(m, Previous(s), position);
  }

  /** One frame of an ongoing sprint: the new position, its time and the speed measured for it. */
  datatype Fix = Fix(position: Point, t: real, v: real)

  /** The sprint after a run of updates, oldest first. */
  function UpdatedAll(m: Math, s: Sprint, fixes: seq<Fix>): Sprint
    requires Lawful(m)
    decreases |fixes|
  {
    if |fixes| == 0 then s
    else
      var f := fixes[|fixes| - 1];
      Updated(m, UpdatedAll(m, s, fixes[..|fixes| - 1]), f.position, f.t, f.v)
  }

  function FixPositions(fixes: seq<Fix>): (ps: seq<Point>)
    ensures |ps| == |fixes| && forall k :: 0 <= k < |fixes| ==> ps[k] == fixes[k].position
  {
    seq(|fixes|, k requires 0 <= k < |fixes| => fixes[k].position)
  }

  /**
   * A sprint's distance is the length of the path from where it was opened
   * through every position it was updated with, and it ends at the last one.
   */
  lemma {:induction false} SprintDistanceIsPathLength(m: Math, t0: real, from: Point, lastEnd: Option<real>, fixes: seq<Fix>)
    requires Lawful(m)
    ensures var r := UpdatedAll(m, Opened(t0, from, lastEnd), fixes);
      && r.distance == PathLength(m, [from] + FixPositions(fixes))
      && r.startPosition == from
      && Previous(r) == ([from] + FixPositions(fixes))[|fixes|]
    decreases |fixes|
  {
    var ps := [from] + FixPositions(fixes);
    if |fixes| != 0 {
      var n := |fixes| - 1;
      SprintDistanceIsPathLength(m, t0, from, lastEnd, fixes[..n]);
      assert ps[..|ps| - 1] == [from] + FixPositions(fixes[..n]);
    }
  }

  /** The branch of `process_position` after the smoothed speed is known. */
  function Detect(m: Math, cfg: Config, tr: Tracker, smoothed: real, v: real, t: real, position: Point, lastPosition: Point)
    : (Tracker, Status)
    requires Lawful(m)
  {
    if smoothed >= cfg.sprintThreshold then
      var s := if tr.current.None? then Opened(t, lastPosition, tr.lastSprintEnd) else tr.current.value;
      var s' := Updated(m, s, position, t, v);
      (tr.(current := Some(s')), Sprinting(v, s'.duration, s'.distance))
    else if tr.current.Some? then
      if tr.current.value.duration >= cfg.minSprintDuration then
        (Tracker(tr.sprints + [tr.current.value], None, Some(t)), SprintEnded)
      else
        (tr.(current := None), SprintDiscarded)
    else
      (tr, NoSprint)
  }

  /**
   * What the log always satisfies: no distance is negative, every
   * logged sprint lasted the minimum duration, and there is a last end time
   * exactly when a sprint was logged.
   */
  predicate Logged(cfg: Config, tr: Tracker)
  {
    && (forall k :: 0 <= k < |tr.sprints| ==> 0.0 <= tr.sprints[k].distance && tr.sprints[k].duration >= cfg.minSprintDuration)
    && (tr.current.Some? ==> 0.0 <= tr.current.value.distance)
    && (tr.lastSprintEnd.None? <==> tr.sprints == [])
  }

  lemma DetectKeepsLogged(m: Math, cfg: Config, tr: Tracker, smoothed: real, v: real, t: real, position: Point, lastPosition: Point)
    requires Lawful(m) && Logged(cfg, tr)
    ensures Logged(cfg, Detect(m, cfg, tr, smoothed, v, t, position, lastPosition).0)
  {
    if smoothed >= cfg.sprintThreshold {
      var s := if tr.current.None? then Opened(t, lastPosition, tr.lastSprintEnd) else tr.current.value;
      UpdatedFacts(m, s, position, t, v);
    }
  }

  /**
   * The status names the branch taken: sprinting exactly when the smoothed
   * speed reaches the threshold; otherwise ended or discarded by the open
   * sprint's duration, and no sprint when none was open.
   */
  lemma StatusByBranch(m: Math, cfg: Config, tr: Tracker, smoothed: real, v: real, t: real, position: Point, lastPosition: Point)
    requires Lawful(m)
    ensures var st := Detect(m, cfg, tr, smoothed, v, t, position, lastPosition).1;
      && (st.Sprinting? <==> smoothed >= cfg.sprintThreshold)
      && (st == SprintEnded <==> smoothed < cfg.sprintThreshold && tr.current.Some? && tr.current.value.duration >= cfg.minSprintDuration)
      && (st == SprintDiscarded <==> smoothed < cfg.sprintThreshold && tr.current.Some? && tr.current.value.duration < cfg.minSprintDuration)
      && (st == NoSprint <==> smoothed < cfg.sprintThreshold && tr.current.None?)
  {
  }

  /**
   * A sprint opens only when the smoothed speed reaches the threshold and
   * none is open; it starts now, from the previous position, and its
   * recovery time runs from the last logged sprint's end, if any.
   */
  lemma SprintOpens(m: Math, cfg: Config, tr: Tracker, smoothed: real, v: real, t: real, position: Point, lastPosition: Point)
    requires Lawful(m) && tr.current.None?
    ensures var r := Detect(m, cfg, tr, smoothed, v, t, position, lastPosition).0;
      && (r.current.Some? <==> smoothed >= cfg.sprintThreshold)
      && (r.current.Some? ==>
            && r.current.value.startTime == t && r.current.value.startPosition == lastPosition
            && r.current.value.recoveryTime == (if tr.lastSprintEnd.Some? then t - tr.lastSprintEnd.value else 0.0)
            && r.current.value.maxVelocity == MaxR(v, 0.0)
            && r.current.value.duration == 0.0)
      && r.sprints == tr.sprints && r.lastSprintEnd == tr.lastSprintEnd
  {
    if smoothed >= cfg.sprintThreshold {
      UpdatedFacts(m, Opened(t, lastPosition, tr.lastSprintEnd), position, t, v);
    }
  }

  /**
   * Below the threshold an open sprint is closed in every case; it is
   * logged, and the last end time set to now, exactly when it lasted the
   * minimum duration.
   */
  lemma SprintCloses(m: Math, cfg: Config, tr: Tracker, smoothed: real, v: real, t: real, position: Point, lastPosition: Point)
    requires Lawful(m) && tr.current.Some? && smoothed < cfg.sprintThreshold
    ensures var r := Detect(m, cfg, tr, smoothed, v, t, position, lastPosition).0;
      && r.current.None?
      && (tr.current.value.duration >= cfg.minSprintDuration ==> r.sprints == tr.sprints + [tr.current.value] && r.lastSprintEnd == Some(t))
      && (tr.current.value.duration < cfg.minSprintDuration ==> r.sprints == tr.sprints && r.lastSprintEnd == tr.lastSprintEnd)
  {
  }

  /** While sprinting, the open sprint keeps its start and tracks the duration from it and the running maximum speed. */
  lemma SprintContinues(m: Math, cfg: Config, tr: Tracker, smoothed: real, v: real, t: real, position: Point, lastPosition: Point)
    requires Lawful(m) && tr.current.Some? && smoothed >= cfg.sprintThreshold
    ensures var r := Detect(m, cfg, tr, smoothed, v, t, position, lastPosition).0;
      var s := tr.current.value;
      && r.current.Some?
      && r.current.value.startTime == s.startTime && r.current.value.startPosition == s.startPosition
      && r.current.value.duration == t - s.startTime
      && r.current.value.maxVelocity == MaxR(v, s.maxVelocity)
      && r.sprints == tr.sprints && r.lastSprintEnd == tr.lastSprintEnd
  {
    UpdatedFacts(m, tr.current.value, position, t, v);
  }

  // ---------------------------------------------------------------------------
  // `get_sprint_stats` (without a time window)

  datatype Summary = Summary(mean: real, max: real, total: real)

  /** `np.mean`, `np.max` and `np.sum` of a non-empty column. */
  function Summarize(xs: seq<real>): (s: Summary)
    requires 0 < |xs|
    ensures forall k :: 0 <= k < |xs| ==> xs[k] <= s.max
    ensures s.mean <= s.max
  {
    MeanWithinExtremes(xs);
    Summary(Mean(xs), Max(xs), Sum(xs))
  }

  function Column(sprints: seq<Sprint>, f: Sprint -> real): (r: seq<real>)
    ensures |r| == |sprints| && forall k :: 0 <= k < |sprints| ==> r[k] == f(sprints[k])
  {
    seq(|sprints|, k requires 0 <= k < |sprints| => f(sprints[k]))
  }

  function SprintDirections(sprints: seq<Sprint>): (r: seq<string>)
    ensures |r| == |sprints| && forall k :: 0 <= k < |sprints| ==> r[k] == sprints[k].direction
  {
    seq(|sprints|, k requires 0 <= k < |sprints| => sprints[k].direction)
  }

  /** The mean average speed; NaN (absent) as soon as one sprint has none. */
  function MeanAvgVelocity(sprints: seq<Sprint>): Option<real>
    requires 0 < |sprints|
  {
    if forall k :: 0 <= k < |sprints| ==> sprints[k].avgVelocity.Some?
    then Some(Mean(seq(|sprints|, k requires 0 <= k < |sprints| => sprints[k].avgVelocity.value)))
    else None
  }

  datatype SprintStats = SprintStats(
    totalSprints: nat,
    distances: Summary,
    durations: Summary,
    velocityMean: Option<real>,
    velocityMax: real,
    recoveryMean: real, recoveryMin: real, recoveryMax: real,
    directionDistribution: seq<(string, real)>)

  /** `get_sprint_stats()`: nothing without sprints; the direction shares add up to 100. */
  function SprintStatsOf(sprints: seq<Sprint>): (r: Option<SprintStats>)
    ensures r.None? <==> |sprints| == 0
    ensures r.Some? ==> r.value.totalSprints == |sprints|
    ensures r.Some? ==> ShareTotal(r.value.directionDistribution) == 100.0
    ensures r.Some? ==> r.value.recoveryMin <= r.value.recoveryMean <= r.value.recoveryMax
    ensures r.Some? ==> forall k :: 0 <= k < |sprints| ==> sprints[k].maxVelocity <= r.value.velocityMax
  {
    if |sprints| == 0 then None
    else
      var recovery := Column(sprints, (s: Sprint) => s.recoveryTime);
      MeanWithinExtremes(recovery);
      SharesOfTallySumTo100(SprintDirections(sprints));
      Some(SprintStats(
        |sprints|,
        Summarize(Column(sprints, (s: Sprint) => s.distance)),
        Summarize(Column(sprints, (s: Sprint) => s.duration)),
        MeanAvgVelocity(sprints),
        Summarize(Column(sprints, (s: Sprint) => s.maxVelocity)).max,
        Mean(recovery), Min(recovery), Max(recovery),
        Shares(Tally(SprintDirections(sprints)), |sprints|)))
  }

  /**
   * Over a consistent log the distances add up to something non-negative,
   * and the mean duration is at least the minimum.
   */
  lemma LoggedStats(cfg: Config, tr: Tracker)
    requires Logged(cfg, tr) && 0 < |tr.sprints|
    ensures 0.0 <= SprintStatsOf(tr.sprints).value.distances.mean <= SprintStatsOf(tr.sprints).value.distances.max
    ensures 0.0 <= SprintStatsOf(tr.sprints).value.distances.total
    ensures cfg.minSprintDuration <= SprintStatsOf(tr.sprints).value.durations.mean
  {
    var ds := Column(tr.sprints, (s: Sprint) => s.distance);
    SumNonneg(ds);
    MeanBetween(ds, 0.0, Max(ds));
    var durations := Column(tr.sprints, (s: Sprint) => s.duration);
    MeanBetween(durations, cfg.minSprintDuration, Max(durations));
  }

  // ---------------------------------------------------------------------------
  // The analyzer

  class SprintAnalyzer {
    const math: Math
    const config: Config
    var sprints: seq<Sprint>
    var currentSprint: Option<Sprint>
    var lastSprintEnd: Option<real>
    var velocityBuffer: seq<real>
    /** Every speed seen so far, oldest first. */
    ghost var velocities: seq<real>

    function Log(): Tracker
      reads this
    {
      Tracker(sprints, currentSprint, lastSprintEnd)
    }

    ghost predicate Valid()
      reads this
    {
      Lawful(math) && 1 <= config.smoothingWindow && Inv()
    }

    /** The buffer holds the last `smoothing_window` speeds, and the log is consistent. */
    ghost predicate Inv()
      reads this
    {
      velocityBuffer == Recent(velocities, config.smoothingWindow) && Logged(config, Log())
    }

    constructor(m: Math, cfg: Config)
      requires Lawful(m) && 1 <= cfg.smoothingWindow
      ensures Valid() && math == m && config == cfg
      ensures Log() == NoSprints && velocityBuffer == [] && velocities == []
    {
      math, config := m, cfg;
      sprints, currentSprint, lastSprintEnd := [], None, None;
      velocityBuffer, velocities := [], [];
    }

    /**
     * `process_position`: the speed since the previous fix enters the
     * window, and the sprint logic runs on the window's mean.
     */
    method ProcessPosition(timestamp: real, position: Point, lastPosition: Point, lastTimestamp: real)
      returns (status: Status)
      requires Valid() && timestamp != lastTimestamp
      modifies this
      ensures Valid()
      ensures velocities == old(velocities) + [Velocity(math, lastPosition, position, timestamp - lastTimestamp)]
      ensures 0 < |velocityBuffer|
      ensures (Log(), status) == Detect(math, config, old(Log()), Mean(Recent(velocities, config.smoothingWindow)),
                                        Velocity(math, lastPosition, position, timestamp - lastTimestamp),
                                        timestamp, position, lastPosition)
    {
      var v := Velocity(math, lastPosition, position, timestamp - lastTimestamp);
      PushVelocity(v);
      var smoothed := Mean(velocityBuffer);
      DetectKeepsLogged(math, config, Log(), smoothed, v, timestamp, position, lastPosition);
      var (tr, st) := Detect(math, config, Log(), smoothed, v, timestamp, position, lastPosition);
      Store(tr);
      status := st;
    }

    /** Appends to the window and drops its oldest speed once it is longer than `smoothing_window`. */
    method PushVelocity(v: real)
      requires 1 <= config.smoothingWindow && velocityBuffer == Recent(velocities, config.smoothingWindow)
      modifies this
      ensures velocities == old(velocities) + [v]
      ensures velocityBuffer == Recent(velocities, config.smoothingWindow)
      ensures Log() == old(Log())
    {
      PushedKeepsRecent(velocities, v, config.smoothingWindow);
      velocityBuffer := velocityBuffer + [v];
      if |velocityBuffer| > config.smoothingWindow {
        velocityBuffer := velocityBuffer[1..];
      }
      velocities := velocities + [v];
    }

    method Store(tr: Tracker)
      modifies this
      ensures Log() == tr
      ensures velocityBuffer == old(velocityBuffer) && velocities == old(velocities)
    {
      sprints, currentSprint, lastSprintEnd := tr.sprints, tr.current, tr.lastSprintEnd;
    }

    /** `get_sprint_stats()` */
    function GetSprintStats(): (r: Option<SprintStats>)
      requires Valid()
      reads this
      ensures r.None? <==> |sprints| == 0
      ensures r.Some? ==> 0.0 <= r.value.distances.total
    {
      if |sprints| == 0 then SprintStatsOf(sprints)
      else LoggedStats(config, Log()); SprintStatsOf(sprints)
    }
  }
}
