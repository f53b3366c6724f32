/**
 * Off-ball runs of `Soccer_Analytics/core/off_ball_runs.py`: each player's
 * recent positions give a smoothed velocity; a run starts when the player
 * without the ball moves fast enough, is rescored every frame (space gained,
 * threat, type, defensive disruption), and is completed when the player
 * slows down or the run lasts too long.
 */
module OffBallRuns {
  import opened Numerics
  import opened Calculations

  // The configuration the constructor fixes. `min_run_duration` (0.5 s) and
  // `min_distance_traveled` (5 m) are set as well but never read.
  const MinRunVelocity := 15.0
  const VelocitySmoothingWindow := 5
  const SpaceCreationRadius := 10.0
  const MaxRunDuration := 10.0
  const HistoryWindow := 10

  datatype RunType = Penetrating | Supporting | Diversionary

  datatype OffBallRun = OffBallRun(
    playerId: int, startTime: real, endTime: Option<real>,
    startPosition: Point, currentPosition: Point, velocity: Point,
    runDistance: real, spaceGained: real, threatScore: real, runType: RunType,
    isActive: bool, creatingSpaceFor: Option<int>, defensiveDisruption: real)

  // ---------------------------------------------------------------------------
  // `calculate_smooth_velocity`

  /** The finite-difference velocities between consecutive samples, skipping intervals in which no time passed. */
  function Steps(ps: seq<Point>, ts: seq<real>): (vs: seq<Point>)
    requires |ps| == |ts|
    decreases |ps|
  {
    if |ps| < 2 then []
    else
      var n := |ps| - 1;
      var dt := ts[n] - ts[n - 1];
      Steps(ps[..n], ts[..n]) + (if dt > 0.0 then [Point((ps[n].x - ps[n - 1].x) / dt, (ps[n].y - ps[n - 1].y) / dt)] else [])
  }

  predicate TimePasses(ts: seq<real>)
  {
    exists i :: 1 <= i < |ts| && ts[i] - ts[i - 1] > 0.0
  }

  /** There is a velocity exactly when some interval has a positive duration. */
  lemma {:induction false} StepsExistIffTimePasses(ps: seq<Point>, ts: seq<real>)
    requires |ps| == |ts|
    ensures 0 < |Steps(ps, ts)| <==> TimePasses(ts)
    decreases |ps|
  {
    if 2 <= |ps| {
      var n := |ps| - 1;
      StepsExistIffTimePasses(ps[..n], ts[..n]);
      if TimePasses(ts) && ts[n] - ts[n - 1] <= 0.0 {
        var i :| 1 <= i < |ts| && ts[i] - ts[i - 1] > 0.0;
        assert ts[..n][i] - ts[..n][i - 1] > 0.0;
      }
      if TimePasses(ts[..n]) {
        var i :| 1 <= i < n && ts[..n][i] - ts[..n][i - 1] > 0.0;
        assert ts[i] - ts[i - 1] > 0.0;
      }
    }
  }

  /**
   * `calculate_smooth_velocity` on a history: the last point of the moving
   * average of the step velocities. The fallback to the last raw velocity
   * never applies, as smoothing a non-empty list never gives an empty one.
   */
  function SmoothVelocity(ps: seq<Point>, ts: seq<real>): (v: Option<Point>)
    requires |ps| == |ts|
    ensures v.None? <==> |ps| < 2 || !TimePasses(ts)
  {
    StepsExistIffTimePasses(ps, ts);
    if |ps| < 2 then None
    else
      var vs := Steps(ps, ts);
      if |vs| == 0 then None
      else
        var smoothed := SmoothPositions(vs, VelocitySmoothingWindow).value;
        Some(smoothed[|smoothed| - 1])
  }

  /** A player who kept the same velocity over the last five steps is reported at that velocity. */
  lemma SteadyVelocityIsReported(ps: seq<Point>, ts: seq<real>, v: Point)
    requires |ps| == |ts|
    requires VelocitySmoothingWindow <= |Steps(ps, ts)|
    requires forall k :: |Steps(ps, ts)| - VelocitySmoothingWindow <= k < |Steps(ps, ts)| ==> Steps(ps, ts)[k] == v
    ensures SmoothVelocity(ps, ts) == Some(v)
  {
    var vs := Steps(ps, ts);
    var w := VelocitySmoothingWindow;
    var tail := vs[|vs| - w..];
    SmoothingKeepsStillPlayer(tail, w, v);
    var smoothed := SmoothPositions(vs, w).value;
    assert smoothed[|smoothed| - 1] == Centroid(vs[|vs| - w..|vs|]);
    assert SmoothPositions(tail, w).value[0] == Centroid(tail[0..w]);
    assert tail[0..w] == vs[|vs| - w..|vs|];
  }

  /** The loop of `calculate_smooth_velocity` that collects the step velocities. */
  method StepVelocities(ps: seq<Point>, ts: seq<real>) returns (vs: seq<Point>)
    requires |ps| == |ts|
    ensures vs == Steps(ps, ts)
  {
    vs := [];
    if |ps| < 2 {
      return;
    }
    var i := 1;
    while i < |ps|
      invariant 1 <= i <= |ps|
      invariant vs == Steps(ps[..i], ts[..i])
    {
      var dt := ts[i] - ts[i - 1];
      if dt > 0.0 {
        vs := vs + [Point((ps[i].x - ps[i - 1].x) / dt, (ps[i].y - ps[i - 1].y) / dt)];
      }
      i := i + 1;
      assert ps[..i][..i - 1] == ps[..i - 1] && ts[..i][..i - 1] == ts[..i - 1];
    }
    assert ps[..i] == ps && ts[..i] == ts;
  }

  // ---------------------------------------------------------------------------
  // Scores

  /** The length of a velocity vector. */
  function Speed(m: Math, v: Point): real
    requires Lawful(m)
  {
    Dist(m, Point(0.0, 0.0), v)
  }

  /** `1 / (d + 1e-6)` for each start distance. */
  function InverseWeights(ds: seq<real>): (ws: seq<real>)
    requires forall i :: 0 <= i < |ds| ==> 0.0 <= ds[i]
    ensures |ws| == |ds| && forall i :: 0 <= i < |ds| ==> 0.0 < ws[i]
  {
    seq(|ds|, i requires 0 <= i < |ds| => Reciprocal(ds[i] + 0.000001))
  }

  function Reciprocal(x: real): (r: real)
    requires 0.0 < x
    ensures 0.0 < r
  {
    ReciprocalPositive(x);
    1.0 / x
  }

  lemma ReciprocalPositive(x: real)
    requires 0.0 < x
    ensures 0.0 < 1.0 / x
  {
    QuotientNonneg(1.0, x);
    QuotientTimesDivisor(1.0, x);
  }

  /** `np.sum(xs * ws / np.sum(ws))` */
  function Weighted(xs: seq<real>, ws: seq<real>): real
    requires |xs| == |ws| && 0 < |ws| && forall i :: 0 <= i < |ws| ==> 0.0 < ws[i]
  {
    SumAtLeast(ws, 0.0);
    SumPositive(ws);
    Sum(seq(|xs|, i requires 0 <= i < |xs| => xs[i] * (ws[i] / Sum(ws))))
  }

  /** `calculate_space_gained`: how much further, on average, the closest defenders now are. */
  function SpaceGained(m: Math, start: Point, current: Point, defenders: seq<Point>): real
    requires Lawful(m)
  {
    if |defenders| == 0 then 0.0
    else
      var before := DistancesFrom(m, start, defenders);
      var after := DistancesFrom(m, current, defenders);
      var ws := InverseWeights(before);
      MaxR(0.0, Weighted(after, ws) - Weighted(before, ws))
  }

  /** Space gained is never negative, is zero without defenders, and is zero for a player who has not moved. */
  lemma SpaceGainedFacts(m: Math, start: Point, current: Point, defenders: seq<Point>)
    requires Lawful(m)
    ensures 0.0 <= SpaceGained(m, start, current, defenders)
    ensures |defenders| == 0 ==> SpaceGained(m, start, current, defenders) == 0.0
    ensures current == start ==> SpaceGained(m, start, current, defenders) == 0.0
  {
  }

  /** `_calculate_defensive_coverage`: `sum(1 / (1 + d))` over the defenders. */
  function Coverage(m: Math, defenders: seq<Point>, p: Point): real
    requires Lawful(m)
  {
    var ds := DistancesFrom(m, p, defenders);
    Sum(seq(|ds|, i requires 0 <= i < |ds| => 1.0 / (1.0 + ds[i])))
  }

  /** Each defender contributes between nothing and one to the coverage. */
  lemma CoverageBounds(m: Math, defenders: seq<Point>, p: Point)
    requires Lawful(m)
    ensures 0.0 <= Coverage(m, defenders, p) <= |defenders| as real
  {
    var ds := DistancesFrom(m, p, defenders);
    var terms := seq(|ds|, i requires 0 <= i < |ds| => 1.0 / (1.0 + ds[i]));
    forall i | 0 <= i < |terms| ensures 0.0 <= terms[i] <= 1.0 {
      QuotientNonneg(1.0, 1.0 + ds[i]);
      QuotientAtMostOne(1.0, 1.0 + ds[i]);
    }
    SumNonneg(terms);
    SumBounded(terms, 1.0);
  }

  /** `calculate_defensive_disruption`: the coverage lost between the run's start and its current position. */
  function Disruption(m: Math, run: OffBallRun, defenders: seq<Point>): real
    requires Lawful(m)
  {
    if |defenders| == 0 then 0.0
    else MaxR(0.0, Coverage(m, defenders, run.startPosition) - Coverage(m, defenders, run.currentPosition))
  }

  /** Disruption is never negative, is zero without defenders or without movement, and never exceeds the number of defenders. */
  lemma DisruptionFacts(m: Math, run: OffBallRun, defenders: seq<Point>)
    requires Lawful(m)
    ensures 0.0 <= Disruption(m, run, defenders) <= |defenders| as real
    ensures |defenders| == 0 ==> Disruption(m, run, defenders) == 0.0
    ensures run.currentPosition == run.startPosition ==> Disruption(m, run, defenders) == 0.0
  {
    CoverageBounds(m, defenders, run.startPosition);
    CoverageBounds(m, defenders, run.currentPosition);
  }

  /** The centre of the goal being attacked. */
  function Goal(fieldLength: real, fieldWidth: real): Point
  {
    Point(fieldLength, fieldWidth / 2.0)
  }

  function GoalThreat(m: Math, fieldLength: real, fieldWidth: real, p: Point): real
    requires Lawful(m) && 0.0 < fieldLength
  {
    1.0 - MinR(1.0, Dist(m, p, Goal(fieldLength, fieldWidth)) / fieldLength)
  }

  function SpaceThreat(m: Math, p: Point, defenders: seq<Point>): real
    requires Lawful(m)
  {
    if |defenders| > 0 then MinR(1.0, Min(DistancesFrom(m, p, defenders)) / 20.0) else 1.0
  }

  function DirectionThreat(m: Math, fieldLength: real, fieldWidth: real, p: Point, v: Point): real
    requires Lawful(m)
  {
    var goal := Goal(fieldLength, fieldWidth);
    if v.x != 0.0 || v.y != 0.0 then
      1.0 - MinR(1.0, Abs(m.atan2(goal.y - p.y, goal.x - p.x) - m.atan2(v.y, v.x)) / m.pi)
    else 0.0
  }

  /** `calculate_threat_score`: `0.4 * goal + 0.3 * space + 0.3 * direction`. */
  function ThreatScore(m: Math, fieldLength: real, fieldWidth: real, p: Point, v: Point, defenders: seq<Point>): real
    requires Lawful(m) && 0.0 < fieldLength
  {
    0.4 * GoalThreat(m, fieldLength, fieldWidth, p) + 0.3 * SpaceThreat(m, p, defenders)
    + 0.3 * DirectionThreat(m, fieldLength, fieldWidth, p, v)
  }

  /** Each component lies in [0, 1] and the weights add up to one, so the score does too. */
  lemma ThreatScoreBounds(m: Math, fieldLength: real, fieldWidth: real, p: Point, v: Point, defenders: seq<Point>)
    requires Lawful(m) && 0.0 < fieldLength
    ensures 0.0 <= GoalThreat(m, fieldLength, fieldWidth, p) <= 1.0
    ensures 0.0 <= SpaceThreat(m, p, defenders) <= 1.0
    ensures 0.0 <= DirectionThreat(m, fieldLength, fieldWidth, p, v) <= 1.0
    ensures 0.0 <= ThreatScore(m, fieldLength, fieldWidth, p, v, defenders) <= 1.0
    ensures |defenders| == 0 ==> SpaceThreat(m, p, defenders) == 1.0
  {
    QuotientNonneg(Dist(m, p, Goal(fieldLength, fieldWidth)), fieldLength);
    if |defenders| > 0 {
      var ds := DistancesFrom(m, p, defenders);
      assert Min(ds) in ds;
    }
    if v.x != 0.0 || v.y != 0.0 {
      var goal := Goal(fieldLength, fieldWidth);
      AngleLaws(m, 0.0, 0.0);
      QuotientNonneg(Abs(m.atan2(goal.y - p.y, goal.x - p.x) - m.atan2(v.y, v.x)), m.pi);
    }
  }

  /** Whether some teammate other than one standing exactly there is strictly within the support radius. */
  function SupportNearby(m: Math, p: Point, teammates: seq<Point>): bool
    requires Lawful(m)
  {
    if |teammates| == 0 then false
    else (teammates[0] != p && Dist(m, p, teammates[0]) < SpaceCreationRadius) || SupportNearby(m, p, teammates[1..])
  }

  lemma {:induction false} SupportNearbyIff(m: Math, p: Point, teammates: seq<Point>)
    requires Lawful(m)
    ensures SupportNearby(m, p, teammates) <==>
      exists k :: 0 <= k < |teammates| && teammates[k] != p && Dist(m, p, teammates[k]) < SpaceCreationRadius
    decreases |teammates|
  {
    if |teammates| != 0 {
      SupportNearbyIff(m, p, teammates[1..]);
      if SupportNearby(m, p, teammates[1..]) {
        var k :| 0 <= k < |teammates[1..]| && teammates[1..][k] != p && Dist(m, p, teammates[1..][k]) < SpaceCreationRadius;
        assert teammates[k + 1] == teammates[1..][k];
      }
      if exists k :: 0 <= k < |teammates| && teammates[k] != p && Dist(m, p, teammates[k]) < SpaceCreationRadius {
        var k :| 0 <= k < |teammates| && teammates[k] != p && Dist(m, p, teammates[k]) < SpaceCreationRadius;
        if k != 0 {
          assert teammates[1..][k - 1] == teammates[k];
        }
      }
    }
  }

  /** `classify_run_type` */
  function ClassifyRunType(m: Math, run: OffBallRun, teammates: seq<Point>): RunType
    requires Lawful(m)
  {
    var dx := run.currentPosition.x - run.startPosition.x;
    var dy := run.currentPosition.y - run.startPosition.y;
    if Abs(dy) > Abs(dx) && run.currentPosition.y > run.startPosition.y then Penetrating
    else if SupportNearby(m, run.currentPosition, teammates) then Supporting
    else Diversionary
  }

  /**
   * Penetrating exactly when the run is mostly along the length and forward;
   * otherwise supporting exactly when a teammate at a different spot is
   * within the radius; otherwise diversionary.
   */
  lemma RunTypePrecedence(m: Math, run: OffBallRun, teammates: seq<Point>)
    requires Lawful(m)
    ensures var dx := run.currentPosition.x - run.startPosition.x;
      var dy := run.currentPosition.y - run.startPosition.y;
      var forward := Abs(dy) > Abs(dx) && run.currentPosition.y > run.startPosition.y;
      && (ClassifyRunType(m, run, teammates) == Penetrating <==> forward)
      && (ClassifyRunType(m, run, teammates) == Supporting <==>
            && !forward
            && exists k :: 0 <= k < |teammates| && teammates[k] != run.currentPosition
                           && Dist(m, run.currentPosition, teammates[k]) < SpaceCreationRadius)
  {
    SupportNearbyIff(m, run.currentPosition, teammates);
  }

  // ---------------------------------------------------------------------------
  // One frame

  /** The fields rescored on every frame of a run, given its new position, velocity and distance. */
  function Rescored(m: Math, fieldLength: real, fieldWidth: real, run: OffBallRun, position: Point, v: Point,
                    distance: real, teammates: seq<Point>, defenders: seq<Point>): OffBallRun
    requires Lawful(m) && 0.0 < fieldLength
  {
    var moved := run.(currentPosition := position, velocity := v, runDistance := distance);
    moved.(spaceGained := SpaceGained(m, run.startPosition, position, defenders),
           threatScore := ThreatScore(m, fieldLength, fieldWidth, position, v, defenders),
           runType := ClassifyRunType(m, moved, teammates),
           defensiveDisruption := Disruption(m, moved, defenders))
  }

  /** The update of an active run as written: the position is overwritten before the step is measured. */
  function ContinuedAsWritten(m: Math, fieldLength: real, fieldWidth: real, run: OffBallRun, position: Point, v: Point,
                              teammates: seq<Point>, defenders: seq<Point>): OffBallRun
    requires Lawful(m) && 0.0 < fieldLength
  {
    Rescored(m, fieldLength, fieldWidth, run, position, v, run.runDistance + Dist(m, position, position), teammates, defenders)
  }

  /** The update of an active run, with the step measured from the run's previous position. */
  function Continued(m: Math, fieldLength: real, fieldWidth: real, run: OffBallRun, position: Point, v: Point,
                     teammates: seq<Point>, defenders: seq<Point>): OffBallRun
    requires Lawful(m) && 0.0 < fieldLength
  {
    Rescored(m, fieldLength, fieldWidth, run, position, v, run.runDistance + Dist(m, run.currentPosition, position), teammates, defenders)
  }

  /** As written, a run's distance never grows, wherever the player goes. */
  lemma AsWrittenRunDistanceNeverGrows(m: Math, fieldLength: real, fieldWidth: real, run: OffBallRun, position: Point, v: Point,
                                       teammates: seq<Point>, defenders: seq<Point>)
    requires Lawful(m) && 0.0 < fieldLength
    ensures ContinuedAsWritten(m, fieldLength, fieldWidth, run, position, v, teammates, defenders).runDistance == run.runDistance
  {
    DistSelf(m, position);
  }

  /** Any move shows the difference: the corrected update adds the step, the written one adds nothing. */
  lemma RunDistanceDiscrepancy(m: Math, fieldLength: real, fieldWidth: real, run: OffBallRun, position: Point, v: Point,
                               teammates: seq<Point>, defenders: seq<Point>)
    requires Lawful(m) && 0.0 < fieldLength && run.currentPosition != position
    ensures ContinuedAsWritten(m, fieldLength, fieldWidth, run, position, v, teammates, defenders).runDistance
            < Continued(m, fieldLength, fieldWidth, run, position, v, teammates, defenders).runDistance
  {
    AsWrittenRunDistanceNeverGrows(m, fieldLength, fieldWidth, run, position, v, teammates, defenders);
    DistPositive(m, run.currentPosition, position);
  }

  /** A continued run keeps its player and start, moves to the new position, covers more ground, and stays within its score bounds. */
  lemma ContinuedFacts(m: Math, fieldLength: real, fieldWidth: real, run: OffBallRun, position: Point, v: Point,
                       teammates: seq<Point>, defenders: seq<Point>)
    requires Lawful(m) && 0.0 < fieldLength
    ensures var r := Continued(m, fieldLength, fieldWidth, run, position, v, teammates, defenders);
      && r.playerId == run.playerId && r.startTime == run.startTime && r.startPosition == run.startPosition
      && r.currentPosition == position && r.velocity == v
      && run.runDistance <= r.runDistance
      && 0.0 <= r.spaceGained && 0.0 <= r.defensiveDisruption && 0.0 <= r.threatScore <= 1.0
      && r.isActive == run.isActive && r.endTime == run.endTime
  {
    var moved := run.(currentPosition := position, velocity := v, runDistance := run.runDistance + Dist(m, run.currentPosition, position));
    SpaceGainedFacts(m, run.startPosition, position, defenders);
    DisruptionFacts(m, moved, defenders);
    ThreatScoreBounds(m, fieldLength, fieldWidth, position, v, defenders);
  }

  /** A run ends when the player slows below the run speed or has been running too long. */
  predicate Ends(m: Math, run: OffBallRun, v: Point, t: real)
    requires Lawful(m)
  {
    Speed(m, v) * 3.6 < MinRunVelocity || t - run.startTime > MaxRunDuration
  }

  /** `detect_run_start` for a player without an active run. */
  predicate Starts(m: Math, v: Point)
    requires Lawful(m)
  {
    Speed(m, v) * 3.6 >= MinRunVelocity
  }

  function NewRun(m: Math, fieldLength: real, fieldWidth: real, id: int, t: real, position: Point, v: Point, defenders: seq<Point>): OffBallRun
    requires Lawful(m) && 0.0 < fieldLength
  {
    OffBallRun(id, t, None, position, position, v, 0.0, 0.0, ThreatScore(m, fieldLength, fieldWidth, position, v, defenders),
               Penetrating, true, None, 0.0)
  }

  /** The run of `id` among `runs`, if any (the dictionary lookup). */
  function Find(runs: seq<OffBallRun>, id: int): (r: Option<OffBallRun>)
    ensures r.Some? <==> exists k :: 0 <= k < |runs| && runs[k].playerId == id
    ensures r.Some? ==> r.value in runs && r.value.playerId == id
  {
    if |runs| == 0 then None
    else if runs[0].playerId == id then Some(runs[0])
    else
      var r := Find(runs[1..], id);
      assert forall k :: 1 <= k < |runs| ==> runs[k] == runs[1..][k - 1];
      r
  }

  /** `[pos for pid, pos in player_positions if pid != player_id]` */
  function Teammates(players: seq<(int, Point)>, id: int): seq<Point>
  {
    if |players| == 0 then []
    else (if players[0].0 != id then [players[0].1] else []) + Teammates(players[1..], id)
  }

  function History<T>(h: map<int, seq<T>>, id: int): seq<T>
  {
    if id in h then h[id] else []
  }

  /** Pushing one sample for a player onto both histories keeps them in step and within the window. */
  lemma PushKeepsAgreement(positions: map<int, seq<Point>>, times: map<int, seq<real>>, id: int, p: Point, t: real)
    requires HistoriesAgree(positions, times)
    ensures HistoriesAgree(positions[id := Pushed(History(positions, id), p, HistoryWindow)],
                           times[id := Pushed(History(times, id), t, HistoryWindow)])
  {
  }

  /** The histories, the runs kept active so far in this frame, and the completed runs. */
  datatype FrameState = FrameState(positions: map<int, seq<Point>>, times: map<int, seq<real>>,
                                   update: seq<OffBallRun>, completed: seq<OffBallRun>)

  /** What happens to a player with a velocity: their run is kept, completed, or there is none. */
  datatype Outcome = Ongoing(run: OffBallRun) | Finished(run: OffBallRun) | NoRun

  /** The decision for a player who has an active run: it ends, or it goes on with the new sample. */
  function Continuing(m: Math, fieldLength: real, fieldWidth: real, previous: OffBallRun, id: int, position: Point, v: Point,
                      t: real, frame: seq<(int, Point)>, defenders: seq<Point>): Outcome
    requires Lawful(m) && 0.0 < fieldLength
  {
    var run := Continued(m, fieldLength, fieldWidth, previous, position, v, Teammates(frame, id), defenders);
    if Ends(m, run, v, t) then Finished(run.(isActive := false, endTime := Some(t))) else Ongoing(run)
  }

  /** The run decision of `analyze_frame` for player `id` at `position` with velocity `v`. */
  function Judge(m: Math, fieldLength: real, fieldWidth: real, active: seq<OffBallRun>, id: int, position: Point, v: Point,
                 t: real, frame: seq<(int, Point)>, defenders: seq<Point>): Outcome
    requires Lawful(m) && 0.0 < fieldLength
  {
    if Find(active, id).Some? then Continuing(m, fieldLength, fieldWidth, Find(active, id).value, id, position, v, t, frame, defenders)
    else if Starts(m, v) then Ongoing(NewRun(m, fieldLength, fieldWidth, id, t, position, v, defenders))
    else NoRun
  }

  predicate Fresh(r: OffBallRun)
  {
    r.isActive && r.endTime.None?
  }

  predicate CompletedRun(r: OffBallRun, t: real)
  {
    !r.isActive && r.endTime == Some(t)
  }

  /**
   * A run stays active only while the player keeps the run speed and the
   * run is not too long; it starts only at the run speed; a kept run is the
   * player's and open, a completed one is closed now.
   */
  lemma JudgeFacts(m: Math, fieldLength: real, fieldWidth: real, active: seq<OffBallRun>, id: int, position: Point, v: Point,
                   t: real, frame: seq<(int, Point)>, defenders: seq<Point>)
    requires Lawful(m) && 0.0 < fieldLength
    requires forall k :: 0 <= k < |active| ==> Fresh(active[k])
    ensures var o := Judge(m, fieldLength, fieldWidth, active, id, position, v, t, frame, defenders);
      && (o.Ongoing? ==> o.run.playerId == id && Fresh(o.run) && !Ends(m, o.run, v, t))
      && (o.Ongoing? && Find(active, id).None? ==> Starts(m, v) && o.run.startTime == t && o.run.startPosition == position)
      && (o.Ongoing? && Find(active, id).Some? ==> o.run.startTime == Find(active, id).value.startTime)
      && (o.Finished? ==> o.run.playerId == id && CompletedRun(o.run, t) && Find(active, id).Some?)
      && (o.NoRun? ==> Find(active, id).None? && !Starts(m, v))
  {
    if Find(active, id).Some? {
      ContinuedFacts(m, fieldLength, fieldWidth, Find(active, id).value, position, v, Teammates(frame, id), defenders);
    }
  }

  function Record(st: FrameState, o: Outcome): FrameState
  {
    match o
    case Ongoing(r) => st.(update := st.update + [r])
    case Finished(r) => st.(completed := st.completed + [r])
    case NoRun => st
  }

  /** Each player's position and time histories have the same length and never exceed the window. */
  predicate HistoriesAgree(positions: map<int, seq<Point>>, times: map<int, seq<real>>)
  {
    && positions.Keys == times.Keys
    && forall id :: id in positions ==> |positions[id]| == |times[id]| <= HistoryWindow
  }

  /** One player of the frame: the body of the loop in `analyze_frame`. */
  function Visit(m: Math, fieldLength: real, fieldWidth: real, active: seq<OffBallRun>, st: FrameState, t: real,
                 frame: seq<(int, Point)>, player: (int, Point), carrier: Option<int>, defenders: seq<Point>): (r: FrameState)
    requires Lawful(m) && 0.0 < fieldLength && HistoriesAgree(st.positions, st.times)
    ensures HistoriesAgree(r.positions, r.times)
  {
    var (id, position) := player;
    if carrier == Some(id) then st
    else
      var ps := Pushed(History(st.positions, id), position, HistoryWindow);
      var ts := Pushed(History(st.times, id), t, HistoryWindow);
      PushKeepsAgreement(st.positions, st.times, id, position, t);
      var st' := st.(positions := st.positions[id := ps], times := st.times[id := ts]);
      var v := SmoothVelocity(ps, ts);
      if v.None? then st'
      else Record(st', Judge(m, fieldLength, fieldWidth, active, id, position, v.value, t, frame, defenders))
  }

  /** `analyze_frame` over the first players of the frame. */
  function Frame(m: Math, fieldLength: real, fieldWidth: real, active: seq<OffBallRun>, st: FrameState, t: real,
                 frame: seq<(int, Point)>, players: seq<(int, Point)>, carrier: Option<int>, defenders: seq<Point>): (r: FrameState)
    requires Lawful(m) && 0.0 < fieldLength && HistoriesAgree(st.positions, st.times)
    ensures HistoriesAgree(r.positions, r.times)
    decreases |players|
  {
    if |players| == 0 then st
    else
      var n := |players| - 1;
      Visit(m, fieldLength, fieldWidth, active, Frame(m, fieldLength, fieldWidth, active, st, t, frame, players[..n], carrier, defenders),
            t, frame, players[n], carrier, defenders)
  }

  /** The ids of the players in the frame. */
  function Ids(players: seq<(int, Point)>): set<int>
  {
    if |players| == 0 then {} else Ids(players[..|players| - 1]) + {players[|players| - 1].0}
  }

  predicate ActiveRun(r: OffBallRun, players: seq<(int, Point)>, carrier: Option<int>)
  {
    Fresh(r) && carrier != Some(r.playerId) && r.playerId in Ids(players)
  }

  /** One visit adds at most one run, kept or completed, of that player, and a kept one is not the carrier's. */
  lemma VisitFacts(m: Math, fieldLength: real, fieldWidth: real, active: seq<OffBallRun>, st: FrameState, t: real,
                   frame: seq<(int, Point)>, player: (int, Point), carrier: Option<int>, defenders: seq<Point>)
    requires Lawful(m) && 0.0 < fieldLength && HistoriesAgree(st.positions, st.times)
    requires forall k :: 0 <= k < |active| ==> Fresh(active[k])
    ensures var r := Visit(m, fieldLength, fieldWidth, active, st, t, frame, player, carrier, defenders);
      && (r.update == st.update || (r.update == st.update + [r.update[|st.update|]]
            && carrier != Some(player.0) && r.update[|st.update|].playerId == player.0 && Fresh(r.update[|st.update|])))
      && (r.completed == st.completed || (r.completed == st.completed + [r.completed[|st.completed|]]
            && CompletedRun(r.completed[|st.completed|], t)))
  {
    var (id, position) := player;
    if carrier != Some(id) {
      var ps := Pushed(History(st.positions, id), position, HistoryWindow);
      var ts := Pushed(History(st.times, id), t, HistoryWindow);
      var v := SmoothVelocity(ps, ts);
      if v.Some? {
        JudgeFacts(m, fieldLength, fieldWidth, active, id, position, v.value, t, frame, defenders);
      }
    }
  }

  /**
   * After a frame every run kept active belongs to a player of the frame
   * who is not the ball carrier and is open; every run completed in the
   * frame is closed at the frame's time; earlier entries are untouched.
   */
  lemma FrameFacts(m: Math, fieldLength: real, fieldWidth: real, active: seq<OffBallRun>, st: FrameState, t: real,
                   frame: seq<(int, Point)>, players: seq<(int, Point)>, carrier: Option<int>, defenders: seq<Point>)
    requires Lawful(m) && 0.0 < fieldLength && HistoriesAgree(st.positions, st.times)
    requires forall k :: 0 <= k < |active| ==> Fresh(active[k])
    ensures var r := Frame(m, fieldLength, fieldWidth, active, st, t, frame, players, carrier, defenders);
      && |st.update| <= |r.update| && r.update[..|st.update|] == st.update
      && |st.completed| <= |r.completed| && r.completed[..|st.completed|] == st.completed
      && (forall k :: |st.update| <= k < |r.update| ==> ActiveRun(r.update[k], players, carrier))
      && (forall k :: |st.completed| <= k < |r.completed| ==> CompletedRun(r.completed[k], t))
  {
    FrameKeepsActive(m, fieldLength, fieldWidth, active, st, t, frame, players, carrier, defenders);
    FrameCompletes(m, fieldLength, fieldWidth, active, st, t, frame, players, carrier, defenders);
  }

  lemma {:induction false} FrameKeepsActive(m: Math, fieldLength: real, fieldWidth: real, active: seq<OffBallRun>, st: FrameState, t: real,
                                            frame: seq<(int, Point)>, players: seq<(int, Point)>, carrier: Option<int>, defenders: seq<Point>)
    requires Lawful(m) && 0.0 < fieldLength && HistoriesAgree(st.positions, st.times)
    requires forall k :: 0 <= k < |active| ==> Fresh(active[k])
    ensures var r := Frame(m, fieldLength, fieldWidth, active, st, t, frame, players, carrier, defenders);
      && |st.update| <= |r.update| && r.update[..|st.update|] == st.update
      && (forall k :: |st.update| <= k < |r.update| ==> ActiveRun(r.update[k], players, carrier))
    decreases |players|
  {
    if |players| != 0 {
      var n := |players| - 1;
      var before := Frame(m, fieldLength, fieldWidth, active, st, t, frame, players[..n], carrier, defenders);
      FrameKeepsActive(m, fieldLength, fieldWidth, active, st, t, frame, players[..n], carrier, defenders);
      VisitFacts(m, fieldLength, fieldWidth, active, before, t, frame, players[n], carrier, defenders);
      assert Ids(players) == Ids(players[..n]) + {players[n].0};
    }
  }

  lemma {:induction false} FrameCompletes(m: Math, fieldLength: real, fieldWidth: real, active: seq<OffBallRun>, st: FrameState, t: real,
                                          frame: seq<(int, Point)>, players: seq<(int, Point)>, carrier: Option<int>, defenders: seq<Point>)
    requires Lawful(m) && 0.0 < fieldLength && HistoriesAgree(st.positions, st.times)
    requires forall k :: 0 <= k < |active| ==> Fresh(active[k])
    ensures var r := Frame(m, fieldLength, fieldWidth, active, st, t, frame, players, carrier, defenders);
      && |st.completed| <= |r.completed| && r.completed[..|st.completed|] == st.completed
      && (forall k :: |st.completed| <= k < |r.completed| ==> CompletedRun(r.completed[k], t))
    decreases |players|
  {
    if |players| != 0 {
      var n := |players| - 1;
      var before := Frame(m, fieldLength, fieldWidth, active, st, t, frame, players[..n], carrier, defenders);
      FrameCompletes(m, fieldLength, fieldWidth, active, st, t, frame, players[..n], carrier, defenders);
      VisitFacts(m, fieldLength, fieldWidth, active, before, t, frame, players[n], carrier, defenders);
    }
  }

  // ---------------------------------------------------------------------------
  // `get_run_statistics`

  function RunsOfType(runs: seq<OffBallRun>, k: RunType): nat
  {
    if |runs| == 0 then 0 else (if runs[0].runType == k then 1 else 0) + RunsOfType(runs[1..], k)
  }

  lemma {:induction false} RunTypesPartitionRuns(runs: seq<OffBallRun>)
    ensures RunsOfType(runs, Penetrating) + RunsOfType(runs, Supporting) + RunsOfType(runs, Diversionary) == |runs|
    decreases |runs|
  {
    if |runs| != 0 {
      RunTypesPartitionRuns(runs[1..]);
    }
  }

  function RunsBy(runs: seq<OffBallRun>, id: int): nat
  {
    if |runs| == 0 then 0 else (if runs[0].playerId == id then 1 else 0) + RunsBy(runs[1..], id)
  }

  /**
   * `max(set(player ids), key=run count)`: a player with the most completed
   * runs; among equals, the first in the log.
   */
  function MostActivePlayer(runs: seq<OffBallRun>): (id: int)
    requires 0 < |runs|
    ensures exists k :: 0 <= k < |runs| && runs[k].playerId == id
    ensures forall k :: 0 <= k < |runs| ==> RunsBy(runs, runs[k].playerId) <= RunsBy(runs, id)
  {
    var counts := seq(|runs|, k requires 0 <= k < |runs| => RunsBy(runs, runs[k].playerId) as real);
    var i := ArgMax(counts);
    assert forall k :: 0 <= k < |runs| ==> counts[k] <= counts[i] && counts[k] == RunsBy(runs, runs[k].playerId) as real;
    runs[i].playerId
  }

  datatype RunDetails = RunDetails(avgSpaceGained: real, avgDefensiveDisruption: real, avgRunDuration: real, mostActivePlayer: int)

  datatype RunStats = RunStats(totalRuns: nat, avgRunDistance: real, avgThreatScore: real,
                               penetrating: nat, supporting: nat, diversionary: nat, details: Option<RunDetails>)

  /** `get_run_statistics()`: zeros and no details without completed runs; the run types add up to the total. */
  function RunStatsOf(runs: seq<OffBallRun>): (r: RunStats)
    requires forall k :: 0 <= k < |runs| ==> runs[k].endTime.Some?
    ensures r.totalRuns == |runs| && r.penetrating + r.supporting + r.diversionary == |runs|
    ensures r.details.None? <==> |runs| == 0
    ensures |runs| == 0 ==> r.avgRunDistance == 0.0 && r.avgThreatScore == 0.0
  {
    RunTypesPartitionRuns(runs);
    if |runs| == 0 then RunStats(0, 0.0, 0.0, 0, 0, 0, None)
    else
      RunStats(|runs|,
        Mean(seq(|runs|, k requires 0 <= k < |runs| => runs[k].runDistance)),
        Mean(seq(|runs|, k requires 0 <= k < |runs| => runs[k].threatScore)),
        RunsOfType(runs, Penetrating), RunsOfType(runs, Supporting), RunsOfType(runs, Diversionary),
        Some(RunDetails(
          Mean(seq(|runs|, k requires 0 <= k < |runs| => runs[k].spaceGained)),
          Mean(seq(|runs|, k requires 0 <= k < |runs| => runs[k].defensiveDisruption)),
          Mean(seq(|runs|, k requires 0 <= k < |runs| => runs[k].endTime.value - runs[k].startTime)),
          MostActivePlayer(runs))))
  }

  /** `get_high_threat_runs`: the completed runs at or above the threshold, in order. */
  function HighThreatRuns(runs: seq<OffBallRun>, threshold: real): (r: seq<OffBallRun>)
    ensures forall k :: 0 <= k < |r| ==> r[k] in runs && threshold <= r[k].threatScore
    ensures forall k :: 0 <= k < |runs| && threshold <= runs[k].threatScore ==> runs[k] in r
  {
    if |runs| == 0 then []
    else
      assert forall k :: 1 <= k < |runs| ==> runs[k] == runs[1..][k - 1];
      (if threshold <= runs[0].threatScore then [runs[0]] else []) + HighThreatRuns(runs[1..], threshold)
  }

  // ---------------------------------------------------------------------------
  // The analyzer

  class OffBallRunsAnalyzer {
    const math: Math
    const fieldLength: real
    const fieldWidth: real
    /** `active_runs`, in the dictionary's order. */
    var activeRuns: seq<OffBallRun>
    var completedRuns: seq<OffBallRun>
    var positionHistory: map<int, seq<Point>>
    var timeHistory: map<int, seq<real>>

    ghost predicate Valid()
      reads this
    {
      Lawful(math) && 0.0 < fieldLength && Kept()
    }

    /** The histories agree, active runs are open, completed runs are closed. */
    ghost predicate Kept()
      reads this
    {
      && HistoriesAgree(positionHistory, timeHistory)
      && (forall k :: 0 <= k < |activeRuns| ==> Fresh(activeRuns[k]))
      && (forall k :: 0 <= k < |completedRuns| ==> !completedRuns[k].isActive && completedRuns[k].endTime.Some?)
    }

    constructor(m: Math, length: real, width: real)
      requires Lawful(m) && 0.0 < length
      ensures Valid() && math == m && fieldLength == length && fieldWidth == width
      ensures activeRuns == [] && completedRuns == [] && positionHistory == map[] && timeHistory == map[]
    {
      math, fieldLength, fieldWidth := m, length, width;
      activeRuns, completedRuns := [], [];
      positionHistory, timeHistory := map[], map[];
    }

    /** `update_position_history`: both histories slide by one sample, keeping the last `history_window`. */
    method UpdatePositionHistory(id: int, position: Point, t: real)
      requires HistoriesAgree(positionHistory, timeHistory)
      modifies this
      ensures HistoriesAgree(positionHistory, timeHistory)
      ensures positionHistory == old(positionHistory)[id := Pushed(History(old(positionHistory), id), position, HistoryWindow)]
      ensures timeHistory == old(timeHistory)[id := Pushed(History(old(timeHistory), id), t, HistoryWindow)]
      ensures activeRuns == old(activeRuns) && completedRuns == old(completedRuns)
    {
      var positions, times := positionHistory, timeHistory;
      if id !in positions {
        positions := positions[id := []];
        times := times[id := []];
      }
      var ps := positions[id] + [position];
      var ts := times[id] + [t];
      if |ps| > HistoryWindow {
        ps := ps[1..];
        ts := ts[1..];
      }
      assert ps == Pushed(History(positionHistory, id), position, HistoryWindow);
      assert ts == Pushed(History(timeHistory, id), t, HistoryWindow);
      PushKeepsAgreement(positionHistory, timeHistory, id, position, t);
      positionHistory, timeHistory := positions[id := ps], times[id := ts];
    }

    /** `calculate_smooth_velocity(player_id)` */
    method CalculateSmoothVelocity(id: int) returns (v: Option<Point>)
      requires HistoriesAgree(positionHistory, timeHistory)
      ensures v == SmoothVelocity(History(positionHistory, id), History(timeHistory, id))
    {
      var ps := History(positionHistory, id);
      var ts := History(timeHistory, id);
      if |ps| < 2 {
        return None;
      }
      var vs := StepVelocities(ps, ts);
      if |vs| == 0 {
        return None;
      }
      var smoothed := SmoothPositions(vs, VelocitySmoothingWindow).value;
      v := Some(smoothed[|smoothed| - 1]);
    }

    /** The loop body of `analyze_frame` for one player; `update` holds the runs kept so far. */
    method VisitPlayer(t: real, players: seq<(int, Point)>, player: (int, Point), carrier: Option<int>, defenders: seq<Point>,
                       update: seq<OffBallRun>)
      returns (update': seq<OffBallRun>)
      requires Valid()
      modifies this
      ensures Valid() && activeRuns == old(activeRuns)
      ensures FrameState(positionHistory, timeHistory, update', completedRuns)
              == Visit(math, fieldLength, fieldWidth, activeRuns,
                       FrameState(old(positionHistory), old(timeHistory), update, old(completedRuns)),
                       t, players, player, carrier, defenders)
    {
      update' := update;
      var (id, position) := player;
      if carrier != Some(id) {
        UpdatePositionHistory(id, position, t);
        var v := CalculateSmoothVelocity(id);
        if v.Some? {
          update' := Decide(id, position, v.value, t, players, defenders, update);
        }
      }
    }

    /** The run decision for a player with a velocity: continue or complete their run, or start one. */
    method Decide(id: int, position: Point, v: Point, t: real, players: seq<(int, Point)>, defenders: seq<Point>,
                  update: seq<OffBallRun>)
      returns (update': seq<OffBallRun>)
      requires Valid()
      modifies this
      ensures Valid() && activeRuns == old(activeRuns)
      ensures positionHistory == old(positionHistory) && timeHistory == old(timeHistory)
      ensures FrameState(positionHistory, timeHistory, update', completedRuns)
              == Record(FrameState(positionHistory, timeHistory, update, old(completedRuns)),
                        Judge(math, fieldLength, fieldWidth, activeRuns, id, position, v, t, players, defenders))
    {
      update' := update;
      var previous := Find(activeRuns, id);
      if previous.Some? {
        update' := Continue(previous.value, id, position, v, t, players, defenders, update);
      } else if Starts(math, v) {
        update' := update + [NewRun(math, fieldLength, fieldWidth, id, t, position, v, defenders)];
      }
    }

    /** A player's active run either ends and is completed, or is kept with the new sample. */
    method Continue(previous: OffBallRun, id: int, position: Point, v: Point, t: real, players: seq<(int, Point)>,
                    defenders: seq<Point>, update: seq<OffBallRun>)
      returns (update': seq<OffBallRun>)
      requires Valid()
      modifies this
      ensures Valid() && activeRuns == old(activeRuns)
      ensures positionHistory == old(positionHistory) && timeHistory == old(timeHistory)
      ensures FrameState(positionHistory, timeHistory, update', completedRuns)
              == Record(FrameState(positionHistory, timeHistory, update, old(completedRuns)),
                        Continuing(math, fieldLength, fieldWidth, previous, id, position, v, t, players, defenders))
    {
      update' := update;
      ghost var o := Continuing(math, fieldLength, fieldWidth, previous, id, position, v, t, players, defenders);
      var run := Continued(math, fieldLength, fieldWidth, previous, position, v, Teammates(players, id), defenders);
      if Ends(math, run, v, t) {
        var closed := run.(isActive := false, endTime := Some(t));
        assert o == Finished(closed);
        Complete(closed);
      } else {
        assert o == Ongoing(run);
        update' := update + [run];
      }
    }

    /** Moves a closed run to `completed_runs`. */
    method Complete(run: OffBallRun)
      requires Valid() && !run.isActive && run.endTime.Some?
      modifies this
      ensures Valid() && completedRuns == old(completedRuns) + [run]
      ensures activeRuns == old(activeRuns) && positionHistory == old(positionHistory) && timeHistory == old(timeHistory)
    {
      completedRuns := completedRuns + [run];
    }

    /**
     * `analyze_frame`: visits the players in order; the new active runs are
     * those kept or started in this frame, so a player missing from the
     * frame, without a velocity, or carrying the ball loses an active run.
     */
    method AnalyzeFrame(t: real, players: seq<(int, Point)>, carrier: Option<int>, defenders: seq<Point>)
      returns (runs: seq<OffBallRun>)
      requires Valid()
      modifies this
      ensures Valid()
      ensures var f := Frame(math, fieldLength, fieldWidth, old(activeRuns),
                             FrameState(old(positionHistory), old(timeHistory), [], old(completedRuns)),
                             t, players, players, carrier, defenders);
        && positionHistory == f.positions && timeHistory == f.times
        && activeRuns == f.update && completedRuns == f.completed && runs == activeRuns
      ensures forall k :: 0 <= k < |activeRuns| ==> ActiveRun(activeRuns[k], players, carrier)
      ensures |old(completedRuns)| <= |completedRuns| && completedRuns[..|old(completedRuns)|] == old(completedRuns)
      ensures forall k :: |old(completedRuns)| <= k < |completedRuns| ==> CompletedRun(completedRuns[k], t)
    {
      ghost var start := FrameState(positionHistory, timeHistory, [], completedRuns);
      FrameFacts(math, fieldLength, fieldWidth, activeRuns, start, t, players, players, carrier, defenders);
      var update := VisitAll(t, players, carrier, defenders);
      activeRuns := update;
      runs := update;
    }

    /** The loop of `analyze_frame` over the frame's players, building the new active runs. */
    method VisitAll(t: real, players: seq<(int, Point)>, carrier: Option<int>, defenders: seq<Point>)
      returns (update: seq<OffBallRun>)
      requires Valid()
      modifies this
      ensures Valid() && activeRuns == old(activeRuns)
      ensures FrameState(positionHistory, timeHistory, update, completedRuns)
              == Frame(math, fieldLength, fieldWidth, activeRuns,
                       FrameState(old(positionHistory), old(timeHistory), [], old(completedRuns)),
                       t, players, players, carrier, defenders)
    {
      ghost var start := FrameState(positionHistory, timeHistory, [], completedRuns);
      update := [];
      var i := 0;
      while i < |players|
        invariant i <= |players| && Valid() && activeRuns == old(activeRuns)
        invariant FrameState(positionHistory, timeHistory, update, completedRuns)
                  == Frame(math, fieldLength, fieldWidth, activeRuns, start, t, players, players[..i], carrier, defenders)
      {
        update := VisitPlayer(t, players, players[i], carrier, defenders, update);
        assert players[..i + 1][..i] == players[..i];
        i := i + 1;
      }
      assert players[..i] == players;
    }

    /** `get_run_statistics()` */
    function GetRunStatistics(): (r: RunStats)
      requires Valid()
      reads this
      ensures r.totalRuns == |completedRuns| == r.penetrating + r.supporting + r.diversionary
    {
      RunStatsOf(completedRuns)
    }

    /** `clear_history`: forgets every run and every history. */
    method ClearHistory()
      requires Valid()
      modifies this
      ensures Valid()
      ensures activeRuns == [] && completedRuns == [] && positionHistory == map[] && timeHistory == map[]
    {
      completedRuns, activeRuns := [], [];
      positionHistory, timeHistory := map[], map[];
    }
  }
}
