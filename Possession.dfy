/**
 * The ball-possession engine: who holds the ball in a frame (home is asked
 * before away), which third of the pitch the ball is in, an event log of
 * possession episodes that keeps an episode only when it lasted long
 * enough, and the percentages computed over that log.
 */
module Possession {
  import opened Numerics

  datatype Zone = Defensive | Middle | Attacking

  /** `(team, player_id)`; `Loose` is the `('none', -1)` answer. */
  datatype Holder = Holds(team: Team, playerId: int) | Loose

  /** The third of the pitch the ball is in, seen from `team`'s attacking direction. */
  function DetermineZone(fieldLength: real, y: real, team: Team): (z: Zone)
    ensures z == Middle <==> fieldLength / 3.0 <= y < 2.0 * fieldLength / 3.0
    ensures y < fieldLength / 3.0 ==> z == (if team == Home then Defensive else Attacking)
    ensures fieldLength / 3.0 <= y && 2.0 * fieldLength / 3.0 <= y ==>
              z == (if team == Home then Attacking else Defensive)
  {
    if team == Home then
      if y < fieldLength / 3.0 then Defensive
      else if y < 2.0 * fieldLength / 3.0 then Middle
      else Attacking
    else
      if y < fieldLength / 3.0 then Attacking
      else if y < 2.0 * fieldLength / 3.0 then Middle
      else Defensive
  }

  function Mirror(z: Zone): Zone
  {
    match z
    case Defensive => Attacking
    case Middle => Middle
    case Attacking => Defensive
  }

  /** The away team's zones are the home team's with the two ends swapped. */
  lemma AwayZoneMirrorsHome(fieldLength: real, y: real)
    ensures DetermineZone(fieldLength, y, Away) == Mirror(DetermineZone(fieldLength, y, Home))
    ensures Mirror(Mirror(DetermineZone(fieldLength, y, Home))) == DetermineZone(fieldLength, y, Home)
  {
  }

  function Rank(z: Zone): nat
  {
    match z
    case Defensive => 0
    case Middle => 1
    case Attacking => 2
  }

  /** On a pitch of non-negative length, a ball further up the pitch is never in a lower home zone. */
  lemma HomeZoneMonotone(fieldLength: real, y1: real, y2: real)
    requires 0.0 <= fieldLength
    requires y1 <= y2
    ensures Rank(DetermineZone(fieldLength, y1, Home)) <= Rank(DetermineZone(fieldLength, y2, Home))
  {
  }

  predicate WithinRadius(m: Math, radius: real, ball: Point, ps: seq<Player>)
    requires Lawful(m)
  {
    exists i :: 0 <= i < |ps| && Dist(m, ball, ps[i].pos) <= radius
  }

  /** `ps[i]` is the first player attaining the smallest distance to the ball. */
  predicate FirstNearest(m: Math, ball: Point, ps: seq<Player>, i: int)
    requires Lawful(m)
  {
    && 0 <= i < |ps|
    && (forall j :: 0 <= j < |ps| ==> Dist(m, ball, ps[i].pos) <= Dist(m, ball, ps[j].pos))
    && (forall j :: 0 <= j < i ==> Dist(m, ball, ps[i].pos) < Dist(m, ball, ps[j].pos))
  }

  function NearestIndex(m: Math, ball: Point, ps: seq<Player>): nat
    requires Lawful(m) && |ps| > 0
  {
    ArgMin(DistancesFrom(m, ball, Positions(ps)))
  }

  /** The smallest distance is within the radius iff some player is, and `np.argmin` picks the first nearest. */
  lemma NearestIndexFacts(m: Math, radius: real, ball: Point, ps: seq<Player>)
    requires Lawful(m) && |ps| > 0
    ensures FirstNearest(m, ball, ps, NearestIndex(m, ball, ps))
    ensures Dist(m, ball, ps[NearestIndex(m, ball, ps)].pos) <= radius <==> WithinRadius(m, radius, ball, ps)
  {
    var d := DistancesFrom(m, ball, Positions(ps));
    var k := ArgMin(d);
    assert forall j :: 0 <= j < |ps| ==> d[j] == Dist(m, ball, ps[j].pos);
    if WithinRadius(m, radius, ball, ps) {
      var i :| 0 <= i < |ps| && Dist(m, ball, ps[i].pos) <= radius;
      assert d[k] <= d[i];
    }
  }

  /**
   * `find_possessing_player`. `None` when either list is empty: `cdist`
   * refuses an empty point list and `np.min` an empty array, and both raise.
   */
  function FindPossessingPlayer(m: Math, radius: real, ball: Point, home: seq<Player>, away: seq<Player>): (r: Option<Holder>)
    requires Lawful(m)
    ensures r.None? <==> |home| == 0 || |away| == 0
    ensures r.Some? ==> ((r.value.Holds? && r.value.team == Home) <==> WithinRadius(m, radius, ball, home))
    ensures r.Some? ==> ((r.value.Holds? && r.value.team == Away) <==>
              !WithinRadius(m, radius, ball, home) && WithinRadius(m, radius, ball, away))
    ensures r.Some? && r.value.Holds? && r.value.team == Home ==>
              exists i :: FirstNearest(m, ball, home, i) && r.value.playerId == home[i].id
    ensures r.Some? && r.value.Holds? && r.value.team == Away ==>
              exists i :: FirstNearest(m, ball, away, i) && r.value.playerId == away[i].id
  {
    if |home| == 0 || |away| == 0 then None
    else
      var i := NearestIndex(m, ball, home);
      var j := NearestIndex(m, ball, away);
      NearestIndexFacts(m, radius, ball, home);
      NearestIndexFacts(m, radius, ball, away);
      if Dist(m, ball, home[i].pos) <= radius then Some(Holds(Home, home[i].id))
      else if Dist(m, ball, away[j].pos) <= radius then Some(Holds(Away, away[j].id))
      else Some(Loose)
  }

  datatype PossessionEvent = PossessionEvent(
    timestamp: real,
    ballPosition: Point,
    team: Team,
    playerId: int,
    zone: Zone,
    duration: real,
    distanceCovered: real)

  /** Configuration read from the YAML file. */
  datatype Config = Config(fieldLength: real, controlRadius: real, minPossessionDuration: real)

  /** The analyzer's fields, as one value. */
  datatype PossessionState = PossessionState(
    events: seq<PossessionEvent>,
    current: Option<PossessionEvent>,
    previousBall: Option<Point>,
    teamPossession: map<Team, real>,
    zonePossession: map<Zone, real>)

  /** What `analyze_possession` returns; `zone` is `None` for the `'none'` zone. */
  datatype FrameReport = FrameReport(holder: Holder, zone: Option<Zone>, distanceCovered: real)

  function InitialState(): PossessionState
  {
    PossessionState([], None, None, map[Home := 0.0, Away := 0.0],
                    map[Defensive := 0.0, Middle := 0.0, Attacking := 0.0])
  }

  function Opened(t: real, ball: Point, team: Team, id: int, zone: Zone): PossessionEvent
  {
    PossessionEvent(t, ball, team, id, zone, 0.0, 0.0)
  }

  /**
   * The state machine of `analyze_possession` once the holder and the ball's
   * step are known.
   */
  function Advance(cfg: Config, s: PossessionState, holder: Holder, t: real, ball: Point, moved: real): PossessionState
  {
    var s' :=
      match holder
      case Loose =>
        if s.current.None? then s
        else
          var cur := s.current.value;
          var logged := if t - cur.timestamp >= cfg.minPossessionDuration then [cur] else [];
          s.(events := s.events + logged, current := None)
      case Holds(team, id) =>
        var zone := DetermineZone(cfg.fieldLength, ball.y, team);
        if s.current.None? then
          s.(current := Some(Opened(t, ball, team, id, zone)))
        else if s.current.value.team == team then
          var cur := s.current.value;
          var duration := t - cur.timestamp;
          var cur' := cur.(duration := duration, distanceCovered := cur.distanceCovered + moved);
          if duration >= cfg.minPossessionDuration then
            s.(current := Some(cur'),
               teamPossession := s.teamPossession[team := duration],
               zonePossession := s.zonePossession[zone := duration])
          else
            s.(current := Some(cur'))
        else
          var cur := s.current.value;
          var logged := if cur.duration >= cfg.minPossessionDuration then [cur] else [];
          s.(events := s.events + logged, current := Some(Opened(t, ball, team, id, zone)));
    s'.(previousBall := Some(ball))
  }

  /**
   * `analyze_possession` on the analyzer's state as a value: the new state
   * and the report, or `None` when finding the holder raises, before any
   * field is written.
   */
  function Step(m: Math, cfg: Config, s: PossessionState, t: real, ball: Point,
                home: seq<Player>, away: seq<Player>): Option<(PossessionState, FrameReport)>
    requires Lawful(m)
  {
    match FindPossessingPlayer(m, cfg.controlRadius, ball, home, away)
    case None => None
    case Some(holder) =>
      var moved := if s.previousBall.Some? then Dist(m, ball, s.previousBall.value) else 0.0;
      var zone := if holder.Holds? then Some(DetermineZone(cfg.fieldLength, ball.y, holder.team)) else None;
      Some((Advance(cfg, s, holder, t, ball, moved), FrameReport(holder, zone, moved)))
  }

  /** The log is append-only and grows by at most one event per frame. */
  lemma AdvanceAppendsAtMostOne(cfg: Config, s: PossessionState, holder: Holder, t: real, ball: Point, moved: real)
    ensures var s' := Advance(cfg, s, holder, t, ball, moved);
      && s.events <= s'.events
      && |s'.events| <= |s.events| + 1
      && s'.previousBall == Some(ball)
  {
  }

  /** A frame for the team already in possession extends the episode and keeps its player and zone. */
  lemma SameTeamExtends(cfg: Config, s: PossessionState, holder: Holder, t: real, ball: Point, moved: real)
    requires s.current.Some? && holder.Holds? && holder.team == s.current.value.team
    ensures var s' := Advance(cfg, s, holder, t, ball, moved);
      var cur, cur' := s.current.value, s'.current.value;
      && s'.current.Some?
      && s'.events == s.events
      && cur'.duration == t - cur.timestamp
      && cur'.distanceCovered == cur.distanceCovered + moved
      && cur'.playerId == cur.playerId && cur'.zone == cur.zone
      && cur'.timestamp == cur.timestamp && cur'.team == cur.team
  {
  }

  /**
   * A change of team logs the old episode exactly when its STORED duration
   * reached the minimum, and opens a fresh episode with zero duration and distance.
   */
  lemma TeamChangeLogsAndReopens(cfg: Config, s: PossessionState, holder: Holder, t: real, ball: Point, moved: real)
    requires s.current.Some? && holder.Holds? && holder.team != s.current.value.team
    ensures var s' := Advance(cfg, s, holder, t, ball, moved);
      && (s.current.value.duration >= cfg.minPossessionDuration ==> s'.events == s.events + [s.current.value])
      && (s.current.value.duration < cfg.minPossessionDuration ==> s'.events == s.events)
      && s'.current == Some(PossessionEvent(t, ball, holder.team, holder.playerId,
                                            DetermineZone(cfg.fieldLength, ball.y, holder.team), 0.0, 0.0))
  {
  }

  /**
   * Losing the ball logs the episode when the time elapsed SINCE ITS START
   * (not its stored duration) reached the minimum, and always clears it.
   */
  lemma LossLogsOnElapsedTime(cfg: Config, s: PossessionState, t: real, ball: Point, moved: real)
    ensures var s' := Advance(cfg, s, Loose, t, ball, moved);
      && s'.current.None?
      && (s.current.None? ==> s'.events == s.events)
      && (s.current.Some? && t - s.current.value.timestamp >= cfg.minPossessionDuration ==>
            s'.events == s.events + [s.current.value])
      && (s.current.Some? && t - s.current.value.timestamp < cfg.minPossessionDuration ==>
            s'.events == s.events)
  {
  }

  /** A logged event may carry a stored duration below the minimum: loss tests elapsed time instead. */
  lemma LossCanLogShortStoredDuration()
    ensures
      var cfg := Config(105.0, 1.0, 1.0);
      var ev := PossessionEvent(0.0, Point(0.0, 0.0), Home, 7, Defensive, 0.0, 0.0);
      var s := InitialState().(current := Some(ev));
      var s' := Advance(cfg, s, Loose, 5.0, Point(50.0, 50.0), 0.0);
      s'.events == [ev] && ev.duration < cfg.minPossessionDuration
  {
  }

  // ---------------------------------------------------------------------------
  // Statistics over the log (`get_possession_stats` without a time window)

  function TotalTime(events: seq<PossessionEvent>): real
  {
    if |events| == 0 then 0.0 else TotalTime(events[..|events| - 1]) + events[|events| - 1].duration
  }

  function TeamTime(events: seq<PossessionEvent>, team: Team): real
  {
    if |events| == 0 then 0.0
    else TeamTime(events[..|events| - 1], team) +
         (if events[|events| - 1].team == team then events[|events| - 1].duration else 0.0)
  }

  function ZoneTime(events: seq<PossessionEvent>, zone: Zone): real
  {
    if |events| == 0 then 0.0
    else ZoneTime(events[..|events| - 1], zone) +
         (if events[|events| - 1].zone == zone then events[|events| - 1].duration else 0.0)
  }

  function TeamCount(events: seq<PossessionEvent>, team: Team): nat
  {
    if |events| == 0 then 0
    else TeamCount(events[..|events| - 1], team) + (if events[|events| - 1].team == team then 1 else 0)
  }

  lemma {:induction false} TeamTimesPartitionTotal(events: seq<PossessionEvent>)
    ensures TeamTime(events, Home) + TeamTime(events, Away) == TotalTime(events)
    ensures TeamCount(events, Home) + TeamCount(events, Away) == |events|
  {
    if |events| != 0 {
      TeamTimesPartitionTotal(events[..|events| - 1]);
    }
  }

  lemma {:induction false} ZoneTimesPartitionTotal(events: seq<PossessionEvent>)
    ensures ZoneTime(events, Defensive) + ZoneTime(events, Middle) + ZoneTime(events, Attacking) == TotalTime(events)
  {
    if |events| != 0 {
      ZoneTimesPartitionTotal(events[..|events| - 1]);
    }
  }

  datatype PlayerTime = PlayerTime(team: Team, playerId: int, time: real)

  function TallyTotal(tally: seq<PlayerTime>): real
  {
    if |tally| == 0 then 0.0 else tally[0].time + TallyTotal(tally[1..])
  }

  function KeySet(tally: seq<PlayerTime>): set<(Team, int)>
  {
    if |tally| == 0 then {} else {(tally[0].team, tally[0].playerId)} + KeySet(tally[1..])
  }

  /** Every (team, player) key appears once, as in a dict. */
  predicate DistinctKeys(tally: seq<PlayerTime>)
  {
    |tally| == 0 ||
    ((tally[0].team, tally[0].playerId) !in KeySet(tally[1..]) && DistinctKeys(tally[1..]))
  }

  /** `player_possession[key] += d`, creating the key at the end of the dict when it is new. */
  function AddTime(tally: seq<PlayerTime>, team: Team, id: int, d: real): (r: seq<PlayerTime>)
    ensures TallyTotal(r) == TallyTotal(tally) + d
    ensures KeySet(r) == KeySet(tally) + {(team, id)}
    ensures DistinctKeys(tally) ==> DistinctKeys(r)
  {
    if |tally| == 0 then [PlayerTime(team, id, d)]
    else if tally[0].team == team && tally[0].playerId == id then
      var r := [tally[0].(time := tally[0].time + d)] + tally[1..];
      assert r[1..] == tally[1..];
      r
    else
      var r := [tally[0]] + AddTime(tally[1..], team, id, d);
      assert r[1..] == AddTime(tally[1..], team, id, d);
      r
  }

  /** The `player_possession` dict of the stats, in insertion order. */
  function PlayerPossession(events: seq<PossessionEvent>): seq<PlayerTime>
  {
    if |events| == 0 then []
    else
      var e := events[|events| - 1];
      AddTime(PlayerPossession(events[..|events| - 1]), e.team, e.playerId, e.duration)
  }

  /** Per-player times sum to the total time and each (team, player) appears once. */
  lemma {:induction false} PlayerPossessionSumsToTotal(events: seq<PossessionEvent>)
    ensures TallyTotal(PlayerPossession(events)) == TotalTime(events)
    ensures DistinctKeys(PlayerPossession(events))
  {
    if |events| != 0 {
      PlayerPossessionSumsToTotal(events[..|events| - 1]);
    }
  }

  datatype PossessionStats = PossessionStats(
    teamPercent: map<Team, real>,
    zonePercent: map<Zone, real>,
    playerPossession: seq<PlayerTime>,
    totalTime: real,
    counts: map<Team, nat>)

  /** `get_possession_stats()`; `None` is the empty dict. */
  function PossessionStatsOf(events: seq<PossessionEvent>): (r: Option<PossessionStats>)
    ensures r.None? <==> |events| == 0 || TotalTime(events) == 0.0
    ensures r.Some? ==> r.value.totalTime == TotalTime(events) && r.value.totalTime != 0.0
  {
    if |events| == 0 then None
    else
      var total := TotalTime(events);
      if total == 0.0 then None
      else
        Some(PossessionStats(
          map[Home := TeamTime(events, Home) / total * 100.0,
              Away := TeamTime(events, Away) / total * 100.0],
          map[Defensive := ZoneTime(events, Defensive) / total * 100.0,
              Middle := ZoneTime(events, Middle) / total * 100.0,
              Attacking := ZoneTime(events, Attacking) / total * 100.0],
          PlayerPossession(events),
          total,
          map[Home := TeamCount(events, Home), Away := TeamCount(events, Away)]))
  }

  /**
   * Whenever the stats exist: team shares and zone shares each add up to
   * 100, per-player times add up to the total and the two counts add up to
   * the number of logged events.
   */
  lemma StatsAreConsistent(events: seq<PossessionEvent>)
    requires PossessionStatsOf(events).Some?
    ensures var st := PossessionStatsOf(events).value;
      && st.teamPercent[Home] + st.teamPercent[Away] == 100.0
      && st.zonePercent[Defensive] + st.zonePercent[Middle] + st.zonePercent[Attacking] == 100.0
      && TallyTotal(st.playerPossession) == st.totalTime
      && st.counts[Home] + st.counts[Away] == |events|
  {
    TeamSharesAddUp(events);
    ZoneSharesAddUp(events);
    TeamTimesPartitionTotal(events);
    PlayerPossessionSumsToTotal(events);
  }

  lemma TeamSharesAddUp(events: seq<PossessionEvent>)
    requires PossessionStatsOf(events).Some?
    ensures var st := PossessionStatsOf(events).value;
      st.teamPercent[Home] + st.teamPercent[Away] == 100.0
  {
    var total := TotalTime(events);
    var st := PossessionStatsOf(events).value;
    TeamTimesPartitionTotal(events);
    PercentagesOfParts(TeamTime(events, Home), TeamTime(events, Away), 0.0, total);
    assert st.teamPercent[Home] == TeamTime(events, Home) / total * 100.0;
    assert st.teamPercent[Away] == TeamTime(events, Away) / total * 100.0;
  }

  lemma ZoneSharesAddUp(events: seq<PossessionEvent>)
    requires PossessionStatsOf(events).Some?
    ensures var st := PossessionStatsOf(events).value;
      st.zonePercent[Defensive] + st.zonePercent[Middle] + st.zonePercent[Attacking] == 100.0
  {
    var total := TotalTime(events);
    var st := PossessionStatsOf(events).value;
    ZoneTimesPartitionTotal(events);
    PercentagesOfParts(ZoneTime(events, Defensive), ZoneTime(events, Middle), ZoneTime(events, Attacking), total);
    assert st.zonePercent[Defensive] == ZoneTime(events, Defensive) / total * 100.0;
    assert st.zonePercent[Middle] == ZoneTime(events, Middle) / total * 100.0;
    assert st.zonePercent[Attacking] == ZoneTime(events, Attacking) / total * 100.0;
  }

  // ---------------------------------------------------------------------------
  // `data_possesion_flow`

  datatype FlowItem = FlowItem(start: real, duration: real, color: string)

  /** Start index of Python's `s[-n:]`. */
  function SuffixStart(len: nat, n: int): (k: nat)
    ensures k <= len
    ensures n > 0 ==> len - k == if n < len then n else len
    ensures n == 0 ==> k == 0
  {
    if n > 0 then (if n < len then len - n else 0)
    else if -n < len then -n else len
  }

  /** The bar colour of a team's possession spell. */
  function ColorOf(team: Team): string
  {
    if team == Home then "team 1" else "team 2"
  }

  /** One bar per spell, its start measured from `origin`. */
  function FlowItems(selected: seq<PossessionEvent>, origin: real): (r: seq<FlowItem>)
    ensures |r| == |selected|
    ensures forall i :: 0 <= i < |r| ==>
      r[i] == FlowItem(selected[i].timestamp - origin, selected[i].duration, ColorOf(selected[i].team))
  {
    if |selected| == 0 then []
    else
      var e := selected[0];
      [FlowItem(e.timestamp - origin, e.duration, ColorOf(e.team))] + FlowItems(selected[1..], origin)
  }

  /** `data_possesion_flow(last_n_events)`; `None` when nothing has been logged. */
  function PossessionFlow(events: seq<PossessionEvent>, lastN: int): (r: Option<seq<FlowItem>>)
    ensures r.None? <==> |events| == 0
    ensures r.Some? && lastN > 0 ==> |r.value| == if lastN < |events| then lastN else |events|
    ensures r.Some? && lastN == 0 ==> |r.value| == |events|
    ensures r.Some? ==> |r.value| == |events| - SuffixStart(|events|, lastN)
    ensures r.Some? && |r.value| > 0 ==> r.value[0].start == 0.0
    ensures r.Some? ==> forall i :: 0 <= i < |r.value| ==>
      var e := events[SuffixStart(|events|, lastN) + i];
      && r.value[i].duration == e.duration
      && r.value[i].color == ColorOf(e.team)
  {
    if |events| == 0 then None
    else
      var k := SuffixStart(|events|, lastN);
      var selected := events[k..];
      assert forall i :: 0 <= i < |selected| ==> selected[i] == events[k + i];
      if |selected| == 0 then Some([])
      else Some(FlowItems(selected, selected[0].timestamp))
  }

  // ---------------------------------------------------------------------------
  // The analyzer object

  class BallPossessionAnalyzer {
    const math: Math
    const config: Config
    var possessionEvents: seq<PossessionEvent>
    var currentPossession: Option<PossessionEvent>
    var previousBallPosition: Option<Point>
    var teamPossession: map<Team, real>
    var zonePossession: map<Zone, real>

    function State(): PossessionState
      reads this
    {
      PossessionState(possessionEvents, currentPossession, previousBallPosition, teamPossession, zonePossession)
    }

    constructor (m: Math, config: Config)
      ensures math == m && this.config == config
      ensures State() == InitialState()
    {
      math := m;
      this.config := config;
      possessionEvents := [];
      currentPossession := None;
      previousBallPosition := None;
      teamPossession := map[Home := 0.0, Away := 0.0];
      zonePossession := map[Defensive := 0.0, Middle := 0.0, Attacking := 0.0];
    }

    /**
     * `analyze_possession`: `None`, with every field as it was, when a team
     * list is empty; otherwise the step of `Step`.
     */
    method AnalyzePossession(timestamp: real, ball: Point, home: seq<Player>, away: seq<Player>)
      returns (report: Option<FrameReport>)
      requires Lawful(math)
      modifies this
      ensures report.None? <==> |home| == 0 || |away| == 0
      ensures report.None? ==> unchanged(this)
      ensures report.Some? ==> Step(math, config, old(State()), timestamp, ball, home, away) == Some((State(), report.value))
    {
      var found := FindPossessingPlayer(math, config.controlRadius, ball, home, away);
      if found.None? {
        return None;
      }
      var holder := found.value;
      var distanceCovered := 0.0;
      if previousBallPosition.Some? {
        distanceCovered := Dist(math, ball, previousBallPosition.value);
      }
      UpdatePossession(holder, timestamp, ball, distanceCovered);
      var zone := if holder.Holds? then Some(DetermineZone(config.fieldLength, ball.y, holder.team)) else None;
      report := Some(FrameReport(holder, zone, distanceCovered));
    }

    /** The update part of `analyze_possession`, after the holder and the ball's step are known. */
    method UpdatePossession(holder: Holder, timestamp: real, ball: Point, distanceCovered: real)
      modifies this
      ensures State() == Advance(config, old(State()), holder, timestamp, ball, distanceCovered)
    {
      if holder.Holds? {
        var zone := DetermineZone(config.fieldLength, ball.y, holder.team);
        if currentPossession.None? {
          currentPossession := Some(Opened(timestamp, ball, holder.team, holder.playerId, zone));
        } else if currentPossession.value.team == holder.team {
          var duration := timestamp - currentPossession.value.timestamp;
          currentPossession := Some(currentPossession.value.(
            duration := duration,
            distanceCovered := currentPossession.value.distanceCovered + distanceCovered));
          if duration >= config.minPossessionDuration {
            teamPossession := teamPossession[holder.team := duration];
            zonePossession := zonePossession[zone := duration];
          }
        } else {
          if currentPossession.value.duration >= config.minPossessionDuration {
            possessionEvents := possessionEvents + [currentPossession.value];
          }
          currentPossession := Some(Opened(timestamp, ball, holder.team, holder.playerId, zone));
        }
      } else if currentPossession.Some? {
        var duration := timestamp - currentPossession.value.timestamp;
        if duration >= config.minPossessionDuration {
          possessionEvents := possessionEvents + [currentPossession.value];
        }
        currentPossession := None;
      }
      previousBallPosition := Some(ball);
    }
  }
}
