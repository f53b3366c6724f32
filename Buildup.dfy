/**
 * Build-up play of `Soccer_Analytics/core/buildup_analyzer.py`: a phase opens
 * when the ball is in the defensive third (the first third of the pitch's
 * length, along y) and none is open, follows the ball and the players in
 * possession, and ends when the ball reaches the final third (success) or
 * falls behind where the phase started; it is logged only when it lasted the
 * minimum duration.
 */
module Buildup {
  import opened Numerics
  import opened Counting

  datatype BuildupPhase = BuildupPhase(
    startTime: real, endTime: Option<real>,
    startPosition: Point, currentPosition: Point,
    involvedPlayers: seq<int>,
    progressionSpeed: real, verticalProgress: real,
    success: bool, duration: real, reachedFinalThird: bool)

  datatype Event = BuildupStarted | BuildupSuccessful | BuildupBackwards

  /** The logged phases and the open one. */
  datatype State = State(phases: seq<BuildupPhase>, current: Option<BuildupPhase>)

  function DefensiveThirdLine(fieldLength: real): real { fieldLength * 1.0 / 3.0 }
  function FinalThirdLine(fieldLength: real): real { fieldLength * 2.0 / 3.0 }

  /** `start_buildup` */
  function Started(t: real, position: Point, player: int): BuildupPhase
  {
    BuildupPhase(t, None, position, position, [player], 0.0, 0.0, false, 0.0, false)
  }

  /** `end_buildup`: the open phase, if any, is closed at `t` and logged when it lasted `minDuration`. */
  function Closed(st: State, t: real, reached: bool, minDuration: real): State
  {
    if st.current.None? then st
    else
      var p := st.current.value.(endTime := Some(t), duration := t - st.current.value.startTime,
                                 success := reached, reachedFinalThird := reached);
      State(if p.duration >= minDuration then st.phases + [p] else st.phases, None)
  }

  /** The update of the open phase by a new ball position and possessor. */
  function Progressed(p: BuildupPhase, t: real, ball: Point, player: int, lastTimestamp: Option<real>): BuildupPhase
  {
    var progress := ball.y - p.currentPosition.y;
    var speed := if lastTimestamp.None? then p.progressionSpeed
                 else if t - lastTimestamp.value > 0.0 then progress / (t - lastTimestamp.value)
                 else 0.0;
    p.(progressionSpeed := speed,
       verticalProgress := p.verticalProgress + MaxR(0.0, progress),
       currentPosition := ball,
       involvedPlayers := if player in p.involvedPlayers then p.involvedPlayers else p.involvedPlayers + [player])
  }

  /** `analyze_buildup`: the new state and the reported event. */
  function Next(fieldLength: real, minDuration: real, st: State, t: real, ball: Point, player: int, lastTimestamp: Option<real>)
    : (State, Option<Event>)
  {
    if ball.y < DefensiveThirdLine(fieldLength) && st.current.None? then
      (st.(current := Some(Started(t, ball, player))), Some(BuildupStarted))
    else if st.current.Some? then
      var p := Progressed(st.current.value, t, ball, player, lastTimestamp);
      if ball.y > FinalThirdLine(fieldLength) then
        (Closed(st.(current := Some(p)), t, true, minDuration), Some(BuildupSuccessful))
      else if ball.y < p.startPosition.y then
        (Closed(st.(current := Some(p)), t, false, minDuration), Some(BuildupBackwards))
      else
        (st.(current := Some(p)), None)
    else
      (st, None)
  }

  predicate NoDuplicates(s: seq<int>)
  {
    forall i, j :: 0 <= i < j < |s| ==> s[i] != s[j]
  }

  /** A phase's players: the starter first, each once; its vertical progress is never negative. */
  predicate PhaseInvariant(p: BuildupPhase)
  {
    0 < |p.involvedPlayers| && NoDuplicates(p.involvedPlayers) && 0.0 <= p.verticalProgress
  }

  /**
   * What the state always satisfies: every logged phase lasted the minimum
   * duration, was closed, and succeeded exactly when it reached the final
   * third; the open phase is not closed.
   */
  predicate Wellformed(minDuration: real, st: State)
  {
    && (forall k :: 0 <= k < |st.phases| ==>
          && PhaseInvariant(st.phases[k]) && st.phases[k].duration >= minDuration
          && st.phases[k].endTime.Some? && st.phases[k].success == st.phases[k].reachedFinalThird)
    && (st.current.Some? ==> PhaseInvariant(st.current.value) && st.current.value.endTime.None?)
  }

  /**
   * An update never lowers the vertical progress, moves the phase to the
   * ball, keeps its start and its first player, adds the possessor once, and
   * measures the progression speed over the time since the last reading
   * (zero when no time passed, unchanged without a last reading).
   */
  lemma ProgressedFacts(p: BuildupPhase, t: real, ball: Point, player: int, lastTimestamp: Option<real>)
    requires PhaseInvariant(p)
    ensures var q := Progressed(p, t, ball, player, lastTimestamp);
      && PhaseInvariant(q)
      && p.verticalProgress <= q.verticalProgress
      && q.verticalProgress == p.verticalProgress + (if ball.y > p.currentPosition.y then ball.y - p.currentPosition.y else 0.0)
      && q.currentPosition == ball && q.startPosition == p.startPosition && q.startTime == p.startTime
      && q.involvedPlayers[0] == p.involvedPlayers[0]
      && player in q.involvedPlayers
      && (forall k :: k in q.involvedPlayers <==> k in p.involvedPlayers || k == player)
      && (lastTimestamp.None? ==> q.progressionSpeed == p.progressionSpeed)
      && (lastTimestamp.Some? && t - lastTimestamp.value <= 0.0 ==> q.progressionSpeed == 0.0)
      && (lastTimestamp.Some? && t - lastTimestamp.value > 0.0 ==>
            q.progressionSpeed * (t - lastTimestamp.value) == ball.y - p.currentPosition.y)
  {
    var q := Progressed(p, t, ball, player, lastTimestamp);
    if lastTimestamp.Some? && t - lastTimestamp.value > 0.0 {
      QuotientTimesDivisor(ball.y - p.currentPosition.y, t - lastTimestamp.value);
    }
    if player !in p.involvedPlayers {
      forall i, j | 0 <= i < j < |q.involvedPlayers|
        ensures q.involvedPlayers[i] != q.involvedPlayers[j]
      {
        if j == |p.involvedPlayers| {
          assert q.involvedPlayers[i] == p.involvedPlayers[i];
        }
      }
    }
  }

  /** `end_buildup` logs the phase exactly when it lasted the minimum, records success as reaching the final third, and always clears it. */
  lemma ClosedFacts(st: State, t: real, reached: bool, minDuration: real)
    requires st.current.Some?
    ensures var r := Closed(st, t, reached, minDuration);
      var d := t - st.current.value.startTime;
      && r.current.None?
      && (d >= minDuration ==>
            && |r.phases| == |st.phases| + 1 && r.phases[..|st.phases|] == st.phases
            && r.phases[|st.phases|].success == reached && r.phases[|st.phases|].reachedFinalThird == reached
            && r.phases[|st.phases|].duration == d && r.phases[|st.phases|].endTime == Some(t))
      && (d < minDuration ==> r.phases == st.phases)
  {
    var r := Closed(st, t, reached, minDuration);
    if t - st.current.value.startTime >= minDuration {
      assert r.phases[..|st.phases|] == st.phases;
    }
  }

  lemma NextKeepsWellformed(fieldLength: real, minDuration: real, st: State, t: real, ball: Point, player: int, lastTimestamp: Option<real>)
    requires Wellformed(minDuration, st)
    ensures Wellformed(minDuration, Next(fieldLength, minDuration, st, t, ball, player, lastTimestamp).0)
  {
    if st.current.Some? && !(ball.y < DefensiveThirdLine(fieldLength) && st.current.None?) {
      ProgressedFacts(st.current.value, t, ball, player, lastTimestamp);
    }
  }

  /**
   * A phase opens only in the defensive third and when none is open; it
   * starts at the ball with the possessor as its only player.
   */
  lemma StartRule(fieldLength: real, minDuration: real, st: State, t: real, ball: Point, player: int, lastTimestamp: Option<real>)
    requires st.current.None?
    ensures var (r, e) := Next(fieldLength, minDuration, st, t, ball, player, lastTimestamp);
      && (e == Some(BuildupStarted) <==> ball.y < DefensiveThirdLine(fieldLength))
      && (r.current.Some? <==> ball.y < DefensiveThirdLine(fieldLength))
      && (r.current.Some? ==> r.current.value.involvedPlayers == [player]
                              && r.current.value.startPosition == ball && r.current.value.startTime == t)
      && r.phases == st.phases
  {
  }

  /**
   * With a phase open, it ends as a success exactly when the ball is in the
   * final third, as a failure exactly when it is short of that and behind
   * the phase's start, and otherwise stays open; the log gains at most one
   * phase.
   */
  lemma EndRule(fieldLength: real, minDuration: real, st: State, t: real, ball: Point, player: int, lastTimestamp: Option<real>)
    requires st.current.Some?
    ensures var (r, e) := Next(fieldLength, minDuration, st, t, ball, player, lastTimestamp);
      && (e == Some(BuildupSuccessful) <==> ball.y > FinalThirdLine(fieldLength))
      && (e == Some(BuildupBackwards) <==> !(ball.y > FinalThirdLine(fieldLength)) && ball.y < st.current.value.startPosition.y)
      && (r.current.None? <==> e.Some?)
      && e != Some(BuildupStarted)
      && st.phases <= r.phases && |r.phases| <= |st.phases| + 1
      && (|r.phases| == |st.phases| + 1 ==> r.phases[|st.phases|].success == (e == Some(BuildupSuccessful)))
  {
    var p := Progressed(st.current.value, t, ball, player, lastTimestamp);
    var reached := ball.y > FinalThirdLine(fieldLength);
    if reached || ball.y < p.startPosition.y {
      ClosedFacts(st.(current := Some(p)), t, reached, minDuration);
    }
  }

  // ---------------------------------------------------------------------------
  // `get_buildup_stats` (without a time window)

  function CountSuccessful(phases: seq<BuildupPhase>): (n: nat)
    ensures n <= |phases|
  {
    if |phases| == 0 then 0 else (if phases[0].success then 1 else 0) + CountSuccessful(phases[1..])
  }

  /** Every involvement, phase by phase, in order. */
  function AllInvolved(phases: seq<BuildupPhase>): seq<int>
  {
    if |phases| == 0 then [] else phases[0].involvedPlayers + AllInvolved(phases[1..])
  }

  /** The number of phases `player` took part in. */
  function PhasesWith(phases: seq<BuildupPhase>, player: int): nat
  {
    if |phases| == 0 then 0 else (if player in phases[0].involvedPlayers then 1 else 0) + PhasesWith(phases[1..], player)
  }

  lemma {:induction false} OccurrencesOfDistinct(s: seq<int>, player: int)
    requires NoDuplicates(s)
    ensures multiset(s)[player] == if player in s then 1 else 0
    decreases |s|
  {
    if |s| != 0 {
      OccurrencesOfDistinct(s[1..], player);
      assert s == [s[0]] + s[1..];
      if s[0] == player {
        assert player !in s[1..];
      }
    }
  }

  /** As no phase lists a player twice, a player's involvement count is the number of phases they took part in. */
  lemma {:induction false} InvolvementCountsPhases(phases: seq<BuildupPhase>, player: int)
    requires forall k :: 0 <= k < |phases| ==> NoDuplicates(phases[k].involvedPlayers)
    ensures CountOf(Tally(AllInvolved(phases)), player) == PhasesWith(phases, player)
  {
    TallyCountsOccurrences(AllInvolved(phases));
    InvolvementOccurrences(phases, player);
  }

  lemma {:induction false} InvolvementOccurrences(phases: seq<BuildupPhase>, player: int)
    requires forall k :: 0 <= k < |phases| ==> NoDuplicates(phases[k].involvedPlayers)
    ensures multiset(AllInvolved(phases))[player] == PhasesWith(phases, player)
    decreases |phases|
  {
    if |phases| != 0 {
      InvolvementOccurrences(phases[1..], player);
      OccurrencesOfDistinct(phases[0].involvedPlayers, player);
    }
  }

  /** Puts `c` before the first entry whose count is not above its own. */
  function InsertByCount(c: Count<int>, t: seq<Count<int>>): (r: seq<Count<int>>)
    ensures |r| == |t| + 1 && multiset(r) == multiset(t) + multiset{c}
  {
    if |t| == 0 || t[0].n <= c.n then [c] + t
    else
      assert t == [t[0]] + t[1..];
      [t[0]] + InsertByCount(c, t[1..])
  }

  predicate DescendingByCount(t: seq<Count<int>>)
  {
    forall i, j :: 0 <= i < j < |t| ==> t[j].n <= t[i].n
  }

  /** `sorted(counts.items(), key=count, reverse=True)`: ties keep their order. */
  function SortByCount(t: seq<Count<int>>): (r: seq<Count<int>>)
    ensures multiset(r) == multiset(t)
  {
    if |t| == 0 then []
    else
      assert t == [t[0]] + t[1..];
      InsertByCount(t[0], SortByCount(t[1..]))
  }

  lemma {:induction false} InsertKeepsDescending(c: Count<int>, t: seq<Count<int>>)
    requires DescendingByCount(t)
    ensures DescendingByCount(InsertByCount(c, t))
    decreases |t|
  {
    if |t| != 0 && c.n < t[0].n {
      InsertKeepsDescending(c, t[1..]);
      var r := InsertByCount(c, t);
      forall i, j | 0 <= i < j < |r| ensures r[j].n <= r[i].n {
        if i == 0 {
          assert r[j] in multiset(t[1..]) + multiset{c};
          assert r[j] in multiset(InsertByCount(c, t[1..]));
          assert r[j] == c || r[j] in t[1..];
        }
      }
    }
  }

  /** The involvement counts come out in descending order of count, each counted player once. */
  lemma {:induction false} SortByCountIsDescending(t: seq<Count<int>>)
    ensures DescendingByCount(SortByCount(t))
    decreases |t|
  {
    if |t| != 0 {
      SortByCountIsDescending(t[1..]);
      InsertKeepsDescending(t[0], SortByCount(t[1..]));
    }
  }

  datatype BuildupStats = BuildupStats(
    totalBuildups: nat, successfulBuildups: nat, successRate: real,
    avgDuration: real, avgPlayersInvolved: real, avgVerticalProgress: real, avgProgressionSpeed: real,
    mostInvolvedPlayers: seq<Count<int>>)

  /** `get_buildup_stats()`: nothing without phases. */
  function BuildupStatsOf(phases: seq<BuildupPhase>): (r: Option<BuildupStats>)
    ensures r.None? <==> |phases| == 0
    ensures r.Some? ==> r.value.totalBuildups == |phases| && r.value.successfulBuildups <= r.value.totalBuildups
    ensures r.Some? ==> 0.0 <= r.value.successRate <= 1.0
    ensures r.Some? ==> DescendingByCount(r.value.mostInvolvedPlayers)
    ensures r.Some? ==> multiset(r.value.mostInvolvedPlayers) == multiset(Tally(AllInvolved(phases)))
  {
    if |phases| == 0 then None
    else
      var n := |phases| as real;
      var s := CountSuccessful(phases) as real;
      SortByCountIsDescending(Tally(AllInvolved(phases)));
      QuotientNonneg(s, n);
      QuotientAtMostOne(s, n);
      Some(BuildupStats(
        |phases|, CountSuccessful(phases), s / n,
        Mean(seq(|phases|, k requires 0 <= k < |phases| => phases[k].duration)),
        Mean(seq(|phases|, k requires 0 <= k < |phases| => |phases[k].involvedPlayers| as real)),
        Mean(seq(|phases|, k requires 0 <= k < |phases| => phases[k].verticalProgress)),
        Mean(seq(|phases|, k requires 0 <= k < |phases| => phases[k].progressionSpeed)),
        SortByCount(Tally(AllInvolved(phases)))))
  }

  /**
   * Over a well-formed log the average involvement is at least one player,
   * and every player's involvement count is the number of phases they took
   * part in.
   */
  lemma LoggedBuildupStats(minDuration: real, st: State, player: int)
    requires Wellformed(minDuration, st) && 0 < |st.phases|
    ensures 1.0 <= BuildupStatsOf(st.phases).value.avgPlayersInvolved
    ensures 0.0 <= BuildupStatsOf(st.phases).value.avgVerticalProgress
    ensures CountOf(Tally(AllInvolved(st.phases)), player) == PhasesWith(st.phases, player)
  {
    var ps := st.phases;
    var sizes := seq(|ps|, k requires 0 <= k < |ps| => |ps[k].involvedPlayers| as real);
    MeanBetween(sizes, 1.0, Max(sizes));
    var progress := seq(|ps|, k requires 0 <= k < |ps| => ps[k].verticalProgress);
    MeanBetween(progress, 0.0, Max(progress));
    InvolvementCountsPhases(ps, player);
  }

  // ---------------------------------------------------------------------------
  // The analyzer

  class BuildupAnalyzer {
    const fieldLength: real
    const minDuration: real
    var buildupPhases: seq<BuildupPhase>
    var currentBuildup: Option<BuildupPhase>

    function Current(): State
      reads this
    {
      State(buildupPhases, currentBuildup)
    }

    ghost predicate Valid()
      reads this
    {
      Wellformed(minDuration, Current())
    }

    constructor(length: real, minimum: real)
      ensures Valid() && fieldLength == length && minDuration == minimum
      ensures buildupPhases == [] && currentBuildup == None
    {
      fieldLength, minDuration := length, minimum;
      buildupPhases, currentBuildup := [], None;
    }

    method StartBuildup(t: real, position: Point, player: int)
      modifies this
      ensures currentBuildup == Some(Started(t, position, player)) && buildupPhases == old(buildupPhases)
    {
      currentBuildup := Some(BuildupPhase(t, None, position, position, [player], 0.0, 0.0, false, 0.0, false));
    }

    method EndBuildup(t: real, reached: bool)
      modifies this
      ensures Current() == Closed(old(Current()), t, reached, minDuration)
    {
      if currentBuildup.Some? {
        var p := currentBuildup.value;
        p := p.(endTime := Some(t), duration := t - p.startTime, success := reached, reachedFinalThird := reached);
        if p.duration >= minDuration {
          buildupPhases := buildupPhases + [p];
        }
        currentBuildup := None;
      }
    }

    /** `analyze_buildup`: the event it reports, if any. */
    method AnalyzeBuildup(t: real, ball: Point, player: int, lastTimestamp: Option<real>) returns (event: Option<Event>)
      requires Valid()
      modifies this
      ensures Valid()
      ensures (Current(), event) == Next(fieldLength, minDuration, old(Current()), t, ball, player, lastTimestamp)
    {
      NextKeepsWellformed(fieldLength, minDuration, Current(), t, ball, player, lastTimestamp);
      var inDefensiveThird := ball.y < DefensiveThirdLine(fieldLength);
      var inFinalThird := ball.y > FinalThirdLine(fieldLength);
      event := None;
      if inDefensiveThird && currentBuildup.None? {
        StartBuildup(t, ball, player);
        event := Some(BuildupStarted);
      } else if currentBuildup.Some? {
        Progress(t, ball, player, lastTimestamp);
        var p := currentBuildup.value;
        if inFinalThird {
          EndBuildup(t, true);
          event := Some(BuildupSuccessful);
        } else if ball.y < p.startPosition.y {
          EndBuildup(t, false);
          event := Some(BuildupBackwards);
        }
      }
    }

    /** The open phase follows the ball: progress, speed, position and players. */
    method Progress(t: real, ball: Point, player: int, lastTimestamp: Option<real>)
      requires currentBuildup.Some?
      modifies this
      ensures currentBuildup == Some(Progressed(old(currentBuildup.value), t, ball, player, lastTimestamp))
      ensures buildupPhases == old(buildupPhases)
    {
      var p := currentBuildup.value;
      var progress := ball.y - p.currentPosition.y;
      if lastTimestamp.Some? {
        var timeDiff := t - lastTimestamp.value;
        p := p.(progressionSpeed := if timeDiff > 0.0 then progress / timeDiff else 0.0);
      }
      p := p.(verticalProgress := p.verticalProgress + MaxR(0.0, progress), currentPosition := ball);
      if player !in p.involvedPlayers {
        p := p.(involvedPlayers := p.involvedPlayers + [player]);
      }
      currentBuildup := Some(p);
    }

    /** `get_buildup_stats()` */
    function GetBuildupStats(): (r: Option<BuildupStats>)
      requires Valid()
      reads this
      ensures r.None? <==> |buildupPhases| == 0
      ensures r.Some? ==> 1.0 <= r.value.avgPlayersInvolved && 0.0 <= r.value.successRate <= 1.0
    {
      if |buildupPhases| == 0 then BuildupStatsOf(buildupPhases)
      else LoggedBuildupStats(minDuration, Current(), 0); BuildupStatsOf(buildupPhases)
    }
  }
}
