/**
 * The player-state cache of `SoccerAnalyticsIntegrator`
 * (`Soccer_Analytics/core/analytics-integrator.py`): states are cached per
 * frame and player, old frames are evicted every `cache_cleanup_interval`
 * frames, and a team's positions are read through the cache.
 */
module FrameCache {
  import opened Numerics

  /** `PlayerState`: position, team (`'home'` or `'away'`), role and jersey number. */
  datatype PlayerState = PlayerState(position: Point, team: string, role: string, jerseyNumber: int)

  /**
   * What `extract_position(frame_id, player_id)` does: it raises, or it
   * returns a state or `None`. The tracking system behind it is a parameter.
   */
  datatype Extraction = Raises | Returns(state: Option<PlayerState>)

  /** `player_state_cache`: frame id to player id to the extracted state. */
  type Cache = map<int, map<int, Option<PlayerState>>>

  /** `cache_size`: frames more than this far behind the current one are evicted. */
  const CacheSize := 1000

  /** `cache_cleanup_interval` */
  const CleanupInterval := 100

  // ---------------------------------------------------------------------------
  // `_get_player_state`

  /** The cache answers the request without extracting. */
  predicate Hit(cache: Cache, frameId: int, playerId: int, useCache: bool)
  {
    useCache && frameId in cache && playerId in cache[frameId]
  }

  /** The state `_get_player_state` returns and the cache it leaves behind. */
  datatype Fetched = Fetched(state: Option<PlayerState>, cache: Cache)

  function Fetch(cache: Cache, frameId: int, playerId: int, useCache: bool, outcome: Extraction): Fetched
  {
    if Hit(cache, frameId, playerId, useCache) then Fetched(cache[frameId][playerId], cache)
    else match outcome
      case Raises => Fetched(None, cache)
      case Returns(s) =>
        var row := if frameId in cache then cache[frameId] else map[];
        Fetched(s, cache[frameId := row[playerId := s]])
  }

  /** A cache hit returns the stored state whatever the extraction would have done, and changes nothing. */
  lemma HitSkipsExtraction(cache: Cache, frameId: int, playerId: int, o: Extraction, o': Extraction)
    requires Hit(cache, frameId, playerId, true)
    ensures Fetch(cache, frameId, playerId, true, o) == Fetch(cache, frameId, playerId, true, o')
    ensures Fetch(cache, frameId, playerId, true, o) == Fetched(cache[frameId][playerId], cache)
  {
  }

  /** An extraction that raises gives `None` and inserts nothing. */
  lemma FailureCachesNothing(cache: Cache, frameId: int, playerId: int, useCache: bool)
    requires !Hit(cache, frameId, playerId, useCache)
    ensures Fetch(cache, frameId, playerId, useCache, Raises) == Fetched(None, cache)
  {
  }

  /**
   * Once a request has been answered without raising, the same request is
   * answered from the cache with the same state, whatever the extraction
   * would do the second time.
   */
  lemma FetchThenHit(cache: Cache, frameId: int, playerId: int, useCache: bool, o: Extraction, o': Extraction)
    requires o.Returns? || Hit(cache, frameId, playerId, useCache)
    ensures var first := Fetch(cache, frameId, playerId, useCache, o);
      Hit(first.cache, frameId, playerId, true)
      && Fetch(first.cache, frameId, playerId, true, o') == first
  {
  }

  /** The cache only grows: every other entry survives a request unchanged. */
  lemma FetchKeepsOthers(cache: Cache, frameId: int, playerId: int, useCache: bool, o: Extraction, f: int, p: int)
    requires f in cache && p in cache[f]
    ensures var after := Fetch(cache, frameId, playerId, useCache, o).cache;
      f in after && p in after[f] && (after[f][p] == cache[f][p] || (f == frameId && p == playerId))
  {
  }

  // ---------------------------------------------------------------------------
  // `_cleanup_cache`

  /** The frames `_cleanup_cache` leaves: all of them without a current frame, else those at most `cache_size` behind it. */
  function Cleaned(cache: Cache, current: Option<int>): Cache
  {
    if current.None? then cache
    else map f | f in cache && current.value - f <= CacheSize :: cache[f]
  }

  /** A frame at most `cache_size` behind the current one keeps all its entries. */
  lemma CleanupKeepsRecent(cache: Cache, current: int, f: int)
    requires f in cache && current - f <= CacheSize
    ensures f in Cleaned(cache, Some(current)) && Cleaned(cache, Some(current))[f] == cache[f]
  {
  }

  /** A frame further behind is evicted. */
  lemma CleanupDropsOld(cache: Cache, current: int, f: int)
    requires current - f > CacheSize
    ensures f !in Cleaned(cache, Some(current))
  {
  }

  /** Cleaning twice is cleaning once. */
  lemma CleanupIdempotent(cache: Cache, current: Option<int>)
    ensures Cleaned(Cleaned(cache, current), current) == Cleaned(cache, current)
  {
  }

  // ---------------------------------------------------------------------------
  // `_get_team_positions`

  /** The positions gathered so far and the cache after the requests. */
  datatype Gathered = Gathered(positions: seq<(int, Point)>, cache: Cache)

  /** The entry a fetched state adds for `team`: the player's position when the state is of that team. */
  function Entry(playerId: int, state: Option<PlayerState>, team: string): seq<(int, Point)>
  {
    if state.Some? && state.value.team == team then [(playerId, state.value.position)] else []
  }

  /** Requesting the players of `ids` in order, each through the cache. */
  function Gather(cache: Cache, ids: seq<int>, frameId: int, team: string, extract: (int, int) -> Extraction): Gathered
  {
    if |ids| == 0 then Gathered([], cache)
    else
      var g := Gather(cache, ids[..|ids| - 1], frameId, team, extract);
      var id := ids[|ids| - 1];
      var r := Fetch(g.cache, frameId, id, true, extract(frameId, id));
      Gathered(g.positions + Entry(id, r.state, team), r.cache)
  }

  /** Positions only come from the listed players, at most one each. */
  lemma {:induction false} GatherFromIds(cache: Cache, ids: seq<int>, frameId: int, team: string, extract: (int, int) -> Extraction)
    ensures var ps := Gather(cache, ids, frameId, team, extract).positions;
      |ps| <= |ids| && forall x :: x in ps ==> x.0 in ids
  {
    if |ids| != 0 {
      var init := ids[..|ids| - 1];
      GatherFromIds(cache, init, frameId, team, extract);
      assert forall i :: i in init ==> i in ids;
    }
  }

  /** The positions read from a frame whose states are all cached: a plain filter of the cached states. */
  function Cached(row: map<int, Option<PlayerState>>, ids: seq<int>, team: string): seq<(int, Point)>
    requires forall i :: i in ids ==> i in row
  {
    if |ids| == 0 then []
    else Cached(row, ids[..|ids| - 1], team) + Entry(ids[|ids| - 1], row[ids[|ids| - 1]], team)
  }

  /**
   * With every listed player of the frame cached, the positions are the
   * cached states of the team in list order, nothing is extracted and the
   * cache is unchanged.
   */
  lemma {:induction false} GatherWarm(cache: Cache, ids: seq<int>, frameId: int, team: string, extract: (int, int) -> Extraction)
    requires frameId in cache && forall i :: i in ids ==> i in cache[frameId]
    ensures Gather(cache, ids, frameId, team, extract) == Gathered(Cached(cache[frameId], ids, team), cache)
  {
    if |ids| != 0 {
      var init := ids[..|ids| - 1];
      assert forall i :: i in init ==> i in ids;
      GatherWarm(cache, init, frameId, team, extract);
    }
  }

  /**
   * With nothing of the frame cached and an extraction that always raises
   * (the placeholder `extract_position` does), no position is returned and
   * the cache is unchanged.
   */
  lemma {:induction false} GatherRaising(cache: Cache, ids: seq<int>, frameId: int, team: string, extract: (int, int) -> Extraction)
    requires frameId !in cache && forall p :: extract(frameId, p) == Raises
    ensures Gather(cache, ids, frameId, team, extract) == Gathered([], cache)
  {
    if |ids| != 0 {
      GatherRaising(cache, ids[..|ids| - 1], frameId, team, extract);
    }
  }

  // ---------------------------------------------------------------------------
  // The integrator's cache state

  predicate Distinct(s: seq<int>)
  {
    forall a, b :: 0 <= a < b < |s| ==> s[a] != s[b]
  }

  class Integrator {
    var cache: Cache
    /** The frame ids of `cache` in insertion order, the order Python iterates the dictionary in. */
    var frames: seq<int>
    var currentFrameId: Option<int>
    var homeIds: seq<int>
    var awayIds: seq<int>

    ghost predicate Valid()
      reads this
    {
      (forall f :: f in frames <==> f in cache) && Distinct(frames)
    }

    constructor()
      ensures Valid() && cache == map[] && frames == [] && currentFrameId == None
      ensures homeIds == [] && awayIds == []
    {
      cache := map[];
      frames := [];
      currentFrameId := None;
      homeIds := [];
      awayIds := [];
    }

    /** `_get_player_state(frame_id, player_id, use_cache)` */
    method GetPlayerState(frameId: int, playerId: int, useCache: bool, extract: (int, int) -> Extraction)
      returns (state: Option<PlayerState>)
      requires Valid()
      modifies this
      ensures Valid()
      ensures Fetched(state, cache) == Fetch(old(cache), frameId, playerId, useCache, extract(frameId, playerId))
      ensures currentFrameId == old(currentFrameId) && homeIds == old(homeIds) && awayIds == old(awayIds)
    {
      if useCache && frameId in cache && playerId in cache[frameId] {
        return cache[frameId][playerId];
      }
      match extract(frameId, playerId)
      case Raises =>
        state := None;
      case Returns(s) =>
        if frameId !in cache {
          cache := cache[frameId := map[]];
          frames := frames + [frameId];
        }
        cache := cache[frameId := cache[frameId][playerId := s]];
        state := s;
    }

    /** The frames `_cleanup_cache` marks for removal, in dictionary order. */
    static function Stale(frames: seq<int>, current: int): (r: seq<int>)
      ensures forall f :: f in r <==> f in frames && current - f > CacheSize
    {
      if |frames| == 0 then []
      else Stale(frames[..|frames| - 1], current) + (if current - frames[|frames| - 1] > CacheSize then [frames[|frames| - 1]] else [])
    }

    /** The frames left after removal, in dictionary order. */
    static function Recent(frames: seq<int>, current: int): (r: seq<int>)
      ensures forall f :: f in r <==> f in frames && current - f <= CacheSize
    {
      if |frames| == 0 then []
      else Recent(frames[..|frames| - 1], current) + (if current - frames[|frames| - 1] <= CacheSize then [frames[|frames| - 1]] else [])
    }

    static lemma {:induction false} RecentDistinct(frames: seq<int>, current: int)
      requires Distinct(frames)
      ensures Distinct(Recent(frames, current))
    {
      if |frames| != 0 {
        var init, last := frames[..|frames| - 1], frames[|frames| - 1];
        assert forall a, b :: 0 <= a < b < |init| ==> init[a] == frames[a] && init[b] == frames[b];
        RecentDistinct(init, current);
        assert last !in init by {
          forall a | 0 <= a < |init|
            ensures init[a] != last
          {
            assert init[a] == frames[a];
          }
        }
        var r := Recent(init, current);
        var extra := if current - last <= CacheSize then [last] else [];
        forall a, b | 0 <= a < b < |r + extra|
          ensures (r + extra)[a] != (r + extra)[b]
        {
          if b >= |r| {
            assert (r + extra)[a] == r[a] && r[a] in r;
          } else {
            assert (r + extra)[a] == r[a] && (r + extra)[b] == r[b];
          }
        }
      }
    }

    /** The deletion loop: `del player_state_cache[frame_id]` for each marked frame. */
    method DeleteFrames(toRemove: seq<int>)
      modifies this
      ensures cache == map f | f in old(cache) && f !in toRemove :: old(cache)[f]
      ensures frames == old(frames) && currentFrameId == old(currentFrameId)
      ensures homeIds == old(homeIds) && awayIds == old(awayIds)
    {
      for k := 0 to |toRemove|
        invariant forall f :: f in cache <==> f in old(cache) && f !in toRemove[..k]
        invariant forall f :: f in cache ==> cache[f] == old(cache)[f]
        invariant frames == old(frames) && currentFrameId == old(currentFrameId)
        invariant homeIds == old(homeIds) && awayIds == old(awayIds)
      {
        assert toRemove[..k + 1] == toRemove[..k] + [toRemove[k]];
        cache := cache - {toRemove[k]};
      }
      assert toRemove[..|toRemove|] == toRemove;
      ghost var kept := map f | f in old(cache) && f !in toRemove :: old(cache)[f];
      assert forall f :: f in cache <==> f in kept;
      assert forall f :: f in cache ==> cache[f] == kept[f];
      assert cache == kept;
    }

    /** `_cleanup_cache`: nothing without a current frame, else the frames more than `cache_size` behind it are deleted. */
    method CleanupCache()
      requires Valid()
      modifies this
      ensures Valid() && cache == Cleaned(old(cache), currentFrameId)
      ensures currentFrameId == old(currentFrameId) && homeIds == old(homeIds) && awayIds == old(awayIds)
    {
      if currentFrameId.None? {
        return;
      }
      var current := currentFrameId.value;
      var toRemove := [];
      for k := 0 to |frames|
        invariant toRemove == Stale(frames[..k], current)
      {
        assert frames[..k + 1][..k] == frames[..k];
        if current - frames[k] > CacheSize {
          toRemove := toRemove + [frames[k]];
        }
      }
      assert frames[..|frames|] == frames;
      DeleteFrames(toRemove);
      RecentDistinct(frames, current);
      frames := Recent(frames, current);
    }

    /** The players `_get_team_positions` asks for: the home list for `'home'`, the away list otherwise. */
    function TeamIds(team: string): seq<int>
      reads this
    {
      if team == "home" then homeIds else awayIds
    }

    /** `_get_team_positions(frame_id, team)` */
    method GetTeamPositions(frameId: int, team: string, extract: (int, int) -> Extraction)
      returns (positions: seq<(int, Point)>)
      requires Valid()
      modifies this
      ensures Valid()
      ensures Gathered(positions, cache) == Gather(old(cache), old(TeamIds(team)), frameId, team, extract)
      ensures currentFrameId == old(currentFrameId) && homeIds == old(homeIds) && awayIds == old(awayIds)
    {
      var ids := TeamIds(team);
      positions := [];
      for k := 0 to |ids|
        invariant Valid()
        invariant Gathered(positions, cache) == Gather(old(cache), ids[..k], frameId, team, extract)
        invariant currentFrameId == old(currentFrameId) && homeIds == old(homeIds) && awayIds == old(awayIds)
      {
        assert ids[..k + 1][..k] == ids[..k];
        var state := GetPlayerState(frameId, ids[k], true, extract);
        if state.Some? && state.value.team == team {
          positions := positions + [(ids[k], state.value.position)];
        }
      }
      assert ids[..|ids|] == ids;
    }

    /** The start of `analyze_frame`: the frame becomes current, and every `cache_cleanup_interval` frames the cache is cleaned. */
    method BeginFrame(frameId: int)
      requires Valid()
      modifies this
      ensures Valid() && currentFrameId == Some(frameId)
      ensures cache == if frameId % CleanupInterval == 0 then Cleaned(old(cache), Some(frameId)) else old(cache)
    {
      currentFrameId := Some(frameId);
      if frameId % CleanupInterval == 0 {
        CleanupCache();
      }
    }
  }
}
