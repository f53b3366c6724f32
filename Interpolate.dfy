/**
 * The post-processing of the tracker output in `tracking/interpolate.py`:
 * every frame lists its tracked entities (track id, class id, pitch
 * position) and the pitch-edge vertices seen in it. The ball track is read
 * from the first entity of each frame; players and edges are smoothed over
 * five-frame windows with the weights 2, 3, 4, 3, 2 (out of 14).
 */
module Interpolate {
  import opened Numerics

  /** A tracked entity: track id (`-1` is the ball), class id and pitch position. */
  datatype Entity = Entity(id: int, cls: int, pos: Point)

  /** One frame of tracker output: the entities and the pitch-edge vertices. */
  datatype Frame = Frame(entities: seq<Entity>, edges: seq<Point>)

  // ---------------------------------------------------------------------------
  // `interpolate`

  /** The smoothing weights of the five-frame window. */
  const Weights: seq<real> := [2.0 / 14.0, 3.0 / 14.0, 4.0 / 14.0, 3.0 / 14.0, 2.0 / 14.0]

  /** `sum(weights[i] * points[i])` over the (at most five) given points. */
  function WeightedSum(points: seq<Point>): Point
    requires |points| <= |Weights|
  {
    if |points| == 0 then Point(0.0, 0.0)
    else
      var n := |points| - 1;
      var s := WeightedSum(points[..n]);
      Point(s.x + points[n].x * Weights[n], s.y + points[n].y * Weights[n])
  }

  /**
   * `interpolate(frames, k, mode)`: the accumulator loop over the window.
   * `points[i]` is what the mode reads from frame `i`: the position of its
   * `k`-th entity for players, its `k`-th vertex for edges.
   */
  method Interpolate(points: seq<Point>) returns (p: Point)
    requires |points| <= |Weights|
    ensures p == WeightedSum(points)
  {
    var x, y := 0.0, 0.0;
    for i := 0 to |points|
      invariant Point(x, y) == WeightedSum(points[..i])
    {
      assert points[..i + 1][..i] == points[..i];
      x := x + points[i].x * Weights[i];
      y := y + points[i].y * Weights[i];
    }
    assert points[..|points|] == points;
    p := Point(x, y);
  }

  /** Over a full window the result is the weighted mean `(2 p0 + 3 p1 + 4 p2 + 3 p3 + 2 p4) / 14`. */
  lemma {:induction false} FiveTermForm(points: seq<Point>)
    requires |points| == 5
    ensures WeightedSum(points).x ==
      (2.0 * points[0].x + 3.0 * points[1].x + 4.0 * points[2].x + 3.0 * points[3].x + 2.0 * points[4].x) / 14.0
    ensures WeightedSum(points).y ==
      (2.0 * points[0].y + 3.0 * points[1].y + 4.0 * points[2].y + 3.0 * points[3].y + 2.0 * points[4].y) / 14.0
  {
    var p1, p2, p3, p4 := points[..1], points[..2], points[..3], points[..4];
    assert p1[..0] == [] && p2[..1] == p1 && p3[..2] == p2 && p4[..3] == p3 && points[..4] == p4;
    assert WeightedSum(p1) == Point(points[0].x * Weights[0], points[0].y * Weights[0]);
    assert WeightedSum(p2).x == WeightedSum(p1).x + points[1].x * Weights[1];
    assert WeightedSum(p3).x == WeightedSum(p2).x + points[2].x * Weights[2];
    assert WeightedSum(p4).x == WeightedSum(p3).x + points[3].x * Weights[3];
  }

  /** The weights add up to one: five copies of a position smooth to that position. */
  lemma ConstantWindow(points: seq<Point>, p: Point)
    requires |points| == 5 && forall i :: 0 <= i < 5 ==> points[i] == p
    ensures WeightedSum(points) == p
  {
    FiveTermForm(points);
  }

  /** The smoothed point is a convex combination: it stays inside any box holding the five positions. */
  lemma WindowStaysInBox(points: seq<Point>, lo: Point, hi: Point)
    requires |points| == 5
    requires forall i :: 0 <= i < 5 ==> lo.x <= points[i].x <= hi.x && lo.y <= points[i].y <= hi.y
    ensures lo.x <= WeightedSum(points).x <= hi.x && lo.y <= WeightedSum(points).y <= hi.y
  {
    FiveTermForm(points);
  }

  // ---------------------------------------------------------------------------
  // `ball_interpolate`

  /** The first entity is taken as a ball fix when it is the ball track strictly inside the 105 by 68 pitch. */
  predicate IsBallFix(e: Entity)
  {
    e.id == -1 && 0.0 < e.pos.x && 0.0 < e.pos.y && e.pos.x < 105.0 && e.pos.y < 68.0
  }

  /** A row of the ball table: the frame index and the fix, `None` standing for NaN. */
  datatype BallRow = BallRow(frame: nat, at: Option<Point>)

  /** The fix a frame whose first entity is `e` contributes. */
  function FixOf(e: Entity): Option<Point>
  {
    if IsBallFix(e) then Some(e.pos) else None
  }

  /**
   * The rows the loop writes before pandas fills the gaps: one per frame
   * that has an entity, in frame order, reading only the first entity. A
   * frame without entities gets no row at all.
   */
  function BallRows(frames: seq<Frame>): seq<BallRow>
  {
    if |frames| == 0 then []
    else
      var n := |frames| - 1;
      var rest := BallRows(frames[..n]);
      if |frames[n].entities| > 0 then rest + [BallRow(n, FixOf(frames[n].entities[0]))] else rest
  }

  /** Row `r` belongs to a frame with an entity and holds that frame's first-entity fix. */
  predicate RowOf(frames: seq<Frame>, r: BallRow)
  {
    r.frame < |frames| && |frames[r.frame].entities| > 0 && r.at == FixOf(frames[r.frame].entities[0])
  }

  /** Every row is the row of its frame. */
  lemma {:induction false} BallRowsSound(frames: seq<Frame>)
    ensures forall k :: 0 <= k < |BallRows(frames)| ==> RowOf(frames, BallRows(frames)[k])
  {
    if |frames| != 0 {
      var n := |frames| - 1;
      var rest, rows := BallRows(frames[..n]), BallRows(frames);
      BallRowsSound(frames[..n]);
      forall k | 0 <= k < |rows| ensures RowOf(frames, rows[k]) {
        if k < |rest| {
          assert rows[k] == rest[k] && RowOf(frames[..n], rest[k]);
          assert frames[..n][rest[k].frame] == frames[rest[k].frame];
        } else {
          assert rows[k] == BallRow(n, FixOf(frames[n].entities[0]));
        }
      }
    }
  }

  /** Rows come in strictly increasing frame order. */
  lemma {:induction false} BallRowsAscending(frames: seq<Frame>)
    ensures forall a, b :: 0 <= a < b < |BallRows(frames)| ==> BallRows(frames)[a].frame < BallRows(frames)[b].frame
  {
    if |frames| != 0 {
      var n := |frames| - 1;
      var rest, rows := BallRows(frames[..n]), BallRows(frames);
      BallRowsAscending(frames[..n]);
      BallRowsSound(frames[..n]);
      forall a, b | 0 <= a < b < |rows| ensures rows[a].frame < rows[b].frame {
        assert rows[a] == rest[a] && RowOf(frames[..n], rest[a]);
        if b < |rest| {
          assert rows[b] == rest[b];
        } else {
          assert rows[b].frame == n;
        }
      }
    }
  }

  /** Every frame with an entity has a row. */
  lemma {:induction false} BallRowsComplete(frames: seq<Frame>, i: nat)
    requires i < |frames| && |frames[i].entities| > 0
    ensures exists k :: 0 <= k < |BallRows(frames)| && BallRows(frames)[k].frame == i
  {
    var n := |frames| - 1;
    var rest := BallRows(frames[..n]);
    if i < n {
      assert frames[..n][i] == frames[i];
      BallRowsComplete(frames[..n], i);
      var k :| 0 <= k < |rest| && rest[k].frame == i;
      assert BallRows(frames)[k] == rest[k];
    } else {
      assert BallRows(frames)[|rest|].frame == i;
    }
  }

  /** The frame loop of `ball_interpolate` (the pandas interpolation that follows is not modelled). */
  method CollectBallRows(frames: seq<Frame>) returns (rows: seq<BallRow>)
    ensures rows == BallRows(frames)
  {
    rows := [];
    for i := 0 to |frames|
      invariant rows == BallRows(frames[..i])
    {
      assert frames[..i + 1][..i] == frames[..i];
      var entities := frames[i].entities;
      if |entities| > 0 {
        var e := entities[0];
        if IsBallFix(e) {
          rows := rows + [BallRow(i, Some(e.pos))];
        } else {
          rows := rows + [BallRow(i, None)];
        }
      }
    }
    assert frames[..|frames|] == frames;
  }

  // ---------------------------------------------------------------------------
  // `players_interpolate`

  /** The set of track ids of a frame. */
  function Ids(s: seq<Entity>): set<int>
  {
    if |s| == 0 then {} else {s[0].id} + Ids(s[1..])
  }

  lemma {:induction false} IdsMembers(s: seq<Entity>, id: int)
    ensures id in Ids(s) <==> exists k :: 0 <= k < |s| && s[k].id == id
  {
    if |s| != 0 {
      IdsMembers(s[1..], id);
      if id in Ids(s[1..]) {
        var k :| 0 <= k < |s[1..]| && s[1..][k].id == id;
        assert s[k + 1].id == id;
      }
      forall k | 0 < k < |s| && s[k].id == id ensures id in Ids(s[1..]) {
        assert s[1..][k - 1].id == id;
      }
    }
  }

  /** No track id occurs twice. */
  predicate DistinctIds(s: seq<Entity>)
  {
    |s| == 0 || (s[0].id !in Ids(s[1..]) && DistinctIds(s[1..]))
  }

  /** Ids never decrease along `s`. */
  predicate SortedById(s: seq<Entity>)
  {
    forall a, b :: 0 <= a < b < |s| ==> s[a].id <= s[b].id
  }

  /** `[f for f in frame if f[0] in common_pts]`. */
  function KeepIds(s: seq<Entity>, ids: set<int>): (r: seq<Entity>)
    ensures |r| <= |s|
  {
    if |s| == 0 then []
    else (if s[0].id in ids then [s[0]] else []) + KeepIds(s[1..], ids)
  }

  /** Filtering keeps exactly the entities whose id is listed. */
  lemma {:induction false} KeepIdsFacts(s: seq<Entity>, ids: set<int>)
    ensures Ids(KeepIds(s, ids)) == Ids(s) * ids
    ensures forall e :: e in KeepIds(s, ids) ==> e in s && e.id in ids
    ensures DistinctIds(s) ==> DistinctIds(KeepIds(s, ids))
  {
    if |s| != 0 {
      KeepIdsFacts(s[1..], ids);
      var rest := KeepIds(s[1..], ids);
      if s[0].id in ids {
        assert KeepIds(s, ids) == [s[0]] + rest;
        assert ([s[0]] + rest)[1..] == rest;
      } else {
        assert KeepIds(s, ids) == rest;
      }
    }
  }

  /** Puts `e` before the first entity whose id is not below its own. */
  function InsertById(e: Entity, s: seq<Entity>): (r: seq<Entity>)
    ensures |r| == |s| + 1
  {
    if |s| == 0 || e.id <= s[0].id then [e] + s
    else [s[0]] + InsertById(e, s[1..])
  }

  /** `sorted(frame, key=lambda x: x[0])`: a stable sort by track id. */
  function SortById(s: seq<Entity>): (r: seq<Entity>)
    ensures |r| == |s|
  {
    if |s| == 0 then [] else InsertById(s[0], SortById(s[1..]))
  }

  lemma {:induction false} InsertByIdMembers(e: Entity, s: seq<Entity>)
    ensures Ids(InsertById(e, s)) == {e.id} + Ids(s)
    ensures forall x :: x in InsertById(e, s) <==> x == e || x in s
    ensures DistinctIds(s) && e.id !in Ids(s) ==> DistinctIds(InsertById(e, s))
  {
    if |s| != 0 && s[0].id < e.id {
      var rest := InsertById(e, s[1..]);
      InsertByIdMembers(e, s[1..]);
      assert InsertById(e, s) == [s[0]] + rest;
      assert ([s[0]] + rest)[1..] == rest;
      assert s == [s[0]] + s[1..];
    } else {
      assert ([e] + s)[1..] == s;
    }
  }

  /** Inserting into a list whose ids are all at least `lo` an entity whose id is at least `lo`. */
  lemma {:induction false} InsertByIdAtLeast(e: Entity, s: seq<Entity>, lo: int)
    requires lo <= e.id && forall k :: 0 <= k < |s| ==> lo <= s[k].id
    ensures forall k :: 0 <= k < |s| + 1 ==> lo <= InsertById(e, s)[k].id
  {
    if |s| != 0 && s[0].id < e.id {
      InsertByIdAtLeast(e, s[1..], lo);
      assert InsertById(e, s) == [s[0]] + InsertById(e, s[1..]);
    }
  }

  lemma {:induction false} InsertByIdSorted(e: Entity, s: seq<Entity>)
    requires SortedById(s)
    ensures SortedById(InsertById(e, s))
  {
    if |s| != 0 && s[0].id < e.id {
      var rest := InsertById(e, s[1..]);
      InsertByIdSorted(e, s[1..]);
      InsertByIdAtLeast(e, s[1..], s[0].id);
      assert InsertById(e, s) == [s[0]] + rest;
    }
  }

  /** The sort returns the same entities in id order, and keeps distinct ids distinct. */
  lemma {:induction false} SortByIdFacts(s: seq<Entity>)
    ensures SortedById(SortById(s))
    ensures Ids(SortById(s)) == Ids(s)
    ensures forall x :: x in SortById(s) <==> x in s
    ensures DistinctIds(s) ==> DistinctIds(SortById(s))
  {
    if |s| != 0 {
      var rest := SortById(s[1..]);
      SortByIdFacts(s[1..]);
      InsertByIdSorted(s[0], rest);
      InsertByIdMembers(s[0], rest);
      assert s == [s[0]] + s[1..];
    }
  }

  /** `set.intersection` of the id sets of the window's frames. */
  function CommonIds(window: seq<seq<Entity>>): set<int>
    requires |window| > 0
  {
    if |window| == 1 then Ids(window[0]) else Ids(window[0]) * CommonIds(window[1..])
  }

  lemma {:induction false} CommonIdsMembers(window: seq<seq<Entity>>, id: int)
    requires |window| > 0
    ensures id in CommonIds(window) <==> forall j :: 0 <= j < |window| ==> id in Ids(window[j])
  {
    if |window| > 1 {
      CommonIdsMembers(window[1..], id);
      assert forall j :: 0 < j < |window| ==> window[1..][j - 1] == window[j];
    }
  }

  /** The window's frames filtered to the common ids and sorted by id. */
  function Aligned(window: seq<seq<Entity>>): (a: seq<seq<Entity>>)
    requires |window| == 5
    ensures |a| == 5
  {
    var common := CommonIds(window);
    seq(5, j requires 0 <= j < 5 => SortById(KeepIds(window[j], common)))
  }

  /** The positions of the `k`-th entities of the aligned frames. */
  function Column(aligned: seq<seq<Entity>>, k: nat): (ps: seq<Point>)
    requires |aligned| == 5 && Fits(aligned, k)
    ensures |ps| == 5
  {
    seq(5, j requires 0 <= j < 5 => aligned[j][k].pos)
  }

  /** A smoothed player: track id, class id and position. */
  datatype Tracked = Tracked(id: int, cls: int, pos: Point)

  /** Every aligned frame has a `k`-th entity; otherwise `interpolate` raises `IndexError`. */
  predicate Fits(aligned: seq<seq<Entity>>, k: nat)
    requires |aligned| == 5
  {
    forall j :: 0 <= j < 5 ==> k < |aligned[j]|
  }

  /**
   * The entries for the first `n` entities of the aligned centre frame:
   * the ball track is skipped, every other entity is smoothed over its
   * column; `None` once a column is short.
   */
  function EmitUpTo(aligned: seq<seq<Entity>>, n: nat): Option<seq<Tracked>>
    requires |aligned| == 5 && n <= |aligned[2]|
  {
    if n == 0 then Some([])
    else
      var k := n - 1;
      var e := aligned[2][k];
      match EmitUpTo(aligned, k)
      case None => None
      case Some(entries) =>
        if e.id == -1 then Some(entries)
        else if !Fits(aligned, k) then None
        else Some(entries + [Tracked(e.id, e.cls, WeightedSum(Column(aligned, k)))])
  }

  /** One window of `players_interpolate`; `None` when it raises. */
  function SmoothedOf(window: seq<seq<Entity>>): Option<seq<Tracked>>
    requires |window| == 5
  {
    var aligned := Aligned(window);
    EmitUpTo(aligned, |aligned[2]|)
  }

  /** A failure stays a failure as more entities are processed. */
  lemma {:induction false} EmitNoneSticks(aligned: seq<seq<Entity>>, k: nat, n: nat)
    requires |aligned| == 5 && k <= n <= |aligned[2]| && EmitUpTo(aligned, k).None?
    ensures EmitUpTo(aligned, n).None?
    decreases n
  {
    if k < n {
      EmitNoneSticks(aligned, k, n - 1);
    }
  }

  /** The body of the window loop. */
  method SmoothWindow(window: seq<seq<Entity>>) returns (out: Option<seq<Tracked>>)
    requires |window| == 5
    ensures out == SmoothedOf(window)
  {
    var aligned := Aligned(window);
    var centre := aligned[2];
    var entries: seq<Tracked> := [];
    for k := 0 to |centre|
      invariant EmitUpTo(aligned, k) == Some(entries)
    {
      var e := centre[k];
      if e.id != -1 {
        if !Fits(aligned, k) {
          EmitNoneSticks(aligned, k + 1, |centre|);
          return None;
        }
        var p := Interpolate(Column(aligned, k));
        entries := entries + [Tracked(e.id, e.cls, p)];
      }
    }
    out := Some(entries);
  }

  /** Entry `t` is the smoothed `k`-th entity of the aligned centre frame. */
  predicate EntryFrom(aligned: seq<seq<Entity>>, k: nat, t: Tracked)
    requires |aligned| == 5
  {
    && k < |aligned[2]| && Fits(aligned, k) && aligned[2][k].id != -1
    && t == Tracked(aligned[2][k].id, aligned[2][k].cls, WeightedSum(Column(aligned, k)))
  }

  /** Every entry of `entries` comes from one of the first `n` entities of the centre frame. */
  predicate EntriesFrom(aligned: seq<seq<Entity>>, n: nat, entries: seq<Tracked>)
    requires |aligned| == 5
  {
    forall q :: 0 <= q < |entries| ==> FromOneOf(aligned, n, entries[q])
  }

  /** Entry `t` comes from one of the first `n` entities of the centre frame. */
  predicate FromOneOf(aligned: seq<seq<Entity>>, n: nat, t: Tracked)
    requires |aligned| == 5
  {
    exists k: nat :: k < n && EntryFrom(aligned, k, t)
  }

  /** Every entry comes from a non-ball entity of the centre frame. */
  lemma {:induction false} EmitFacts(aligned: seq<seq<Entity>>, n: nat)
    requires |aligned| == 5 && n <= |aligned[2]| && EmitUpTo(aligned, n).Some?
    ensures EntriesFrom(aligned, n, EmitUpTo(aligned, n).value)
  {
    if n != 0 {
      var k := n - 1;
      EmitFacts(aligned, k);
      var before := EmitUpTo(aligned, k).value;
      var entries := EmitUpTo(aligned, n).value;
      forall q | 0 <= q < |before| ensures FromOneOf(aligned, n, before[q]) {
        var k': nat :| k' < k && EntryFrom(aligned, k', before[q]);
      }
      if aligned[2][k].id != -1 {
        assert entries == before + [Tracked(aligned[2][k].id, aligned[2][k].cls, WeightedSum(Column(aligned, k)))];
        assert EntryFrom(aligned, k, entries[|before|]);
        forall q | 0 <= q < |entries| ensures FromOneOf(aligned, n, entries[q]) {
          if q < |before| {
            assert entries[q] == before[q];
          }
        }
      }
    }
  }

  /** The entries follow the order of the centre frame, so a centre frame sorted by id gives entries sorted by id. */
  lemma {:induction false} EmitSorted(aligned: seq<seq<Entity>>, n: nat)
    requires |aligned| == 5 && n <= |aligned[2]| && EmitUpTo(aligned, n).Some? && SortedById(aligned[2])
    ensures var entries := EmitUpTo(aligned, n).value;
      forall a, b :: 0 <= a < b < |entries| ==> entries[a].id <= entries[b].id
  {
    if n != 0 {
      var k := n - 1;
      EmitSorted(aligned, k);
      EmitFacts(aligned, k);
      var before := EmitUpTo(aligned, k).value;
      assert EntriesFrom(aligned, k, before);
      var entries := EmitUpTo(aligned, n).value;
      if aligned[2][k].id != -1 {
        assert entries == before + [Tracked(aligned[2][k].id, aligned[2][k].cls, WeightedSum(Column(aligned, k)))];
        forall a, b | 0 <= a < b < |entries| ensures entries[a].id <= entries[b].id {
          assert entries[a] == before[a];
          if b < |before| {
            assert entries[b] == before[b];
          } else {
            var k': nat :| k' < k && EntryFrom(aligned, k', before[a]);
          }
        }
      }
    }
  }

  /** Without a short column nothing raises. */
  lemma {:induction false} EmitTotal(aligned: seq<seq<Entity>>, n: nat)
    requires |aligned| == 5 && n <= |aligned[2]|
    requires forall k :: 0 <= k < n ==> Fits(aligned, k)
    ensures EmitUpTo(aligned, n).Some?
  {
    if n != 0 {
      EmitTotal(aligned, n - 1);
    }
  }

  /** The aligned frames hold entities of their own frame whose ids are common to the window, sorted by id. */
  lemma AlignedFacts(window: seq<seq<Entity>>, j: nat)
    requires |window| == 5 && j < 5
    ensures var a := Aligned(window)[j];
      && SortedById(a)
      && Ids(a) == Ids(window[j]) * CommonIds(window)
      && (forall e :: e in a ==> e in window[j] && e.id in CommonIds(window))
      && (DistinctIds(window[j]) ==> DistinctIds(a))
  {
    var kept := KeepIds(window[j], CommonIds(window));
    KeepIdsFacts(window[j], CommonIds(window));
    SortByIdFacts(kept);
  }

  /**
   * Every player `players_interpolate` emits for a window is a non-ball
   * track present in all five frames, carries the class of a centre-frame
   * entity with its id, and the entries come in id order.
   */
  lemma SmoothedEntries(window: seq<seq<Entity>>)
    requires |window| == 5 && SmoothedOf(window).Some?
    ensures var entries := SmoothedOf(window).value;
      forall q :: 0 <= q < |entries| ==>
        && entries[q].id != -1
        && (forall j :: 0 <= j < 5 ==> entries[q].id in Ids(window[j]))
        && exists e :: e in window[2] && e.id == entries[q].id && e.cls == entries[q].cls
    ensures var entries := SmoothedOf(window).value;
      forall a, b :: 0 <= a < b < |entries| ==> entries[a].id <= entries[b].id
  {
    var aligned := Aligned(window);
    var entries := SmoothedOf(window).value;
    AlignedFacts(window, 2);
    EmitFacts(aligned, |aligned[2]|);
    EmitSorted(aligned, |aligned[2]|);
    forall q | 0 <= q < |entries|
      ensures entries[q].id != -1
      ensures forall j :: 0 <= j < 5 ==> entries[q].id in Ids(window[j])
      ensures exists e :: e in window[2] && e.id == entries[q].id && e.cls == entries[q].cls
    {
      assert FromOneOf(aligned, |aligned[2]|, entries[q]);
      var k: nat :| k < |aligned[2]| && EntryFrom(aligned, k, entries[q]);
      var e := aligned[2][k];
      assert e in aligned[2];
      CommonIdsMembers(window, e.id);
    }
  }

  /** The positions of a list of entities. */
  function PosOf(es: seq<Entity>): (ps: seq<Point>)
    ensures |ps| == |es|
  {
    seq(|es|, j requires 0 <= j < |es| => es[j].pos)
  }

  /** Two id-sorted lists without repeated ids and with the same ids list the same ids in the same order. */
  lemma {:induction false} SortedSameIds(a: seq<Entity>, b: seq<Entity>)
    requires SortedById(a) && SortedById(b) && DistinctIds(a) && DistinctIds(b) && Ids(a) == Ids(b)
    ensures |a| == |b| && forall k :: 0 <= k < |a| ==> a[k].id == b[k].id
    decreases |a|
  {
    if |a| != 0 && |b| != 0 {
      IdsMembers(a, b[0].id);
      IdsMembers(b, a[0].id);
      assert a[0].id == b[0].id;
      assert Ids(a[1..]) == Ids(b[1..]);
      SortedSameIds(a[1..], b[1..]);
      forall k | 0 < k < |a| ensures a[k].id == b[k].id {
        assert a[1..][k - 1] == a[k] && b[1..][k - 1] == b[k];
      }
    }
  }

  /** With no repeated ids, each aligned frame holds exactly the common ids. */
  lemma AlignedIds(window: seq<seq<Entity>>, j: nat)
    requires |window| == 5 && j < 5
    ensures Ids(Aligned(window)[j]) == CommonIds(window)
  {
    AlignedFacts(window, j);
    forall id | id in CommonIds(window) ensures id in Ids(window[j]) {
      CommonIdsMembers(window, id);
    }
  }

  /** With no repeated ids, the aligned frames list the same ids at the same indices. */
  lemma AlignedColumns(window: seq<seq<Entity>>, j: nat)
    requires |window| == 5 && j < 5 && forall i :: 0 <= i < 5 ==> DistinctIds(window[i])
    ensures |Aligned(window)[j]| == |Aligned(window)[2]|
    ensures forall k :: 0 <= k < |Aligned(window)[2]| ==> Aligned(window)[j][k].id == Aligned(window)[2][k].id
  {
    AlignedFacts(window, j);
    AlignedFacts(window, 2);
    AlignedIds(window, j);
    AlignedIds(window, 2);
    SortedSameIds(Aligned(window)[j], Aligned(window)[2]);
  }

  /** When no frame repeats a track id, the window never raises. */
  lemma SmoothedWithDistinctIdsIsSome(window: seq<seq<Entity>>)
    requires |window| == 5 && forall j :: 0 <= j < 5 ==> DistinctIds(window[j])
    ensures SmoothedOf(window).Some?
  {
    var aligned := Aligned(window);
    forall k | 0 <= k < |aligned[2]| ensures Fits(aligned, k) {
      forall j | 0 <= j < 5 ensures k < |aligned[j]| {
        AlignedColumns(window, j);
      }
    }
    EmitTotal(aligned, |aligned[2]|);
  }

  /**
   * When no frame repeats a track id, every emitted position is the
   * weighted mean of the five positions of the entities with that id, one
   * from each frame.
   */
  lemma SmoothedWithDistinctIds(window: seq<seq<Entity>>)
    requires |window| == 5 && forall j :: 0 <= j < 5 ==> DistinctIds(window[j])
    ensures SmoothedOf(window).Some?
    ensures var entries := SmoothedOf(window).value;
      forall q :: 0 <= q < |entries| ==>
        exists es: seq<Entity> ::
          && |es| == 5
          && (forall j :: 0 <= j < 5 ==> es[j] in window[j] && es[j].id == entries[q].id)
          && entries[q].pos == WeightedSum(PosOf(es))
  {
    var aligned := Aligned(window);
    SmoothedWithDistinctIdsIsSome(window);
    EmitFacts(aligned, |aligned[2]|);
    var entries := SmoothedOf(window).value;
    forall q | 0 <= q < |entries|
      ensures exists es: seq<Entity> ::
        && |es| == 5
        && (forall j :: 0 <= j < 5 ==> es[j] in window[j] && es[j].id == entries[q].id)
        && entries[q].pos == WeightedSum(PosOf(es))
    {
      assert FromOneOf(aligned, |aligned[2]|, entries[q]);
      var k: nat :| k < |aligned[2]| && EntryFrom(aligned, k, entries[q]);
      ColumnEntities(window, k, entries[q]);
    }
  }

  /** The entities behind one emitted entry: the `k`-th of each aligned frame. */
  lemma ColumnEntities(window: seq<seq<Entity>>, k: nat, t: Tracked)
    requires |window| == 5 && forall j :: 0 <= j < 5 ==> DistinctIds(window[j])
    requires EntryFrom(Aligned(window), k, t)
    ensures exists es: seq<Entity> ::
      && |es| == 5
      && (forall j :: 0 <= j < 5 ==> es[j] in window[j] && es[j].id == t.id)
      && t.pos == WeightedSum(PosOf(es))
  {
    var aligned := Aligned(window);
    var es := Column2(aligned, k);
    forall j | 0 <= j < 5 ensures es[j] in window[j] && es[j].id == t.id {
      AlignedFacts(window, j);
      AlignedColumns(window, j);
      assert es[j] in aligned[j];
    }
    assert PosOf(es) == Column(aligned, k);
  }

  /** The `k`-th entity of each aligned frame. */
  function Column2(aligned: seq<seq<Entity>>, k: nat): (es: seq<Entity>)
    requires |aligned| == 5 && Fits(aligned, k)
    ensures |es| == 5 && forall j :: 0 <= j < 5 ==> es[j] == aligned[j][k]
  {
    seq(5, j requires 0 <= j < 5 => aligned[j][k])
  }

  /** The five entity lists centred on frame `i`. */
  function Window(frames: seq<Frame>, i: nat): (w: seq<seq<Entity>>)
    requires 2 <= i && i + 2 < |frames|
    ensures |w| == 5
  {
    seq(5, j requires 0 <= j < 5 => frames[i - 2 + j].entities)
  }

  /** The windows centred on frames `2, ..., n - 1`; `None` once one raises. */
  function PlayersUpTo(frames: seq<Frame>, n: nat): Option<seq<seq<Tracked>>>
    requires 2 <= n && n <= |frames| - 2
    decreases n
  {
    if n == 2 then Some([])
    else
      match PlayersUpTo(frames, n - 1)
      case None => None
      case Some(done) =>
        match SmoothedOf(Window(frames, n - 1))
        case None => None
        case Some(entries) => Some(done + [entries])
  }

  /** `players_interpolate`: the result for every centre frame of `range(2, len(frames) - 2)`. */
  function PlayersOf(frames: seq<Frame>): Option<seq<seq<Tracked>>>
  {
    if |frames| < 4 then Some([]) else PlayersUpTo(frames, |frames| - 2)
  }

  /** One more window: its result is appended, or the whole run raises. */
  lemma PlayersStep(frames: seq<Frame>, n: nat)
    requires 2 < n && n <= |frames| - 2
    ensures PlayersUpTo(frames, n) ==
      match PlayersUpTo(frames, n - 1)
      case None => None
      case Some(done) =>
        match SmoothedOf(Window(frames, n - 1))
        case None => None
        case Some(entries) => Some(done + [entries])
  {
  }

  lemma PlayersAppend(frames: seq<Frame>, n: nat, done: seq<seq<Tracked>>, entries: seq<Tracked>)
    requires 2 < n && n <= |frames| - 2
    requires PlayersUpTo(frames, n - 1) == Some(done) && SmoothedOf(Window(frames, n - 1)) == Some(entries)
    ensures PlayersUpTo(frames, n) == Some(done + [entries])
  {
    PlayersStep(frames, n);
  }

  lemma PlayersFail(frames: seq<Frame>, n: nat)
    requires 2 < n && n <= |frames| - 2 && SmoothedOf(Window(frames, n - 1)).None?
    ensures PlayersOf(frames).None?
  {
    PlayersStep(frames, n);
    PlayersNoneSticks(frames, n, |frames| - 2);
  }

  lemma {:induction false} PlayersUpToLength(frames: seq<Frame>, n: nat)
    requires 2 <= n && n <= |frames| - 2
    ensures PlayersUpTo(frames, n).Some? ==> |PlayersUpTo(frames, n).value| == n - 2
    decreases n
  {
    if n > 2 {
      PlayersUpToLength(frames, n - 1);
    }
  }

  lemma {:induction false} PlayersNoneSticks(frames: seq<Frame>, k: nat, n: nat)
    requires 2 <= k <= n <= |frames| - 2 && PlayersUpTo(frames, k).None?
    ensures PlayersUpTo(frames, n).None?
    decreases n
  {
    if k < n {
      PlayersNoneSticks(frames, k, n - 1);
      assert PlayersUpTo(frames, n - 1).None?;
    }
  }

  /**
   * `players_interpolate` without the file reading: one list of smoothed
   * players per centre frame, `max(0, n - 4)` lists for `n` frames, unless
   * some window raises.
   */
  method PlayersInterpolate(frames: seq<Frame>) returns (out: Option<seq<seq<Tracked>>>)
    ensures out == PlayersOf(frames)
    ensures out.Some? ==> |out.value| == if |frames| < 4 then 0 else |frames| - 4
  {
    if |frames| < 4 {
      return Some([]);
    }
    var smoothed: seq<seq<Tracked>> := [];
    for i := 2 to |frames| - 2
      invariant PlayersUpTo(frames, i) == Some(smoothed)
    {
      var entries := SmoothWindow(Window(frames, i));
      if entries.None? {
        PlayersFail(frames, i + 1);
        return None;
      }
      PlayersAppend(frames, i + 1, smoothed, entries.value);
      smoothed := smoothed + [entries.value];
    }
    out := Some(smoothed);
    PlayersUpToLength(frames, |frames| - 2);
  }

  // ---------------------------------------------------------------------------
  // `edges_interpolate`

  /** The edge list of frame `m`, or of the nearest earlier frame with a non-empty one. */
  function NearestEdges(frames: seq<Frame>, m: nat): Option<seq<Point>>
    requires m < |frames|
  {
    if frames[m].edges != [] then Some(frames[m].edges)
    else if m == 0 then None
    else NearestEdges(frames, m - 1)
  }

  /** Frame `k` is the last frame up to `m` with a non-empty edge list. */
  predicate LastWithEdges(frames: seq<Frame>, m: nat, k: nat)
    requires m < |frames|
  {
    k <= m && frames[k].edges != [] && forall k' :: k < k' <= m ==> frames[k'].edges == []
  }

  /** The carried edge list is that of the last frame up to `m` with edges. */
  lemma {:induction false} NearestEdgesSound(frames: seq<Frame>, m: nat)
    requires m < |frames| && NearestEdges(frames, m).Some?
    ensures exists k: nat :: LastWithEdges(frames, m, k) && frames[k].edges == NearestEdges(frames, m).value
  {
    if frames[m].edges == [] {
      NearestEdgesSound(frames, m - 1);
      var k: nat :| LastWithEdges(frames, m - 1, k) && frames[k].edges == NearestEdges(frames, m - 1).value;
      assert LastWithEdges(frames, m, k);
    } else {
      assert LastWithEdges(frames, m, m);
    }
  }

  /** Nothing is carried exactly when no frame up to `m` has edges. */
  lemma {:induction false} NearestEdgesNone(frames: seq<Frame>, m: nat)
    requires m < |frames|
    ensures NearestEdges(frames, m).None? <==> forall k :: 0 <= k <= m ==> frames[k].edges == []
  {
    if frames[m].edges == [] && m != 0 {
      NearestEdgesNone(frames, m - 1);
    }
  }

  /** The edge lists of the window centred on frame `i`, slot by slot; a slot with nothing to carry is skipped. */
  function EdgeWindow(frames: seq<Frame>, i: nat, j: nat): (w: seq<seq<Point>>)
    requires 2 <= i && i + 2 < |frames| && j <= 5
    ensures |w| <= j
  {
    if j == 0 then []
    else
      var w := EdgeWindow(frames, i, j - 1);
      match NearestEdges(frames, i - 2 + j - 1)
      case None => w
      case Some(e) => w + [e]
  }

  /** Every carried list is non-empty. */
  lemma {:induction false} EdgeWindowNonEmpty(frames: seq<Frame>, i: nat, j: nat)
    requires 2 <= i && i + 2 < |frames| && j <= 5
    ensures forall s :: 0 <= s < |EdgeWindow(frames, i, j)| ==> EdgeWindow(frames, i, j)[s] != []
  {
    if j != 0 {
      EdgeWindowNonEmpty(frames, i, j - 1);
      NearestEdgesPresent(frames, i - 2 + j - 1);
    }
  }

  lemma {:induction false} NearestEdgesPresent(frames: seq<Frame>, m: nat)
    requires m < |frames|
    ensures NearestEdges(frames, m).Some? ==> NearestEdges(frames, m).value != []
  {
    if frames[m].edges == [] && m != 0 {
      NearestEdgesPresent(frames, m - 1);
    }
  }

  /** Once some frame has had edges, every later frame carries some. */
  lemma {:induction false} NearestEdgesPersist(frames: seq<Frame>, m: nat, m': nat)
    requires m <= m' < |frames| && NearestEdges(frames, m).Some?
    ensures NearestEdges(frames, m').Some?
    decreases m'
  {
    if m < m' && frames[m'].edges == [] {
      NearestEdgesPersist(frames, m, m' - 1);
    }
  }

  /** When some frame up to `i - 2` had edges, the window has all five slots. */
  lemma {:induction false} EdgeWindowFull(frames: seq<Frame>, i: nat, j: nat)
    requires 2 <= i && i + 2 < |frames| && j <= 5 && NearestEdges(frames, i - 2).Some?
    ensures |EdgeWindow(frames, i, j)| == j
  {
    if j != 0 {
      EdgeWindowFull(frames, i, j - 1);
      NearestEdgesPersist(frames, i - 2, i - 2 + j - 1);
    }
  }

  /** The edge lists of the five frames centred on frame `i`, as recorded. */
  function OwnEdges(frames: seq<Frame>, i: nat): (w: seq<seq<Point>>)
    requires 2 <= i && i + 2 < |frames|
    ensures |w| == 5 && forall s :: 0 <= s < 5 ==> w[s] == frames[i - 2 + s].edges
  {
    seq(5, s requires 0 <= s < 5 => frames[i - 2 + s].edges)
  }

  /** When the five frames all have edges, the window holds exactly their lists. */
  lemma {:induction false} EdgeWindowOwn(frames: seq<Frame>, i: nat, j: nat)
    requires 2 <= i && i + 2 < |frames| && j <= 5
    requires forall s :: 0 <= s < 5 ==> OwnEdges(frames, i)[s] != []
    ensures EdgeWindow(frames, i, j) == OwnEdges(frames, i)[..j]
  {
    if j != 0 {
      EdgeWindowOwn(frames, i, j - 1);
      assert OwnEdges(frames, i)[j - 1] != [];
      assert NearestEdges(frames, i - 2 + j - 1) == Some(frames[i - 2 + j - 1].edges);
      assert OwnEdges(frames, i)[..j] == OwnEdges(frames, i)[..j - 1] + [frames[i - 2 + j - 1].edges];
    }
  }

  /** Every window list has a `k`-th vertex. */
  predicate Reaches(edges: seq<seq<Point>>, k: nat)
  {
    forall j :: 0 <= j < |edges| ==> k < |edges[j]|
  }

  /** The `k`-th vertex of every window list. */
  function EdgeColumn(edges: seq<seq<Point>>, k: nat): (ps: seq<Point>)
    requires Reaches(edges, k)
    ensures |ps| == |edges| && forall j :: 0 <= j < |edges| ==> ps[j] == edges[j][k]
  {
    seq(|edges|, j requires 0 <= j < |edges| => edges[j][k])
  }

  /** The smoothed vertices `0, ..., n - 1`; `None` when a list is too short (an `IndexError`). */
  function VerticesUpTo(edges: seq<seq<Point>>, n: nat): Option<seq<Point>>
    requires 3 <= |edges| <= 5 && n <= |edges[2]|
  {
    if n == 0 then Some([])
    else
      match VerticesUpTo(edges, n - 1)
      case None => None
      case Some(vs) =>
        if !Reaches(edges, n - 1) then None
        else Some(vs + [WeightedSum(EdgeColumn(edges, n - 1))])
  }

  /** The vertex list of one window: fewer than three lists is an `IndexError` on `edges[2]`. */
  function VerticesOf(edges: seq<seq<Point>>): Option<seq<Point>>
    requires |edges| <= 5
  {
    if |edges| < 3 then None else VerticesUpTo(edges, |edges[2]|)
  }

  /** With every column present, vertex `k` is the weighted sum of the window's `k`-th vertices. */
  lemma {:induction false} VerticesUpToFacts(edges: seq<seq<Point>>, n: nat)
    requires 3 <= |edges| <= 5 && n <= |edges[2]|
    ensures VerticesUpTo(edges, n).Some? <==> forall k :: 0 <= k < n ==> Reaches(edges, k)
    ensures VerticesUpTo(edges, n).Some? ==>
      && |VerticesUpTo(edges, n).value| == n
      && forall k :: 0 <= k < n ==> VerticesUpTo(edges, n).value[k] == WeightedSum(EdgeColumn(edges, k))
  {
    if n != 0 {
      VerticesUpToFacts(edges, n - 1);
      if VerticesUpTo(edges, n).Some? {
        var vs := VerticesUpTo(edges, n - 1).value;
        assert VerticesUpTo(edges, n).value == vs + [WeightedSum(EdgeColumn(edges, n - 1))];
      }
    }
  }

  /**
   * A window whose five frames all have as many edge vertices as its centre
   * smooths to that many vertices, each the weighted mean of the five
   * positions of that vertex.
   */
  lemma FullWindowVertices(frames: seq<Frame>, i: nat)
    requires 2 <= i && i + 2 < |frames|
    requires forall s :: 0 <= s < 5 ==> OwnEdges(frames, i)[s] != [] && |OwnEdges(frames, i)[s]| == |frames[i].edges|
    ensures VerticesOf(EdgeWindow(frames, i, 5)).Some?
    ensures var vs := VerticesOf(EdgeWindow(frames, i, 5)).value;
      && |vs| == |frames[i].edges|
      && forall k :: 0 <= k < |vs| ==> vs[k] == WeightedSum(EdgeColumn(OwnEdges(frames, i), k))
  {
    var w := EdgeWindow(frames, i, 5);
    EdgeWindowOwn(frames, i, 5);
    assert w == OwnEdges(frames, i);
    VerticesUpToFacts(w, |w[2]|);
  }

  /** Edges that do not move across the window are their own smoothing. */
  lemma StaticEdgesAreFixed(frames: seq<Frame>, i: nat)
    requires 2 <= i && i + 2 < |frames| && frames[i].edges != []
    requires forall s :: 0 <= s < 5 ==> OwnEdges(frames, i)[s] == frames[i].edges
    ensures VerticesOf(EdgeWindow(frames, i, 5)) == Some(frames[i].edges)
  {
    FullWindowVertices(frames, i);
    var vs := VerticesOf(EdgeWindow(frames, i, 5)).value;
    forall k | 0 <= k < |vs| ensures vs[k] == frames[i].edges[k] {
      ConstantWindow(EdgeColumn(OwnEdges(frames, i), k), frames[i].edges[k]);
    }
    assert vs == frames[i].edges;
  }

  /** The windows centred on frames `2, ..., n - 1`; `None` once one raises. */
  function EdgesUpTo(frames: seq<Frame>, n: nat): Option<seq<seq<Point>>>
    requires 2 <= n && n <= |frames| - 2
    decreases n
  {
    if n == 2 then Some([])
    else
      match EdgesUpTo(frames, n - 1)
      case None => None
      case Some(done) =>
        match VerticesOf(EdgeWindow(frames, n - 1, 5))
        case None => None
        case Some(vs) => Some(done + [vs])
  }

  /** `edges_interpolate`: the smoothed vertex list for every centre frame of `range(2, len(frames) - 2)`. */
  function EdgesOf(frames: seq<Frame>): Option<seq<seq<Point>>>
  {
    if |frames| < 4 then Some([]) else EdgesUpTo(frames, |frames| - 2)
  }

  lemma EdgesAppend(frames: seq<Frame>, n: nat, done: seq<seq<Point>>, vs: seq<Point>)
    requires 2 < n && n <= |frames| - 2
    requires EdgesUpTo(frames, n - 1) == Some(done) && VerticesOf(EdgeWindow(frames, n - 1, 5)) == Some(vs)
    ensures EdgesUpTo(frames, n) == Some(done + [vs])
  {
  }

  lemma {:induction false} EdgesNoneSticks(frames: seq<Frame>, k: nat, n: nat)
    requires 2 <= k <= n <= |frames| - 2 && EdgesUpTo(frames, k).None?
    ensures EdgesUpTo(frames, n).None?
    decreases n
  {
    if k < n {
      EdgesNoneSticks(frames, k, n - 1);
      assert EdgesUpTo(frames, n - 1).None?;
    }
  }

  lemma EdgesFail(frames: seq<Frame>, n: nat)
    requires 2 < n && n <= |frames| - 2 && VerticesOf(EdgeWindow(frames, n - 1, 5)).None?
    ensures EdgesOf(frames).None?
  {
    assert EdgesUpTo(frames, n).None?;
    EdgesNoneSticks(frames, n, |frames| - 2);
  }

  lemma {:induction false} EdgesUpToLength(frames: seq<Frame>, n: nat)
    requires 2 <= n && n <= |frames| - 2
    ensures EdgesUpTo(frames, n).Some? ==> |EdgesUpTo(frames, n).value| == n - 2
    decreases n
  {
    if n > 2 {
      EdgesUpToLength(frames, n - 1);
    }
  }

  /** The backward search for the nearest earlier frame with edges, when frame `m` has none. */
  method FindEdges(frames: seq<Frame>, m: nat) returns (r: Option<seq<Point>>)
    requires m < |frames|
    ensures r == NearestEdges(frames, m)
  {
    if frames[m].edges != [] {
      return Some(frames[m].edges);
    }
    var k := m;
    while k > 0
      invariant k <= m && frames[k].edges == [] && NearestEdges(frames, k) == NearestEdges(frames, m)
    {
      k := k - 1;
      if frames[k].edges != [] {
        return Some(frames[k].edges);
      }
    }
    return None;
  }

  /** The inner loop of `edges_interpolate`: the five slots of the window centred on frame `i`. */
  method CarriedWindow(frames: seq<Frame>, i: nat) returns (edges: seq<seq<Point>>)
    requires 2 <= i && i + 2 < |frames|
    ensures edges == EdgeWindow(frames, i, 5)
  {
    edges := [];
    for j := 0 to 5
      invariant edges == EdgeWindow(frames, i, j)
    {
      var carried := FindEdges(frames, i - 2 + j);
      if carried.Some? {
        edges := edges + [carried.value];
      }
    }
  }

  /** The list comprehension over the vertices of the third window list. */
  method SmoothEdges(edges: seq<seq<Point>>) returns (out: Option<seq<Point>>)
    requires |edges| <= 5
    ensures out == VerticesOf(edges)
  {
    if |edges| < 3 {
      return None;
    }
    var vs: seq<Point> := [];
    for k := 0 to |edges[2]|
      invariant VerticesUpTo(edges, k) == Some(vs)
    {
      if !Reaches(edges, k) {
        VerticesNoneSticks(edges, k + 1, |edges[2]|);
        return None;
      }
      var p := Interpolate(EdgeColumn(edges, k));
      vs := vs + [p];
    }
    out := Some(vs);
  }

  lemma {:induction false} VerticesNoneSticks(edges: seq<seq<Point>>, k: nat, n: nat)
    requires 3 <= |edges| <= 5 && k <= n <= |edges[2]| && VerticesUpTo(edges, k).None?
    ensures VerticesUpTo(edges, n).None?
    decreases n
  {
    if k < n {
      VerticesNoneSticks(edges, k, n - 1);
    }
  }

  /**
   * `edges_interpolate` without the file reading: one smoothed vertex list
   * per centre frame, unless some window raises.
   */
  method EdgesInterpolate(frames: seq<Frame>) returns (out: Option<seq<seq<Point>>>)
    ensures out == EdgesOf(frames)
    ensures out.Some? ==> |out.value| == if |frames| < 4 then 0 else |frames| - 4
  {
    if |frames| < 4 {
      return Some([]);
    }
    var smoothed: seq<seq<Point>> := [];
    for i := 2 to |frames| - 2
      invariant EdgesUpTo(frames, i) == Some(smoothed)
    {
      var edges := CarriedWindow(frames, i);
      var vs := SmoothEdges(edges);
      if vs.None? {
        EdgesFail(frames, i + 1);
        return None;
      }
      EdgesAppend(frames, i + 1, smoothed, vs.value);
      smoothed := smoothed + [vs.value];
    }
    out := Some(smoothed);
    EdgesUpToLength(frames, |frames| - 2);
  }
}
