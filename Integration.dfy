/**
 * The glue of `analytics/integration.py`: the tracker output (one list of
 * detections per frame) is cleaned and reshaped into the inputs of the
 * possession, space-control, passing and heat-map analyzers. Frames are
 * lists the source mutates in place (`data[i].pop(j)`), so they live in an
 * `array<seq<Detection>>`; heat-map grids are `array2<int>` counters.
 */
module Integration {
  import opened Numerics
  import Interpolate

  /** A detection: track id, class id (0 ball, 1 home, 2 away, 3 referee) and pitch position. */
  type Detection = Interpolate.Entity

  // ---------------------------------------------------------------------------
  // Removing classes: collect `[i, j]`, sort by `j` descending, pop

  /** The index pair `[i, j]` of detection `j` of frame `i`. */
  datatype Slot = Slot(frame: nat, index: nat)

  /** No slot occurs twice. */
  predicate NoDup(s: seq<Slot>)
  {
    forall a, b :: 0 <= a < b < |s| ==> s[a] != s[b]
  }

  /** The slots of the first `n` detections of frame `f` whose class is removed, in index order. */
  function FrameSlots(s: seq<Detection>, f: nat, classes: set<int>, n: nat): seq<Slot>
    requires n <= |s|
  {
    if n == 0 then []
    else FrameSlots(s, f, classes, n - 1) + (if s[n - 1].cls in classes then [Slot(f, n - 1)] else [])
  }

  /** The slots collected from frames `0, ..., m - 1`, frame by frame. */
  function SlotsUpTo(data: seq<seq<Detection>>, classes: set<int>, m: nat): seq<Slot>
    requires m <= |data|
  {
    if m == 0 then []
    else SlotsUpTo(data, classes, m - 1) + FrameSlots(data[m - 1], m - 1, classes, |data[m - 1]|)
  }

  lemma {:induction false} FrameSlotsFacts(s: seq<Detection>, f: nat, classes: set<int>, n: nat)
    requires n <= |s|
    ensures forall x :: x in FrameSlots(s, f, classes, n) <==> x.frame == f && x.index < n && s[x.index].cls in classes
    ensures NoDup(FrameSlots(s, f, classes, n))
  {
    if n != 0 {
      FrameSlotsFacts(s, f, classes, n - 1);
    }
  }

  /** A slot is collected exactly when it names a detection of a removed class. */
  lemma {:induction false} SlotsMembers(data: seq<seq<Detection>>, classes: set<int>, m: nat)
    requires m <= |data|
    ensures forall x :: x in SlotsUpTo(data, classes, m) <==>
      x.frame < m && x.index < |data[x.frame]| && data[x.frame][x.index].cls in classes
  {
    if m != 0 {
      SlotsMembers(data, classes, m - 1);
      FrameSlotsFacts(data[m - 1], m - 1, classes, |data[m - 1]|);
    }
  }

  /** No slot is collected twice. */
  lemma {:induction false} SlotsDistinct(data: seq<seq<Detection>>, classes: set<int>, m: nat)
    requires m <= |data|
    ensures NoDup(SlotsUpTo(data, classes, m))
  {
    if m != 0 {
      var a := SlotsUpTo(data, classes, m - 1);
      var b := FrameSlots(data[m - 1], m - 1, classes, |data[m - 1]|);
      SlotsDistinct(data, classes, m - 1);
      SlotsMembers(data, classes, m - 1);
      FrameSlotsFacts(data[m - 1], m - 1, classes, |data[m - 1]|);
      forall p, q | 0 <= p < q < |a + b| ensures (a + b)[p] != (a + b)[q] {
        if q < |a| {
          assert (a + b)[p] == a[p] && (a + b)[q] == a[q];
        } else if p < |a| {
          assert (a + b)[p] == a[p] && (a + b)[q] == b[q - |a|];
          assert a[p] in a && b[q - |a|] in b;
        } else {
          assert (a + b)[p] == b[p - |a|] && (a + b)[q] == b[q - |a|];
        }
      }
    }
  }

  /** The collecting loops of the removal. */
  method CollectSlots(data: array<seq<Detection>>, classes: set<int>) returns (slots: seq<Slot>)
    ensures slots == SlotsUpTo(data[..], classes, data.Length)
  {
    slots := [];
    for i := 0 to data.Length
      invariant slots == SlotsUpTo(data[..], classes, i)
    {
      var frame := data[i];
      for j := 0 to |frame|
        invariant slots == SlotsUpTo(data[..], classes, i) + FrameSlots(frame, i, classes, j)
      {
        if frame[j].cls in classes {
          slots := slots + [Slot(i, j)];
        }
      }
    }
  }

  /** Inserting `x` before the first slot whose index is not larger: the stable step of `sorted(..., reverse=True)`. */
  function InsertDesc(x: Slot, s: seq<Slot>): (r: seq<Slot>)
    ensures |r| == |s| + 1
  {
    if |s| == 0 || s[0].index <= x.index then [x] + s
    else [s[0]] + InsertDesc(x, s[1..])
  }

  /** `sorted(slots, key=lambda x: x[1], reverse=True)` */
  function SortDesc(s: seq<Slot>): (r: seq<Slot>)
    ensures |r| == |s|
  {
    if |s| == 0 then [] else InsertDesc(s[0], SortDesc(s[1..]))
  }

  /** Indices never increase along the list. */
  predicate Descending(s: seq<Slot>)
  {
    forall a, b :: 0 <= a < b < |s| ==> s[b].index <= s[a].index
  }

  lemma {:induction false} InsertDescMembers(x: Slot, s: seq<Slot>)
    ensures forall y :: y in InsertDesc(x, s) <==> y == x || y in s
    ensures NoDup(s) && x !in s ==> NoDup(InsertDesc(x, s))
  {
    if |s| != 0 && x.index < s[0].index {
      var rest := InsertDesc(x, s[1..]);
      InsertDescMembers(x, s[1..]);
      assert InsertDesc(x, s) == [s[0]] + rest;
      assert s == [s[0]] + s[1..];
      if NoDup(s) && x !in s {
        assert NoDup(s[1..]) by {
          forall a, b | 0 <= a < b < |s[1..]| ensures s[1..][a] != s[1..][b] {
            assert s[1..][a] == s[a + 1] && s[1..][b] == s[b + 1];
          }
        }
        assert s[0] !in s[1..] by {
          forall k | 0 <= k < |s[1..]| ensures s[1..][k] != s[0] {
            assert s[1..][k] == s[k + 1];
          }
        }
        forall a, b | 0 <= a < b < |[s[0]] + rest| ensures ([s[0]] + rest)[a] != ([s[0]] + rest)[b] {
          if a == 0 {
            assert ([s[0]] + rest)[b] == rest[b - 1];
            assert rest[b - 1] in rest;
          } else {
            assert ([s[0]] + rest)[a] == rest[a - 1] && ([s[0]] + rest)[b] == rest[b - 1];
          }
        }
      }
    } else {
      if NoDup(s) && x !in s {
        forall a, b | 0 <= a < b < |[x] + s| ensures ([x] + s)[a] != ([x] + s)[b] {
          if a == 0 {
            assert ([x] + s)[b] == s[b - 1];
          } else {
            assert ([x] + s)[a] == s[a - 1] && ([x] + s)[b] == s[b - 1];
          }
        }
      }
    }
  }

  lemma {:induction false} InsertDescSorted(x: Slot, s: seq<Slot>)
    requires Descending(s)
    ensures Descending(InsertDesc(x, s))
  {
    if |s| != 0 && x.index < s[0].index {
      var rest := InsertDesc(x, s[1..]);
      InsertDescSorted(x, s[1..]);
      InsertDescMembers(x, s[1..]);
      assert InsertDesc(x, s) == [s[0]] + rest;
      forall b | 0 <= b < |rest| ensures rest[b].index <= s[0].index {
        assert rest[b] in rest;
        if rest[b] != x {
          var k :| 0 <= k < |s[1..]| && s[1..][k] == rest[b];
          assert s[k + 1] == rest[b];
        }
      }
    }
  }

  /** The sort keeps the same slots, without repeating one, in descending index order. */
  lemma {:induction false} SortDescFacts(s: seq<Slot>)
    ensures Descending(SortDesc(s))
    ensures forall y :: y in SortDesc(s) <==> y in s
    ensures NoDup(s) ==> NoDup(SortDesc(s))
  {
    if |s| != 0 {
      var rest := SortDesc(s[1..]);
      SortDescFacts(s[1..]);
      InsertDescSorted(s[0], rest);
      InsertDescMembers(s[0], rest);
      assert s == [s[0]] + s[1..];
      if NoDup(s) {
        assert NoDup(s[1..]) by {
          forall a, b | 0 <= a < b < |s[1..]| ensures s[1..][a] != s[1..][b] {
            assert s[1..][a] == s[a + 1] && s[1..][b] == s[b + 1];
          }
        }
        assert s[0] !in s[1..] by {
          forall k | 0 <= k < |s[1..]| ensures s[1..][k] != s[0] {
            assert s[1..][k] == s[k + 1];
          }
        }
      }
    }
  }

  /** The detections of `s[k..]` (frame `f`) whose slots are not in `gone`: the frame after popping `gone`. */
  function Survivors(s: seq<Detection>, f: nat, gone: set<Slot>, k: nat): seq<Detection>
    requires k <= |s|
    decreases |s| - k
  {
    if k == |s| then []
    else (if Slot(f, k) in gone then [] else [s[k]]) + Survivors(s, f, gone, k + 1)
  }

  /** Two sets of popped slots that agree on frame `f` from index `k` on leave the same survivors. */
  lemma {:induction false} SurvivorsAgree(s: seq<Detection>, f: nat, gone: set<Slot>, gone': set<Slot>, k: nat)
    requires k <= |s|
    requires forall k' :: k <= k' < |s| ==> (Slot(f, k') in gone <==> Slot(f, k') in gone')
    ensures Survivors(s, f, gone, k) == Survivors(s, f, gone', k)
    decreases |s| - k
  {
    if k < |s| {
      SurvivorsAgree(s, f, gone, gone', k + 1);
    }
  }

  /** Below the lowest popped index of the frame, the survivors are the frame itself. */
  lemma {:induction false} SurvivorsPrefix(s: seq<Detection>, f: nat, gone: set<Slot>, k: nat, j: nat)
    requires k <= j <= |s|
    requires forall k' :: k <= k' < j ==> Slot(f, k') !in gone
    ensures Survivors(s, f, gone, k) == s[k..j] + Survivors(s, f, gone, j)
    decreases j - k
  {
    if k < j {
      var rest := Survivors(s, f, gone, j);
      SurvivorsPrefix(s, f, gone, k + 1, j);
      assert Survivors(s, f, gone, k) == [s[k]] + (s[k + 1..j] + rest);
      assert [s[k]] + (s[k + 1..j] + rest) == ([s[k]] + s[k + 1..j]) + rest;
      assert [s[k]] + s[k + 1..j] == s[k..j];
    }
  }

  /** Nothing popped: the frame is unchanged. */
  lemma SurvivorsOfNothing(s: seq<Detection>, f: nat)
    ensures Survivors(s, f, {}, 0) == s
  {
    SurvivorsPrefix(s, f, {}, 0, |s|);
    assert s[0..|s|] == s;
  }

  /** Cutting `a + [x] + b` around `x`. */
  lemma CutAround(a: seq<Detection>, x: Detection, b: seq<Detection>)
    ensures var c := a + ([x] + b); |a| < |c| && c[..|a|] == a && c[|a| + 1..] == b
  {
  }

  /**
   * `data[f].pop(j)` on a frame from which only slots above `j` were popped
   * removes original detection `j`.
   */
  lemma PopStep(s: seq<Detection>, f: nat, gone: set<Slot>, j: nat)
    requires j < |s| && Slot(f, j) !in gone
    requires forall g :: g in gone && g.frame == f ==> j < g.index
    ensures var cur := Survivors(s, f, gone, 0);
      j < |cur| && cur[..j] + cur[j + 1..] == Survivors(s, f, gone + {Slot(f, j)}, 0)
  {
    var gone' := gone + {Slot(f, j)};
    var head, tail := s[0..j], Survivors(s, f, gone, j + 1);
    SurvivorsPrefix(s, f, gone, 0, j);
    SurvivorsPrefix(s, f, gone', 0, j);
    SurvivorsAgree(s, f, gone', gone, j + 1);
    assert Survivors(s, f, gone, j) == [s[j]] + tail;
    assert Survivors(s, f, gone', j) == tail;
    var cur := Survivors(s, f, gone, 0);
    assert cur == head + ([s[j]] + tail);
    assert Survivors(s, f, gone', 0) == head + tail;
    CutAround(head, s[j], tail);
  }

  /** `[d for d in s if d.cls not in classes]`: what the removal should leave. */
  function Keep(s: seq<Detection>, classes: set<int>): seq<Detection>
  {
    if |s| == 0 then []
    else (if s[0].cls in classes then [] else [s[0]]) + Keep(s[1..], classes)
  }

  /** Once the popped slots are exactly the removed-class slots, the survivors are `Keep`. */
  lemma {:induction false} SurvivorsKeep(s: seq<Detection>, f: nat, gone: set<Slot>, classes: set<int>, k: nat)
    requires k <= |s|
    requires forall k' :: k <= k' < |s| ==> (Slot(f, k') in gone <==> s[k'].cls in classes)
    ensures Survivors(s, f, gone, k) == Keep(s[k..], classes)
    decreases |s| - k
  {
    if k < |s| {
      SurvivorsKeep(s, f, gone, classes, k + 1);
      assert s[k..][1..] == s[k + 1..];
    }
  }

  /** Keeping distributes over concatenation: the survivors stay in their order. */
  lemma {:induction false} KeepAppend(a: seq<Detection>, b: seq<Detection>, classes: set<int>)
    ensures Keep(a + b, classes) == Keep(a, classes) + Keep(b, classes)
  {
    if |a| != 0 {
      KeepAppend(a[1..], b, classes);
      assert (a + b)[1..] == a[1..] + b;
    } else {
      assert a + b == b;
    }
  }

  /** Nothing of a removed class survives, and every other detection does. */
  lemma {:induction false} KeepMembers(s: seq<Detection>, classes: set<int>)
    ensures forall d :: d in Keep(s, classes) <==> d in s && d.cls !in classes
  {
    if |s| != 0 {
      KeepMembers(s[1..], classes);
      assert s == [s[0]] + s[1..];
    }
  }

  /** The set of the slots in `s`. */
  function SlotSet(s: seq<Slot>): set<Slot>
  {
    set x | x in s
  }

  /** The pop loop: each listed slot is popped, in list order. */
  method PopSlots(data: array<seq<Detection>>, order: seq<Slot>)
    requires NoDup(order) && Descending(order)
    requires forall x :: x in order ==> x.frame < data.Length && x.index < |data[x.frame]|
    modifies data
    ensures forall f :: 0 <= f < data.Length ==> data[f] == Survivors(old(data[f]), f, SlotSet(order), 0)
  {
    ghost var orig := data[..];
    ghost var gone: set<Slot> := {};
    forall f | 0 <= f < data.Length ensures data[f] == Survivors(orig[f], f, gone, 0) {
      SurvivorsOfNothing(orig[f], f);
    }
    for p := 0 to |order|
      invariant gone == SlotSet(order[..p])
      invariant forall f :: 0 <= f < data.Length ==> data[f] == Survivors(orig[f], f, gone, 0)
    {
      var x := order[p];
      assert x in order;
      PopBelowGone(order, p);
      PopStep(orig[x.frame], x.frame, gone, x.index);
      OtherFramesUnchanged(orig, gone, x);
      data[x.frame] := data[x.frame][..x.index] + data[x.frame][x.index + 1..];
      gone := gone + {x};
      assert order[..p + 1] == order[..p] + [x];
    }
    assert order[..|order|] == order;
  }

  /** The slot popped at step `p` lies below every slot popped before it in the same frame. */
  lemma PopBelowGone(order: seq<Slot>, p: nat)
    requires NoDup(order) && Descending(order) && p < |order|
    ensures order[p] !in SlotSet(order[..p])
    ensures forall g :: g in SlotSet(order[..p]) && g.frame == order[p].frame ==> order[p].index < g.index
  {
    forall g | g in SlotSet(order[..p])
      ensures g != order[p]
      ensures g.frame == order[p].frame ==> order[p].index < g.index
    {
      var q :| 0 <= q < p && order[..p][q] == g;
      assert order[q] == g;
    }
  }

  /** Popping a slot of one frame leaves the survivors of every other frame alone. */
  lemma OtherFramesUnchanged(orig: seq<seq<Detection>>, gone: set<Slot>, x: Slot)
    ensures forall f :: 0 <= f < |orig| && f != x.frame ==>
      Survivors(orig[f], f, gone + {x}, 0) == Survivors(orig[f], f, gone, 0)
  {
    forall f | 0 <= f < |orig| && f != x.frame
      ensures Survivors(orig[f], f, gone + {x}, 0) == Survivors(orig[f], f, gone, 0)
    {
      SurvivorsAgree(orig[f], f, gone + {x}, gone, 0);
    }
  }

  /**
   * The removal loops of `space_control_integrate` and `heatmap_integrate`:
   * afterwards every frame holds exactly its detections of the other classes,
   * in their original order.
   */
  method RemoveClasses(data: array<seq<Detection>>, classes: set<int>)
    modifies data
    ensures forall f :: 0 <= f < data.Length ==> data[f] == Keep(old(data[f]), classes)
  {
    ghost var orig := data[..];
    var slots := CollectSlots(data, classes);
    var order := SortDesc(slots);
    SlotsMembers(orig, classes, data.Length);
    SlotsDistinct(orig, classes, data.Length);
    SortDescFacts(slots);
    PopSlots(data, order);
    forall f | 0 <= f < data.Length ensures data[f] == Keep(orig[f], classes) {
      SurvivorsKeep(orig[f], f, SlotSet(order), classes, 0);
      assert orig[f][0..] == orig[f];
    }
  }

  // ---------------------------------------------------------------------------
  // `frame_velocity`

  /** An entry of a player's position list: the frame number and the position. */
  datatype Sample = Sample(frame: int, pos: Point)

  /** A velocity; two samples of the same frame divide by a zero time step and give `inf`/`nan`. */
  datatype Velocity = Finite(v: Point) | NonFinite

  /** Seconds between two samples: `frame_diff / frame_rate`. */
  function TimeStep(a: Sample, b: Sample, frameRate: real): real
    requires frameRate != 0.0
  {
    (b.frame - a.frame) as real / frameRate
  }

  /** `position_diff / time_diff` */
  function StepVelocity(a: Sample, b: Sample, frameRate: real): Velocity
    requires frameRate != 0.0
  {
    var dt := TimeStep(a, b, frameRate);
    if dt == 0.0 then NonFinite
    else Finite(Point((b.pos.x - a.pos.x) / dt, (b.pos.y - a.pos.y) / dt))
  }

  /** The velocity list of one player: `(0, 0)` first, then one entry per later sample. */
  function TrackVelocities(track: seq<Sample>, frameRate: real): (vs: seq<Velocity>)
    requires frameRate != 0.0
    ensures |vs| == if |track| == 0 then 1 else |track|
  {
    [Finite(Point(0.0, 0.0))] +
      seq(if |track| == 0 then 0 else |track| - 1,
        i requires 0 <= i < |track| - 1 => StepVelocity(track[i], track[i + 1], frameRate))
  }

  /**
   * Entry `i > 0` is finite exactly when samples `i - 1` and `i` come from
   * different frames, and then moving from sample `i - 1` at that velocity
   * for the time between them lands on sample `i`.
   */
  lemma VelocityReconstructs(track: seq<Sample>, frameRate: real, i: nat)
    requires frameRate != 0.0 && 0 < i < |track|
    ensures TrackVelocities(track, frameRate)[i].Finite? <==> track[i].frame != track[i - 1].frame
    ensures var v := TrackVelocities(track, frameRate)[i];
      var dt := TimeStep(track[i - 1], track[i], frameRate);
      v.Finite? ==>
        track[i - 1].pos.x + Mul(v.v.x, dt) == track[i].pos.x && track[i - 1].pos.y + Mul(v.v.y, dt) == track[i].pos.y
  {
    var a, b := track[i - 1], track[i];
    var dt := TimeStep(a, b, frameRate);
    assert TrackVelocities(track, frameRate)[i] == StepVelocity(a, b, frameRate);
    FrameGapTime(a.frame, b.frame, frameRate);
    if dt != 0.0 {
      QuotientTimesDivisor(b.pos.x - a.pos.x, dt);
      QuotientTimesDivisor(b.pos.y - a.pos.y, dt);
    }
  }

  /** The time step is zero exactly when the frame numbers agree. */
  lemma FrameGapTime(f: int, g: int, frameRate: real)
    requires frameRate != 0.0
    ensures (g - f) as real / frameRate == 0.0 <==> f == g
  {
    if f != g {
      var q := (g - f) as real / frameRate;
      QuotientTimesDivisor((g - f) as real, frameRate);
    }
  }

  /** The first velocity of every player is zero. */
  lemma FirstVelocityIsZero(track: seq<Sample>, frameRate: real)
    requires frameRate != 0.0
    ensures TrackVelocities(track, frameRate)[0] == Finite(Point(0.0, 0.0))
  {
  }

  /** The inner loop of `frame_velocity`. */
  method PlayerVelocities(track: seq<Sample>, frameRate: real) returns (vs: seq<Velocity>)
    requires frameRate != 0.0
    ensures vs == TrackVelocities(track, frameRate)
  {
    vs := [Finite(Point(0.0, 0.0))];
    if |track| == 0 {
      return;
    }
    for i := 1 to |track|
      invariant |vs| == i
      invariant vs == TrackVelocities(track[..i], frameRate)
    {
      var frameDiff := track[i].frame - track[i - 1].frame;
      var timeDiff := frameDiff as real / frameRate;
      var v := if timeDiff == 0.0 then NonFinite
        else Finite(Point((track[i].pos.x - track[i - 1].pos.x) / timeDiff, (track[i].pos.y - track[i - 1].pos.y) / timeDiff));
      assert v == StepVelocity(track[i - 1], track[i], frameRate);
      vs := vs + [v];
    }
    assert track[..|track|] == track;
  }

  /**
   * `frame_velocity(player_positions, frame_rate)`: one velocity list per
   * player. The dictionary is given by its map and its keys in insertion
   * order, the order Python iterates it in.
   */
  method FrameVelocity(players: seq<int>, tracks: map<int, seq<Sample>>, frameRate: real)
    returns (velocity: map<int, seq<Velocity>>)
    requires frameRate != 0.0 && forall p :: p in players ==> p in tracks
    ensures forall p :: p in velocity <==> p in players
    ensures forall p :: p in players ==> velocity[p] == TrackVelocities(tracks[p], frameRate)
  {
    velocity := map[];
    for k := 0 to |players|
      invariant forall p :: p in velocity <==> p in players[..k]
      invariant forall p :: p in velocity ==> velocity[p] == TrackVelocities(tracks[p], frameRate)
    {
      var p := players[k];
      var vs := PlayerVelocities(tracks[p], frameRate);
      velocity := velocity[p := vs];
      assert players[..k + 1] == players[..k] + [p];
    }
    assert players[..|players|] == players;
  }

  // ---------------------------------------------------------------------------
  // `ball_possession_integrate`: the per-frame analyzer inputs

  /** The position of the last class-0 detection of `frame`, if any. */
  function LastBall(frame: seq<Detection>): Option<Point>
  {
    if |frame| == 0 then None
    else if frame[|frame| - 1].cls == 0 then Some(frame[|frame| - 1].pos)
    else LastBall(frame[..|frame| - 1])
  }

  /** `LastBall` is the last ball detection of the frame, and `None` exactly when the frame has no ball. */
  lemma {:induction false} LastBallFacts(frame: seq<Detection>)
    ensures LastBall(frame).None? <==> forall j :: 0 <= j < |frame| ==> frame[j].cls != 0
    ensures LastBall(frame).Some? ==> exists j :: 0 <= j < |frame| && IsLastBall(frame, j) && frame[j].pos == LastBall(frame).value
  {
    if |frame| != 0 {
      var n := |frame| - 1;
      LastBallFacts(frame[..n]);
      if frame[n].cls == 0 {
        assert IsLastBall(frame, n);
      } else {
        assert forall j :: 0 <= j < n ==> frame[..n][j] == frame[j];
        if LastBall(frame).Some? {
          var j :| 0 <= j < n && IsLastBall(frame[..n], j) && frame[..n][j].pos == LastBall(frame[..n]).value;
          assert IsLastBall(frame, j);
        }
      }
    }
  }

  /** Detection `j` is a ball and no later detection of the frame is. */
  predicate IsLastBall(frame: seq<Detection>, j: int)
  {
    0 <= j < |frame| && frame[j].cls == 0 && forall k :: j < k < |frame| ==> frame[k].cls != 0
  }

  /** The players of class `cls` among the detections, as `(id, position)` pairs, in frame order. */
  function Side(frame: seq<Detection>, cls: int): seq<Player>
  {
    if |frame| == 0 then []
    else
      var rest := Side(frame[..|frame| - 1], cls);
      var d := frame[|frame| - 1];
      if d.cls == cls then rest + [Player(d.id, d.pos)] else rest
  }

  /** A player is listed for a side exactly when some detection of that class has its id and position. */
  lemma {:induction false} SideMembers(frame: seq<Detection>, cls: int)
    ensures forall p :: p in Side(frame, cls) <==> exists j :: 0 <= j < |frame| && frame[j].cls == cls && frame[j].id == p.id && frame[j].pos == p.pos
  {
    if |frame| != 0 {
      var n := |frame| - 1;
      SideMembers(frame[..n], cls);
      assert forall j :: 0 <= j < n ==> frame[..n][j] == frame[j];
    }
  }

  /** The ball position after the first `n` frames: carried forward from `start` through frames without a ball. */
  function CarriedBall(data: seq<seq<Detection>>, n: nat, start: Point): Point
    requires n <= |data|
  {
    if n == 0 then start
    else match LastBall(data[n - 1])
      case Some(p) => p
      case None => CarriedBall(data, n - 1, start)
  }

  /** With no ball seen in the first `n` frames, the ball stays at its starting point. */
  lemma {:induction false} NoBallStaysAtStart(data: seq<seq<Detection>>, n: nat, start: Point)
    requires n <= |data| && forall k :: 0 <= k < n ==> LastBall(data[k]).None?
    ensures CarriedBall(data, n, start) == start
  {
    if n != 0 {
      NoBallStaysAtStart(data, n - 1, start);
    }
  }

  /** Otherwise it is the last ball detection of the latest frame that had one. */
  lemma {:induction false} BallIsLatestSeen(data: seq<seq<Detection>>, n: nat, start: Point, k: nat)
    requires k < n <= |data| && LastBall(data[k]).Some?
    requires forall k' :: k < k' < n ==> LastBall(data[k']).None?
    ensures CarriedBall(data, n, start) == LastBall(data[k]).value
  {
    if k < n - 1 {
      BallIsLatestSeen(data, n - 1, start, k);
    }
  }

  /** What `analyze_possession` receives for frame `j`. */
  datatype PossessionInput = PossessionInput(timestamp: real, ball: Point, home: seq<Player>, away: seq<Player>)

  /** The inputs for frame `j`: timestamp `j / frame_rate`, the carried ball, the class-1 and class-2 players. */
  function InputOf(data: seq<seq<Detection>>, j: nat, start: Point, frameRate: real): PossessionInput
    requires j < |data| && frameRate != 0.0
  {
    PossessionInput(j as real / frameRate, CarriedBall(data, j + 1, start), Side(data[j], 1), Side(data[j], 2))
  }

  /** The loop over one frame's detections. */
  method ScanFrame(frame: seq<Detection>, ball: Point) returns (ball': Point, home: seq<Player>, away: seq<Player>)
    ensures ball' == match LastBall(frame) case Some(p) => p case None => ball
    ensures home == Side(frame, 1) && away == Side(frame, 2)
  {
    ball', home, away := ball, [], [];
    for i := 0 to |frame|
      invariant ball' == match LastBall(frame[..i]) case Some(p) => p case None => ball
      invariant home == Side(frame[..i], 1) && away == Side(frame[..i], 2)
    {
      assert frame[..i + 1][..i] == frame[..i];
      if frame[i].cls == 0 {
        ball' := frame[i].pos;
      } else if frame[i].cls == 1 {
        home := home + [Player(frame[i].id, frame[i].pos)];
      } else if frame[i].cls == 2 {
        away := away + [Player(frame[i].id, frame[i].pos)];
      }
    }
    assert frame[..|frame|] == frame;
  }

  /** Python's `data[:n]`: a negative `n` counts from the end. */
  function PySlice<T>(data: seq<T>, n: int): (r: seq<T>)
    ensures |r| <= |data| && r == data[..|r|]
    ensures 0 <= n ==> |r| == if n < |data| then n else |data|
    ensures n < 0 ==> |r| == if |data| + n < 0 then 0 else |data| + n
  {
    if 0 <= n then data[..if n < |data| then n else |data|]
    else data[..if |data| + n < 0 then 0 else |data| + n]
  }

  /** `if times: data = data[:int(times * frame_rate)]`; `None` and `0.0` are falsy. */
  function Truncated(data: seq<seq<Detection>>, times: Option<real>, frameRate: real): seq<seq<Detection>>
  {
    if times.None? || times.value == 0.0 then data else PySlice(data, Trunc(times.value * frameRate))
  }

  /** A positive `times` keeps the frames of its first `times` seconds (all of them if there are fewer). */
  lemma TruncatedKeepsLeadingSeconds(data: seq<seq<Detection>>, t: real, frameRate: real)
    requires 0.0 < t && 0.0 < frameRate
    ensures var r := Truncated(data, Some(t), frameRate);
      r == data[..|r|] && |r| == if (t * frameRate).Floor < |data| then (t * frameRate).Floor else |data|
  {
    ProductPositive(t, frameRate, t * frameRate);
  }

  /**
   * A negative `times` worth at least one frame drops that many frames from
   * the end instead (one worth less truncates to `data[:0]`, which is empty).
   */
  lemma TruncatedNegativeDropsTail(data: seq<seq<Detection>>, t: real, frameRate: real)
    requires t < 0.0 && 0.0 < frameRate && 1.0 <= -t * frameRate && (-t * frameRate).Floor <= |data|
    ensures var r := Truncated(data, Some(t), frameRate);
      r == data[..|r|] && |r| == |data| - (-t * frameRate).Floor
  {
    var x := t * frameRate;
    assert -x == -t * frameRate;
    assert Trunc(x) == -((-t * frameRate).Floor);
  }

  /**
   * `ball_possession_integrate` up to the analyzer calls: the inputs of
   * `analyze_possession` for every kept frame, the ball starting at the
   * pitch centre.
   */
  method PossessionInputs(data: seq<seq<Detection>>, times: Option<real>, center: Point, frameRate: real)
    returns (inputs: seq<PossessionInput>)
    requires frameRate != 0.0
    ensures var kept := Truncated(data, times, frameRate);
      |inputs| == |kept| && forall j :: 0 <= j < |kept| ==> inputs[j] == InputOf(kept, j, center, frameRate)
  {
    var kept := data;
    if times.Some? && times.value != 0.0 {
      var numFrames := Trunc(times.value * frameRate);
      kept := PySlice(data, numFrames);
    }
    inputs := ScanFrames(kept, center, frameRate);
  }

  /** The loop of `ball_possession_integrate` over the kept frames. */
  method ScanFrames(kept: seq<seq<Detection>>, center: Point, frameRate: real) returns (inputs: seq<PossessionInput>)
    requires frameRate != 0.0
    ensures |inputs| == |kept| && forall j :: 0 <= j < |kept| ==> inputs[j] == InputOf(kept, j, center, frameRate)
  {
    var ball := center;
    inputs := [];
    for j := 0 to |kept|
      invariant ball == CarriedBall(kept, j, center)
      invariant |inputs| == j && forall j' :: 0 <= j' < j ==> inputs[j'] == InputOf(kept, j', center, frameRate)
    {
      var home, away;
      ball, home, away := ScanFrame(kept[j], ball);
      inputs := inputs + [PossessionInput(j as real / frameRate, ball, home, away)];
    }
  }

  // ---------------------------------------------------------------------------
  // `passing_opportunity_integrate`: the analyzer inputs

  /** The passer's position and class and the two lists handed to `analyze_passing_opportunities`. */
  datatype PassSetup = PassSetup(position: Point, team: int, friends: seq<Player>, opponents: seq<Player>)

  /** The first detection carrying `id`. */
  function FindPasser(frame: seq<Detection>, id: int): Option<Detection>
  {
    if |frame| == 0 then None
    else if frame[0].id == id then Some(frame[0])
    else FindPasser(frame[1..], id)
  }

  /** The detections of other tracks whose class is (`same`) or is not (`!same`) `team`, in frame order. */
  function Others(frame: seq<Detection>, id: int, team: int, same: bool): seq<Player>
  {
    if |frame| == 0 then []
    else
      var rest := Others(frame[..|frame| - 1], id, team, same);
      var d := frame[|frame| - 1];
      if d.id != id && (d.cls == team) == same then rest + [Player(d.id, d.pos)] else rest
  }

  /** `None` ("Player not found") when no detection carries the passer's id. */
  function SetupOf(frame: seq<Detection>, id: int): Option<PassSetup>
  {
    match FindPasser(frame, id)
    case None => None
    case Some(d) => Some(PassSetup(d.pos, d.cls, Others(frame, id, d.cls, true), Others(frame, id, d.cls, false)))
  }

  /** The passer is found exactly when some detection has its id, and it is the first such detection. */
  lemma {:induction false} FindPasserFacts(frame: seq<Detection>, id: int)
    ensures FindPasser(frame, id).None? <==> forall j :: 0 <= j < |frame| ==> frame[j].id != id
    ensures FindPasser(frame, id).Some? ==>
      exists j :: 0 <= j < |frame| && frame[j] == FindPasser(frame, id).value && frame[j].id == id
        && forall k :: 0 <= k < j ==> frame[k].id != id
  {
    if |frame| != 0 && frame[0].id != id {
      FindPasserFacts(frame[1..], id);
      if FindPasser(frame, id).Some? {
        var j :| 0 <= j < |frame[1..]| && frame[1..][j] == FindPasser(frame[1..], id).value && frame[1..][j].id == id
          && forall k :: 0 <= k < j ==> frame[1..][k].id != id;
        assert frame[j + 1] == frame[1..][j];
        forall k | 0 <= k < j + 1 ensures frame[k].id != id {
          if k > 0 {
            assert frame[k] == frame[1..][k - 1];
          }
        }
      }
    }
  }

  /** The number of detections carrying `id`. */
  function CountId(frame: seq<Detection>, id: int): nat
  {
    if |frame| == 0 then 0
    else CountId(frame[..|frame| - 1], id) + (if frame[|frame| - 1].id == id then 1 else 0)
  }

  /** Teammates, opponents and the passer's own detections split the frame. */
  lemma {:induction false} PassPartition(frame: seq<Detection>, id: int, team: int)
    ensures |Others(frame, id, team, true)| + |Others(frame, id, team, false)| + CountId(frame, id) == |frame|
  {
    if |frame| != 0 {
      PassPartition(frame[..|frame| - 1], id, team);
    }
  }

  /** Teammates share the passer's class, opponents have any other class (ball and referees included). */
  lemma {:induction false} OthersMembers(frame: seq<Detection>, id: int, team: int, same: bool)
    ensures forall p :: p in Others(frame, id, team, same) <==>
      exists j :: 0 <= j < |frame| && frame[j].id == p.id && frame[j].pos == p.pos && p.id != id && (frame[j].cls == team) == same
  {
    if |frame| != 0 {
      var n := |frame| - 1;
      OthersMembers(frame[..n], id, team, same);
      assert forall j :: 0 <= j < n ==> frame[..n][j] == frame[j];
    }
  }

  /**
   * Python's `data[frame_id]`, negative ids counting from the end; `None`
   * where the index is out of range and Python raises `IndexError`.
   */
  function FrameAt(data: seq<seq<Detection>>, frameId: int): (f: Option<seq<Detection>>)
    ensures f.Some? <==> -|data| <= frameId < |data|
    ensures f.Some? && 0 <= frameId ==> f.value == data[frameId]
    ensures f.Some? && frameId < 0 ==> f.value == data[|data| + frameId]
  {
    if frameId < -|data| || |data| <= frameId then None
    else if frameId < 0 then Some(data[|data| + frameId]) else Some(data[frameId])
  }

  /**
   * How `passing_opportunity_integrate` gets on before the analyzer call:
   * `data[frame_id]` raises, the passer is not found (`None` is returned),
   * or the analyzer is handed the passer's setup.
   */
  datatype PassLookup = FrameIndexError | PlayerNotFound | Inputs(setup: PassSetup)

  /** The outcome of looking up frame `frameId` and the passer `playerId` in it. */
  function LookupOf(data: seq<seq<Detection>>, frameId: int, playerId: int): (r: PassLookup)
    ensures r.FrameIndexError? <==> !(-|data| <= frameId < |data|)
  {
    match FrameAt(data, frameId)
    case None => FrameIndexError
    case Some(frame) =>
      match SetupOf(frame, playerId)
      case None => PlayerNotFound
      case Some(setup) => Inputs(setup)
  }

  /** The two loops of `passing_opportunity_integrate` before the analyzer call. */
  method PassingInputs(data: seq<seq<Detection>>, frameId: int, playerId: int) returns (r: PassLookup)
    ensures r == LookupOf(data, frameId, playerId)
    ensures r.FrameIndexError? <==> !(-|data| <= frameId < |data|)
  {
    if frameId < -|data| || |data| <= frameId {
      return FrameIndexError;
    }
    var frame := if frameId < 0 then data[|data| + frameId] else data[frameId];
    var found: Option<Detection> := None;
    var i := 0;
    while i < |frame|
      invariant 0 <= i <= |frame|
      invariant FindPasser(frame, playerId) == if found.Some? then found else FindPasser(frame[i..], playerId)
      invariant found.None? ==> forall k :: 0 <= k < i ==> frame[k].id != playerId
    {
      if frame[i].id == playerId {
        found := Some(frame[i]);
        break;
      }
      assert frame[i..][1..] == frame[i + 1..];
      i := i + 1;
    }
    if found.None? {
      return PlayerNotFound;
    }
    var team := found.value.cls;
    var friends, opponents := [], [];
    for k := 0 to |frame|
      invariant friends == Others(frame[..k], playerId, team, true)
      invariant opponents == Others(frame[..k], playerId, team, false)
    {
      assert frame[..k + 1][..k] == frame[..k];
      if frame[k].id != playerId {
        if frame[k].cls == team {
          friends := friends + [Player(frame[k].id, frame[k].pos)];
        } else {
          opponents := opponents + [Player(frame[k].id, frame[k].pos)];
        }
      }
    }
    assert frame[..|frame|] == frame;
    r := Inputs(PassSetup(found.value.pos, team, friends, opponents));
  }

  // ---------------------------------------------------------------------------
  // `heatmap_integrate`

  /** What `position_to_grid` returns: the column `x_c` and the row `y_c` of a position. */
  datatype GridCell = GridCell(x: int, y: int)

  /** An entry `[i][j]` of a count grid. */
  datatype GridIndex = GridIndex(row: int, col: int)

  /** The grids are `np.zeros((10, 15))`: 10 rows of 15 columns. */
  const Rows := 10
  const Cols := 15

  /**
   * `position_to_grid` belongs to a heat-map analyzer that is not part of
   * this model; it is a parameter, assumed to return a column below 15 and
   * a row below 10, as indexing the grids with `[y_c][x_c]` requires.
   */
  ghost predicate IntoGrid(toGrid: Point -> GridCell)
  {
    forall p :: 0 <= toGrid(p).x < Cols && 0 <= toGrid(p).y < Rows
  }

  /** The entry a detection at a position is counted in always lies inside a `rows` by `cols` grid. */
  ghost predicate MarksInto(mark: Point -> GridIndex, rows: int, cols: int)
  {
    forall p :: 0 <= mark(p).row < rows && 0 <= mark(p).col < cols
  }

  /** `[y_c][x_c]`: the entry a detection at `p` is counted in. */
  function MarkOf(toGrid: Point -> GridCell): Point -> GridIndex
  {
    p => GridIndex(toGrid(p).y, toGrid(p).x)
  }

  lemma MarkOfFits(toGrid: Point -> GridCell)
    requires IntoGrid(toGrid)
    ensures MarksInto(MarkOf(toGrid), Rows, Cols)
  {
  }

  /** The entries the class-`cls` detections of a frame are counted in, in frame order. */
  function FrameMarks(frame: seq<Detection>, cls: int, mark: Point -> GridIndex): seq<GridIndex>
  {
    if |frame| == 0 then []
    else
      var rest := FrameMarks(frame[..|frame| - 1], cls, mark);
      var d := frame[|frame| - 1];
      if d.cls == cls then rest + [mark(d.pos)] else rest
  }

  /** The marks of a team over the first `n` frames. */
  function TeamMarks(data: seq<seq<Detection>>, n: nat, cls: int, mark: Point -> GridIndex): seq<GridIndex>
    requires n <= |data|
  {
    if n == 0 then [] else TeamMarks(data, n - 1, cls, mark) + FrameMarks(data[n - 1], cls, mark)
  }

  /**
   * The ball marks over the first `n` frames: every ball detection, and for
   * a frame without one a count at the last known ball position, in the
   * same orientation as the detections.
   */
  function BallMarks(data: seq<seq<Detection>>, n: nat, start: Point, mark: Point -> GridIndex): seq<GridIndex>
    requires n <= |data|
  {
    if n == 0 then []
    else
      BallMarks(data, n - 1, start, mark) + FrameMarks(data[n - 1], 0, mark)
        + (if LastBall(data[n - 1]).None? then [mark(CarriedBall(data, n - 1, start))] else [])
  }

  /**
   * The ball marks as `analytics/integration.py` writes them: the carried
   * count goes to `[x_c][y_c]`, which raises `IndexError` (here `None`)
   * when `x_c` is 10 or more.
   */
  function BallMarksAsWritten(data: seq<seq<Detection>>, n: nat, start: Point, toGrid: Point -> GridCell): Option<seq<GridIndex>>
    requires n <= |data|
  {
    if n == 0 then Some([])
    else
      match BallMarksAsWritten(data, n - 1, start, toGrid)
      case None => None
      case Some(marks) =>
        if LastBall(data[n - 1]).Some? then Some(marks + FrameMarks(data[n - 1], 0, MarkOf(toGrid)))
        else
          var g := toGrid(CarriedBall(data, n - 1, start));
          if Rows <= g.x then None
          else Some(marks + FrameMarks(data[n - 1], 0, MarkOf(toGrid)) + [GridIndex(g.x, g.y)])
  }

  /** How often `at` occurs among the marks: the final value of that grid entry. */
  function Count(marks: seq<GridIndex>, at: GridIndex): nat
  {
    if |marks| == 0 then 0
    else Count(marks[..|marks| - 1], at) + (if marks[|marks| - 1] == at then 1 else 0)
  }

  lemma {:induction false} CountAppend(a: seq<GridIndex>, b: seq<GridIndex>, at: GridIndex)
    ensures Count(a + b, at) == Count(a, at) + Count(b, at)
    decreases |b|
  {
    if |b| != 0 {
      CountAppend(a, b[..|b| - 1], at);
      assert (a + b)[..|a + b| - 1] == a + b[..|b| - 1];
    } else {
      assert a + b == a;
    }
  }

  /** A frame's ball marks are empty exactly when it has no ball. */
  lemma {:induction false} FrameMarksEmpty(frame: seq<Detection>, mark: Point -> GridIndex)
    ensures |FrameMarks(frame, 0, mark)| == 0 <==> LastBall(frame).None?
  {
    if |frame| != 0 {
      FrameMarksEmpty(frame[..|frame| - 1], mark);
    }
  }

  /** The number of ball counts a frame adds: its ball detections, or the one carried count. */
  function BallCounts(frame: seq<Detection>, mark: Point -> GridIndex): nat
  {
    var k := |FrameMarks(frame, 0, mark)|;
    if k == 0 then 1 else k
  }

  function TotalBallCounts(data: seq<seq<Detection>>, n: nat, mark: Point -> GridIndex): nat
    requires n <= |data|
  {
    if n == 0 then 0 else TotalBallCounts(data, n - 1, mark) + BallCounts(data[n - 1], mark)
  }

  /** Every frame adds at least one ball count: `max(1, number of balls)`. */
  lemma {:induction false} BallMarksTotal(data: seq<seq<Detection>>, n: nat, start: Point, mark: Point -> GridIndex)
    requires n <= |data|
    ensures |BallMarks(data, n, start, mark)| == TotalBallCounts(data, n, mark)
    ensures n <= |BallMarks(data, n, start, mark)|
  {
    if n != 0 {
      BallMarksTotal(data, n - 1, start, mark);
      FrameMarksEmpty(data[n - 1], mark);
    }
  }

  /**
   * A ball last seen at `p` in frame `k` keeps being counted in the entry of
   * `p` for every following frame without a ball.
   */
  lemma {:induction false} Resting(data: seq<seq<Detection>>, k: nat, n: nat, start: Point, mark: Point -> GridIndex)
    requires k < n <= |data| && LastBall(data[k]).Some?
    requires forall k' :: k < k' < n ==> LastBall(data[k']).None?
    ensures var at := mark(LastBall(data[k]).value);
      Count(BallMarks(data, n, start, mark), at) == Count(BallMarks(data, k + 1, start, mark), at) + (n - 1 - k)
  {
    if k + 1 < n {
      var at := mark(LastBall(data[k]).value);
      Resting(data, k, n - 1, start, mark);
      BallIsLatestSeen(data, n - 1, start, k);
      FrameMarksEmpty(data[n - 1], mark);
      var before := BallMarks(data, n - 1, start, mark);
      assert BallMarks(data, n, start, mark) == before + FrameMarks(data[n - 1], 0, mark) + [at];
      assert FrameMarks(data[n - 1], 0, mark) == [];
      assert before + [] + [at] == before + [at];
      CountAppend(before, [at], at);
      assert [at][..0] == [];
    }
  }

  /** When it does not raise, the as-written loop adds as many ball counts as the corrected one: only their entries differ. */
  lemma {:induction false} AsWrittenSameTotal(data: seq<seq<Detection>>, n: nat, start: Point, toGrid: Point -> GridCell)
    requires n <= |data|
    ensures BallMarksAsWritten(data, n, start, toGrid).Some? ==>
      |BallMarksAsWritten(data, n, start, toGrid).value| == |BallMarks(data, n, start, MarkOf(toGrid))|
  {
    if n != 0 {
      AsWrittenSameTotal(data, n - 1, start, toGrid);
    }
  }

  /** A ball in column 12 followed by a frame without a ball: the carried count raises `IndexError`. */
  lemma AsWrittenCarriedCountRaises()
    ensures var toGrid := (p: Point) => GridCell(12, 3);
      var data := [[Interpolate.Entity(-1, 0, Point(90.0, 20.0))], []];
      IntoGrid(toGrid) && BallMarksAsWritten(data, 2, Point(52.5, 34.0), toGrid).None?
  {
    var toGrid := (p: Point) => GridCell(12, 3);
    var data := [[Interpolate.Entity(-1, 0, Point(90.0, 20.0))], []];
    assert LastBall(data[0]) == Some(Point(90.0, 20.0));
    assert LastBall(data[1]).None?;
  }

  /** A ball in column 3, row 5, then no ball: written, the carried count lands in row 3, column 5; intended, row 5, column 3. */
  lemma AsWrittenCarriedCountMisplaced()
    ensures var toGrid := (p: Point) => GridCell(3, 5);
      var data := [[Interpolate.Entity(-1, 0, Point(20.0, 40.0))], []];
      var start := Point(52.5, 34.0);
      && IntoGrid(toGrid)
      && BallMarksAsWritten(data, 2, start, toGrid) == Some([GridIndex(5, 3), GridIndex(3, 5)])
      && BallMarks(data, 2, start, MarkOf(toGrid)) == [GridIndex(5, 3), GridIndex(5, 3)]
  {
    var toGrid := (p: Point) => GridCell(3, 5);
    var mark := MarkOf(toGrid);
    var data := [[Interpolate.Entity(-1, 0, Point(20.0, 40.0))], []];
    var start := Point(52.5, 34.0);
    assert data[0][..0] == [];
    assert mark(Point(20.0, 40.0)) == GridIndex(5, 3);
    assert LastBall(data[0]) == Some(Point(20.0, 40.0));
    assert LastBall(data[1]).None?;
    assert FrameMarks(data[0], 0, mark) == [GridIndex(5, 3)];
    assert FrameMarks(data[1], 0, mark) == [];
    assert CarriedBall(data, 1, start) == Point(20.0, 40.0);
    assert BallMarksAsWritten(data, 0, start, toGrid) == Some([]);
    assert BallMarksAsWritten(data, 1, start, toGrid) == Some([GridIndex(5, 3)]);
    assert BallMarks(data, 1, start, mark) == [GridIndex(5, 3)];
    assert toGrid(CarriedBall(data, 1, start)) == GridCell(3, 5);
    assert [GridIndex(5, 3)] + [] + [GridIndex(3, 5)] == [GridIndex(5, 3), GridIndex(3, 5)];
    assert [GridIndex(5, 3)] + [] + [GridIndex(5, 3)] == [GridIndex(5, 3), GridIndex(5, 3)];
  }

  /** `grid[i][j] += 1` */
  method Tally(grid: array2<int>, row: int, col: int)
    requires 0 <= row < grid.Length0 && 0 <= col < grid.Length1
    modifies grid
    ensures forall r, c :: 0 <= r < grid.Length0 && 0 <= c < grid.Length1 ==>
      grid[r, c] == old(grid[r, c]) + if r == row && c == col then 1 else 0
  {
    grid[row, col] := grid[row, col] + 1;
  }

  /** Every entry of `grid` holds the count of its index among `marks`. */
  ghost predicate Holds(grid: array2<int>, marks: seq<GridIndex>)
    reads grid
  {
    forall r, c :: 0 <= r < grid.Length0 && 0 <= c < grid.Length1 ==> grid[r, c] == Count(marks, GridIndex(r, c))
  }

  /** Counting one more mark. */
  method TallyMark(grid: array2<int>, ghost marks: seq<GridIndex>, at: GridIndex)
    requires 0 <= at.row < grid.Length0 && 0 <= at.col < grid.Length1 && Holds(grid, marks)
    modifies grid
    ensures Holds(grid, marks + [at])
  {
    Tally(grid, at.row, at.col);
    assert forall x :: Count(marks + [at], x) == Count(marks, x) + (if at == x then 1 else 0) by {
      forall x ensures Count(marks + [at], x) == Count(marks, x) + (if at == x then 1 else 0) {
        assert (marks + [at])[..|marks|] == marks;
      }
    }
  }

  /** Three distinct grids of the same shape, which `mark` never leaves. */
  ghost predicate Grids(left: array2<int>, right: array2<int>, ball: array2<int>, mark: Point -> GridIndex)
  {
    && left != right && right != ball && left != ball
    && right.Length0 == left.Length0 && ball.Length0 == left.Length0
    && right.Length1 == left.Length1 && ball.Length1 == left.Length1
    && MarksInto(mark, left.Length0, left.Length1)
  }

  /** The inner loop of `heatmap_integrate` over one frame; returns the frame's last ball position. */
  method CountFrame(frame: seq<Detection>, left: array2<int>, right: array2<int>, ball: array2<int>,
                    mark: Point -> GridIndex,
                    ghost leftMarks: seq<GridIndex>, ghost rightMarks: seq<GridIndex>, ghost ballMarks: seq<GridIndex>)
    returns (seen: Option<Point>)
    requires Grids(left, right, ball, mark)
    requires Holds(left, leftMarks) && Holds(right, rightMarks) && Holds(ball, ballMarks)
    modifies left, right, ball
    ensures seen == LastBall(frame)
    ensures Holds(left, leftMarks + FrameMarks(frame, 1, mark))
    ensures Holds(right, rightMarks + FrameMarks(frame, 2, mark))
    ensures Holds(ball, ballMarks + FrameMarks(frame, 0, mark))
  {
    seen := None;
    ghost var lm, rm, bm := leftMarks, rightMarks, ballMarks;
    assert frame[..0] == [];
    assert lm == leftMarks + [] && rm == rightMarks + [] && bm == ballMarks + [];
    for j := 0 to |frame|
      invariant seen == LastBall(frame[..j])
      invariant lm == leftMarks + FrameMarks(frame[..j], 1, mark) && Holds(left, lm)
      invariant rm == rightMarks + FrameMarks(frame[..j], 2, mark) && Holds(right, rm)
      invariant bm == ballMarks + FrameMarks(frame[..j], 0, mark) && Holds(ball, bm)
    {
      var d := frame[j];
      assert frame[..j + 1][..j] == frame[..j] && frame[..j + 1][j] == d;
      if d.cls == 0 {
        seen := Some(d.pos);
      }
      var at := mark(d.pos);
      if d.cls == 1 {
        TallyMark(left, lm, at);
        AppendMark(leftMarks, FrameMarks(frame[..j], 1, mark), at);
        lm := lm + [at];
      } else if d.cls == 2 {
        TallyMark(right, rm, at);
        AppendMark(rightMarks, FrameMarks(frame[..j], 2, mark), at);
        rm := rm + [at];
      } else if d.cls == 0 {
        TallyMark(ball, bm, at);
        AppendMark(ballMarks, FrameMarks(frame[..j], 0, mark), at);
        bm := bm + [at];
      }
    }
    assert frame[..|frame|] == frame;
  }

  lemma AppendMark(a: seq<GridIndex>, b: seq<GridIndex>, at: GridIndex)
    ensures a + b + [at] == a + (b + [at])
  {
  }

  /** `np.zeros((rows, cols))` */
  method ZeroGrid(rows: nat, cols: nat) returns (grid: array2<int>)
    ensures fresh(grid) && grid.Length0 == rows && grid.Length1 == cols && Holds(grid, [])
  {
    grid := new int[rows, cols]((r, c) => 0);
  }

  /** The outer loop of `heatmap_integrate`: every frame's detections, then the carried ball if it had none. */
  method CountFrames(frames: seq<seq<Detection>>, left: array2<int>, right: array2<int>, ball: array2<int>,
                     start: Point, mark: Point -> GridIndex)
    requires Grids(left, right, ball, mark)
    requires Holds(left, []) && Holds(right, []) && Holds(ball, [])
    modifies left, right, ball
    ensures Holds(left, TeamMarks(frames, |frames|, 1, mark))
    ensures Holds(right, TeamMarks(frames, |frames|, 2, mark))
    ensures Holds(ball, BallMarks(frames, |frames|, start, mark))
  {
    var lastBall := start;
    for i := 0 to |frames|
      invariant lastBall == CarriedBall(frames, i, start)
      invariant Holds(left, TeamMarks(frames, i, 1, mark))
      invariant Holds(right, TeamMarks(frames, i, 2, mark))
      invariant Holds(ball, BallMarks(frames, i, start, mark))
    {
      ghost var before := BallMarks(frames, i, start, mark) + FrameMarks(frames[i], 0, mark);
      var seen := CountFrame(frames[i], left, right, ball, mark,
        TeamMarks(frames, i, 1, mark), TeamMarks(frames, i, 2, mark), BallMarks(frames, i, start, mark));
      if seen.Some? {
        lastBall := seen.value;
        assert BallMarks(frames, i + 1, start, mark) == before + [] == before;
        assert Holds(ball, before);
      } else {
        var at := mark(lastBall);
        assert BallMarks(frames, i + 1, start, mark) == before + [at];
        TallyMark(ball, before, at);
        assert Holds(ball, before + [at]);
      }
    }
  }

  /**
   * `heatmap_integrate`, with the carried ball counted at `[y_c][x_c]` like
   * every detection: referees are removed in place, then each grid entry
   * holds the number of marks at its index.
   */
  method HeatmapIntegrate(data: array<seq<Detection>>, start: Point, toGrid: Point -> GridCell)
    returns (left: array2<int>, right: array2<int>, ball: array2<int>)
    requires IntoGrid(toGrid)
    modifies data
    ensures forall f :: 0 <= f < data.Length ==> data[f] == Keep(old(data[f]), {3})
    ensures fresh(left) && fresh(right) && fresh(ball)
    ensures left.Length0 == Rows && left.Length1 == Cols && right.Length0 == Rows && right.Length1 == Cols
    ensures ball.Length0 == Rows && ball.Length1 == Cols
    ensures Holds(left, TeamMarks(data[..], data.Length, 1, MarkOf(toGrid)))
    ensures Holds(right, TeamMarks(data[..], data.Length, 2, MarkOf(toGrid)))
    ensures Holds(ball, BallMarks(data[..], data.Length, start, MarkOf(toGrid)))
  {
    RemoveClasses(data, {3});
    left := ZeroGrid(Rows, Cols);
    right := ZeroGrid(Rows, Cols);
    ball := ZeroGrid(Rows, Cols);
    MarkOfFits(toGrid);
    CountFrames(data[..], left, right, ball, start, MarkOf(toGrid));
  }

  // ---------------------------------------------------------------------------
  // `space_control_integrate`: position lists, velocities and analyzer inputs

  /** The samples frame `i` adds to player `id`'s position list, in detection order. */
  function FrameSamples(frame: seq<Detection>, i: int, id: int): seq<Sample>
  {
    if |frame| == 0 then []
    else
      FrameSamples(frame[..|frame| - 1], i, id)
        + (if frame[|frame| - 1].id == id then [Sample(i, frame[|frame| - 1].pos)] else [])
  }

  /** `player_positions[id]` after the first `n` frames have been scanned. */
  function TrackOf(data: seq<seq<Detection>>, n: nat, id: int): seq<Sample>
    requires n <= |data|
  {
    if n == 0 then [] else TrackOf(data, n - 1, id) + FrameSamples(data[n - 1], n - 1, id)
  }

  /** Player `id` has a detection in one of the first `n` frames. */
  predicate Appears(data: seq<seq<Detection>>, n: nat, id: int)
    requires n <= |data|
  {
    exists f, j :: 0 <= f < n && 0 <= j < |data[f]| && data[f][j].id == id
  }

  lemma {:induction false} FrameSamplesMembers(frame: seq<Detection>, i: int, id: int)
    ensures forall s :: s in FrameSamples(frame, i, id) <==>
      exists j :: 0 <= j < |frame| && frame[j].id == id && s == Sample(i, frame[j].pos)
  {
    if |frame| != 0 {
      var init := frame[..|frame| - 1];
      FrameSamplesMembers(init, i, id);
      assert forall j :: 0 <= j < |init| ==> init[j] == frame[j];
    }
  }

  /** A sample is in a player's list exactly when some detection of that player made it. */
  lemma {:induction false} TrackMembers(data: seq<seq<Detection>>, n: nat, id: int)
    requires n <= |data|
    ensures forall s :: s in TrackOf(data, n, id) <==>
      exists f, j :: 0 <= f < n && 0 <= j < |data[f]| && data[f][j].id == id && s == Sample(f, data[f][j].pos)
  {
    if n != 0 {
      TrackMembers(data, n - 1, id);
      FrameSamplesMembers(data[n - 1], n - 1, id);
    }
  }

  /** The samples run through frames `0` to `n - 1` in order. */
  predicate Chronological(t: seq<Sample>, n: int)
  {
    forall a, b :: 0 <= a <= b < |t| ==> 0 <= t[a].frame <= t[b].frame < n
  }

  /** A player's list runs through the frames in order, and only through the first `n`. */
  lemma {:induction false} TrackOrdered(data: seq<seq<Detection>>, n: nat, id: int)
    requires n <= |data|
    ensures Chronological(TrackOf(data, n, id), n)
  {
    if n != 0 {
      TrackOrdered(data, n - 1, id);
      var t, last := TrackOf(data, n - 1, id), FrameSamples(data[n - 1], n - 1, id);
      FrameSamplesMembers(data[n - 1], n - 1, id);
      var all := t + last;
      forall a, b | 0 <= a <= b < |all|
        ensures 0 <= all[a].frame <= all[b].frame < n
      {
        if b < |t| {
          assert all[a] == t[a] && all[b] == t[b];
        } else {
          assert all[b] == last[b - |t|] && last[b - |t|] in last;
          if a < |t| {
            assert all[a] == t[a];
          } else {
            assert all[a] == last[a - |t|] && last[a - |t|] in last;
          }
        }
      }
    }
  }

  /** The first position `k` with `lists[k][0] == i`. */
  function FirstAt(track: seq<Sample>, i: int): (k: Option<nat>)
    ensures k.Some? ==> k.value < |track| && track[k.value].frame == i
    ensures k.Some? ==> forall m :: 0 <= m < k.value ==> track[m].frame != i
    ensures k.None? <==> forall m :: 0 <= m < |track| ==> track[m].frame != i
  {
    if |track| == 0 then None
    else if track[0].frame == i then Some(0)
    else match FirstAt(track[1..], i)
      case None => None
      case Some(k) => Some(k + 1)
  }

  /** Every detection of frame `i` is found in its player's list, so `position` is always bound. */
  lemma PresentIsFound(data: seq<seq<Detection>>, i: nat, j: nat)
    requires i < |data| && j < |data[i]|
    ensures FirstAt(TrackOf(data, |data|, data[i][j].id), i).Some?
  {
    var track := TrackOf(data, |data|, data[i][j].id);
    TrackMembers(data, |data|, data[i][j].id);
    assert Sample(i, data[i][j].pos) in track;
  }

  /** The velocity paired with detection `j` of frame `i`. */
  function VelocityOf(data: seq<seq<Detection>>, i: nat, j: nat, frameRate: real): Velocity
    requires i < |data| && j < |data[i]| && frameRate != 0.0
  {
    var track := TrackOf(data, |data|, data[i][j].id);
    PresentIsFound(data, i, j);
    TrackVelocities(track, frameRate)[FirstAt(track, i).value]
  }

  /**
   * A detection in the first frame its player appears in is paired with
   * velocity `(0, 0)`.
   */
  lemma FirstAppearanceIsAtRest(data: seq<seq<Detection>>, i: nat, j: nat, frameRate: real)
    requires i < |data| && j < |data[i]| && frameRate != 0.0
    requires !Appears(data, i, data[i][j].id)
    ensures VelocityOf(data, i, j, frameRate) == Finite(Point(0.0, 0.0))
  {
    var id := data[i][j].id;
    var track := TrackOf(data, |data|, id);
    PresentIsFound(data, i, j);
    var k := FirstAt(track, i).value;
    if k != 0 {
      EarlierSampleAppears(data, i, id, k);
    }
  }

  /** A sample ahead of the first one of frame `i` comes from an earlier frame. */
  lemma EarlierSampleAppears(data: seq<seq<Detection>>, i: nat, id: int, k: nat)
    requires i < |data| && FirstAt(TrackOf(data, |data|, id), i) == Some(k) && k != 0
    ensures Appears(data, i, id)
  {
    var track := TrackOf(data, |data|, id);
    TrackOrdered(data, |data|, id);
    TrackMembers(data, |data|, id);
    assert track[0] in track && track[0].frame < i;
  }

  /**
   * Otherwise the velocity is the step from the player's previous sample,
   * taken in an earlier frame, to its first sample of frame `i`.
   */
  lemma LaterAppearanceSteps(data: seq<seq<Detection>>, i: nat, j: nat, frameRate: real)
    requires i < |data| && j < |data[i]| && frameRate != 0.0
    requires Appears(data, i, data[i][j].id)
    ensures var track := TrackOf(data, |data|, data[i][j].id);
      exists k :: 0 < k < |track| && track[k - 1].frame < i == track[k].frame
        && VelocityOf(data, i, j, frameRate) == StepVelocity(track[k - 1], track[k], frameRate)
  {
    var id := data[i][j].id;
    var track := TrackOf(data, |data|, id);
    PresentIsFound(data, i, j);
    var k := FirstAt(track, i).value;
    EarlierSampleComesFirst(data, i, id, k);
    assert TrackVelocities(track, frameRate)[k] == StepVelocity(track[k - 1], track[k], frameRate);
  }

  /** A player seen before frame `i` has a sample ahead of its first one of frame `i`, from an earlier frame. */
  lemma EarlierSampleComesFirst(data: seq<seq<Detection>>, i: nat, id: int, k: nat)
    requires i < |data| && Appears(data, i, id) && FirstAt(TrackOf(data, |data|, id), i) == Some(k)
    ensures var track := TrackOf(data, |data|, id);
      0 < k < |track| && track[k - 1].frame < i
  {
    var track := TrackOf(data, |data|, id);
    TrackOrdered(data, |data|, id);
    TrackMembers(data, |data|, id);
    var f, m :| 0 <= f < i && 0 <= m < |data[f]| && data[f][m].id == id;
    var s := Sample(f, data[f][m].pos);
    assert s in track;
    var c :| 0 <= c < |track| && track[c] == s;
    assert forall c' :: k <= c' < |track| ==> track[k].frame <= track[c'].frame;
    assert c < k;
    assert track[k - 1].frame <= track[k].frame && track[k - 1].frame != i;
  }

  /** An entry of `home_positions` or `away_positions`: id, position and velocity. */
  datatype Moving = Moving(id: int, pos: Point, velocity: Velocity)

  /** The two lists handed to `analyze_space_control` for one frame. */
  datatype ControlInput = ControlInput(home: seq<Moving>, away: seq<Moving>)

  /** The class-`cls` detections among the first `m` of frame `i`, with their velocities. */
  function MovingOf(data: seq<seq<Detection>>, i: nat, m: nat, cls: int, frameRate: real): seq<Moving>
    requires i < |data| && m <= |data[i]| && frameRate != 0.0
  {
    if m == 0 then []
    else
      var e := data[i][m - 1];
      MovingOf(data, i, m - 1, cls, frameRate)
        + (if e.cls == cls then [Moving(e.id, e.pos, VelocityOf(data, i, m - 1, frameRate))] else [])
  }

  function ControlInputOf(data: seq<seq<Detection>>, i: nat, frameRate: real): ControlInput
    requires i < |data| && frameRate != 0.0
  {
    ControlInput(MovingOf(data, i, |data[i]|, 1, frameRate), MovingOf(data, i, |data[i]|, 2, frameRate))
  }

  /** Each entry of a side list is a detection of that class, carried with its own position. */
  lemma {:induction false} MovingMembers(data: seq<seq<Detection>>, i: nat, m: nat, cls: int, frameRate: real)
    requires i < |data| && m <= |data[i]| && frameRate != 0.0
    ensures forall x :: x in MovingOf(data, i, m, cls, frameRate) <==>
      exists j :: 0 <= j < m && data[i][j].cls == cls
        && x == Moving(data[i][j].id, data[i][j].pos, VelocityOf(data, i, j, frameRate))
  {
    if m != 0 {
      MovingMembers(data, i, m - 1, cls, frameRate);
    }
  }

  /** The loop building `unique_players`: every id once, in order of first appearance. */
  method UniquePlayers(data: seq<seq<Detection>>) returns (players: seq<int>)
    ensures forall id :: id in players <==> Appears(data, |data|, id)
    ensures forall a, b :: 0 <= a < b < |players| ==> players[a] != players[b]
  {
    players := [];
    for i := 0 to |data|
      invariant forall id :: id in players <==> Appears(data, i, id)
      invariant forall a, b :: 0 <= a < b < |players| ==> players[a] != players[b]
    {
      for j := 0 to |data[i]|
        invariant forall id :: id in players <==>
          Appears(data, i, id) || exists m :: 0 <= m < j && data[i][m].id == id
        invariant forall a, b :: 0 <= a < b < |players| ==> players[a] != players[b]
      {
        if data[i][j].id !in players {
          players := players + [data[i][j].id];
        }
      }
      AppearsStep(data, i);
    }
  }

  lemma AppearsStep(data: seq<seq<Detection>>, i: nat)
    requires i < |data|
    ensures forall id :: Appears(data, i + 1, id) <==>
      Appears(data, i, id) || exists m :: 0 <= m < |data[i]| && data[i][m].id == id
  {
    forall id | Appears(data, i + 1, id)
      ensures Appears(data, i, id) || exists m :: 0 <= m < |data[i]| && data[i][m].id == id
    {
      var f, j :| 0 <= f < i + 1 && 0 <= j < |data[f]| && data[f][j].id == id;
      if f < i {
        assert Appears(data, i, id);
      }
    }
  }

  /** The loop creating `player_positions`: an empty list per player. */
  method EmptyLists(players: seq<int>) returns (tracks: map<int, seq<Sample>>)
    ensures forall p :: p in tracks <==> p in players
    ensures forall p :: p in tracks ==> tracks[p] == []
  {
    tracks := map[];
    for k := 0 to |players|
      invariant forall p :: p in tracks <==> p in players[..k]
      invariant forall p :: p in tracks ==> tracks[p] == []
    {
      tracks := tracks[players[k] := []];
      assert players[..k + 1] == players[..k] + [players[k]];
    }
    assert players[..|players|] == players;
  }

  lemma FrameSamplesStep(frame: seq<Detection>, j: nat, i: int, p: int)
    requires j < |frame|
    ensures FrameSamples(frame[..j + 1], i, p)
      == FrameSamples(frame[..j], i, p) + (if frame[j].id == p then [Sample(i, frame[j].pos)] else [])
  {
    assert frame[..j + 1][..j] == frame[..j];
  }

  lemma AppendSample(a: seq<Sample>, b: seq<Sample>, s: Sample)
    ensures a + b + [s] == a + (b + [s])
  {
  }

  /** The appends of one frame `i` to the lists of its players. */
  method AddFrame(tracks: map<int, seq<Sample>>, frame: seq<Detection>, i: int) returns (tracks': map<int, seq<Sample>>)
    requires forall j :: 0 <= j < |frame| ==> frame[j].id in tracks
    ensures forall p :: p in tracks' <==> p in tracks
    ensures forall p :: p in tracks ==> tracks'[p] == tracks[p] + FrameSamples(frame, i, p)
  {
    tracks' := tracks;
    for j := 0 to |frame|
      invariant forall p :: p in tracks' <==> p in tracks
      invariant forall p :: p in tracks ==> tracks'[p] == tracks[p] + FrameSamples(frame[..j], i, p)
    {
      var e := frame[j];
      forall p | p in tracks
        ensures FrameSamples(frame[..j + 1], i, p)
          == FrameSamples(frame[..j], i, p) + (if e.id == p then [Sample(i, e.pos)] else [])
      {
        FrameSamplesStep(frame, j, i, p);
      }
      AppendSample(tracks[e.id], FrameSamples(frame[..j], i, e.id), Sample(i, e.pos));
      tracks' := tracks'[e.id := tracks'[e.id] + [Sample(i, e.pos)]];
    }
    assert frame[..|frame|] == frame;
  }

  /** The loops building `player_positions`: each player's `[frame, position]` samples in scan order. */
  method PositionLists(data: seq<seq<Detection>>, players: seq<int>) returns (tracks: map<int, seq<Sample>>)
    requires forall f, j :: 0 <= f < |data| && 0 <= j < |data[f]| ==> data[f][j].id in players
    ensures forall p :: p in tracks <==> p in players
    ensures forall p :: p in players ==> tracks[p] == TrackOf(data, |data|, p)
  {
    tracks := EmptyLists(players);
    for i := 0 to |data|
      invariant forall p :: p in tracks <==> p in players
      invariant forall p :: p in tracks ==> tracks[p] == TrackOf(data, i, p)
    {
      tracks := AddFrame(tracks, data[i], i);
    }
  }

  /** The search for `position`: the first entry of the player's list taken in frame `i`. */
  method FindPosition(track: seq<Sample>, i: int) returns (k: nat)
    requires FirstAt(track, i).Some?
    ensures k == FirstAt(track, i).value
  {
    k := 0;
    while track[k].frame != i
      invariant k <= FirstAt(track, i).value
      decreases FirstAt(track, i).value - k
    {
      k := k + 1;
    }
  }

  /** The inner loop of `space_control_integrate` for frame `i`. */
  method FrameInputs(data: seq<seq<Detection>>, i: nat, tracks: map<int, seq<Sample>>,
                     velocity: map<int, seq<Velocity>>, frameRate: real)
    returns (input: ControlInput)
    requires i < |data| && frameRate != 0.0
    requires forall j :: 0 <= j < |data[i]| ==> data[i][j].id in tracks && data[i][j].id in velocity
    requires forall p :: p in tracks ==> tracks[p] == TrackOf(data, |data|, p)
    requires forall p :: p in velocity && p in tracks ==> velocity[p] == TrackVelocities(tracks[p], frameRate)
    ensures input == ControlInputOf(data, i, frameRate)
  {
    var home, away := [], [];
    for j := 0 to |data[i]|
      invariant home == MovingOf(data, i, j, 1, frameRate)
      invariant away == MovingOf(data, i, j, 2, frameRate)
    {
      var e := data[i][j];
      PresentIsFound(data, i, j);
      var position := FindPosition(tracks[e.id], i);
      var v := velocity[e.id][position];
      assert v == VelocityOf(data, i, j, frameRate);
      if e.cls == 1 {
        home := home + [Moving(e.id, e.pos, v)];
      } else if e.cls == 2 {
        away := away + [Moving(e.id, e.pos, v)];
      }
    }
    input := ControlInput(home, away);
  }

  /** Every id of the data is listed in `unique_players`. */
  lemma AllListed(data: seq<seq<Detection>>, players: seq<int>)
    requires forall id :: id in players <==> Appears(data, |data|, id)
    ensures forall f, j :: 0 <= f < |data| && 0 <= j < |data[f]| ==> data[f][j].id in players
  {
    forall f, j | 0 <= f < |data| && 0 <= j < |data[f]|
      ensures data[f][j].id in players
    {
      assert Appears(data, |data|, data[f][j].id);
    }
  }

  /** `unique_players`, `player_positions` and `frame_velocity` for the cleaned frames. */
  method PlayerTables(data: seq<seq<Detection>>, frameRate: real)
    returns (tracks: map<int, seq<Sample>>, velocity: map<int, seq<Velocity>>)
    requires frameRate != 0.0
    ensures forall f, j :: 0 <= f < |data| && 0 <= j < |data[f]| ==> data[f][j].id in tracks && data[f][j].id in velocity
    ensures forall p :: p in tracks ==> tracks[p] == TrackOf(data, |data|, p)
    ensures forall p :: p in velocity && p in tracks ==> velocity[p] == TrackVelocities(tracks[p], frameRate)
  {
    var players := UniquePlayers(data);
    AllListed(data, players);
    tracks := PositionLists(data, players);
    velocity := FrameVelocity(players, tracks, frameRate);
  }

  /** The analyzer inputs of frames `1` to `n - 1`. */
  method ControlInputs(frames: seq<seq<Detection>>, frameRate: real) returns (inputs: seq<ControlInput>)
    requires frameRate != 0.0
    ensures |inputs| == if |frames| == 0 then 0 else |frames| - 1
    ensures forall i :: 1 <= i < |frames| ==> inputs[i - 1] == ControlInputOf(frames, i, frameRate)
  {
    var tracks, velocity := PlayerTables(frames, frameRate);
    inputs := [];
    if |frames| == 0 {
      return;
    }
    for i := 1 to |frames|
      invariant |inputs| == i - 1
      invariant forall i' :: 1 <= i' < i ==> inputs[i' - 1] == ControlInputOf(frames, i', frameRate)
    {
      var input := FrameInputs(frames, i, tracks, velocity, frameRate);
      inputs := inputs + [input];
    }
  }

  /**
   * `space_control_integrate` up to the analyzer: ball and referees are
   * removed in place, and frames `1` to `n - 1` each get their home and away
   * lists with velocities.
   */
  method SpaceControlInputs(data: array<seq<Detection>>, frameRate: real) returns (inputs: seq<ControlInput>)
    requires frameRate != 0.0
    modifies data
    ensures forall f :: 0 <= f < data.Length ==> data[f] == Keep(old(data[f]), {0, 3})
    ensures |inputs| == if data.Length == 0 then 0 else data.Length - 1
    ensures forall i :: 1 <= i < data.Length ==> inputs[i - 1] == ControlInputOf(data[..], i, frameRate)
  {
    RemoveClasses(data, {0, 3});
    inputs := ControlInputs(data[..], frameRate);
  }

  /** After the space-control removal no ball and no referee is left, and the other detections keep their order. */
  lemma SpaceControlRemoval(frame: seq<Detection>, e: Detection)
    ensures e in Keep(frame, {0, 3}) <==> e in frame && e.cls != 0 && e.cls != 3
  {
    KeepMembers(frame, {0, 3});
  }

  // ---------------------------------------------------------------------------
  // `integrate`: scaling normalised coordinates to the pitch

  /** `(x * length, y * width)`, id and class kept. */
  function Scaled(e: Detection, length: real, width: real): Detection
  {
    e.(pos := Point(Mul(e.pos.x, length), Mul(e.pos.y, width)))
  }

  function ScaledFrame(frame: seq<Detection>, length: real, width: real): (r: seq<Detection>)
    ensures |r| == |frame|
  {
    seq(|frame|, j requires 0 <= j < |frame| => Scaled(frame[j], length, width))
  }

  /** Dividing by the pitch size again. */
  function Unscaled(frame: seq<Detection>, length: real, width: real): seq<Detection>
    requires length != 0.0 && width != 0.0
  {
    seq(|frame|, j requires 0 <= j < |frame| => frame[j].(pos := Point(frame[j].pos.x / length, frame[j].pos.y / width)))
  }

  /** Scaling loses nothing on a pitch of non-zero size: ids, classes and normalised positions come back. */
  lemma ScaleRoundTrip(frame: seq<Detection>, length: real, width: real)
    requires length != 0.0 && width != 0.0
    ensures Unscaled(ScaledFrame(frame, length, width), length, width) == frame
  {
    var back := Unscaled(ScaledFrame(frame, length, width), length, width);
    forall j | 0 <= j < |frame|
      ensures back[j] == frame[j]
    {
      ScaleBack(frame[j].pos.x, length);
      ScaleBack(frame[j].pos.y, width);
    }
  }

  lemma ScaleBack(a: real, s: real)
    requires s != 0.0
    ensures Mul(a, s) / s == a
  {
  }

  /** A normalised position in `[0, 1] x [0, 1]` lands on the pitch `[0, length] x [0, width]`. */
  lemma ScaledOnPitch(e: Detection, length: real, width: real)
    requires 0.0 <= length && 0.0 <= width
    requires 0.0 <= e.pos.x <= 1.0 && 0.0 <= e.pos.y <= 1.0
    ensures var s := Scaled(e, length, width);
      s.id == e.id && s.cls == e.cls && 0.0 <= s.pos.x <= length && 0.0 <= s.pos.y <= width
  {
    UnitTimes(e.pos.x, length);
    UnitTimes(e.pos.y, width);
  }

  lemma UnitTimes(a: real, s: real)
    requires 0.0 <= s && 0.0 <= a <= 1.0
    ensures 0.0 <= Mul(a, s) <= s
  {
    ProductNonneg(a, s, a * s);
    ProductNonneg(1.0 - a, s, (1.0 - a) * s);
  }

  /** The scaling loop of `integrate`, rewriting each detection in place. */
  method ScalePositions(data: array<seq<Detection>>, length: real, width: real)
    modifies data
    ensures forall f :: 0 <= f < data.Length ==> data[f] == ScaledFrame(old(data[f]), length, width)
  {
    for i := 0 to data.Length
      invariant forall f :: 0 <= f < i ==> data[f] == ScaledFrame(old(data[f]), length, width)
      invariant forall f :: i <= f < data.Length ==> data[f] == old(data[f])
    {
      ghost var orig := data[i];
      for j := 0 to |data[i]|
        invariant |data[i]| == |orig|
        invariant forall k :: 0 <= k < j ==> data[i][k] == Scaled(orig[k], length, width)
        invariant forall k :: j <= k < |orig| ==> data[i][k] == orig[k]
        invariant forall f :: 0 <= f < data.Length && f != i ==> data[f] == old(data[f]) || f < i
        invariant forall f :: 0 <= f < i ==> data[f] == ScaledFrame(old(data[f]), length, width)
      {
        data[i] := data[i][j := Scaled(data[i][j], length, width)];
      }
      assert data[i] == ScaledFrame(orig, length, width);
    }
  }

  /**
   * `integrate` from the loaded frames on: the frames are copied and
   * scaled, the possession inputs are read with the ball carried from
   * `center`, and the heat maps are counted with the ball carried from
   * `heatStart` after referees are removed from the copy.
   */
  method Integrate(loaded: seq<seq<Detection>>, length: real, width: real, center: Point, frameRate: real,
                   heatStart: Point, toGrid: Point -> GridCell)
    returns (inputs: seq<PossessionInput>, left: array2<int>, right: array2<int>, ball: array2<int>)
    requires frameRate != 0.0 && IntoGrid(toGrid)
    ensures var scaled := seq(|loaded|, f requires 0 <= f < |loaded| => ScaledFrame(loaded[f], length, width));
      && |inputs| == |scaled|
      && (forall j :: 0 <= j < |scaled| ==> inputs[j] == InputOf(scaled, j, center, frameRate))
      && var cleaned := seq(|scaled|, f requires 0 <= f < |scaled| => Keep(scaled[f], {3}));
      && Holds(left, TeamMarks(cleaned, |cleaned|, 1, MarkOf(toGrid)))
      && Holds(right, TeamMarks(cleaned, |cleaned|, 2, MarkOf(toGrid)))
      && Holds(ball, BallMarks(cleaned, |cleaned|, heatStart, MarkOf(toGrid)))
  {
    ghost var scaled := seq(|loaded|, f requires 0 <= f < |loaded| => ScaledFrame(loaded[f], length, width));
    var data := new seq<Detection>[|loaded|](f requires 0 <= f < |loaded| => loaded[f]);
    ScalePositions(data, length, width);
    assert data[..] == scaled;
    inputs := PossessionInputs(data[..], None, center, frameRate);
    left, right, ball := HeatmapIntegrate(data, heatStart, toGrid);
    assert data[..] == seq(|scaled|, f requires 0 <= f < |scaled| => Keep(scaled[f], {3}));
  }
}
