/**
 * The numpy sprint analyzer of `Soccer_Analytics/core/sprint_analyzer_np.py`.
 * The sprint logic and the statistics are those of `Sprints`; the speeds
 * are smoothed over a fixed-size circular buffer instead of a list, and the
 * smoothed speed is always the mean of the last `smoothing_window` speeds,
 * as in the list version.
 */
module SprintsNp {
  import opened Numerics
  import opened Calculations
  import opened Sprints

  /** Rotating a sequence does not change its sum. */
  lemma SumRotate(a: seq<real>, i: nat)
    requires i <= |a|
    ensures Sum(a[i..] + a[..i]) == Sum(a)
  {
    SumAppend(a[i..], a[..i]);
    SumAppend(a[..i], a[i..]);
    assert a[..i] + a[i..] == a;
  }

  /**
   * The circular buffer `b` with write index `i` holds the speeds `h`: before
   * it wraps, its first `i` slots hold every speed; after, reading it from
   * `i` round to just before it gives the last `w` speeds, oldest first.
   */
  ghost predicate Holds(h: seq<real>, b: seq<real>, i: nat, full: bool, w: nat)
  {
    && 1 <= w == |b|
    && i < w
    && if full then Recent(h, w) == b[i..] + b[..i] else h == b[..i]
  }

  /** Writing at the index and advancing it modulo the window keeps the buffer holding the speeds. */
  lemma WriteKeepsHolds(h: seq<real>, b: seq<real>, i: nat, full: bool, w: nat, v: real)
    requires Holds(h, b, i, full, w)
    ensures var i' := (i + 1) % w;
      Holds(h + [v], b[i := v], i', full || i' == 0, w)
  {
    var i' := if i + 1 == w then 0 else i + 1;
    assert (i + 1) % w == i';
    if full {
      WriteWhenFull(h, b, i, w, v);
    } else {
      WriteBeforeFull(h, b, i, w, v);
    }
  }

  lemma WriteBeforeFull(h: seq<real>, b: seq<real>, i: nat, w: nat, v: real)
    requires i < w == |b| && h == b[..i]
    ensures i + 1 < w ==> h + [v] == b[i := v][..i + 1]
    ensures i + 1 == w ==> Recent(h + [v], w) == b[i := v][0..] + b[i := v][..0]
  {
    assert b[i := v][..i + 1] == b[..i] + [v];
  }

  lemma WriteWhenFull(h: seq<real>, b: seq<real>, i: nat, w: nat, v: real)
    requires 1 <= w && i < w == |b| && Recent(h, w) == b[i..] + b[..i]
    ensures i + 1 < w ==> Recent(h + [v], w) == b[i := v][i + 1..] + b[i := v][..i + 1]
    ensures i + 1 == w ==> Recent(h + [v], w) == b[i := v][0..] + b[i := v][..0]
  {
    PushedKeepsRecent(h, v, w);
    assert Recent(h + [v], w) == b[i + 1..] + b[..i] + [v];
    assert b[i := v][..i + 1] == b[..i] + [v];
    assert b[i := v][i + 1..] == b[i + 1..];
  }

  class SprintAnalyzerNp {
    const math: Math
    const config: Config
    var sprints: seq<Sprint>
    var currentSprint: Option<Sprint>
    var lastSprintEnd: Option<real>
    const velocityBuffer: array<real>
    var bufferIndex: nat
    var bufferFull: bool
    /** Every speed seen so far, oldest first. */
    ghost var velocities: seq<real>

    function Log(): Tracker
      reads this
    {
      Tracker(sprints, currentSprint, lastSprintEnd)
    }

    ghost predicate Valid()
      reads this, velocityBuffer
    {
      Lawful(math) && Logged(config, Log()) && Window()
    }

    /** The buffer holds the speeds seen so far. */
    ghost predicate Window()
      reads this, velocityBuffer
    {
      config.smoothingWindow == velocityBuffer.Length
      && Holds(velocities, velocityBuffer[..], bufferIndex, bufferFull, config.smoothingWindow)
    }

    /** `velocity_buffer = np.zeros(smoothing_window)`. */
    constructor(m: Math, cfg: Config)
      requires Lawful(m) && 1 <= cfg.smoothingWindow
      ensures Valid() && math == m && config == cfg
      ensures Log() == NoSprints && velocities == [] && fresh(velocityBuffer)
      ensures velocityBuffer[..] == seq(cfg.smoothingWindow, _ => 0.0)
    {
      math, config := m, cfg;
      sprints, currentSprint, lastSprintEnd := [], None, None;
      velocityBuffer := new real[cfg.smoothingWindow](_ => 0.0);
      bufferIndex, bufferFull := 0, false;
      velocities := [];
    }

    /**
     * `process_position`: the speed since the previous fix is written at
     * the buffer index, and the sprint logic runs on the mean of the filled
     * part of the buffer; the outcome is the list version's.
     */
    method ProcessPosition(timestamp: real, position: Point, lastPosition: Point, lastTimestamp: real)
      returns (status: Status)
      requires Valid() && timestamp != lastTimestamp
      modifies this, velocityBuffer
      ensures Valid()
      ensures velocities == old(velocities) + [Velocity(math, lastPosition, position, timestamp - lastTimestamp)]
      ensures (Log(), status) == Detect(math, config, old(Log()), Mean(Recent(velocities, config.smoothingWindow)),
                                        Velocity(math, lastPosition, position, timestamp - lastTimestamp),
                                        timestamp, position, lastPosition)
    {
      var v := Velocity(math, lastPosition, position, timestamp - lastTimestamp);
      PushVelocity(v);
      var smoothed := Smoothed();
      DetectKeepsLogged(math, config, Log(), smoothed, v, timestamp, position, lastPosition);
      var (tr, st) := Detect(math, config, Log(), smoothed, v, timestamp, position, lastPosition);
      Store(tr);
      status := st;
    }

    /** Writes at the index, advances it modulo the window, and marks the buffer full when it wraps. */
    method PushVelocity(v: real)
      requires Window()
      modifies this, velocityBuffer
      ensures Window()
      ensures velocities == old(velocities) + [v]
      ensures Log() == old(Log())
    {
      WriteKeepsHolds(velocities, velocityBuffer[..], bufferIndex, bufferFull, config.smoothingWindow, v);
      velocityBuffer[bufferIndex] := v;
      velocities := velocities + [v];
      bufferIndex := (bufferIndex + 1) % config.smoothingWindow;
      if bufferIndex == 0 {
        bufferFull := true;
      }
    }

    /** `np.mean` of the whole buffer once it is full, of its filled part before. */
    method Smoothed() returns (smoothed: real)
      requires Window() && 0 < |velocities|
      ensures smoothed == Mean(Recent(velocities, config.smoothingWindow))
    {
      if bufferFull {
        SumRotate(velocityBuffer[..], bufferIndex);
        smoothed := Mean(velocityBuffer[..]);
      } else {
        smoothed := Mean(velocityBuffer[..bufferIndex]);
      }
    }

    method Store(tr: Tracker)
      modifies this
      ensures Log() == tr
      ensures bufferIndex == old(bufferIndex) && bufferFull == old(bufferFull) && velocities == old(velocities)
    {
      sprints, currentSprint, lastSprintEnd := tr.sprints, tr.current, tr.lastSprintEnd;
    }

    /** `get_sprint_stats()`: the list version's statistics. */
    function GetSprintStats(): (r: Option<SprintStats>)
      requires Valid()
      reads this, velocityBuffer
      ensures r.None? <==> |sprints| == 0
      ensures r.Some? ==> 0.0 <= r.value.distances.total
    {
      if |sprints| == 0 then SprintStatsOf(sprints)
      else LoggedStats(config, Log()); SprintStatsOf(sprints)
    }
  }
}
