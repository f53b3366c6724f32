/**
 * The stateless helpers of the analytics utilities: speed between two
 * fixes, the eight-way compass label of a movement, the length of a path,
 * moving-average smoothing, the team centroid, the guard of the convex
 * hull area and linear interpolation between two positions.
 */
module Calculations {
  import opened Numerics

  /**
   * `(distance / time_diff) * 3.6`: metres per second to kilometres per
   * hour. A zero `time_diff` is a division by zero in the source.
   */
  function Velocity(m: Math, p1: Point, p2: Point, dt: real): (v: real)
    requires Lawful(m) && dt != 0.0
    ensures Mul(v, dt) == 3.6 * Dist(m, p1, p2)
  {
    var d := Dist(m, p1, p2);
    QuotientTimesDivisor(d, dt);
    d / dt * 3.6
  }

  /** Over a forward time step the speed is non-negative, and zero exactly when the player did not move. */
  lemma VelocitySign(m: Math, p1: Point, p2: Point, dt: real)
    requires Lawful(m) && 0.0 < dt
    ensures 0.0 <= Velocity(m, p1, p2, dt)
    ensures Velocity(m, p1, p2, dt) == 0.0 <==> p1 == p2
  {
    var d := Dist(m, p1, p2);
    QuotientNonneg(d, dt);
    if p1 == p2 {
      DistSelf(m, p1);
    } else {
      SqDistZero(p1, p2);
      assert d != 0.0 by {
        assert Sq(0.0) == 0.0;
      }
      QuotientTimesDivisor(d, dt);
    }
  }

  /** Python's `x % 360` on floats: floored, so the result is never negative. */
  function FloorMod360(x: real): (r: real)
    ensures 0.0 <= r < 360.0
    ensures 0.0 <= x < 360.0 ==> r == x
  {
    x - 360.0 * (x / 360.0).Floor as real
  }

  /**
   * `int(((angle + 180) % 360 + 22.5) % 360 / 45)`: `int` truncates, and the
   * operand is non-negative, so this is the floor. Whatever the angle, the
   * index is a valid position in the eight-entry label list.
   */
  function DirectionIndex(angle: real): (i: nat)
    ensures i < 8
  {
    var normalized := FloorMod360(angle + 180.0);
    var shifted := FloorMod360(normalized + 22.5);
    (shifted / 45.0).Floor
  }

  /** The labels, counter-clockwise from east in 45-degree steps. */
  const Directions: seq<string> := ["E", "NE", "N", "NW", "W", "SW", "S", "SE"]

  /** Index of the sector the angle itself falls in: the same formula without the `+ 180`. */
  function TravelIndex(angle: real): (i: nat)
    ensures i < 8
  {
    var shifted := FloorMod360(FloorMod360(angle) + 22.5);
    (shifted / 45.0).Floor
  }

  /**
   * The `+ 180` shift moves every angle four sectors round: the label names
   * the direction opposite to the one travelled in.
   */
  lemma DirectionIsOppositeOfTravel(angle: real)
    ensures DirectionIndex(angle) == (TravelIndex(angle) + 4) % 8
  {
    var a := FloorMod360(angle);
    var k := (angle / 360.0).Floor;
    assert angle == a + 360.0 * k as real;
    var n := FloorMod360(angle + 180.0);
    var k2 := ((angle + 180.0) / 360.0).Floor;
    if a < 180.0 {
      assert k2 == k;
      assert n == a + 180.0;
    } else {
      assert k2 == k + 1;
      assert n == a - 180.0;
    }
  }

  function DirectionLabel(angle: real): (s: string)
    ensures s in Directions
  {
    Directions[DirectionIndex(angle)]
  }

  /** Moving due east (angle 0) is labelled `W`, due north (90) `S`, due west (180) `E`. */
  lemma DirectionLabelExamples()
    ensures DirectionLabel(0.0) == "W"
    ensures DirectionLabel(90.0) == "S"
    ensures DirectionLabel(180.0) == "E"
    ensures DirectionLabel(-90.0) == "N"
  {
    assert DirectionIndex(0.0) == 4;
    assert DirectionIndex(90.0) == 6;
    assert DirectionIndex(180.0) == 0;
    assert DirectionIndex(-90.0) == 2;
  }

  /** `calculate_direction`: the label of `degrees(arctan2(dy, dx))`. */
  function CalculateDirection(m: Math, p1: Point, p2: Point): (s: string)
    requires Lawful(m)
    ensures s in Directions
    ensures s == Directions[(TravelIndex(Degrees(m, m.atan2(p2.y - p1.y, p2.x - p1.x))) + 4) % 8]
  {
    var angle := Degrees(m, m.atan2(p2.y - p1.y, p2.x - p1.x));
    DirectionIsOppositeOfTravel(angle);
    DirectionLabel(angle)
  }

  /** Sum of the distances between consecutive points. */
  function PathLength(m: Math, ps: seq<Point>): real
    requires Lawful(m)
  {
    if |ps| < 2 then 0.0
    else PathLength(m, ps[..|ps| - 1]) + Dist(m, ps[|ps| - 2], ps[|ps| - 1])
  }

  lemma {:induction false} PathLengthNonneg(m: Math, ps: seq<Point>)
    requires Lawful(m)
    ensures 0.0 <= PathLength(m, ps)
    ensures |ps| < 2 ==> PathLength(m, ps) == 0.0
  {
    if 2 <= |ps| {
      PathLengthNonneg(m, ps[..|ps| - 1]);
    }
  }

  /** Two paths that meet at a point: walking one then the other covers both lengths. */
  lemma {:induction false} PathLengthJoin(m: Math, a: seq<Point>, b: seq<Point>)
    requires Lawful(m)
    requires 0 < |a| && 0 < |b| && a[|a| - 1] == b[0]
    ensures PathLength(m, a + b[1..]) == PathLength(m, a) + PathLength(m, b)
    decreases |b|
  {
    if |b| == 1 {
      assert a + b[1..] == a;
    } else {
      var b' := b[..|b| - 1];
      PathLengthJoin(m, a, b');
      var c := a + b[1..];
      assert c[..|c| - 1] == a + b'[1..];
      assert c[|c| - 2] == b[|b| - 2];
      assert c[|c| - 1] == b[|b| - 1];
    }
  }

  /** `calculate_distance`: the summing loop over consecutive pairs. */
  method CalculateDistance(m: Math, positions: seq<Point>) returns (total: real)
    requires Lawful(m)
    ensures total == PathLength(m, positions)
  {
    total := 0.0;
    if |positions| == 0 {
      return;
    }
    var i := 1;
    while i < |positions|
      invariant 1 <= i <= |positions|
      invariant total == PathLength(m, positions[..i])
    {
      assert positions[..i + 1][..i] == positions[..i];
      total := total + Dist(m, positions[i - 1], positions[i]);
      i := i + 1;
    }
    assert positions[..i] == positions;
  }

  /** Coordinate-wise mean of a non-empty group of points. */
  function Centroid(ps: seq<Point>): Point
    requires 0 < |ps|
  {
    Point(Mean(Xs(ps)), Mean(Ys(ps)))
  }

  /** The centroid lies inside the group's bounding box. */
  lemma CentroidInBoundingBox(ps: seq<Point>)
    requires 0 < |ps|
    ensures Min(Xs(ps)) <= Centroid(ps).x <= Max(Xs(ps))
    ensures Min(Ys(ps)) <= Centroid(ps).y <= Max(Ys(ps))
  {
    MeanWithinExtremes(Xs(ps));
    MeanWithinExtremes(Ys(ps));
  }

  /** A group standing on one spot has that spot as its centroid. */
  lemma CentroidOfOneSpot(ps: seq<Point>, p: Point)
    requires 0 < |ps| && forall i :: 0 <= i < |ps| ==> ps[i] == p
    ensures Centroid(ps) == p
  {
    MeanBetween(Xs(ps), p.x, p.x);
    MeanBetween(Ys(ps), p.y, p.y);
  }

  /** `calculate_team_centroid`; an empty list has no column to take, so `positions_array[:, 0]` raises: `None`. */
  function TeamCentroid(ps: seq<Point>): (c: Option<Point>)
    ensures c.Some? <==> 0 < |ps|
    ensures c.Some? ==> Min(Xs(ps)) <= c.value.x <= Max(Xs(ps)) && Min(Ys(ps)) <= c.value.y <= Max(Ys(ps))
  {
    if |ps| == 0 then None
    else
      CentroidInBoundingBox(ps);
      Some(Centroid(ps))
  }

  /**
   * `smooth_positions`: `np.convolve(coords, ones(w) / w, 'valid')` on each
   * coordinate. With at least `w` points that is the mean of every window
   * of `w` consecutive points, `n - w + 1` of them. numpy's `valid` mode
   * swaps the operands when the kernel is the longer one, so with fewer
   * points than `w` every output is the coordinate sum over `w`, `w - n + 1`
   * times. An empty list, or a window below one (an empty or negative-length
   * kernel), raises in numpy: `None`.
   */
  function SmoothPositions(ps: seq<Point>, w: int): (r: Option<seq<Point>>)
    ensures r.Some? <==> 0 < |ps| && 1 <= w
    ensures r.Some? && w <= |ps| ==> |r.value| == |ps| - w + 1
    ensures r.Some? && |ps| < w ==> |r.value| == w - |ps| + 1
  {
    if |ps| == 0 || w < 1 then None
    else if w <= |ps| then
      Some(seq(|ps| - w + 1, k requires 0 <= k < |ps| - w + 1 => Centroid(ps[k..k + w])))
    else
      Some(seq(w - |ps| + 1, k => Point(Sum(Xs(ps)) / w as real, Sum(Ys(ps)) / w as real)))
  }

  /** Each smoothed point lies inside the bounding box of its window. */
  lemma SmoothedPointInWindow(ps: seq<Point>, w: int, k: nat)
    requires 1 <= w <= |ps| && k < |ps| - w + 1
    ensures SmoothPositions(ps, w).Some?
    ensures var c := SmoothPositions(ps, w).value[k];
            var win := ps[k..k + w];
            Min(Xs(win)) <= c.x <= Max(Xs(win)) && Min(Ys(win)) <= c.y <= Max(Ys(win))
  {
    var win := ps[k..k + w];
    assert SmoothPositions(ps, w).value[k] == Centroid(win);
    CentroidInBoundingBox(win);
  }

  /** A player standing still stays put under smoothing. */
  lemma SmoothingKeepsStillPlayer(ps: seq<Point>, w: int, p: Point)
    requires 1 <= w <= |ps| && forall i :: 0 <= i < |ps| ==> ps[i] == p
    ensures SmoothPositions(ps, w).Some?
    ensures forall k :: 0 <= k < |SmoothPositions(ps, w).value| ==> SmoothPositions(ps, w).value[k] == p
  {
    forall k | 0 <= k < |ps| - w + 1
      ensures SmoothPositions(ps, w).value[k] == p
    {
      CentroidOfOneSpot(ps[k..k + w], p);
    }
  }

  /**
   * `calculate_convex_hull_area`: zero below three points, otherwise the
   * `area` attribute of scipy's hull, passed in as `hullArea`.
   */
  function ConvexHullArea(ps: seq<Point>, hullArea: seq<Point> -> real): (a: real)
    ensures |ps| < 3 ==> a == 0.0
    ensures 3 <= |ps| ==> a == hullArea(ps)
  {
    if |ps| < 3 then 0.0 else hullArea(ps)
  }

  /** `interpolate_position`: `pos1 + (pos2 - pos1) * ratio`. */
  function InterpolatePosition(p1: Point, p2: Point, ratio: real): (r: Point)
    ensures ratio == 0.0 ==> r == p1
    ensures ratio == 1.0 ==> r == p2
  {
    Point(p1.x + Mul(p2.x - p1.x, ratio), p1.y + Mul(p2.y - p1.y, ratio))
  }

  lemma SquareOfProduct(a: real, k: real)
    ensures Sq(Mul(a, k)) == Mul(Sq(k), Sq(a))
    ensures Sq(-Mul(a, k)) == Mul(Sq(k), Sq(a))
  {
  }

  lemma InterpolateSqDist(p1: Point, p2: Point, ratio: real)
    ensures SqDist(p1, InterpolatePosition(p1, p2, ratio)) == Mul(Sq(ratio), SqDist(p1, p2))
    ensures SqDist(InterpolatePosition(p1, p2, ratio), p2) == Mul(Sq(1.0 - ratio), SqDist(p1, p2))
  {
    var dx, dy := p2.x - p1.x, p2.y - p1.y;
    var c := InterpolatePosition(p1, p2, ratio);
    SquareOfProduct(dx, ratio);
    SquareOfProduct(dy, ratio);
    SquareOfProduct(dx, 1.0 - ratio);
    SquareOfProduct(dy, 1.0 - ratio);
    assert p1.x - c.x == -Mul(dx, ratio);
    assert p1.y - c.y == -Mul(dy, ratio);
    assert c.x - p2.x == -Mul(dx, 1.0 - ratio);
    assert c.y - p2.y == -Mul(dy, 1.0 - ratio);
    assert Sq(dx) == Sq(p1.x - p2.x) && Sq(dy) == Sq(p1.y - p2.y);
  }

  /** `d == k * D` from the squares, for non-negative `d`, `k` and `D`. */
  lemma ScaledRoot(d: real, k: real, big: real, sq: real)
    requires 0.0 <= d && 0.0 <= k && 0.0 <= big
    requires Sq(d) == Mul(Sq(k), sq) && Sq(big) == sq
    ensures d == Mul(k, big)
  {
    ProductNonneg(k, big, Mul(k, big));
    assert Sq(Mul(k, big)) == Mul(Sq(k), Sq(big));
    SquareRootUnique(d, Mul(k, big));
  }

  /**
   * For a ratio in `[0, 1]` the interpolated point lies on the segment, at
   * `ratio` of the way from `pos1`: its distances to the two ends split the
   * segment's length in the ratio `ratio : 1 - ratio`.
   */
  lemma InterpolateOnSegment(m: Math, p1: Point, p2: Point, ratio: real)
    requires Lawful(m) && 0.0 <= ratio <= 1.0
    ensures Dist(m, p1, InterpolatePosition(p1, p2, ratio)) == Mul(ratio, Dist(m, p1, p2))
    ensures Dist(m, InterpolatePosition(p1, p2, ratio), p2) == Mul(1.0 - ratio, Dist(m, p1, p2))
    ensures Dist(m, p1, InterpolatePosition(p1, p2, ratio)) + Dist(m, InterpolatePosition(p1, p2, ratio), p2)
            == Dist(m, p1, p2)
  {
    var c := InterpolatePosition(p1, p2, ratio);
    var big := Dist(m, p1, p2);
    InterpolateSqDist(p1, p2, ratio);
    ScaledRoot(Dist(m, p1, c), ratio, big, SqDist(p1, p2));
    ScaledRoot(Dist(m, c, p2), 1.0 - ratio, big, SqDist(p1, p2));
    assert Mul(ratio, big) + Mul(1.0 - ratio, big) == big;
  }
}
