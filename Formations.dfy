/**
 * Formation analysis of `Soccer_Analytics/core/formation_analyzer.py`. Each
 * frame, a team of at least seven players has its positions pushed onto a
 * sliding window; the window's average positions are split into lines and
 * clustered into zones (defence, midfield, attack), the zones' head counts
 * are matched against a table of formation templates, and shape metrics
 * are computed. The k-means fits are not computed here: they are passed in
 * as a `Clustering` value.
 */
module Formations {
  import opened Numerics

  /** The fewest players for which a team's formation is analysed. */
  const MinPlayers := 7

  datatype Role = Def | Mid | Fwd

  datatype FormationZone = FormationZone(center: Point, players: seq<int>, role: Role, averageWidth: real, averageDepth: real)

  datatype Formation = Formation(
    timestamp: real, formationString: string, zones: seq<FormationZone>,
    compactness: Option<real>, width: real, depth: real, balanceScore: real)

  /** Head counts per role, in the order `'DEF'`, `'MID'`, `'FWD'`. */
  datatype RoleCounts = RoleCounts(defenders: nat, midfielders: nat, forwards: nat)

  /** `formation_templates`, in insertion order. */
  const Templates: seq<(string, RoleCounts)> := [
    ("4-4-2", RoleCounts(4, 4, 2)),
    ("4-3-3", RoleCounts(4, 3, 3)),
    ("3-5-2", RoleCounts(3, 5, 2)),
    ("4-2-3-1", RoleCounts(4, 5, 1)),
    ("4-1-4-1", RoleCounts(4, 5, 1)),
    ("3-4-3", RoleCounts(3, 4, 3)),
    ("5-3-2", RoleCounts(5, 3, 2)),
    ("4-5-1", RoleCounts(4, 5, 1))
  ]

  // ---------------------------------------------------------------------------
  // `_assign_roles`

  /** How many times `range(n)` runs. */
  function Times(n: int): nat
  {
    if n < 0 then 0 else n
  }

  /** The role of the `i`-th centre from the back line: defenders, then midfielders, then forwards. */
  function RoleAt(i: nat, nDefenders: nat, nMidfielders: nat): Role
  {
    if i < nDefenders then Def else if i < nDefenders + nMidfielders then Mid else Fwd
  }

  function MinN(a: nat, b: nat): nat
  {
    if a <= b then a else b
  }

  /**
   * `_assign_roles`: as many roles as there are centres, up to the requested
   * head count, handed out defenders first, then midfielders, then forwards.
   * Only the number of centres matters, so sorting them by height does not
   * change the result.
   */
  method AssignRoles(centers: seq<Point>, nDefenders: int, nMidfielders: int, nForwards: int) returns (roles: seq<Role>)
    ensures |roles| == MinN(|centers|, Times(nDefenders) + Times(nMidfielders) + Times(nForwards))
    ensures forall i :: 0 <= i < |roles| ==> roles[i] == RoleAt(i, Times(nDefenders), Times(nMidfielders))
  {
    var d, m, f := Times(nDefenders), Times(nMidfielders), Times(nForwards);
    roles := [];
    var currentIdx := 0;
    var k := 0;
    while k < nDefenders
      invariant k <= d && currentIdx == |roles| == MinN(|centers|, k)
      invariant forall i :: 0 <= i < |roles| ==> roles[i] == RoleAt(i, d, m)
    {
      if currentIdx < |centers| {
        roles := roles + [Def];
        currentIdx := currentIdx + 1;
      }
      k := k + 1;
    }
    k := 0;
    while k < nMidfielders
      invariant k <= m && currentIdx == |roles| == MinN(|centers|, d + k)
      invariant forall i :: 0 <= i < |roles| ==> roles[i] == RoleAt(i, d, m)
    {
      if currentIdx < |centers| {
        roles := roles + [Mid];
        currentIdx := currentIdx + 1;
      }
      k := k + 1;
    }
    k := 0;
    while k < nForwards
      invariant k <= f && currentIdx == |roles| == MinN(|centers|, d + m + k)
      invariant forall i :: 0 <= i < |roles| ==> roles[i] == RoleAt(i, d, m)
    {
      if currentIdx < |centers| {
        roles := roles + [Fwd];
        currentIdx := currentIdx + 1;
      }
      k := k + 1;
    }
  }

  // ---------------------------------------------------------------------------
  // `_detect_formation_pattern`

  function AddZone(c: RoleCounts, z: FormationZone): RoleCounts
  {
    match z.role
    case Def => c.(defenders := c.defenders + |z.players|)
    case Mid => c.(midfielders := c.midfielders + |z.players|)
    case Fwd => c.(forwards := c.forwards + |z.players|)
  }

  /** `role_counts`: the players of the zones, counted by the zone's role. */
  function RoleCountsOf(zones: seq<FormationZone>): RoleCounts
  {
    if |zones| == 0 then RoleCounts(0, 0, 0) else AddZone(RoleCountsOf(zones[..|zones| - 1]), zones[|zones| - 1])
  }

  function AbsDiff(a: nat, b: nat): nat
  {
    if a <= b then b - a else a - b
  }

  /** The L1 distance between two head counts. */
  function Mismatch(c: RoleCounts, t: RoleCounts): nat
  {
    AbsDiff(c.defenders, t.defenders) + AbsDiff(c.midfielders, t.midfielders) + AbsDiff(c.forwards, t.forwards)
  }

  function Mismatches(c: RoleCounts): (r: seq<real>)
    ensures |r| == |Templates|
  {
    seq(|Templates|, k requires 0 <= k < |Templates| => Mismatch(c, Templates[k].1) as real)
  }

  /** The template nearest to the head counts; on a tie, the first in the table. */
  function Pattern(c: RoleCounts): string
  {
    Templates[ArgMin(Mismatches(c))].0
  }

  function DigitChar(d: nat): char
    requires d < 10
  {
    "0123456789"[d]
  }

  function Digits(n: nat): string
  {
    if n < 10 then [DigitChar(n)] else Digits(n / 10) + [DigitChar(n % 10)]
  }

  /** `f"{DEF}-{MID}-{FWD}"`, used only when no template was chosen. */
  function Fallback(c: RoleCounts): string
  {
    Digits(c.defenders) + "-" + Digits(c.midfielders) + "-" + Digits(c.forwards)
  }

  /**
   * `_detect_formation_pattern`: counts the zones' players by role, then
   * keeps the first template with the smallest mismatch. The table is never
   * empty, so the fallback string is never used.
   */
  method DetectFormationPattern(zones: seq<FormationZone>) returns (s: string)
    ensures s == Pattern(RoleCountsOf(zones))
  {
    var counts := CountRoles(zones);
    s := NearestTemplate(counts);
  }

  /** The first loop of `_detect_formation_pattern`: players per role. */
  method CountRoles(zones: seq<FormationZone>) returns (counts: RoleCounts)
    ensures counts == RoleCountsOf(zones)
  {
    counts := RoleCounts(0, 0, 0);
    for i := 0 to |zones|
      invariant counts == RoleCountsOf(zones[..i])
    {
      assert zones[..i + 1][..i] == zones[..i];
      counts := AddZone(counts, zones[i]);
    }
    assert zones[..|zones|] == zones;
  }

  /** The second loop: the first template with the smallest mismatch. */
  method NearestTemplate(counts: RoleCounts) returns (s: string)
    ensures s == Pattern(counts)
  {
    ghost var ms := Mismatches(counts);
    var bestMatch: Option<nat> := None;
    var bestDiff: Option<nat> := None;
    for k := 0 to |Templates|
      invariant (k == 0) == bestMatch.None? && bestMatch.None? == bestDiff.None?
      invariant bestMatch.Some? ==>
        && bestMatch.value == ArgMin(ms[..k])
        && bestDiff.value == Mismatch(counts, Templates[bestMatch.value].1)
    {
      var diff := Mismatch(counts, Templates[k].1);
      if 0 < k {
        ArgMinStep(ms, k);
      }
      if bestDiff.None? || diff < bestDiff.value {
        bestDiff := Some(diff);
        bestMatch := Some(k);
      }
    }
    assert ms[..|Templates|] == ms;
    s := if bestMatch.Some? then Templates[bestMatch.value].0 else Fallback(counts);
  }

  /** The reported pattern is a template at the least mismatch, and every earlier template mismatches more. */
  lemma PatternIsNearestTemplate(c: RoleCounts)
    ensures exists k ::
      && 0 <= k < |Templates| && Pattern(c) == Templates[k].0
      && (forall j :: 0 <= j < |Templates| ==> Mismatch(c, Templates[k].1) <= Mismatch(c, Templates[j].1))
      && (forall j :: 0 <= j < k ==> Mismatch(c, Templates[k].1) < Mismatch(c, Templates[j].1))
  {
    var ms := Mismatches(c);
    var k := ArgMin(ms);
    assert forall j :: 0 <= j < |Templates| ==> ms[j] == Mismatch(c, Templates[j].1) as real;
  }

  /**
   * `'4-1-4-1'` and `'4-5-1'` have the same head counts as `'4-2-3-1'`,
   * which comes first in the table, so they are never reported.
   */
  lemma ShadowedTemplatesAreNeverReported(c: RoleCounts)
    ensures Pattern(c) != "4-1-4-1" && Pattern(c) != "4-5-1"
  {
    var ms := Mismatches(c);
    var k := ArgMin(ms);
    assert ms[3] == ms[4] == ms[7];
    assert k != 4 && k != 7;
  }

  /** Head counts equal to any other template are reported as that template. */
  lemma ExactTemplatesAreRecognised(k: nat)
    requires k < |Templates| && k != 4 && k != 7
    ensures Pattern(Templates[k].1) == Templates[k].0
  {
    var c := Templates[k].1;
    var ms := Mismatches(c);
    assert ms[k] == 0.0;
    var i := ArgMin(ms);
    assert ms[i] == 0.0;
    assert Templates[i].1 == c;
  }

  // ---------------------------------------------------------------------------
  // `_calculate_formation_metrics`

  datatype Metrics = Metrics(compactness: Option<real>, width: real, depth: real, balanceScore: real)

  /** One row of `cdist` with its zero entries dropped: the distances from `p` to the points of `qs` apart from it. */
  function Apart(m: Math, p: Point, qs: seq<Point>): (r: seq<real>)
    requires Lawful(m)
    ensures forall k :: 0 <= k < |r| ==> 0.0 < r[k]
  {
    if |qs| == 0 then []
    else
      var d := Dist(m, p, qs[|qs| - 1]);
      Apart(m, p, qs[..|qs| - 1]) + (if 0.0 < d then [d] else [])
  }

  /** `distances[distances > 0]` for `cdist(ps, qs)`, row by row. */
  function PairDistances(m: Math, ps: seq<Point>, qs: seq<Point>): (r: seq<real>)
    requires Lawful(m)
    ensures forall k :: 0 <= k < |r| ==> 0.0 < r[k]
  {
    if |ps| == 0 then [] else PairDistances(m, ps[..|ps| - 1], qs) + Apart(m, ps[|ps| - 1], qs)
  }

  lemma {:induction false} ApartEmptyIff(m: Math, p: Point, qs: seq<Point>)
    requires Lawful(m)
    ensures |Apart(m, p, qs)| == 0 <==> forall k :: 0 <= k < |qs| ==> qs[k] == p
  {
    if |qs| != 0 {
      var n := |qs| - 1;
      ApartEmptyIff(m, p, qs[..n]);
      if qs[n] == p {
        DistSelf(m, p);
      } else {
        DistPositive(m, p, qs[n]);
      }
      assert forall k :: 0 <= k < n ==> qs[..n][k] == qs[k];
    }
  }

  lemma {:induction false} PairDistancesEmptyIff(m: Math, ps: seq<Point>, qs: seq<Point>)
    requires Lawful(m)
    ensures |PairDistances(m, ps, qs)| == 0 <==> forall i, k :: 0 <= i < |ps| && 0 <= k < |qs| ==> qs[k] == ps[i]
  {
    if |ps| != 0 {
      var n := |ps| - 1;
      PairDistancesEmptyIff(m, ps[..n], qs);
      ApartEmptyIff(m, ps[n], qs);
      assert forall i :: 0 <= i < n ==> ps[..n][i] == ps[i];
    }
  }

  /**
   * `_calculate_formation_metrics`: all zeros without positions or zones;
   * otherwise the mean positive pairwise distance (NaN, here `None`, when
   * all players stand on one spot), the spread across and along the pitch,
   * and one minus the mean sideways offset from the centre line relative to
   * half the pitch width.
   */
  function FormationMetrics(m: Math, fieldWidth: real, positions: seq<Point>, zones: seq<FormationZone>): Metrics
    requires Lawful(m) && 0.0 < fieldWidth
  {
    if |positions| == 0 || |zones| == 0 then Metrics(Some(0.0), 0.0, 0.0, 0.0)
    else
      var ds := PairDistances(m, positions, positions);
      var xs, ys := Xs(positions), Ys(positions);
      var centerX := fieldWidth / 2.0;
      var deviations := seq(|positions|, i requires 0 <= i < |positions| => Abs(positions[i].x - centerX));
      Metrics(if |ds| == 0 then None else Some(Mean(ds)), Max(xs) - Min(xs), Max(ys) - Min(ys),
              1.0 - Mean(deviations) / centerX)
  }

  predicate OneSpot(positions: seq<Point>)
  {
    forall i, j :: 0 <= i < |positions| && 0 <= j < |positions| ==> positions[i] == positions[j]
  }

  /**
   * Width and depth are never negative and the balance score is at most one
   * (at least zero for players on the pitch); compactness is positive, and
   * missing exactly when every player stands on the same spot.
   */
  lemma MetricsFacts(m: Math, fieldWidth: real, positions: seq<Point>, zones: seq<FormationZone>)
    requires Lawful(m) && 0.0 < fieldWidth
    ensures var r := FormationMetrics(m, fieldWidth, positions, zones);
      && (|positions| == 0 || |zones| == 0 ==> r == Metrics(Some(0.0), 0.0, 0.0, 0.0))
      && 0.0 <= r.width && 0.0 <= r.depth && r.balanceScore <= 1.0
      && ((forall i :: 0 <= i < |positions| ==> 0.0 <= positions[i].x <= fieldWidth) ==> 0.0 <= r.balanceScore)
      && (0 < |positions| && 0 < |zones| ==>
            (r.compactness.None? <==> OneSpot(positions))
            && (r.compactness.Some? ==> 0.0 < r.compactness.value))
  {
    if 0 < |positions| && 0 < |zones| {
      CompactnessFacts(m, positions);
      BalanceFacts(fieldWidth, positions);
    }
  }

  lemma CompactnessFacts(m: Math, positions: seq<Point>)
    requires Lawful(m)
    ensures var ds := PairDistances(m, positions, positions);
      && (|ds| == 0 <==> OneSpot(positions))
      && (|ds| != 0 ==> 0.0 < Mean(ds))
  {
    var ds := PairDistances(m, positions, positions);
    PairDistancesEmptyIff(m, positions, positions);
    if |ds| != 0 {
      MeanWithinExtremes(ds);
    }
  }

  lemma BalanceFacts(fieldWidth: real, positions: seq<Point>)
    requires 0.0 < fieldWidth && 0 < |positions|
    ensures var centerX := fieldWidth / 2.0;
      var deviations := seq(|positions|, i requires 0 <= i < |positions| => Abs(positions[i].x - centerX));
      && 0.0 <= Mean(deviations) / centerX
      && ((forall i :: 0 <= i < |positions| ==> 0.0 <= positions[i].x <= fieldWidth) ==> Mean(deviations) / centerX <= 1.0)
  {
    var centerX := fieldWidth / 2.0;
    var deviations := seq(|positions|, i requires 0 <= i < |positions| => Abs(positions[i].x - centerX));
    MeanBetween(deviations, 0.0, Max(deviations));
    QuotientNonneg(Mean(deviations), centerX);
    if forall i :: 0 <= i < |positions| ==> 0.0 <= positions[i].x <= fieldWidth {
      MeanBetween(deviations, 0.0, centerX);
      QuotientAtMostOne(Mean(deviations), centerX);
    }
  }

  // ---------------------------------------------------------------------------
  // Zones

  /** The players standing strictly within `tolerance` of a zone's centre, in the frame's order. */
  function ZonePlayers(m: Math, positions: seq<(int, Point)>, center: Point, tolerance: real): (ids: seq<int>)
    requires Lawful(m)
    ensures |ids| <= |positions|
  {
    if |positions| == 0 then []
    else
      var n := |positions| - 1;
      ZonePlayers(m, positions[..n], center, tolerance)
      + (if Dist(m, positions[n].1, center) < tolerance then [positions[n].0] else [])
  }

  /** A player is in the zone exactly when one of their listed positions is within tolerance of its centre. */
  lemma {:induction false} ZonePlayersWithinTolerance(m: Math, positions: seq<(int, Point)>, center: Point, tolerance: real, id: int)
    requires Lawful(m)
    ensures id in ZonePlayers(m, positions, center, tolerance)
      <==> exists k :: 0 <= k < |positions| && positions[k].0 == id && Dist(m, positions[k].1, center) < tolerance
  {
    if |positions| != 0 {
      var n := |positions| - 1;
      ZonePlayersWithinTolerance(m, positions[..n], center, tolerance, id);
      if exists k :: 0 <= k < |positions| && positions[k].0 == id && Dist(m, positions[k].1, center) < tolerance {
        var k :| 0 <= k < |positions| && positions[k].0 == id && Dist(m, positions[k].1, center) < tolerance;
        if k < n {
          assert positions[..n][k] == positions[k];
        }
      }
    }
  }

  /** `[pos for pid, pos in positions if pid in zone_players]` */
  function ZonePositions(positions: seq<(int, Point)>, ids: seq<int>): (r: seq<Point>)
    ensures |r| <= |positions|
  {
    if |positions| == 0 then []
    else
      var n := |positions| - 1;
      ZonePositions(positions[..n], ids) + (if positions[n].0 in ids then [positions[n].1] else [])
  }

  /** `max - min` of a coordinate over the zone's positions, zero for an empty zone. */
  function Spread(xs: seq<real>): (r: real)
    ensures 0.0 <= r
  {
    if |xs| == 0 then 0.0 else Max(xs) - Min(xs)
  }

  function Zone(m: Math, positions: seq<(int, Point)>, center: Point, role: Role, tolerance: real): FormationZone
    requires Lawful(m)
  {
    var ids := ZonePlayers(m, positions, center, tolerance);
    var zp := ZonePositions(positions, ids);
    FormationZone(center, ids, role, Spread(Xs(zp)), Spread(Ys(zp)))
  }

  /** The zones of `zip(centers, roles)`. */
  function Zones(m: Math, positions: seq<(int, Point)>, centers: seq<Point>, roles: seq<Role>, tolerance: real): (zs: seq<FormationZone>)
    requires Lawful(m) && |centers| == |roles|
    ensures |zs| == |centers|
    ensures forall k :: 0 <= k < |zs| ==> zs[k].role == roles[k] && zs[k].center == centers[k]
  {
    seq(|centers|, k requires 0 <= k < |centers| => Zone(m, positions, centers[k], roles[k], tolerance))
  }

  // ---------------------------------------------------------------------------
  // `analyze_frame` for one team

  /**
   * The two k-means fits of `analyze_frame`: `lines(ys, n)` labels each
   * height with one of `n` lines, and `centers(ps, n)` gives the centres of
   * `n` clusters of the points `ps`.
   */
  datatype Clustering = Clustering(lines: (seq<real>, nat) -> seq<int>, centers: (seq<Point>, nat) -> seq<Point>)

  /** `fit_predict` labels every sample. */
  ghost predicate Sound(c: Clustering)
  {
    forall ys, n :: |c.lines(ys, n)| == |ys|
  }

  /** Every frame of the window has a slot `i`. */
  predicate Rectangular(history: seq<seq<Point>>)
  {
    forall f :: 0 <= f < |history| ==> |history[f]| == |history[0]|
  }

  /** Slot `i` of every frame. */
  function Column(history: seq<seq<Point>>, i: nat): (r: seq<Point>)
    requires 0 < |history| && Rectangular(history) && i < |history[0]|
    ensures |r| == |history|
  {
    seq(|history|, f requires 0 <= f < |history| && Rectangular(history) && i < |history[0]| => history[f][i])
  }

  /**
   * `np.mean(position_history, axis=0)`: each slot's mean position over the
   * window. numpy refuses frames of different sizes, here `None`.
   */
  function AveragePositions(history: seq<seq<Point>>): (r: Option<seq<Point>>)
    requires 0 < |history|
    ensures r.Some? <==> Rectangular(history)
    ensures r.Some? ==> |r.value| == |history[0]|
  {
    if !Rectangular(history) then None
    else Some(seq(|history[0]|, i requires 0 <= i < |history[0]| =>
                    Point(Mean(Xs(Column(history, i))), Mean(Ys(Column(history, i))))))
  }

  /** A team that held the same positions over the whole window averages to those positions. */
  lemma StillTeamAveragesToItsPositions(history: seq<seq<Point>>, frame: seq<Point>)
    requires 0 < |history| && forall f :: 0 <= f < |history| ==> history[f] == frame
    ensures AveragePositions(history) == Some(frame)
  {
    var r := AveragePositions(history).value;
    forall i | 0 <= i < |frame|
      ensures r[i] == frame[i]
    {
      StillSlot(history, frame, i);
    }
    assert r == frame;
  }

  lemma StillSlot(history: seq<seq<Point>>, frame: seq<Point>, i: nat)
    requires 0 < |history| && forall f :: 0 <= f < |history| ==> history[f] == frame
    requires i < |frame|
    ensures Rectangular(history)
    ensures Mean(Xs(Column(history, i))) == frame[i].x && Mean(Ys(Column(history, i))) == frame[i].y
  {
    var col := Column(history, i);
    MeanOfConstant(Xs(col), frame[i].x);
    MeanOfConstant(Ys(col), frame[i].y);
  }

  /** The positions of the players of one line: `[pos for i, pos in enumerate(avg) if y_clusters[i] == line]`. */
  function Unit(avg: seq<Point>, labels: seq<int>, line: int): (r: seq<Point>)
    requires |labels| == |avg|
    ensures |r| <= |avg|
  {
    if |avg| == 0 then []
    else
      var n := |avg| - 1;
      Unit(avg[..n], labels[..n], line) + (if labels[n] == line then [avg[n]] else [])
  }

  /** `_cluster_positions`: no centres when the unit has fewer points than clusters. */
  function UnitCenters(c: Clustering, unit: seq<Point>, n: nat): seq<Point>
  {
    if |unit| < n then [] else c.centers(unit, n)
  }

  function Repeat(r: Role, n: nat): (s: seq<Role>)
    ensures |s| == n && forall k :: 0 <= k < n ==> s[k] == r
  {
    seq(n, _ => r)
  }

  function Rank(r: Role): nat
  {
    match r
    case Def => 0
    case Mid => 1
    case Fwd => 2
  }

  datatype TeamOutcome = Skipped | Analysed(formation: Formation) | Inhomogeneous

  datatype Config = Config(fieldWidth: real, windowSize: nat, clusterTolerance: real)

  /** `[pos for pid, pos in positions]` */
  function PointsOf(positions: seq<(int, Point)>): (r: seq<Point>)
    ensures |r| == |positions| && forall k :: 0 <= k < |r| ==> r[k] == positions[k].1
  {
    seq(|positions|, k requires 0 <= k < |positions| => positions[k].1)
  }

  /**
   * The zones of one team: the window's average heights are labelled with
   * lines; the defence (line 0, up to 4 zones), midfield (line 1, up to 5)
   * and attack (line 2, up to 3) are clustered; the zones are built around
   * the current positions.
   */
  function LineZones(m: Math, cfg: Config, avg: seq<Point>, positions: seq<(int, Point)>, c: Clustering): seq<FormationZone>
    requires Lawful(m) && Sound(c)
  {
    var ys := Ys(avg);
    var labels := c.lines(ys, if 4 <= |ys| then 4 else |ys|);
    var dc := UnitCenters(c, Unit(avg, labels, 0), 4);
    var mc := UnitCenters(c, Unit(avg, labels, 1), 5);
    var fc := UnitCenters(c, Unit(avg, labels, 2), 3);
    Zones(m, positions, dc + mc + fc, Repeat(Def, |dc|) + Repeat(Mid, |mc|) + Repeat(Fwd, |fc|), cfg.clusterTolerance)
  }

  /**
   * The zones are listed by role tag: defence, then midfield, then attack.
   * The tags follow the KMeans label numbers, which need not order the
   * lines by height.
   */
  lemma LineZonesRunFromTheBack(m: Math, cfg: Config, avg: seq<Point>, positions: seq<(int, Point)>, c: Clustering)
    requires Lawful(m) && Sound(c)
    ensures var zs := LineZones(m, cfg, avg, positions, c);
      forall i, j :: 0 <= i < j < |zs| ==> Rank(zs[i].role) <= Rank(zs[j].role)
  {
    var ys := Ys(avg);
    var labels := c.lines(ys, if 4 <= |ys| then 4 else |ys|);
    var dc := UnitCenters(c, Unit(avg, labels, 0), 4);
    var mc := UnitCenters(c, Unit(avg, labels, 1), 5);
    var roles := Repeat(Def, |dc|) + Repeat(Mid, |mc|) + Repeat(Fwd, |UnitCenters(c, Unit(avg, labels, 2), 3)|);
    assert forall i :: 0 <= i < |roles| ==> Rank(roles[i]) == if i < |dc| then 0 else if i < |dc| + |mc| then 1 else 2;
  }

  /** The formation of a team from its average positions and zones. */
  function FormationOf(m: Math, cfg: Config, avg: seq<Point>, zones: seq<FormationZone>, time: real): Formation
    requires Lawful(m) && 0.0 < cfg.fieldWidth
  {
    var metrics := FormationMetrics(m, cfg.fieldWidth, avg, zones);
    Formation(time, Pattern(RoleCountsOf(zones)), zones, metrics.compactness, metrics.width, metrics.depth, metrics.balanceScore)
  }

  /** The formation names a template other than the two shadowed ones; its width and depth are never negative and its balance at most one. */
  lemma FormationOfFacts(m: Math, cfg: Config, avg: seq<Point>, zones: seq<FormationZone>, time: real)
    requires Lawful(m) && 0.0 < cfg.fieldWidth
    ensures var f := FormationOf(m, cfg, avg, zones, time);
      && f.timestamp == time && f.zones == zones
      && (exists k :: 0 <= k < |Templates| && f.formationString == Templates[k].0)
      && f.formationString != "4-1-4-1" && f.formationString != "4-5-1"
      && 0.0 <= f.width && 0.0 <= f.depth && f.balanceScore <= 1.0
  {
    PatternIsNearestTemplate(RoleCountsOf(zones));
    ShadowedTemplatesAreNeverReported(RoleCountsOf(zones));
    MetricsFacts(m, cfg.fieldWidth, avg, zones);
  }

  /** The body of `analyze_frame` for one team, after its window was updated. */
  function Analyse(m: Math, cfg: Config, history: seq<seq<Point>>, positions: seq<(int, Point)>, time: real,
                   c: Clustering): (o: TeamOutcome)
    requires Lawful(m) && Sound(c) && 0.0 < cfg.fieldWidth && 0 < |history|
    ensures !o.Skipped? && (o.Inhomogeneous? <==> !Rectangular(history))
  {
    match AveragePositions(history)
    case None => Inhomogeneous
    case Some(avg) => Analysed(FormationOf(m, cfg, avg, LineZones(m, cfg, avg, positions, c), time))
  }

  /** Analysing a team never skips it, fails only on a window of frames of different sizes, and otherwise gives a well-formed formation. */
  lemma AnalyseFacts(m: Math, cfg: Config, history: seq<seq<Point>>, positions: seq<(int, Point)>, time: real, c: Clustering)
    requires Lawful(m) && Sound(c) && 0.0 < cfg.fieldWidth && 0 < |history|
    ensures var o := Analyse(m, cfg, history, positions, time, c);
      o.Analysed? ==>
            var f := o.formation;
            && f.timestamp == time
            && (exists k :: 0 <= k < |Templates| && f.formationString == Templates[k].0)
            && f.formationString != "4-1-4-1" && f.formationString != "4-5-1"
            && (forall i, j :: 0 <= i < j < |f.zones| ==> Rank(f.zones[i].role) <= Rank(f.zones[j].role))
            && 0.0 <= f.width && 0.0 <= f.depth && f.balanceScore <= 1.0
  {
    var avg := AveragePositions(history);
    if avg.Some? {
      LineZonesRunFromTheBack(m, cfg, avg.value, positions, c);
      FormationOfFacts(m, cfg, avg.value, LineZones(m, cfg, avg.value, positions, c), time);
    }
  }

  /** The two dictionaries of the analyzer: each team's window of frames and of formations. */
  datatype Histories = Histories(positions: PerTeam<seq<seq<Point>>>, formations: PerTeam<seq<Formation>>)

  const NoHistory := Histories(PerTeam([], []), PerTeam([], []))

  /** No window is longer than `window_size`. */
  predicate Windowed(cfg: Config, h: Histories)
  {
    && |h.positions.home| <= cfg.windowSize && |h.positions.away| <= cfg.windowSize
    && |h.formations.home| <= cfg.windowSize && |h.formations.away| <= cfg.windowSize
  }

  /** `analyze_frame` for one team: skip a short team; otherwise slide the window, analyse it, and slide the formations. */
  function Step(m: Math, cfg: Config, h: Histories, team: Team, positions: seq<(int, Point)>, time: real, c: Clustering)
    : (Histories, TeamOutcome)
    requires Lawful(m) && Sound(c) && 0.0 < cfg.fieldWidth && 1 <= cfg.windowSize && Windowed(cfg, h)
  {
    if |positions| < MinPlayers then (h, Skipped)
    else
      var window := Pushed(h.positions.Get(team), PointsOf(positions), cfg.windowSize);
      var h' := h.(positions := h.positions.Set(team, window));
      var o := Analyse(m, cfg, window, positions, time, c);
      if o.Analysed? then (h'.(formations := h.formations.Set(team, Pushed(h.formations.Get(team), o.formation, cfg.windowSize))), o)
      else (h', o)
  }

  /**
   * A team with fewer than seven players changes nothing. Otherwise its
   * frame is the newest of its window and, when analysed, its formation the
   * newest of its formations; no window grows past `window_size`, and the
   * other team's windows are untouched.
   */
  lemma StepSlidesWindows(m: Math, cfg: Config, h: Histories, team: Team, positions: seq<(int, Point)>, time: real, c: Clustering)
    requires Lawful(m) && Sound(c) && 0.0 < cfg.fieldWidth && 1 <= cfg.windowSize && Windowed(cfg, h)
    ensures var (h', o) := Step(m, cfg, h, team, positions, time, c);
      && Windowed(cfg, h')
      && (|positions| < MinPlayers <==> o.Skipped?)
      && (o.Skipped? ==> h' == h)
      && (!o.Skipped? ==>
            && h'.positions.Get(team) == Recent(h.positions.Get(team) + [PointsOf(positions)], cfg.windowSize)
            && (o.Analysed? ==> h'.formations.Get(team) == Recent(h.formations.Get(team) + [o.formation], cfg.windowSize))
            && (o.Inhomogeneous? ==> h'.formations == h.formations))
      && h'.positions.Get(Other(team)) == h.positions.Get(Other(team))
      && h'.formations.Get(Other(team)) == h.formations.Get(Other(team))
  {
    if MinPlayers <= |positions| {
      var window := Pushed(h.positions.Get(team), PointsOf(positions), cfg.windowSize);
      PushedWithinWindow(h.positions.Get(team), PointsOf(positions), cfg.windowSize);
      var o := Analyse(m, cfg, window, positions, time, c);
      if o.Analysed? {
        PushedWithinWindow(h.formations.Get(team), o.formation, cfg.windowSize);
      }
    }
  }

  /** `timestamp or datetime.now().timestamp()`: a missing or zero timestamp takes the clock's time. */
  function TimeOf(timestamp: Option<real>, now: real): real
  {
    if timestamp.None? || timestamp.value == 0.0 then now else timestamp.value
  }

  /**
   * `analyze_frame`: home, then away. A window of frames of different sizes
   * raises, here `None`, after that team's window has been updated and
   * before the next team is looked at.
   */
  function FrameStep(m: Math, cfg: Config, h: Histories, home: seq<(int, Point)>, away: seq<(int, Point)>,
                     time: real, c: Clustering): (Histories, Option<map<Team, Formation>>)
    requires Lawful(m) && Sound(c) && 0.0 < cfg.fieldWidth && 1 <= cfg.windowSize && Windowed(cfg, h)
  {
    StepSlidesWindows(m, cfg, h, Home, home, time, c);
    var (h1, o1) := Step(m, cfg, h, Home, home, time, c);
    if o1.Inhomogeneous? then (h1, None)
    else
      var (h2, o2) := Step(m, cfg, h1, Away, away, time, c);
      var r1: map<Team, Formation> := if o1.Analysed? then map[Home := o1.formation] else map[];
      if o2.Inhomogeneous? then (h2, None)
      else (h2, Some(if o2.Analysed? then r1[Away := o2.formation] else r1))
  }

  // ---------------------------------------------------------------------------
  // `get_formation_stability` and `get_formation_summary`

  /** The number of adjacent formation strings that differ. */
  function Changes(names: seq<string>): (n: nat)
    ensures 0 < |names| ==> n < |names|
  {
    if |names| < 2 then 0
    else Changes(names[..|names| - 1]) + (if names[|names| - 1] != names[|names| - 2] then 1 else 0)
  }

  /** No changes exactly when the formation string never changed. */
  lemma {:induction false} NoChangesIffSteady(names: seq<string>)
    ensures Changes(names) == 0 <==> forall i :: 0 < i < |names| ==> names[i] == names[i - 1]
  {
    if 2 <= |names| {
      var n := |names| - 1;
      NoChangesIffSteady(names[..n]);
      assert forall i :: 0 <= i < n ==> names[..n][i] == names[i];
    }
  }

  function Names(history: seq<Formation>): (r: seq<string>)
    ensures |r| == |history| && forall k :: 0 <= k < |r| ==> r[k] == history[k].formationString
  {
    seq(|history|, k requires 0 <= k < |history| => history[k].formationString)
  }

  function Compactnesses(history: seq<Formation>): seq<Option<real>>
  {
    seq(|history|, k requires 0 <= k < |history| => history[k].compactness)
  }

  predicate AllPresent(xs: seq<Option<real>>)
  {
    forall k :: 0 <= k < |xs| ==> xs[k].Some?
  }

  function Values(xs: seq<Option<real>>): (r: seq<real>)
    requires AllPresent(xs)
    ensures |r| == |xs| && forall k :: 0 <= k < |r| ==> r[k] == xs[k].value
  {
    seq(|xs|, k requires 0 <= k < |xs| && AllPresent(xs) => xs[k].value)
  }

  function Widths(history: seq<Formation>): seq<real>
  {
    seq(|history|, k requires 0 <= k < |history| => history[k].width)
  }

  function Depths(history: seq<Formation>): seq<real>
  {
    seq(|history|, k requires 0 <= k < |history| => history[k].depth)
  }

  function Balances(history: seq<Formation>): seq<real>
  {
    seq(|history|, k requires 0 <= k < |history| => history[k].balanceScore)
  }

  datatype Stability = Stability(formationChanges: nat, compactnessVariance: Option<real>, widthVariance: real, depthVariance: real)

  /**
   * `get_formation_stability`: zeros without formations; otherwise the
   * number of changes and the variances of compactness (NaN, here `None`,
   * when one is missing), width and depth.
   */
  function StabilityOf(history: seq<Formation>): (r: Stability)
    ensures |history| == 0 ==> r == Stability(0, Some(0.0), 0.0, 0.0)
    ensures 0 < |history| ==> r.formationChanges < |history|
    ensures r.compactnessVariance.Some? ==> 0.0 <= r.compactnessVariance.value
    ensures 0.0 <= r.widthVariance && 0.0 <= r.depthVariance
  {
    if |history| == 0 then Stability(0, Some(0.0), 0.0, 0.0)
    else
      var cs := Compactnesses(history);
      Stability(Changes(Names(history)),
                if AllPresent(cs) then Some(Variance(Values(cs))) else None,
                Variance(Widths(history)), Variance(Depths(history)))
  }

  /** A window holding one formation repeated has no changes and no variance. */
  lemma SteadyFormationIsStable(history: seq<Formation>, f: Formation)
    requires 0 < |history| && forall k :: 0 <= k < |history| ==> history[k] == f
    ensures var r := StabilityOf(history);
      && r.formationChanges == 0 && r.widthVariance == 0.0 && r.depthVariance == 0.0
      && (f.compactness.Some? ==> r.compactnessVariance == Some(0.0))
  {
    NoChangesIffSteady(Names(history));
    VarianceOfConstant(Widths(history), f.width);
    VarianceOfConstant(Depths(history), f.depth);
    if f.compactness.Some? {
      VarianceOfConstant(Values(Compactnesses(history)), f.compactness.value);
    }
  }

  /** `max(set(formations), key=formations.count)`: a most frequent string; on a tie, the first in the window. */
  function MostCommon(names: seq<string>): (r: string)
    requires 0 < |names|
    ensures r in names && forall k :: 0 <= k < |names| ==> multiset(names)[names[k]] <= multiset(names)[r]
  {
    var counts := seq(|names|, k requires 0 <= k < |names| => multiset(names)[names[k]] as real);
    var i := ArgMax(counts);
    assert forall k :: 0 <= k < |names| ==> counts[k] <= counts[i] && counts[k] == multiset(names)[names[k]] as real;
    names[i]
  }

  datatype Summary = Summary(
    primaryFormation: string, formationChanges: nat,
    compactness: Option<real>, width: real, depth: real, balance: real, stability: Stability)

  function SummaryOf(history: seq<Formation>): (r: Summary)
    requires 0 < |history|
    ensures r.primaryFormation in Names(history)
    ensures r.formationChanges == r.stability.formationChanges < |history|
  {
    var cs := Compactnesses(history);
    var stability := StabilityOf(history);
    Summary(MostCommon(Names(history)), stability.formationChanges,
            if AllPresent(cs) then Some(Mean(Values(cs))) else None,
            Mean(Widths(history)), Mean(Depths(history)), Mean(Balances(history)), stability)
  }

  /** `get_formation_summary`: a summary for each team that has formations, and only for those. */
  function FormationSummary(h: Histories): (r: map<Team, Summary>)
    ensures Home in r <==> 0 < |h.formations.home|
    ensures Away in r <==> 0 < |h.formations.away|
    ensures forall t :: t in r ==> r[t] == SummaryOf(h.formations.Get(t))
  {
    var r: map<Team, Summary> := if 0 < |h.formations.home| then map[Home := SummaryOf(h.formations.home)] else map[];
    if 0 < |h.formations.away| then r[Away := SummaryOf(h.formations.away)] else r
  }

  // ---------------------------------------------------------------------------
  // The analyzer

  class FormationAnalyzer {
    const math: Math
    const config: Config
    var positionHistory: PerTeam<seq<seq<Point>>>
    var formationHistory: PerTeam<seq<Formation>>

    function State(): Histories
      reads this
    {
      Histories(positionHistory, formationHistory)
    }

    ghost predicate Valid()
      reads this
    {
      Lawful(math) && 0.0 < config.fieldWidth && 1 <= config.windowSize && Windowed(config, State())
    }

    /** The configuration must give a positive pitch width and a window of at least one frame. */
    constructor(m: Math, cfg: Config)
      requires Lawful(m) && 0.0 < cfg.fieldWidth && 1 <= cfg.windowSize
      ensures Valid() && math == m && config == cfg && State() == NoHistory
    {
      math, config := m, cfg;
      positionHistory := PerTeam([], []);
      formationHistory := PerTeam([], []);
    }

    /** One team of `analyze_frame`: append the frame, drop the oldest past the window, and likewise for the formation. */
    method AnalyzeTeam(team: Team, positions: seq<(int, Point)>, time: real, c: Clustering) returns (o: TeamOutcome)
      requires Valid() && Sound(c)
      modifies this
      ensures Valid()
      ensures (State(), o) == Step(math, config, old(State()), team, positions, time, c)
    {
      StepSlidesWindows(math, config, State(), team, positions, time, c);
      if |positions| < MinPlayers {
        return Skipped;
      }
      var window := positionHistory.Get(team) + [PointsOf(positions)];
      if |window| > config.windowSize {
        window := window[1..];
      }
      positionHistory := positionHistory.Set(team, window);
      o := Analyse(math, config, window, positions, time, c);
      if o.Analysed? {
        var formations := formationHistory.Get(team) + [o.formation];
        if |formations| > config.windowSize {
          formations := formations[1..];
        }
        formationHistory := formationHistory.Set(team, formations);
      }
    }

    /** `analyze_frame`: the formations of the teams analysed, or `None` where numpy raises. */
    method AnalyzeFrame(home: seq<(int, Point)>, away: seq<(int, Point)>, timestamp: Option<real>, now: real, c: Clustering)
      returns (formations: Option<map<Team, Formation>>)
      requires Valid() && Sound(c)
      modifies this
      ensures Valid()
      ensures (State(), formations) == FrameStep(math, config, old(State()), home, away, TimeOf(timestamp, now), c)
    {
      var time := TimeOf(timestamp, now);
      var o1 := AnalyzeTeam(Home, home, time, c);
      if o1.Inhomogeneous? {
        return None;
      }
      var o2 := AnalyzeTeam(Away, away, time, c);
      var r: map<Team, Formation> := if o1.Analysed? then map[Home := o1.formation] else map[];
      if o2.Inhomogeneous? {
        return None;
      }
      formations := Some(if o2.Analysed? then r[Away := o2.formation] else r);
    }

    /** `get_formation_stability(team)`: the window holds at most `window_size` formations, so fewer changes than that. */
    function GetFormationStability(team: Team): (r: Stability)
      requires Valid()
      reads this
      ensures |formationHistory.Get(team)| == 0 ==> r == Stability(0, Some(0.0), 0.0, 0.0)
      ensures r.formationChanges < config.windowSize
    {
      StabilityOf(formationHistory.Get(team))
    }

    /** `get_formation_summary()` */
    function GetFormationSummary(): (r: map<Team, Summary>)
      reads this
      ensures Home in r <==> 0 < |formationHistory.home|
      ensures Away in r <==> 0 < |formationHistory.away|
    {
      FormationSummary(State())
    }

    /** `reset`: both windows of both teams are emptied. */
    method Reset()
      requires Valid()
      modifies this
      ensures Valid() && State() == NoHistory
    {
      positionHistory := PerTeam([], []);
      formationHistory := PerTeam([], []);
    }
  }
}
