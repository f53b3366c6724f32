/**
 * Shared vocabulary of the analyzers: optional values, pitch points, the
 * transcendental functions numpy supplies, and the sum / mean / argmin /
 * argmax helpers the Python code gets from `sum`, `np.mean`, `np.argmin`
 * and `np.argmax`.
 */
module Numerics {

  datatype Option<T> = None | Some(value: T)

  /** A position on the pitch, in metres. */
  datatype Point = Point(x: real, y: real)

  /**
   * numpy's `sqrt`, `exp`, `arctan`, `arctan2` and the constant `pi`.
   * They are not definable over Dafny's reals, so every member that uses
   * them takes a `Math` value and requires `Lawful` of it: whatever
   * functions are passed in, the laws below are all the model relies on.
   */
  datatype Math = Math(
    sqrt: real -> real,
    exp: real -> real,
    arctan: real -> real,
    atan2: (real, real) -> real,
    pi: real)

  /**
   * A marker with no content. The laws below fire only on terms `At(x)`, so
   * the solver instantiates them where a proof asks for them (through the
   * lemmas that follow) instead of at every application of `sqrt` or `exp`.
   */
  predicate At(x: real) { true }

  ghost predicate Lawful(m: Math)
  {
    && 3.14 < m.pi < 3.15
    && (forall x {:trigger At(x)} :: 0.0 <= x ==> 0.0 <= m.sqrt(x) && m.sqrt(x) * m.sqrt(x) == x)
    && (forall x {:trigger At(x)} :: 0.0 < m.exp(x))
    && (forall x {:trigger At(x)} :: x <= 0.0 ==> m.exp(x) <= 1.0)
    && m.exp(0.0) == 1.0
    && (forall x, y {:trigger At(x), At(y)} :: x <= y ==> m.exp(x) <= m.exp(y))
    && (forall x {:trigger At(x)} :: -m.pi / 2.0 < m.arctan(x) < m.pi / 2.0)
    && (forall y, x {:trigger At(y), At(x)} :: -m.pi < m.atan2(y, x) <= m.pi)
  }

  lemma SqrtLaw(m: Math, x: real)
    requires Lawful(m) && 0.0 <= x
    ensures 0.0 <= m.sqrt(x) && m.sqrt(x) * m.sqrt(x) == x
  {
    assert At(x);
  }

  lemma ExpLaw(m: Math, x: real)
    requires Lawful(m)
    ensures 0.0 < m.exp(x)
    ensures x <= 0.0 ==> m.exp(x) <= 1.0
  {
    assert At(x);
  }

  lemma ExpMonotone(m: Math, x: real, y: real)
    requires Lawful(m) && x <= y
    ensures m.exp(x) <= m.exp(y)
  {
    assert At(x) && At(y);
  }

  lemma AngleLaws(m: Math, y: real, x: real)
    requires Lawful(m)
    ensures -m.pi < m.atan2(y, x) <= m.pi
    ensures -m.pi / 2.0 < m.arctan(x) < m.pi / 2.0
  {
    assert At(y) && At(x);
  }

  /** `np.degrees` */
  function Degrees(m: Math, radians: real): real
    requires Lawful(m)
  {
    radians * 180.0 / m.pi
  }

  lemma SquareStrictlyMonotone(a: real, b: real)
    requires 0.0 <= a < b
    ensures a * a < b * b
  {
    var d := b - a;
    assert b * b == a * a + d * (a + b);
    assert 0.0 < d * (a + b);
  }

  lemma SqrtOfSquare(m: Math, x: real)
    requires Lawful(m)
    requires 0.0 <= x
    ensures m.sqrt(x * x) == x
  {
    var s := m.sqrt(x * x);
    SqrtLaw(m, x * x);
    if s < x {
      SquareStrictlyMonotone(s, x);
    } else if x < s {
      SquareStrictlyMonotone(x, s);
    }
  }

  lemma SqrtMonotone(m: Math, a: real, b: real)
    requires Lawful(m)
    requires 0.0 <= a <= b
    ensures m.sqrt(a) <= m.sqrt(b)
  {
    var sa, sb := m.sqrt(a), m.sqrt(b);
    SqrtLaw(m, a);
    SqrtLaw(m, b);
    if sb < sa {
      SquareStrictlyMonotone(sb, sa);
    }
  }

  /**
   * `x ** 2` and `x * y`. Geometry keeps its products behind these names:
   * the solver then matches a definition against a use by the name and its
   * arguments instead of by expanding both polynomials.
   */
  function Sq(x: real): real
  {
    x * x
  }

  function Mul(x: real, y: real): real
  {
    x * y
  }

  lemma SquareNonneg(x: real)
    ensures 0.0 <= Sq(x)
  {
  }

  /**
   * Squared Euclidean distance. Its sign is a separate lemma: an `ensures`
   * here would put an inequality about every instance into every proof
   * that mentions one, which makes polynomial identities costly.
   */
  function SqDist(p: Point, q: Point): real
  {
    Sq(p.x - q.x) + Sq(p.y - q.y)
  }

  lemma SqDistNonneg(p: Point, q: Point)
    ensures 0.0 <= SqDist(p, q)
  {
    SquareNonneg(p.x - q.x);
    SquareNonneg(p.y - q.y);
  }

  /** Euclidean distance, as `np.linalg.norm(p - q)` and `cdist` compute it. */
  function Dist(m: Math, p: Point, q: Point): (d: real)
    requires Lawful(m)
    ensures 0.0 <= d && Sq(d) == SqDist(p, q)
  {
    SqDistNonneg(p, q);
    SqrtLaw(m, SqDist(p, q));
    m.sqrt(SqDist(p, q))
  }

  /**
   * Sign of a product, stated about a name `u` for the product so that the
   * fact survives as a linear fact about `u` at the call site.
   */
  /** Distinct points are a positive distance apart. */
  lemma DistPositive(m: Math, p: Point, q: Point)
    requires Lawful(m) && p != q
    ensures 0.0 < Dist(m, p, q)
  {
    SquareNonneg(p.x - q.x);
    SquareNonneg(p.y - q.y);
    if p.x != q.x {
      ProductPositive(p.x - q.x, p.x - q.x, Sq(p.x - q.x));
    } else {
      ProductPositive(p.y - q.y, p.y - q.y, Sq(p.y - q.y));
    }
  }

  lemma ProductPositive(a: real, b: real, u: real)
    requires (0.0 < a && 0.0 < b) || (a < 0.0 && b < 0.0)
    requires u == a * b
    ensures 0.0 < u
  {
  }

  lemma QuotientTimesDivisor(a: real, b: real)
    requires b != 0.0
    ensures a / b * b == a
  {
  }

  /** Two non-negative numbers with the same square are equal. */
  lemma SquareRootUnique(a: real, b: real)
    requires 0.0 <= a && 0.0 <= b && Sq(a) == Sq(b)
    ensures a == b
  {
    if a < b {
      SquareStrictlyMonotone(a, b);
    } else if b < a {
      SquareStrictlyMonotone(b, a);
    }
  }

  /** `a / b` is at most one for `a <= b` and `b > 0`. */
  lemma QuotientAtMostOne(a: real, b: real)
    requires 0.0 < b && a <= b
    ensures a / b <= 1.0
  {
    var q := a / b;
    QuotientTimesDivisor(a, b);
    if 1.0 < q {
      ProductPositive(q - 1.0, b, (q - 1.0) * b);
    }
  }

  /** `a / b` is non-negative for `a >= 0` and `b > 0`. */
  lemma QuotientNonneg(a: real, b: real)
    requires 0.0 <= a && 0.0 < b
    ensures 0.0 <= a / b
  {
    var q := a / b;
    if q < 0.0 {
      ProductNonneg(-q, b, -q * b);
    }
  }

  lemma ProductNonneg(a: real, b: real, u: real)
    requires (0.0 <= a && 0.0 <= b) || (a <= 0.0 && b <= 0.0)
    requires u == a * b
    ensures 0.0 <= u
  {
  }

  /** A sum of two squares vanishes only when both terms do. */
  lemma SumOfSquaresPositive(a: real, b: real, s: real)
    requires a != 0.0 || b != 0.0
    requires s == a * a + b * b
    ensures 0.0 < s
  {
    var u, w := a * a, b * b;
    if a != 0.0 {
      ProductPositive(a, a, u);
      ProductNonneg(b, b, w);
    } else {
      ProductNonneg(a, a, u);
      ProductPositive(b, b, w);
    }
  }

  lemma SqDistZero(p: Point, q: Point)
    ensures SqDist(p, q) == 0.0 <==> p == q
  {
    if p != q {
      SumOfSquaresPositive(p.x - q.x, p.y - q.y, SqDist(p, q));
    }
  }

  lemma DistSelf(m: Math, p: Point)
    requires Lawful(m)
    ensures Dist(m, p, p) == 0.0
  {
    assert SqDist(p, p) == Sq(0.0) + Sq(0.0);
    SqrtOfSquare(m, 0.0);
  }

  lemma DistSymmetric(m: Math, p: Point, q: Point)
    requires Lawful(m)
    ensures Dist(m, p, q) == Dist(m, q, p)
  {
    assert SqDist(p, q) == SqDist(q, p);
  }

  /** The two sides; `'home'` and `'away'` (or `'team 1'` / `'team 2'`) in the source. */
  datatype Team = Home | Away

  function Other(t: Team): Team
  {
    match t
    case Home => Away
    case Away => Home
  }

  /** A dictionary keyed by the two sides. */
  datatype PerTeam<T> = PerTeam(home: T, away: T)
  {
    function Get(t: Team): T
    {
      match t
      case Home => home
      case Away => away
    }

    function Set(t: Team, v: T): (r: PerTeam<T>)
      ensures r.Get(t) == v && r.Get(Other(t)) == Get(Other(t))
    {
      match t
      case Home => this.(home := v)
      case Away => this.(away := v)
    }
  }

  /** Shares of a total split into three parts add up to 100 per cent. */
  lemma PercentagesOfParts(a: real, b: real, c: real, total: real)
    requires total != 0.0 && a + b + c == total
    ensures a / total * 100.0 + b / total * 100.0 + c / total * 100.0 == 100.0
  {
    assert a / total + b / total + c / total == (a + b + c) / total;
  }

  /** A tracked player, the `(player_id, (x, y))` pairs the analyzers receive. */
  datatype Player = Player(id: int, pos: Point)

  function Positions(ps: seq<Player>): (r: seq<Point>)
    ensures |r| == |ps| && forall i :: 0 <= i < |ps| ==> r[i] == ps[i].pos
  {
    if |ps| == 0 then [] else Positions(ps[..|ps| - 1]) + [ps[|ps| - 1].pos]
  }

  /** `cdist([p], qs)[0]`: the distance from `p` to each of `qs`. */
  function DistancesFrom(m: Math, p: Point, qs: seq<Point>): (r: seq<real>)
    requires Lawful(m)
    ensures |r| == |qs| && forall i :: 0 <= i < |qs| ==> r[i] == Dist(m, p, qs[i])
  {
    if |qs| == 0 then [] else DistancesFrom(m, p, qs[..|qs| - 1]) + [Dist(m, p, qs[|qs| - 1])]
  }

  /** Vector difference and scaling on points. */
  function Sub(p: Point, q: Point): Point { Point(p.x - q.x, p.y - q.y) }
  function Add(p: Point, q: Point): Point { Point(p.x + q.x, p.y + q.y) }
  function Scale(p: Point, k: real): Point { Point(p.x * k, p.y * k) }

  /** `sum(s)`; written from the back so that appending is one unfolding. */
  function Sum(s: seq<real>): real
  {
    if |s| == 0 then 0.0 else Sum(s[..|s| - 1]) + s[|s| - 1]
  }

  lemma SumAppend(s: seq<real>, t: seq<real>)
    ensures Sum(s + t) == Sum(s) + Sum(t)
    decreases |t|
  {
    if |t| == 0 {
      assert s + t == s;
    } else {
      assert (s + t)[..|s + t| - 1] == s + t[..|t| - 1];
      assert (s + t)[|s + t| - 1] == t[|t| - 1];
      SumAppend(s, t[..|t| - 1]);
    }
  }

  lemma SumNonneg(s: seq<real>)
    requires forall i :: 0 <= i < |s| ==> 0.0 <= s[i]
    ensures 0.0 <= Sum(s)
  {
    if |s| != 0 {
      SumNonneg(s[..|s| - 1]);
    }
  }

  lemma SumBounded(s: seq<real>, hi: real)
    requires forall i :: 0 <= i < |s| ==> s[i] <= hi
    ensures Sum(s) <= |s| as real * hi
  {
    if |s| != 0 {
      SumBounded(s[..|s| - 1], hi);
    }
  }

  lemma SumAtLeast(s: seq<real>, lo: real)
    requires forall i :: 0 <= i < |s| ==> lo <= s[i]
    ensures |s| as real * lo <= Sum(s)
  {
    if |s| != 0 {
      SumAtLeast(s[..|s| - 1], lo);
    }
  }

  lemma {:induction false} SumPositive(s: seq<real>)
    requires 0 < |s| && forall i :: 0 <= i < |s| ==> 0.0 < s[i]
    ensures 0.0 < Sum(s)
    decreases |s|
  {
    SumNonneg(s[..|s| - 1]);
  }

  /** Replacing one entry changes the sum by the difference. */
  lemma {:induction false} SumUpdate(s: seq<real>, k: nat, v: real)
    requires k < |s|
    ensures Sum(s[k := v]) == Sum(s) - s[k] + v
    decreases |s|
  {
    var n := |s| - 1;
    var t := s[k := v];
    assert t[..n] == if k < n then s[..n][k := v] else s[..n];
    if k < n {
      SumUpdate(s[..n], k, v);
    }
  }

  /** `np.mean(s)`; numpy returns NaN for an empty array, callers guard it. */
  function Mean(s: seq<real>): real
    requires |s| > 0
  {
    Sum(s) / |s| as real
  }

  lemma MeanBetween(s: seq<real>, lo: real, hi: real)
    requires |s| > 0
    requires forall i :: 0 <= i < |s| ==> lo <= s[i] <= hi
    ensures lo <= Mean(s) <= hi
  {
    SumBounded(s, hi);
    SumAtLeast(s, lo);
    var n := |s| as real;
    assert n * lo <= Sum(s) <= n * hi;
    assert lo <= Sum(s) / n by {
      assert n * lo / n == lo;
    }
    assert Sum(s) / n <= hi by {
      assert n * hi / n == hi;
    }
  }

  /** `np.var`: the mean squared deviation from the mean (the population variance). */
  function Variance(s: seq<real>): (v: real)
    requires |s| > 0
    ensures 0.0 <= v
  {
    var m := Mean(s);
    var devs := seq(|s|, i requires 0 <= i < |s| => Sq(s[i] - m));
    SumNonneg(devs);
    QuotientNonneg(Sum(devs), |s| as real);
    Mean(devs)
  }

  /** A constant series has no variance. */
  lemma {:induction false} VarianceOfConstant(s: seq<real>, c: real)
    requires |s| > 0 && forall i :: 0 <= i < |s| ==> s[i] == c
    ensures Variance(s) == 0.0
  {
    SumOfConstant(s, c);
    assert Mean(s) == c;
    var devs := seq(|s|, i requires 0 <= i < |s| => Sq(s[i] - c));
    SumOfConstant(devs, 0.0);
  }

  lemma MeanOfConstant(s: seq<real>, c: real)
    requires |s| > 0 && forall i :: 0 <= i < |s| ==> s[i] == c
    ensures Mean(s) == c
  {
    SumOfConstant(s, c);
  }

  lemma {:induction false} SumOfConstant(s: seq<real>, c: real)
    requires forall i :: 0 <= i < |s| ==> s[i] == c
    ensures Sum(s) == |s| as real * c
    decreases |s|
  {
    if |s| != 0 {
      SumOfConstant(s[..|s| - 1], c);
    }
  }

  /** `np.argmin`: the FIRST index holding the minimum. */
  function ArgMin(s: seq<real>): (i: nat)
    requires |s| > 0
    ensures i < |s|
    ensures forall j :: 0 <= j < |s| ==> s[i] <= s[j]
    ensures forall j :: 0 <= j < i ==> s[i] < s[j]
  {
    if |s| == 1 then 0
    else
      var k := ArgMin(s[..|s| - 1]);
      if s[|s| - 1] < s[k] then |s| - 1 else k
  }

  /** Extending the prefix by one value moves the minimum's index only to a strictly smaller value. */
  lemma ArgMinStep(s: seq<real>, k: nat)
    requires 0 < k < |s|
    ensures ArgMin(s[..k + 1]) == if s[k] < s[ArgMin(s[..k])] then k else ArgMin(s[..k])
  {
    assert s[..k + 1][..k] == s[..k];
  }

  /** `np.argmax`: the FIRST index holding the maximum. */
  function ArgMax(s: seq<real>): (i: nat)
    requires |s| > 0
    ensures i < |s|
    ensures forall j :: 0 <= j < |s| ==> s[j] <= s[i]
    ensures forall j :: 0 <= j < i ==> s[j] < s[i]
  {
    if |s| == 1 then 0
    else
      var k := ArgMax(s[..|s| - 1]);
      if s[k] < s[|s| - 1] then |s| - 1 else k
  }

  /** `np.min` / `np.max` as the value at the argmin / argmax. */
  function Min(s: seq<real>): (r: real)
    requires |s| > 0
    ensures r in s && forall j :: 0 <= j < |s| ==> r <= s[j]
  {
    s[ArgMin(s)]
  }

  function Max(s: seq<real>): (r: real)
    requires |s| > 0
    ensures r in s && forall j :: 0 <= j < |s| ==> s[j] <= r
  {
    s[ArgMax(s)]
  }

  /** The mean lies between the smallest and the largest value. */
  lemma MeanWithinExtremes(s: seq<real>)
    requires |s| > 0
    ensures Min(s) <= Mean(s) <= Max(s)
  {
    MeanBetween(s, Min(s), Max(s));
  }

  function Xs(ps: seq<Point>): (r: seq<real>)
    ensures |r| == |ps| && forall i :: 0 <= i < |ps| ==> r[i] == ps[i].x
  {
    if |ps| == 0 then [] else Xs(ps[..|ps| - 1]) + [ps[|ps| - 1].x]
  }

  function Ys(ps: seq<Point>): (r: seq<real>)
    ensures |r| == |ps| && forall i :: 0 <= i < |ps| ==> r[i] == ps[i].y
  {
    if |ps| == 0 then [] else Ys(ps[..|ps| - 1]) + [ps[|ps| - 1].y]
  }

  /** `min(hi, max(lo, x))`, i.e. `np.clip`. */
  function Clamp(x: real, lo: real, hi: real): (r: real)
    requires lo <= hi
    ensures lo <= r <= hi
    ensures lo <= x <= hi ==> r == x
  {
    if x < lo then lo else if hi < x then hi else x
  }

  /** Python's `int(x)` (and numpy's `astype(int)`): truncation toward zero. */
  function Trunc(x: real): (n: int)
    ensures 0.0 <= x ==> 0 <= n && n as real <= x < n as real + 1.0
    ensures x < 0.0 ==> n <= 0 && n as real - 1.0 < x <= n as real
  {
    if 0.0 <= x then x.Floor else -((-x).Floor)
  }

  /** `min(max(v, 0), size - 1)`: an index forced into `[0, size)`. */
  function ClampIndex(v: int, size: nat): (i: nat)
    requires 0 < size
    ensures i < size
    ensures 0 <= v < size ==> i == v
    ensures v < 0 ==> i == 0
    ensures size <= v ==> i == size - 1
  {
    if v < 0 then 0 else if size - 1 < v then size - 1 else v
  }

  function MinR(a: real, b: real): real { if a <= b then a else b }
  function MaxR(a: real, b: real): real { if a >= b then a else b }
  function Abs(x: real): real { if x < 0.0 then -x else x }

  /** Number of values `np.arange(0, stop, step)` yields: the ceiling of `stop / step`, or 0. */
  function ArangeLen(stop: real, step: real): (n: nat)
    requires 0.0 < step
    ensures 0.0 < stop <==> 0 < n
  {
    var q := stop / step;
    if q <= 0.0 then 0
    else if q.Floor as real == q then q.Floor
    else q.Floor + 1
  }

  /** `np.arange(0, stop, step)` */
  function Arange(stop: real, step: real): (r: seq<real>)
    requires 0.0 < step
    ensures |r| == ArangeLen(stop, step)
    ensures forall k :: 0 <= k < |r| ==> r[k] == k as real * step
  {
    seq(ArangeLen(stop, step), k => k as real * step)
  }

  /** Every value lies in `[0, stop)` and the first value left out is at least `stop`. */
  lemma ArangeBounds(stop: real, step: real)
    requires 0.0 < step
    ensures forall k :: 0 <= k < |Arange(stop, step)| ==> 0.0 <= Arange(stop, step)[k] < stop
    ensures stop <= |Arange(stop, step)| as real * step
  {
    var q := stop / step;
    var r := Arange(stop, step);
    var n := |r|;
    QuotientTimesDivisor(stop, step);
    forall k | 0 <= k < n
      ensures 0.0 <= r[k] < stop
    {
      assert (k as real) < q;
      ProductNonneg(k as real, step, r[k]);
      ProductPositive(q - k as real, step, (q - k as real) * step);
    }
    if q > 0.0 {
      assert q <= n as real;
      ProductNonneg(n as real - q, step, (n as real - q) * step);
    } else {
      assert stop <= 0.0;
    }
  }

  /** `[(x, y) for y in ys]` */
  function Row(x: real, ys: seq<real>): (r: seq<Point>)
    ensures |r| == |ys| && forall j :: 0 <= j < |ys| ==> r[j] == Point(x, ys[j])
  {
    if |ys| == 0 then [] else Row(x, ys[..|ys| - 1]) + [Point(x, ys[|ys| - 1])]
  }

  /** `[(x, y) for x in xs for y in ys]`: x-major order. */
  function Grid(xs: seq<real>, ys: seq<real>): seq<Point>
  {
    if |xs| == 0 then [] else Grid(xs[..|xs| - 1], ys) + Row(xs[|xs| - 1], ys)
  }

  /** Point `(xs[i], ys[j])` sits at index `i * |ys| + j`, the order `reshape(len(xs), len(ys))` expects. */
  lemma {:induction false} GridIndex(xs: seq<real>, ys: seq<real>, i: nat, j: nat)
    requires i < |xs| && j < |ys|
    ensures |Grid(xs, ys)| == |xs| * |ys|
    ensures 0 <= i * |ys| + j < |Grid(xs, ys)| && Grid(xs, ys)[i * |ys| + j] == Point(xs[i], ys[j])
    decreases |xs|
  {
    var n, w := |xs| - 1, |ys|;
    var before, row := Grid(xs[..n], ys), Row(xs[n], ys);
    assert Grid(xs, ys) == before + row;
    GridLength(xs[..n], ys);
    NextRowOffset(n, w);
    if i < n {
      GridIndex(xs[..n], ys, i, j);
      RowOffset(i, n, w, j);
      assert Grid(xs, ys)[i * w + j] == before[i * w + j];
    } else {
      assert Grid(xs, ys)[i * w + j] == row[j];
    }
  }

  /** Row `n + 1` starts one row width after row `n`. */
  lemma NextRowOffset(n: nat, w: nat)
    ensures (n + 1) * w == n * w + w
  {
  }

  /** An entry of an earlier row comes before row `n`. */
  lemma {:induction false} RowOffset(i: nat, n: nat, w: nat, j: nat)
    requires i < n && j < w
    ensures i * w + j < n * w
    decreases n
  {
    NextRowOffset(n - 1, w);
    if i < n - 1 {
      RowOffset(i, n - 1, w, j);
    }
  }

  lemma {:induction false} GridLength(xs: seq<real>, ys: seq<real>)
    ensures |Grid(xs, ys)| == |xs| * |ys|
    decreases |xs|
  {
    if |xs| != 0 {
      GridLength(xs[..|xs| - 1], ys);
      assert |xs| * |ys| == (|xs| - 1) * |ys| + |ys|;
    }
  }

  /** Every point of the grid combines a value of each axis. */
  lemma {:induction false} GridPointsFromAxes(xs: seq<real>, ys: seq<real>)
    ensures forall k :: 0 <= k < |Grid(xs, ys)| ==> Grid(xs, ys)[k].x in xs && Grid(xs, ys)[k].y in ys
    decreases |xs|
  {
    if |xs| != 0 {
      var xs' := xs[..|xs| - 1];
      GridPointsFromAxes(xs', ys);
      var g, g', row := Grid(xs, ys), Grid(xs', ys), Row(xs[|xs| - 1], ys);
      assert g == g' + row;
      forall k | 0 <= k < |g|
        ensures g[k].x in xs && g[k].y in ys
      {
        if k < |g'| {
          assert g[k] == g'[k];
          assert g'[k].x in xs';
        } else {
          assert g[k] == row[k - |g'|];
        }
      }
    }
  }

  /** `buf.append(v)`, then `buf.pop(0)` once it is longer than `w`: a sliding window. */
  function Pushed<T>(buf: seq<T>, v: T, w: nat): seq<T>
  {
    if |buf + [v]| > w then (buf + [v])[1..] else buf + [v]
  }

  /** The last `w` entries of `history`, or all of them while there are fewer. */
  function Recent<T>(history: seq<T>, w: nat): (r: seq<T>)
    ensures |r| == if |history| <= w then |history| else w
  {
    if |history| <= w then history else history[|history| - w..]
  }

  /** The buffer is a first-in first-out window: after each push it holds the last `w` entries. */
  lemma PushedKeepsRecent<T>(history: seq<T>, v: T, w: nat)
    requires 1 <= w
    ensures Pushed(Recent(history, w), v, w) == Recent(history + [v], w)
  {
    var h := history + [v];
    if w < |history| {
      assert Recent(history, w) + [v] == h[|history| - w..];
      assert h[|history| - w..][1..] == h[|h| - w..];
    }
  }

  /** Pushing onto a window of at most `w` entries keeps at most `w`, the newest last. */
  lemma PushedWithinWindow<T>(buf: seq<T>, v: T, w: nat)
    requires 1 <= w && |buf| <= w
    ensures |Pushed(buf, v, w)| <= w && Pushed(buf, v, w)[|Pushed(buf, v, w)| - 1] == v
    ensures Pushed(buf, v, w) == Recent(buf + [v], w)
  {
  }
}
