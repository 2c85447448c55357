/**
 * What render.py does once the parts are drawn: the symmetric bounding
 * cube set as the axis limits (render.py:172-186) and the camera overrides
 * (render.py:189-191). The numpy reductions `ptp`, `mean` and `max` become
 * recursive functions over the stacked vertex pool.
 */
module Views {
  import opened Wrappers
  import opened Transforms
  import opened Parts

  datatype Axis = X | Y | Z

  function Coord(p: Point, a: Axis): real {
    match a
    case X => p.x
    case Y => p.y
    case Z => p.z
  }

  /** One column of the stacked pool, `ac[:, a]`. */
  function Column(pool: seq<Point>, a: Axis): (col: seq<real>)
    ensures |col| == |pool|
    ensures forall k :: 0 <= k < |pool| ==> col[k] == Coord(pool[k], a)
  {
    if pool == [] then [] else [Coord(pool[0], a)] + Column(pool[1..], a)
  }

  function Min(s: seq<real>): (m: real)
    requires |s| > 0
    ensures m in s
    ensures forall k :: 0 <= k < |s| ==> m <= s[k]
  {
    if |s| == 1 then s[0] else var rest := Min(s[1..]); if s[0] <= rest then s[0] else rest
  }

  function Max(s: seq<real>): (m: real)
    requires |s| > 0
    ensures m in s
    ensures forall k :: 0 <= k < |s| ==> s[k] <= m
  {
    if |s| == 1 then s[0] else var rest := Max(s[1..]); if s[0] >= rest then s[0] else rest
  }

  function Sum(s: seq<real>): real {
    if s == [] then 0.0 else s[0] + Sum(s[1..])
  }

  /** `np.ptp`: the distance from the least to the greatest value. */
  function Span(s: seq<real>): (d: real)
    requires |s| > 0
    ensures d >= 0.0
  {
    Max(s) - Min(s)
  }

  /** `mean`: the sum divided by the number of values, which lies between the least and the greatest. */
  function Mean(s: seq<real>): (m: real)
    requires |s| > 0
    ensures Min(s) <= m <= Max(s)
  {
    QuotientBetweenBounds(s, Min(s), Max(s));
    Sum(s) / (|s| as real)
  }

  lemma {:induction false} SumBounds(s: seq<real>, lo: real, hi: real)
    requires forall k :: 0 <= k < |s| ==> lo <= s[k] <= hi
    ensures (|s| as real) * lo <= Sum(s) <= (|s| as real) * hi
  {
    if s != [] {
      SumBounds(s[1..], lo, hi);
      assert (|s| as real) * lo == lo + ((|s| - 1) as real) * lo;
      assert (|s| as real) * hi == hi + ((|s| - 1) as real) * hi;
    }
  }

  lemma QuotientBetweenBounds(s: seq<real>, lo: real, hi: real)
    requires |s| > 0
    requires forall k :: 0 <= k < |s| ==> lo <= s[k] <= hi
    ensures lo <= Sum(s) / (|s| as real) <= hi
  {
    SumBounds(s, lo, hi);
    QuotientBetween(Sum(s), |s| as real, lo, hi);
  }

  lemma QuotientBetween(total: real, n: real, lo: real, hi: real)
    requires n > 0.0 && n * lo <= total <= n * hi
    ensures lo <= total / n <= hi
  {
  }

  function Max3(a: real, b: real, c: real): (m: real)
    ensures a <= m && b <= m && c <= m
    ensures m == a || m == b || m == c
  {
    if a >= b && a >= c then a else if b >= c then b else c
  }

  /** The largest of the three axis spans of the pool. */
  function LargestSpan(pool: seq<Point>): (r: real)
    requires |pool| > 0
    ensures Span(Column(pool, X)) <= r && Span(Column(pool, Y)) <= r && Span(Column(pool, Z)) <= r
    ensures r == Span(Column(pool, X)) || r == Span(Column(pool, Y)) || r == Span(Column(pool, Z))
  {
    Max3(Span(Column(pool, X)), Span(Column(pool, Y)), Span(Column(pool, Z)))
  }

  datatype Interval = Interval(lo: real, hi: real) {
    function Width(): real { hi - lo }
    function Mid(): real { (lo + hi) / 2.0 }
    predicate Holds(v: real) { lo <= v <= hi }
  }

  /** The `set_xlim`, `set_ylim` and `set_zlim` values. */
  datatype Limits = Limits(x: Interval, y: Interval, z: Interval) {
    function On(a: Axis): Interval {
      match a
      case X => x
      case Y => y
      case Z => z
    }
    predicate Holds(p: Point) {
      x.Holds(p.x) && y.Holds(p.y) && z.Holds(p.z)
    }
  }

  function Around(mid: real, half: real): Interval {
    Interval(mid - half, mid + half)
  }

  /**
   * The limits render.py sets: every axis centred on the mean of the pool
   * along it, all three with the same half-extent, half the largest span.
   */
  function BoundingLimits(pool: seq<Point>): (lim: Limits)
    requires |pool| > 0
    ensures lim.x.Mid() == Mean(Column(pool, X))
    ensures lim.y.Mid() == Mean(Column(pool, Y))
    ensures lim.z.Mid() == Mean(Column(pool, Z))
    ensures lim.x.Width() == lim.y.Width() == lim.z.Width() == LargestSpan(pool)
    ensures Span(Column(pool, X)) <= lim.x.Width()
    ensures Span(Column(pool, Y)) <= lim.y.Width()
    ensures Span(Column(pool, Z)) <= lim.z.Width()
  {
    var half := LargestSpan(pool) / 2.0;
    Limits(Around(Mean(Column(pool, X)), half),
           Around(Mean(Column(pool, Y)), half),
           Around(Mean(Column(pool, Z)), half))
  }

  /** The centre of the cube lies inside the range the pool spans on every axis. */
  lemma BoundingCentreWithinPool(pool: seq<Point>, a: Axis)
    requires |pool| > 0
    ensures Min(Column(pool, a)) <= BoundingLimits(pool).On(a).Mid() <= Max(Column(pool, a))
  {
  }

  // ---------------------------------------------------------------------
  // Centring on the mean can leave vertices outside the limits
  // ---------------------------------------------------------------------

  /** The eight corners of a unit cube centred at (cx, 0, 0), in the vertex order of a part. */
  function UnitCubeAt(cx: real): (vs: seq<Point>)
    ensures |vs| == 8
  {
    [Point(cx - 0.5, -0.5, -0.5), Point(cx + 0.5, -0.5, -0.5), Point(cx + 0.5, 0.5, -0.5), Point(cx - 0.5, 0.5, -0.5),
     Point(cx - 0.5, -0.5, 0.5), Point(cx + 0.5, -0.5, 0.5), Point(cx + 0.5, 0.5, 0.5), Point(cx - 0.5, 0.5, 0.5)]
  }

  /** `UnitCubeAt(cx)` is what a unit part whose `ecsBox` moves it by (cx, 0, 0) has as vertices. */
  lemma UnitCubeIsPartVertices(cx: real)
    ensures Vertices(Translation(cx, 0.0, 0.0), Identity(), 1.0, 1.0, 1.0) == UnitCubeAt(cx)
  {
    var t, cs := Translation(cx, 0.0, 0.0), Corners(1.0, 1.0, 1.0);
    forall i | 0 <= i < 8
      ensures Vertices(t, Identity(), 1.0, 1.0, 1.0)[i] == UnitCubeAt(cx)[i]
    {
      ApplyIdentity(cs[i]);
      TranslationMovesPoint(cx, 0.0, 0.0, cs[i][0], cs[i][1], cs[i][2]);
      assert cs[i] == Point4(cs[i][0], cs[i][1], cs[i][2]);
    }
  }

  lemma {:induction false} SumAppend(a: seq<real>, b: seq<real>)
    ensures Sum(a + b) == Sum(a) + Sum(b)
  {
    if a == [] {
      assert a + b == b;
    } else {
      assert (a + b)[1..] == a[1..] + b;
      SumAppend(a[1..], b);
    }
  }

  lemma {:induction false} ColumnAppend(p: seq<Point>, q: seq<Point>, a: Axis)
    ensures Column(p + q, a) == Column(p, a) + Column(q, a)
  {
  }

  lemma UnitCubeColumnX(cx: real)
    ensures Column(UnitCubeAt(cx), X) == [cx - 0.5, cx + 0.5, cx + 0.5, cx - 0.5, cx - 0.5, cx + 0.5, cx + 0.5, cx - 0.5]
  {
  }

  lemma SumFour(p: real, q: real, r: real, t: real)
    ensures Sum([p, q, r, t]) == p + q + r + t
  {
    assert [p, q, r, t][1..] == [q, r, t];
    assert [q, r, t][1..] == [r, t];
    assert [r, t][1..] == [t];
    assert [t][1..] == [];
    assert Sum([t]) == t + Sum([]);
    assert Sum([r, t]) == r + Sum([t]);
    assert Sum([q, r, t]) == q + Sum([r, t]);
  }

  lemma UnitCubeSumX(cx: real)
    ensures Sum(Column(UnitCubeAt(cx), X)) == 8.0 * cx
  {
    UnitCubeColumnX(cx);
    var col := Column(UnitCubeAt(cx), X);
    assert col == col[..4] + col[4..];
    SumAppend(col[..4], col[4..]);
    SumFour(cx - 0.5, cx + 0.5, cx + 0.5, cx - 0.5);
    assert col[..4] == [cx - 0.5, cx + 0.5, cx + 0.5, cx - 0.5];
    assert col[4..] == [cx - 0.5, cx + 0.5, cx + 0.5, cx - 0.5];
  }

  /** The 24 vertices of three unit cubes centred at x = 0, 0 and `far`. */
  function ThreeCubes(far: real): (pool: seq<Point>)
    ensures |pool| == 24
  {
    UnitCubeAt(0.0) + UnitCubeAt(0.0) + UnitCubeAt(far)
  }

  lemma ThreeCubesMeanX(far: real)
    ensures Mean(Column(ThreeCubes(far), X)) == 8.0 * far / 24.0
  {
    var a, b := UnitCubeAt(0.0), UnitCubeAt(far);
    ColumnAppend(a + a, b, X);
    ColumnAppend(a, a, X);
    UnitCubeSumX(0.0);
    UnitCubeSumX(far);
    SumAppend(Column(a, X) + Column(a, X), Column(b, X));
    SumAppend(Column(a, X), Column(a, X));
  }

  lemma SpanWithin(s: seq<real>, lo: real, hi: real)
    requires |s| > 0
    requires forall k :: 0 <= k < |s| ==> lo <= s[k] <= hi
    ensures Span(s) <= hi - lo
  {
  }

  lemma UnitCubeWithin(cx: real, k: nat)
    requires k < 8
    ensures var p := UnitCubeAt(cx)[k];
      cx - 0.5 <= p.x <= cx + 0.5 && -0.5 <= p.y <= 0.5 && -0.5 <= p.z <= 0.5
  {
  }

  lemma ThreeCubesWithin(far: real, k: nat)
    requires far >= 0.0 && k < 24
    ensures var p := ThreeCubes(far)[k];
      -0.5 <= p.x <= far + 0.5 && -0.5 <= p.y <= 0.5 && -0.5 <= p.z <= 0.5
  {
    var a, b := UnitCubeAt(0.0), UnitCubeAt(far);
    if k < 8 {
      assert ThreeCubes(far)[k] == a[k];
      UnitCubeWithin(0.0, k);
    } else if k < 16 {
      assert ThreeCubes(far)[k] == a[k - 8];
      UnitCubeWithin(0.0, k - 8);
    } else {
      assert ThreeCubes(far)[k] == b[k - 16];
      UnitCubeWithin(far, k - 16);
    }
  }

  lemma ThreeCubesLargestSpan(far: real)
    requires far >= 0.0
    ensures LargestSpan(ThreeCubes(far)) <= far + 1.0
  {
    var pool := ThreeCubes(far);
    forall k | 0 <= k < 24
      ensures -0.5 <= pool[k].x <= far + 0.5 && -0.5 <= pool[k].y <= 0.5 && -0.5 <= pool[k].z <= 0.5
    {
      ThreeCubesWithin(far, k);
    }
    BoxedPoolSpan(pool, Point(-0.5, -0.5, -0.5), Point(far + 0.5, 0.5, 0.5));
  }

  /** A pool inside the box from `lo` to `hi` spans no more than the box along any axis. */
  lemma BoxedPoolSpan(pool: seq<Point>, lo: Point, hi: Point)
    requires |pool| > 0
    requires forall k :: 0 <= k < |pool| ==> lo.x <= pool[k].x <= hi.x && lo.y <= pool[k].y <= hi.y && lo.z <= pool[k].z <= hi.z
    ensures LargestSpan(pool) <= Max3(hi.x - lo.x, hi.y - lo.y, hi.z - lo.z)
  {
    SpanWithin(Column(pool, X), lo.x, hi.x);
    SpanWithin(Column(pool, Y), lo.y, hi.y);
    SpanWithin(Column(pool, Z), lo.z, hi.z);
  }

  /**
   * Three unit cubes centred at x = 0, 0 and `far` > 6: the limits render.py
   * sets are centred on the mean x = far/3 with half-extent at most
   * (far + 1)/2, so they end below far - 0.5 and the third cube lies wholly
   * outside them, while the midpoint-centred limits keep it.
   */
  lemma BoundingLimitsMissVertex(far: real)
    requires far > 6.0
    ensures !BoundingLimits(ThreeCubes(far)).Holds(ThreeCubes(far)[16])
    ensures MidpointLimits(ThreeCubes(far)).Holds(ThreeCubes(far)[16])
  {
    var pool := ThreeCubes(far);
    ThreeCubesMeanX(far);
    ThreeCubesLargestSpan(far);
    assert pool[16] == UnitCubeAt(far)[0];
    BeyondMeanLimits(pool, 16);
    MidpointLimitsHoldPool(pool, 16);
  }

  lemma BeyondMeanLimits(pool: seq<Point>, k: nat)
    requires k < |pool|
    requires Mean(Column(pool, X)) + LargestSpan(pool) / 2.0 < pool[k].x
    ensures !BoundingLimits(pool).Holds(pool[k])
  {
  }

  /** The middle of the range the values span. */
  function Middle(s: seq<real>): real
    requires |s| > 0
  {
    (Min(s) + Max(s)) / 2.0
  }

  /**
   * The limits as evidently intended: the same half-extent on all three
   * axes, but each axis centred on the middle of the pool's range along it.
   */
  function MidpointLimits(pool: seq<Point>): (lim: Limits)
    requires |pool| > 0
    ensures lim.x.Width() == lim.y.Width() == lim.z.Width() == LargestSpan(pool)
  {
    var half := LargestSpan(pool) / 2.0;
    Limits(Around(Middle(Column(pool, X)), half),
           Around(Middle(Column(pool, Y)), half),
           Around(Middle(Column(pool, Z)), half))
  }

  lemma MiddleHolds(s: seq<real>, half: real, k: nat)
    requires k < |s| && Span(s) <= 2.0 * half
    ensures Around(Middle(s), half).Holds(s[k])
  {
  }

  /** Every vertex of the pool lies inside the midpoint-centred limits on all three axes. */
  lemma MidpointLimitsHoldPool(pool: seq<Point>, k: nat)
    requires k < |pool|
    ensures MidpointLimits(pool).Holds(pool[k])
  {
    var half := LargestSpan(pool) / 2.0;
    MiddleHolds(Column(pool, X), half, k);
    MiddleHolds(Column(pool, Y), half, k);
    MiddleHolds(Column(pool, Z), half, k);
  }

  // ---------------------------------------------------------------------
  // Camera
  // ---------------------------------------------------------------------

  /** The arguments of `ax.view_init(elev, azim)`, in degrees. */
  datatype Camera = Camera(elev: real, azim: real)

  const AlongX := Camera(0.0, 0.0)
  const AlongY := Camera(0.0, 90.0)
  const AlongZ := Camera(90.0, 0.0)

  /** One `if flag: ax.view_init(...)` line: a later call replaces an earlier one. */
  function Override(current: Option<Camera>, flag: bool, cam: Camera): Option<Camera> {
    if flag then Some(cam) else current
  }

  /**
   * The camera after the three override lines run in order X, Y, Z; `None`
   * leaves matplotlib's default view.
   */
  function CameraView(viewX: bool, viewY: bool, viewZ: bool): (cam: Option<Camera>)
    ensures viewZ ==> cam == Some(AlongZ)
    ensures !viewZ && viewY ==> cam == Some(AlongY)
    ensures !viewZ && !viewY && viewX ==> cam == Some(AlongX)
    ensures cam.None? <==> !viewX && !viewY && !viewZ
  {
    Override(Override(Override(None, viewX, AlongX), viewY, AlongY), viewZ, AlongZ)
  }
}
