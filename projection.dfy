/**
 * The projection arithmetic that both copies of `core/interfaces/blender/utils.py`
 * (the `sdg_engine` one and the older `blender_sdg` one) share line for line:
 * the negated camera frame, the per-vertex normalisation loop, clamping to the
 * unit square, relative scaling by a resolution, and the assembly of
 * `(top_x, top_y, width, height)`. The two variants differ only in the y-flip,
 * which lives in the modules SdgEngineUtils and BlenderSdgUtils.
 *
 * Floating point is modelled by `real`; every division stays exact.
 */
module Projection {
  import opened Common
  import opened Vectors

  // ---------------------------------------------------------------------------
  // Camera frame
  // ---------------------------------------------------------------------------

  /** Depth of a camera-space vertex: the camera looks down -Z, so depth is `-v.z`. */
  function Depth(v: Vec3): real
  {
    -v.z
  }

  /** The working frame: the first three corners of the camera's view frame, negated. */
  function CameraFrame(viewFrame: seq<Vec3>): (frame: seq<Vec3>)
    ensures |frame| == if |viewFrame| < 3 then |viewFrame| else 3
    ensures forall i :: 0 <= i < |frame| ==> frame[i] == Neg(viewFrame[i])
  {
    var n := if |viewFrame| < 3 then |viewFrame| else 3;
    seq(n, i requires 0 <= i < n => Neg(viewFrame[i]))
  }

  /**
   * A frame the normalisation loop can use without dividing by zero at any
   * depth: three corners, none on the camera plane, and distinct x-extent
   * (corners 1, 2) and y-extent (corners 0, 1) slopes.
   */
  predicate ValidFrame(frame: seq<Vec3>)
  {
    |frame| == 3 &&
    frame[0].z != 0.0 && frame[1].z != 0.0 && frame[2].z != 0.0 &&
    frame[1].x / frame[1].z != frame[2].x / frame[2].z &&
    frame[0].y / frame[0].z != frame[1].y / frame[1].z
  }

  /** Negation does not change any slope, so the negated frame is usable iff the raw one is. */
  lemma CameraFrameValid(viewFrame: seq<Vec3>)
    requires |viewFrame| >= 3
    ensures ValidFrame(CameraFrame(viewFrame)) <==> ValidFrame(viewFrame[..3])
  {
    var f := CameraFrame(viewFrame);
    forall i | 0 <= i < 3
      ensures f[i].z != 0.0 ==> f[i].x / f[i].z == viewFrame[i].x / viewFrame[i].z
      ensures f[i].z != 0.0 ==> f[i].y / f[i].z == viewFrame[i].y / viewFrame[i].z
    {
      var c := viewFrame[i];
      if c.z != 0.0 {
        NegatedSlope(c.x, c.z);
        NegatedSlope(c.y, c.z);
      }
    }
  }

  lemma NegatedSlope(a: real, b: real)
    requires b != 0.0
    ensures (-a) / (-b) == a / b
  {
    assert (-a) / (-b) * (-b) == -a;
    assert (a / b) * (-b) == -a;
  }

  /** One corner update of the loop: `c / (c.z / z)`. */
  function Rescale(c: Vec3, z: real): (r: Vec3)
    requires c.z != 0.0 && z != 0.0
  {
    DivScalar(c, c.z / z)
  }

  /** Where the ray through corner `c` meets the plane at depth `z`: `c` scaled by `z / c.z`. */
  function AtDepth(c: Vec3, z: real): (r: Vec3)
    requires c.z != 0.0
    ensures r.z == z
  {
    Vec3(z * (c.x / c.z), z * (c.y / c.z), z)
  }

  /** Rescaling an original corner puts it on the vertex's depth plane. */
  lemma RescaleReachesDepth(c: Vec3, z: real)
    requires c.z != 0.0 && z != 0.0
    ensures Rescale(c, z) == AtDepth(c, z)
  {
    var k := c.z / z;
    assert k * z == c.z;
    assert (c.x / k) * k == c.x;
    assert (z * (c.x / c.z)) * k == c.x;
    assert (c.y / k) * k == c.y;
    assert (z * (c.y / c.z)) * k == c.y;
    assert (c.z / k) * k == c.z;
  }

  /**
   * Rescaling a corner that already sits at depth `zp` to depth `z` gives the
   * same point as rescaling the original corner straight to `z`.
   */
  lemma RescaleFromDepth(c: Vec3, zp: real, z: real)
    requires c.z != 0.0 && zp != 0.0 && z != 0.0
    ensures Rescale(AtDepth(c, zp), z) == AtDepth(c, z)
  {
    var p := AtDepth(c, zp);
    var k := zp / z;
    assert k * z == zp;
    assert (p.x / k) * k == p.x;
    assert (z * (c.x / c.z)) * k == zp * (c.x / c.z);
    assert (p.y / k) * k == p.y;
    assert (z * (c.y / c.z)) * k == zp * (c.y / c.z);
    assert (p.z / k) * k == p.z;
  }

  /** The loop's list comprehension `[c / (c.z / z) for c in frame]`. */
  function RescaleFrame(frame: seq<Vec3>, z: real): (r: seq<Vec3>)
    requires z != 0.0
    requires forall i :: 0 <= i < |frame| ==> frame[i].z != 0.0
    ensures |r| == |frame|
  {
    seq(|frame|, i requires 0 <= i < |frame| => Rescale(frame[i], z))
  }

  /** The original frame moved in one step to the plane at depth `z`. */
  function FrameAtDepth(frame: seq<Vec3>, z: real): (r: seq<Vec3>)
    requires forall i :: 0 <= i < |frame| ==> frame[i].z != 0.0
    ensures |r| == |frame|
  {
    seq(|frame|, i requires 0 <= i < |frame| => AtDepth(frame[i], z))
  }

  /**
   * The extents of a valid frame at a positive depth never collapse, so both
   * divisions of the loop are defined; every corner lies on that depth plane.
   */
  lemma ExtentsAtDepth(frame: seq<Vec3>, z: real)
    requires ValidFrame(frame) && z > 0.0
    ensures var f := FrameAtDepth(frame, z);
      |f| == 3 && f[1].x != f[2].x && f[0].y != f[1].y &&
      f[0].z == z && f[1].z == z && f[2].z == z
  {
    var f := FrameAtDepth(frame, z);
    var s1, s2 := frame[1].x / frame[1].z, frame[2].x / frame[2].z;
    assert f[2].x - f[1].x == z * (s2 - s1);
    var t0, t1 := frame[0].y / frame[0].z, frame[1].y / frame[1].z;
    assert f[1].y - f[0].y == z * (t1 - t0);
  }

  // ---------------------------------------------------------------------------
  // Normalisation of one vertex
  // ---------------------------------------------------------------------------

  /**
   * `(a - lo) / (hi - lo)`: the position of `a` in the interval from `lo` to `hi`,
   * 0 at `lo` and 1 at `hi`. For an increasing interval the result is in [0, 1]
   * exactly when `a` lies between the extents.
   */
  function Normalize(a: real, lo: real, hi: real): (r: real)
    requires lo != hi
    ensures lo + r * (hi - lo) == a
    ensures lo < hi ==> (0.0 <= r <= 1.0 <==> lo <= a <= hi)
    ensures lo < hi ==> (0.0 < r < 1.0 <==> lo < a < hi)
  {
    var r := (a - lo) / (hi - lo);
    assert r * (hi - lo) == a - lo;
    ScaledSign(r, hi - lo, a - lo);
    r
  }

  /** For `r * d == e` with `d > 0`, `r` compares with 0 and 1 as `e` does with 0 and `d`. */
  lemma ScaledSign(r: real, d: real, e: real)
    requires r * d == e
    ensures d > 0.0 ==> (0.0 <= r <==> 0.0 <= e) && (r <= 1.0 <==> e <= d)
    ensures d > 0.0 ==> (0.0 < r <==> 0.0 < e) && (r < 1.0 <==> e < d)
  {
    if d > 0.0 {
      assert (r - 1.0) * d == e - d;
      if r < 0.0 { PositiveProduct(-r, d); assert (-r) * d == -e; }
      if r > 0.0 { PositiveProduct(r, d); }
      if r < 1.0 { PositiveProduct(1.0 - r, d); assert (1.0 - r) * d == d - e; }
      if r > 1.0 { PositiveProduct(r - 1.0, d); }
    }
  }

  lemma PositiveProduct(p: real, q: real)
    requires p > 0.0 && q > 0.0
    ensures p * q > 0.0
  {
  }

  /** Normalisation preserves order on an increasing interval. */
  lemma NormalizeMonotone(a: real, b: real, lo: real, hi: real)
    requires lo < hi && a <= b
    ensures Normalize(a, lo, hi) <= Normalize(b, lo, hi)
  {
    var ra, rb, d := Normalize(a, lo, hi), Normalize(b, lo, hi), hi - lo;
    assert ra * d == a - lo && rb * d == b - lo;
    assert (rb - ra) * d == rb * d - ra * d;
    ScaledSign(rb - ra, d, b - a);
  }

  /** Normalised x of a visible vertex: against corners 1 and 2 on its depth plane. */
  function PointX(v: Vec3, frame: seq<Vec3>): real
    requires ValidFrame(frame) && Depth(v) > 0.0
  {
    ExtentsAtDepth(frame, Depth(v));
    var f := FrameAtDepth(frame, Depth(v));
    Normalize(v.x, f[1].x, f[2].x)
  }

  /** Normalised y of a visible vertex: against corners 0 and 1 on its depth plane. */
  function PointY(v: Vec3, frame: seq<Vec3>): real
    requires ValidFrame(frame) && Depth(v) > 0.0
  {
    ExtentsAtDepth(frame, Depth(v));
    var f := FrameAtDepth(frame, Depth(v));
    Normalize(v.y, f[0].y, f[1].y)
  }

  // ---------------------------------------------------------------------------
  // The vertex loop
  // ---------------------------------------------------------------------------

  /** The vertices strictly in front of the camera, in mesh order. */
  function Visible(vs: seq<Vec3>): (r: seq<Vec3>)
    ensures |r| <= |vs|
    ensures forall i :: 0 <= i < |r| ==> Depth(r[i]) > 0.0
    ensures forall w :: w in r ==> w in vs
  {
    if vs == [] then []
    else
      var last := vs[|vs| - 1];
      Visible(vs[..|vs| - 1]) + (if Depth(last) > 0.0 then [last] else [])
  }

  /** Filtering distributes over concatenation: the order of the mesh is kept. */
  lemma {:induction false} VisibleAppend(a: seq<Vec3>, b: seq<Vec3>)
    ensures Visible(a + b) == Visible(a) + Visible(b)
  {
    if b == [] {
      assert a + b == a;
    } else {
      var last := b[|b| - 1];
      assert (a + b)[..|a + b| - 1] == a + b[..|b| - 1];
      VisibleAppend(a, b[..|b| - 1]);
    }
  }

  /** A single vertex contributes itself exactly when its depth is positive. */
  lemma VisibleSingle(v: Vec3)
    ensures Visible([v]) == if Depth(v) > 0.0 then [v] else []
  {
    assert [v][..0] == [];
  }

  /** No vertex is kept exactly when every vertex is at or behind the camera plane. */
  lemma {:induction false} VisibleEmpty(vs: seq<Vec3>)
    ensures Visible(vs) == [] <==> forall i :: 0 <= i < |vs| ==> Depth(vs[i]) <= 0.0
  {
    if vs != [] {
      var init := vs[..|vs| - 1];
      VisibleEmpty(init);
      assert forall i :: 0 <= i < |init| ==> init[i] == vs[i];
    }
  }

  /** The normalised x list for a sequence of visible vertices. */
  function Xs(vis: seq<Vec3>, frame: seq<Vec3>): (r: seq<real>)
    requires ValidFrame(frame)
    requires forall i :: 0 <= i < |vis| ==> Depth(vis[i]) > 0.0
    ensures |r| == |vis|
  {
    seq(|vis|, i requires 0 <= i < |vis| => PointX(vis[i], frame))
  }

  /** The normalised y list for a sequence of visible vertices. */
  function Ys(vis: seq<Vec3>, frame: seq<Vec3>): (r: seq<real>)
    requires ValidFrame(frame)
    requires forall i :: 0 <= i < |vis| ==> Depth(vis[i]) > 0.0
    ensures |r| == |vis|
  {
    seq(|vis|, i requires 0 <= i < |vis| => PointY(vis[i], frame))
  }

  /**
   * One frame update of the loop: the frame held before a visible vertex of
   * depth `z` (the original, or the original moved to an earlier depth) is
   * moved to exactly the original frame at depth `z`, every corner's z being `z`.
   */
  lemma CumulativeRescale(frame0: seq<Vec3>, frame: seq<Vec3>, prev: Option<real>, z: real)
    requires ValidFrame(frame0) && z > 0.0
    requires prev.None? ==> frame == frame0
    requires prev.Some? ==> prev.value > 0.0 && frame == FrameAtDepth(frame0, prev.value)
    ensures |frame| == 3 && forall j :: 0 <= j < 3 ==> frame[j].z != 0.0
    ensures RescaleFrame(frame, z) == FrameAtDepth(frame0, z)
  {
    if prev.Some? {
      ExtentsAtDepth(frame0, prev.value);
    }
    var next := RescaleFrame(frame, z);
    forall j | 0 <= j < 3 ensures next[j] == AtDepth(frame0[j], z) {
      if prev.Some? {
        RescaleFromDepth(frame0[j], prev.value, z);
      } else {
        RescaleReachesDepth(frame0[j], z);
      }
    }
  }

  /** Appending a visible vertex appends its normalised coordinates. */
  lemma CoordinatesSnoc(vis: seq<Vec3>, v: Vec3, frame: seq<Vec3>)
    requires ValidFrame(frame) && Depth(v) > 0.0
    requires forall i :: 0 <= i < |vis| ==> Depth(vis[i]) > 0.0
    ensures Xs(vis + [v], frame) == Xs(vis, frame) + [PointX(v, frame)]
    ensures Ys(vis + [v], frame) == Ys(vis, frame) + [PointY(v, frame)]
  {
  }

  /** What one visible vertex adds to the lists built so far. */
  lemma VisibleStep(vertices: seq<Vec3>, i: nat, frame: seq<Vec3>)
    requires ValidFrame(frame) && i < |vertices| && Depth(vertices[i]) > 0.0
    ensures Xs(Visible(vertices[..i + 1]), frame) == Xs(Visible(vertices[..i]), frame) + [PointX(vertices[i], frame)]
    ensures Ys(Visible(vertices[..i + 1]), frame) == Ys(Visible(vertices[..i]), frame) + [PointY(vertices[i], frame)]
  {
    assert vertices[..i + 1][..i] == vertices[..i];
    assert Visible(vertices[..i + 1]) == Visible(vertices[..i]) + [vertices[i]];
    CoordinatesSnoc(Visible(vertices[..i]), vertices[i], frame);
  }

  /**
   * Everything one visible vertex does to the loop state: the frame moves to
   * the vertex's depth, both divisions are defined, and the values computed
   * from the moved frame are the vertex's normalised coordinates.
   */
  lemma LoopStep(vertices: seq<Vec3>, i: nat, frame0: seq<Vec3>, frame: seq<Vec3>, prev: Option<real>)
    requires ValidFrame(frame0) && i < |vertices| && Depth(vertices[i]) > 0.0
    requires prev.None? ==> frame == frame0
    requires prev.Some? ==> prev.value > 0.0 && frame == FrameAtDepth(frame0, prev.value)
    ensures |frame| == 3 && forall j :: 0 <= j < 3 ==> frame[j].z != 0.0
    ensures var f := RescaleFrame(frame, Depth(vertices[i]));
      f == FrameAtDepth(frame0, Depth(vertices[i])) &&
      f[2].x != f[1].x && f[1].y != f[0].y &&
      (vertices[i].x - f[1].x) / (f[2].x - f[1].x) == PointX(vertices[i], frame0) &&
      (vertices[i].y - f[0].y) / (f[1].y - f[0].y) == PointY(vertices[i], frame0)
    ensures Xs(Visible(vertices[..i + 1]), frame0) == Xs(Visible(vertices[..i]), frame0) + [PointX(vertices[i], frame0)]
    ensures Ys(Visible(vertices[..i + 1]), frame0) == Ys(Visible(vertices[..i]), frame0) + [PointY(vertices[i], frame0)]
  {
    var z := Depth(vertices[i]);
    CumulativeRescale(frame0, frame, prev, z);
    ExtentsAtDepth(frame0, z);
    VisibleStep(vertices, i, frame0);
  }

  /** An invisible vertex adds nothing. */
  lemma HiddenStep(vertices: seq<Vec3>, i: nat)
    requires i < |vertices| && Depth(vertices[i]) <= 0.0
    ensures Visible(vertices[..i + 1]) == Visible(vertices[..i])
  {
    assert vertices[..i + 1][..i] == vertices[..i];
  }

  /**
   * `calculate_normalized_coordinates`: walks the mesh, skips vertices at or
   * behind the camera plane, reassigns the frame cumulatively on every visible
   * vertex, and appends the normalised coordinates. The result is one entry per
   * visible vertex, in mesh order, each normalised against the ORIGINAL frame
   * moved to that vertex's depth: over the reals the cumulative reassignment
   * loses nothing.
   */
  method CalculateNormalizedCoordinates(vertices: seq<Vec3>, frame0: seq<Vec3>)
    returns (lx: seq<real>, ly: seq<real>)
    requires ValidFrame(frame0)
    ensures lx == Xs(Visible(vertices), frame0)
    ensures ly == Ys(Visible(vertices), frame0)
    ensures |lx| == |ly| <= |vertices|
  {
    lx, ly := [], [];
    var frame := frame0;
    ghost var depth: Option<real> := None;
    for i := 0 to |vertices|
      invariant |frame| == 3
      invariant depth.None? ==> frame == frame0
      invariant depth.Some? ==> depth.value > 0.0 && frame == FrameAtDepth(frame0, depth.value)
      invariant lx == Xs(Visible(vertices[..i]), frame0)
      invariant ly == Ys(Visible(vertices[..i]), frame0)
    {
      var v := vertices[i];
      var z := -v.z;
      if z <= 0.0 {
        HiddenStep(vertices, i);
      } else {
        LoopStep(vertices, i, frame0, frame, depth);
        frame := RescaleFrame(frame, z);
        depth := Some(z);
        var minX, maxX := frame[1].x, frame[2].x;
        var minY, maxY := frame[0].y, frame[1].y;
        var x := (v.x - minX) / (maxX - minX);
        var y := (v.y - minY) / (maxY - minY);
        lx := lx + [x];
        ly := ly + [y];
      }
    }
    assert vertices[..|vertices|] == vertices;
  }

  // ---------------------------------------------------------------------------
  // From normalised coordinates to a box
  // ---------------------------------------------------------------------------

  /** The replacement for a zero top coordinate (`top or 1e-6`). */
  const Epsilon: real := 0.000001

  /** Axis limits `(top_x, top_y, bottom_x, bottom_y)` before width and height are taken. */
  datatype Limits = Limits(topX: real, topY: real, bottomX: real, bottomY: real)

  /** The returned box `(top_x, top_y, width, height)`. */
  datatype Box = Box(topX: real, topY: real, width: real, height: real)

  /** `np.clip(r, 0.0, 1.0)`. */
  function Clamp01(r: real): (c: real)
    ensures 0.0 <= c <= 1.0
    ensures 0.0 <= r <= 1.0 ==> c == r
    ensures r < 0.0 ==> c == 0.0
    ensures r > 1.0 ==> c == 1.0
  {
    if r < 0.0 then 0.0 else if r > 1.0 then 1.0 else r
  }

  /** The position of a smallest element of a non-empty list. */
  function ArgMin(s: seq<real>): (k: nat)
    requires |s| > 0
    ensures k < |s|
    ensures forall i :: 0 <= i < |s| ==> s[k] <= s[i]
  {
    if |s| == 1 then 0
    else
      var k := ArgMin(s[..|s| - 1]);
      if s[|s| - 1] < s[k] then |s| - 1 else k
  }

  /** The position of a largest element of a non-empty list. */
  function ArgMax(s: seq<real>): (k: nat)
    requires |s| > 0
    ensures k < |s|
    ensures forall i :: 0 <= i < |s| ==> s[i] <= s[k]
  {
    if |s| == 1 then 0
    else
      var k := ArgMax(s[..|s| - 1]);
      if s[|s| - 1] > s[k] then |s| - 1 else k
  }

  /** `min(s)` of a non-empty list: an element no larger than any other. */
  function Min(s: seq<real>): real
    requires |s| > 0
  {
    s[ArgMin(s)]
  }

  /** `max(s)` of a non-empty list: an element no smaller than any other. */
  function Max(s: seq<real>): real
    requires |s| > 0
  {
    s[ArgMax(s)]
  }

  /** The clamped limits of both axes: `np.clip([min(l), max(l)], 0.0, 1.0)` per axis. */
  function ClampedLimits(lx: seq<real>, ly: seq<real>): (l: Limits)
    requires |lx| > 0 && |ly| > 0
    ensures 0.0 <= l.topX <= l.bottomX <= 1.0 && 0.0 <= l.topY <= l.bottomY <= 1.0
  {
    Limits(Clamp01(Min(lx)), Clamp01(Min(ly)), Clamp01(Max(lx)), Clamp01(Max(ly)))
  }

  /**
   * The clamped limits are the smallest rectangle of the unit square that holds
   * every clamped point: each point lies inside, and each side is attained.
   */
  lemma LimitsAreHull(lx: seq<real>, ly: seq<real>)
    requires |lx| > 0 && |ly| > 0
    ensures var l := ClampedLimits(lx, ly);
      (forall i :: 0 <= i < |lx| ==> l.topX <= Clamp01(lx[i]) <= l.bottomX) &&
      (forall i :: 0 <= i < |ly| ==> l.topY <= Clamp01(ly[i]) <= l.bottomY) &&
      (exists i :: 0 <= i < |lx| && Clamp01(lx[i]) == l.topX) &&
      (exists i :: 0 <= i < |lx| && Clamp01(lx[i]) == l.bottomX) &&
      (exists i :: 0 <= i < |ly| && Clamp01(ly[i]) == l.topY) &&
      (exists i :: 0 <= i < |ly| && Clamp01(ly[i]) == l.bottomY)
  {
    var l := ClampedLimits(lx, ly);
    HullAxis(lx);
    HullAxis(ly);
  }

  lemma HullAxis(s: seq<real>)
    requires |s| > 0
    ensures forall i :: 0 <= i < |s| ==> Clamp01(Min(s)) <= Clamp01(s[i]) <= Clamp01(Max(s))
    ensures exists i :: 0 <= i < |s| && Clamp01(s[i]) == Clamp01(Min(s))
    ensures exists i :: 0 <= i < |s| && Clamp01(s[i]) == Clamp01(Max(s))
  {
    var lo, hi := ArgMin(s), ArgMax(s);
    assert Clamp01(s[lo]) == Clamp01(Min(s));
    assert Clamp01(s[hi]) == Clamp01(Max(s));
  }

  /** A box with no area on some axis: `top_x == bottom_x or top_y == bottom_y`. */
  predicate Degenerate(l: Limits)
  {
    l.topX == l.bottomX || l.topY == l.bottomY
  }

  /** The limits scaled into a `w` by `h` space. */
  function ScaleLimits(l: Limits, w: real, h: real): Limits
  {
    Limits(l.topX * w, l.topY * h, l.bottomX * w, l.bottomY * h)
  }

  /** The message of the ValueError raised for a relative box without a resolution. */
  const MissingResolution: string := "Resolution must be provided if relative is True"

  /**
   * `make_bounding_box_relative`: scales the x limits by the resolution's width
   * and the y limits by its height; a missing resolution raises ValueError.
   */
  function MakeBoundingBoxRelative(topX: real, topY: real, bottomX: real, bottomY: real,
                                   resolution: Option<(int, int)>): (r: Result<Limits>)
    ensures r.Err? <==> resolution.None?
    ensures r.Err? ==> r.error.ValueError?
  {
    if resolution.None? then
      Err(ValueError(MissingResolution))
    else
      var w, h := resolution.value.0 as real, resolution.value.1 as real;
      Ok(ScaleLimits(Limits(topX, topY, bottomX, bottomY), w, h))
  }

  /**
   * Relative scaling is invertible per axis for a non-zero resolution, collapses
   * an axis of zero resolution to 0, and keeps the order of the limits for a
   * positive one.
   */
  lemma RelativeScaling(topX: real, topY: real, bottomX: real, bottomY: real, resolution: Option<(int, int)>)
    requires resolution.Some?
    ensures var r := MakeBoundingBoxRelative(topX, topY, bottomX, bottomY, resolution).value;
      var w, h := resolution.value.0 as real, resolution.value.1 as real;
      (w != 0.0 ==> r.topX / w == topX && r.bottomX / w == bottomX) &&
      (h != 0.0 ==> r.topY / h == topY && r.bottomY / h == bottomY) &&
      (w == 0.0 ==> r.topX == 0.0 && r.bottomX == 0.0) &&
      (h == 0.0 ==> r.topY == 0.0 && r.bottomY == 0.0) &&
      (w > 0.0 ==> (topX < bottomX <==> r.topX < r.bottomX)) &&
      (h > 0.0 ==> (topY < bottomY <==> r.topY < r.bottomY))
  {
    var w, h := resolution.value.0 as real, resolution.value.1 as real;
    ScaleOrder(topX, bottomX, w);
    ScaleOrder(topY, bottomY, h);
  }

  lemma ScaleOrder(a: real, b: real, k: real)
    ensures k != 0.0 ==> (a * k) / k == a && (b * k) / k == b
    ensures k > 0.0 ==> (a < b <==> a * k < b * k)
  {
    if k > 0.0 {
      if a < b { PositiveProduct(b - a, k); }
      if b < a { PositiveProduct(a - b, k); }
    }
  }

  /** `top or 1e-6`: zero is falsy in Python, so a zero top becomes `Epsilon`. */
  function OrEpsilon(t: real): (r: real)
    ensures r != 0.0
    ensures t != 0.0 ==> r == t
    ensures t == 0.0 ==> r == Epsilon
  {
    if t == 0.0 then Epsilon else t
  }

  /**
   * The final `(top_x or 1e-6, top_y or 1e-6, width, height)`. Width and height
   * are taken from the un-nudged top, so the right and bottom edges the box
   * describes lie `Epsilon` past the real ones exactly when a top is zero.
   */
  function BoxOf(l: Limits): (b: Box)
    ensures b.topX != 0.0 && b.topY != 0.0
    ensures l.topX != 0.0 ==> b.topX == l.topX
    ensures l.topY != 0.0 ==> b.topY == l.topY
    ensures l.topX == 0.0 ==> b.topX == Epsilon
    ensures l.topY == 0.0 ==> b.topY == Epsilon
    ensures b.width == l.bottomX - l.topX && b.height == l.bottomY - l.topY
    ensures b.topX + b.width == l.bottomX + (if l.topX == 0.0 then Epsilon else 0.0)
    ensures b.topY + b.height == l.bottomY + (if l.topY == 0.0 then Epsilon else 0.0)
  {
    Box(OrEpsilon(l.topX), OrEpsilon(l.topY), l.bottomX - l.topX, l.bottomY - l.topY)
  }

  /** The size of the space a box is expressed in: the resolution when relative, else the unit square. */
  function Extent(relative: bool, resolution: Option<(int, int)>): (real, real)
  {
    if relative && resolution.Some? then (resolution.value.0 as real, resolution.value.1 as real)
    else (1.0, 1.0)
  }

  /**
   * The part of `compute_bounding_box` after the emptiness test, on the lists
   * as the variant hands them over: clamp, reject a degenerate box, scale when
   * relative (raising on a missing resolution), and assemble the box.
   */
  function BoxFromNonEmpty(lx: seq<real>, ly: seq<real>, relative: bool,
                           resolution: Option<(int, int)>): (r: Result<Option<Box>>)
    requires |lx| > 0 && |ly| > 0
    ensures r == Ok(None) <==> Degenerate(ClampedLimits(lx, ly))
    ensures r.Err? <==> !Degenerate(ClampedLimits(lx, ly)) && relative && resolution.None?
    ensures r.Err? ==> r.error.ValueError?
  {
    var l := ClampedLimits(lx, ly);
    if Degenerate(l) then Ok(None)
    else if relative then
      match MakeBoundingBoxRelative(l.topX, l.topY, l.bottomX, l.bottomY, resolution)
      case Err(e) => Err(e)
      case Ok(s) => Ok(Some(BoxOf(s)))
    else Ok(Some(BoxOf(l)))
  }

  /**
   * The box a returned result holds is the box of the clamped limits scaled
   * into the space it is expressed in: the resolution when relative, else the
   * unit square.
   */
  lemma BoxIsScaledLimits(lx: seq<real>, ly: seq<real>, relative: bool, resolution: Option<(int, int)>)
    requires |lx| > 0 && |ly| > 0
    requires BoxFromNonEmpty(lx, ly, relative, resolution).Ok?
    requires BoxFromNonEmpty(lx, ly, relative, resolution).value.Some?
    ensures var (w, h) := Extent(relative, resolution);
      !Degenerate(ClampedLimits(lx, ly)) &&
      BoxFromNonEmpty(lx, ly, relative, resolution).value.value == BoxOf(ScaleLimits(ClampedLimits(lx, ly), w, h))
  {
    var l := ClampedLimits(lx, ly);
    if !relative {
      assert ScaleLimits(l, 1.0, 1.0) == l;
    }
  }

  /**
   * A box built from limits `0 <= top < bottom <= 1` scaled into a `w` by `h`
   * space: its described right edge is the scaled bottom, plus `Epsilon` exactly
   * when the scaled top was zero and got nudged; against the UN-nudged scaled
   * top it fits inside the space on each axis of positive extent, with positive
   * size and top coordinate there.
   */
  lemma ScaledBoxBounds(l: Limits, w: real, h: real)
    requires 0.0 <= l.topX < l.bottomX <= 1.0 && 0.0 <= l.topY < l.bottomY <= 1.0
    ensures var s := ScaleLimits(l, w, h);
      var b := BoxOf(s);
      b.topX + b.width == s.bottomX + (if s.topX == 0.0 then Epsilon else 0.0) &&
      b.topY + b.height == s.bottomY + (if s.topY == 0.0 then Epsilon else 0.0) &&
      (w > 0.0 ==> 0.0 <= s.topX && s.topX + b.width <= w && 0.0 < b.width && 0.0 < b.topX) &&
      (h > 0.0 ==> 0.0 <= s.topY && s.topY + b.height <= h && 0.0 < b.height && 0.0 < b.topY)
  {
    var s := ScaleLimits(l, w, h);
    AxisBounds(l.topX, l.bottomX, w, s.topX, s.bottomX);
    AxisBounds(l.topY, l.bottomY, h, s.topY, s.bottomY);
  }

  /** One axis of ScaledBoxBounds: limits `t`, `e` scaled by `k` to `tk`, `ek`. */
  lemma AxisBounds(t: real, e: real, k: real, tk: real, ek: real)
    requires 0.0 <= t < e <= 1.0 && tk == t * k && ek == e * k
    ensures k > 0.0 ==> 0.0 <= tk < ek <= k
  {
    if k > 0.0 {
      UnitScale(t, e, k);
      assert 0.0 <= t * k < e * k <= k;
    }
  }

  /** What every returned box satisfies (ScaledBoxBounds applied to the result). */
  lemma BoxBounds(lx: seq<real>, ly: seq<real>, relative: bool, resolution: Option<(int, int)>)
    requires |lx| > 0 && |ly| > 0
    requires BoxFromNonEmpty(lx, ly, relative, resolution).Ok?
    requires BoxFromNonEmpty(lx, ly, relative, resolution).value.Some?
    ensures var b := BoxFromNonEmpty(lx, ly, relative, resolution).value.value;
      var (w, h) := Extent(relative, resolution);
      var s := ScaleLimits(ClampedLimits(lx, ly), w, h);
      b.topX + b.width == s.bottomX + (if s.topX == 0.0 then Epsilon else 0.0) &&
      b.topY + b.height == s.bottomY + (if s.topY == 0.0 then Epsilon else 0.0) &&
      (w > 0.0 ==> 0.0 <= s.topX && s.topX + b.width <= w && 0.0 < b.width && 0.0 < b.topX) &&
      (h > 0.0 ==> 0.0 <= s.topY && s.topY + b.height <= h && 0.0 < b.height && 0.0 < b.topY)
  {
    BoxIsScaledLimits(lx, ly, relative, resolution);
    var (w, h) := Extent(relative, resolution);
    ScaledBoxBounds(ClampedLimits(lx, ly), w, h);
  }

  /** Scaling limits `0 <= t < b <= 1` by a positive `k` keeps them in `[0, k]`. */
  lemma UnitScale(t: real, b: real, k: real)
    requires 0.0 <= t < b <= 1.0
    ensures k > 0.0 ==> 0.0 <= t * k < b * k <= k
    ensures k > 0.0 ==> (t * k == 0.0 <==> t == 0.0)
  {
    if k > 0.0 {
      PositiveProduct(b - t, k);
      assert (b - t) * k == b * k - t * k;
      if t > 0.0 { PositiveProduct(t, k); }
      if b < 1.0 {
        PositiveProduct(1.0 - b, k);
        assert (1.0 - b) * k == k - b * k;
      }
    }
  }
}
