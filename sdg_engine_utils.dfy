/**
 * `sdg_engine/core/interfaces/blender/utils.py`: the bounding-box code the
 * renderer uses. Its vertex loop, clamping and relative scaling are the shared
 * definitions of module Projection; its `compute_bounding_box` flips the y
 * coordinates (`1 - y`) before clamping, so that y grows downwards from the top
 * of the image.
 */
module SdgEngineUtils {
  import opened Common
  import opened Vectors
  import opened Projection
  import BlenderSdgUtils

  /** `[1 - y for y in ly]`. */
  function FlipY(ly: seq<real>): (r: seq<real>)
    ensures |r| == |ly|
    ensures forall i :: 0 <= i < |r| ==> r[i] + ly[i] == 1.0
  {
    seq(|ly|, i requires 0 <= i < |ly| => 1.0 - ly[i])
  }

  /** Flipping twice gives the list back. */
  lemma FlipInvolution(ly: seq<real>)
    ensures FlipY(FlipY(ly)) == ly
  {
  }

  /** Flipping swaps the extremes: the new minimum is `1 - max`, the new maximum `1 - min`. */
  lemma FlipExtremes(ly: seq<real>)
    requires |ly| > 0
    ensures Min(FlipY(ly)) == 1.0 - Max(ly)
    ensures Max(FlipY(ly)) == 1.0 - Min(ly)
  {
    var f := FlipY(ly);
    var lo, hi := ArgMin(ly), ArgMax(ly);
    var m, n := ArgMin(f), ArgMax(f);
    assert f[hi] == 1.0 - ly[hi] && f[m] == 1.0 - ly[m];
    assert f[lo] == 1.0 - ly[lo] && f[n] == 1.0 - ly[n];
  }

  /**
   * `compute_bounding_box` with the y-flip: no box for an empty list, none for
   * a degenerate clamped box, ValueError for a relative box without a
   * resolution, otherwise `(top_x, top_y, width, height)` with y measured from
   * the top.
   */
  function ComputeBoundingBox(lx: seq<real>, ly: seq<real>, relative: bool := true,
                              resolution: Option<(int, int)> := Some((256, 256))): (r: Result<Option<Box>>)
    ensures |lx| == 0 || |ly| == 0 ==> r == Ok(None)
    ensures r.Err? <==> |lx| > 0 && |ly| > 0 && !Degenerate(ClampedLimits(lx, FlipY(ly))) && relative && resolution.None?
    ensures r.Err? ==> r.error == ValueError(MissingResolution)
  {
    if |lx| == 0 || |ly| == 0 then Ok(None)
    else BoxFromNonEmpty(lx, FlipY(ly), relative, resolution)
  }

  /** The flip is the only difference between the two variants, in both directions. */
  lemma FlipIsTheDifference(lx: seq<real>, ly: seq<real>, relative: bool, resolution: Option<(int, int)>)
    ensures ComputeBoundingBox(lx, ly, relative, resolution) ==
            BlenderSdgUtils.ComputeBoundingBox(lx, FlipY(ly), relative, resolution)
    ensures BlenderSdgUtils.ComputeBoundingBox(lx, ly, relative, resolution) ==
            ComputeBoundingBox(lx, FlipY(ly), relative, resolution)
  {
    FlipInvolution(ly);
  }

  /** The clamped limits after the flip: y runs from `clip(1 - max)` to `clip(1 - min)`. */
  lemma FlippedLimits(lx: seq<real>, ly: seq<real>)
    requires |lx| > 0 && |ly| > 0
    ensures ClampedLimits(lx, FlipY(ly)) ==
      Limits(Clamp01(Min(lx)), Clamp01(1.0 - Max(ly)), Clamp01(Max(lx)), Clamp01(1.0 - Min(ly)))
  {
    var f := FlipY(ly);
    ClampedFlip(ly);
    assert ClampedLimits(lx, f) == Limits(Clamp01(Min(lx)), Clamp01(Min(f)), Clamp01(Max(lx)), Clamp01(Max(f)));
  }

  lemma ClampedFlip(ly: seq<real>)
    requires |ly| > 0
    ensures Clamp01(Min(FlipY(ly))) == Clamp01(1.0 - Max(ly))
    ensures Clamp01(Max(FlipY(ly))) == Clamp01(1.0 - Min(ly))
  {
    FlipExtremes(ly);
  }

  /**
   * No box is returned exactly when a list is empty or the clamped limits
   * coincide on some axis, the y limits being those of the flipped values.
   */
  lemma NoBoxIff(lx: seq<real>, ly: seq<real>, relative: bool, resolution: Option<(int, int)>)
    ensures ComputeBoundingBox(lx, ly, relative, resolution) == Ok(None) <==>
      |lx| == 0 || |ly| == 0 ||
      Clamp01(Min(lx)) == Clamp01(Max(lx)) || Clamp01(1.0 - Max(ly)) == Clamp01(1.0 - Min(ly))
  {
    if |lx| > 0 && |ly| > 0 {
      FlippedLimits(lx, ly);
    }
  }

  /** A degenerate case: one visible point never gives a box. */
  lemma SinglePointNoBox(x: real, y: real, relative: bool, resolution: Option<(int, int)>)
    ensures ComputeBoundingBox([x], [y], relative, resolution) == Ok(None)
  {
    NoBoxIff([x], [y], relative, resolution);
  }

  /**
   * An axis entirely outside [0, 1] clamps to a single value, so an object
   * wholly off one side of the frame gives no box.
   */
  lemma OffscreenNoBox(lx: seq<real>, ly: seq<real>, relative: bool, resolution: Option<(int, int)>)
    requires (forall i :: 0 <= i < |lx| ==> lx[i] <= 0.0) || (forall i :: 0 <= i < |lx| ==> lx[i] >= 1.0) ||
             (forall i :: 0 <= i < |ly| ==> ly[i] <= 0.0) || (forall i :: 0 <= i < |ly| ==> ly[i] >= 1.0)
    ensures ComputeBoundingBox(lx, ly, relative, resolution) == Ok(None)
  {
    NoBoxIff(lx, ly, relative, resolution);
    if |lx| > 0 && |ly| > 0 {
      if (forall i :: 0 <= i < |lx| ==> lx[i] <= 0.0) || (forall i :: 0 <= i < |lx| ==> lx[i] >= 1.0) {
        ClampCollapses(lx);
      } else {
        FlippedClampCollapses(ly);
      }
    }
  }

  /** Values all at or below 0, or all at or above 1, clamp to one value. */
  lemma ClampCollapses(s: seq<real>)
    requires |s| > 0
    requires (forall i :: 0 <= i < |s| ==> s[i] <= 0.0) || (forall i :: 0 <= i < |s| ==> s[i] >= 1.0)
    ensures Clamp01(Min(s)) == Clamp01(Max(s))
  {
    assert s[ArgMin(s)] == Min(s) && s[ArgMax(s)] == Max(s);
  }

  /** The same for flipped values `1 - y`. */
  lemma FlippedClampCollapses(s: seq<real>)
    requires |s| > 0
    requires (forall i :: 0 <= i < |s| ==> s[i] <= 0.0) || (forall i :: 0 <= i < |s| ==> s[i] >= 1.0)
    ensures Clamp01(1.0 - Max(s)) == Clamp01(1.0 - Min(s))
  {
    assert s[ArgMin(s)] == Min(s) && s[ArgMax(s)] == Max(s);
  }

  /**
   * Two points apart on each axis inside the frame (y already flipped or not:
   * both lie in [0, 1]) always give a box, unless relative mode lacks a
   * resolution.
   */
  lemma SpreadPointsGiveBox(lx: seq<real>, ly: seq<real>, i: nat, j: nat, m: nat, n: nat,
                            relative: bool, resolution: Option<(int, int)>)
    requires i < |lx| && j < |lx| && 0.0 <= lx[i] < lx[j] <= 1.0
    requires m < |ly| && n < |ly| && 0.0 <= ly[m] < ly[n] <= 1.0
    requires !relative || resolution.Some?
    ensures ComputeBoundingBox(lx, ly, relative, resolution).Ok?
    ensures ComputeBoundingBox(lx, ly, relative, resolution).value.Some?
  {
    LimitsAreHull(lx, FlipY(ly));
    var l := ClampedLimits(lx, FlipY(ly));
    assert Clamp01(lx[i]) == lx[i] && Clamp01(lx[j]) == lx[j];
    assert FlipY(ly)[n] == 1.0 - ly[n] && FlipY(ly)[m] == 1.0 - ly[m];
    assert Clamp01(FlipY(ly)[n]) < Clamp01(FlipY(ly)[m]);
  }

  /**
   * A non-relative box spans the clamped x range and the clamped range of the
   * flipped y values, the top values nudged off zero.
   */
  lemma FlippedBox(lx: seq<real>, ly: seq<real>)
    requires ComputeBoundingBox(lx, ly, false, None).Ok?
    requires ComputeBoundingBox(lx, ly, false, None).value.Some?
    ensures var b := ComputeBoundingBox(lx, ly, false, None).value.value;
      b.topX == OrEpsilon(Clamp01(Min(lx))) && b.width == Clamp01(Max(lx)) - Clamp01(Min(lx)) &&
      b.topY == OrEpsilon(Clamp01(1.0 - Max(ly))) && b.height == Clamp01(1.0 - Min(ly)) - Clamp01(1.0 - Max(ly))
  {
    BoxIsScaledLimits(lx, FlipY(ly), false, None);
    FlippedLimits(lx, ly);
    var l := ClampedLimits(lx, FlipY(ly));
    assert ScaleLimits(l, 1.0, 1.0) == l;
  }

  /**
   * In the space a returned box is expressed in (the resolution when relative,
   * else the unit square) its described far edge is past the real one by
   * `Epsilon` exactly when a top was nudged. On each axis of positive extent it
   * fits against its un-nudged top, with positive size and top; a zero
   * resolution gives a zero size on that axis.
   */
  lemma BoxFits(lx: seq<real>, ly: seq<real>, relative: bool, resolution: Option<(int, int)>)
    requires ComputeBoundingBox(lx, ly, relative, resolution).Ok?
    requires ComputeBoundingBox(lx, ly, relative, resolution).value.Some?
    ensures |lx| > 0 && |ly| > 0
    ensures var b := ComputeBoundingBox(lx, ly, relative, resolution).value.value;
      var (w, h) := Extent(relative, resolution);
      var s := ScaleLimits(ClampedLimits(lx, FlipY(ly)), w, h);
      b.topX + b.width == s.bottomX + (if s.topX == 0.0 then Epsilon else 0.0) &&
      b.topY + b.height == s.bottomY + (if s.topY == 0.0 then Epsilon else 0.0) &&
      (w > 0.0 ==> 0.0 <= s.topX && s.topX + b.width <= w && 0.0 < b.width && 0.0 < b.topX) &&
      (h > 0.0 ==> 0.0 <= s.topY && s.topY + b.height <= h && 0.0 < b.height && 0.0 < b.topY)
  {
    BoxBounds(lx, FlipY(ly), relative, resolution);
  }

  /**
   * Because the nudge comes after the width, `top_x + width <= 1` is false for
   * a box touching the left edge: here it is `1 + Epsilon`.
   */
  lemma NudgePassesRightEdge()
    ensures ComputeBoundingBox([0.0, 1.0], [0.0, 1.0], false, None) == Ok(Some(Box(Epsilon, Epsilon, 1.0, 1.0)))
    ensures Epsilon + 1.0 > 1.0
  {
    assert ArgMin([0.0, 1.0]) == 0 && ArgMax([0.0, 1.0]) == 1;
    FlippedLimits([0.0, 1.0], [0.0, 1.0]);
  }

  /**
   * Relative scaling of limits (0.1, 0.2) to (0.3, 0.4) at resolution 100 by 50
   * gives the pixel box (10, 10) with width 20 and height 10.
   */
  lemma RelativeScenario()
    ensures ComputeBoundingBox([0.1, 0.3], [0.8, 0.6], true, Some((100, 50))) == Ok(Some(Box(10.0, 10.0, 20.0, 10.0)))
  {
    assert ArgMin([0.1, 0.3]) == 0 && ArgMax([0.1, 0.3]) == 1;
    assert ArgMin([0.8, 0.6]) == 1 && ArgMax([0.8, 0.6]) == 0;
    FlippedLimits([0.1, 0.3], [0.8, 0.6]);
  }

  /** `create_bounding_box` after the foreign mesh transforms, on camera-space vertices. */
  function ProjectedBox(vertices: seq<Vec3>, viewFrame: seq<Vec3>, relative: bool,
                        resolution: Option<(int, int)>): (r: Result<Option<Box>>)
    requires ValidFrame(CameraFrame(viewFrame))
    ensures !relative || resolution.Some? ==> r.Ok?
  {
    var frame := CameraFrame(viewFrame);
    var vis := Visible(vertices);
    ComputeBoundingBox(Xs(vis, frame), Ys(vis, frame), relative, resolution)
  }

  /**
   * `create_bounding_box`: negate the first three view-frame corners, normalise
   * the camera-space vertices, and compute the flipped box.
   */
  method CreateBoundingBox(vertices: seq<Vec3>, viewFrame: seq<Vec3>, relative: bool := true,
                           resolution: Option<(int, int)> := None) returns (r: Result<Option<Box>>)
    requires ValidFrame(CameraFrame(viewFrame))
    ensures r == ProjectedBox(vertices, viewFrame, relative, resolution)
  {
    var frame := CameraFrame(viewFrame);
    var lx, ly := CalculateNormalizedCoordinates(vertices, frame);
    r := ComputeBoundingBox(lx, ly, relative, resolution);
  }

  /** A mesh entirely at or behind the camera plane yields no box. */
  lemma HiddenMeshNoBox(vertices: seq<Vec3>, viewFrame: seq<Vec3>, relative: bool,
                        resolution: Option<(int, int)>)
    requires ValidFrame(CameraFrame(viewFrame))
    requires forall i :: 0 <= i < |vertices| ==> Depth(vertices[i]) <= 0.0
    ensures ProjectedBox(vertices, viewFrame, relative, resolution) == Ok(None)
  {
    VisibleEmpty(vertices);
  }

  /**
   * One vertex one unit in front of a camera whose frame spans [-1, 1] on both
   * axes normalises to the centre (0.5, 0.5), and as a single point gives no box.
   */
  lemma CentreVertexScenario()
    ensures var frame := [Vec3(0.0, 1.0, 1.0), Vec3(-1.0, -1.0, 1.0), Vec3(1.0, -1.0, 1.0)];
      ValidFrame(frame) &&
      Xs(Visible([Vec3(0.0, 0.0, -1.0)]), frame) == [0.5] &&
      Ys(Visible([Vec3(0.0, 0.0, -1.0)]), frame) == [0.5] &&
      ComputeBoundingBox([0.5], [0.5]) == Ok(None)
  {
    var frame := [Vec3(0.0, 1.0, 1.0), Vec3(-1.0, -1.0, 1.0), Vec3(1.0, -1.0, 1.0)];
    var v := Vec3(0.0, 0.0, -1.0);
    VisibleSingle(v);
    var f := FrameAtDepth(frame, 1.0);
    assert f[1] == Vec3(-1.0, -1.0, 1.0) && f[2] == Vec3(1.0, -1.0, 1.0) && f[0] == Vec3(0.0, 1.0, 1.0);
    assert PointX(v, frame) == 0.5;
    assert PointY(v, frame) == 0.5;
    SinglePointNoBox(0.5, 0.5, true, Some((256, 256)));
  }
}
