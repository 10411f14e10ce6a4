/**
 * `blender_sdg/core/interfaces/blender/utils.py`: the older variant of the
 * bounding-box code. Its vertex loop, clamping and relative scaling are the
 * shared definitions of module Projection; its `compute_bounding_box` takes
 * the y limits as they come, without flipping.
 */
module BlenderSdgUtils {
  import opened Common
  import opened Vectors
  import opened Projection

  /**
   * `compute_bounding_box` without the y-flip: no box for an empty list, none
   * for a degenerate clamped box, ValueError for a relative box without a
   * resolution, otherwise `(top_x, top_y, width, height)`.
   */
  function ComputeBoundingBox(lx: seq<real>, ly: seq<real>, relative: bool := true,
                              resolution: Option<(int, int)> := Some((256, 256))): (r: Result<Option<Box>>)
    ensures |lx| == 0 || |ly| == 0 ==> r == Ok(None)
    ensures r.Err? <==> |lx| > 0 && |ly| > 0 && !Degenerate(ClampedLimits(lx, ly)) && relative && resolution.None?
    ensures r.Err? ==> r.error == ValueError(MissingResolution)
  {
    if |lx| == 0 || |ly| == 0 then Ok(None)
    else BoxFromNonEmpty(lx, ly, relative, resolution)
  }

  /**
   * No box is returned exactly when a list is empty or the clamped limits
   * `clip(min)`, `clip(max)` coincide on some axis, y taken unflipped.
   */
  lemma NoBoxIff(lx: seq<real>, ly: seq<real>, relative: bool, resolution: Option<(int, int)>)
    ensures ComputeBoundingBox(lx, ly, relative, resolution) == Ok(None) <==>
      |lx| == 0 || |ly| == 0 ||
      Clamp01(Min(lx)) == Clamp01(Max(lx)) || Clamp01(Min(ly)) == Clamp01(Max(ly))
  {
    if |lx| > 0 && |ly| > 0 {
      var l := ClampedLimits(lx, ly);
      assert l == Limits(Clamp01(Min(lx)), Clamp01(Min(ly)), Clamp01(Max(lx)), Clamp01(Max(ly)));
    }
  }

  /**
   * A non-relative box is the unflipped clamped range of each axis, the top
   * values nudged off zero.
   */
  lemma UnflippedLimits(lx: seq<real>, ly: seq<real>)
    requires ComputeBoundingBox(lx, ly, false, None).Ok?
    requires ComputeBoundingBox(lx, ly, false, None).value.Some?
    ensures var b := ComputeBoundingBox(lx, ly, false, None).value.value;
      b.topX == OrEpsilon(Clamp01(Min(lx))) && b.width == Clamp01(Max(lx)) - Clamp01(Min(lx)) &&
      b.topY == OrEpsilon(Clamp01(Min(ly))) && b.height == Clamp01(Max(ly)) - Clamp01(Min(ly))
  {
    BoxIsScaledLimits(lx, ly, false, None);
    var l := ClampedLimits(lx, ly);
    assert ScaleLimits(l, 1.0, 1.0) == l;
  }

  /**
   * In the space a returned box is expressed in (the resolution when relative,
   * else the unit square) its described far edge is past the real one by
   * `Epsilon` exactly when a top was nudged. On each axis of positive extent it
   * fits against its un-nudged top, with positive size and top; a zero
   * resolution gives a zero size on that axis.
   */
  lemma BoxFits(lx: seq<real>, ly: seq<real>, relative: bool, resolution: Option<(int, int)>)
    requires ComputeBoundingBox(lx, ly, relative, resolution).Ok?
    requires ComputeBoundingBox(lx, ly, relative, resolution).value.Some?
    ensures |lx| > 0 && |ly| > 0
    ensures var b := ComputeBoundingBox(lx, ly, relative, resolution).value.value;
      var (w, h) := Extent(relative, resolution);
      var s := ScaleLimits(ClampedLimits(lx, ly), w, h);
      b.topX + b.width == s.bottomX + (if s.topX == 0.0 then Epsilon else 0.0) &&
      b.topY + b.height == s.bottomY + (if s.topY == 0.0 then Epsilon else 0.0) &&
      (w > 0.0 ==> 0.0 <= s.topX && s.topX + b.width <= w && 0.0 < b.width && 0.0 < b.topX) &&
      (h > 0.0 ==> 0.0 <= s.topY && s.topY + b.height <= h && 0.0 < b.height && 0.0 < b.topY)
  {
    BoxBounds(lx, ly, relative, resolution);
  }

  /**
   * Relative mode without a resolution raises ValueError, but only once the
   * lists are non-empty and the clamped box is not degenerate.
   */
  lemma MissingResolutionRaises(lx: seq<real>, ly: seq<real>)
    requires |lx| > 0 && |ly| > 0 && !Degenerate(ClampedLimits(lx, ly))
    ensures ComputeBoundingBox(lx, ly, true, None).Err?
    ensures forall res: (int, int) :: ComputeBoundingBox(lx, ly, true, Some(res)).Ok?
  {
  }

  /** `create_bounding_box` after the foreign mesh transforms, on camera-space vertices. */
  function ProjectedBox(vertices: seq<Vec3>, viewFrame: seq<Vec3>, relative: bool,
                        resolution: Option<(int, int)>): (r: Result<Option<Box>>)
    requires ValidFrame(CameraFrame(viewFrame))
    ensures !relative || resolution.Some? ==> r.Ok?
  {
    var frame := CameraFrame(viewFrame);
    var vis := Visible(vertices);
    ComputeBoundingBox(Xs(vis, frame), Ys(vis, frame), relative, resolution)
  }

  /**
   * `create_bounding_box`: negate the first three view-frame corners, normalise
   * the camera-space vertices, and compute the unflipped box.
   */
  method CreateBoundingBox(vertices: seq<Vec3>, viewFrame: seq<Vec3>, relative: bool := true,
                           resolution: Option<(int, int)> := None) returns (r: Result<Option<Box>>)
    requires ValidFrame(CameraFrame(viewFrame))
    ensures r == ProjectedBox(vertices, viewFrame, relative, resolution)
  {
    var frame := CameraFrame(viewFrame);
    var lx, ly := CalculateNormalizedCoordinates(vertices, frame);
    r := ComputeBoundingBox(lx, ly, relative, resolution);
  }

  /** A mesh entirely at or behind the camera plane yields no box. */
  lemma HiddenMeshNoBox(vertices: seq<Vec3>, viewFrame: seq<Vec3>, relative: bool,
                        resolution: Option<(int, int)>)
    requires ValidFrame(CameraFrame(viewFrame))
    requires forall i :: 0 <= i < |vertices| ==> Depth(vertices[i]) <= 0.0
    ensures ProjectedBox(vertices, viewFrame, relative, resolution) == Ok(None)
  {
    VisibleEmpty(vertices);
  }
}
