/**
 * `sdg_engine/core/interfaces/blender/render.py`: the renderer that chooses
 * output paths and annotates snapshots, and the snapshot x background sweep
 * of `generate_dataset_from_config`. Camera-space element meshes are inputs:
 * they are what the foreign mesh and matrix calls make of each snapshot's
 * poses. The list of background images and the outcome of loading each one
 * are inputs too.
 */
module Render {
  import opened Common
  import opened Vectors
  import opened Naming
  import opened Projection
  import opened Scene
  import SdgEngineUtils

  /** One annotation: the rendered file's name and the parallel box and category lists. */
  datatype Annotation = Annotation(fileName: string, bbox: seq<Box>, categories: seq<nat>)

  /** The dataset of one split: its directory and its annotations in render order. */
  datatype Dataset = Dataset(path: string, annotations: seq<Annotation>)

  // ----- annotate_snapshot -----

  /** The boxes kept from per-element results, in element order. */
  function KeptBoxes(boxes: seq<Option<Box>>): seq<Box>
  {
    if boxes == [] then []
    else KeptBoxes(boxes[..|boxes| - 1]) + (if boxes[|boxes| - 1].Some? then [boxes[|boxes| - 1].value] else [])
  }

  /** The element indices whose box is kept, which the annotation stores as categories. */
  function KeptIndices(boxes: seq<Option<Box>>): seq<nat>
  {
    if boxes == [] then []
    else KeptIndices(boxes[..|boxes| - 1]) + (if boxes[|boxes| - 1].Some? then [|boxes| - 1] else [])
  }

  /**
   * The kept lists are parallel: the j-th category is the index of an element
   * whose box is the j-th box, the categories strictly increase, and an element
   * is listed exactly when it has a box.
   */
  lemma {:induction false} KeptParallel(boxes: seq<Option<Box>>)
    ensures var bx, ix := KeptBoxes(boxes), KeptIndices(boxes);
      |bx| == |ix| <= |boxes| &&
      (forall j :: 0 <= j < |ix| ==> ix[j] < |boxes| && boxes[ix[j]] == Some(bx[j])) &&
      (forall j, k :: 0 <= j < k < |ix| ==> ix[j] < ix[k])
  {
    if boxes != [] {
      var n := |boxes| - 1;
      var p := boxes[..n];
      KeptParallel(p);
      assert boxes[..n + 1] == boxes;
      KeptStep(boxes, n);
      assert forall j :: 0 <= j < |p| ==> boxes[j] == p[j];
    }
  }

  /** One more element extends the kept lists by its box and index when it has a box. */
  lemma KeptStep(boxes: seq<Option<Box>>, i: nat)
    requires i < |boxes|
    ensures KeptBoxes(boxes[..i + 1]) == KeptBoxes(boxes[..i]) + (if boxes[i].Some? then [boxes[i].value] else [])
    ensures KeptIndices(boxes[..i + 1]) == KeptIndices(boxes[..i]) + (if boxes[i].Some? then [i] else [])
  {
    assert boxes[..i + 1][..i] == boxes[..i];
  }

  /** An element index is a category exactly when that element has a box. */
  lemma {:induction false} KeptExactly(boxes: seq<Option<Box>>)
    ensures forall i :: 0 <= i < |boxes| ==> (i in KeptIndices(boxes) <==> boxes[i].Some?)
    ensures forall i :: i in KeptIndices(boxes) ==> 0 <= i < |boxes|
  {
    if boxes != [] {
      var p := boxes[..|boxes| - 1];
      KeptExactly(p);
      assert forall i :: 0 <= i < |p| ==> boxes[i] == p[i];
    }
  }

  /** Each element's box as `create_bounding_box` gives it for the first camera's frame. */
  function ElementBoxes(meshes: seq<seq<Vec3>>, viewFrame: seq<Vec3>, relative: bool,
                        resolution: (int, int)): (r: seq<Option<Box>>)
    requires ValidFrame(CameraFrame(viewFrame))
    ensures |r| == |meshes|
  {
    seq(|meshes|, i requires 0 <= i < |meshes| =>
      SdgEngineUtils.ProjectedBox(meshes[i], viewFrame, relative, Some(resolution)).value)
  }

  /** The annotation's `file_name`: a non-empty override, else `"<snapshot_id>.png"`. */
  function AnnotationFileName(snapshotId: Uuid, fileNameOverride: Option<string>): (r: string)
    ensures fileNameOverride.Some? && fileNameOverride.value != "" ==> r == fileNameOverride.value
    ensures fileNameOverride.None? || fileNameOverride.value == "" ==> r == UuidStr(snapshotId) + PngSuffix
  {
    if fileNameOverride.Some? && fileNameOverride.value != "" then fileNameOverride.value
    else UuidStr(snapshotId) + PngSuffix
  }

  /** The annotation `annotate_snapshot` builds against the given render resolution. */
  function SnapshotAnnotation(viewFrame: seq<Vec3>, meshes: seq<seq<Vec3>>, snapshotId: Uuid, relative: bool,
                              fileNameOverride: Option<string>, resolution: (int, int)): Annotation
    requires ValidFrame(CameraFrame(viewFrame))
  {
    var boxes := ElementBoxes(meshes, viewFrame, relative, resolution);
    Annotation(AnnotationFileName(snapshotId, fileNameOverride), KeptBoxes(boxes), KeptIndices(boxes))
  }

  /** The camera's frame admits every division of the vertex loop at every render resolution. */
  ghost predicate ValidFrames(viewFrame: ViewFrame)
  {
    forall r :: ValidFrame(CameraFrame(ViewFrameAt(viewFrame, r)))
  }

  /**
   * An annotation lists, in element order, exactly the elements that have a
   * box against the first camera at the given resolution, each with its index
   * as category.
   */
  lemma AnnotationContents(viewFrame: seq<Vec3>, meshes: seq<seq<Vec3>>, snapshotId: Uuid, relative: bool,
                           fileNameOverride: Option<string>, resolution: (int, int))
    requires ValidFrame(CameraFrame(viewFrame))
    ensures var a := SnapshotAnnotation(viewFrame, meshes, snapshotId, relative, fileNameOverride, resolution);
      |a.bbox| == |a.categories| <= |meshes| &&
      (forall j :: 0 <= j < |a.categories| ==>
        a.categories[j] < |meshes| &&
        SdgEngineUtils.ProjectedBox(meshes[a.categories[j]], viewFrame, relative, Some(resolution)) == Ok(Some(a.bbox[j]))) &&
      (forall j, k :: 0 <= j < k < |a.categories| ==> a.categories[j] < a.categories[k]) &&
      (forall i :: 0 <= i < |meshes| ==>
        (i in a.categories <==> SdgEngineUtils.ProjectedBox(meshes[i], viewFrame, relative, Some(resolution)).value.Some?))
  {
    var boxes := ElementBoxes(meshes, viewFrame, relative, resolution);
    forall i | 0 <= i < |meshes|
      ensures SdgEngineUtils.ProjectedBox(meshes[i], viewFrame, relative, Some(resolution)) == Ok(boxes[i])
    {
    }
    KeptParallel(boxes);
    KeptExactly(boxes);
  }

  // ----- render_snapshot -----

  /** The message of the ValueError raised when neither an id nor a custom path is given. */
  const MissingOutput: string := "Either snapshot_id or custom_filepath must be provided for rendering."

  /**
   * The path `render_snapshot` renders to: a non-empty custom path, else
   * `<target>/<str(id)>.png`, else ValueError.
   */
  function OutputPath(targetPath: string, snapshotId: Option<Uuid>, customFilepath: Option<string>): (r: Result<string>)
    ensures customFilepath.Some? && customFilepath.value != "" ==> r == Ok(customFilepath.value)
    ensures r.Err? <==> (customFilepath.None? || customFilepath.value == "") && snapshotId.None?
    ensures r.Err? ==> r.error == ValueError(MissingOutput)
  {
    if customFilepath.Some? && customFilepath.value != "" then Ok(customFilepath.value)
    else if snapshotId.Some? then Ok(targetPath + "/" + UuidStr(snapshotId.value) + PngSuffix)
    else Err(ValueError(MissingOutput))
  }

  /**
   * Without a custom path, the output lies in the target directory under the
   * snapshot's `str(id)` with extension `.png`, and different snapshots get
   * different paths.
   */
  lemma IdPaths(targetPath: string, a: Uuid, b: Uuid)
    ensures var p := OutputPath(targetPath, Some(a), None).value;
      p[..|targetPath| + 1] == targetPath + "/" && p[|targetPath| + 1..|p| - 4] == UuidStr(a) &&
      p[|p| - 4..] == PngSuffix
    ensures OutputPath(targetPath, Some(a), None) == OutputPath(targetPath, Some(b), None) <==> a == b
  {
    var p := OutputPath(targetPath, Some(a), None).value;
    assert p == (targetPath + "/") + UuidStr(a) + PngSuffix;
    if OutputPath(targetPath, Some(a), None) == OutputPath(targetPath, Some(b), None) {
      var q := OutputPath(targetPath, Some(b), None).value;
      assert q == (targetPath + "/") + UuidStr(b) + PngSuffix;
      assert UuidStr(a) == p[|targetPath| + 1..|p| - 4] == q[|targetPath| + 1..|q| - 4] == UuidStr(b);
      UuidStrInjective(a, b);
    }
  }

  /** `BlenderRenderer`: the scene it drives, the output directory and the configured resolution. */
  class BlenderRenderer {
    const scene: BlenderScene
    const targetPath: string
    const resolution: (int, int)

    /** Sets the scene's render resolution and sample count. */
    constructor(scene: BlenderScene, targetPath: string, resolution: (int, int), samples: int)
      modifies scene`resolutionX, scene`resolutionY, scene`samples
      ensures this.scene == scene && this.targetPath == targetPath && this.resolution == resolution
      ensures scene.resolutionX == resolution.0 && scene.resolutionY == resolution.1 && scene.samples == samples
    {
      this.scene := scene;
      this.targetPath := targetPath;
      this.resolution := resolution;
      new;
      scene.resolutionX := resolution.0;
      scene.resolutionY := resolution.1;
      scene.samples := samples;
    }

    /**
     * `render_snapshot`: set `render.filepath` to the chosen output path,
     * render a still there and return the path; ValueError, with nothing
     * rendered, when there is neither a custom path nor an id.
     */
    method RenderSnapshot(snapshotId: Option<Uuid> := None, customFilepath: Option<string> := None)
      returns (r: Result<string>)
      modifies scene`filepath, scene`renderLog
      ensures r == OutputPath(targetPath, snapshotId, customFilepath)
      ensures r.Ok? ==> scene.filepath == r.value && scene.renderLog == old(scene.renderLog) + [r.value]
      ensures r.Err? ==> scene.filepath == old(scene.filepath) && scene.renderLog == old(scene.renderLog)
    {
      if customFilepath.Some? && customFilepath.value != "" {
        scene.filepath := customFilepath.value;
      } else if snapshotId.Some? {
        scene.filepath := targetPath + "/" + UuidStr(snapshotId.value) + PngSuffix;
      } else {
        return Err(ValueError(MissingOutput));
      }
      scene.RenderStill();
      r := Ok(scene.filepath);
    }

    /**
     * `annotate_snapshot`: with the first camera and the scene's current
     * resolution, compute each element's box and keep those that exist,
     * recording the element's index as its category. `warned` tells whether
     * the several-cameras warning is issued.
     */
    method AnnotateSnapshot(cameras: seq<Camera>, meshes: seq<seq<Vec3>>, snapshotId: Uuid,
                            relative: bool := true, fileNameOverride: Option<string> := None)
      returns (ann: Annotation, warned: bool)
      requires |cameras| > 0
      requires ValidFrame(CameraFrame(ViewFrameAt(cameras[0].viewFrame, (scene.resolutionX, scene.resolutionY))))
      ensures warned <==> |cameras| > 1
      ensures ann == SnapshotAnnotation(ViewFrameAt(cameras[0].viewFrame, (scene.resolutionX, scene.resolutionY)),
                                        meshes, snapshotId, relative, fileNameOverride,
                                        (scene.resolutionX, scene.resolutionY))
    {
      warned := |cameras| > 1;
      var camera := cameras[0];
      ann := Annotation(AnnotationFileName(snapshotId, fileNameOverride), [], []);
      var currentResolution := (scene.resolutionX, scene.resolutionY);
      // `view_frame` at the current resolution, which no call below changes.
      var frame := ViewFrameAt(camera.viewFrame, currentResolution);
      ghost var boxes := ElementBoxes(meshes, frame, relative, currentResolution);
      for i := 0 to |meshes|
        invariant ann.fileName == AnnotationFileName(snapshotId, fileNameOverride)
        invariant ann.bbox == KeptBoxes(boxes[..i]) && ann.categories == KeptIndices(boxes[..i])
      {
        var boundingBox := SdgEngineUtils.CreateBoundingBox(meshes[i], frame, relative, Some(currentResolution));
        KeptStep(boxes, i);
        if boundingBox.value.None? {
          continue;
        }
        ann := ann.(bbox := ann.bbox + [boundingBox.value.value], categories := ann.categories + [i]);
      }
      assert boxes[..|meshes|] == boxes;
    }
  }

  // ----- generate_dataset_from_config -----


  /** The backgrounds of every snapshot: each image path, or one solid-colour pass when there is none. */
  function BackgroundPasses(images: seq<string>): (r: seq<Option<string>>)
    ensures |r| == if |images| == 0 then 1 else |images|
    ensures |images| == 0 ==> r == [None]
    ensures forall i :: 0 <= i < |images| ==> r[i] == Some(images[i])
  {
    if |images| == 0 then [None] else seq(|images|, i requires 0 <= i < |images| => Some(images[i]))
  }

  /** `if background_filepath:` — a pass that applies an image. */
  predicate IsImagePass(pass: Option<string>)
  {
    pass.Some? && pass.value != ""
  }

  /**
   * The resolution a pass leaves: a loaded image's size, the previous
   * resolution when the image fails to load, the configured one for a solid pass.
   */
  function PassResolution(previous: (int, int), pass: Option<string>, loads: map<string, (int, int)>,
                          configured: (int, int)): (int, int)
  {
    if IsImagePass(pass) then
      if pass.value in loads then loads[pass.value] else previous
    else configured
  }

  /** The resolution after a run of passes that starts at `start`. */
  function ResolutionFrom(start: (int, int), passes: seq<Option<string>>, loads: map<string, (int, int)>,
                          configured: (int, int)): (int, int)
  {
    if passes == [] then start
    else PassResolution(ResolutionFrom(start, passes[..|passes| - 1], loads, configured), passes[|passes| - 1],
                        loads, configured)
  }

  /** The resolution when snapshot `s` starts: the renderer sets the configured one, each snapshot's passes carry on from it. */
  function ResolutionBefore(s: nat, passes: seq<Option<string>>, loads: map<string, (int, int)>,
                            configured: (int, int)): (int, int)
  {
    if s == 0 then configured
    else ResolutionFrom(ResolutionBefore(s - 1, passes, loads, configured), passes, loads, configured)
  }

  /** The resolution at which snapshot `s` is rendered and annotated against background `i`. */
  function RenderResolution(s: nat, i: nat, passes: seq<Option<string>>, loads: map<string, (int, int)>,
                            configured: (int, int)): (int, int)
    requires i < |passes|
  {
    ResolutionFrom(ResolutionBefore(s, passes, loads, configured), passes[..i + 1], loads, configured)
  }

  /**
   * The resolution of each render: a loaded image's size; the configured
   * resolution for a solid pass; and, when the image fails to load, the
   * resolution of the render before it (across snapshots too), or the
   * configured one for the very first render.
   */
  lemma ResolutionCarryOver(s: nat, i: nat, passes: seq<Option<string>>, loads: map<string, (int, int)>,
                            configured: (int, int))
    requires i < |passes|
    ensures var r := RenderResolution(s, i, passes, loads, configured);
      (IsImagePass(passes[i]) && passes[i].value in loads ==> r == loads[passes[i].value]) &&
      (!IsImagePass(passes[i]) ==> r == configured) &&
      (IsImagePass(passes[i]) && passes[i].value !in loads ==>
        r == if i > 0 then RenderResolution(s, i - 1, passes, loads, configured)
             else if s > 0 then RenderResolution(s - 1, |passes| - 1, passes, loads, configured)
             else configured)
  {
    assert passes[..i + 1][..i] == passes[..i];
    if i == 0 {
      assert passes[..i] == [];
      var start := ResolutionBefore(s, passes, loads, configured);
      assert ResolutionFrom(start, passes[..i + 1][..i], loads, configured) == start;
      if s > 0 {
        assert passes[..|passes|] == passes;
        assert start == ResolutionFrom(ResolutionBefore(s - 1, passes, loads, configured), passes[..|passes|], loads, configured);
      }
    } else {
      assert passes[..i] == passes[..i - 1 + 1];
    }
  }

  /** The annotation of the render of snapshot `s` against background `i`. */
  function RenderAnnotation(s: nat, i: nat, snapshots: seq<Snapshot>, views: seq<seq<seq<Vec3>>>,
                            viewFrame: ViewFrame, passes: seq<Option<string>>, loads: map<string, (int, int)>,
                            configured: (int, int)): (a: Annotation)
    requires ValidFrames(viewFrame) && |views| == |snapshots|
    requires s < |snapshots| && i < |passes|
    ensures a.fileName == FileName(snapshots[s].id, i)
  {
    var res := RenderResolution(s, i, passes, loads, configured);
    SnapshotAnnotation(ViewFrameAt(viewFrame, res), views[s], snapshots[s].id, true, Some(FileName(snapshots[s].id, i)), res)
  }

  /** The annotations of snapshot `s`, one per background. */
  function SnapshotRow(s: nat, snapshots: seq<Snapshot>, views: seq<seq<seq<Vec3>>>, viewFrame: ViewFrame,
                       passes: seq<Option<string>>, loads: map<string, (int, int)>,
                       configured: (int, int)): (r: seq<Annotation>)
    requires ValidFrames(viewFrame) && |views| == |snapshots| && s < |snapshots|
    ensures |r| == |passes|
  {
    seq(|passes|, i requires 0 <= i < |passes| => RenderAnnotation(s, i, snapshots, views, viewFrame, passes, loads, configured))
  }

  /** The annotations of the first `n` snapshots, snapshot after snapshot. */
  function SweepRows(n: nat, snapshots: seq<Snapshot>, views: seq<seq<seq<Vec3>>>, viewFrame: ViewFrame,
                     passes: seq<Option<string>>, loads: map<string, (int, int)>,
                     configured: (int, int)): seq<Annotation>
    requires ValidFrames(viewFrame) && |views| == |snapshots| && n <= |snapshots|
  {
    if n == 0 then []
    else SweepRows(n - 1, snapshots, views, viewFrame, passes, loads, configured) +
         SnapshotRow(n - 1, snapshots, views, viewFrame, passes, loads, configured)
  }

  /** Every annotation of the sweep. */
  function Sweep(snapshots: seq<Snapshot>, views: seq<seq<seq<Vec3>>>, viewFrame: ViewFrame,
                 images: seq<string>, loads: map<string, (int, int)>, configured: (int, int)): seq<Annotation>
    requires ValidFrames(viewFrame) && |views| == |snapshots|
  {
    SweepRows(|snapshots|, snapshots, views, viewFrame, BackgroundPasses(images), loads, configured)
  }

  /** The paths rendered for snapshot `s`, one per background. */
  function PathRow(s: nat, splitPath: string, snapshots: seq<Snapshot>, b: nat): (r: seq<string>)
    requires s < |snapshots|
    ensures |r| == b
  {
    seq(b, i requires 0 <= i => splitPath + "/" + FileName(snapshots[s].id, i))
  }

  /** The paths rendered for the first `n` snapshots. */
  function PathRows(n: nat, splitPath: string, snapshots: seq<Snapshot>, b: nat): seq<string>
    requires n <= |snapshots|
  {
    if n == 0 then [] else PathRows(n - 1, splitPath, snapshots, b) + PathRow(n - 1, splitPath, snapshots, b)
  }

  lemma MulMonotone(n: nat, q: nat, b: nat)
    requires n <= q
    ensures n * b <= q * b
  {
  }

  lemma NextMultiple(q: nat, s: nat, b: nat)
    requires q < s
    ensures q * b + b <= s * b
  {
    MulMonotone(q + 1, s, b);
    assert (q + 1) * b == q * b + b;
  }

  /**
   * The first `n` snapshots give `n * B` annotations, and the one at
   * `s * B + i` is the render of snapshot `s` against background `i`.
   */
  lemma {:induction false} SweepRowsLayout(n: nat, snapshots: seq<Snapshot>, views: seq<seq<seq<Vec3>>>,
                                           viewFrame: ViewFrame, passes: seq<Option<string>>,
                                           loads: map<string, (int, int)>, configured: (int, int), s: nat, i: nat)
    requires ValidFrames(viewFrame) && |views| == |snapshots| && n <= |snapshots|
    ensures |SweepRows(n, snapshots, views, viewFrame, passes, loads, configured)| == n * |passes|
    ensures s < n && i < |passes| ==>
      s * |passes| + i < n * |passes| &&
      SweepRows(n, snapshots, views, viewFrame, passes, loads, configured)[s * |passes| + i] ==
        RenderAnnotation(s, i, snapshots, views, viewFrame, passes, loads, configured)
  {
    var b := |passes|;
    if n > 0 {
      SweepRowsLayout(n - 1, snapshots, views, viewFrame, passes, loads, configured, s, i);
      assert n * b == (n - 1) * b + b;
      if s < n - 1 && i < b {
        NextMultiple(s, n - 1, b);
      }
    }
  }

  /**
   * The sweep renders every snapshot against every background (at least one):
   * `|snapshots| * max(1, |images|)` annotations, the one at `s * B + i` for
   * snapshot `s` and background `i`, named `<hex>_<i:04d>.png` and built from
   * that snapshot's meshes at that render's resolution.
   */
  lemma SweepLayout(snapshots: seq<Snapshot>, views: seq<seq<seq<Vec3>>>, viewFrame: ViewFrame,
                    images: seq<string>, loads: map<string, (int, int)>, configured: (int, int), s: nat, i: nat)
    requires ValidFrames(viewFrame) && |views| == |snapshots|
    requires s < |snapshots| && i < |BackgroundPasses(images)|
    ensures var sweep := Sweep(snapshots, views, viewFrame, images, loads, configured);
      var passes := BackgroundPasses(images);
      |sweep| == |snapshots| * (if |images| == 0 then 1 else |images|) &&
      s * |passes| + i < |sweep| &&
      var res := RenderResolution(s, i, passes, loads, configured);
      sweep[s * |passes| + i] == SnapshotAnnotation(ViewFrameAt(viewFrame, res), views[s], snapshots[s].id, true,
        Some(FileName(snapshots[s].id, i)), res)
  {
    SweepRowsLayout(|snapshots|, snapshots, views, viewFrame, BackgroundPasses(images), loads, configured, s, i);
  }

  /** Snapshots with distinct ids give every render of the sweep a distinct file name. */
  lemma SweepNamesDistinct(snapshots: seq<Snapshot>, views: seq<seq<seq<Vec3>>>, viewFrame: ViewFrame,
                           passes: seq<Option<string>>, loads: map<string, (int, int)>, configured: (int, int),
                           s: nat, i: nat, t: nat, j: nat)
    requires ValidFrames(viewFrame) && |views| == |snapshots|
    requires forall p, q :: 0 <= p < q < |snapshots| ==> snapshots[p].id != snapshots[q].id
    requires s < |snapshots| && t < |snapshots| && i < |passes| && j < |passes|
    ensures RenderAnnotation(s, i, snapshots, views, viewFrame, passes, loads, configured).fileName ==
            RenderAnnotation(t, j, snapshots, views, viewFrame, passes, loads, configured).fileName
            <==> s == t && i == j
  {
    FileNamesDistinct(snapshots[s].id, i, snapshots[t].id, j);
  }

  /** What loading the image at `path` gives: its size, or None when loading fails. */
  function LoadOutcome(path: string, loads: map<string, (int, int)>): (r: Option<(int, int)>)
    ensures r.Some? <==> path in loads
    ensures r.Some? ==> r.value == loads[path]
  {
    if path in loads then Some(loads[path]) else None
  }

  /**
   * The head of one pass of the background loop: an image pass sets the
   * background image, a solid pass the solid colour at the configured
   * resolution and 100%.
   */
  method ApplyBackground(scene: BlenderScene, backgroundFilepath: Option<string>, loads: map<string, (int, int)>,
                         configured: (int, int))
    modifies scene`world, scene`filmTransparent, scene`warnings
    modifies scene`resolutionX, scene`resolutionY, scene`resolutionPercentage
    ensures (scene.resolutionX, scene.resolutionY) ==
      PassResolution(old((scene.resolutionX, scene.resolutionY)), backgroundFilepath, loads, configured)
    ensures IsImagePass(backgroundFilepath) ==>
              scene.resolutionPercentage ==
              (if backgroundFilepath.value in loads then 100 else old(scene.resolutionPercentage))
    ensures !IsImagePass(backgroundFilepath) ==> scene.resolutionPercentage == 100
    ensures IsImagePass(backgroundFilepath) ==>
              scene.world ==
              Some(BackgroundWorld(old(scene.world), backgroundFilepath.value, LoadOutcome(backgroundFilepath.value, loads)))
    ensures !IsImagePass(backgroundFilepath) ==> scene.world == Some(SolidWorld(old(scene.world), DefaultColor))
    ensures !scene.filmTransparent
    ensures scene.warnings == old(scene.warnings) +
      (if !IsImagePass(backgroundFilepath) then 0
       else (if Incomplete(WorldOrNew(old(scene.world)).nodes) then 1 else 0) +
            (if backgroundFilepath.value in loads then 0 else 1))
  {
    if backgroundFilepath.Some? && backgroundFilepath.value != "" {
      scene.SetBackgroundImage(backgroundFilepath.value, LoadOutcome(backgroundFilepath.value, loads));
    } else {
      scene.SetSolidBackgroundColor();
      scene.resolutionX := configured.0;
      scene.resolutionY := configured.1;
      scene.resolutionPercentage := 100;
    }
  }

  /**
   * One pass of the background loop of `generate_dataset_from_config`: apply
   * the background (an image, or the solid colour at the configured
   * resolution and 100%), render `<split>/<hex>_<i:04d>.png` and annotate it
   * at the resolution the pass leaves, with the camera's frame at that resolution.
   */
  method RenderPass(renderer: BlenderRenderer, snapshot: Snapshot, bgIdx: nat, backgroundFilepath: Option<string>,
                    meshes: seq<seq<Vec3>>, loads: map<string, (int, int)>)
    returns (annotation: Annotation)
    requires |renderer.scene.cameras| > 0 && ValidFrames(renderer.scene.cameras[0].viewFrame)
    modifies renderer.scene`world, renderer.scene`filmTransparent, renderer.scene`warnings
    modifies renderer.scene`resolutionX, renderer.scene`resolutionY, renderer.scene`resolutionPercentage
    modifies renderer.scene`filepath, renderer.scene`renderLog
    ensures (renderer.scene.resolutionX, renderer.scene.resolutionY) ==
      PassResolution(old((renderer.scene.resolutionX, renderer.scene.resolutionY)), backgroundFilepath, loads, renderer.resolution)
    ensures IsImagePass(backgroundFilepath) ==>
              renderer.scene.resolutionPercentage ==
              (if backgroundFilepath.value in loads then 100 else old(renderer.scene.resolutionPercentage))
    ensures !IsImagePass(backgroundFilepath) ==> renderer.scene.resolutionPercentage == 100
    ensures IsImagePass(backgroundFilepath) ==>
              renderer.scene.world ==
              Some(BackgroundWorld(old(renderer.scene.world), backgroundFilepath.value,
                                   LoadOutcome(backgroundFilepath.value, loads)))
    ensures !IsImagePass(backgroundFilepath) ==> renderer.scene.world == Some(SolidWorld(old(renderer.scene.world), DefaultColor))
    ensures !renderer.scene.filmTransparent
    ensures renderer.scene.warnings == old(renderer.scene.warnings) +
      (if !IsImagePass(backgroundFilepath) then 0
       else (if Incomplete(WorldOrNew(old(renderer.scene.world)).nodes) then 1 else 0) +
            (if backgroundFilepath.value in loads then 0 else 1))
    ensures annotation == SnapshotAnnotation(
      ViewFrameAt(renderer.scene.cameras[0].viewFrame, (renderer.scene.resolutionX, renderer.scene.resolutionY)),
      meshes, snapshot.id, true, Some(FileName(snapshot.id, bgIdx)),
      (renderer.scene.resolutionX, renderer.scene.resolutionY))
    ensures renderer.scene.renderLog == old(renderer.scene.renderLog) + [renderer.targetPath + "/" + FileName(snapshot.id, bgIdx)]
  {
    var scene := renderer.scene;
    ApplyBackground(scene, backgroundFilepath, loads, renderer.resolution);
    var renderFileBaseName := BaseName(snapshot.id, bgIdx);
    var fullOutputFilepath := renderer.targetPath + "/" + renderFileBaseName + PngSuffix;
    assert fullOutputFilepath == renderer.targetPath + "/" + FileName(snapshot.id, bgIdx);
    var _ := renderer.RenderSnapshot(customFilepath := Some(fullOutputFilepath));
    var warned;
    annotation, warned := renderer.AnnotateSnapshot(scene.cameras, meshes, snapshot.id,
                                                    fileNameOverride := Some(renderFileBaseName + PngSuffix));
  }

  /** Pass `i` of snapshot `s` extends the row by the annotation at the resolution that pass leaves. */
  lemma SnapshotRowStep(s: nat, i: nat, snapshots: seq<Snapshot>, views: seq<seq<seq<Vec3>>>, viewFrame: ViewFrame,
                        passes: seq<Option<string>>, loads: map<string, (int, int)>, configured: (int, int))
    requires ValidFrames(viewFrame) && |views| == |snapshots| && s < |snapshots| && i < |passes|
    ensures var start := ResolutionBefore(s, passes, loads, configured);
      var res := PassResolution(ResolutionFrom(start, passes[..i], loads, configured), passes[i], loads, configured);
      var row := SnapshotRow(s, snapshots, views, viewFrame, passes, loads, configured);
      ResolutionFrom(start, passes[..i + 1], loads, configured) == res &&
      row[..i + 1] == row[..i] + [SnapshotAnnotation(ViewFrameAt(viewFrame, res), views[s], snapshots[s].id, true,
                                                      Some(FileName(snapshots[s].id, i)), res)]
  {
    assert passes[..i + 1][..i] == passes[..i];
    var row := SnapshotRow(s, snapshots, views, viewFrame, passes, loads, configured);
    assert row[..i + 1] == row[..i] + [row[i]];
  }

  /**
   * The background loop for one posed snapshot: every pass in order, each
   * rendering and annotating at the resolution it leaves; the resolution
   * carries on to the next snapshot.
   */
  method RenderBackgrounds(renderer: BlenderRenderer, snapshots: seq<Snapshot>, views: seq<seq<seq<Vec3>>>,
                           snapshotIdx: nat, passes: seq<Option<string>>, loads: map<string, (int, int)>)
    returns (row: seq<Annotation>)
    requires |renderer.scene.cameras| > 0 && ValidFrames(renderer.scene.cameras[0].viewFrame)
    requires |views| == |snapshots| && snapshotIdx < |snapshots|
    requires (renderer.scene.resolutionX, renderer.scene.resolutionY) ==
      ResolutionBefore(snapshotIdx, passes, loads, renderer.resolution)
    modifies renderer.scene`world, renderer.scene`filmTransparent, renderer.scene`warnings
    modifies renderer.scene`resolutionX, renderer.scene`resolutionY, renderer.scene`resolutionPercentage
    modifies renderer.scene`filepath, renderer.scene`renderLog
    ensures row == SnapshotRow(snapshotIdx, snapshots, views, renderer.scene.cameras[0].viewFrame, passes, loads,
                               renderer.resolution)
    ensures renderer.scene.renderLog == old(renderer.scene.renderLog) +
      PathRow(snapshotIdx, renderer.targetPath, snapshots, |passes|)
    ensures (renderer.scene.resolutionX, renderer.scene.resolutionY) ==
      ResolutionBefore(snapshotIdx + 1, passes, loads, renderer.resolution)
  {
    var scene := renderer.scene;
    ghost var start := ResolutionBefore(snapshotIdx, passes, loads, renderer.resolution);
    ghost var pathRow := PathRow(snapshotIdx, renderer.targetPath, snapshots, |passes|);
    ghost var logged := scene.renderLog;
    row := [];
    for bgIdx := 0 to |passes|
      invariant row == SnapshotRow(snapshotIdx, snapshots, views, scene.cameras[0].viewFrame, passes, loads,
                                   renderer.resolution)[..bgIdx]
      invariant scene.renderLog == logged + pathRow[..bgIdx]
      invariant (scene.resolutionX, scene.resolutionY) == ResolutionFrom(start, passes[..bgIdx], loads, renderer.resolution)
    {
      SnapshotRowStep(snapshotIdx, bgIdx, snapshots, views, scene.cameras[0].viewFrame, passes, loads, renderer.resolution);
      var annotation := RenderPass(renderer, snapshots[snapshotIdx], bgIdx, passes[bgIdx], views[snapshotIdx], loads);
      row := row + [annotation];
      assert pathRow[..bgIdx + 1] == pathRow[..bgIdx] + [pathRow[bgIdx]];
    }
    assert pathRow[..|passes|] == pathRow && passes[..|passes|] == passes;
  }

  /**
   * `generate_dataset_from_config` on an opened scene: set up the renderer,
   * then for every snapshot pose the scene and, for every background pass,
   * set the background (an image, or the solid colour at the configured
   * resolution), render `<split>/<hex>_<i:04d>.png` and append its annotation.
   */
  method GenerateDatasetFromConfig(scene: BlenderScene, targetPath: string, split: string,
                                   resolution: (int, int), samples: int,
                                   snapshots: seq<Snapshot>, views: seq<seq<seq<Vec3>>>,
                                   images: seq<string>, loads: map<string, (int, int)>)
    returns (dataset: Dataset)
    requires |scene.axes| > 0 && |scene.cameras| > 0 && |scene.lights| > 0
    requires ValidFrames(scene.cameras[0].viewFrame)
    requires |views| == |snapshots|
    modifies scene
    ensures dataset == Dataset(targetPath + "/" + split,
      Sweep(snapshots, views, old(scene.cameras[0].viewFrame), images, loads, resolution))
    ensures scene.renderLog == old(scene.renderLog) +
      PathRows(|snapshots|, targetPath + "/" + split, snapshots, |BackgroundPasses(images)|)
  {
    var splitPath := targetPath + "/" + split;
    var renderer := new BlenderRenderer(scene, splitPath, resolution, samples);
    dataset := Dataset(splitPath, []);
    ghost var viewFrame := scene.cameras[0].viewFrame;
    ghost var log0 := scene.renderLog;
    var backgroundsToRender := BackgroundPasses(images);
    for snapshotIdx := 0 to |snapshots|
      invariant |scene.axes| > 0 && |scene.cameras| > 0 && |scene.lights| > 0
      invariant scene.cameras[0].viewFrame == viewFrame
      invariant renderer.scene == scene && renderer.targetPath == splitPath && renderer.resolution == resolution
      invariant dataset.path == splitPath
      invariant dataset.annotations == SweepRows(snapshotIdx, snapshots, views, viewFrame, backgroundsToRender, loads, resolution)
      invariant scene.renderLog == log0 + PathRows(snapshotIdx, splitPath, snapshots, |backgroundsToRender|)
      invariant (scene.resolutionX, scene.resolutionY) == ResolutionBefore(snapshotIdx, backgroundsToRender, loads, resolution)
    {
      scene.PrepareFromSnapshot(snapshots[snapshotIdx]);
      var row := RenderBackgrounds(renderer, snapshots, views, snapshotIdx, backgroundsToRender, loads);
      dataset := dataset.(annotations := dataset.annotations + row);
    }
  }
}
