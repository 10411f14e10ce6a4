# Bounding-box projection engine and dataset sweep, in Dafny

This project models the core of a Blender synthetic-data generator:

- It projects camera-space meshes to 2D bounding boxes.
- It renders a sweep of snapshots against a list of background images.
- It records every render as an annotation of boxes and element indices.

It covers four Python files.

- **`sdg_engine/core/interfaces/blender/utils.py`** and **`blender_sdg/core/interfaces/blender/utils.py`** are two copies of the projection code. They differ only in the y-flip of `compute_bounding_box`.
  - Module `Projection` holds what they share:
    - the negated camera frame;
    - the vertex loop `calculate_normalized_coordinates`, whose frame reassignment is cumulative;
    - clamping to the unit square;
    - `make_bounding_box_relative`;
    - assembly of `(top_x, top_y, width, height)` with the `top or 1e-6` nudge.
  - Module `SdgEngineUtils` is the flipping copy. Module `BlenderSdgUtils` is the non-flipping one.
  - `SdgEngineUtils.FlipIsTheDifference` proves that the flip is the only difference between them.
  - The vertex loop of both copies (`sdg_engine/.../utils.py:78-99`, `blender_sdg/.../utils.py:75-96`) is the one method `Projection.CalculateNormalizedCoordinates`.
  - The loop is specified against the *original* frame moved to each vertex's depth. Its invariant proves that, over the reals, the cumulative reassignment of `frame` loses nothing.
- **`sdg_engine/core/interfaces/blender/scene.py`** is modelled as class `Scene.BlenderScene`.
  - Its fields are the resolution and percentage, the sample count, the render file path, the film transparency and the world.
  - It also holds the scene's axis, camera and light lists. The methods act on element 0 of each, and warn once for each role that has several objects.
  - Ghost fields count the warnings issued and log the paths rendered.
  - Each state change is tied to a pure function of the old state: `SetupWorld`, `SolidWorld` and `BackgroundWorld`. Lemmas about those functions state the node-tree behaviour: rebuild versus keep, links, idempotence, and the image placement.
- **`sdg_engine/core/interfaces/blender/render.py`** is modelled as class `Render.BlenderRenderer` and method `Render.GenerateDatasetFromConfig`.
  - The sweep is specified by `Render.Sweep`, snapshot row after snapshot row. `Render.SweepLayout` proves its size and order. `Render.ResolutionCarryOver` proves which resolution each render uses.
  - `Naming` holds the output names:
    - `str(uuid)` and `uuid.hex`;
    - Python's `{:04d}` padding;
    - `<hex>_<NNNN>.png`.

Numbers are Dafny `real`s and every division is exact. Division by zero is a precondition (`Projection.ValidFrame`).

The Blender calls are foreign and are left out: matrices, meshes, `view_frame`, image loading and rendering. What they produce is an input instead:

- camera-space vertices per element and snapshot;
- the camera's `view_frame` corners, as a function of the render resolution (`Scene.ViewFrame`), because Blender shapes the frame by the resolution's aspect;
- for each background path, the loaded image size, or none when loading fails.

The render call itself is `Scene.BlenderScene.RenderStill`. It appends the file path to a ghost log and changes no other field.

The parts of `generate_dataset_from_config`'s nested loop are separate methods:

- one background pass is `Render.RenderPass`;
- one snapshot's background loop is `Render.RenderBackgrounds`.

Each has a contract stated against the sweep specification.

## Model

| member | source | states |
|---|---|---|
| Projection.CameraFrame | sdg_engine/core/interfaces/blender/utils.py:51 | The working frame is the first three `view_frame` corners (fewer if there are fewer), each one negated. |
| Projection.CameraFrameValid | sdg_engine/core/interfaces/blender/utils.py:51 | Negating the corners keeps every slope. The negated frame is usable exactly when the raw first three corners are. |
| Projection.CalculateNormalizedCoordinates | sdg_engine/core/interfaces/blender/utils.py:78-99 | `lx` and `ly` hold one entry per vertex of positive depth, in mesh order. Each entry is that vertex normalised against the original frame moved to its depth. The two lists have equal length, at most the vertex count. The older copy's loop (`blender_sdg/.../utils.py:75-96`) is the same code. |
| Projection.CumulativeRescale | sdg_engine/core/interfaces/blender/utils.py:88 | The loop reassigns `frame` from a frame that already sits at an earlier depth. The result is exactly the original frame moved to the new depth, so every corner's z is that depth. |
| Projection.RescaleReachesDepth | sdg_engine/core/interfaces/blender/utils.py:88 | `c / (c.z / z)` of an original corner is the corner scaled by `z / c.z`, which puts it on the plane at depth `z`. |
| Projection.RescaleFromDepth | sdg_engine/core/interfaces/blender/utils.py:88 | Rescaling a corner already moved to depth `zp` on to depth `z` equals moving the original corner straight to `z`. |
| Projection.ExtentsAtDepth | sdg_engine/core/interfaces/blender/utils.py:90-94 | At positive depth a valid frame has `max_x != min_x` and `max_y != min_y`, so both divisions are defined. All three corners are at that depth. |
| Projection.Normalize | sdg_engine/core/interfaces/blender/utils.py:93-94 | `(a - lo)/(hi - lo)` maps `lo` to 0 and `hi` to 1 (`lo + r(hi-lo) == a`). For `lo < hi` the result is in [0,1] iff `a` lies between the extents, and strictly inside iff strictly between. |
| Projection.NormalizeMonotone | sdg_engine/core/interfaces/blender/utils.py:93-94 | On an increasing interval, normalisation keeps the order of the coordinates. |
| Projection.Visible | sdg_engine/core/interfaces/blender/utils.py:81-86 | The kept vertices number at most the mesh's. Each has positive depth and is a vertex of the mesh. |
| Projection.VisibleAppend | sdg_engine/core/interfaces/blender/utils.py:81-86 | The visibility filter distributes over concatenation, so mesh order is kept. |
| Projection.VisibleEmpty | sdg_engine/core/interfaces/blender/utils.py:81-86 | No vertex survives exactly when every vertex has depth `-z <= 0`. |
| Projection.LoopStep | sdg_engine/core/interfaces/blender/utils.py:85-97 | Processing a visible vertex has three effects. The frame moves to the vertex's depth. The two divisions are defined and give the vertex's normalised coordinates. Each list grows by exactly that entry. |
| Projection.HiddenStep | sdg_engine/core/interfaces/blender/utils.py:85-86 | A vertex at or behind the camera plane contributes nothing. |
| Projection.Clamp01 | sdg_engine/core/interfaces/blender/utils.py:137-138 | `np.clip(r, 0, 1)`: the result is in [0,1], `r` itself inside [0,1], and 0 or 1 outside. |
| Projection.ArgMin | sdg_engine/core/interfaces/blender/utils.py:137 | The position of an element no larger than any other (`min`). |
| Projection.ArgMax | sdg_engine/core/interfaces/blender/utils.py:137 | The position of an element no smaller than any other (`max`). |
| Projection.ClampedLimits | sdg_engine/core/interfaces/blender/utils.py:137-138 | Clamped limits are ordered inside the unit square: `0 <= top <= bottom <= 1` on both axes. |
| Projection.LimitsAreHull | sdg_engine/core/interfaces/blender/utils.py:137-138 | The clamped limits form the smallest rectangle holding every clamped point: each point lies inside and each side is attained. |
| Projection.MakeBoundingBoxRelative | sdg_engine/core/interfaces/blender/utils.py:190-198 | A missing resolution, and only that, raises ValueError. |
| Projection.RelativeScaling | sdg_engine/core/interfaces/blender/utils.py:193-198 | The x limits are scaled by `resolution[0]` and the y limits by `resolution[1]`. A nonzero axis can be divided back. A zero axis collapses to 0. A positive axis keeps the order of the limits. |
| Projection.BoxOf | sdg_engine/core/interfaces/blender/utils.py:150-155 | Output tops are never 0: a zero top becomes 1e-6. Width and height use the un-nudged top, so `top + width` is the real bottom, plus 1e-6 exactly when the top was nudged. |
| Projection.OrEpsilon | sdg_engine/core/interfaces/blender/utils.py:155 | `t or 1e-6` is never 0. It is `t` when `t` is non-zero and 1e-6 when `t` is 0. |
| Projection.BoxFromNonEmpty | sdg_engine/core/interfaces/blender/utils.py:137-155 | There is no box iff the clamped limits coincide on an axis. ValueError iff the box is not degenerate, relative mode is on and the resolution is missing. |
| Projection.BoxIsScaledLimits | sdg_engine/core/interfaces/blender/utils.py:144-155 | A returned box is the box of the clamped limits, scaled by the resolution when relative, or left in the unit square otherwise. |
| Projection.ScaledBoxBounds | sdg_engine/core/interfaces/blender/utils.py:150-155 | Its described far edge passes the real one by 1e-6 exactly when the top was zero. On each axis whose extent (`w` or `h`) is positive, the box stays within the space measured from the un-nudged top, with positive size and top. A zero extent, as at a zero resolution, gives a zero size there. |
| Projection.BoxBounds | sdg_engine/core/interfaces/blender/utils.py:144-155 | Every returned box satisfies those bounds in the space it is expressed in: the unit square in non-relative mode, the resolution in relative mode. |
| SdgEngineUtils.FlipExtremes | sdg_engine/core/interfaces/blender/utils.py:134 | After `y -> 1 - y` the minimum is `1 - max(ly)` and the maximum is `1 - min(ly)`. |
| SdgEngineUtils.FlipY | sdg_engine/core/interfaces/blender/utils.py:134 | The flipped list has the same length, and each entry plus its original is 1. |
| SdgEngineUtils.FlippedLimits | sdg_engine/core/interfaces/blender/utils.py:134-138 | The y limits of the flipped copy run from `clip(1 - max ly)` to `clip(1 - min ly)`. |
| SdgEngineUtils.ComputeBoundingBox | sdg_engine/core/interfaces/blender/utils.py:130-155 | An empty list gives None. ValueError with the source's message iff the lists are non-empty, the flipped clamped box is not degenerate, relative mode is on and the resolution is missing. |
| SdgEngineUtils.FlipIsTheDifference | sdg_engine/core/interfaces/blender/utils.py:133-138 | Each variant's box of `(lx, ly)` is the other variant's box of `(lx, 1 - ly)`, in both directions. |
| SdgEngineUtils.NoBoxIff | sdg_engine/core/interfaces/blender/utils.py:130-142 | None iff a list is empty, or `clip(min lx) == clip(max lx)`, or `clip(1 - max ly) == clip(1 - min ly)`. |
| SdgEngineUtils.SinglePointNoBox | sdg_engine/core/interfaces/blender/utils.py:141-142 | A single visible point never gives a box. |
| SdgEngineUtils.OffscreenNoBox | sdg_engine/core/interfaces/blender/utils.py:137-142 | A list lying wholly at or below 0, or wholly at or above 1, gives no box. |
| SdgEngineUtils.SpreadPointsGiveBox | sdg_engine/core/interfaces/blender/utils.py:137-148 | Two distinct in-frame values on each axis always give a box, unless relative mode lacks a resolution. |
| SdgEngineUtils.FlippedBox | sdg_engine/core/interfaces/blender/utils.py:134-155 | A non-relative box is `(clip(min lx) or 1e-6, clip(1 - max ly) or 1e-6, x range, flipped y range)`. |
| SdgEngineUtils.BoxFits | sdg_engine/core/interfaces/blender/utils.py:144-155 | A returned box fits its space against the un-nudged top, with the nudge accounted for on the far edge. It has positive width and top on x, and positive height and top on y, whenever that axis's extent is positive: always in non-relative mode, and for a positive resolution in relative mode. |
| SdgEngineUtils.NudgePassesRightEdge | sdg_engine/core/interfaces/blender/utils.py:151-155 | Limits that touch the left and top edges give `Box(1e-6, 1e-6, 1, 1)`, so `top_x + width` exceeds 1. |
| SdgEngineUtils.RelativeScenario | sdg_engine/core/interfaces/blender/utils.py:145-155 | Limits (0.1, 0.2) to (0.3, 0.4), after the flip, at resolution 100 by 50 give the pixel box (10, 10, 20, 10). |
| SdgEngineUtils.ProjectedBox | sdg_engine/core/interfaces/blender/utils.py:51-58 | `create_bounding_box` on camera-space vertices never raises when relative mode is off or a resolution is given. |
| SdgEngineUtils.CreateBoundingBox | sdg_engine/core/interfaces/blender/utils.py:51-58 | Running the vertex loop and then `compute_bounding_box` gives the projected box of the mesh. |
| SdgEngineUtils.HiddenMeshNoBox | sdg_engine/core/interfaces/blender/utils.py:81-131 | A mesh wholly at or behind the camera plane gives no box. |
| SdgEngineUtils.CentreVertexScenario | sdg_engine/core/interfaces/blender/utils.py:88-94 | The setup is a frame spanning [-1,1]² at depth 1 and a vertex one unit ahead. The vertex normalises to (0.5, 0.5), and as a single point gives no box. |
| BlenderSdgUtils.ComputeBoundingBox | blender_sdg/core/interfaces/blender/utils.py:124-146 | Unflipped: an empty list gives None. ValueError with the source's message iff the lists are non-empty, the clamped box is not degenerate, relative mode is on and the resolution is missing. |
| BlenderSdgUtils.NoBoxIff | blender_sdg/core/interfaces/blender/utils.py:124-133 | None iff a list is empty or `clip(min) == clip(max)` on some axis, with y taken as it comes. |
| BlenderSdgUtils.UnflippedLimits | blender_sdg/core/interfaces/blender/utils.py:128-146 | A non-relative box is `(clip(min lx) or 1e-6, clip(min ly) or 1e-6, x range, y range)`. |
| BlenderSdgUtils.BoxFits | blender_sdg/core/interfaces/blender/utils.py:142-146 | A returned box fits against the un-nudged top, with the nudge accounted for on the far edge. It has positive width and top on x, and positive height and top on y, whenever that axis's extent is positive: always in non-relative mode, and for a positive resolution in relative mode. |
| BlenderSdgUtils.MissingResolutionRaises | blender_sdg/core/interfaces/blender/utils.py:136-139 | With non-empty lists and a non-degenerate box, relative mode raises for a missing resolution and succeeds for every given one. |
| BlenderSdgUtils.ProjectedBox | blender_sdg/core/interfaces/blender/utils.py:48-55 | `create_bounding_box` never raises when relative mode is off or a resolution is given. |
| BlenderSdgUtils.CreateBoundingBox | blender_sdg/core/interfaces/blender/utils.py:48-55 | Running the vertex loop and then the unflipped `compute_bounding_box` gives the projected box. |
| BlenderSdgUtils.HiddenMeshNoBox | blender_sdg/core/interfaces/blender/utils.py:78-125 | A mesh wholly at or behind the camera plane gives no box. |
| Naming.UuidStr | sdg_engine/core/interfaces/blender/render.py:76 | `str(uuid)` is 36 characters. The 8-4-4-4-12 hyphen grouping is `Naming.UuidStrGroups`. |
| Naming.UuidStrGroups | sdg_engine/core/interfaces/blender/render.py:76 | `str(uuid)` has hyphens at positions 8, 13, 18 and 23. Removing them gives back `uuid.hex`. |
| Naming.UuidStrInjective | sdg_engine/core/interfaces/blender/render.py:76 | `str(uuid)` identifies the UUID: equal strings iff equal UUIDs. |
| Naming.Decimal | sdg_engine/core/interfaces/blender/render.py:200 | `str(n)` is a non-empty string of decimal digits in canonical form: `"0"` for 0, and no leading zero otherwise. |
| Naming.DecimalRoundTrip | sdg_engine/core/interfaces/blender/render.py:200 | Reading back the decimal rendering of `n` gives `n`. |
| Naming.ZeroPad4 | sdg_engine/core/interfaces/blender/render.py:200 | `{n:04d}` is exactly four characters wide, or as wide as `str(n)` when `str(n)` is longer. It ends in `str(n)` and is zeros before it. |
| Naming.ZeroPad4Digits | sdg_engine/core/interfaces/blender/render.py:200 | `{bg_idx:04d}` is exactly `max(4, len(str(bg_idx)))` characters, all digits, and reads back as `bg_idx`. |
| Naming.ZeroPad4Injective | sdg_engine/core/interfaces/blender/render.py:200 | Different indices pad to different strings. |
| Naming.PadOneDigit | sdg_engine/core/interfaces/blender/render.py:200 | `{7:04d}` is `0007`. |
| Naming.PadFiveDigits | sdg_engine/core/interfaces/blender/render.py:200 | `{12345:04d}` is `12345`: padding never truncates. |
| Naming.BaseName | sdg_engine/core/interfaces/blender/render.py:200 | The base name is the 32 hex digits of the id, `_` at position 32, then the padded index. |
| Naming.FileNameParts | sdg_engine/core/interfaces/blender/render.py:200-201 | A render's file name is the 32 hex digits, `_`, the padded index and `.png`. Its length is exactly `37 + max(4, len(str(bg_idx)))`. |
| Naming.FileNamesDistinct | sdg_engine/core/interfaces/blender/render.py:200-209 | Two file names are equal iff both the snapshot id and the background index are equal. |
| Scene.LastOfKind | sdg_engine/core/interfaces/blender/scene.py:66-72 | The scan result for a type is the last node of that type, or none iff no node has that type. |
| Scene.ScanWorldNodes | sdg_engine/core/interfaces/blender/scene.py:66-72 | The loop over the nodes leaves each variable at the last node of its type. |
| Scene.EnsureLink | sdg_engine/core/interfaces/blender/scene.py:94-97 | After `find`/`new` the link is present. A link that was already there leaves the list unchanged. A missing link is appended once, at the end. |
| Scene.EnsureTwoLinks | sdg_engine/core/interfaces/blender/scene.py:94-97 | Ensuring two different links appends, in order, exactly the ones that were missing. The old links stay a prefix. |
| Scene.SetupWires | sdg_engine/core/interfaces/blender/scene.py:52-102 | After setup, nodes are in use, all three types are present and both chain links exist. The returned positions are the linked Environment Texture and Background nodes. |
| Scene.SetupWorld | sdg_engine/core/interfaces/blender/scene.py:45-102 | Setup turns nodes on and keeps the colour. An incomplete tree is replaced by the fresh three-node tree and its links; a complete tree keeps its nodes. |
| Scene.SetupRebuilds | sdg_engine/core/interfaces/blender/scene.py:75-91 | A missing node type, or a missing world, leaves exactly three fresh nodes (one per type, no image) and two links. |
| Scene.SetupKeeps | sdg_engine/core/interfaces/blender/scene.py:92-97 | With all types present, the nodes and colour are kept and the old links form a prefix of the new ones. Each of the two chain links is added exactly when it was missing, so the list grows by the number missing. Nothing else is added. |
| Scene.SetupIdempotent | sdg_engine/core/interfaces/blender/scene.py:45-102 | A second setup changes nothing. |
| Scene.SolidIdempotent | sdg_engine/core/interfaces/blender/scene.py:132-144 | Nodes are turned off and the colour is set. An existing world keeps its node tree. A second call with the same colour changes nothing. |
| Scene.SolidWorld | sdg_engine/core/interfaces/blender/scene.py:132-144 | A solid background turns nodes off, sets the colour, and leaves the node tree and links as they were. |
| Scene.BackgroundImageApplied | sdg_engine/core/interfaces/blender/scene.py:111-129 | A loaded image sits in the linked Environment Texture node of a wired world. A failed load keeps the set-up tree but falls back to the default solid colour with nodes off. |
| Scene.BackgroundWorld | sdg_engine/core/interfaces/blender/scene.py:105-129 | The background keeps the set-up tree's size. A loaded image keeps nodes on and the set-up links; a failed load turns nodes off with the default colour. |
| Scene.MultiplicityWarnings | sdg_engine/core/interfaces/blender/scene.py:31-37 | At most three warnings, and none exactly when every role has at most one object. |
| Scene.BlenderScene.constructor | sdg_engine/core/interfaces/blender/scene.py:18-24 | The scene starts with the settings and objects of the opened file, with no warnings and nothing rendered. |
| Scene.BlenderScene.PrepareFromSnapshot | sdg_engine/core/interfaces/blender/scene.py:29-43 | Axis 0 is placed at the origin with rotation (yaw, roll, 0), camera 0 at (0, 0, height), and light 0 gets the snapshot's energy. Nothing else changes. One warning per role with several objects. |
| Scene.BlenderScene.SetupWorldNodes | sdg_engine/core/interfaces/blender/scene.py:45-102 | The world becomes `SetupWorld` of the old world and the film is opaque. One warning iff the tree was rebuilt. The returned positions are the Environment Texture and Background nodes. |
| Scene.BlenderScene.SetSolidBackgroundColor | sdg_engine/core/interfaces/blender/scene.py:132-144 | The world becomes `SolidWorld(old world, color)`, the default colour being (0.05, 0.05, 0.05). The film is opaque. |
| Scene.BlenderScene.SetBackgroundImage | sdg_engine/core/interfaces/blender/scene.py:105-129 | On a load, the resolution becomes the image size at 100%. On a failure, the resolution is unchanged and the scene falls back to the solid colour. The world is `BackgroundWorld`. Warnings are counted. |
| Scene.BlenderScene.RenderStill | sdg_engine/core/interfaces/blender/render.py:80 | Rendering writes a still at `render.filepath` and changes nothing else. |
| Render.KeptParallel | sdg_engine/core/interfaces/blender/render.py:112-124 | `bbox` and `categories` have equal length, at most the element count. The j-th category is an element index whose box is the j-th box. Categories strictly increase. |
| Render.KeptExactly | sdg_engine/core/interfaces/blender/render.py:112-124 | An element index is a category exactly when that element has a box, and every category is a valid index. |
| Render.ElementBoxes | sdg_engine/core/interfaces/blender/render.py:112-119 | One `create_bounding_box` result per element. |
| Render.AnnotationFileName | sdg_engine/core/interfaces/blender/render.py:100-103 | `file_name` is a non-empty override, else `<str(id)>.png`. |
| Render.AnnotationContents | sdg_engine/core/interfaces/blender/render.py:100-126 | An annotation lists, in element order, exactly the elements whose box at the given resolution exists. Each is listed with that box and its index. |
| Render.OutputPath | sdg_engine/core/interfaces/blender/render.py:73-78 | A non-empty custom path takes precedence. ValueError with the source's message iff neither a custom path nor an id is given. |
| Render.IdPaths | sdg_engine/core/interfaces/blender/render.py:75-76 | Without a custom path the output is `<target>/<str(id)>.png`, and different ids give different paths. |
| Render.BlenderRenderer.constructor | sdg_engine/core/interfaces/blender/render.py:44-50 | The renderer sets the scene's resolution and sample count to the configured ones. |
| Render.BlenderRenderer.RenderSnapshot | sdg_engine/core/interfaces/blender/render.py:67-81 | `render.filepath` becomes the output path, one still is rendered there, and the path is returned. On ValueError nothing changes and nothing is rendered. |
| Render.BlenderRenderer.AnnotateSnapshot | sdg_engine/core/interfaces/blender/render.py:84-126 | Only the first camera is used, with a warning iff there are several. The annotation is computed at the scene's current resolution, with the camera's `view_frame` at that resolution. |
| Render.BackgroundPasses | sdg_engine/core/interfaces/blender/render.py:181 | Every image path is a pass. With no images there is exactly one solid-colour pass. |
| Render.ResolutionCarryOver | sdg_engine/core/interfaces/blender/render.py:183-195 | Each render uses one of three resolutions: a loaded image's size; the configured one for a solid pass; for a failed load, that of the render before it, even across snapshots, or the configured one for the very first render. |
| Render.RenderAnnotation | sdg_engine/core/interfaces/blender/render.py:200-209 | A render's annotation is named `<hex>_<NNNN>.png`. |
| Render.SnapshotRow | sdg_engine/core/interfaces/blender/render.py:183-219 | One annotation per background pass. |
| Render.PathRow | sdg_engine/core/interfaces/blender/render.py:200-203 | One rendered path per background pass. |
| Render.SweepRowsLayout | sdg_engine/core/interfaces/blender/render.py:174-219 | The first `n` snapshots give `n * B` annotations. Position `s * B + i` holds snapshot `s` against background `i`. |
| Render.SweepLayout | sdg_engine/core/interfaces/blender/render.py:174-219 | The sweep has `|snapshots| * max(1, |images|)` annotations, ordered by snapshot and then by background. Each is built from its snapshot's meshes at its render's resolution, against the camera's frame at that resolution, and named after the pair. |
| Render.SweepNamesDistinct | sdg_engine/core/interfaces/blender/render.py:200-209 | With distinct snapshot ids, two renders share a file name iff they are the same render. |
| Render.ApplyBackground | sdg_engine/core/interfaces/blender/render.py:184-195 | An image pass leaves the world of `set_background_image`, with its resolution, percentage and warnings. A solid pass leaves the solid world at the configured resolution and 100%. The film is opaque either way. |
| Render.RenderPass | sdg_engine/core/interfaces/blender/render.py:184-210 | One pass sets the background and leaves the world, film, percentage and warnings that `Render.ApplyBackground` states. A solid pass resets to the configured resolution at 100%. The pass renders `<split>/<hex>_<NNNN>.png` and annotates it at the resolution the pass leaves, using the frame the camera has at that resolution. |
| Render.SnapshotRowStep | sdg_engine/core/interfaces/blender/render.py:183-219 | Pass `i` extends a snapshot's row by its annotation at the resolution that pass leaves. |
| Render.RenderBackgrounds | sdg_engine/core/interfaces/blender/render.py:183-220 | One snapshot's loop gives exactly that snapshot's row of the sweep and renders its row of paths. The resolution carries on to the next snapshot. |
| Render.GenerateDatasetFromConfig | sdg_engine/core/interfaces/blender/render.py:136-219 | The dataset is `<target>/<split>` with exactly the sweep's annotations. Each annotation uses the camera's frame at that render's resolution, as `view_frame` is queried again after every background change. The stills rendered are the sweep's paths, in order. |

## Left out

- Blender and mathutils calls are foreign and are left out:
  - `bpy.ops.render.render`, `open_mainfile`;
  - the `bpy.data` lookups of `from_scene_config` and `_get_blender_objects`;
  - `get_matrix`, `get_mesh`, `mesh.transform`, `view_frame`;
  - `bpy.data.images.load`.

  Their results are inputs: camera-space vertices per element and snapshot, the view-frame corners at each render resolution, and an optional image size per path.
- The 4×4 matrix transforms of `create_bounding_box` are foreign geometry. Only the negation of the first three corners is modelled.
- `draw_bounding_box_with_category` and `render_annotation_animation` do image I/O, and so does the `config.debug` branch that calls them.
- The background folder's globbing and `os.path.isdir` are filesystem calls. The list of images is an input.
- The JSONL metadata write and `model_dump_json` are serialisation I/O.
- `print`, `tqdm` and warning texts are output only. Scene warnings are a ghost counter, and the several-cameras warning of `annotate_snapshot` is a returned flag.
- IEEE float rounding, NaN and infinity are not modelled: numbers are `real`.
- `train.py` is a single call into a training library.
- `from_scene_config` and `from_sweep_config` are not modelled. `GenerateDatasetFromConfig` starts from an opened scene and the sweep's snapshots.
- `object.py` is not part of this model. `set_location`, `set_rotation` and `set_energy` are taken to assign the given value.
- `sweep.py` and `model.py` are not part of this model. `Snapshot`, `Annotation` and `Dataset` are datatypes with the fields the core reads.
- Projection.CalculateNormalizedCoordinates: requires a valid frame even for a mesh with no visible vertex, where the source never divides.
- Projection.ValidFrame: each division of the source is defined when its frame is valid. When a division fails, Python would raise ZeroDivisionError; the model does not cover that case and makes the frame a precondition instead.
- Scene.BlenderScene.SetupWorldNodes: `world_links.find(a, b)` is modelled as "a link between those sockets exists".
- Scene.BlenderScene.SetupWorldNodes: node types are the abstract kinds Environment Texture, Background, World Output and other. The model does not settle which type strings Blender reports, so it does not settle whether the source's `'SHADER_NODE_*'` comparisons match them.
- Scene.NewWorld: a world created by `bpy.data.worlds.new` is modelled as having no nodes, nodes off and the default colour.
- Scene.BlenderScene.SetBackgroundImage: any exception from loading is "no size". The image data-block itself is represented by its path.
- Render.GenerateDatasetFromConfig: the element meshes of each snapshot are inputs. They stand for what the foreign transforms make of the poses `prepare_from_snapshot` sets.
- Render.GenerateDatasetFromConfig: requires the camera's frame to be valid at every resolution (`Render.ValidFrames`), not only at the resolutions the sweep reaches.
- Render.GenerateDatasetFromConfig: requires an axis, a camera and a light even for an empty snapshot list, where the source never touches them.
- Scene.ViewFrame: the frame is taken to depend on the render resolution only. Pixel aspect and lens edits are not modelled, and the camera's pose does not change it.
