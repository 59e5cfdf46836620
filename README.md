# Bench measurement annotator: calibration and measurement core

The application lets a user photograph a bench with ArUco markers and draw
boxes and measurement lines on the photograph. A line is measured in
millimetres through three steps:

1. A pixels-per-millimetre scale, from one of three sources: the markers'
   apparent size, a top-down rectification of the photographed plane, or a
   line whose true length the user declares.
2. A linear depth correction `mm * (alpha + beta * y)`.
3. The correction pair `(alpha, beta)` is fitted to two reference lines that
   span the same face at different image heights.

The project models two parts of this.

**The measurement session (`App.Canvas`, canvas.dfy).** This is the
annotation canvas with its rendering removed. It is a class whose fields are:

- the scale;
- the correction pair;
- the face height;
- the last line length;
- a cache of at most two reference lines;
- the stored shapes;
- a parallel stack of scene groups used for undo.

Its methods are load, the two mouse-release paths (`AddBox`, `AddLine`),
undo, marker scale detection, top-down rectification, single-line
calibration and two-line depth calibration. Each method states its whole new
state and preserves the session invariant `Valid()`:

- there is one scene group per shape (a scene group never becomes
  invalid here; see `App.Canvas.Undo` under "## Left out");
- the cache holds at most two entries;
- every stored shape passed its 5-pixel threshold.

The pure formulas these methods use are in `Shapes` (shapes.dfy): the shape
records, the correction, the cache truncation, the two-line fit and the
per-shape rewrites of the two calibrations.

**The ArUco helpers (`ArucoUtils`, aruco_utils.dfy).** These are:

- the scale estimate, the mean over markers of each marker's mean side
  length over the physical marker size, computed by a loop as in the source;
- the ordering of four marker centers into top-left, top-right,
  bottom-right, bottom-left;
- the rectification plan: the first four markers, the output size as the
  ceiling of the longer opposite sides, and the destination corners.

Marker detection is an input, a `Detection` value. The homography and the
warp are represented by the plan they are computed from.

The Euclidean length (numpy's `hypot` and `linalg.norm`, Qt's
`QLineF.length`) is a function-valued collaborator `Hypot` (geometry.dfy).
The canvas holds it as a constant. A lemma that needs its values requires
only what it uses: `NonNegative`, `IsHypot` (non-negative with square
`dx*dx + dy*dy`), or the one value its scenario measures. All quantities
are exact reals.

Two behaviours of the code are worth stating outright, and the model
keeps both:

- **Undo keeps the reference-line cache.** Undo removes the last shape and
  its scene group (when the group's items are still in the scene; see
  "## Left out") but not the undone line's entry in the reference-line
  cache (app/app.py:167-170). `App.MeasurementSession` shows the stale
  entry.
- **Rectification can leave the scale absent.** `rectify_topdown` adopts
  the scale re-detected on the warped image even when that scale is `None`
  (app/app.py:184).

## Model

| member | source | states |
|---|---|---|
| Geometry.Ceil | app/lib/aruco_utils.py:59 | `int(ceil(r))` is the least integer not below `r`: `r <= n < r + 1` |
| Geometry.Max | app/lib/aruco_utils.py:57-58 | the larger of two lengths bounds both and is one of them |
| Geometry.SumConstant | app/lib/aruco_utils.py:30 | a sum of `n` copies of `c` is `n * c` (by induction) |
| Geometry.MeanConstant | app/lib/aruco_utils.py:30 | the mean of a constant sequence is that constant |
| Geometry.SumPositive | app/lib/aruco_utils.py:28-30 | a non-empty sum of positive values is positive (by induction) |
| Geometry.SumNonNegative | app/lib/aruco_utils.py:28-30 | a sum of non-negative values is non-negative (by induction) |
| ArucoUtils.ArucoScale | app/lib/aruco_utils.py:16-30 | the value of `detect_aruco_scale`: absent exactly when there are no ids or no corners; otherwise the per-marker estimates sum to the value times the marker count, so the value is their mean |
| ArucoUtils.MeanOfSides | app/lib/aruco_utils.py:21-29 | one marker's estimate is the sum of its four wrap-around sides over 4, over the marker size |
| ArucoUtils.DetectArucoScale | app/lib/aruco_utils.py:11-30 | returns `(None, [], [])` exactly when there are no ids or no corners; otherwise returns the detected corners and ids and a present scale equal to the mean of the per-marker estimates (loop invariant: the accumulated values are the per-marker estimates) |
| ArucoUtils.UniformMarkersScale | app/lib/aruco_utils.py:19-30 | markers whose four sides all measure `S` give exactly `S / marker_size_mm` |
| ArucoUtils.ScalePositive | app/lib/aruco_utils.py:19-30 | positive sides and a positive marker size give a present, positive scale |
| ArucoUtils.ScaleNonNegative | app/lib/aruco_utils.py:19-30 | with a non-negative length the scale is never negative |
| ArucoUtils.SingleMarkerScenario | app/lib/aruco_utils.py:11-30 | one 60 mm marker seen as a 120-pixel square gives 2 px/mm |
| ArucoUtils.Centers | app/lib/aruco_utils.py:34 | one center per marker, each the mean of its four corners |
| ArucoUtils.InsertByYPermutation | app/lib/aruco_utils.py:36 | inserting into the y-ordering adds exactly the inserted point |
| ArucoUtils.InsertByYSorted | app/lib/aruco_utils.py:36 | inserting keeps a sequence ordered by y |
| ArucoUtils.SortByYSorts | app/lib/aruco_utils.py:36 | the stable y-ordering of the centers is a rearrangement of them and is ordered by y |
| ArucoUtils.OrderPairByX | app/lib/aruco_utils.py:39-40 | each pair comes out in ascending x and is the same two points |
| ArucoUtils.QuadPermutation | app/lib/aruco_utils.py:37-41 | reassembling the two ordered pairs `[tl, tr, br, bl]` keeps the four points and keeps the top pair above the bottom pair |
| ArucoUtils.OrderCentersArranges | app/lib/aruco_utils.py:32-41 | the ordered centers are a permutation of the input; TL and TR lie no lower than BR and BL; TL.x <= TR.x and BL.x <= BR.x |
| ArucoUtils.OrderCentersTlTrBrBl | app/lib/aruco_utils.py:32-41 | `_order_centers_tl_tr_br_bl`: four markers give four ordered centers; what that order is, is stated by `OrderCentersTlTrBrBlArranges` and `MarkerOrderIrrelevant` |
| ArucoUtils.OrderCentersTlTrBrBlArranges | app/lib/aruco_utils.py:32-41 | `OrderCentersArranges` over the centers of four markers: the result is a rearrangement of the four markers' centers; TL and TR lie no lower than BR and BL; TL.x <= TR.x and BL.x <= BR.x |
| ArucoUtils.DistinctHeightsPermutation | app/lib/aruco_utils.py:36 | distinct heights survive rearrangement |
| ArucoUtils.SortedUnique | app/lib/aruco_utils.py:36 | with distinct heights there is one y-ordering of a given set of points (by induction) |
| ArucoUtils.OrderCentersIndependentOfInputOrder | app/lib/aruco_utils.py:32-41 | with distinct heights, any rearrangement of the four centers gives the same TL, TR, BR, BL |
| ArucoUtils.CentersPermutation | app/lib/aruco_utils.py:34 | rearranging markers rearranges their centers (by induction) |
| ArucoUtils.MarkerOrderIrrelevant | app/lib/aruco_utils.py:32-41 | the detection order of four markers does not change the ordered centers when their centers have distinct heights |
| ArucoUtils.OutputSize | app/lib/aruco_utils.py:56-59 | `w` is at least both horizontal sides and `w - 1` is below their maximum; likewise `h` for the vertical sides |
| ArucoUtils.DestinationCorners | app/lib/aruco_utils.py:60 | the destination is (0,0), (w-1,0), (w-1,h-1), (0,h-1) in that order |
| ArucoUtils.WarpPlanFor | app/lib/aruco_utils.py:54-60 | the plan's source is the ordered centers, its size is their output size, its destination is those corners |
| ArucoUtils.RectifyTopdownWithAruco | app/lib/aruco_utils.py:43-67 | absent exactly when there are no ids or fewer than 4 markers; otherwise the plan of the first four markers and the scale re-detected on the warped image |
| ArucoUtils.RectifyUsesFirstFourMarkers | app/lib/aruco_utils.py:52-53 | markers detected after the fourth do not change the result |
| Shapes.Corrected | app/app.py:94-96 | the identity correction `(1, 0)` leaves a length unchanged, and a zero length stays zero |
| Shapes.BaseMm | app/app.py:134 | present exactly when the scale is truthy, and then it times the scale is the pixel length |
| Shapes.NewLine | app/app.py:131-135 | a stored line keeps label and points; its mm length is present exactly when the scale is truthy and then maps back to its pixel length; its corrected length is present exactly with it and is the correction at the mid-height; it is stamped with the current face height |
| Shapes.KeepLastTwo | app/app.py:138-141 | the cache keeps at most two entries, and they are the last ones appended |
| Shapes.FitDepthCorrection | app/app.py:211-216 | with `m1*m2*(y2-y1) != 0` the fitted `(a, b)` makes both reference lines measure the true width |
| Shapes.CramerSolves | app/app.py:212-215 | Cramer's solution of the 2x2 system satisfies both equations |
| Shapes.CorrectionDeterminedByTwoLines | app/app.py:212-215 | two corrections that agree on two lines with a non-zero determinant are equal, so the fit has one solution |
| Shapes.FitRecoversModel | app/app.py:211-216 | reference lines that a known `(alpha, beta)` maps to the true width give back that `(alpha, beta)` |
| Shapes.Recalibrated | app/app.py:193-200 | a box is kept as is; a line keeps label, points and face height, gets mm length = pixel length / new scale, and gets that length corrected at its mid-height |
| Shapes.RecalibratedMeasuresKnownLength | app/app.py:189-199 | after calibrating on a line of `L` pixels declared `k` mm, every line of `L` pixels measures exactly `k` |
| Shapes.RecalibratedAccepted | app/app.py:193-200 | the rewrite keeps a stored shape acceptable |
| Shapes.Refitted | app/app.py:221-227 | only lines with a mm length change, and only their corrected length (at their mid-height) and face height |
| Shapes.RefittedReferenceLineMeasuresTrueWidth | app/app.py:211-227 | after a fit with a non-zero determinant, a stored line at a reference height with that reference's mm length measures the true width |
| App.Canvas.constructor | app/app.py:22-41 | the first label (or "") is current; no image, no scale, no shapes, an empty cache, identity correction, no face height |
| App.Canvas.Load | app/app.py:44-51 | a full reset (shapes, stack, scale, last line, cache, correction, face height) with the new image and path; labels untouched |
| App.Canvas.AddBox | app/app.py:117-161 | with no image, or a side not above 5, nothing changes; otherwise the box is appended with its scene group, and nothing else changes |
| App.Canvas.AddLine | app/app.py:117-161 | with no image, or a length not above 5, nothing changes; otherwise the length is remembered and the line record and its group are appended; the cache changes only when the line has a mm length, and then ends with that line's `(ymid, base_mm)` and keeps its last two entries |
| App.Canvas.Undo | app/app.py:167-170 | with no shapes nothing changes; otherwise exactly the last shape and group go, and the scale, the last line and the cache are untouched |
| App.Canvas.DetectScale | app/app.py:172-177 | with no image nothing changes; otherwise a truthy detected scale is adopted and returned, and a falsy one leaves the scale and returns absent; shapes never change |
| App.Canvas.RectifyTopdown | app/app.py:179-185 | with no image or fewer than four markers nothing changes; otherwise the image is warped by the first-four-markers plan and the re-detected scale is adopted and returned; shapes never change |
| App.Canvas.CalibrateFromLastLine | app/app.py:187-202 | with a falsy last line or a non-positive length nothing changes; otherwise the scale is last line / known length, every shape is recalibrated in place (loop invariant), any line of the last line's length measures the known length, and the correction is unchanged |
| App.Canvas.CalibrateDepthTwoLines | app/app.py:204-229 | with fewer than two cached lines or a falsy scale nothing changes; otherwise the fitted pair is stored and returned, the face height is set, each shape is refitted in place (loop invariant), and with a non-zero determinant both reference lines measure the true width |
| App.CalibratedSession | app/app.py:44-202 | loading, drawing a 300-pixel line with no scale, drawing a too-narrow box and declaring the line 150 mm leaves 2 px/mm, one line measuring exactly 150 mm, and an empty reference cache |
| App.MeasurementSession | app/app.py:117-170 | drawing the line again after that calibration and undoing it ends at 2 px/mm with the one 150 mm line and a reference cache that still holds the undone line |

## Left out

- Qt rendering is not modelled: the scene, pens, brushes, the preview in `mousePressEvent`/`mouseMoveEvent`, `wheelEvent`, `set_tool` and the `Main` window. A scene group is an opaque `Group` token. The press handler's requirement that an image is shown is the `image.Some?` guard of `AddBox` and `AddLine`.
- The display text of measurements and `to_json` are not modelled, because they only format or project the state.
- Image files and pixels are not modelled. `load` records the path; `replace_with_np` and the warp are recorded as `Image.Warped(source, plan)`.
- OpenCV is not modelled. Marker detection is the `Detection` input (in `DetectScale`, `RectifyTopdown` and `ArucoUtils`). `getPerspectiveTransform` and `warpPerspective` are represented only by the `WarpPlan` they consume.
- Floating-point rounding and float32 storage of the centers are not modelled. All quantities are exact reals, and square roots appear only through the `Hypot` collaborator.
- App.Canvas.AddLine: takes the end points and computes the length with the canvas's `hypot`, not a separate length input. The later single-line calibration recomputes lengths from the stored points, so using one length function for both keeps the model consistent.
- Shapes.FitDepthCorrection: when the determinant is zero, the function gives the minimum-norm solution `A^T t / |A|^2` (or `(0, 0)` for the zero matrix), as `lstsq` would in exact arithmetic. Nothing is proved about that case.
- ArucoUtils.SortByYSorts: the model sorts the centers by y with a stable sort. This order for equal heights is the model's own choice. The source's `argsort` uses numpy's default kind, which is not documented as stable and can take a SIMD path for float32, so the source's order for centers of equal height is unspecified. That is why `OrderCentersIndependentOfInputOrder` and `MarkerOrderIrrelevant` require the centers to have distinct heights. `OrderPairByX` likewise keeps a pair in input order when its x values tie; the source does not fix that order either.
- App.Canvas.DetectScale: requires `markerMm > 0`, which the marker-size input guarantees. A zero size would divide by zero in the source.
- App.Canvas.RectifyTopdown: requires `markerMm > 0` for the same reason. Stored shapes keep their pre-warp coordinates, as in the source.
- App.Canvas.Undo: the model's scene groups stay valid forever, so undo always removes both the last group and the last shape. In the source, `rectify_topdown` replaces the image through `replace_with_np`, whose `scene.clear()` deletes every scene item, including those held in the undo stack (app/app.py:60, app/app.py:183). A later `undo` pops the group and then raises on `removeItem` of a deleted item before `shapes.pop()` runs (app/app.py:169-170). After a rectification the source therefore keeps the shape, shortens the stack by one and loses the one-group-per-shape correspondence; the model does not capture this.
- App.Canvas.CalibrateFromLastLine: leaves the reference-line cache unchanged, as the source does. Cached `base_mm` values therefore keep the old scale.
