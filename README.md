# Point-cloud viewer core

This project is a Dafny model of the interactive point-cloud viewer in `src/Data/FrameProcessor_2.py`
and its near twin `src/Data/FrameProcessor.py`. The viewer keeps a virtual camera made of:

- orbit angles `pitch` and `yaw`;
- a `translation`;
- a `distance` to the orbit pivot;
- three held-button flags and the last pointer position.

A mouse callback (`mouse_cb`) turns pointer, button and wheel events into camera updates. Each frame:

- `view` moves the cloud's vertices into camera space;
- `project` divides them by depth and clips them at the near plane;
- `pointcloud` optionally sorts them far-to-near (the painter's algorithm) and scatters texel colours
  into the output image;
- `line3d` draws one 3D segment, and `grid` draws a reference grid with it.

In `FrameProcessor_2.py`, `process` clears the image, draws the grid, the camera frustum and the
origin axes, and only then scatters the point cloud over them (src/Data/FrameProcessor_2.py:276-286);
only the pivot axes drawn while a button is held come after the cloud (:291-292).
`FrameProcessor.py`'s `process` draws no grid, frustum or origin axes: it scatters the cloud onto the
cleared image and then draws the pivot axes (src/Data/FrameProcessor.py:280-292).

The two files also differ in where the camera lives. `FrameProcessor_2.py` keeps it on the
processor object. `FrameProcessor.py` keeps it in a global `__State__`, which also carries a `paused`
flag. Their `mouse_cb`, `project`, `view`, `line3d`, `grid` and `pointcloud` compute the same
thing. The model follows `FrameProcessor.py`'s layout: the `ViewerState.State` object holds the camera
and `ViewerState.FrameProcessor` holds the 2D/3D mode flag. Each mutable object is also given a value:

- `ViewerState.Camera` is the camera as a datatype.
- Every method that updates a `State` in place is proved equal to a function on `Camera`.
- Those functions carry the properties, proved as lemmas.

Modules:

- `Geometry` (geometry.dfy): vectors, 3x3 matrices, numpy's `dot`, truncation and clipping.
- `ViewerState` (viewer_state.dfy): the camera, reset, pivot, rotation, view, the session defaults and
  the mode flag.
- `Interaction` (interaction.dfy): `mouse_cb`, as the function `MouseStep` and as the in-place method
  `MouseCallback`.
- `Projection` (projection.dfy): `project` with near clipping, and its inverse at a known depth.
- `Painter` (painter.dfy): `argsort()[::-1]` of the depths, as an insertion sort proved to give a
  descending permutation.
- `Raster` (raster.dfy): `pointcloud`, with its fragment pipeline and the in-place scatter into an
  `array2`.
- `Overlay` (overlay.dfy): `line3d` and `grid`, with a `Canvas` class that records each line request.

Conventions:

- Coordinates are real numbers.
- A projected point that `project` marks NaN is `None`.
- The library routines the viewer calls are parameters of type `MathLib`: the cosine and sine inside
  `cv2.Rodrigues`, and `math.sqrt`.

Points of the code's behaviour worth knowing, all modelled as written except the last, which is listed under Left out:

- A pointer move with no button held only records the pointer position
  (src/Data/FrameProcessor_2.py:31-54).
- The three button flags are not mutually exclusive. A move tests them in the order left, right,
  middle, and the first one held decides (:36-47, `Interaction.MoveStep`).
- The wheel step is `copysign(0.1, flags)`, so `flags == 0` moves forward (:49-52).
- The rotation is `Ry(yaw) · Rx(pitch)` (:219-223).
- `pointcloud` has no explicit test for NaN pixels: the points `project` marks NaN (:69) go through
  the `uint32` cast and the bounds mask (:158-163). The model drops them explicitly (see `PixelOf`
  under Left out).

## Model

| member | source | states |
|---|---|---|
| Geometry.VecMatKeepsNorm | src/Data/FrameProcessor_2.py:75 | turning by an orthonormal matrix keeps every vector's length |
| Geometry.Trunc | src/Data/FrameProcessor_2.py:84-85 | the float-to-int cast lands within one of its argument, rounding toward zero |
| Geometry.Clamp | src/Data/FrameProcessor_2.py:174-175 | the clip lands in [lo, hi], keeps values already inside, and sends values below lo to lo and above hi to hi |
| Geometry.Pow | src/Data/FrameProcessor_2.py:152-153 | a power of a positive base is positive |
| ViewerState.Camera.Reset | src/Data/FrameProcessor_2.py:215-217 | after reset the angles are 0, the distance is 2 and the pivot is (0, 0, 1); nothing but the angles, distance and translation changes |
| ViewerState.Camera.Pivot | src/Data/FrameProcessor_2.py:225-227 | the pivot lies exactly `distance` ahead of the translation along z |
| ViewerState.Camera.Rotation | src/Data/FrameProcessor_2.py:219-223 | the rotation is Ry(yaw) · Rx(pitch); RotationEntries gives its entries, RotationIsOrthonormal proves it orthonormal and LevelRotationIsIdentity proves it the identity at zero angles |
| ViewerState.RotX | src/Data/FrameProcessor_2.py:221 | the Rodrigues matrix of (a, 0, 0): the turn by a about x, written with the library's cos and sin; RotationEntries and RotationIsOrthonormal use it as the right-hand factor |
| ViewerState.RotY | src/Data/FrameProcessor_2.py:222 | the Rodrigues matrix of (0, a, 0): the turn by a about y; RotationEntries and RotationIsOrthonormal use it as the left-hand factor |
| ViewerState.Camera.View | src/Data/FrameProcessor_2.py:73-75 | view(v) is (v - pivot) · R + pivot - translation; ViewFixesPivot, ViewKeepsDistanceToPivot, LevelView and ResetView state what it does |
| ViewerState.Initial | src/Data/FrameProcessor.py:14-23 | the session starts with all buttons up, the pointer at (0, 0), a negative pitch and a yaw below it |
| ViewerState.InitialPivot | src/Data/FrameProcessor.py:15-17 | the session starts orbiting about (0, 0, 1) |
| ViewerState.ResetFromStart | src/Data/FrameProcessor.py:14-27 | the defaults already have the reset translation and distance: reset from the start only levels the angles |
| ViewerState.RotationEntries | src/Data/FrameProcessor_2.py:219-223 | the rows of Ry(yaw) * Rx(pitch) in terms of the cosines and sines of the two angles |
| ViewerState.RotationIsOrthonormal | src/Data/FrameProcessor_2.py:219-223 | the rotation is orthonormal whenever cos^2 + sin^2 = 1 holds at both angles |
| ViewerState.LevelRotationIsIdentity | src/Data/FrameProcessor_2.py:219-223 | with both angles zero the rotation is the identity |
| ViewerState.ViewFixesPivot | src/Data/FrameProcessor_2.py:73-75 | view sends the pivot to (0, 0, distance), whatever the angles |
| ViewerState.ViewKeepsDistanceToPivot | src/Data/FrameProcessor_2.py:73-75 | view is rigid about the pivot: it keeps every point's distance to the pivot |
| ViewerState.ViewWithoutRotation | src/Data/FrameProcessor.py:102-104 | with R = I, view(v) is v - translation |
| ViewerState.LevelView | src/Data/FrameProcessor_2.py:73-75 | with both angles zero, view(v) is v - translation |
| ViewerState.ResetView | src/Data/FrameProcessor_2.py:215-217 | after reset, view moves every point one unit forward in z and changes nothing else |
| ViewerState.State.constructor | src/Data/FrameProcessor.py:14-23 | a new state holds exactly the session defaults |
| ViewerState.State.Reset | src/Data/FrameProcessor.py:25-27 | resetting the object in place gives the reset of its old value |
| ViewerState.FrameProcessor.constructor | src/Data/FrameProcessor.py:211-215 | a new processor is in 2D mode with a fresh camera state at the defaults |
| ViewerState.FrameProcessor.Is2DMode | src/Data/FrameProcessor_2.py:196-197 | the 2D mode is the mode flag itself; Is3DMode is its complement and ChangeMode and the constructor say how it is set |
| ViewerState.FrameProcessor.Is3DMode | src/Data/FrameProcessor_2.py:196-200 | the 3D mode is exactly not the 2D mode |
| ViewerState.FrameProcessor.ChangeMode | src/Data/FrameProcessor_2.py:202-213 | an explicit 2D choice wins; otherwise the 3D mode becomes `image3D` |
| Interaction.Slot | src/Data/FrameProcessor_2.py:13-29 | every button has one of the three flag slots |
| Interaction.CopySign | src/Data/FrameProcessor_2.py:45-50 | copysign keeps the magnitude and takes the sign of its second argument, with 0 counting as positive |
| Interaction.DragDolly | src/Data/FrameProcessor_2.py:45 | the middle-drag step is sqrt(dx^2 + dy^2) / 100 with the sign of -dy (0 as +); where sqrt is a true square root, its square is (dx^2 + dy^2) / 10000 and it is non-negative exactly when dy <= 0 |
| Interaction.WheelDolly | src/Data/FrameProcessor_2.py:50 | the wheel step is +0.1 for non-negative flags and -0.1 otherwise |
| Interaction.Dolly | src/Data/FrameProcessor_2.py:46-47 | a dolly moves translation.z by dz and distance by -dz, keeps the pivot and changes nothing else |
| Interaction.MouseStep | src/Data/FrameProcessor_2.py:12-54 | every event leaves three flags and records the pointer position |
| Interaction.MoveStep | src/Data/FrameProcessor_2.py:31-47 | a move changes only the angles, translation and distance; with the left flag up the angles stay; with no flag held nothing changes |
| Interaction.Orbit | src/Data/FrameProcessor_2.py:36-38 | a drag across the whole width turns the yaw by 2 and across the whole height lowers the pitch by 2; nothing else changes |
| Interaction.PanOffset | src/Data/FrameProcessor_2.py:40-41 | the pan vector is the drag as a fraction of the screen width and height, with z = 0 |
| Interaction.Pan | src/Data/FrameProcessor_2.py:40-42 | the pan moves the translation back by R · PanOffset, so adding that vector restores the old translation; nothing else changes |
| Interaction.ButtonEventTouchesOneFlag | src/Data/FrameProcessor_2.py:13-29 | a button event sets (down) or clears (up) exactly its own flag; only that flag and the pointer position change |
| Interaction.OrbitMove | src/Data/FrameProcessor_2.py:36-38 | a move with the left flag held adds dx/w*2 to yaw and subtracts dy/h*2 from pitch, whatever the other flags; nothing else changes |
| Interaction.PanMove | src/Data/FrameProcessor_2.py:40-42 | a move with the right flag (not the left) held moves the translation back by R * (dx/w, dy/h, 0); nothing else changes |
| Interaction.DollyEvent | src/Data/FrameProcessor_2.py:44-52 | a middle drag or a wheel event changes only translation.z and distance, by the drag or wheel step and its opposite; the pivot stays put |
| Interaction.WheelStep | src/Data/FrameProcessor_2.py:49-52 | a wheel event moves the camera exactly 0.1 forward or back, by the sign of flags |
| Interaction.IdleMove | src/Data/FrameProcessor_2.py:31-47 | a move with no flag held only records the pointer position |
| Interaction.AnglesChangeOnlyOnOrbit | src/Data/FrameProcessor_2.py:31-54 | only a move with the left flag held can change pitch or yaw |
| Interaction.Replay | src/Data/FrameProcessor_2.py:12-54 | after a run of events the pointer position is that of the last event |
| Interaction.NoLeftPressKeepsAngles | src/Data/FrameProcessor_2.py:12-54 | with the left button up and never pressed, no run of events changes the angles |
| Interaction.WheelsKeepPivot | src/Data/FrameProcessor_2.py:49-52 | any run of wheel events keeps the pivot and the angles |
| Interaction.MouseCallback | src/Data/FrameProcessor.py:40-82 | the in-place callback leaves the state equal to MouseStep of the old state |
| Interaction.Press | src/Data/FrameProcessor.py:41-57 | a button branch changes only its own flag |
| Interaction.Drag | src/Data/FrameProcessor.py:59-75 | the move branch leaves the state equal to the orbit, pan or dolly the flags select |
| Interaction.DollyBy | src/Data/FrameProcessor.py:72-80 | the dolly branches leave the state equal to Dolly of the old state |
| Projection.Project | src/Data/FrameProcessor_2.py:57-70 | a point has no image exactly when it is nearer than 0.03; otherwise its image is the closed-form perspective formula |
| Projection.Pinhole | src/Data/FrameProcessor_2.py:64-65 | the image of a point is (x/z · w · (h/w) + w/2, y/z · h + h/2); ProjectIsPerspective, AxisProjectsToCentre and the round trips with Unproject are proved about it |
| Projection.Unproject | src/Data/FrameProcessor_2.py:64-65 | the point recovered from a pixel lies at the requested depth |
| Projection.ProjectIsPerspective | src/Data/FrameProcessor_2.py:64-65 | every visible point satisfies (pixel - centre) * z = coordinate * h in both axes |
| Projection.AxisProjectsToCentre | src/Data/FrameProcessor_2.py:64-65 | points on the optical axis land on the image centre |
| Projection.UnprojectProject | src/Data/FrameProcessor_2.py:57-70 | a visible point is recovered from its pixel and its depth |
| Projection.ProjectUnproject | src/Data/FrameProcessor_2.py:57-70 | every pixel is the image of the point unprojected from it at any depth past the near plane |
| Projection.RayProjectsToOnePixel | src/Data/FrameProcessor_2.py:64-65 | all visible points on one ray through the eye share a pixel |
| Painter.Insert | src/Data/FrameProcessor_2.py:147 | inserting into a descending index list keeps it descending and adds exactly the new index |
| Painter.SortPrefix | src/Data/FrameProcessor_2.py:147 | the first n indices come out descending by depth, as a permutation of 0 .. n-1 |
| Painter.ArgsortDescending | src/Data/FrameProcessor_2.py:147 | argsort()[::-1] is a permutation of all indices along which the depths never increase |
| Painter.Permute | src/Data/FrameProcessor_2.py:148 | fancy indexing a[s] puts a[s[k]] at position k |
| Painter.PermutationVisitsAll | src/Data/FrameProcessor_2.py:147 | a permutation of 0 .. n-1 has n entries, all below n, each index exactly once |
| Raster.ScaleFactor | src/Data/FrameProcessor_2.py:152-153 | the scale is positive, and 1 when scaling is off or the decimation is 0 |
| Raster.PixelOf | src/Data/FrameProcessor_2.py:155-163 | a point without image writes nothing; a written pixel is inside the output and within one of the scaled point; every scaled point inside the output is written |
| Raster.CellAt | src/Data/FrameProcessor_2.py:158-163 | a kept cell is inside the image and is the truncation toward zero of its position: at most the position and within one below it when the position is non-negative, 0 when it lies in (-1, 0); every position inside the image is kept |
| Raster.TexelOf | src/Data/FrameProcessor_2.py:165-175 | the texel is always inside the colour image, is the rounded texture position when that is inside, and is the last row or column when the position is past the edge |
| Raster.TexelCorners | src/Data/FrameProcessor_2.py:168-175 | texture coordinate (0, 0) samples the first texel and (1, 1) the last |
| Raster.ViewAll | src/Data/FrameProcessor_2.py:146 | every vertex is moved by view, in place of its index |
| Raster.Depths | src/Data/FrameProcessor_2.py:147 | the depths are the view-space z coordinates, index by index |
| Raster.VisitOrder | src/Data/FrameProcessor_2.py:141-150 | the orders argsort may return: a permutation of all indices, never from nearer to farther with the painter, and the input order without it; equal depths may come in any order |
| Raster.Order | src/Data/FrameProcessor_2.py:141-150 | the insertion sort's order (or the input order) is one of the orders VisitOrder allows |
| Raster.FragmentOf | src/Data/FrameProcessor_2.py:155-175 | one point's fragment is the masked pixel of its scaled projection and the clamped texel of its texture coordinate; FragmentsInBounds bounds both |
| Raster.Fragments | src/Data/FrameProcessor_2.py:141-175 | for any visiting order s, the k-th fragment takes its pixel and its texel from the same original index s[k], so vertex and texcoord stay paired |
| Raster.FragmentsInBounds | src/Data/FrameProcessor_2.py:155-175 | every pixel written is inside the output and every texel read is inside the colour image |
| Raster.LastHit | src/Data/FrameProcessor_2.py:178 | the last fragment that writes a cell, with no later one writing it; none when no fragment writes it |
| Raster.LastHitStep | src/Data/FrameProcessor_2.py:178 | one more fragment becomes the last writer of its own cell and of no other |
| Raster.Painted | src/Data/FrameProcessor_2.py:178 | a cell ends with its last writer's texel colour, or its old colour when no fragment writes it; Scatter and PointCloud leave every cell so |
| Raster.Scatter | src/Data/FrameProcessor_2.py:178 | after the scatter, every pixel holds its last writer's texel colour, and a pixel no fragment hits keeps its old colour |
| Raster.PointCloud | src/Data/FrameProcessor_2.py:139-179 | for every visiting order argsort may return, pointcloud leaves each output pixel with the colour of the last visited point that hits it, or its old colour |
| Raster.NearestPointWins | src/Data/FrameProcessor_2.py:141-148 | with the painter, and whatever order argsort gives equal depths, the point that survives at a pixel is no deeper than any other point that lands there |
| Raster.InputOrderWins | src/Data/FrameProcessor_2.py:149-150 | without the painter, the point that survives at a pixel is the last one in input order that lands there |
| Overlay.PointOf | src/Data/FrameProcessor_2.py:84-85 | the integer pixel is within one of the projected point in both axes |
| Overlay.SegmentStroke | src/Data/FrameProcessor_2.py:78-89 | a segment is dropped exactly when an end is nearer than 0.03; otherwise the request joins the truncated images of its ends in the given colour and thickness |
| Overlay.DrawSegments | src/Data/FrameProcessor_2.py:92-104 | drawing segments requests at most one line per segment |
| Overlay.Offset | src/Data/FrameProcessor_2.py:95-98 | the i-th line's offset is -size/2 + i · size/n; OffsetsSpanGrid proves the offsets run from -size/2 to size/2 in n equal steps |
| Overlay.Place | src/Data/FrameProcessor_2.py:99-104 | the grid-plane point (u, 0, w) placed in the world; PlaneRows proves it equals pos + dot((u, 0, w), rotation) |
| Overlay.GridSegments | src/Data/FrameProcessor_2.py:92-104 | the grid's segments, first family then second; GridSegmentsAt gives their number and each line's offset |
| Overlay.ZLines | src/Data/FrameProcessor_2.py:97-100 | the first k lines of the first family are k segments |
| Overlay.XLines | src/Data/FrameProcessor_2.py:101-104 | the first k lines of the second family are k segments |
| Overlay.GridSegmentsAt | src/Data/FrameProcessor_2.py:92-104 | grid issues 2(n + 1) lines: the i-th of each family at offset -size/2 + i * size/n, first family first |
| Overlay.ZLinesAt | src/Data/FrameProcessor_2.py:97-100 | the i-th line of the first family sits at offset -size/2 + i * size/n |
| Overlay.XLinesAt | src/Data/FrameProcessor_2.py:101-104 | the i-th line of the second family sits at offset -size/2 + i * size/n |
| Overlay.OffsetsSpanGrid | src/Data/FrameProcessor_2.py:95-98 | the offsets run from -size/2 to size/2 in n equal steps of size/n |
| Overlay.PlaneRows | src/Data/FrameProcessor_2.py:99-100 | a placed grid point is pos + dot((u, 0, w), rotation) |
| Overlay.AlongZSpansGrid | src/Data/FrameProcessor_2.py:97-100 | every first-family line spans size times the rotated z axis |
| Overlay.AlongXSpansGrid | src/Data/FrameProcessor_2.py:101-104 | every second-family line spans size times the rotated x axis |
| Overlay.AlongZHasGridSize | src/Data/FrameProcessor_2.py:97-100 | with an orthonormal rotation every first-family line is exactly size long |
| Overlay.AlongXHasGridSize | src/Data/FrameProcessor_2.py:101-104 | with an orthonormal rotation every second-family line is exactly size long |
| Overlay.DrawOneMore | src/Data/FrameProcessor_2.py:78-89 | drawing one more segment appends its request, if any |
| Overlay.DrawAppend | src/Data/FrameProcessor_2.py:92-104 | drawing two runs of segments requests the first run's lines, then the second's |
| Overlay.CountVisible | src/Data/FrameProcessor_2.py:82-83 | at most every segment is visible |
| Overlay.DrawnStrokes | src/Data/FrameProcessor_2.py:78-89 | exactly the visible segments are drawn, one request each, all in the requested colour and thickness |
| Overlay.CountVisibleBounds | src/Data/FrameProcessor_2.py:82-83 | all segments are drawn when all are visible, none when none is |
| Overlay.Canvas.Line3d | src/Data/FrameProcessor_2.py:78-89 | line3d appends the segment's request to the log, or nothing when an end has no image |
| Overlay.Canvas.Grid | src/Data/FrameProcessor_2.py:92-104 | grid appends the requests of its first family, then of its second, each line through the view |
| Overlay.Canvas.ZFamily | src/Data/FrameProcessor_2.py:97-100 | the first loop appends the requests of all n + 1 first-family lines, in order |
| Overlay.Canvas.XFamily | src/Data/FrameProcessor_2.py:101-104 | the second loop appends the requests of all n + 1 second-family lines, in order |
| Overlay.GridStrokes | src/Data/FrameProcessor_2.py:92-104 | grid's requests are those of all its segments in drawing order |
| Overlay.ZLineAt | src/Data/FrameProcessor_2.py:98-100 | the line the first loop computes at step i is the i-th first-family line |
| Overlay.XLineAt | src/Data/FrameProcessor_2.py:102-104 | the line the second loop computes at step i is the i-th second-family line |
| Overlay.ZStep | src/Data/FrameProcessor_2.py:97-100 | one step of the first loop requests exactly the next first-family line |
| Overlay.XStep | src/Data/FrameProcessor_2.py:101-104 | one step of the second loop requests exactly the next second-family line |

## Left out

- `frustum` (src/Data/FrameProcessor_2.py:117-136) is not modelled: its corners come from RealSense's `rs2_deproject_pixel_to_point`, which the model cannot see.
- `axes` (src/Data/FrameProcessor_2.py:107-114) is not modelled. It is three `line3d` calls, and `Canvas.Line3d` covers each of them.
- `process()` is not modelled: frame acquisition, decimation, colourising, the resize-and-`putmask` composite and timing are calls into RealSense, OpenCV and the clock. The GUI, the entry script and the commented-out main loop are not part of this model.
- All arithmetic is on reals. The source's float32 rounding of the rotation, the translation and the projected points is not modelled.
- `cv2.Rodrigues` and `math.sqrt` are opaque: their cosines, sines and square roots enter as a `MathLib` value. Properties that need trigonometry state it as a precondition (cos^2 + sin^2 = 1, or cos 0 = 1 and sin 0 = 0).
- Canvas.Line3d: records the request it hands to `cv2.clipLine`. Clipping the line to the image and the anti-aliased drawing by `cv2.line` are left out.
- Overlay.Canvas.Grid: requires n != 0. For n == 0 the source raises ZeroDivisionError at src/Data/FrameProcessor_2.py:95; its only caller passes n = 10 (:278). It takes the camera's `view` as a function parameter. Its two loops are the methods `ZFamily` and `XFamily`, and its result is stated family by family; `GridStrokes` joins them into one sequence.
- Interaction.MouseCallback: its button, move and dolly branches are the methods `Press`, `Drag` and `DollyBy`.
- PixelOf: a point nearer than 0.03, or whose scaled coordinate is at or below -1 or at or above 2^32 (past any output image's edge), writes nothing. In (-1, 0) the source's `astype(np.uint32)` (src/Data/FrameProcessor_2.py:158) truncates to 0, as the model does, and on [0, 2^32) both truncate; the bounds mask then keeps the same pixels. For NaN and for values outside (-1, 2^32) the cast is platform-defined (NaN and values at or below -1 may saturate to 0, and the point is written at row or column 0; values at or above 2^32 saturate to 4294967295, which the mask at :161-163 drops; a wrapping cast may bring either back into range); the model drops such points.
- TexelOf: a shifted texture position at or below -1 is clamped to the first texel, and one at or above 2^32 to the last. What the source's `astype(np.uint32)` (:170-172) returns there is platform-defined (a saturated integer, which the clip at :174-175 sends to the first or the last texel, or a wrapped one, which lands on the last texel for positions at or below -1 and on any texel for positions at or above 2^32); the model takes saturation. In (-1, 2^32) the cast truncates, as the model does.
- ArgsortDescending: among points of equal depth the insertion sort picks one order, where numpy's unstable `argsort` may pick another. `PointCloud` and `NearestPointWins` therefore take the visiting order as a parameter and hold for every order `VisitOrder` allows; the insertion sort only shows that one exists.
- Scatter: takes numpy's fancy-index assignment with repeated indices as sequential, so the last write wins. Every texel colour is gathered before the first write, as numpy evaluates the right-hand side first.
- The `FrameProcessor` fields `camera` and `pc` (the RealSense device and its point-cloud calculator, src/Data/FrameProcessor.py:211-216) are left out: only `process` uses them. The `paused`, `decimate`, `scale` and `color` options are plain fields of `Camera`; nothing in the core changes them.
- ViewerState.FrameProcessor: each processor owns its `State`, as in src/Data/FrameProcessor_2.py. In src/Data/FrameProcessor.py:213-215 every new processor rebinds the module-global `__state__`, which `mouse_cb`, `view` and `pointcloud` read, so all processors share the state of the most recently built one; that sharing is not modelled.
- Mouse events other than the six button events, move and wheel are the single event `Other`. The size of the output image is a `Screen` value passed to the callback, where the source reads it from a global image. That global is `out = 0` until the first frame (src/Data/FrameProcessor.py:9) and `__out__` is bound only inside `process` (src/Data/FrameProcessor_2.py:250-251), so a move event before the first 3D frame raises AttributeError (src/Data/FrameProcessor.py:61) or NameError (src/Data/FrameProcessor_2.py:33); the model, which requires a valid `Screen`, does not show that crash.
