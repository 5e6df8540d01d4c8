# Face-centering virtual zoom — a Dafny model

The system reads webcam frames and keeps the user's face centred by cropping
("virtual zoom"). It has a per-frame pipeline with four parts:

- A **tracker** (`FaceTracker`) is asked first on a 640-pixel-wide
  processing copy of the frame.
- When tracking does not succeed, a **detector** (`FaceDetector.detect`) runs.
  It keeps the first largest face box after clamping every candidate into the
  image. The tracker is then re-initialised from that box.
- The chosen box is **rescaled** to full resolution.
- The rescaled box goes to a **zoom controller** (`ZoomController`). It keeps
  a smoothed face box, updated by an exponential moving average (EMA). From
  that box it derives an integer crop window: sized from the larger face side
  plus a margin, with the frame's aspect ratio, centred on the face and
  shifted into the frame.

Modules:

- `Boxes` (boxes.dfy) holds the shared value types. `Box` is an integer pixel
  box, `RealBox` its real-valued twin, and `View` is either `FullFrame` or
  `Crop(x1, y1, x2, y2)`. `Trunc` is Python's `int()` on a float, which
  truncates toward zero.
- `Zoom` (zoom.py) has the `ZoomController` class with the field `current`
  (the smoothed box). Its `Process` method folds one target into that field
  and computes the view. The pure functions it is specified by are `Smooth`,
  `Feed`, `CropRect`, `Window` and `CropView`. The lemmas cover:
  - the EMA algebra;
  - geometric convergence to a constant target;
  - that a lost face does not disturb the state;
  - the crop geometry.
- `Detector` (detector.py) has the selection loop `DetectLargest`, a method
  with a loop invariant. It is proved against the predicate `IsFirstLargest`,
  and that predicate is shown to have a unique answer. The module also holds
  the loop exactly as written (`ScanAsWritten`), for the finding below.
- `Tracker` (tracker.py) has the `FaceTracker` class, active or inactive, and
  its `Backend` object. The backend's answer `(success, box)` to an update is
  a parameter of `Update`.
- `Pipeline` (main.py) has the per-frame `Step` over a `FaceTracker` and a
  `ZoomController`. The tracker backend's answer and the face model's raw
  boxes are inputs. `ThreeFrames` runs three frames of `Step` as a verified
  client.

Arithmetic is over `real`. Python's `int()` on floats is `Trunc`.

## Model

| member | source | states |
|---|---|---|
| Boxes.Trunc | zoom.py:89-90 | `int()` of a float truncates toward zero: for r >= 0 the result n has n <= r < n + 1; for r < 0 it has n - 1 < r <= n |
| Boxes.Max | zoom.py:55 | the maximum of two sides is at least each and equals one of them |
| Boxes.TruncBox | tracker.py:40 | `tuple(map(int, bbox))`: each coordinate keeps its sign (or becomes 0) and loses less than one unit of magnitude, toward zero |
| Boxes.ToReal | zoom.py:36-37 | turning the integer target into floats is exact: truncating it back gives the same box |
| Zoom.ZoomController.constructor | zoom.py:5-15 | stores the smoothing and margin factors (defaults 0.2 and 0.5); no smoothed box yet |
| Zoom.ZoomController.Reset | zoom.py:17-19 | forgets the smoothed box; the factors are constants and cannot change |
| Zoom.ZoomController.Process | zoom.py:31-45 | the new state is `Feed` of the old state and the target; no target gives the full frame with the state kept; with a target the state is present and the view is `CropView` of it |
| Zoom.ZoomController.CropWindow | zoom.py:48-97 | the centre, crop size, aspect widening, shift clamp, truncation, clip and fallback, done step by step, give exactly `CropView` |
| Zoom.Smooth | zoom.py:39-45 | the first sample is taken verbatim |
| Zoom.SmoothDeviation | zoom.py:42-45 | a later sample gives new - target == (1 - alpha)(old - target) componentwise; alpha = 1 gives the target itself |
| Zoom.SmoothStaysBetween | zoom.py:44-45 | with 0 <= alpha <= 1 each component lands between its old value and the target |
| Zoom.Feed | zoom.py:31-45 | a missing target leaves the state as it was; a target on an empty state becomes the state exactly; any target leaves a state present |
| Zoom.LossPersistence | zoom.py:31-34 | over any run of frames, the frames without a face can be dropped without changing the final smoothed box |
| Zoom.ConstantTargetConverges | zoom.py:42-45 | after n frames of the same target the deviation from it is (1 - alpha)^n times the initial deviation |
| Zoom.FirstSampleHeld | zoom.py:39-45 | from an empty state, n >= 1 frames of the same target leave exactly that target |
| Zoom.ClampAxis | zoom.py:73-86 | the shifted start is >= 0; a crop no longer than the frame ends inside it; a longer one starts at 0; an already-inside crop is not moved; a crop past an edge is shifted flush against it |
| Zoom.ShiftIntoFrame | zoom.py:73-86 | the six conditional shifts, in the program's order, compute `ClampAxis` on each axis |
| Zoom.CropRect | zoom.py:51-86 | the real crop rectangle after the shift clamp: its corner is non-negative; a rectangle no wider (higher) than the frame ends inside it; a wider (higher) one starts at 0 |
| Zoom.CropRectGeometry | zoom.py:51-86 | crop height is max(w, h)(1 + margin); width/height equals the frame's aspect ratio; with no shift the crop is centred on the face |
| Zoom.Window | zoom.py:89-97 | a crop returned satisfies 0 <= x1 < x2 <= imgW and 0 <= y1 < y2 <= imgH; its near corner is the truncated real corner; its far corner does not pass the real one |
| Zoom.CropView | zoom.py:48-97 | every crop returned lies inside the frame and is non-empty |
| Zoom.CropViewNonEmpty | zoom.py:89-97 | a crop rectangle at least one pixel wide and high always gives a crop, never the fallback |
| Zoom.CropViewDegenerate | zoom.py:96-97 | a crop rectangle of zero or negative size gives the full-frame fallback |
| Zoom.CropViewEdges | zoom.py:89-94 | an oversize crop becomes the whole width (height) of the frame; a fitting one loses less than one pixel at its far edge |
| Detector.ClampToImage | detector.py:44-48 | a negative corner coordinate is raised to 0 and a non-negative one kept; sides only shrink; a side is kept when it fits and otherwise cut to end at the far edge |
| Detector.DetectLargest | detector.py:27-55 | the loop returns `IsFirstLargest`: the first clamped candidate of largest area among those with positive sides, or None; empty input gives None; a returned box lies inside the image |
| Detector.ScanStep | detector.py:50-53 | one iteration keeps the loop invariant: a strictly larger face box replaces the best so far; anything else leaves it |
| Detector.ScanDone | detector.py:55 | the invariant after the last candidate is the specified selection |
| Detector.FirstLargestUnique | detector.py:50-53 | the selection has at most one answer, so the strict comparison picks the earliest of equal areas |
| Detector.ChosenIsLargest | detector.py:50-53 | a chosen box has positive area, at least that of every clamped face box |
| Detector.NoPositiveAreaNoFace | detector.py:31-55 | when no clamped candidate has positive area the result is None, even for non-empty input |
| Detector.LargerCandidateChosen | detector.py:50-53 | candidates (0,0,50,50) and (10,10,100,100) give (10,10,100,100) |
| Detector.EqualAreasFirstWins | detector.py:50-53 | of two candidates of equal area the first is returned |
| Detector.LargestAsWritten | detector.py:27-55 | `detect` as written: no detections give None; a returned box is a clamped candidate of positive area that no clamped candidate's area exceeds; None exactly when no clamped area is positive |
| Detector.ScanAsWrittenBounds | detector.py:34-53 | the written loop from candidate k: a kept box stays kept, a returned box's area bounds every later clamped area, and without one no later area exceeds the running maximum |
| Detector.ScanAsWritten | detector.py:34-53 | the loop as written: a chosen box has positive area, at least the running maximum, and is a clamped candidate |
| Detector.AsWrittenPicksOffImageBox | detector.py:45-53 | as written, a face at (700, 500) in a 640 x 480 image is clamped to (700, 500, -60, -20) and chosen; the corrected selection returns None |
| Detector.AreaSign | detector.py:50 | unless both sides are negative, the area is positive exactly when both sides are |
| Detector.ScanAsWrittenFindsFirstLargest | detector.py:34-53 | with no candidate clamped to two negative sides, the written loop from any invariant state ends in the specified selection |
| Detector.AsWrittenAgreesOtherwise | detector.py:31-55 | with no candidate clamped to two negative sides, the written and corrected selections agree |
| Tracker.Backend.constructor | tracker.py:17-23 | a backend is created for, and remembers, the box it is initialised with |
| Tracker.FaceTracker.constructor | tracker.py:4-6 | a new tracker has no backend and is inactive |
| Tracker.FaceTracker.Init | tracker.py:8-24 | the tracker becomes active with a freshly created backend for the given box |
| Tracker.FaceTracker.Update | tracker.py:26-44 | inactive: (False, None), stays inactive; backend success: (True, the truncated box), stays active; backend failure: (False, None) and inactive; success holds exactly when a box is returned; the backend object is kept |
| Pipeline.ProcessHeight | main.py:46-47 | `h_proc = int(h_orig * scale)` is non-negative and h_proc * w_orig <= 640 * h_orig: the processing copy is no taller, in proportion, than the frame |
| Pipeline.ToFullRes | main.py:72-75 | one coordinate at full resolution, truncation of p * w_orig / 640: a non-negative coordinate stays non-negative; at w_orig = 640 it is unchanged |
| Pipeline.ToFullResScales | main.py:72-75 | `ToFullRes` equals `int(p / scale)` with scale = 640 / w_orig |
| Pipeline.Rescale | main.py:69-76 | the box at full resolution: non-negative fields stay non-negative; a frame already 640 wide keeps the box as it is |
| Pipeline.RescaledSpan | main.py:70-76 | along one axis, an interval [a, a + len) inside [0, limit] of the processing copy ends, once rescaled, by any bound with limit * w_orig <= 640 * bound |
| Pipeline.RescaleInside | main.py:69-76 | a box inside the processing copy, with non-negative sides, is rescaled inside the full-resolution frame |
| Pipeline.Step | main.py:45-79 | the tracker is asked first, and detection runs exactly when tracking did not succeed; a tracked box is truncated and rescaled, with the same backend kept; a detected face re-initialises a fresh backend, is used in the same frame and lies in the frame; no face gives None; afterwards the tracker is active exactly when a box was produced; the zoom controller receives exactly that box |

## Left out

- Camera capture, `cv2.flip`, the resize of the processing copy, `imshow`,
  `putText`, `waitKey` and window teardown (main.py:10-15, 26-27, 35-44, 49,
  86-98). These are
  I/O and presentation.
- FPS timing (main.py:29, 82-84). It reads the wall clock.
- The loop of main.py itself. `Step` is one iteration; `ThreeFrames` chains
  three of them.
- The MediaPipe call and the BGR to RGB conversion (detector.py:11-25). The
  detector's input is the candidates' integer pixel boxes, so the float to int
  conversion of relative boxes (detector.py:39-42) and the minimum confidence
  setting are not modelled.
- The OpenCV KCF/CSRT tracker internals and the `AttributeError` fallback
  between them (tracker.py:16-23, 37). The backend's answer to an update is
  an input. The frame handed to `init` and `update` is not modelled.
- The crop of the pixel array and the resize back to frame size, with its
  `try`/`except` (zoom.py:99-107). The model stops at the integer crop
  window `View`.
- Zoom.ZoomController.Process: float32 and float64 rounding (`np.float32`
  at zoom.py:37) is idealised to exact real arithmetic.
- Pipeline.Step: the frame's width and height are required to be positive.
  A zero width or height would make the program divide by zero (main.py:46,
  zoom.py:64).
- Pipeline.Step: the detection step uses the corrected selection
  `DetectLargest`, where main.py:58 calls `detect` as written. On a candidate
  clamped to two negative sides, such as (700, 500, 50, 50) in a 640 x 480
  processing copy, the program initialises the tracker with
  (700, 500, -60, -20) (main.py:62) and zooms on the rescaled box; `Step`
  reports no face, leaves the tracker inactive and shows the full frame.
- Pipeline.Step: the float64 arithmetic of `scale = 640 / w_orig`,
  `int(h_orig * scale)` and `int(px / scale)` (main.py:46-47, 72-75) is
  exact real arithmetic in `ProcessHeight` and `ToFullRes`. Where the exact
  quotient is a whole number and the float lands just below it, the program's
  truncation can be one less than the model's.
- Detector.DetectLargest: it tests `w > 0 and h > 0` in addition to
  `area > max_area`. This is the corrected selection from the finding below.
  `ScanAsWritten` is the loop as written.
- Detector.ChosenIsLargest: the chosen box is compared only with clamped
  candidates whose sides are both positive. A candidate clamped to two
  negative sides may have a larger positive area; the corrected selection
  ignores it.

## Findings

| source | as written | input that shows it | evidently intended | confidence | as-written member | corrected member |
|---|---|---|---|---|---|---|
| detector.py:45-53 | a candidate is chosen when its clamped area `w * h` beats the best so far; a candidate beyond both the right and bottom edges is clamped to a negative width and a negative height, whose product is positive | one candidate (700, 500, 50, 50) in a 640 x 480 image is clamped to (700, 500, -60, -20), area 1200, and returned as the face | only boxes with both sides positive are faces; here no face is reported | not executed | Detector.AsWrittenPicksOffImageBox | Detector.DetectLargest |

`Pipeline.Step` uses the corrected selection. `Detector.AsWrittenAgreesOtherwise`
proves that the two selections differ only on such candidates.
