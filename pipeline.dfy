/** The per-frame coordinator of main.py: ask the tracker first, detect only
    when tracking did not succeed (re-initialising the tracker from the
    detection), rescale the box from the 640-pixel-wide processing copy to the
    full-resolution frame, and hand it to the zoom controller. */
module Pipeline {
  import opened Boxes
  import opened Zoom
  import opened Detector
  import opened Tracker

  /** Width of the downscaled copy that detection and tracking work on. */
  const ProcessWidth: int := 640

  /** Height of the processing copy, int(h_orig * (640 / w_orig)): never
      negative, and its ratio to 640 is at most the frame's h_orig / w_orig. */
  function ProcessHeight(wOrig: int, hOrig: int): (r: int)
    requires wOrig > 0 && hOrig > 0
    ensures 0 <= r && r * wOrig <= ProcessWidth * hOrig
  {
    ProcessHeightBound(wOrig, hOrig);
    Trunc(hOrig as real * (ProcessWidth as real / wOrig as real))
  }

  /** A processing-frame coordinate at full resolution: truncation of
      p * w_orig / 640, which `ToFullResScales` shows to be int(p / scale) with
      scale = 640 / w_orig. A non-negative coordinate stays non-negative, and a
      640-wide frame keeps it as it is. */
  function ToFullRes(p: int, wOrig: int): (r: int)
    requires wOrig > 0
    ensures p >= 0 ==> r >= 0
    ensures wOrig == ProcessWidth ==> r == p
  {
    MulSign(p as real, wOrig as real / 640.0);
    TruncOfInt(p);
    Trunc(p as real * (wOrig as real / 640.0))
  }

  /** A processing-frame box at full resolution: non-negative coordinates and
      sides stay non-negative, and a 640-wide frame keeps the box as it is. */
  function Rescale(b: Box, wOrig: int): (r: Box)
    requires wOrig > 0
    ensures b.x >= 0 ==> r.x >= 0
    ensures b.y >= 0 ==> r.y >= 0
    ensures b.w >= 0 ==> r.w >= 0
    ensures b.h >= 0 ==> r.h >= 0
    ensures wOrig == ProcessWidth ==> r == b
  {
    Box(ToFullRes(b.x, wOrig), ToFullRes(b.y, wOrig), ToFullRes(b.w, wOrig), ToFullRes(b.h, wOrig))
  }

  lemma MulSign(a: real, k: real)
    requires k >= 0.0
    ensures a >= 0.0 ==> a * k >= 0.0
  {
    if a >= 0.0 { MulLe(0.0, a, k); }
  }

  lemma MulLe(a: real, b: real, k: real)
    requires a <= b && k >= 0.0
    ensures a * k <= b * k
  {
  }

  lemma Distribute(a: real, b: real, k: real)
    ensures a * k + b * k == (a + b) * k
  {
  }

  /** The factor 640 / w_orig and its inverse w_orig / 640. */
  lemma RatioInverse(wOrig: int)
    requires wOrig > 0
    ensures (ProcessWidth as real / wOrig as real) * (wOrig as real / 640.0) == 1.0
    ensures 640.0 * (wOrig as real / 640.0) == wOrig as real
  {
  }

  /** Dividing by scale = 640 / w_orig is multiplying by w_orig / 640, so
      `ToFullRes` is int(p / scale). */
  lemma ToFullResScales(p: int, wOrig: int)
    requires wOrig > 0
    ensures ToFullRes(p, wOrig) == Trunc(p as real / (ProcessWidth as real / wOrig as real))
  {
    var s, k := ProcessWidth as real / wOrig as real, wOrig as real / 640.0;
    RatioInverse(wOrig);
    assert (p as real * k) * s == p as real * (k * s);
    assert p as real / s == p as real * k;
  }

  lemma ProcessHeightBound(wOrig: int, hOrig: int)
    requires wOrig > 0 && hOrig > 0
    ensures var hp := Trunc(hOrig as real * (ProcessWidth as real / wOrig as real));
      0 <= hp && hp * wOrig <= ProcessWidth * hOrig
  {
    var s := ProcessWidth as real / wOrig as real;
    MulSign(hOrig as real, s);
    ScaledBack(Trunc(hOrig as real * s), wOrig, hOrig);
  }

  /** n <= h * (640 / w) over the reals is n * w <= 640 * h over the integers. */
  lemma ScaledBack(n: int, wOrig: int, hOrig: int)
    requires wOrig > 0 && n as real <= hOrig as real * (ProcessWidth as real / wOrig as real)
    ensures n * wOrig <= ProcessWidth * hOrig
  {
    var s, w, h := 640.0 / wOrig as real, wOrig as real, hOrig as real;
    assert n as real * w <= (h * s) * w by { MulLe(n as real, h * s, w); }
    assert s * w == 640.0;
    assert (h * s) * w == h * (s * w);
    assert (n * wOrig) as real == n as real * w;
  }

  /** limit * w <= 640 * bound over the integers is limit * (w / 640) <= bound
      over the reals. */
  lemma BoundScale(limit: int, wOrig: int, bound: int)
    requires wOrig > 0 && limit * wOrig <= ProcessWidth * bound
    ensures limit as real * (wOrig as real / 640.0) <= bound as real
  {
    assert (limit * wOrig) as real == limit as real * wOrig as real;
  }

  /** Along one axis: an interval [a, a + len) inside [0, limit] of the
      processing frame ends, once rescaled, no later than a bound whose ratio to
      w_orig is at least limit / 640. */
  lemma RescaledSpan(a: int, len: int, limit: int, wOrig: int, bound: int)
    requires wOrig > 0 && a >= 0 && len >= 0 && a + len <= limit
    requires limit * wOrig <= ProcessWidth * bound
    ensures ToFullRes(a, wOrig) + ToFullRes(len, wOrig) <= bound
  {
    SpanScaled(a, len, limit, wOrig);
    BoundScale(limit, wOrig, bound);
  }

  lemma SpanScaled(a: int, len: int, limit: int, wOrig: int)
    requires wOrig > 0 && a >= 0 && len >= 0 && a + len <= limit
    ensures (ToFullRes(a, wOrig) + ToFullRes(len, wOrig)) as real <= limit as real * (wOrig as real / 640.0)
  {
    var k := wOrig as real / 640.0;
    ScaledSpan(a as real, len as real, limit as real, k);
    TruncSpan(a as real * k, len as real * k, limit as real * k);
  }

  lemma ScaledSpan(a: real, len: real, limit: real, k: real)
    requires 0.0 <= a && 0.0 <= len && a + len <= limit && k >= 0.0
    ensures 0.0 <= a * k && 0.0 <= len * k && a * k + len * k <= limit * k
  {
    MulLe(0.0, a, k);
    MulLe(0.0, len, k);
    Distribute(a, len, k);
    MulLe(a + len, limit, k);
  }

  lemma TruncSpan(a: real, len: real, bound: real)
    requires 0.0 <= a && 0.0 <= len && a + len <= bound
    ensures 0 <= Trunc(a) && 0 <= Trunc(len) && (Trunc(a) + Trunc(len)) as real <= bound
  {
  }

  /** A box inside the 640-wide processing frame, with non-negative sides, is
      rescaled into the full-resolution frame. */
  lemma RescaleInside(b: Box, wOrig: int, hOrig: int)
    requires wOrig > 0 && hOrig > 0
    requires b.x >= 0 && b.y >= 0 && b.w >= 0 && b.h >= 0
    requires b.x + b.w <= ProcessWidth && b.y + b.h <= ProcessHeight(wOrig, hOrig)
    ensures var r := Rescale(b, wOrig);
      r.x >= 0 && r.y >= 0 && r.w >= 0 && r.h >= 0 &&
      r.x + r.w <= wOrig && r.y + r.h <= hOrig
  {
    RescaledSpan(b.x, b.w, ProcessWidth, wOrig, wOrig);
    RescaledSpan(b.y, b.h, ProcessHeight(wOrig, hOrig), wOrig, hOrig);
  }

  /** One frame of the main loop for a wOrig x hOrig capture. The tracker
      backend's answer and the face model's raw boxes on the processing copy
      are inputs; `detected` is the detector's choice when it ran. */
  method Step(tracker: FaceTracker, zoom: ZoomController, wOrig: int, hOrig: int,
              backendOk: bool, backendBox: RealBox, detections: seq<Box>)
    returns (finalBox: Option<Box>, view: View, ghost detectorRan: bool, ghost detected: Option<Box>)
    requires wOrig > 0 && hOrig > 0
    requires tracker.Valid()
    modifies tracker, zoom
    ensures tracker.Valid()
    ensures detectorRan <==> !(old(tracker.active) && backendOk)
    ensures !detectorRan ==>
      finalBox == Some(Rescale(TruncBox(backendBox), wOrig)) && tracker.backend == old(tracker.backend)
    ensures detectorRan ==> IsFirstLargest(detections, ProcessWidth, ProcessHeight(wOrig, hOrig), detected)
    ensures detectorRan && detected.Some? ==>
      && finalBox == Some(Rescale(detected.value, wOrig))
      && tracker.backend != null && fresh(tracker.backend) && tracker.backend.initBox == detected.value
      && var f := finalBox.value;
         0 <= f.x && 0 <= f.y && f.x + f.w <= wOrig && f.y + f.h <= hOrig
    ensures detectorRan && detected.None? ==> finalBox == None && tracker.backend == old(tracker.backend)
    ensures tracker.active <==> finalBox.Some?
    ensures zoom.current == Feed(zoom.alpha, old(zoom.current), finalBox)
    ensures view == if finalBox.None? then FullFrame else CropView(zoom.current.value, zoom.margin, wOrig, hOrig)
  {
    var ok, bboxProc := tracker.Update(backendOk, backendBox);
    detectorRan, detected := !ok, None;
    if !ok {
      var hProc := ProcessHeight(wOrig, hOrig);
      var face := DetectLargest(detections, ProcessWidth, hProc);
      detected := face;
      if face.Some? {
        tracker.Init(face.value);
        bboxProc := face;
        ok := true;
        RescaleInside(face.value, wOrig, hOrig);
      } else {
        bboxProc := None;
      }
    }
    finalBox := None;
    if bboxProc.Some? {
      var b := bboxProc.value;
      finalBox := Some(Box(ToFullRes(b.x, wOrig), ToFullRes(b.y, wOrig), ToFullRes(b.w, wOrig), ToFullRes(b.h, wOrig)));
    }
    view := zoom.Process(wOrig, hOrig, finalBox);
  }

  /** Three frames at 640 x 480: detection picks the larger of two faces and
      starts tracking; a tracking failure is repaired by detection within the
      same frame; a tracking success skips detection. */
  method ThreeFrames()
  {
    var tracker := new FaceTracker();
    var zoom := new ZoomController(0.15, 0.6);
    var box, view, ran, detected := Step(tracker, zoom, 640, 480, false, RealBox(0.0, 0.0, 0.0, 0.0),
                                        [Box(0, 0, 50, 50), Box(10, 10, 100, 100)]);
    assert ProcessHeight(640, 480) == 480;
    LargerCandidateChosen(detected);
    assert box == Some(Box(10, 10, 100, 100)) && tracker.active;
    assert zoom.current == Some(RealBox(10.0, 10.0, 100.0, 100.0));

    box, view, ran, detected := Step(tracker, zoom, 640, 480, false, RealBox(0.0, 0.0, 0.0, 0.0),
                                    [Box(20, 20, 40, 40)]);
    assert Clamped([Box(20, 20, 40, 40)], 640, 480, 0) == Box(20, 20, 40, 40);
    assert FirstLargestAt([Box(20, 20, 40, 40)], 640, 480, 1, 0);
    FirstLargestUnique([Box(20, 20, 40, 40)], 640, 480, detected, Some(Box(20, 20, 40, 40)));
    assert box == Some(Box(20, 20, 40, 40)) && tracker.active;

    box, view, ran, detected := Step(tracker, zoom, 640, 480, true, RealBox(21.7, 19.2, 40.9, 41.0), []);
    assert !ran && box == Some(Box(21, 19, 40, 41)) && tracker.active;
  }
}
