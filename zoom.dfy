/** The viewport geometry engine (zoom.py): a smoothed face box kept by
    exponential moving average, and the crop window derived from it. */
module Zoom {
  import opened Boxes

  // ---------------------------------------------------------------------------
  // Smoothing
  // ---------------------------------------------------------------------------

  /** Componentwise difference a - b. */
  function Deviation(a: RealBox, b: RealBox): RealBox
  {
    RealBox(a.x - b.x, a.y - b.y, a.w - b.w, a.h - b.h)
  }

  /** Componentwise scaling k * d. */
  function Scale(k: real, d: RealBox): RealBox
  {
    RealBox(k * d.x, k * d.y, k * d.w, k * d.h)
  }

  function Pow(q: real, n: nat): real
  {
    if n == 0 then 1.0 else q * Pow(q, n - 1)
  }

  /** One smoothing step toward target t: the first sample is taken verbatim,
      later ones move each of x, y, w, h by the fraction alpha of the way. */
  function Smooth(alpha: real, prev: Option<RealBox>, t: RealBox): (s: RealBox)
    ensures prev.None? ==> s == t
  {
    match prev
    case None => t
    case Some(o) =>
      RealBox(alpha * t.x + (1.0 - alpha) * o.x, alpha * t.y + (1.0 - alpha) * o.y,
              alpha * t.w + (1.0 - alpha) * o.w, alpha * t.h + (1.0 - alpha) * o.h)
  }

  /** A later sample moves the box toward the target by the factor 1 - alpha:
      new - target == (1 - alpha) * (old - target); with alpha = 1 the box is the
      target. */
  lemma SmoothDeviation(alpha: real, o: RealBox, t: RealBox)
    ensures Deviation(Smooth(alpha, Some(o), t), t) == Scale(1.0 - alpha, Deviation(o, t))
    ensures alpha == 1.0 ==> Smooth(alpha, Some(o), t) == t
  {
  }

  /** v lies on the segment between a and b. */
  predicate Between(a: real, b: real, v: real)
  {
    (a <= v <= b) || (b <= v <= a)
  }

  /** With 0 <= alpha <= 1 a step never overshoots: every component of the new
      box lies between the old value and the target. */
  lemma SmoothStaysBetween(alpha: real, o: RealBox, t: RealBox)
    requires 0.0 <= alpha <= 1.0
    ensures var s := Smooth(alpha, Some(o), t);
      Between(o.x, t.x, s.x) && Between(o.y, t.y, s.y) &&
      Between(o.w, t.w, s.w) && Between(o.h, t.h, s.h)
  {
    var s := Smooth(alpha, Some(o), t);
    BetweenStep(alpha, o.x, t.x);
    BetweenStep(alpha, o.y, t.y);
    BetweenStep(alpha, o.w, t.w);
    BetweenStep(alpha, o.h, t.h);
  }

  lemma BetweenStep(alpha: real, o: real, t: real)
    requires 0.0 <= alpha <= 1.0
    ensures Between(o, t, alpha * t + (1.0 - alpha) * o)
  {
    var v := alpha * t + (1.0 - alpha) * o;
    assert v - o == alpha * (t - o);
    assert t - v == (1.0 - alpha) * (t - o);
    if o <= t {
      MulNonneg(alpha, t - o);
      MulNonneg(1.0 - alpha, t - o);
    } else {
      MulNonneg(alpha, o - t);
      MulNonneg(1.0 - alpha, o - t);
    }
  }

  lemma MulNonneg(a: real, b: real)
    requires a >= 0.0 && b >= 0.0
    ensures a * b >= 0.0
  {
  }

  /** The smoothed state after one call of `process` with an optional target. */
  function Feed(alpha: real, cur: Option<RealBox>, target: Option<Box>): (r: Option<RealBox>)
    ensures target.None? ==> r == cur
    ensures target.Some? && cur.None? ==> r == Some(ToReal(target.value))
    ensures target.Some? ==> r.Some?
  {
    match target
    case None => cur
    case Some(b) => Some(Smooth(alpha, cur, ToReal(b)))
  }

  /** The smoothed state after a run of frames. */
  function FeedAll(alpha: real, cur: Option<RealBox>, ts: seq<Option<Box>>): Option<RealBox>
    decreases |ts|
  {
    if |ts| == 0 then cur else FeedAll(alpha, Feed(alpha, cur, ts[0]), ts[1..])
  }

  /** The frames of a run on which a face box was available. */
  function Present(ts: seq<Option<Box>>): (ps: seq<Option<Box>>)
    ensures |ps| <= |ts|
    ensures forall i :: 0 <= i < |ps| ==> ps[i].Some?
  {
    if |ts| == 0 then []
    else if ts[0].None? then Present(ts[1..])
    else [ts[0]] + Present(ts[1..])
  }

  /** n frames that all report box b. */
  function Constant(b: Box, n: nat): (ts: seq<Option<Box>>)
    ensures |ts| == n
  {
    if n == 0 then [] else [Some(b)] + Constant(b, n - 1)
  }

  /** Losing the face does not disturb the smoothed state: a run with gaps ends
      in the same state as the run of its present frames alone. */
  lemma {:induction false} LossPersistence(alpha: real, cur: Option<RealBox>, ts: seq<Option<Box>>)
    ensures FeedAll(alpha, cur, ts) == FeedAll(alpha, cur, Present(ts))
    decreases |ts|
  {
    if |ts| == 0 {
    } else if ts[0].None? {
      LossPersistence(alpha, cur, ts[1..]);
    } else {
      var rest := Present(ts[1..]);
      assert Present(ts) == [ts[0]] + rest;
      assert ([ts[0]] + rest)[1..] == rest;
      LossPersistence(alpha, Feed(alpha, cur, ts[0]), ts[1..]);
    }
  }

  lemma ScaleScale(a: real, b: real, d: RealBox)
    ensures Scale(a, Scale(b, d)) == Scale(b * a, d)
  {
    assert a * (b * d.x) == (b * a) * d.x;
    assert a * (b * d.y) == (b * a) * d.y;
    assert a * (b * d.w) == (b * a) * d.w;
    assert a * (b * d.h) == (b * a) * d.h;
  }

  /** Fed a constant target, the smoothed box converges geometrically: after n
      frames its deviation from the target is (1 - alpha)^n times the initial one. */
  lemma {:induction false} ConstantTargetConverges(alpha: real, s0: RealBox, b: Box, n: nat)
    ensures var r := FeedAll(alpha, Some(s0), Constant(b, n));
      r.Some? && Deviation(r.value, ToReal(b)) == Scale(Pow(1.0 - alpha, n), Deviation(s0, ToReal(b)))
    decreases n
  {
    var t := ToReal(b);
    var q := 1.0 - alpha;
    var d0 := Deviation(s0, t);
    if n == 0 {
      assert Constant(b, 0) == [];
      assert Scale(1.0, d0) == d0;
    } else {
      var s1 := Smooth(alpha, Some(s0), t);
      var cs := Constant(b, n);
      assert cs[0] == Some(b) && cs[1..] == Constant(b, n - 1);
      assert Feed(alpha, Some(s0), Some(b)) == Some(s1);
      assert FeedAll(alpha, Some(s0), cs) == FeedAll(alpha, Some(s1), Constant(b, n - 1));
      ConstantTargetConverges(alpha, s1, b, n - 1);
      SmoothDeviation(alpha, s0, t);
      var r := FeedAll(alpha, Some(s1), Constant(b, n - 1));
      var p := Pow(q, n - 1);
      assert Deviation(r.value, t) == Scale(p, Deviation(s1, t));
      assert Deviation(s1, t) == Scale(q, d0);
      ScaleScale(p, q, d0);
      assert Pow(q, n) == q * p;
      assert Deviation(r.value, t) == Scale(Pow(q, n), d0);
    }
  }

  /** From the empty state, a constant target is reached on the first frame and
      then held exactly. */
  lemma {:induction false} FirstSampleHeld(alpha: real, b: Box, n: nat)
    requires n >= 1
    ensures FeedAll(alpha, None, Constant(b, n)) == Some(ToReal(b))
  {
    assert Constant(b, n)[0] == Some(b) && Constant(b, n)[1..] == Constant(b, n - 1);
    ConstantTargetConverges(alpha, ToReal(b), b, n - 1);
    var r := FeedAll(alpha, Some(ToReal(b)), Constant(b, n - 1));
    assert Deviation(r.value, ToReal(b)) == RealBox(0.0, 0.0, 0.0, 0.0);
  }

  // ---------------------------------------------------------------------------
  // Crop geometry
  // ---------------------------------------------------------------------------

  /** Shift an interval [start, start + len) into [0, bound] along one axis, as
      the three clamps of `process` do: push right if it starts below 0, push
      left if it ends past bound, and finally push right again. */
  function ClampAxis(start: real, len: real, bound: real): (r: real)
    ensures r >= 0.0
    ensures len <= bound ==> r + len <= bound
    ensures len > bound ==> r == 0.0
    ensures 0.0 <= start && start + len <= bound ==> r == start
    ensures start < 0.0 && len <= bound ==> r == 0.0
    ensures start + len > bound && len <= bound ==> r + len == bound
  {
    var p1 := if start < 0.0 then 0.0 else start;
    var p2 := if p1 + len > bound then bound - len else p1;
    if p2 < 0.0 then 0.0 else p2
  }

  /** The real-valued crop rectangle for smoothed box s in a frame of
      imgW x imgH pixels: height max(w, h) * (1 + margin), the frame's aspect
      ratio, centred on the face and shifted into the frame. Its corner is never
      negative; a rectangle no larger than the frame ends inside it, and a larger
      one starts at the frame's edge. */
  function CropRect(s: RealBox, margin: real, imgW: int, imgH: int): (c: RealBox)
    requires imgW > 0 && imgH > 0
    ensures c.x >= 0.0 && c.y >= 0.0
    ensures c.w <= imgW as real ==> c.x + c.w <= imgW as real
    ensures c.h <= imgH as real ==> c.y + c.h <= imgH as real
    ensures c.w > imgW as real ==> c.x == 0.0
    ensures c.h > imgH as real ==> c.y == 0.0
  {
    var ch := Max(s.w, s.h) * (1.0 + margin);
    var cw := ch * (imgW as real / imgH as real);
    RealBox(ClampAxis(s.x + s.w / 2.0 - cw / 2.0, cw, imgW as real),
            ClampAxis(s.y + s.h / 2.0 - ch / 2.0, ch, imgH as real), cw, ch)
  }

  /** The crop rectangle is sized from the larger face side plus margin, has the
      frame's aspect ratio, and stays centred on the face when no shift was
      needed. */
  lemma CropRectGeometry(s: RealBox, margin: real, imgW: int, imgH: int)
    requires imgW > 0 && imgH > 0
    ensures var c := CropRect(s, margin, imgW, imgH);
      && c.h == Max(s.w, s.h) * (1.0 + margin)
      && c.w * imgH as real == c.h * imgW as real
      && (var x0 := s.x + s.w / 2.0 - c.w / 2.0;
          0.0 <= x0 && x0 + c.w <= imgW as real ==> c.x + c.w / 2.0 == s.x + s.w / 2.0)
      && (var y0 := s.y + s.h / 2.0 - c.h / 2.0;
          0.0 <= y0 && y0 + c.h <= imgH as real ==> c.y + c.h / 2.0 == s.y + s.h / 2.0)
  {
    var ch := Max(s.w, s.h) * (1.0 + margin);
    var w, h := imgW as real, imgH as real;
    assert ch * (w / h) * h == ch * w;
  }

  /** Integer pixel window of a crop rectangle: truncate the corners, clip the
      far corner to the frame, and fall back to the full frame if empty. */
  function Window(c: RealBox, imgW: int, imgH: int): (v: View)
    requires c.x >= 0.0 && c.y >= 0.0
    ensures v.Crop? ==> 0 <= v.x1 < v.x2 <= imgW && 0 <= v.y1 < v.y2 <= imgH
    ensures v.Crop? ==> v.x1 as real <= c.x < v.x1 as real + 1.0
    ensures v.Crop? ==> v.y1 as real <= c.y < v.y1 as real + 1.0
    ensures v.Crop? ==> v.x2 as real <= c.x + c.w && v.y2 as real <= c.y + c.h
  {
    var x1, y1 := Trunc(c.x), Trunc(c.y);
    var x2 := if Trunc(c.x + c.w) < imgW then Trunc(c.x + c.w) else imgW;
    var y2 := if Trunc(c.y + c.h) < imgH then Trunc(c.y + c.h) else imgH;
    if x2 <= x1 || y2 <= y1 then FullFrame else Crop(x1, y1, x2, y2)
  }

  /** The view `process` shows for smoothed box s. */
  function CropView(s: RealBox, margin: real, imgW: int, imgH: int): (v: View)
    requires imgW > 0 && imgH > 0
    ensures v.Crop? ==> 0 <= v.x1 < v.x2 <= imgW && 0 <= v.y1 < v.y2 <= imgH
  {
    Window(CropRect(s, margin, imgW, imgH), imgW, imgH)
  }

  /** A crop rectangle at least one pixel wide and high always yields a crop. */
  lemma CropViewNonEmpty(s: RealBox, margin: real, imgW: int, imgH: int)
    requires imgW > 0 && imgH > 0
    ensures var c := CropRect(s, margin, imgW, imgH);
      c.w >= 1.0 && c.h >= 1.0 ==> CropView(s, margin, imgW, imgH).Crop?
  {
    var c := CropRect(s, margin, imgW, imgH);
    if c.w >= 1.0 && c.h >= 1.0 {
      WindowEdge(c.x, c.w, imgW);
      WindowEdge(c.y, c.h, imgH);
    }
  }

  /** Along one axis of a shifted crop at least one pixel long, the clipped far
      corner lies beyond the truncated near corner. */
  lemma WindowEdge(p: real, len: real, bound: int)
    requires bound > 0 && p >= 0.0 && len >= 1.0
    requires len <= bound as real ==> p + len <= bound as real
    requires len > bound as real ==> p == 0.0
    ensures Trunc(p) < (if Trunc(p + len) < bound then Trunc(p + len) else bound)
  {
    TruncMonotone(p + 1.0, p + len);
    assert Trunc(p + 1.0) == Trunc(p) + 1;
    if len <= bound as real {
      TruncMonotone(p + len, bound as real);
      TruncOfInt(bound);
    }
  }

  /** An empty or negative crop size falls back to the full frame. */
  lemma CropViewDegenerate(s: RealBox, margin: real, imgW: int, imgH: int)
    requires imgW > 0 && imgH > 0
    ensures var c := CropRect(s, margin, imgW, imgH);
      c.w <= 0.0 || c.h <= 0.0 ==> CropView(s, margin, imgW, imgH) == FullFrame
  {
    var c := CropRect(s, margin, imgW, imgH);
    if c.w <= 0.0 {
      TruncMonotone(c.x + c.w, c.x);
    } else if c.h <= 0.0 {
      TruncMonotone(c.y + c.h, c.y);
    }
  }

  /** A crop wider (higher) than the frame is cut down to the frame's whole
      width (height); one that fits loses less than a pixel at its far edge. */
  lemma CropViewEdges(s: RealBox, margin: real, imgW: int, imgH: int)
    requires imgW > 0 && imgH > 0
    ensures var c := CropRect(s, margin, imgW, imgH);
      var v := CropView(s, margin, imgW, imgH);
      v.Crop? ==>
        (c.w > imgW as real ==> v.x1 == 0 && v.x2 == imgW) &&
        (c.h > imgH as real ==> v.y1 == 0 && v.y2 == imgH) &&
        (c.w <= imgW as real ==> c.x + c.w < v.x2 as real + 1.0) &&
        (c.h <= imgH as real ==> c.y + c.h < v.y2 as real + 1.0)
  {
    var c := CropRect(s, margin, imgW, imgH);
    TruncOfInt(imgW);
    TruncOfInt(imgH);
    if c.w > imgW as real { TruncMonotone(imgW as real, c.x + c.w); }
    else { TruncMonotone(c.x + c.w, imgW as real); }
    if c.h > imgH as real { TruncMonotone(imgH as real, c.y + c.h); }
    else { TruncMonotone(c.y + c.h, imgH as real); }
  }

  /** The shift clamp of `process`, in its order: push right and down past
      0, push left and up past the far edge, then right and down past 0 again. */
  method ShiftIntoFrame(x0: real, y0: real, cropW: real, cropH: real, w: real, h: real)
    returns (cropX: real, cropY: real)
    ensures cropX == ClampAxis(x0, cropW, w) && cropY == ClampAxis(y0, cropH, h)
  {
    cropX, cropY := x0, y0;
    if cropX < 0.0 { cropX := 0.0; }
    if cropY < 0.0 { cropY := 0.0; }
    if cropX + cropW > w { cropX := w - cropW; }
    if cropY + cropH > h { cropY := h - cropH; }
    if cropX < 0.0 { cropX := 0.0; }
    if cropY < 0.0 { cropY := 0.0; }
  }

  // ---------------------------------------------------------------------------
  // The controller
  // ---------------------------------------------------------------------------

  class ZoomController {
    const alpha: real   // smoothing factor
    const margin: real  // margin factor
    var current: Option<RealBox>

    constructor (smoothingFactor: real := 0.2, marginFactor: real := 0.5)
      ensures alpha == smoothingFactor && margin == marginFactor
      ensures current == None
    {
      alpha := smoothingFactor;
      margin := marginFactor;
      current := None;
    }

    /** Forget the smoothed box. */
    method Reset()
      modifies this
      ensures current == None
    {
      current := None;
    }

    /** Fold one frame's target into the smoothed box and compute the view of an
        imgW x imgH frame. Without a target the frame is shown whole and the
        smoothed box is kept. */
    method Process(imgW: int, imgH: int, target: Option<Box>) returns (v: View)
      requires imgW > 0 && imgH > 0
      modifies this
      ensures current == Feed(alpha, old(current), target)
      ensures target.None? ==> v == FullFrame
      ensures target.Some? ==> current.Some? && v == CropView(current.value, margin, imgW, imgH)
    {
      if target.None? {
        return FullFrame;
      }
      var t := ToReal(target.value);
      match current {
        case None =>
          current := Some(t);
        case Some(o) =>
          current := Some(RealBox(alpha * t.x + (1.0 - alpha) * o.x, alpha * t.y + (1.0 - alpha) * o.y,
                                  alpha * t.w + (1.0 - alpha) * o.w, alpha * t.h + (1.0 - alpha) * o.h));
          ghost var sm := Smooth(alpha, Some(o), t);
          assert sm.x == current.value.x && sm.y == current.value.y;
          assert sm.w == current.value.w && sm.h == current.value.h;
      }
      v := CropWindow(current.value, imgW, imgH);
    }

    /** The view of an imgW x imgH frame for smoothed box s: the crop window
        centred on the face, shifted into the frame and cut to whole pixels. */
    method CropWindow(s: RealBox, imgW: int, imgH: int) returns (v: View)
      requires imgW > 0 && imgH > 0
      ensures v == CropView(s, margin, imgW, imgH)
    {
      var cx, cy := s.x + s.w / 2.0, s.y + s.h / 2.0;
      var cropDim := Max(s.w, s.h) * (1.0 + margin);
      var w, h := imgW as real, imgH as real;
      var aspect := w / h;
      var cropH := cropDim;
      var cropW := cropH * aspect;
      ghost var c := CropRect(s, margin, imgW, imgH);
      assert c.h == cropH;
      assert c.w == cropW;
      var cropX, cropY := ShiftIntoFrame(cx - cropW / 2.0, cy - cropH / 2.0, cropW, cropH, w, h);
      assert c.x == cropX && c.y == cropY;
      var x1, y1 := Trunc(cropX), Trunc(cropY);
      var x2, y2 := Trunc(cropX + cropW), Trunc(cropY + cropH);
      if x2 > imgW { x2 := imgW; }
      if y2 > imgH { y2 := imgH; }
      if x2 <= x1 || y2 <= y1 {
        return FullFrame;
      }
      v := Crop(x1, y1, x2, y2);
    }
  }
}
