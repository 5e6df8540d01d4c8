/** Largest-face selection of `FaceDetector.detect` (detector.py). The face
    model's raw answer is an input: the candidate boxes, already converted to
    integer pixels, for an image of imgW x imgH pixels. */
module Detector {
  import opened Boxes

  /** Clamp a candidate into the image by raising a negative corner coordinate
      to 0 and shrinking the size to the far edge; the corner is never moved
      toward the origin. */
  function ClampToImage(b: Box, imgW: int, imgH: int): (c: Box)
    ensures c.x >= 0 && c.y >= 0
    ensures c.x + c.w <= imgW && c.y + c.h <= imgH
    ensures b.x >= 0 ==> c.x == b.x
    ensures b.y >= 0 ==> c.y == b.y
    ensures b.x < 0 ==> c.x == 0
    ensures b.y < 0 ==> c.y == 0
    ensures c.w <= b.w && c.h <= b.h
    ensures c.x + b.w <= imgW ==> c.w == b.w
    ensures c.y + b.h <= imgH ==> c.h == b.h
    ensures c.x + b.w > imgW ==> c.x + c.w == imgW
    ensures c.y + b.h > imgH ==> c.y + c.h == imgH
  {
    var x := if 0 > b.x then 0 else b.x;
    var y := if 0 > b.y then 0 else b.y;
    var w := if b.w < imgW - x then b.w else imgW - x;
    var h := if b.h < imgH - y then b.h else imgH - y;
    Box(x, y, w, h)
  }

  function Area(b: Box): int
  {
    b.w * b.h
  }

  /** A clamped candidate that is a real face box: both sides positive. */
  predicate Positive(b: Box)
  {
    b.w > 0 && b.h > 0
  }

  /** The i-th candidate after clamping. */
  function Clamped(cands: seq<Box>, imgW: int, imgH: int, i: int): Box
    requires 0 <= i < |cands|
  {
    ClampToImage(cands[i], imgW, imgH)
  }

  /** None of the first k clamped candidates is a face box. */
  ghost predicate NoneUpTo(cands: seq<Box>, imgW: int, imgH: int, k: int)
    requires 0 <= k <= |cands|
  {
    forall j :: 0 <= j < k ==> !Positive(Clamped(cands, imgW, imgH, j))
  }

  /** Among the first k clamped candidates, the i-th is a face box whose area no
      face box reaches strictly, and every face box before it is strictly
      smaller: it is the first one of largest area. */
  ghost predicate FirstLargestAt(cands: seq<Box>, imgW: int, imgH: int, k: int, i: int)
    requires 0 <= i < k <= |cands|
  {
    && Positive(Clamped(cands, imgW, imgH, i))
    && (forall j :: 0 <= j < k && Positive(Clamped(cands, imgW, imgH, j)) ==>
          Area(Clamped(cands, imgW, imgH, j)) <= Area(Clamped(cands, imgW, imgH, i)))
    && (forall j :: 0 <= j < i && Positive(Clamped(cands, imgW, imgH, j)) ==>
          Area(Clamped(cands, imgW, imgH, j)) < Area(Clamped(cands, imgW, imgH, i)))
  }

  /** r is the first largest face box among the clamped candidates, or None when
      none of them is a face box. */
  ghost predicate IsFirstLargest(cands: seq<Box>, imgW: int, imgH: int, r: Option<Box>)
  {
    match r
    case None => NoneUpTo(cands, imgW, imgH, |cands|)
    case Some(b) =>
      exists i :: 0 <= i < |cands| && b == Clamped(cands, imgW, imgH, i)
                  && FirstLargestAt(cands, imgW, imgH, |cands|, i)
  }

  /** The selection specified by IsFirstLargest has at most one answer. */
  lemma FirstLargestUnique(cands: seq<Box>, imgW: int, imgH: int, r1: Option<Box>, r2: Option<Box>)
    requires IsFirstLargest(cands, imgW, imgH, r1) && IsFirstLargest(cands, imgW, imgH, r2)
    ensures r1 == r2
  {
    var n := |cands|;
    if r1.Some? && r2.Some? {
      var i1 :| 0 <= i1 < n && r1.value == Clamped(cands, imgW, imgH, i1)
                && FirstLargestAt(cands, imgW, imgH, n, i1);
      var i2 :| 0 <= i2 < n && r2.value == Clamped(cands, imgW, imgH, i2)
                && FirstLargestAt(cands, imgW, imgH, n, i2);
      if i1 < i2 {
        assert false;
      } else if i2 < i1 {
        assert false;
      }
    } else if r1.Some? || r2.Some? {
      assert false;
    }
  }

  /** The state of the selection loop after the first k candidates: either
      none of them was a face box, or `largest` is the at-th clamped candidate,
      the first largest face box so far, and maxArea is its area. */
  ghost predicate ScanState(cands: seq<Box>, imgW: int, imgH: int, k: int,
                            largest: Option<Box>, maxArea: int, at: int)
  {
    && 0 <= k <= |cands|
    && (largest.None? ==> maxArea == 0 && NoneUpTo(cands, imgW, imgH, k))
    && (largest.Some? ==>
          && 0 <= at < k
          && largest.value == Clamped(cands, imgW, imgH, at)
          && maxArea == Area(largest.value)
          && FirstLargestAt(cands, imgW, imgH, k, at))
  }

  /** One iteration keeps the loop state: a face box of strictly larger area
      replaces the best so far, anything else leaves it. */
  lemma ScanStep(cands: seq<Box>, imgW: int, imgH: int, k: int,
                 largest: Option<Box>, maxArea: int, at: int)
    requires ScanState(cands, imgW, imgH, k, largest, maxArea, at) && k < |cands|
    ensures var c := Clamped(cands, imgW, imgH, k);
      if Positive(c) && Area(c) > maxArea
      then ScanState(cands, imgW, imgH, k + 1, Some(c), Area(c), k)
      else ScanState(cands, imgW, imgH, k + 1, largest, maxArea, at)
  {
    var c := Clamped(cands, imgW, imgH, k);
    if Positive(c) && Area(c) > maxArea {
      assert FirstLargestAt(cands, imgW, imgH, k + 1, k);
    } else if largest.Some? {
      assert FirstLargestAt(cands, imgW, imgH, k + 1, at);
    } else {
      assert NoneUpTo(cands, imgW, imgH, k + 1);
    }
  }

  /** The loop state after the last candidate is the specified selection. */
  lemma ScanDone(cands: seq<Box>, imgW: int, imgH: int, largest: Option<Box>, maxArea: int, at: int)
    requires ScanState(cands, imgW, imgH, |cands|, largest, maxArea, at)
    ensures IsFirstLargest(cands, imgW, imgH, largest)
  {
    if largest.Some? {
      assert largest.value == Clamped(cands, imgW, imgH, at) && FirstLargestAt(cands, imgW, imgH, |cands|, at);
    }
  }

  /** The loop of `detect`: scan the candidates in order, clamp each into the
      image and keep the first one whose area strictly beats the best so far.
      A candidate counts only when both clamped sides are positive. */
  method DetectLargest(cands: seq<Box>, imgW: int, imgH: int) returns (r: Option<Box>)
    ensures IsFirstLargest(cands, imgW, imgH, r)
    ensures |cands| == 0 ==> r == None
    ensures r.Some? ==> Positive(r.value) && r.value.x >= 0 && r.value.y >= 0
                        && r.value.x + r.value.w <= imgW && r.value.y + r.value.h <= imgH
  {
    if |cands| == 0 {
      return None;
    }
    var largest: Option<Box> := None;
    var maxArea := 0;
    ghost var at := 0;
    var k := 0;
    while k < |cands|
      invariant ScanState(cands, imgW, imgH, k, largest, maxArea, at)
    {
      ScanStep(cands, imgW, imgH, k, largest, maxArea, at);
      var c := cands[k];
      var x := if 0 > c.x then 0 else c.x;
      var y := if 0 > c.y then 0 else c.y;
      var w := if c.w < imgW - x then c.w else imgW - x;
      var h := if c.h < imgH - y then c.h else imgH - y;
      var area := w * h;
      assert Box(x, y, w, h) == Clamped(cands, imgW, imgH, k);
      if w > 0 && h > 0 && area > maxArea {
        maxArea := area;
        largest := Some(Box(x, y, w, h));
        at := k;
      }
      k := k + 1;
    }
    ScanDone(cands, imgW, imgH, largest, maxArea, at);
    r := largest;
  }

  /** A chosen box has positive area, at least that of every face box among the
      clamped candidates, and is one of them. */
  lemma ChosenIsLargest(cands: seq<Box>, imgW: int, imgH: int, r: Option<Box>, j: int)
    requires IsFirstLargest(cands, imgW, imgH, r) && r.Some?
    requires 0 <= j < |cands| && Positive(Clamped(cands, imgW, imgH, j))
    ensures Area(r.value) > 0 && Area(Clamped(cands, imgW, imgH, j)) <= Area(r.value)
  {
    var i :| 0 <= i < |cands| && r.value == Clamped(cands, imgW, imgH, i)
             && FirstLargestAt(cands, imgW, imgH, |cands|, i);
    PositiveArea(r.value);
  }

  lemma PositiveArea(b: Box)
    requires Positive(b)
    ensures Area(b) > 0
  {
    assert b.w * b.h >= b.w;
  }

  /** When no clamped candidate has positive area, no face is reported, even
      though the candidate list may be non-empty. */
  lemma NoPositiveAreaNoFace(cands: seq<Box>, imgW: int, imgH: int, r: Option<Box>)
    requires forall i :: 0 <= i < |cands| ==> Area(Clamped(cands, imgW, imgH, i)) <= 0
    requires IsFirstLargest(cands, imgW, imgH, r)
    ensures r == None
  {
    if r.Some? {
      var i :| 0 <= i < |cands| && r.value == Clamped(cands, imgW, imgH, i)
               && FirstLargestAt(cands, imgW, imgH, |cands|, i);
      PositiveArea(r.value);
      assert false;
    }
  }

  // ---------------------------------------------------------------------------
  // The selection as the source writes it
  // ---------------------------------------------------------------------------

  /** The loop of `detect` exactly as written: only `area > max_area` guards the
      choice, so a clamped candidate with BOTH sides negative (one lying beyond
      the right and the bottom edge) has a positive area and can be chosen. */
  function ScanAsWritten(cands: seq<Box>, imgW: int, imgH: int, k: nat,
                         largest: Option<Box>, maxArea: int): (r: Option<Box>)
    requires k <= |cands|
    requires maxArea >= 0 && (largest.Some? ==> Area(largest.value) == maxArea > 0)
    ensures r.Some? ==> Area(r.value) > 0 && Area(r.value) >= maxArea
    ensures r.Some? ==> r == largest || exists i :: k <= i < |cands| && r.value == Clamped(cands, imgW, imgH, i)
    decreases |cands| - k
  {
    if k == |cands| then largest
    else
      var c := Clamped(cands, imgW, imgH, k);
      if Area(c) > maxArea then ScanAsWritten(cands, imgW, imgH, k + 1, Some(c), Area(c))
      else ScanAsWritten(cands, imgW, imgH, k + 1, largest, maxArea)
  }

  /** `detect` as written: None for no detections; otherwise a clamped
      candidate of positive area that no clamped candidate's area exceeds, or
      None when no clamped area is positive. */
  function LargestAsWritten(cands: seq<Box>, imgW: int, imgH: int): (r: Option<Box>)
    ensures |cands| == 0 ==> r == None
    ensures r.Some? ==> Area(r.value) > 0 && exists i :: 0 <= i < |cands| && r.value == Clamped(cands, imgW, imgH, i)
    ensures r.Some? ==> forall i :: 0 <= i < |cands| ==> Area(Clamped(cands, imgW, imgH, i)) <= Area(r.value)
    ensures r.None? <==> forall i :: 0 <= i < |cands| ==> Area(Clamped(cands, imgW, imgH, i)) <= 0
  {
    if |cands| == 0 then None
    else
      ScanAsWrittenBounds(cands, imgW, imgH, 0, None, 0);
      ScanAsWritten(cands, imgW, imgH, 0, None, 0)
  }

  /** The written loop run from candidate k: once a box is kept some box is
      returned, a returned box's area is at least that of every later clamped
      candidate, and when none is returned no later clamped area exceeds the
      running maximum. */
  lemma {:induction false} ScanAsWrittenBounds(cands: seq<Box>, imgW: int, imgH: int, k: nat,
                                               largest: Option<Box>, maxArea: int)
    requires k <= |cands|
    requires maxArea >= 0 && (largest.Some? ==> Area(largest.value) == maxArea > 0)
    ensures var r := ScanAsWritten(cands, imgW, imgH, k, largest, maxArea);
      && (largest.Some? ==> r.Some?)
      && (r.Some? ==> forall i :: k <= i < |cands| ==> Area(Clamped(cands, imgW, imgH, i)) <= Area(r.value))
      && (r.None? ==> forall i :: k <= i < |cands| ==> Area(Clamped(cands, imgW, imgH, i)) <= maxArea)
    decreases |cands| - k
  {
    if k < |cands| {
      var c := Clamped(cands, imgW, imgH, k);
      if Area(c) > maxArea {
        ScanAsWrittenBounds(cands, imgW, imgH, k + 1, Some(c), Area(c));
      } else {
        ScanAsWrittenBounds(cands, imgW, imgH, k + 1, largest, maxArea);
      }
    }
  }

  /** A face reported at (700, 500) in a 640 x 480 image, beyond both far
      edges, is clamped to width -60 and height -20, area 1200, and chosen as
      written; the corrected selection reports no face. */
  lemma AsWrittenPicksOffImageBox()
    ensures LargestAsWritten([Box(700, 500, 50, 50)], 640, 480) == Some(Box(700, 500, -60, -20))
    ensures IsFirstLargest([Box(700, 500, 50, 50)], 640, 480, None)
  {
    var cands := [Box(700, 500, 50, 50)];
    assert Clamped(cands, 640, 480, 0) == Box(700, 500, -60, -20);
  }

  /** No clamped candidate has both sides negative. */
  predicate NoDoublyNegative(cands: seq<Box>, imgW: int, imgH: int)
  {
    forall i :: 0 <= i < |cands| ==>
      !(Clamped(cands, imgW, imgH, i).w < 0 && Clamped(cands, imgW, imgH, i).h < 0)
  }

  /** Without a candidate beyond both far edges, the written loop, run from a
      state of the corrected loop, ends in the corrected selection. */
  lemma {:induction false} ScanAsWrittenFindsFirstLargest(cands: seq<Box>, imgW: int, imgH: int, k: nat,
                                                          largest: Option<Box>, maxArea: int, at: int)
    requires NoDoublyNegative(cands, imgW, imgH)
    requires ScanState(cands, imgW, imgH, k, largest, maxArea, at)
    requires largest.Some? ==> maxArea > 0
    ensures IsFirstLargest(cands, imgW, imgH, ScanAsWritten(cands, imgW, imgH, k, largest, maxArea))
    decreases |cands| - k
  {
    if k == |cands| {
      ScanDone(cands, imgW, imgH, largest, maxArea, at);
    } else {
      var c := Clamped(cands, imgW, imgH, k);
      AreaSign(c);
      ScanStep(cands, imgW, imgH, k, largest, maxArea, at);
      if Area(c) > maxArea {
        ScanAsWrittenFindsFirstLargest(cands, imgW, imgH, k + 1, Some(c), Area(c), k);
      } else {
        ScanAsWrittenFindsFirstLargest(cands, imgW, imgH, k + 1, largest, maxArea, at);
      }
    }
  }

  /** Unless both sides are negative, a box has positive area exactly when both
      sides are positive. */
  lemma AreaSign(c: Box)
    requires !(c.w < 0 && c.h < 0)
    ensures Area(c) > 0 <==> Positive(c)
  {
    if c.w > 0 && c.h > 0 {
      assert c.w * c.h > 0;
    } else if c.w >= 0 {
      assert c.w * c.h <= 0;
    } else {
      assert c.h >= 0;
      assert c.w * c.h <= 0;
    }
  }

  /** The discrepancy is confined to candidates beyond both far edges: without
      them, the written loop and the corrected one choose the same box. */
  lemma AsWrittenAgreesOtherwise(cands: seq<Box>, imgW: int, imgH: int, r: Option<Box>)
    requires NoDoublyNegative(cands, imgW, imgH) && IsFirstLargest(cands, imgW, imgH, r)
    ensures LargestAsWritten(cands, imgW, imgH) == r
  {
    if |cands| == 0 {
      FirstLargestUnique(cands, imgW, imgH, None, r);
    } else {
      ScanAsWrittenFindsFirstLargest(cands, imgW, imgH, 0, None, 0, 0);
      FirstLargestUnique(cands, imgW, imgH, LargestAsWritten(cands, imgW, imgH), r);
    }
  }

  /** Two candidates of areas 2500 and 10000 in a 640 x 480 image: the larger,
      later one is chosen. */
  lemma LargerCandidateChosen(r: Option<Box>)
    requires IsFirstLargest([Box(0, 0, 50, 50), Box(10, 10, 100, 100)], 640, 480, r)
    ensures r == Some(Box(10, 10, 100, 100))
  {
    var cands := [Box(0, 0, 50, 50), Box(10, 10, 100, 100)];
    assert Clamped(cands, 640, 480, 0) == Box(0, 0, 50, 50);
    assert Clamped(cands, 640, 480, 1) == Box(10, 10, 100, 100);
    assert FirstLargestAt(cands, 640, 480, 2, 1);
    FirstLargestUnique(cands, 640, 480, r, Some(Box(10, 10, 100, 100)));
  }

  /** Two candidates of equal area: the first one is chosen. */
  lemma EqualAreasFirstWins(r: Option<Box>)
    requires IsFirstLargest([Box(0, 0, 40, 40), Box(100, 100, 40, 40)], 640, 480, r)
    ensures r == Some(Box(0, 0, 40, 40))
  {
    var cands := [Box(0, 0, 40, 40), Box(100, 100, 40, 40)];
    assert Clamped(cands, 640, 480, 0) == Box(0, 0, 40, 40);
    assert Clamped(cands, 640, 480, 1) == Box(100, 100, 40, 40);
    assert FirstLargestAt(cands, 640, 480, 2, 0);
    FirstLargestUnique(cands, 640, 480, r, Some(Box(0, 0, 40, 40)));
  }
}
