/** Shared value types of the face-centering zoom: optional values, integer and
    real bounding boxes, the crop window handed to the resampler, and the
    truncating integer conversion that Python's `int()` applies to a float. */
module Boxes {

  datatype Option<T> = None | Some(value: T)

  /** A pixel bounding box: top-left corner and size. */
  datatype Box = Box(x: int, y: int, w: int, h: int)

  /** The same shape over the reals: the smoothed box and the crop rectangle. */
  datatype RealBox = RealBox(x: real, y: real, w: real, h: real)

  /** What the zoom stage does with a frame: show it whole, or cut out the
      pixel window [x1, x2) x [y1, y2) and scale it back to the frame size. */
  datatype View = FullFrame | Crop(x1: int, y1: int, x2: int, y2: int)

  function Max(a: real, b: real): (m: real)
    ensures m >= a && m >= b && (m == a || m == b)
  {
    if b > a then b else a
  }

  /** Python's `int(r)` for a float: truncation toward zero. */
  function Trunc(r: real): (n: int)
    ensures r >= 0.0 ==> n >= 0 && n as real <= r < n as real + 1.0
    ensures r < 0.0 ==> n <= 0 && n as real - 1.0 < r <= n as real
  {
    if r >= 0.0 then r.Floor else -((-r).Floor)
  }

  lemma TruncOfInt(n: int)
    ensures Trunc(n as real) == n
  {
  }

  lemma TruncMonotone(a: real, b: real)
    requires a <= b
    ensures Trunc(a) <= Trunc(b)
  {
  }

  function Abs(r: real): real
  {
    if r < 0.0 then -r else r
  }

  /** `tuple(map(int, bbox))` on a float box: each coordinate keeps its sign
      and loses less than one unit of magnitude, toward zero. */
  function TruncBox(b: RealBox): (r: Box)
    ensures Abs(r.x as real) <= Abs(b.x) < Abs(r.x as real) + 1.0
    ensures Abs(r.y as real) <= Abs(b.y) < Abs(r.y as real) + 1.0
    ensures Abs(r.w as real) <= Abs(b.w) < Abs(r.w as real) + 1.0
    ensures Abs(r.h as real) <= Abs(b.h) < Abs(r.h as real) + 1.0
    ensures (b.x < 0.0 ==> r.x <= 0) && (b.x >= 0.0 ==> r.x >= 0)
    ensures (b.y < 0.0 ==> r.y <= 0) && (b.y >= 0.0 ==> r.y >= 0)
    ensures (b.w < 0.0 ==> r.w <= 0) && (b.w >= 0.0 ==> r.w >= 0)
    ensures (b.h < 0.0 ==> r.h <= 0) && (b.h >= 0.0 ==> r.h >= 0)
  {
    Box(Trunc(b.x), Trunc(b.y), Trunc(b.w), Trunc(b.h))
  }

  function ToReal(b: Box): (r: RealBox)
    ensures TruncBox(r) == b
  {
    TruncOfInt(b.x); TruncOfInt(b.y); TruncOfInt(b.w); TruncOfInt(b.h);
    RealBox(b.x as real, b.y as real, b.w as real, b.h as real)
  }
}
