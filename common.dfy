/** Optional values: the model's stand-in for JavaScript's `null` and `undefined`. */
module Options {
  datatype Option<+T> = None | Some(value: T)
}

/** The two pieces of JavaScript's `Math` that the control surface uses, over exact reals. */
module JsMath {

  /** `Math.round(x)`: the nearest integer, halves rounded up (towards +infinity). */
  function RoundHalfUp(x: real): (n: int)
    ensures x - 0.5 < n as real <= x + 0.5
  {
    (x + 0.5).Floor
  }

  lemma RoundHalfUpMonotone(x: real, y: real)
    requires x <= y
    ensures RoundHalfUp(x) <= RoundHalfUp(y)
  {
  }

  /** `Math.max(0, Math.min(1, x))`. */
  function Clamp01(x: real): (r: real)
    ensures 0.0 <= r <= 1.0
    ensures 0.0 <= x <= 1.0 ==> r == x
    ensures x < 0.0 ==> r == 0.0
    ensures x > 1.0 ==> r == 1.0
  {
    var lower := if 1.0 < x then 1.0 else x;
    if 0.0 > lower then 0.0 else lower
  }

  lemma Clamp01Monotone(x: real, y: real)
    requires x <= y
    ensures Clamp01(x) <= Clamp01(y)
  {
  }
}

/** Screen rectangles as reported by `getBoundingClientRect`, in client coordinates (y grows downwards). */
module Geometry {

  datatype Rect = Rect(left: real, top: real, right: real, bottom: real)

  /** A rectangle that has been laid out with a positive height. */
  predicate HasHeight(r: Rect) {
    r.top < r.bottom
  }

  /** The inclusive hit test `x >= left && x <= right && y >= top && y <= bottom`. */
  predicate Contains(r: Rect, x: real, y: real) {
    r.left <= x <= r.right && r.top <= y <= r.bottom
  }

  /** `(clientY - rect.top) / rect.height`: how far down the rectangle a point lies, 0 at the top edge, 1 at the bottom. */
  function VerticalRatio(y: real, r: Rect): real
    requires HasHeight(r)
  {
    (y - r.top) / (r.bottom - r.top)
  }

  /** A point on or above the top edge lies at ratio 0 or less; on or below the bottom edge, at 1 or more. */
  lemma VerticalRatioOutside(y: real, r: Rect)
    requires HasHeight(r)
    ensures y <= r.top ==> VerticalRatio(y, r) <= 0.0
    ensures y >= r.bottom ==> VerticalRatio(y, r) >= 1.0
  {
    var h := r.bottom - r.top;
    if y <= r.top {
      NonPositiveQuotient(y - r.top, h);
    }
    if y >= r.bottom {
      QuotientAtLeastOne(y - r.top, h);
    }
  }

  lemma NonPositiveQuotient(a: real, h: real)
    requires h > 0.0 && a <= 0.0
    ensures a / h <= 0.0
  {
  }

  lemma QuotientAtLeastOne(a: real, h: real)
    requires h > 0.0 && a >= h
    ensures a / h >= 1.0
  {
  }

  lemma VerticalRatioMonotone(y1: real, y2: real, r: Rect)
    requires HasHeight(r) && y1 <= y2
    ensures VerticalRatio(y1, r) <= VerticalRatio(y2, r)
  {
    var h := r.bottom - r.top;
    assert (y2 - r.top) / h - (y1 - r.top) / h == (y2 - y1) / h;
  }
}

/** The part of a browser touch event the controls read. */
module TouchEvents {
  /** One changed touch of a touch event: its identifier and where it is. */
  datatype TouchPoint = TouchPoint(identifier: int, clientX: real, clientY: real)
}
