/** Scalar helpers and the axis-aligned rectangle overlap test of TapDodge.
    Coordinates are CSS pixels, modelled as reals; y grows downward. */
module Geometry {

  /** An axis-aligned rectangle with top-left corner (x, y), width w and height h. */
  datatype Rect = Rect(x: real, y: real, w: real, h: real)

  /** A rectangle whose sides are not negative. */
  predicate WellFormed(r: Rect) {
    r.w >= 0.0 && r.h >= 0.0
  }

  /** The closed rectangle contains the point (px, py). */
  predicate Contains(r: Rect, px: real, py: real) {
    r.x <= px <= r.x + r.w && r.y <= py <= r.y + r.h
  }

  /** `Math.min` on two numbers. */
  function Min(a: real, b: real): (r: real)
    ensures r <= a && r <= b
    ensures r == a || r == b
  {
    if a <= b then a else b
  }

  /** `Math.max` on two numbers. */
  function Max(a: real, b: real): (r: real)
    ensures r >= a && r >= b
    ensures r == a || r == b
  {
    if a >= b then a else b
  }

  /** `clamp(v, a, b) = max(a, min(b, v))`: the lower bound wins when the
      bounds are crossed. */
  function Clamp(v: real, lo: real, hi: real): (r: real)
    ensures lo <= r
    ensures lo <= hi ==> r <= hi
    ensures lo <= v <= hi ==> r == v
    ensures v <= lo ==> r == lo
    ensures lo <= hi <= v ==> r == hi
    ensures hi < lo ==> r == lo
  {
    Max(lo, Min(hi, v))
  }

  /** Clamping preserves the order of its argument. */
  lemma ClampMonotone(v1: real, v2: real, lo: real, hi: real)
    requires v1 <= v2
    ensures Clamp(v1, lo, hi) <= Clamp(v2, lo, hi)
  {
  }

  /** `rectsHit(a, b)`: the rectangles are not separated on either axis.
      The comparisons are strict, so rectangles that only touch collide. */
  predicate RectsHit(a: Rect, b: Rect)
    ensures WellFormed(a) && WellFormed(b) ==> (RectsHit(a, b) <==>
      IntervalsMeet(a.x, a.x + a.w, b.x, b.x + b.w) && IntervalsMeet(a.y, a.y + a.h, b.y, b.y + b.h))
  {
    !(a.x + a.w < b.x || a.x > b.x + b.w || a.y + a.h < b.y || a.y > b.y + b.h)
  }

  /** The closed intervals [lo1, hi1] and [lo2, hi2] have a common point:
      the later start is no later than the earlier end. */
  predicate IntervalsMeet(lo1: real, hi1: real, lo2: real, hi2: real) {
    Max(lo1, lo2) <= Min(hi1, hi2)
  }

  /** The test does not depend on the order of its arguments. */
  lemma RectsHitSymmetric(a: Rect, b: Rect)
    ensures RectsHit(a, b) == RectsHit(b, a)
  {
  }

  /** A point common to two colliding rectangles: the larger of the two left
      edges and the larger of the two top edges. */
  lemma SharedPoint(a: Rect, b: Rect) returns (px: real, py: real)
    requires WellFormed(a) && WellFormed(b)
    requires RectsHit(a, b)
    ensures Contains(a, px, py) && Contains(b, px, py)
    ensures px == Max(a.x, b.x) && py == Max(a.y, b.y)
  {
    px := Max(a.x, b.x);
    py := Max(a.y, b.y);
  }

  /** For well-formed rectangles the test is exactly "the closed rectangles
      share a point". */
  lemma RectsHitIffSharedPoint(a: Rect, b: Rect)
    requires WellFormed(a) && WellFormed(b)
    ensures RectsHit(a, b) <==> exists px, py :: Contains(a, px, py) && Contains(b, px, py)
  {
    if RectsHit(a, b) {
      var px, py := SharedPoint(a, b);
    }
  }

  /** Rectangles that meet only along a vertical edge (the right side of `a`
      lies on the left side of `b`) share no interior point, yet they hit. */
  lemma EdgeContactHits(a: Rect, b: Rect)
    requires WellFormed(a) && WellFormed(b)
    requires a.x + a.w == b.x
    requires b.y <= a.y + a.h && a.y <= b.y + b.h
    ensures RectsHit(a, b) && RectsHit(b, a)
    ensures forall px, py :: Contains(a, px, py) && Contains(b, px, py) ==> px == b.x
  {
  }

  /** Rectangles that meet only at a corner hit as well. */
  lemma CornerContactHits(a: Rect, b: Rect)
    requires WellFormed(a) && WellFormed(b)
    requires a.x + a.w == b.x && a.y + a.h == b.y
    ensures RectsHit(a, b) && RectsHit(b, a)
  {
  }
}
