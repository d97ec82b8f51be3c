/** Plane geometry and the numeric helpers the swipe handler uses:
    points with real coordinates, absolute values, clamping and
    round-half-away-from-zero. */
module Geometry {

  /** A position or a displacement with real coordinates. */
  datatype Point = Point(x: real, y: real) {
    /** Component-wise difference `this - p`. */
    function Minus(p: Point): Point {
      Point(x - p.x, y - p.y)
    }
  }

  /** The null point (a default-constructed point). */
  const Origin := Point(0.0, 0.0)

  function Abs(v: real): (r: real)
    ensures r >= 0.0
    ensures r == v || r == -v
  {
    if v < 0.0 then -v else v
  }

  function AbsInt(v: int): (r: nat)
    ensures r == v || r == -v
  {
    if v < 0 then -v else v
  }

  /** `v` forced into `[lo, hi]`, as the C++ standard library's clamp does:
      `lo` when `v < lo`, `hi` when `hi < v`, `v` otherwise. */
  function Clamp(v: real, lo: real, hi: real): (r: real)
    requires lo <= hi
    ensures lo <= r <= hi
    ensures lo <= v <= hi ==> r == v
    ensures v < lo ==> r == lo
    ensures hi < v ==> r == hi
  {
    if v < lo then lo else if hi < v then hi else v
  }

  lemma ClampMonotone(a: real, b: real, lo: real, hi: real)
    requires lo <= hi && a <= b
    ensures Clamp(a, lo, hi) <= Clamp(b, lo, hi)
  {
  }

  /** Rounding to the nearest integer, halves away from zero. */
  function Round(v: real): (r: int)
    ensures v - 0.5 <= r as real <= v + 0.5
    ensures v >= 0.0 ==> r >= 0
    ensures v <= 0.0 ==> r <= 0
  {
    if v >= 0.0 then (v + 0.5).Floor else -((0.5 - v).Floor)
  }

  /** Rounding keeps order: a larger value never rounds to a smaller integer. */
  lemma RoundMonotone(a: real, b: real)
    requires a <= b
    ensures Round(a) <= Round(b)
  {
  }
}
