/** Plane geometry shared by the eye classifier, the pair matcher and the
    overlay: points, the oriented boxes produced by the contour fitter, and
    squared distances (every square-root comparison of the source is stated
    on squares, which is equivalent because both sides are non-negative). */
module Geometry {

  datatype Point = Point(x: real, y: real)

  /** An oriented bounding box as the contour fitter returns it: its size,
      its angle in degrees and its four corner points (taken as input, since
      the corners are computed by the image library). */
  datatype Box = Box(width: real, height: real, angle: real, corners: seq<Point>)

  /** A box that can take part in pairing: four corners and a positive size
      (only boxes accepted by the single-eye test are ever paired). */
  predicate ValidBox(b: Box) {
    |b.corners| == 4 && b.width > 0.0 && b.height > 0.0
  }

  function Max(a: real, b: real): (r: real)
    ensures r >= a && r >= b && (r == a || r == b)
  {
    if a >= b then a else b
  }

  function Min(a: real, b: real): (r: real)
    ensures r <= a && r <= b && (r == a || r == b)
  {
    if a <= b then a else b
  }

  function Abs(a: real): (r: real)
    ensures r >= 0.0 && (r == a || r == -a)
  {
    if a < 0.0 then -a else a
  }

  function Sq(a: real): (r: real)
    ensures r >= 0.0
  {
    a * a
  }

  /** Squared Euclidean distance from the origin. */
  function NormSq(p: Point): (r: real)
    ensures r >= 0.0
  {
    Sq(p.x) + Sq(p.y)
  }

  /** Squared Euclidean distance between two points. */
  function DistSq(p: Point, q: Point): (r: real)
    ensures r >= 0.0
  {
    Sq(p.x - q.x) + Sq(p.y - q.y)
  }

  /** For non-negative numbers, comparing squares is comparing the numbers:
      this is what lets every `Math.sqrt` comparison be stated on squares. */
  lemma SquareMonotone(a: real, b: real)
    requires a >= 0.0 && b >= 0.0
    ensures a < b <==> Sq(a) < Sq(b)
    ensures a <= b <==> Sq(a) <= Sq(b)
  {
    if a < b {
      SquareStrict(a, b);
    } else if b < a {
      SquareStrict(b, a);
    }
  }

  lemma SquareStrict(x: real, y: real)
    requires 0.0 <= x < y
    ensures Sq(x) < Sq(y)
  {
    var gap := y - x;
    assert Sq(y) == Sq(x) + gap * (y + x);
    assert gap * (y + x) > 0.0;
  }
}
