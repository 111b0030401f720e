/** Axis-aligned boxes, the overlap test every collision in the game uses,
    and the clamp that keeps the player on the canvas. */
module Geometry {

  /** An entity's hit box: top-left corner and size, in canvas pixels. */
  datatype Box = Box(x: real, y: real, width: real, height: real)

  /** Strict overlap on both axes: boxes that only touch along an edge do not collide. */
  predicate Collides(a: Box, b: Box)
  {
    a.x < b.x + b.width &&
    a.x + a.width > b.x &&
    a.y < b.y + b.height &&
    a.y + a.height > b.y
  }

  /** The test does not depend on the order of its arguments. */
  lemma CollidesSymmetric(a: Box, b: Box)
    ensures Collides(a, b) <==> Collides(b, a)
  {
  }

  /** A box whose left edge lies exactly on another's right edge does not collide with it,
      whatever the vertical positions; likewise for a bottom edge on a top edge. */
  lemma TouchingEdgesDoNotCollide(a: Box, b: Box)
    requires a.x == b.x + b.width || a.y == b.y + b.height
    ensures !Collides(a, b) && !Collides(b, a)
  {
  }

  /** Two boxes of positive size placed at the same corner always collide. */
  lemma SameCornerCollides(a: Box, b: Box)
    requires a.x == b.x && a.y == b.y
    requires a.width > 0.0 && a.height > 0.0 && b.width > 0.0 && b.height > 0.0
    ensures Collides(a, b)
  {
  }

  function Min(a: real, b: real): real { if a <= b then a else b }
  function Max(a: real, b: real): real { if a >= b then a else b }

  /** Math.max(0, Math.min(v, hi)): a coordinate pushed back into [0, hi]. */
  function Clamp(v: real, hi: real): (r: real)
    ensures 0.0 <= r
    ensures 0.0 <= hi ==> r <= hi
    ensures 0.0 <= v <= hi ==> r == v
    ensures hi < 0.0 ==> r == 0.0
  {
    Max(0.0, Min(v, hi))
  }

  /** Squared Euclidean distance between two points: comparing it with r*r decides
      "distance < r" without a square root. */
  function DistSq(x1: real, y1: real, x2: real, y2: real): (d: real)
    ensures d >= 0.0
  {
    (x1 - x2) * (x1 - x2) + (y1 - y2) * (y1 - y2)
  }
}
