/** Points and line segments of the y-up scene that the CDF viewer draws into. */
module Geometry {

  /** A position (or a scale vector) in scene space; y is the height axis. */
  datatype Vec3 = Vec3(x: real, y: real, z: real)

  /** A line between two points, as the tick marks are drawn. */
  datatype Segment = Segment(from: Vec3, to: Vec3)

  /** The point halfway between the two ends of a segment. */
  function Midpoint(s: Segment): Vec3
  {
    Vec3((s.from.x + s.to.x) / 2.0, (s.from.y + s.to.y) / 2.0, (s.from.z + s.to.z) / 2.0)
  }

  /** JavaScript's Math.min on two numbers (NaN does not arise in this model). */
  function Min(a: real, b: real): (r: real)
    ensures r <= a && r <= b
    ensures r == a || r == b
  {
    if a <= b then a else b
  }

  /** JavaScript's Math.max on two numbers. */
  function Max(a: real, b: real): (r: real)
    ensures a <= r && b <= r
    ensures r == a || r == b
  {
    if a <= b then b else a
  }
}
