/** Points and triangles in 3-space (the `float3` vector type and the
    three-vertex triangle blocks the mesh is made of). Coordinates are reals. */
module Geometry {

  /** A position in 3-space (`float3` / `double3`). */
  datatype Point = Point(x: real, y: real, z: real)

  /** One triangle: three independent vertex positions (no shared-vertex indexing). */
  datatype Triangle = Triangle(a: Point, b: Point, c: Point)

  const Origin: Point := Point(0.0, 0.0, 0.0)

  /** Component-wise sum. */
  function Translate(p: Point, d: Point): Point {
    Point(p.x + d.x, p.y + d.y, p.z + d.z)
  }

  /** The point `p0 + mu * (p1 - p0)` on the line through p0 and p1. */
  function Lerp(p0: Point, p1: Point, mu: real): Point {
    Point(p0.x + mu * (p1.x - p0.x), p0.y + mu * (p1.y - p0.y), p0.z + mu * (p1.z - p0.z))
  }

  /** The vertices of a triangle in storage order. */
  function Vertices(t: Triangle): seq<Point> {
    [t.a, t.b, t.c]
  }
}
