/**
 Plane geometry shared by the renderer and the drag mapper. Coordinates are the
 slider's own: the origin is the top-left corner of its frame and y grows
 downwards, so an angle grows clockwise on screen.
 */
module Geometry {

  /** The floating-point pi the source uses (`CGFloat.pi`): the double nearest to
      pi, written out exactly. It lies just below the true pi. */
  const Pi: real := 3.141592653589793115997963468544185161590576171875

  datatype Point = Point(x: real, y: real)

  datatype Vector = Vector(dx: real, dy: real)

  /** The offset of `p` from `centre`. */
  function Offset(p: Point, centre: Point): (v: Vector)
    ensures Point(centre.x + v.dx, centre.y + v.dy) == p
  {
    Vector(p.x - centre.x, p.y - centre.y)
  }
}
