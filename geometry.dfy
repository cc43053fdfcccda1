/** Points, sizes and rectangles with the edge conventions of CoreGraphics.
    A rectangle keeps its origin and size as assigned (a size component may be
    negative); its edges are those of the standardized rectangle, so `MinX` is
    always the smaller x edge and `Width` is never negative, while `MidX` is the
    origin plus half the stored width. */
module Geometry {

  datatype Point = Point(x: real, y: real)

  datatype Size = Size(width: real, height: real) {
    predicate NonNegative() { width >= 0.0 && height >= 0.0 }
  }

  const Zero: Point := Point(0.0, 0.0)

  const ZeroRect: Rect := Rect(Zero, Size(0.0, 0.0))

  datatype Rect = Rect(origin: Point, size: Size) {

    function MinX(): real { if size.width < 0.0 then origin.x + size.width else origin.x }
    function MaxX(): real { if size.width < 0.0 then origin.x else origin.x + size.width }
    function MinY(): real { if size.height < 0.0 then origin.y + size.height else origin.y }
    function MaxY(): real { if size.height < 0.0 then origin.y else origin.y + size.height }

    /** The horizontal centre lies halfway between the two x edges. */
    function MidX(): (m: real)
      ensures MinX() <= m <= MaxX() && m - MinX() == MaxX() - m
    {
      origin.x + size.width / 2.0
    }

    /** The vertical centre lies halfway between the two y edges. */
    function MidY(): (m: real)
      ensures MinY() <= m <= MaxY() && m - MinY() == MaxY() - m
    {
      origin.y + size.height / 2.0
    }

    /** The width is the distance between the x edges, whatever the sign of the stored width. */
    function Width(): (w: real)
      ensures w >= 0.0 && w == MaxX() - MinX()
    {
      if size.width < 0.0 then -size.width else size.width
    }

    /** The height is the distance between the y edges, whatever the sign of the stored height. */
    function Height(): (h: real)
      ensures h >= 0.0 && h == MaxY() - MinY()
    {
      if size.height < 0.0 then -size.height else size.height
    }

    /** A point is inside when it lies in the rectangle or on its minimum x or
        minimum y edge; an empty rectangle contains nothing. */
    predicate Contains(p: Point) {
      MinX() <= p.x < MaxX() && MinY() <= p.y < MaxY()
    }
  }

  /** Converts a point from the coordinate space of a view's superview into that
      view's own space, for a view whose frame is `frame`, whose bounds start at
      the origin and which has no transform. The converted point lies inside the
      view's bounds exactly when the original lies inside its frame. */
  function ConvertToView(p: Point, frame: Rect): (q: Point)
    ensures frame.Contains(p) <==> Rect(Zero, frame.size).Contains(q)
    ensures Point(q.x + frame.origin.x, q.y + frame.origin.y) == p
  {
    Point(p.x - frame.origin.x, p.y - frame.origin.y)
  }
}
