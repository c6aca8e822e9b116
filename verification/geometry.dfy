/** The values the interpreter computes with: points and the line segments it emits. */
module Geometry {

  /** A plotter position; coordinates are exact reals standing in for C doubles. */
  datatype Point = Point(x: real, y: real)

  /** The only entity ever emitted: a line from `start` to `end`. */
  datatype Segment = Segment(start: Point, end: Point)

  /** Component-wise sum, the target of a relative move. */
  function Add(p: Point, d: Point): (r: Point)
    ensures r.x - p.x == d.x && r.y - p.y == d.y
  {
    Point(p.x + d.x, p.y + d.y)
  }
}
