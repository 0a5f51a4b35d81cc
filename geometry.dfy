/** Points, bounding rectangles and drawing commands shared by every shape.
    Coordinates are exact reals; the platform's floating-point rounding is not modelled. */
module Geometry {

  datatype Point = Point(x: real, y: real)

  /** A standardized bounding rectangle: origin (minX, minY) and its extent. */
  datatype Rect = Rect(minX: real, minY: real, width: real, height: real) {
    function MidX(): real { minX + width / 2.0 }
    function MaxX(): real { minX + width }
    function MidY(): real { minY + height / 2.0 }
    function MaxY(): real { minY + height }
  }

  /** One drawing command of a path. Arc angles are in degrees; `clockwise` is the
      flag handed to the platform's arc primitive. Arcs and rectangles are kept as
      records: how they are rasterised is not part of this model. */
  datatype PathCmd =
    | MoveTo(to: Point)
    | LineTo(to: Point)
    | ArcCmd(center: Point, radius: real, startAngle: real, endAngle: real, clockwise: bool)
    | RectCmd(x: real, y: real, w: real, h: real)

  /** A single open or closed polyline: one move followed only by lines. */
  predicate IsPolyline(p: seq<PathCmd>)
  {
    |p| > 0 && p[0].MoveTo? && forall k :: 1 <= k < |p| ==> p[k].LineTo?
  }

  /** A polyline whose last point is its first point. */
  predicate IsClosed(p: seq<PathCmd>)
  {
    IsPolyline(p) && p[|p| - 1].to == p[0].to
  }

  /** The path under construction, with the mutating operations the shapes call.
      Each operation appends exactly one command and changes nothing else. */
  class Path {
    var commands: seq<PathCmd>

    constructor ()
      ensures commands == []
    {
      commands := [];
    }

    method Move(to: Point)
      modifies this
      ensures commands == old(commands) + [MoveTo(to)]
    {
      commands := commands + [MoveTo(to)];
    }

    method AddLine(to: Point)
      modifies this
      ensures commands == old(commands) + [LineTo(to)]
    {
      commands := commands + [LineTo(to)];
    }

    method AddArc(center: Point, radius: real, startAngle: real, endAngle: real, clockwise: bool)
      modifies this
      ensures commands == old(commands) + [ArcCmd(center, radius, startAngle, endAngle, clockwise)]
    {
      commands := commands + [ArcCmd(center, radius, startAngle, endAngle, clockwise)];
    }

    method AddRect(rect: Rect)
      modifies this
      ensures commands == old(commands) + [RectCmd(rect.minX, rect.minY, rect.width, rect.height)]
    {
      commands := commands + [RectCmd(rect.minX, rect.minY, rect.width, rect.height)];
    }
  }
}
