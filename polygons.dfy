/** The straight-line shapes: a seven-sided outline, a triangle, an arrow and an
    animatable trapezoid. Each has an `Outline` function that states the path it
    produces and a `PathIn` method that builds that path command by command. */
module Polygons {
  import opened Geometry

  /** True when `pt` lies in the closed rectangle. */
  predicate Inside(rect: Rect, pt: Point)
  {
    rect.minX <= pt.x <= rect.MaxX() && rect.minY <= pt.y <= rect.MaxY()
  }

  /** A concave eight-point outline. Its quarter abscissae are `maxX / 4` and
      `3 * maxX / 4`, not `minX + width / 4` and `minX + 3 * width / 4`. It is guaranteed to fit the rectangle when minX is 0;
      in general it fits exactly when 3 * minX <= width and maxX >= 0. */
  datatype SevenSidedShape = SevenSidedShape {

    function Outline(rect: Rect): (p: seq<PathCmd>)
      ensures |p| == 8 && IsClosed(p)
      ensures p[0].to == Point(rect.MaxX() / 4.0, rect.minY)
      ensures p[4].to == Point(rect.MidX(), rect.MidY())
      ensures rect.width >= 0.0 && rect.height >= 0.0 ==>
                ((forall k :: 0 <= k < |p| ==> Inside(rect, p[k].to)) <==>
                 3.0 * rect.minX <= rect.width && rect.MaxX() >= 0.0)
    {
      [ MoveTo(Point(rect.MaxX() / 4.0, rect.minY)),
        LineTo(Point(rect.MaxX() * 3.0 / 4.0, rect.minY)),
        LineTo(Point(rect.MaxX(), rect.MidY())),
        LineTo(Point(rect.MaxX() * 3.0 / 4.0, rect.MaxY())),
        LineTo(Point(rect.MidX(), rect.MidY())),
        LineTo(Point(rect.MaxX() / 4.0, rect.MaxY())),
        LineTo(Point(rect.minX, rect.MidY())),
        LineTo(Point(rect.MaxX() / 4.0, rect.minY)) ]
    }

    method PathIn(rect: Rect) returns (p: seq<PathCmd>)
      ensures p == Outline(rect)
    {
      var path := new Path();
      path.Move(Point(rect.MaxX() / 4.0, rect.minY));
      path.AddLine(Point(rect.MaxX() * 3.0 / 4.0, rect.minY));
      path.AddLine(Point(rect.MaxX(), rect.MidY()));
      path.AddLine(Point(rect.MaxX() * 3.0 / 4.0, rect.MaxY()));
      path.AddLine(Point(rect.MidX(), rect.MidY()));
      path.AddLine(Point(rect.MaxX() / 4.0, rect.MaxY()));
      path.AddLine(Point(rect.minX, rect.MidY()));
      path.AddLine(Point(rect.MaxX() / 4.0, rect.minY));
      p := path.commands;
    }
  }

  /** Apex at the top centre, base along the bottom edge. */
  datatype Triangle = Triangle {

    function Outline(rect: Rect): (p: seq<PathCmd>)
      ensures |p| == 4 && IsClosed(p)
      ensures p[0].to == Point(rect.MidX(), rect.minY)
      ensures p[1].to == Point(rect.minX, rect.MaxY())
      ensures p[2].to == Point(rect.MaxX(), rect.MaxY())
      ensures rect.width >= 0.0 && rect.height >= 0.0 ==>
                forall k :: 0 <= k < |p| ==> Inside(rect, p[k].to)
    {
      [ MoveTo(Point(rect.MidX(), rect.minY)),
        LineTo(Point(rect.minX, rect.MaxY())),
        LineTo(Point(rect.MaxX(), rect.MaxY())),
        LineTo(Point(rect.MidX(), rect.minY)) ]
    }

    method PathIn(rect: Rect) returns (p: seq<PathCmd>)
      ensures p == Outline(rect)
    {
      var path := new Path();
      path.Move(Point(rect.MidX(), rect.minY));
      path.AddLine(Point(rect.minX, rect.MaxY()));
      path.AddLine(Point(rect.MaxX(), rect.MaxY()));
      path.AddLine(Point(rect.MidX(), rect.minY));
      p := path.commands;
    }
  }

  /** A shaft from the bottom centre to the top centre and two head strokes from
      the top centre. The line width only styles the stroke; it is not geometry. */
  datatype Arrow = Arrow(lineWidth: int) {

    function Outline(rect: Rect): (p: seq<PathCmd>)
      ensures |p| == 5 && p[0].MoveTo? && p[1].LineTo? && p[2].LineTo? && p[3].MoveTo? && p[4].LineTo?
      ensures p[0].to == Point(rect.MidX(), rect.MaxY()) && p[1].to == Point(rect.MidX(), rect.minY)
      ensures p[3].to == p[1].to
      ensures p[2].to.y == p[4].to.y == rect.MaxY() / 4.0
      ensures rect.minX == 0.0 ==> p[2].to.x - rect.MidX() == rect.MidX() - p[4].to.x
    {
      [ MoveTo(Point(rect.MidX(), rect.MaxY())),
        LineTo(Point(rect.MidX(), rect.minY)),
        LineTo(Point(rect.MaxX() * 5.0 / 8.0, rect.MaxY() / 4.0)),
        MoveTo(Point(rect.MidX(), rect.minY)),
        LineTo(Point(rect.MaxX() * 3.0 / 8.0, rect.MaxY() / 4.0)) ]
    }

    method PathIn(rect: Rect) returns (p: seq<PathCmd>)
      ensures p == Outline(rect)
    {
      var path := new Path();
      path.Move(Point(rect.MidX(), rect.MaxY()));
      path.AddLine(Point(rect.MidX(), rect.minY));
      path.AddLine(Point(rect.MaxX() * 5.0 / 8.0, rect.MaxY() / 4.0));
      path.Move(Point(rect.MidX(), rect.minY));
      path.AddLine(Point(rect.MaxX() * 3.0 / 8.0, rect.MaxY() / 4.0));
      p := path.commands;
    }
  }

  /** The trapezoid outline for a given inset of the top edge. The bottom-left
      corner is at abscissa 0, not at minX. For a non-negative size it fits the
      rectangle exactly when minX <= 0 and the inset lies in [0, width] and is at
      most maxX; with origin 0 that is 0 <= insetAmount <= width. */
  function TrapezoidOutline(rect: Rect, insetAmount: real): (p: seq<PathCmd>)
    ensures |p| == 5 && IsClosed(p)
    ensures rect.width >= 0.0 && rect.height >= 0.0 ==>
              ((forall k :: 0 <= k < |p| ==> Inside(rect, p[k].to)) <==>
               rect.minX <= 0.0 && 0.0 <= insetAmount <= rect.width && insetAmount <= rect.MaxX())
    ensures p[0].to == Point(0.0, rect.MaxY())
    ensures p[1].to == Point(insetAmount, rect.minY) && p[2].to == Point(rect.MaxX() - insetAmount, rect.minY)
    ensures p[3].to == Point(rect.MaxX(), rect.MaxY())
    ensures p[2].to.x - p[1].to.x == rect.MaxX() - 2.0 * insetAmount
  {
    [ MoveTo(Point(0.0, rect.MaxY())),
      LineTo(Point(insetAmount, rect.minY)),
      LineTo(Point(rect.MaxX() - insetAmount, rect.minY)),
      LineTo(Point(rect.MaxX(), rect.MaxY())),
      LineTo(Point(0.0, rect.MaxY())) ]
  }

  function Abs(x: real): real { if x < 0.0 then -x else x }

  /** The outline varies continuously with the animated inset: no corner moves
      further than the change of the inset, and no ordinate moves at all. */
  lemma TrapezoidContinuous(rect: Rect, a: real, b: real)
    ensures forall k :: 0 <= k < 5 ==>
              TrapezoidOutline(rect, a)[k].to.y == TrapezoidOutline(rect, b)[k].to.y &&
              Abs(TrapezoidOutline(rect, a)[k].to.x - TrapezoidOutline(rect, b)[k].to.x) <= Abs(a - b)
  {
  }

  /** A trapezoid whose inset is the animatable value: the animation engine reads
      it, interpolates, and writes the in-between values back. */
  class Trapezoid {
    var insetAmount: real

    constructor (insetAmount: real)
      ensures this.insetAmount == insetAmount
    {
      this.insetAmount := insetAmount;
    }

    /** The getter of the animatable value: the inset itself. */
    function AnimatableData(): (d: real)
      reads this
      ensures d == insetAmount
    {
      insetAmount
    }

    /** The setter of the animatable value: reading back gives what was written. */
    method SetAnimatableData(newValue: real)
      modifies this
      ensures insetAmount == newValue
      ensures AnimatableData() == newValue
    {
      insetAmount := newValue;
    }

    method PathIn(rect: Rect) returns (p: seq<PathCmd>)
      ensures p == TrapezoidOutline(rect, insetAmount)
    {
      var path := new Path();
      path.Move(Point(0.0, rect.MaxY()));
      path.AddLine(Point(insetAmount, rect.minY));
      path.AddLine(Point(rect.MaxX() - insetAmount, rect.minY));
      path.AddLine(Point(rect.MaxX(), rect.MaxY()));
      path.AddLine(Point(0.0, rect.MaxY()));
      p := path.commands;
    }
  }
}
