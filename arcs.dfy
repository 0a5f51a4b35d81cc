/** Circular arcs centred in the bounding rectangle. Angles are in degrees and are
    rotated back by a quarter turn, so that an angle of 0 points up rather than
    right; the winding flag is inverted before it reaches the arc primitive. */
module Arcs {
  import opened Geometry

  /** The quarter-turn rotation subtracted from both angles. */
  const RotationAdjustment: real := 90.0

  /** The single arc command both arc shapes emit for a given radius. */
  function ArcOutline(rect: Rect, radius: real, startAngle: real, endAngle: real, clockwise: bool): (p: seq<PathCmd>)
    ensures |p| == 1 && p[0].ArcCmd?
    ensures p[0].center == Point(rect.MidX(), rect.MidY()) && p[0].radius == radius
    ensures p[0].startAngle + RotationAdjustment == startAngle && p[0].endAngle + RotationAdjustment == endAngle
    ensures p[0].endAngle - p[0].startAngle == endAngle - startAngle
    ensures p[0].clockwise != clockwise
  {
    [ArcCmd(Point(rect.MidX(), rect.MidY()), radius,
            startAngle - RotationAdjustment, endAngle - RotationAdjustment, !clockwise)]
  }

  /** An arc whose radius is half the rectangle's width. */
  datatype Arc = Arc(startAngle: real, endAngle: real, clockwise: bool) {

    function Outline(rect: Rect): (p: seq<PathCmd>)
      ensures p == ArcOutline(rect, rect.width / 2.0, startAngle, endAngle, clockwise)
    {
      ArcOutline(rect, rect.width / 2.0, startAngle, endAngle, clockwise)
    }

    method PathIn(rect: Rect) returns (p: seq<PathCmd>)
      ensures p == Outline(rect)
    {
      var modifiedStartAngle := startAngle - RotationAdjustment;
      var modifiedEndAngle := endAngle - RotationAdjustment;
      var path := new Path();
      path.AddArc(Point(rect.MidX(), rect.MidY()), rect.width / 2.0,
                  modifiedStartAngle, modifiedEndAngle, !clockwise);
      p := path.commands;
    }
  }

  /** An arc that can be inset: its radius shrinks by `insetAmount`, so that a
      border stroked inside the shape stays inside the rectangle. */
  datatype InsetArc = InsetArc(startAngle: real, endAngle: real, clockwise: bool, insetAmount: real) {

    function Outline(rect: Rect): (p: seq<PathCmd>)
      ensures p == ArcOutline(rect, rect.width / 2.0 - insetAmount, startAngle, endAngle, clockwise)
    {
      ArcOutline(rect, rect.width / 2.0 - insetAmount, startAngle, endAngle, clockwise)
    }

    method PathIn(rect: Rect) returns (p: seq<PathCmd>)
      ensures p == Outline(rect)
    {
      var modifiedStartAngle := startAngle - RotationAdjustment;
      var modifiedEndAngle := endAngle - RotationAdjustment;
      var path := new Path();
      path.AddArc(Point(rect.MidX(), rect.MidY()), rect.width / 2.0 - insetAmount,
                  modifiedStartAngle, modifiedEndAngle, !clockwise);
      p := path.commands;
    }

    /** A copy of this arc with its inset replaced; the arc itself is a value and
        is left as it was. */
    function Inset(amount: real): (arc: InsetArc)
      ensures arc.insetAmount == amount
      ensures arc.startAngle == startAngle && arc.endAngle == endAngle && arc.clockwise == clockwise
    {
      this.(insetAmount := amount)
    }
  }

  /** An inset arc built without an inset starts with an inset of 0. */
  function MakeInsetArc(startAngle: real, endAngle: real, clockwise: bool): (arc: InsetArc)
    ensures arc.insetAmount == 0.0
    ensures arc.startAngle == startAngle && arc.endAngle == endAngle && arc.clockwise == clockwise
  {
    InsetArc(startAngle, endAngle, clockwise, 0.0)
  }

  /** With no inset an inset arc draws exactly the plain arc. */
  lemma DefaultInsetArcIsArc(startAngle: real, endAngle: real, clockwise: bool, rect: Rect)
    ensures MakeInsetArc(startAngle, endAngle, clockwise).Outline(rect)
         == Arc(startAngle, endAngle, clockwise).Outline(rect)
  {
  }

  /** Insetting by `amount` shrinks the plain arc's radius by exactly `amount` and
      changes nothing else of the path. */
  lemma InsetShrinksRadius(arc: InsetArc, amount: real, rect: Rect)
    ensures var inset := arc.Inset(amount).Outline(rect)[0];
            var plain := Arc(arc.startAngle, arc.endAngle, arc.clockwise).Outline(rect)[0];
            inset == plain.(radius := plain.radius - amount)
  {
  }

  /** Only the last inset counts, and re-insetting by the current amount changes nothing. */
  lemma InsetLastWins(arc: InsetArc, a: real, b: real)
    ensures arc.Inset(a).Inset(b) == arc.Inset(b)
    ensures arc.Inset(arc.insetAmount) == arc
  {
  }

  /** Sweeping clockwise from `a` to `a + 180` degrees: after the quarter-turn
      rotation the mid angle of the emitted arc is `a - 90 + 90 = a`. The emitted
      angles follow the primitive's convention, where 0 points right, so the
      semicircle is centred on the direction `a` counted from the right, which is
      `a + 90` in the shape's own convention, counted from the top. */
  lemma SemicircleMidAngle(a: real, rect: Rect)
    ensures var cmd := Arc(a, a + 180.0, true).Outline(rect)[0];
            (cmd.startAngle + cmd.endAngle) / 2.0 == a && !cmd.clockwise
  {
  }
}
