# DrawingTutorial shapes in Dafny

This project models the geometry core of the DrawingTutorial app, a small SwiftUI
demo of custom shapes. It covers the eight shape builders in
`DrawingTutorial/ContentView.swift` except the flower, the `animatableData`
accessors of the trapezoid and the checkerboard, and the hue function of the
colour-cycling rings.

- `geometry.dfy` (module `Geometry`): points, the bounding rectangle (`minX`,
  `minY`, `width`, `height`, with derived `MidX`, `MaxX`, `MidY`, `MaxY`), and
  path commands `MoveTo`, `LineTo`, `ArcCmd` and `RectCmd`. The class `Path`
  stands for the platform's mutable path value. Each of its operations (move,
  add line, add arc, add rectangle) appends exactly one command.
- `polygons.dfy` (module `Polygons`): the seven-sided shape, the triangle, the
  arrow and the trapezoid. Each of the first three has an `Outline` function and
  the trapezoid has `TrapezoidOutline`. Every one of these contracts states the
  number of commands and key points of the path. The seven-sided shape, the
  triangle and the trapezoid are closed. The arrow is two open strokes, and its
  contract states the shaft, the shared tip, the height of the head strokes and,
  with origin 0, their mirror symmetry. The contracts of the seven-sided shape,
  the triangle and the trapezoid also state when every point lies in the
  rectangle. Each shape also has a `PathIn` method that builds the same path one
  command at a time, as `path(in:)` does. `Trapezoid` is a class because its
  animatable setter writes its stored inset.
- `arcs.dfy` (module `Arcs`): `Arc` and `InsetArc`. Each emits one arc command.
  The arc is centred in the rectangle. Both angles are reduced by 90 degrees and
  the winding flag is negated. The inset arc's radius shrinks by its inset.
  `InsetArc.Inset` returns a copy with only the inset replaced.
- `checkerboard.dfy` (module `Grid`): the checkerboard. `GridCells` lists, in
  row-major order, the cells whose row plus column is even. `Rects` maps cells to
  rectangles. The lemmas prove four things about this list: which cells are in
  it, the strict row-major order, its count, and its first cell.
  `Checkerboard.PathIn` is the nested loop, proved to emit exactly
  `CheckerboardOutline`. Its animatable setter truncates toward zero, as Swift's
  `Int(Double)` does.
- `color_cycling.dfy` (module `ColorCycling`): `TargetHue`, the hue of ring
  `value`. The lemmas prove that it lies in [0, 1] and that it is the fractional
  part of `value / steps + amount`, except at exactly 1.

All coordinates, sizes and angles are exact `real`s (angles in degrees).

Behaviours of the code worth noting:
- The checkerboard's animatable setter truncates both counts toward zero, as
  Swift's `Int(Double)` does, with no lower bound: any value strictly between -1 and 1 gives a
  count of 0.
- One turn is subtracted from a ring's hue only when the hue is strictly
  greater than 1, so a hue of exactly 1 is kept.
- The seven-sided shape places its quarter points at `maxX / 4` and
  `3 * maxX / 4`, where `minX + width / 4` and `minX + 3 * width / 4` would be
  expected. It is guaranteed to fit the rectangle when its origin is 0, which is
  the local coordinate space shapes are drawn in; `SevenSidedShape.Outline`
  states the exact condition.
- The trapezoid's bottom-left corner is at abscissa 0, not at `minX`. With
  origin 0 it fits the rectangle exactly when the inset lies between 0 and the
  width; `TrapezoidOutline` states the exact condition for any origin.

## Model

| member | source | states |
|---|---|---|
| `Geometry.Path.constructor` | DrawingTutorial/ContentView.swift:12 | a new path has no commands |
| `Geometry.Path.Move` | DrawingTutorial/ContentView.swift:13 | a move appends one move-to command and keeps the earlier commands |
| `Geometry.Path.AddLine` | DrawingTutorial/ContentView.swift:14 | a line appends one line-to command and keeps the earlier commands |
| `Geometry.Path.AddArc` | DrawingTutorial/ContentView.swift:49 | an arc appends one arc record with the given centre, radius, angles and flag |
| `Geometry.Path.AddRect` | DrawingTutorial/ContentView.swift:282 | a rectangle appends one rectangle record with the rectangle's origin and size |
| `Polygons.SevenSidedShape.Outline` | DrawingTutorial/ContentView.swift:13-20 | eight points forming a closed polyline; the first is (maxX/4, minY) and the fifth is the centre (midX, midY); for a non-negative size every point lies in the rectangle if and only if 3 * minX <= width and maxX >= 0, which holds in particular when minX is 0 |
| `Polygons.SevenSidedShape.PathIn` | DrawingTutorial/ContentView.swift:11-21 | building the path move by move yields exactly the seven-sided outline |
| `Polygons.Triangle.Outline` | DrawingTutorial/ContentView.swift:28-31 | a closed four-point polyline through (midX, minY), (minX, maxY) and (maxX, maxY), back to the apex; inside the rectangle when the size is non-negative |
| `Polygons.Triangle.PathIn` | DrawingTutorial/ContentView.swift:26-34 | building the path yields exactly the triangle outline |
| `Polygons.Arrow.Outline` | DrawingTutorial/ContentView.swift:301-305 | two strokes: a shaft from (midX, maxY) to the tip (midX, minY), and two head strokes that both start at the tip and end at height maxY/4; with origin 0 the head strokes mirror each other about midX |
| `Polygons.Arrow.PathIn` | DrawingTutorial/ContentView.swift:298-309 | building the path yields exactly the arrow outline, whatever the line width |
| `Polygons.TrapezoidOutline` | DrawingTutorial/ContentView.swift:220-224 | five points, closed, first and last at (0, maxY); the top edge runs from (inset, minY) to (maxX - inset, minY), so its length is maxX - 2 * inset; for a non-negative size every point lies in the rectangle if and only if minX <= 0, 0 <= inset <= width and inset <= maxX, which with origin 0 is 0 <= inset <= width |
| `Polygons.TrapezoidContinuous` | DrawingTutorial/ContentView.swift:210-224 | changing the animated inset moves no corner's abscissa further than the change and moves no ordinate, so the outline varies continuously |
| `Polygons.Trapezoid.constructor` | DrawingTutorial/ContentView.swift:209-210 | a trapezoid stores the inset it is given |
| `Polygons.Trapezoid.AnimatableData` | DrawingTutorial/ContentView.swift:213 | the getter of the animatable value returns the inset |
| `Polygons.Trapezoid.SetAnimatableData` | DrawingTutorial/ContentView.swift:212-215 | setting the animatable value stores it as the inset, and reading it back gives the value set |
| `Polygons.Trapezoid.PathIn` | DrawingTutorial/ContentView.swift:217-227 | building the path yields exactly the trapezoid outline for the stored inset |
| `Arcs.ArcOutline` | DrawingTutorial/ContentView.swift:44-49 | one arc command centred at (midX, midY) with the given radius; both angles are 90 degrees less than the shape's, so the sweep is unchanged; the winding flag is the negation of the shape's |
| `Arcs.Arc.Outline` | DrawingTutorial/ContentView.swift:43-52 | the plain arc is that arc command with radius width / 2 |
| `Arcs.Arc.PathIn` | DrawingTutorial/ContentView.swift:43-52 | building the path yields exactly the plain arc's outline |
| `Arcs.InsetArc.Outline` | DrawingTutorial/ContentView.swift:64-73 | the inset arc is that arc command with radius width / 2 - insetAmount |
| `Arcs.InsetArc.PathIn` | DrawingTutorial/ContentView.swift:64-73 | building the path yields exactly the inset arc's outline |
| `Arcs.InsetArc.Inset` | DrawingTutorial/ContentView.swift:75-79 | the copy has the new inset and the receiver's start angle, end angle and direction |
| `Arcs.MakeInsetArc` | DrawingTutorial/ContentView.swift:58-62 | an inset arc made without an inset has inset 0 |
| `Arcs.DefaultInsetArcIsArc` | DrawingTutorial/ContentView.swift:43-73 | with the default inset the inset arc draws exactly what the plain arc draws |
| `Arcs.InsetShrinksRadius` | DrawingTutorial/ContentView.swift:70-78 | insetting by an amount gives the plain arc with its radius reduced by exactly that amount, and nothing else changed |
| `Arcs.InsetLastWins` | DrawingTutorial/ContentView.swift:75-79 | only the last inset counts, and insetting by the current inset gives back the same arc |
| `Arcs.SemicircleMidAngle` | DrawingTutorial/ContentView.swift:44-49 | a clockwise sweep from a to a + 180 degrees is emitted with mid angle a and the counter-clockwise flag of the primitive |
| `Grid.RowCells` | DrawingTutorial/ContentView.swift:275-276 | every listed cell of a row lies in that row, left of the column bound, and has an even row plus column |
| `Grid.GridCells` | DrawingTutorial/ContentView.swift:274-276 | every listed cell lies in the grid and has an even row plus column |
| `Grid.RowCellsMembers` | DrawingTutorial/ContentView.swift:275-276 | a cell is listed in its row if and only if it is in range and colored |
| `Grid.GridCellsMembers` | DrawingTutorial/ContentView.swift:274-276 | a cell is listed if and only if it lies in the grid and its row plus column is even |
| `Grid.RowCellsSorted` | DrawingTutorial/ContentView.swift:275 | a row's cells come left to right |
| `Grid.GridCellsSorted` | DrawingTutorial/ContentView.swift:274-275 | the cells come in strict row-major order, so no cell is listed twice |
| `Grid.RowCount` | DrawingTutorial/ContentView.swift:275-276 | an even row has ceil(columns / 2) colored cells and an odd row floor(columns / 2) |
| `Grid.GridCountSplit` | DrawingTutorial/ContentView.swift:274-276 | the grid has rows * floor(columns / 2) colored cells, plus ceil(rows / 2) when the column count is odd |
| `Grid.GridCount` | DrawingTutorial/ContentView.swift:274-276 | a rows-by-columns grid has ceil(rows * columns / 2) colored cells |
| `Grid.GridStartsAtOrigin` | DrawingTutorial/ContentView.swift:274-276 | a non-empty grid starts with the cell at row 0, column 0 |
| `Grid.OffsetIsProduct` | DrawingTutorial/ContentView.swift:278-279 | the offset of the n-th cell, defined by repeated addition, is the cell size times n, the product the source computes |
| `Grid.CellRectAt` | DrawingTutorial/ContentView.swift:278-282 | a cell's rectangle starts at (columnSize * column, rowSize * row) and is one cell in size |
| `Grid.Rects` | DrawingTutorial/ContentView.swift:281-282 | one rectangle per cell |
| `Grid.RectsAt` | DrawingTutorial/ContentView.swift:278-282 | the k-th rectangle is the k-th cell's rectangle |
| `Grid.RectsAppend` | DrawingTutorial/ContentView.swift:282 | drawing one more cell appends its rectangle |
| `Grid.RowSize` | DrawingTutorial/ContentView.swift:270 | for a positive row count, that many rows of this height fill the rectangle's height |
| `Grid.ColumnSize` | DrawingTutorial/ContentView.swift:271 | for a positive column count, that many columns of this width fill the rectangle's width |
| `Grid.CheckerboardOutline` | DrawingTutorial/ContentView.swift:266-288 | ceil(rows * columns / 2) rectangles, none when there are no rows or no columns, each one cell in size (width / columns by height / rows), the first at the origin |
| `Grid.DrawnSoFarRowStart` | DrawingTutorial/ContentView.swift:274-275 | finishing a row is starting the next |
| `Grid.DrawnSoFarComplete` | DrawingTutorial/ContentView.swift:274-287 | after the last row the rectangles drawn are the whole board |
| `Grid.DrawnSoFarStep` | DrawingTutorial/ContentView.swift:276-283 | visiting a cell adds its rectangle exactly when its row plus column is even |
| `Grid.FourByFour` | DrawingTutorial/ContentView.swift:266-288 | a 4-by-4 board of 100 by 100 has 8 squares of 25 by 25, the first at the origin |
| `Grid.Trunc` | DrawingTutorial/ContentView.swift:246-247 | the result is the whole part toward zero: at most the argument and within one below it for non-negative arguments, at least it and within one above it for negative ones |
| `Grid.TruncExact` | DrawingTutorial/ContentView.swift:240-248 | truncation returns its argument if and only if the argument is a whole number |
| `Grid.TruncOfInt` | DrawingTutorial/ContentView.swift:242-247 | truncating a whole number gives that number |
| `Grid.Checkerboard.constructor` | DrawingTutorial/ContentView.swift:233-235 | a checkerboard stores the row and column counts it is given |
| `Grid.Checkerboard.AnimatableData` | DrawingTutorial/ContentView.swift:241-243 | the getter returns the counts as reals; both are whole numbers, and truncating them gives the counts back |
| `Grid.Checkerboard.SetAnimatableData` | DrawingTutorial/ContentView.swift:240-248 | the setter stores both components truncated toward zero; reading back gives the value set if and only if both components are whole; setting the value just read changes nothing |
| `Grid.Checkerboard.PathIn` | DrawingTutorial/ContentView.swift:266-288 | for non-negative counts the nested loop emits exactly the checkerboard outline, in row-major order |
| `ColorCycling.ColorCyclingCircle.TargetHue` | DrawingTutorial/ContentView.swift:143-148 | the hue is value / steps + amount or that less one turn, and it is left unchanged if and only if that sum is at most 1 |
| `ColorCycling.MakeColorCyclingCircle` | DrawingTutorial/ContentView.swift:119-121 | a circle built with only a shift keeps that shift and has the default 100 rings |
| `ColorCycling.DefaultColorCyclingCircle` | DrawingTutorial/ContentView.swift:119-121 | a circle built with no arguments has shift 0 and 100 rings |
| `ColorCycling.RingShare` | DrawingTutorial/ContentView.swift:125 | a drawn ring's share value / steps lies in [0, 1) |
| `ColorCycling.HueInRange` | DrawingTutorial/ContentView.swift:143-148 | for a drawn ring and a shift in [0, 1] the hue lies in [0, 1] |
| `ColorCycling.HueIsFractionalPart` | DrawingTutorial/ContentView.swift:143-148 | away from exactly 1 the hue is the fractional part of value / steps + amount |
| `ColorCycling.HueExamples` | DrawingTutorial/ContentView.swift:119-148 | with the default 100 rings: ring 0 has hue 0, ring 50 has hue 0.5, shifted by 0.7 it has 0.2, and shifted by 0.5 it stays at 1 |

## Left out

- `Flower` is not modelled. Its petals are placed with sines and cosines, and
  their number depends on a floating-point stride over 2π.
- View bodies, gradients, `strokeBorder`, `drawingGroup`, the slider and the
  app entry point are not modelled. They are composition and rendering done by
  the UI framework. The code commented out in the source is not modelled either.
- Building a `Color` from hue, saturation and brightness is not modelled.
  `ColorCyclingCircle.TargetHue` models only the hue. The brightness argument of
  `color(for:brightness:)` is passed to the colour unchanged and does not enter
  the hue, so it is not a parameter here.
- How the framework draws arcs and rectangles is not modelled. `ArcCmd` and
  `RectCmd` are plain records. A rectangle added to a path is one record, not
  its four edges.
- Floating-point rounding is not modelled: coordinates are exact reals. SwiftUI
  stores angles in radians; the model keeps degrees, which differ only by a
  constant factor.
- A rectangle is taken in standardized form (`minX`, `minY`, `width`,
  `height`). A rectangle with a negative width or height, which the framework
  would standardize first, is not modelled.
- The animation engine that interpolates the animatable values is not modelled.
  Only the getters and setters are.
- `Grid.Checkerboard.PathIn` requires non-negative counts, because a Swift range
  with a negative upper bound traps. With a count of 0 the source divides by
  zero and gets an infinite or NaN cell size. That size is never used because no
  rectangle is drawn. The model uses 0 there (`RowSize`, `ColumnSize`).
- `Grid.Trunc` does not model the trap of `Int(Double)` on a NaN, an infinity or
  a value outside the 64-bit range. Exact reals have no NaN or infinity, and the
  model's integers are unbounded.
- `Polygons.Arrow.PathIn`: the arrow's `lineWidth` only styles the stroke in the
  view body and plays no part in the path.
