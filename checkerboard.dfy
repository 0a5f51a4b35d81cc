/** The checkerboard shape: a rows-by-columns grid in which every cell whose row
    plus column is even is drawn as a rectangle, visited in row-major order. The
    row and column counts are the animatable pair. */
module Grid {
  import opened Geometry

  datatype Cell = Cell(row: nat, column: nat)

  /** The cells that are drawn: row plus column is even. */
  predicate Colored(c: Cell)
  {
    (c.row + c.column) % 2 == 0
  }

  predicate InGrid(c: Cell, rows: nat, columns: nat)
  {
    c.row < rows && c.column < columns
  }

  /** Row-major order: earlier row, or same row and earlier column. */
  predicate Before(a: Cell, b: Cell)
  {
    a.row < b.row || (a.row == b.row && a.column < b.column)
  }

  /** The colored cells of `row` among its first `columns` columns, left to right. */
  function RowCells(row: nat, columns: nat): (cells: seq<Cell>)
    ensures forall k :: 0 <= k < |cells| ==>
              cells[k].row == row && cells[k].column < columns && Colored(cells[k])
  {
    if columns == 0 then []
    else RowCells(row, columns - 1) + (if Colored(Cell(row, columns - 1)) then [Cell(row, columns - 1)] else [])
  }

  /** The colored cells of the first `rows` rows, in row-major order. */
  function GridCells(rows: nat, columns: nat): (cells: seq<Cell>)
    ensures forall k :: 0 <= k < |cells| ==> InGrid(cells[k], rows, columns) && Colored(cells[k])
  {
    if rows == 0 then [] else GridCells(rows - 1, columns) + RowCells(rows - 1, columns)
  }

  /** `n` copies of `size` laid end to end: the offset of the n-th row or column.
      The source computes this offset as the product `size * n`. It is defined
      here by repeated addition so that the solver, when reasoning about the
      outline and the loop, sees no product of two real variables (nonlinear
      real arithmetic, which it handles poorly). `OffsetIsProduct` proves the two
      agree, and `CellRectAt` restates the cell's rectangle with the product. */
  function Offset(size: real, n: nat): real
  {
    if n == 0 then 0.0 else Offset(size, n - 1) + size
  }

  lemma {:induction false} OffsetIsProduct(size: real, n: nat)
    ensures Offset(size, n) == size * n as real
  {
    if n > 0 {
      OffsetIsProduct(size, n - 1);
      assert size * n as real == size * (n - 1) as real + size;
    }
  }

  /** The rectangle drawn for a cell of the grid. */
  function CellRect(c: Cell, rowSize: real, columnSize: real): PathCmd
  {
    RectCmd(Offset(columnSize, c.column), Offset(rowSize, c.row), columnSize, rowSize)
  }

  /** The rectangle of a cell starts at the cell's row and column times the cell size. */
  lemma CellRectAt(row: nat, column: nat, rowSize: real, columnSize: real)
    ensures CellRect(Cell(row, column), rowSize, columnSize) == RectCmd(columnSize * column as real, rowSize * row as real, columnSize, rowSize)
  {
    OffsetIsProduct(columnSize, column);
    OffsetIsProduct(rowSize, row);
  }

  /** One rectangle per cell, in the cells' order. */
  function Rects(cells: seq<Cell>, rowSize: real, columnSize: real): (p: seq<PathCmd>)
    ensures |p| == |cells|
  {
    if |cells| == 0 then []
    else Rects(cells[..|cells| - 1], rowSize, columnSize) + [CellRect(cells[|cells| - 1], rowSize, columnSize)]
  }

  /** The k-th rectangle is the k-th cell's. */
  lemma {:induction false} RectsAt(cells: seq<Cell>, rowSize: real, columnSize: real)
    ensures forall k :: 0 <= k < |cells| ==> Rects(cells, rowSize, columnSize)[k] == CellRect(cells[k], rowSize, columnSize)
  {
    if |cells| > 0 {
      RectsAt(cells[..|cells| - 1], rowSize, columnSize);
    }
  }

  /** Height of a row: `rows` rows of it fill the rectangle's height. Unused
      (and 0 here) when there are no rows. */
  function RowSize(rect: Rect, rows: nat): (size: real)
    ensures rows > 0 ==> size * rows as real == rect.height
    ensures rows == 0 ==> size == 0.0
  {
    if rows == 0 then 0.0 else rect.height / rows as real
  }

  /** Width of a column: `columns` columns of it fill the rectangle's width.
      Unused (and 0 here) when there are no columns. */
  function ColumnSize(rect: Rect, columns: nat): (size: real)
    ensures columns > 0 ==> size * columns as real == rect.width
    ensures columns == 0 ==> size == 0.0
  {
    if columns == 0 then 0.0 else rect.width / columns as real
  }

  /** The checkerboard path: one cell-sized rectangle per colored cell. */
  function CheckerboardOutline(rect: Rect, rows: nat, columns: nat): (p: seq<PathCmd>)
    ensures |p| == (rows * columns + 1) / 2
    ensures rows == 0 || columns == 0 ==> p == []
    ensures forall k :: 0 <= k < |p| ==>
              p[k].RectCmd? && p[k].w == ColumnSize(rect, columns) && p[k].h == RowSize(rect, rows)
    ensures rows > 0 && columns > 0 ==> p[0] == RectCmd(0.0, 0.0, ColumnSize(rect, columns), RowSize(rect, rows))
  {
    GridCount(rows, columns);
    GridStartsAtOrigin(rows, columns);
    RectsAt(GridCells(rows, columns), RowSize(rect, rows), ColumnSize(rect, columns));
    Rects(GridCells(rows, columns), RowSize(rect, rows), ColumnSize(rect, columns))
  }

  lemma RectsAppend(cells: seq<Cell>, c: Cell, rowSize: real, columnSize: real)
    ensures Rects(cells + [c], rowSize, columnSize) == Rects(cells, rowSize, columnSize) + [CellRect(c, rowSize, columnSize)]
  {
  }

  /** The rectangles drawn once the board has reached `column` in `row`. */
  function DrawnSoFar(row: nat, column: nat, columns: nat, rowSize: real, columnSize: real): seq<PathCmd>
  {
    Rects(GridCells(row, columns) + RowCells(row, column), rowSize, columnSize)
  }

  /** Finishing a row is starting the next one. */
  lemma DrawnSoFarRowStart(row: nat, columns: nat, rowSize: real, columnSize: real)
    ensures DrawnSoFar(row + 1, 0, columns, rowSize, columnSize) == DrawnSoFar(row, columns, columns, rowSize, columnSize)
  {
    assert GridCells(row + 1, columns) + RowCells(row + 1, 0) == GridCells(row, columns) + RowCells(row, columns);
  }

  /** Past the last row, everything drawn is the whole board. */
  lemma DrawnSoFarComplete(rect: Rect, rows: nat, columns: nat)
    ensures DrawnSoFar(rows, 0, columns, RowSize(rect, rows), ColumnSize(rect, columns)) == CheckerboardOutline(rect, rows, columns)
  {
    assert GridCells(rows, columns) + RowCells(rows, 0) == GridCells(rows, columns);
  }

  /** Visiting one cell adds its rectangle exactly when the cell is colored. */
  lemma DrawnSoFarStep(row: nat, column: nat, columns: nat, rowSize: real, columnSize: real)
    ensures DrawnSoFar(row, column + 1, columns, rowSize, columnSize) ==
            DrawnSoFar(row, column, columns, rowSize, columnSize) +
            if (row + column) % 2 == 0 then [CellRect(Cell(row, column), rowSize, columnSize)] else []
  {
    var done := GridCells(row, columns) + RowCells(row, column);
    if (row + column) % 2 == 0 {
      RectsAppend(done, Cell(row, column), rowSize, columnSize);
      assert done + [Cell(row, column)] == GridCells(row, columns) + RowCells(row, column + 1);
    } else {
      assert RowCells(row, column + 1) == RowCells(row, column);
    }
  }

  /** A cell is listed in its row exactly when it is in range and colored. */
  lemma {:induction false} RowCellsMembers(row: nat, columns: nat, c: Cell)
    ensures c in RowCells(row, columns) <==> c.row == row && c.column < columns && Colored(c)
  {
    if columns > 0 {
      RowCellsMembers(row, columns - 1, c);
    }
  }

  /** A cell is listed exactly when it lies in the grid and is colored. */
  lemma {:induction false} GridCellsMembers(rows: nat, columns: nat, c: Cell)
    ensures c in GridCells(rows, columns) <==> InGrid(c, rows, columns) && Colored(c)
  {
    if rows > 0 {
      GridCellsMembers(rows - 1, columns, c);
      RowCellsMembers(rows - 1, columns, c);
    }
  }

  lemma {:induction false} RowCellsSorted(row: nat, columns: nat)
    ensures forall i, j :: 0 <= i < j < |RowCells(row, columns)| ==> Before(RowCells(row, columns)[i], RowCells(row, columns)[j])
  {
    if columns > 0 {
      RowCellsSorted(row, columns - 1);
    }
  }

  /** The cells come in strict row-major order, so no cell is listed twice. */
  lemma {:induction false} GridCellsSorted(rows: nat, columns: nat)
    ensures forall i, j :: 0 <= i < j < |GridCells(rows, columns)| ==> Before(GridCells(rows, columns)[i], GridCells(rows, columns)[j])
    ensures forall i, j :: 0 <= i < j < |GridCells(rows, columns)| ==> GridCells(rows, columns)[i] != GridCells(rows, columns)[j]
  {
    if rows > 0 {
      GridCellsSorted(rows - 1, columns);
      RowCellsSorted(rows - 1, columns);
      var g, r := GridCells(rows - 1, columns), RowCells(rows - 1, columns);
      forall i, j | 0 <= i < j < |g + r|
        ensures Before((g + r)[i], (g + r)[j])
      {
        if j >= |g| && i < |g| {
          assert (g + r)[i] == g[i] && (g + r)[j] == r[j - |g|];
        }
      }
    }
  }

  lemma {:induction false} RowCount(row: nat, columns: nat)
    ensures |RowCells(row, columns)| == if row % 2 == 0 then (columns + 1) / 2 else columns / 2
  {
    if columns > 0 {
      RowCount(row, columns - 1);
    }
  }

  lemma {:induction false} GridCountSplit(rows: nat, columns: nat)
    ensures |GridCells(rows, columns)| == rows * (columns / 2) + (if columns % 2 == 1 then (rows + 1) / 2 else 0)
  {
    if rows > 0 {
      GridCountSplit(rows - 1, columns);
      RowCount(rows - 1, columns);
      MulSucc(rows - 1, columns / 2);
    }
  }

  lemma MulSucc(a: nat, k: nat)
    ensures (a + 1) * k == a * k + k
  {
  }

  lemma MulSplit(a: nat, k: nat, b: nat)
    ensures a * (2 * k + b) == 2 * (a * k) + a * b
  {
  }

  /** A rows-by-columns grid has ceil(rows * columns / 2) colored cells. */
  lemma GridCount(rows: nat, columns: nat)
    ensures |GridCells(rows, columns)| == (rows * columns + 1) / 2
  {
    GridCountSplit(rows, columns);
    MulSplit(rows, columns / 2, columns % 2);
  }

  /** A non-empty grid starts with the top-left cell. */
  lemma {:induction false} GridStartsAtOrigin(rows: nat, columns: nat)
    ensures rows > 0 && columns > 0 ==> |GridCells(rows, columns)| > 0 && GridCells(rows, columns)[0] == Cell(0, 0)
  {
    if rows == 0 || columns == 0 {
      return;
    }
    GridCellsMembers(rows, columns, Cell(0, 0));
    GridCellsSorted(rows, columns);
    var g := GridCells(rows, columns);
    var i :| 0 <= i < |g| && g[i] == Cell(0, 0);
  }

  /** A 4-by-4 board of 100 by 100 points: 8 squares of 25 by 25, the first at the origin. */
  lemma FourByFour()
    ensures var p := CheckerboardOutline(Rect(0.0, 0.0, 100.0, 100.0), 4, 4);
            |p| == 8 && p[0] == RectCmd(0.0, 0.0, 25.0, 25.0) &&
            forall k :: 0 <= k < |p| ==> p[k].w == 25.0 && p[k].h == 25.0
  {
    var rect := Rect(0.0, 0.0, 100.0, 100.0);
    assert RowSize(rect, 4) == 25.0 && ColumnSize(rect, 4) == 25.0;
  }

  /** Swift's Int(Double): the whole part, truncated toward zero. */
  function Trunc(x: real): (n: int)
    ensures 0.0 <= x ==> n as real <= x < n as real + 1.0
    ensures x < 0.0 ==> n as real - 1.0 < x <= n as real
  {
    if x >= 0.0 then x.Floor else -((-x).Floor)
  }

  predicate IsWhole(x: real)
  {
    x.Floor as real == x
  }

  /** Truncation gives back its argument exactly when the argument is whole. */
  lemma TruncExact(x: real)
    ensures Trunc(x) as real == x <==> IsWhole(x)
  {
    if x < 0.0 && Trunc(x) as real == x {
      assert x.Floor == Trunc(x);
    }
  }

  /** Truncating a whole number gives that number. */
  lemma TruncOfInt(n: int)
    ensures Trunc(n as real) == n
  {
  }

  /** The animatable value: the two counts as reals. */
  datatype AnimatablePair = AnimatablePair(first: real, second: real)

  /** A checkerboard whose row and column counts are animated. */
  class Checkerboard {
    var rows: int
    var columns: int

    constructor (rows: int, columns: int)
      ensures this.rows == rows && this.columns == columns
    {
      this.rows := rows;
      this.columns := columns;
    }

    /** The getter: the counts converted to reals. Both components are whole,
        and truncating them gives the counts back. */
    function AnimatableData(): (d: AnimatablePair)
      reads this
      ensures IsWhole(d.first) && IsWhole(d.second)
      ensures Trunc(d.first) == rows && Trunc(d.second) == columns
    {
      TruncOfInt(rows);
      TruncOfInt(columns);
      AnimatablePair(rows as real, columns as real)
    }

    /** The setter truncates both components toward zero, so reading back gives
        what was written exactly when both components are whole numbers, and
        writing back what was read changes nothing. */
    method SetAnimatableData(newValue: AnimatablePair)
      modifies this
      ensures rows == Trunc(newValue.first) && columns == Trunc(newValue.second)
      ensures AnimatableData() == newValue <==> IsWhole(newValue.first) && IsWhole(newValue.second)
      ensures newValue == old(AnimatableData()) ==> rows == old(rows) && columns == old(columns)
    {
      TruncExact(newValue.first);
      TruncExact(newValue.second);
      TruncOfInt(rows);
      TruncOfInt(columns);
      rows := Trunc(newValue.first);
      columns := Trunc(newValue.second);
    }

    /** Builds the board row by row, adding a rectangle for every colored cell.
        Negative counts are excluded: a Swift range with a negative end traps. */
    method PathIn(rect: Rect) returns (p: seq<PathCmd>)
      requires rows >= 0 && columns >= 0
      ensures p == CheckerboardOutline(rect, rows, columns)
    {
      var path := new Path();
      var rowSize := RowSize(rect, rows);
      var columnSize := ColumnSize(rect, columns);
      var row := 0;
      while row < rows
        invariant 0 <= row <= rows
        invariant path.commands == DrawnSoFar(row, 0, columns, rowSize, columnSize)
      {
        var column := 0;
        while column < columns
          invariant 0 <= column <= columns
          invariant path.commands == DrawnSoFar(row, column, columns, rowSize, columnSize)
        {
          DrawnSoFarStep(row, column, columns, rowSize, columnSize);
          if (row + column) % 2 == 0 {
            var startX := columnSize * column as real;
            var startY := rowSize * row as real;
            CellRectAt(row, column, rowSize, columnSize);
            path.AddRect(Rect(startX, startY, columnSize, rowSize));
          }
          column := column + 1;
        }
        DrawnSoFarRowStart(row, columns, rowSize, columnSize);
        row := row + 1;
      }
      DrawnSoFarComplete(rect, rows, columns);
      p := path.commands;
    }
  }
}
