/**
 * Screen geometry of the reference variant: eight square columns sized from
 * the container, the world column under the price line, and the pointer
 * hit test, which splits each scroll offset into whole cells and a
 * remainder computed with JavaScript's truncating `%`.
 */
module ConceptGrid {
  import opened Wrappers
  import opened Numeric
  import Viewport

  const GridCols: int := 8
  const GridRows: int := 12
  /** Padding around the grid area, the same on every side. */
  const Padding: real := Viewport.Padding
  /** The price line sits this many columns into the grid: 8 columns times 0.4. */
  const LineOffset: real := GridCols as real * Viewport.PriceLinePosition
  /** Pending bets this many columns behind the price line are cleared. */
  const StaleColumns: real := 10.0

  datatype Dims = Dims(cellWidth: real, cellHeight: real, gridWidth: real, gridHeight: real)

  /** The geometry before the first resize: every size zero. */
  const Unsized: Dims := Dims(0.0, 0.0, 0.0, 0.0)

  /** A world cell. */
  datatype Cell = Cell(gridX: int, gridY: int)

  /**
   * Grid geometry for a container of the given size: the grid is the
   * container less the padding, a cell is 90% of an eighth of the grid
   * width, and cells are square. Nothing keeps the cell size positive.
   */
  function Resized(width: real, height: real): (d: Dims)
    ensures d.gridWidth == width - 2.0 * Padding && d.gridHeight == height - 2.0 * Padding
    ensures d.cellHeight == d.cellWidth
    ensures GridCols as real * d.cellWidth == 0.9 * d.gridWidth
    ensures d.cellWidth > 0.0 <==> width > 2.0 * Padding
  {
    var gridWidth := width - 2.0 * Padding;
    var gridHeight := height - 2.0 * Padding;
    var cellWidth := (gridWidth / GridCols as real) * 0.9;
    Dims(cellWidth, cellWidth, gridWidth, gridHeight)
  }

  /** Rounding toward zero. */
  function Trunc(x: real): (t: int)
    ensures 0.0 <= x ==> t == x.Floor
    ensures x < 0.0 ==> t == -((-x).Floor)
  {
    if x >= 0.0 then x.Floor else -((-x).Floor)
  }

  /** JavaScript's `a % c`: the remainder of the truncated quotient, with the sign of `a`. */
  function JsRem(a: real, c: real): real
    requires c != 0.0
  {
    a - Trunc(a / c) as real * c
  }

  /** A positive divisor leaves a remainder strictly inside (-c, c), and in [0, c) for a non-negative dividend. */
  lemma JsRemBounds(a: real, c: real)
    requires 0.0 < c
    ensures -c < JsRem(a, c) < c
    ensures 0.0 <= a ==> 0.0 <= JsRem(a, c) && JsRem(a, c) == a - (a / c).Floor as real * c
  {
    if 0.0 <= a {
      Viewport.FloorScaledLower(a, c);
      Viewport.FloorScaledUpper(a, c);
    } else {
      assert (-a) / c == -(a / c);
      Viewport.FloorScaledLower(-a, c);
      Viewport.FloorScaledUpper(-a, c);
    }
  }

  /** If y is n whole cells of size c plus a remainder in [0, c), then n is the floor of y / c. */
  lemma FloorOfMultiple(y: real, c: real, n: int, m: real)
    requires 0.0 < c && 0.0 <= m < c && y == n as real * c + m
    ensures (y / c).Floor == n
  {
    assert (n as real + m / c) * c == y;
    assert y / c == n as real + m / c;
    assert m / c < 1.0 by {
      if m / c >= 1.0 {
        MulMonotone(1.0, m / c, c);
      }
    }
  }

  /**
   * The part of the vertical offset that falls inside one cell, made
   * non-negative by adding a cell and taking the remainder again.
   */
  function RowScroll(yOffset: real, cellHeight: real): real
    requires cellHeight != 0.0
  {
    JsRem(JsRem(yOffset, cellHeight) + cellHeight, cellHeight)
  }

  /** For square cells of positive size the double remainder is the floored remainder, in [0, cellHeight). */
  lemma {:induction false} RowScrollIsFlooredRemainder(yOffset: real, c: real)
    requires 0.0 < c
    ensures var s := RowScroll(yOffset, c);
            0.0 <= s < c && s == yOffset - (yOffset / c).Floor as real * c
  {
    var r := JsRem(yOffset, c);
    JsRemBounds(yOffset, c);
    JsRemBounds(r + c, c);
    var s := RowScroll(yOffset, c);
    var t1 := Trunc(yOffset / c);
    var t2 := ((r + c) / c).Floor;
    assert s == r + c - t2 as real * c;
    assert yOffset == (t1 + t2 - 1) as real * c + s;
    FloorOfMultiple(yOffset, c, t1 + t2 - 1, s);
  }

  /** The world column (fractional) under the price line; none while the cell width is zero. */
  function LineColumn(viewOffsetX: real, cellWidth: real): (l: Option<real>)
    ensures l.None? <==> cellWidth == 0.0
    ensures l.Some? ==> l.value == (viewOffsetX / cellWidth).Floor as real + LineOffset
  {
    if cellWidth == 0.0 then None
    else Some((viewOffsetX / cellWidth).Floor as real + LineOffset)
  }

  /**
   * The unfloored line column the periodic cleanup measures from; the
   * frame's floored line lags it by less than one column.
   */
  function ExactLineColumn(viewOffsetX: real, cellWidth: real): (l: real)
    requires cellWidth != 0.0
    ensures LineColumn(viewOffsetX, cellWidth).value <= l < LineColumn(viewOffsetX, cellWidth).value + 1.0
  {
    viewOffsetX / cellWidth + LineOffset
  }

  /**
   * The price line passes over column gx (both edges included) exactly
   * when the scrolled-in whole column is gx - 3: the line sits 3.2 columns
   * into that column's span.
   */
  lemma LineOverColumn(viewOffsetX: real, cellWidth: real, gx: int)
    requires cellWidth != 0.0
    ensures var l := LineColumn(viewOffsetX, cellWidth).value;
            gx as real <= l <= gx as real + 1.0 <==> (viewOffsetX / cellWidth).Floor == gx - 3
  {
  }

  /** A column is at or ahead of the price line exactly when it is at least four whole columns past the scroll. */
  lemma AheadOfLine(viewOffsetX: real, cellWidth: real, gx: int)
    requires cellWidth != 0.0
    ensures gx as real >= LineColumn(viewOffsetX, cellWidth).value <==> gx >= (viewOffsetX / cellWidth).Floor + 4
  {
  }

  /** What a pointer aims at: its column and row on the visible grid, the world cell, and whether it is on the grid rows. */
  datatype Aim = Aim(col: int, row: int, gridX: int, gridY: int, inGrid: bool)

  /**
   * The hit test of the pointer handlers: none while a cell size is zero;
   * otherwise the column and row under (px, py) after the sub-cell scroll
   * remainders, and the world cell they make with the whole scrolled cells.
   */
  function AimAt(d: Dims, viewOffsetX: real, yOffset: real, px: real, py: real): (o: Option<Aim>)
    ensures o.None? <==> d.cellWidth == 0.0 || d.cellHeight == 0.0
    ensures o.Some? ==> (o.value.inGrid <==> Padding <= py <= Padding + d.gridHeight)
    ensures o.Some? ==>
      o.value.gridX == (viewOffsetX / d.cellWidth).Floor + o.value.col
      && o.value.gridY == (yOffset / d.cellHeight).Floor + o.value.row
  {
    if d.cellWidth == 0.0 || d.cellHeight == 0.0 then None
    else
      var scrollOffsetY := RowScroll(yOffset, d.cellHeight);
      var baseGridY := (yOffset / d.cellHeight).Floor;
      var scrollOffsetX := JsRem(viewOffsetX, d.cellWidth);
      var baseGridX := (viewOffsetX / d.cellWidth).Floor;
      var col := ((px - Padding + scrollOffsetX) / d.cellWidth).Floor;
      var row := ((py - Padding + scrollOffsetY) / d.cellHeight).Floor;
      Some(Aim(col, row, baseGridX + col, baseGridY + row, py >= Padding && py <= Padding + d.gridHeight))
  }

  /** Taking k whole cells off a value takes k off the cell it falls in. */
  lemma FloorShift(v: real, k: int, c: real)
    requires 0.0 < c
    ensures ((v - k as real * c) / c).Floor == (v / c).Floor - k
  {
    assert (v / c - k as real) * c == v - k as real * c;
    assert (v - k as real * c) / c == v / c - k as real;
  }

  /**
   * The hit test agrees with the world grid: for positive cells and a
   * non-negative scroll, the aimed cell is the one that contains the
   * pointer's world position, on both axes.
   */
  lemma {:induction false} AimIsWorldCell(d: Dims, viewOffsetX: real, yOffset: real, px: real, py: real)
    requires 0.0 < d.cellWidth && 0.0 < d.cellHeight && 0.0 <= viewOffsetX
    ensures var a := AimAt(d, viewOffsetX, yOffset, px, py).value;
            a.gridX == ((px - Padding + viewOffsetX) / d.cellWidth).Floor
            && a.gridY == ((py - Padding + yOffset) / d.cellHeight).Floor
  {
    var cw, ch := d.cellWidth, d.cellHeight;
    JsRemBounds(viewOffsetX, cw);
    RowScrollIsFlooredRemainder(yOffset, ch);
    var kx := (viewOffsetX / cw).Floor;
    var ky := (yOffset / ch).Floor;
    assert px - Padding + JsRem(viewOffsetX, cw) == (px - Padding + viewOffsetX) - kx as real * cw;
    FloorShift(px - Padding + viewOffsetX, kx, cw);
    assert py - Padding + RowScroll(yOffset, ch) == (py - Padding + yOffset) - ky as real * ch;
    FloorShift(py - Padding + yOffset, ky, ch);
  }

  /** Screen point where a placement burst starts: the centre of the aimed cell as the handlers compute it. */
  function AimCentre(d: Dims, viewOffsetX: real, yOffset: real, a: Aim): Viewport.ScreenPoint
    requires d.cellWidth != 0.0 && d.cellHeight != 0.0
  {
    Viewport.ScreenPoint(Padding + a.col as real * d.cellWidth - JsRem(viewOffsetX, d.cellWidth) + d.cellWidth / 2.0,
     Padding + a.row as real * d.cellHeight - RowScroll(yOffset, d.cellHeight) + d.cellHeight / 2.0)
  }

  /**
   * That point is the screen centre of the aimed world cell, for every aim
   * whose world cell is its column and row past the whole scrolled cells
   * (as `AimAt` guarantees).
   */
  lemma {:induction false} AimCentreIsCellCentre(d: Dims, viewOffsetX: real, yOffset: real, a: Aim)
    requires 0.0 < d.cellWidth && 0.0 < d.cellHeight && 0.0 <= viewOffsetX
    requires a.gridX == (viewOffsetX / d.cellWidth).Floor + a.col
    requires a.gridY == (yOffset / d.cellHeight).Floor + a.row
    ensures var c := AimCentre(d, viewOffsetX, yOffset, a);
            c.sx == Padding + a.gridX as real * d.cellWidth - viewOffsetX + d.cellWidth / 2.0
            && c.sy == Padding + a.gridY as real * d.cellHeight - yOffset + d.cellHeight / 2.0
  {
    ColumnCentre(a.col, a.gridX, d.cellWidth, viewOffsetX);
    RowCentre(a.row, a.gridY, d.cellHeight, yOffset);
  }

  /** The handlers' horizontal centre of column `col` is the screen centre of world column `gx`. */
  lemma ColumnCentre(col: int, gx: int, cw: real, viewOffsetX: real)
    requires 0.0 < cw && 0.0 <= viewOffsetX && gx == (viewOffsetX / cw).Floor + col
    ensures Padding + col as real * cw - JsRem(viewOffsetX, cw) + cw / 2.0
            == Padding + gx as real * cw - viewOffsetX + cw / 2.0
  {
    JsRemBounds(viewOffsetX, cw);
    CentreShift(col, (viewOffsetX / cw).Floor, cw, viewOffsetX, JsRem(viewOffsetX, cw));
  }

  /** The handlers' vertical centre of row `row` is the screen centre of world row `gy`. */
  lemma RowCentre(row: int, gy: int, ch: real, yOffset: real)
    requires 0.0 < ch && gy == (yOffset / ch).Floor + row
    ensures Padding + row as real * ch - RowScroll(yOffset, ch) + ch / 2.0
            == Padding + gy as real * ch - yOffset + ch / 2.0
  {
    RowScrollIsFlooredRemainder(yOffset, ch);
    CentreShift(row, (yOffset / ch).Floor, ch, yOffset, RowScroll(yOffset, ch));
  }

  /** Moving the origin by k whole cells of size c moves a cell centre's column from col to k + col. */
  lemma CentreShift(col: int, k: int, c: real, offset: real, rem: real)
    requires rem == offset - k as real * c
    ensures Padding + col as real * c - rem + c / 2.0 == Padding + (k + col) as real * c - offset + c / 2.0
  {
    assert (k + col) as real * c == k as real * c + col as real * c;
  }
}
