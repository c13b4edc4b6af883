/**
 * Screen geometry of the refined game: the cell size derived from the
 * container, the world column under the price line, the vertical offset
 * that keeps the price centred, and the two coordinate maps between
 * pointer pixels and world grid cells.
 */
module Viewport {
  import opened Wrappers
  import opened Numeric

  /** Padding around the grid area, the same on every side. */
  const Padding: real := 20.0
  /** Fraction of the grid width at which the price line is drawn. */
  const PriceLinePosition: real := 0.4
  const GridCols: int := 5
  /** Cells stop growing at this size; wide screens show more columns instead. */
  const MaxCellSize: real := 90.0

  datatype GridDims = GridDims(
    cellWidth: real, cellHeight: real,
    gridWidth: real, gridHeight: real,
    gridLeft: real, visibleCols: int)

  /** A pointer position resolved to a world cell, and whether it lies on the grid area. */
  datatype GridHit = GridHit(gridX: int, gridY: int, inGrid: bool)

  datatype ScreenPoint = ScreenPoint(sx: real, sy: real)

  function Ceil(x: real): (c: int)
    ensures x <= c as real < x + 1.0
  {
    -((-x).Floor)
  }

  /**
   * Grid geometry after a resize to a container wider than the padding:
   * 90% of a fifth of the grid width, capped at the maximum cell size;
   * cells are square, and enough columns are drawn to cover the grid.
   */
  function CellDims(width: real, height: real): (d: GridDims)
    requires width > 2.0 * Padding
    ensures d.gridWidth == width - 2.0 * Padding && d.gridHeight == height - 2.0 * Padding
    ensures d.gridLeft == Padding
    ensures 0.0 < d.cellWidth <= MaxCellSize && d.cellHeight == d.cellWidth
    ensures d.cellWidth == MaxCellSize <==> d.gridWidth >= 500.0
    ensures GridCols as real * d.cellWidth <= 0.9 * d.gridWidth
    ensures (d.visibleCols - 2) as real * d.cellWidth >= d.gridWidth
  {
    var gridWidth := width - 2.0 * Padding;
    var gridHeight := height - 2.0 * Padding;
    var idealCellWidth := (gridWidth / GridCols as real) * 0.9;
    var cellWidth := Min(idealCellWidth, MaxCellSize);
    var visibleCols := Ceil(gridWidth / cellWidth) + 2;
    MulMonotone(gridWidth / cellWidth, Ceil(gridWidth / cellWidth) as real, cellWidth);
    GridDims(cellWidth, cellWidth, gridWidth, gridHeight, Padding, visibleCols)
  }

  /** The world column (fractional) under the price line. */
  function PriceLineColumn(viewOffsetX: real, d: GridDims): real
    requires d.cellWidth > 0.0
  {
    (viewOffsetX + d.gridWidth * PriceLinePosition) / d.cellWidth
  }

  /** The screen x of world column `column`. */
  function ColumnScreenX(column: real, viewOffsetX: real, d: GridDims): real
  {
    d.gridLeft + column * d.cellWidth - viewOffsetX
  }

  /** The price-line column is drawn exactly at the fixed price head, 40% across the grid. */
  lemma PriceLineAtHead(viewOffsetX: real, d: GridDims)
    requires d.cellWidth > 0.0
    ensures ColumnScreenX(PriceLineColumn(viewOffsetX, d), viewOffsetX, d)
            == d.gridLeft + d.gridWidth * PriceLinePosition
  {
    var w := viewOffsetX + d.gridWidth * PriceLinePosition;
    assert (w / d.cellWidth) * d.cellWidth == w;
  }

  /**
   * Vertical scroll offset that centres the price: the world row `priceY`
   * is drawn at the vertical middle of the grid area.
   */
  function CentreOffset(priceY: real, d: GridDims): (yOffset: real)
    ensures Padding + priceY * d.cellHeight - yOffset == Padding + d.gridHeight / 2.0
  {
    priceY * d.cellHeight - d.gridHeight / 2.0
  }

  /** World cell under pointer pixel (px, py); None while the cell size is still zero. */
  function PointerToGrid(d: GridDims, viewOffsetX: real, yOffset: real, px: real, py: real): (hit: Option<GridHit>)
    ensures hit.None? <==> d.cellWidth == 0.0 || d.cellHeight == 0.0
    ensures hit.Some? ==> (hit.value.inGrid <==>
      Padding <= py <= Padding + d.gridHeight && d.gridLeft <= px <= d.gridLeft + d.gridWidth)
  {
    if d.cellWidth == 0.0 || d.cellHeight == 0.0 then None
    else
      var gridX := ((px - d.gridLeft + viewOffsetX) / d.cellWidth).Floor;
      var gridY := ((py - Padding + yOffset) / d.cellHeight).Floor;
      var inGrid := py >= Padding && py <= Padding + d.gridHeight
        && px >= d.gridLeft && px <= d.gridLeft + d.gridWidth;
      Some(GridHit(gridX, gridY, inGrid))
  }

  /** Screen centre of world cell (gx, gy). */
  function GridToScreen(d: GridDims, viewOffsetX: real, yOffset: real, gx: int, gy: int): ScreenPoint
  {
    ScreenPoint(
      d.gridLeft + gx as real * d.cellWidth - viewOffsetX + d.cellWidth / 2.0,
      Padding + gy as real * d.cellHeight - yOffset + d.cellHeight / 2.0)
  }

  lemma FloorOfCentre(g: int, origin: real, offset: real, size: real, s: real)
    requires size > 0.0
    requires s == origin + g as real * size - offset + size / 2.0
    ensures ((s - origin + offset) / size).Floor == g
  {
    var x := g as real + 0.5;
    assert s - origin + offset == x * size;
    var y := (s - origin + offset) / size;
    assert y == x;
    assert x.Floor == g;
    assert y.Floor == x.Floor;
  }

  /** Mapping a cell to its screen centre and back gives the same cell. */
  lemma {:induction false} RoundTrip(d: GridDims, viewOffsetX: real, yOffset: real, gx: int, gy: int)
    requires d.cellWidth > 0.0 && d.cellHeight > 0.0
    ensures var p := GridToScreen(d, viewOffsetX, yOffset, gx, gy);
            var hit := PointerToGrid(d, viewOffsetX, yOffset, p.sx, p.sy);
            hit.Some? && hit.value.gridX == gx && hit.value.gridY == gy
  {
    var p := GridToScreen(d, viewOffsetX, yOffset, gx, gy);
    FloorOfCentre(gx, d.gridLeft, viewOffsetX, d.cellWidth, p.sx);
    FloorOfCentre(gy, Padding, yOffset, d.cellHeight, p.sy);
  }

  lemma FloorScaledLower(v: real, size: real)
    requires size > 0.0
    ensures (v / size).Floor as real * size <= v
  {
    var q := v / size;
    MulMonotone(q.Floor as real, q, size);
    assert q * size == v;
  }

  lemma FloorScaledUpper(v: real, size: real)
    requires size > 0.0
    ensures v < (v / size).Floor as real * size + size
  {
    var q := v / size;
    var k := q.Floor as real;
    MulStrict(q, k + 1.0, size);
    assert q * size == v;
    assert (k + 1.0) * size == k * size + size;
  }

  /**
   * The pointer lies inside the cell it is mapped to: within half a cell of
   * that cell's screen centre (left and top edges inclusive).
   */
  lemma {:induction false} PointerInsideItsCell(d: GridDims, viewOffsetX: real, yOffset: real, px: real, py: real)
    requires d.cellWidth > 0.0 && d.cellHeight > 0.0
    ensures var hit := PointerToGrid(d, viewOffsetX, yOffset, px, py).value;
            var c := GridToScreen(d, viewOffsetX, yOffset, hit.gridX, hit.gridY);
            c.sx - d.cellWidth / 2.0 <= px < c.sx + d.cellWidth / 2.0
            && c.sy - d.cellHeight / 2.0 <= py < c.sy + d.cellHeight / 2.0
  {
    FloorScaledLower(px - d.gridLeft + viewOffsetX, d.cellWidth);
    FloorScaledUpper(px - d.gridLeft + viewOffsetX, d.cellWidth);
    FloorScaledLower(py - Padding + yOffset, d.cellHeight);
    FloorScaledUpper(py - Padding + yOffset, d.cellHeight);
  }
}
