/** Grid geometry of `GridRenderer` (lines and labels on the interactive
    canvas) and `GridExporter` (the same grid baked into a margin-padded
    export image). Each drawing loop is specified by a function giving the
    primitives it appends, and the lemmas say what those primitives are. */
module GridUtils {

  import opened Arith
  import opened Labels
  import opened Drawing

  // ---------------------------------------------------------------------
  // range(0, stop, step)
  // ---------------------------------------------------------------------

  /** `len(range(0, stop, step))` for a positive step. */
  function RangeLength(stop: int, step: int): nat
    requires step >= 1
  {
    if stop <= 0 then 0 else (stop - 1) / step + 1
  }

  /** Python's `range(0, stop, step)` for a positive step (a zero step makes
      Python raise, so every caller passes a step of at least 1). */
  function Range(stop: int, step: int): (xs: seq<int>)
    requires step >= 1
  {
    seq(RangeLength(stop, step), k => k * step)
  }

  /** Each element of `Range(stop, step)` lies in `[0, stop)`, and the element
      after the last would not: the range covers `[0, stop)` in whole steps. */
  lemma RangeBounds(stop: int, step: int)
    requires step >= 1
    ensures forall i :: 0 <= i < |Range(stop, step)| ==> 0 <= Range(stop, step)[i] < stop
    ensures stop <= |Range(stop, step)| * step
  {
    var xs := Range(stop, step);
    if stop > 0 {
      var last := (stop - 1) / step;
      assert last * step <= stop - 1;
      forall i | 0 <= i < |xs|
        ensures 0 <= xs[i] < stop
      {
        MulMonotone(0, i, step);
        MulMonotone(i, last, step);
      }
      assert (last + 1) * step == last * step + step;
    }
  }

  /** `x` is produced by `range(0, stop, step)` exactly when it is a multiple
      of the step in `[0, stop)`. */
  lemma RangeMembers(stop: int, step: int, x: int)
    requires step >= 1
    ensures x in Range(stop, step) <==> 0 <= x < stop && x % step == 0
  {
    var xs := Range(stop, step);
    RangeBounds(stop, step);
    if x in xs {
      var k :| 0 <= k < |xs| && xs[k] == x;
      DivModOf(x, step, k, 0);
    }
    if 0 <= x < stop && x % step == 0 {
      var k := x / step;
      assert x == k * step;
      if k < 0 {
        MulMonotone(k, -1, step);
        assert false;
      }
      if k >= |xs| {
        var last := (stop - 1) / step;
        MulMonotone(last + 1, k, step);
        assert false;
      }
      assert xs[k] == x;
    }
  }

  /** `range(0, extent + 1, step)` has `extent // step + 1` elements and
      `range(0, extent, step)` has `ceil(extent / step)`. */
  lemma RangeCounts(extent: int, step: int)
    requires extent >= 0 && step >= 1
    ensures |Range(extent + 1, step)| == extent / step + 1
    ensures |Range(extent, step)| == (extent + step - 1) / step
  {
    if extent == 0 {
      DivModOf(step - 1, step, 0, step - 1);
    } else {
      DivModOf(extent - 1 + step, step, (extent - 1) / step + 1, (extent - 1) % step);
    }
  }

  // ---------------------------------------------------------------------
  // GridRenderer.draw_grid_on_canvas
  // ---------------------------------------------------------------------

  /** The vertical lines of the first loop: one per `x` in
      `range(0, width + 1, step)`, from the top to the bottom of the image. */
  function VerticalLines(imgX: real, imgY: real, width: int, height: int, step: int,
                         thickness: int, color: string): seq<Primitive>
    requires step >= 1
  {
    var xs := Range(width + 1, step);
    seq(|xs|, i requires 0 <= i < |xs| =>
      Line(imgX + xs[i] as real, imgY, imgX + xs[i] as real, imgY + height as real, thickness, color))
  }

  /** The horizontal lines of the second loop: one per `y` in
      `range(0, height + 1, step)`, from the left to the right of the image. */
  function HorizontalLines(imgX: real, imgY: real, width: int, height: int, step: int,
                           thickness: int, color: string): seq<Primitive>
    requires step >= 1
  {
    var ys := Range(height + 1, step);
    seq(|ys|, i requires 0 <= i < |ys| =>
      Line(imgX, imgY + ys[i] as real, imgX + width as real, imgY + ys[i] as real, thickness, color))
  }

  /** Everything `draw_grid_on_canvas` draws, in drawing order. */
  function GridLines(imgX: real, imgY: real, width: int, height: int, stepX: int, stepY: int,
                     thickness: int, color: string): seq<Primitive>
    requires stepX >= 1 && stepY >= 1
  {
    VerticalLines(imgX, imgY, width, height, stepX, thickness, color)
      + HorizontalLines(imgX, imgY, width, height, stepY, thickness, color)
  }

  /** There are `width // step + 1` vertical lines, the `i`-th at
      `imgX + i * step`, all within `[imgX, imgX + width]` and the last less
      than one step from the right edge; each spans the full image height
      with the given thickness and colour. */
  lemma VerticalLinesLayout(imgX: real, imgY: real, width: int, height: int, step: int,
                            thickness: int, color: string)
    requires width >= 0 && step >= 1
    ensures var lines := VerticalLines(imgX, imgY, width, height, step, thickness, color);
      && |lines| == width / step + 1
      && (forall i :: 0 <= i < |lines| ==>
            lines[i] == Line(imgX + (i * step) as real, imgY, imgX + (i * step) as real,
                             imgY + height as real, thickness, color))
      && (forall i :: 0 <= i < |lines| ==> imgX <= lines[i].x1 <= imgX + width as real)
      && imgX + width as real < lines[|lines| - 1].x1 + step as real
  {
    RangeCounts(width, step);
    RangeBounds(width + 1, step);
    var lines := VerticalLines(imgX, imgY, width, height, step, thickness, color);
    var n := |lines|;
    assert (n - 1) * step + step == n * step;
  }

  /** There are `height // step + 1` horizontal lines, the `i`-th at
      `imgY + i * step`, all within `[imgY, imgY + height]` and the last less
      than one step from the bottom edge; each spans the full image width
      with the given thickness and colour. */
  lemma HorizontalLinesLayout(imgX: real, imgY: real, width: int, height: int, step: int,
                              thickness: int, color: string)
    requires height >= 0 && step >= 1
    ensures var lines := HorizontalLines(imgX, imgY, width, height, step, thickness, color);
      && |lines| == height / step + 1
      && (forall i :: 0 <= i < |lines| ==>
            lines[i] == Line(imgX, imgY + (i * step) as real, imgX + width as real,
                             imgY + (i * step) as real, thickness, color))
      && (forall i :: 0 <= i < |lines| ==> imgY <= lines[i].y1 <= imgY + height as real)
      && imgY + height as real < lines[|lines| - 1].y1 + step as real
  {
    RangeCounts(height, step);
    RangeBounds(height + 1, step);
    var lines := HorizontalLines(imgX, imgY, width, height, step, thickness, color);
    var n := |lines|;
    assert (n - 1) * step + step == n * step;
  }

  /** Every grid line lies in the image rectangle, so none sticks out of it. */
  lemma GridLinesInside(imgX: real, imgY: real, width: nat, height: nat, stepX: int, stepY: int,
                        thickness: int, color: string, p: Primitive)
    requires stepX >= 1 && stepY >= 1
    requires p in GridLines(imgX, imgY, width, height, stepX, stepY, thickness, color)
    ensures p.Line? && p.width == thickness && p.color == color
    ensures imgX <= p.x1 <= p.x2 <= imgX + width as real
    ensures imgY <= p.y1 <= p.y2 <= imgY + height as real
  {
    var vs := VerticalLines(imgX, imgY, width, height, stepX, thickness, color);
    var hs := HorizontalLines(imgX, imgY, width, height, stepY, thickness, color);
    if p in vs {
      RangeBounds(width + 1, stepX);
      var i :| 0 <= i < |vs| && vs[i] == p;
    } else {
      assert p in hs;
      RangeBounds(height + 1, stepY);
      var i :| 0 <= i < |hs| && hs[i] == p;
    }
  }

  // ---------------------------------------------------------------------
  // GridRenderer.draw_coordinates_on_canvas
  // ---------------------------------------------------------------------

  /** `max(8, min(12, min(scaled_grid_width, scaled_grid_height) // 4))`. */
  function CanvasFontSize(gridW: int, gridH: int): (size: int)
    ensures 8 <= size <= 12
    ensures 32 <= Min(gridW, gridH) < 52 ==> size == Min(gridW, gridH) / 4
    ensures Min(gridW, gridH) < 32 ==> size == 8
    ensures Min(gridW, gridH) >= 52 ==> size == 12
  {
    Clamp(Min(gridW, gridH) / 4, 8, 12)
  }

  /** The column labels: one per `x` in `range(0, width, step)`, the text of
      column `x // step`, centred over its cell 15 pixels above the image. */
  function ColumnLabels(imgX: real, imgY: real, width: int, step: int,
                        style: LabelStyle, font: Font): seq<Primitive>
    requires step >= 1
  {
    var xs := Range(width, step);
    assert forall i :: 0 <= i < |xs| ==> xs[i] >= 0 by { RangeBounds(width, step); }
    seq(|xs|, i requires 0 <= i < |xs| =>
      Text(imgX + (xs[i] + step / 2) as real, imgY - 15.0, LabelText(style, xs[i] / step), font, "blue"))
  }

  /** The row labels: one per `y` in `range(0, height, step)`, the number
      `y // step + 1`, centred beside its cell 15 pixels left of the image. */
  function RowLabels(imgX: real, imgY: real, height: int, step: int, font: Font): seq<Primitive>
    requires step >= 1
  {
    var ys := Range(height, step);
    assert forall i :: 0 <= i < |ys| ==> ys[i] >= 0 by { RangeBounds(height, step); }
    seq(|ys|, i requires 0 <= i < |ys| =>
      Text(imgX - 15.0, imgY + (ys[i] + step / 2) as real, DecimalString(ys[i] / step + 1), font, "blue"))
  }

  /** There are `ceil(width / step)` column labels; the `i`-th reads the
      label of column `i` (so "1", "2", ... in order when numbered), sits
      15 pixels above the image inside the horizontal extent of column `i`,
      and no two labels read the same. */
  lemma ColumnLabelsLayout(imgX: real, imgY: real, width: int, step: int, style: LabelStyle, font: Font)
    requires width >= 0 && step >= 1
    ensures var labels := ColumnLabels(imgX, imgY, width, step, style, font);
      && |labels| == (width + step - 1) / step
      && (forall i :: 0 <= i < |labels| ==>
            labels[i] == Text(imgX + (i * step + step / 2) as real, imgY - 15.0,
                              LabelText(style, i), font, "blue"))
      && (forall i :: 0 <= i < |labels| ==>
            imgX + (i * step) as real <= labels[i].x < imgX + ((i + 1) * step) as real)
      && (forall i, j :: 0 <= i < j < |labels| ==> labels[i].text != labels[j].text)
  {
    RangeCounts(width, step);
    var labels := ColumnLabels(imgX, imgY, width, step, style, font);
    forall i | 0 <= i < |labels|
      ensures labels[i] == Text(imgX + (i * step + step / 2) as real, imgY - 15.0,
                                LabelText(style, i), font, "blue")
      ensures imgX + (i * step) as real <= labels[i].x < imgX + ((i + 1) * step) as real
    {
      CellLabelOffset(i, step);
    }
    forall i, j | 0 <= i < j < |labels|
      ensures labels[i].text != labels[j].text
    {
      LabelTextDistinct(style, i, j);
    }
  }

  /** The label of cell `i` is computed from `x = i * step`: `x // step` is
      `i`, and the centre offset `x + step // 2` lies inside the cell. */
  lemma CellLabelOffset(i: nat, step: int)
    requires step >= 1
    ensures (i * step) / step == i
    ensures i * step <= i * step + step / 2 < (i + 1) * step
  {
    DivModOf(i * step, step, i, 0);
    assert (i + 1) * step == i * step + step;
  }

  /** There are `ceil(height / step)` row labels; the `i`-th reads `i + 1`,
      sits 15 pixels left of the image inside the vertical extent of row `i`,
      and no two labels read the same. */
  lemma RowLabelsLayout(imgX: real, imgY: real, height: int, step: int, font: Font)
    requires height >= 0 && step >= 1
    ensures var labels := RowLabels(imgX, imgY, height, step, font);
      && |labels| == (height + step - 1) / step
      && (forall i :: 0 <= i < |labels| ==>
            labels[i] == Text(imgX - 15.0, imgY + (i * step + step / 2) as real,
                              DecimalString(i + 1), font, "blue"))
      && (forall i :: 0 <= i < |labels| ==>
            imgY + (i * step) as real <= labels[i].y < imgY + ((i + 1) * step) as real)
      && (forall i, j :: 0 <= i < j < |labels| ==> labels[i].text != labels[j].text)
  {
    RangeCounts(height, step);
    var labels := RowLabels(imgX, imgY, height, step, font);
    forall i | 0 <= i < |labels|
      ensures labels[i] == Text(imgX - 15.0, imgY + (i * step + step / 2) as real,
                                DecimalString(i + 1), font, "blue")
      ensures imgY + (i * step) as real <= labels[i].y < imgY + ((i + 1) * step) as real
    {
      CellLabelOffset(i, step);
    }
    forall i, j | 0 <= i < j < |labels|
      ensures labels[i].text != labels[j].text
    {
      DecimalInjective(i + 1, j + 1);
    }
  }

  // ---------------------------------------------------------------------
  // Drawing loops
  // ---------------------------------------------------------------------

  /** `GridRenderer.draw_grid_on_canvas`: appends the vertical lines, then
      the horizontal lines. */
  method DrawGridOnCanvas(canvas: Surface, imgX: real, imgY: real, scaledWidth: int, scaledHeight: int,
                          scaledGridWidth: int, scaledGridHeight: int, lineThickness: int, gridColor: string)
    requires scaledGridWidth >= 1 && scaledGridHeight >= 1
    modifies canvas`items
    ensures canvas.items == old(canvas.items)
      + GridLines(imgX, imgY, scaledWidth, scaledHeight, scaledGridWidth, scaledGridHeight, lineThickness, gridColor)
  {
    var verticals := VerticalLines(imgX, imgY, scaledWidth, scaledHeight, scaledGridWidth, lineThickness, gridColor);
    var xs := Range(scaledWidth + 1, scaledGridWidth);
    for i := 0 to |xs|
      invariant canvas.items == old(canvas.items) + verticals[..i]
    {
      var xPos := imgX + xs[i] as real;
      canvas.DrawLine(xPos, imgY, xPos, imgY + scaledHeight as real, lineThickness, gridColor);
      assert verticals[..i + 1] == verticals[..i] + [verticals[i]];
    }
    assert verticals[..|xs|] == verticals;
    var horizontals := HorizontalLines(imgX, imgY, scaledWidth, scaledHeight, scaledGridHeight, lineThickness, gridColor);
    var ys := Range(scaledHeight + 1, scaledGridHeight);
    for i := 0 to |ys|
      invariant canvas.items == old(canvas.items) + verticals + horizontals[..i]
    {
      var yPos := imgY + ys[i] as real;
      canvas.DrawLine(imgX, yPos, imgX + scaledWidth as real, yPos, lineThickness, gridColor);
      assert horizontals[..i + 1] == horizontals[..i] + [horizontals[i]];
    }
    assert horizontals[..|ys|] == horizontals;
  }

  /** The column-label loop of `draw_coordinates_on_canvas` (and, with
      letters, of main.py's `update_grid`). */
  method DrawColumnLabels(canvas: Surface, imgX: real, imgY: real, scaledWidth: int, scaledGridWidth: int,
                          style: LabelStyle, font: Font)
    requires scaledGridWidth >= 1
    modifies canvas`items
    ensures canvas.items == old(canvas.items) + ColumnLabels(imgX, imgY, scaledWidth, scaledGridWidth, style, font)
  {
    var labels := ColumnLabels(imgX, imgY, scaledWidth, scaledGridWidth, style, font);
    var xs := Range(scaledWidth, scaledGridWidth);
    RangeBounds(scaledWidth, scaledGridWidth);
    assert |labels| == |xs|;
    for i := 0 to |xs|
      invariant canvas.items == old(canvas.items) + labels[..i]
    {
      var x := xs[i];
      var colNum := x / scaledGridWidth;
      var cellCenterX := imgX + (x + scaledGridWidth / 2) as real;
      assert labels[i] == Text(cellCenterX, imgY - 15.0, LabelText(style, colNum), font, "blue");
      canvas.DrawText(cellCenterX, imgY - 15.0, LabelText(style, colNum), font, "blue");
      assert labels[..i + 1] == labels[..i] + [labels[i]];
    }
    assert labels[..|xs|] == labels;
  }

  /** The row-label loop of `draw_coordinates_on_canvas` and of main.py's
      `update_grid`. */
  method DrawRowLabels(canvas: Surface, imgX: real, imgY: real, scaledHeight: int, scaledGridHeight: int,
                       font: Font)
    requires scaledGridHeight >= 1
    modifies canvas`items
    ensures canvas.items == old(canvas.items) + RowLabels(imgX, imgY, scaledHeight, scaledGridHeight, font)
  {
    var labels := RowLabels(imgX, imgY, scaledHeight, scaledGridHeight, font);
    var ys := Range(scaledHeight, scaledGridHeight);
    RangeBounds(scaledHeight, scaledGridHeight);
    assert |labels| == |ys|;
    for i := 0 to |ys|
      invariant canvas.items == old(canvas.items) + labels[..i]
    {
      var y := ys[i];
      var rowNum := y / scaledGridHeight + 1;
      var cellCenterY := imgY + (y + scaledGridHeight / 2) as real;
      assert labels[i] == Text(imgX - 15.0, cellCenterY, DecimalString(rowNum), font, "blue");
      canvas.DrawText(imgX - 15.0, cellCenterY, DecimalString(rowNum), font, "blue");
      assert labels[..i + 1] == labels[..i] + [labels[i]];
    }
    assert labels[..|ys|] == labels;
  }

  /** `GridRenderer.draw_coordinates_on_canvas`: numbered column labels, then
      row labels, all in Arial of CanvasFontSize. */
  method DrawCoordinatesOnCanvas(canvas: Surface, imgX: real, imgY: real, scaledWidth: int, scaledHeight: int,
                                 scaledGridWidth: int, scaledGridHeight: int)
    requires scaledGridWidth >= 1 && scaledGridHeight >= 1
    modifies canvas`items
    ensures canvas.items == old(canvas.items)
      + ColumnLabels(imgX, imgY, scaledWidth, scaledGridWidth, Numbers,
                     Sized("Arial", CanvasFontSize(scaledGridWidth, scaledGridHeight)))
      + RowLabels(imgX, imgY, scaledHeight, scaledGridHeight,
                  Sized("Arial", CanvasFontSize(scaledGridWidth, scaledGridHeight)))
  {
    var fontSize := CanvasFontSize(scaledGridWidth, scaledGridHeight);
    DrawColumnLabels(canvas, imgX, imgY, scaledWidth, scaledGridWidth, Numbers, Sized("Arial", fontSize));
    DrawRowLabels(canvas, imgX, imgY, scaledHeight, scaledGridHeight, Sized("Arial", fontSize));
  }

  // ---------------------------------------------------------------------
  // GridExporter.export_image_with_grid
  // ---------------------------------------------------------------------

  /** `max(30, min(grid_width, grid_height) // 2)`: the white border left
      around the pasted image for the labels. */
  function ExportMargin(gridW: int, gridH: int): (margin: int)
    ensures margin >= 30 && margin >= Min(gridW, gridH) / 2
    ensures margin == 30 || margin == Min(gridW, gridH) / 2
  {
    var half := Min(gridW, gridH) / 2;
    if 30 >= half then 30 else half
  }

  /** `max(10, min(16, min(grid_width, grid_height) // 3))`. */
  function ExportFontSize(gridW: int, gridH: int): (size: int)
    ensures 10 <= size <= 16
    ensures 30 <= Min(gridW, gridH) < 51 ==> size == Min(gridW, gridH) / 3
    ensures Min(gridW, gridH) < 30 ==> size == 10
    ensures Min(gridW, gridH) >= 51 ==> size == 16
  {
    Clamp(Min(gridW, gridH) / 3, 10, 16)
  }

  /** The label font of an export: Arial at `size` when `arial.ttf` loads,
      Pillow's built-in font otherwise. */
  function ExportFont(arialLoads: bool, size: int): Font
  {
    if arialLoads then Sized("arial.ttf", size) else BuiltinDefault
  }

  /** Width and height of `text` as the export centres it: `draw.textsize`
      where Pillow has it, otherwise a third of the cell's width and height. */
  function TextExtent(measure: Measure, text: string, font: Font, gridW: int, gridH: int): (int, int)
  {
    match measure
    case TextSize(size) => size(text, font)
    case NoTextSize => (gridW / 3, gridH / 3)
  }

  /** The label of the column starting at `x`, centred on the cell's middle
      and on the middle of the top margin. */
  function ExportColumnLabel(x: nat, margin: int, gridW: int, gridH: int,
                             style: LabelStyle, font: Font, measure: Measure): Primitive
    requires gridW >= 1
  {
    var text := LabelText(style, x / gridW);
    var extent := TextExtent(measure, text, font, gridW, gridH);
    var cellCenterX := x + margin + gridW / 2;
    Text((cellCenterX - extent.0 / 2) as real, (margin / 2 - extent.1 / 2) as real, text, font, "blue")
  }

  /** The label of the row starting at `y`, centred on the middle of the
      left margin and on the cell's middle. */
  function ExportRowLabel(y: nat, margin: int, gridW: int, gridH: int, font: Font, measure: Measure): Primitive
    requires gridH >= 1
  {
    var text := DecimalString(y / gridH + 1);
    var extent := TextExtent(measure, text, font, gridW, gridH);
    var cellCenterY := y + margin + gridH / 2;
    Text((margin / 2 - extent.0 / 2) as real, (cellCenterY - extent.1 / 2) as real, text, font, "blue")
  }

  /** The column labels of an export: one per `x` in `range(0, export_width, grid_width)`. */
  function ExportColumnLabels(margin: int, exportWidth: int, gridW: int, gridH: int,
                              style: LabelStyle, font: Font, measure: Measure): seq<Primitive>
    requires gridW >= 1
  {
    var xs := Range(exportWidth, gridW);
    RangeBounds(exportWidth, gridW);
    seq(|xs|, i requires 0 <= i < |xs| => ExportColumnLabel(xs[i], margin, gridW, gridH, style, font, measure))
  }

  /** The row labels of an export: one per `y` in `range(0, export_height, grid_height)`. */
  function ExportRowLabels(margin: int, exportHeight: int, gridW: int, gridH: int,
                           font: Font, measure: Measure): seq<Primitive>
    requires gridH >= 1
  {
    var ys := Range(exportHeight, gridH);
    RangeBounds(exportHeight, gridH);
    seq(|ys|, i requires 0 <= i < |ys| => ExportRowLabel(ys[i], margin, gridW, gridH, font, measure))
  }

  /** Everything an export draws, in order: the resized image pasted at
      `(margin, margin)`, the grid lines of that image shifted by the margin,
      the column labels, the row labels. */
  function ExportItems(exportWidth: nat, exportHeight: nat, gridW: int, gridH: int, thickness: int,
                       color: string, style: LabelStyle, font: Font, measure: Measure): seq<Primitive>
    requires gridW >= 1 && gridH >= 1
  {
    var margin := ExportMargin(gridW, gridH);
    [Picture(margin as real, margin as real, exportWidth, exportHeight)]
      + GridLines(margin as real, margin as real, exportWidth, exportHeight, gridW, gridH, thickness, color)
      + ExportColumnLabels(margin, exportWidth, gridW, gridH, style, font, measure)
      + ExportRowLabels(margin, exportHeight, gridW, gridH, font, measure)
  }

  /** Every line of an export lies inside the pasted image: the grid never
      reaches into the white margin that holds the labels. */
  lemma ExportLinesInside(exportWidth: nat, exportHeight: nat, gridW: int, gridH: int, thickness: int,
                          color: string, style: LabelStyle, font: Font, measure: Measure, p: Primitive)
    requires gridW >= 1 && gridH >= 1
    requires p in ExportItems(exportWidth, exportHeight, gridW, gridH, thickness, color, style, font, measure)
    requires p.Line?
    ensures var margin := ExportMargin(gridW, gridH);
      && p.width == thickness && p.color == color
      && margin as real <= p.x1 <= p.x2 <= (margin + exportWidth) as real
      && margin as real <= p.y1 <= p.y2 <= (margin + exportHeight) as real
  {
    var margin := ExportMargin(gridW, gridH);
    var lines := GridLines(margin as real, margin as real, exportWidth, exportHeight, gridW, gridH, thickness, color);
    var cols := ExportColumnLabels(margin, exportWidth, gridW, gridH, style, font, measure);
    var rowLabels := ExportRowLabels(margin, exportHeight, gridW, gridH, font, measure);
    assert p !in cols && p !in rowLabels;
    assert p in lines;
    GridLinesInside(margin as real, margin as real, exportWidth, exportHeight, gridW, gridH, thickness, color, p);
  }

  /** An export has `ceil(w / gw)` column labels; the `i`-th reads the label
      of column `i`, and no two read the same. */
  lemma ExportColumnLabelsLayout(margin: int, exportWidth: nat, gridW: int, gridH: int,
                                 style: LabelStyle, font: Font, measure: Measure)
    requires gridW >= 1
    ensures var labels := ExportColumnLabels(margin, exportWidth, gridW, gridH, style, font, measure);
      && |labels| == (exportWidth + gridW - 1) / gridW
      && (forall i :: 0 <= i < |labels| ==> labels[i].Text? && labels[i].text == LabelText(style, i))
      && (forall i, j :: 0 <= i < j < |labels| ==> labels[i].text != labels[j].text)
  {
    RangeCounts(exportWidth, gridW);
    var labels := ExportColumnLabels(margin, exportWidth, gridW, gridH, style, font, measure);
    forall i | 0 <= i < |labels|
      ensures labels[i].Text? && labels[i].text == LabelText(style, i)
    {
      CellLabelOffset(i, gridW);
    }
    forall i, j | 0 <= i < j < |labels|
      ensures labels[i].text != labels[j].text
    {
      LabelTextDistinct(style, i, j);
    }
  }

  /** An export has `ceil(h / gh)` row labels; the `i`-th reads `i + 1`, and
      no two read the same. */
  lemma ExportRowLabelsLayout(margin: int, exportHeight: nat, gridW: int, gridH: int, font: Font, measure: Measure)
    requires gridH >= 1
    ensures var labels := ExportRowLabels(margin, exportHeight, gridW, gridH, font, measure);
      && |labels| == (exportHeight + gridH - 1) / gridH
      && (forall i :: 0 <= i < |labels| ==> labels[i].Text? && labels[i].text == DecimalString(i + 1))
      && (forall i, j :: 0 <= i < j < |labels| ==> labels[i].text != labels[j].text)
  {
    RangeCounts(exportHeight, gridH);
    var labels := ExportRowLabels(margin, exportHeight, gridW, gridH, font, measure);
    forall i | 0 <= i < |labels|
      ensures labels[i].Text? && labels[i].text == DecimalString(i + 1)
    {
      CellLabelOffset(i, gridH);
    }
    forall i, j | 0 <= i < j < |labels|
      ensures labels[i].text != labels[j].text
    {
      DecimalInjective(i + 1, j + 1);
    }
  }

  /** The column-label loop of an export. */
  method DrawExportColumnLabels(image: Surface, margin: int, exportWidth: int, gridW: int, gridH: int,
                                style: LabelStyle, font: Font, measure: Measure)
    requires gridW >= 1
    modifies image`items
    ensures image.items == old(image.items) + ExportColumnLabels(margin, exportWidth, gridW, gridH, style, font, measure)
  {
    var labels := ExportColumnLabels(margin, exportWidth, gridW, gridH, style, font, measure);
    var xs := Range(exportWidth, gridW);
    RangeBounds(exportWidth, gridW);
    for i := 0 to |xs|
      invariant image.items == old(image.items) + labels[..i]
    {
      var x := xs[i];
      var colLabel := LabelText(style, x / gridW);
      var cellCenterX := x + margin + gridW / 2;
      var (textWidth, textHeight) := TextExtent(measure, colLabel, font, gridW, gridH);
      image.DrawText((cellCenterX - textWidth / 2) as real, (margin / 2 - textHeight / 2) as real,
                     colLabel, font, "blue");
      assert labels[..i + 1] == labels[..i] + [labels[i]];
    }
    assert labels[..|xs|] == labels;
  }

  /** The row-label loop of an export. */
  method DrawExportRowLabels(image: Surface, margin: int, exportHeight: int, gridW: int, gridH: int,
                             font: Font, measure: Measure)
    requires gridH >= 1
    modifies image`items
    ensures image.items == old(image.items) + ExportRowLabels(margin, exportHeight, gridW, gridH, font, measure)
  {
    var labels := ExportRowLabels(margin, exportHeight, gridW, gridH, font, measure);
    var ys := Range(exportHeight, gridH);
    RangeBounds(exportHeight, gridH);
    for i := 0 to |ys|
      invariant image.items == old(image.items) + labels[..i]
    {
      var y := ys[i];
      var rowNum := DecimalString(y / gridH + 1);
      var cellCenterY := y + margin + gridH / 2;
      var (textWidth, textHeight) := TextExtent(measure, rowNum, font, gridW, gridH);
      image.DrawText((margin / 2 - textWidth / 2) as real, (cellCenterY - textHeight / 2) as real,
                     rowNum, font, "blue");
      assert labels[..i + 1] == labels[..i] + [labels[i]];
    }
    assert labels[..|ys|] == labels;
  }

  /** Builds an export image: a white canvas of the image size plus the
      margin on every side, the image pasted at `(margin, margin)`, the grid
      lines (the same segments `draw_grid_on_canvas` draws for an image
      placed at `(margin, margin)`) and the labels. */
  method ComposeExport(exportWidth: nat, exportHeight: nat, gridW: int, gridH: int, thickness: int,
                       color: string, style: LabelStyle, font: Font, measure: Measure)
    returns (image: Surface)
    requires gridW >= 1 && gridH >= 1
    ensures fresh(image)
    ensures image.width == exportWidth + 2 * ExportMargin(gridW, gridH)
    ensures image.height == exportHeight + 2 * ExportMargin(gridW, gridH)
    ensures image.items == ExportItems(exportWidth, exportHeight, gridW, gridH, thickness, color, style, font, measure)
  {
    var margin := ExportMargin(gridW, gridH);
    image := new Surface(exportWidth + margin * 2, exportHeight + margin * 2);
    image.DrawPicture(margin as real, margin as real, exportWidth, exportHeight);
    assert image.items == [Picture(margin as real, margin as real, exportWidth, exportHeight)];
    DrawGridOnCanvas(image, margin as real, margin as real, exportWidth, exportHeight, gridW, gridH, thickness, color);
    DrawExportColumnLabels(image, margin, exportWidth, gridW, gridH, style, font, measure);
    DrawExportRowLabels(image, margin, exportHeight, gridW, gridH, font, measure);
  }

  /** `GridExporter.export_image_with_grid` for an image already resized to
      `exportWidth` x `exportHeight`: numbered labels in the export font;
      always reports success. */
  method ExportImageWithGrid(exportWidth: nat, exportHeight: nat, gridWidth: int, gridHeight: int,
                             lineThickness: int, gridColor: string, arialLoads: bool, measure: Measure)
    returns (image: Surface, ok: bool)
    requires gridWidth >= 1 && gridHeight >= 1
    ensures fresh(image) && ok
    ensures image.width == exportWidth + 2 * ExportMargin(gridWidth, gridHeight)
    ensures image.height == exportHeight + 2 * ExportMargin(gridWidth, gridHeight)
    ensures image.items == ExportItems(exportWidth, exportHeight, gridWidth, gridHeight, lineThickness, gridColor,
                                       Numbers, ExportFont(arialLoads, ExportFontSize(gridWidth, gridHeight)), measure)
  {
    var font := ExportFont(arialLoads, ExportFontSize(gridWidth, gridHeight));
    image := ComposeExport(exportWidth, exportHeight, gridWidth, gridHeight, lineThickness, gridColor,
                           Numbers, font, measure);
    ok := true;
  }
}
