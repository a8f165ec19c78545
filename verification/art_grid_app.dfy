/** The single-window application of main.py: an image shown on a canvas
    with a red grid, letters over the columns and numbers beside the rows,
    panned by dragging, zoomed with the mouse wheel or a slider, and
    exported with the grid baked in. The view state the event handlers
    change is specified by pure step functions on `View`; the class
    `ArtGridApp` keeps the source's fields and its methods are proved to
    perform those steps. */
module ArtGrid {

  import opened Arith
  import opened Wrappers
  import opened Labels
  import opened Drawing
  import opened GridUtils

  /** A mouse-wheel event at canvas position `(x, y)`: `num` is the X11
      button (4 scrolls up, 5 down), `delta` the Windows wheel delta. */
  datatype WheelEvent = WheelEvent(x: int, y: int, num: int, delta: int)

  /** The fields the view handlers change: zoom, pan offset and the drag in
      progress. */
  datatype View = View(zoom: real, panX: real, panY: real, dragging: bool, dragStartX: int, dragStartY: int)

  const MinZoom: real := 0.1
  const MaxZoom: real := 10.0

  // ---------------------------------------------------------------------
  // Event steps
  // ---------------------------------------------------------------------

  /** The zoom factor of a wheel event: 1.1 for scrolling up, 0.9 for
      scrolling down, none for an event that is neither. */
  function WheelFactor(e: WheelEvent): Option<real>
  {
    if e.num == 4 || e.delta > 0 then Some(1.1)
    else if e.num == 5 || e.delta < 0 then Some(0.9)
    else None
  }

  /** Whether `mouse_zoom` acts on `e`: the event scrolls and the new zoom
      stays within `[0.1, 10]`. */
  predicate ZoomAccepted(v: View, e: WheelEvent)
  {
    WheelFactor(e).Some? && MinZoom <= v.zoom * WheelFactor(e).value <= MaxZoom
  }

  /** `mouse_zoom`: multiply the zoom by the wheel factor and scale the
      cursor's distance from the pan offset by the same factor. */
  function Zoomed(v: View, e: WheelEvent): (w: View)
    ensures w.dragging == v.dragging && w.dragStartX == v.dragStartX && w.dragStartY == v.dragStartY
    ensures w == v || MinZoom <= w.zoom <= MaxZoom
  {
    match WheelFactor(e)
    case None => v
    case Some(factor) =>
      var newZoom := v.zoom * factor;
      if MinZoom <= newZoom <= MaxZoom then
        v.(zoom := newZoom,
           panX := e.x as real - (e.x as real - v.panX) * factor,
           panY := e.y as real - (e.y as real - v.panY) * factor)
      else v
  }

  /** `reset_view`: zoom 1 and no pan. */
  function ViewReset(v: View): (w: View)
    ensures w.zoom == 1.0 && MinZoom <= w.zoom <= MaxZoom && w.panX == 0.0 && w.panY == 0.0
    ensures w.dragging == v.dragging && w.dragStartX == v.dragStartX && w.dragStartY == v.dragStartY
  {
    v.(zoom := 1.0, panX := 0.0, panY := 0.0)
  }

  /** `start_drag`: a drag begins at the mouse position. */
  function DragStarted(v: View, x: int, y: int): (w: View)
    ensures w.dragging && w.dragStartX == x && w.dragStartY == y
    ensures w.zoom == v.zoom && w.panX == v.panX && w.panY == v.panY
    ensures Dragged(w, x, y) == w
  {
    v.(dragging := true, dragStartX := x, dragStartY := y)
  }

  /** `drag`: while dragging, pan by the mouse's movement since the last
      event and remember the new mouse position. */
  function Dragged(v: View, x: int, y: int): (w: View)
    ensures !v.dragging ==> w == v
    ensures w.zoom == v.zoom && w.dragging == v.dragging
    ensures w.panX - w.dragStartX as real == v.panX - v.dragStartX as real
    ensures w.panY - w.dragStartY as real == v.panY - v.dragStartY as real
  {
    if !v.dragging then v
    else v.(dragStartX := x, dragStartY := y,
            panX := v.panX + (x - v.dragStartX) as real,
            panY := v.panY + (y - v.dragStartY) as real)
  }

  /** `end_drag`: the drag is over. */
  function DragEnded(v: View): (w: View)
    ensures !w.dragging
    ensures w.zoom == v.zoom && w.panX == v.panX && w.panY == v.panY
    ensures w.dragStartX == v.dragStartX && w.dragStartY == v.dragStartY
    ensures forall x: int, y: int :: Dragged(w, x, y) == w
  {
    v.(dragging := false)
  }

  /** A sequence of motion events, handled in order. */
  function DragMoves(v: View, moves: seq<(int, int)>): View
    decreases |moves|
  {
    if moves == [] then v else DragMoves(Dragged(v, moves[0].0, moves[0].1), moves[1..])
  }

  /** A wheel event is either accepted, and then scales the zoom by its
      factor and the cursor's distance from the pan offset by the same
      factor, or it changes nothing at all. */
  lemma ZoomEffect(v: View, e: WheelEvent)
    ensures ZoomAccepted(v, e) ==>
      var f := WheelFactor(e).value;
      var w := Zoomed(v, e);
      && w.zoom == v.zoom * f
      && e.x as real - w.panX == (e.x as real - v.panX) * f
      && e.y as real - w.panY == (e.y as real - v.panY) * f
      && w.dragging == v.dragging && w.dragStartX == v.dragStartX && w.dragStartY == v.dragStartY
    ensures !ZoomAccepted(v, e) ==> Zoomed(v, e) == v
    ensures WheelFactor(e).None? <==> e.num != 4 && e.num != 5 && e.delta == 0
  {
  }

  /** The zoom level never leaves `[0.1, 10]`. */
  lemma ZoomStaysInBounds(v: View, e: WheelEvent)
    requires MinZoom <= v.zoom <= MaxZoom
    ensures MinZoom <= Zoomed(v, e).zoom <= MaxZoom
  {
  }

  /** Dividing both sides of a scaling by the scaled zoom. */
  lemma ScaledRatio(a: real, z: real, f: real)
    requires z > 0.0 && f > 0.0
    ensures (a * f) / (z * f) == a / z
  {
    assert (a * f) / (z * f) * (z * f) == a * f;
    assert (a / z) * (z * f) == a * f;
  }

  /** The cursor's distance from the pan offset, in image pixels, is the
      same before and after a zoom. The image is drawn relative to the
      canvas centre as well as the pan, so this is not the image point under
      the cursor: ZoomMovesDisplayedPoint shows that point moving. */
  lemma ZoomKeepsCursorPoint(v: View, e: WheelEvent)
    requires v.zoom > 0.0 && ZoomAccepted(v, e)
    ensures (e.x as real - Zoomed(v, e).panX) / Zoomed(v, e).zoom == (e.x as real - v.panX) / v.zoom
    ensures (e.y as real - Zoomed(v, e).panY) / Zoomed(v, e).zoom == (e.y as real - v.panY) / v.zoom
  {
    var f := WheelFactor(e).value;
    ScaledRatio(e.x as real - v.panX, v.zoom, f);
    ScaledRatio(e.y as real - v.panY, v.zoom, f);
  }

  /** Motion events without a drag in progress change nothing. */
  lemma {:induction false} DragIdle(v: View, moves: seq<(int, int)>)
    requires !v.dragging
    ensures DragMoves(v, moves) == v
    decreases |moves|
  {
    if moves != [] {
      DragIdle(v, moves[1..]);
    }
  }

  /** During a drag the pan offset moves by exactly the mouse's total
      movement from the drag start to the last event: the per-event deltas
      telescope. Zoom is untouched and the drag goes on from the last event. */
  lemma {:induction false} DragTelescopes(v: View, moves: seq<(int, int)>)
    requires v.dragging && |moves| >= 1
    ensures var w := DragMoves(v, moves);
      var last := moves[|moves| - 1];
      && w.panX == v.panX + (last.0 - v.dragStartX) as real
      && w.panY == v.panY + (last.1 - v.dragStartY) as real
      && w.dragging && w.dragStartX == last.0 && w.dragStartY == last.1
      && w.zoom == v.zoom
    decreases |moves|
  {
    if |moves| > 1 {
      DragTelescopes(Dragged(v, moves[0].0, moves[0].1), moves[1..]);
    }
  }

  /** A whole drag gesture: press at `(sx, sy)`, move through `moves`,
      release. The pan grows by the distance from the press to the last
      motion event, and later motion events do nothing. */
  lemma DragGesture(v: View, sx: int, sy: int, moves: seq<(int, int)>, later: seq<(int, int)>)
    requires |moves| >= 1
    ensures var w := DragEnded(DragMoves(DragStarted(v, sx, sy), moves));
      var last := moves[|moves| - 1];
      && w.panX == v.panX + (last.0 - sx) as real
      && w.panY == v.panY + (last.1 - sy) as real
      && w.zoom == v.zoom && !w.dragging
      && DragMoves(w, later) == w
  {
    DragTelescopes(DragStarted(v, sx, sy), moves);
    DragIdle(DragEnded(DragMoves(DragStarted(v, sx, sy), moves)), later);
  }

  // ---------------------------------------------------------------------
  // update_grid geometry
  // ---------------------------------------------------------------------

  /** Python's `int()` of a float: rounds toward zero. */
  function Trunc(r: real): (t: int)
    ensures r >= 0.0 ==> 0 <= t && t as real <= r < t as real + 1.0
    ensures r < 0.0 ==> t <= 0 && t as real - 1.0 < r <= t as real
  {
    if r >= 0.0 then r.Floor else -((-r).Floor)
  }

  /** `n * zoom` for an integer `n`, written as repeated addition of `zoom`
      so that reasoning about it stays linear; ScaleByIsProduct shows it is
      the product. */
  function ScaleBy(n: int, zoom: real): (r: real)
    ensures n >= 0 && zoom >= 0.0 ==> r >= 0.0
    decreases if n < 0 then -n else n
  {
    if n == 0 then 0.0
    else if n > 0 then ScaleBy(n - 1, zoom) + zoom
    else ScaleBy(n + 1, zoom) - zoom
  }

  /** ScaleBy is multiplication. */
  lemma {:induction false} ScaleByIsProduct(n: int, zoom: real)
    ensures ScaleBy(n, zoom) == n as real * zoom
    decreases if n < 0 then -n else n
  {
    if n > 0 {
      ScaleByIsProduct(n - 1, zoom);
      assert (n - 1) as real * zoom + zoom == n as real * zoom;
    } else if n < 0 {
      ScaleByIsProduct(n + 1, zoom);
      assert (n + 1) as real * zoom - zoom == n as real * zoom;
    }
  }

  /** The on-screen grid step: `int(grid_size * zoom_level)`, raised to 5
      when smaller. */
  function DisplayStep(gridSize: int, zoom: real): (step: int)
    ensures step >= 5
    ensures Trunc(gridSize as real * zoom) >= 5 ==> step == Trunc(gridSize as real * zoom)
    ensures Trunc(gridSize as real * zoom) < 5 ==> step == 5
    ensures Trunc(ScaleBy(gridSize, zoom)) >= 5 ==> step == Trunc(ScaleBy(gridSize, zoom))
    ensures Trunc(ScaleBy(gridSize, zoom)) < 5 ==> step == 5
  {
    ScaleByIsProduct(gridSize, zoom);
    var scaledGridSize := Trunc(ScaleBy(gridSize, zoom));
    if scaledGridSize < 5 then 5 else scaledGridSize
  }

  /** The image's top-left corner along one axis:
      `canvas_extent // 2 - scaled_extent // 2 + pan`. */
  function Origin(canvasExtent: int, scaledExtent: int, pan: real): real
  {
    (canvasExtent / 2 - scaledExtent / 2) as real + pan
  }

  /** Without pan the image is centred on the canvas to within half a
      pixel; the pan offset shifts it by exactly the offset. */
  lemma OriginCentres(canvasExtent: int, scaledExtent: int, pan: real)
    ensures var centreOffset := Origin(canvasExtent, scaledExtent, pan) + scaledExtent as real / 2.0
                                - (canvasExtent as real / 2.0 + pan);
      -0.5 <= centreOffset <= 0.5
  {
    assert canvasExtent == (canvasExtent / 2) * 2 + canvasExtent % 2;
    assert scaledExtent == (scaledExtent / 2) * 2 + scaledExtent % 2;
  }

  // ---------------------------------------------------------------------
  // The image point under the cursor
  // ---------------------------------------------------------------------

  /** The image column under canvas column `x` once `update_grid` has drawn
      an image `width` pixels wide for view `v` on a canvas `canvasWidth`
      wide: `(x - img_x) / zoom`. */
  function ColumnUnderCursor(width: int, canvasWidth: int, v: View, x: int): real
    requires v.zoom > 0.0
  {
    (x as real - Origin(canvasWidth, Trunc(ScaleBy(width, v.zoom)), v.panX)) / v.zoom
  }

  /** The same column with the halves taken exactly: the image's centre
      column `width / 2` is drawn at `canvasWidth // 2 + pan`. */
  function ExactColumn(width: int, canvasWidth: int, zoom: real, pan: real, x: int): real
    requires zoom > 0.0
  {
    width as real / 2.0 + ((x - canvasWidth / 2) as real - pan) / zoom
  }

  /** The exact column exceeds the drawn one by less than one canvas
      pixel, that is by less than `1 / zoom` image pixels. */
  lemma ExactColumnClose(width: nat, canvasWidth: int, v: View, x: int)
    requires v.zoom > 0.0
    ensures 0.0 <= (ExactColumn(width, canvasWidth, v.zoom, v.panX, x) - ColumnUnderCursor(width, canvasWidth, v, x)) * v.zoom < 1.0
  {
    var z := v.zoom;
    ScaleByIsProduct(width, z);
    var s := Trunc(ScaleBy(width, z));
    var a := (x - canvasWidth / 2) as real - v.panX;
    var b := x as real - Origin(canvasWidth, s, v.panX);
    assert b == a + (s / 2) as real;
    assert s == (s / 2) * 2 + s % 2;
    var e := ExactColumn(width, canvasWidth, z, v.panX, x);
    var c := ColumnUnderCursor(width, canvasWidth, v, x);
    assert e == width as real / 2.0 + a / z && c == b / z;
    assert (e - c) * z == width as real * z / 2.0 + (a / z) * z - (b / z) * z;
    assert (a / z) * z == a && (b / z) * z == b;
  }

  /** As written, a wheel zoom moves the image point under the cursor: an
      image 400 pixels wide on a canvas 800 wide, zoom 1, no pan, one scroll
      up at x = 400. Column 200 is under the cursor before; afterwards the
      pan is -40, the image starts at 140 and column 260 / 1.1 is. */
  lemma ZoomMovesDisplayedPoint()
    ensures var v := View(1.0, 0.0, 0.0, false, 0, 0);
      var w := Zoomed(v, WheelEvent(400, 300, 4, 0));
      && w.zoom == 1.1 && w.panX == -40.0
      && ColumnUnderCursor(400, 800, v, 400) == 200.0
      && ColumnUnderCursor(400, 800, w, 400) == 260.0 / 1.1
      && ColumnUnderCursor(400, 800, w, 400) != ColumnUnderCursor(400, 800, v, 400)
  {
    ScaleByIsProduct(400, 1.0);
    ScaleByIsProduct(400, 1.1);
    assert Trunc(400.0) == 400 && Trunc(440.0) == 440;
  }

  /** In general, an accepted wheel zoom shifts the exact image column under
      the cursor by `(canvasWidth // 2) * (1 - 1 / factor) / zoom`, which is
      zero only when the canvas is at most one pixel wide. */
  lemma ZoomShiftsDisplayedPoint(v: View, e: WheelEvent, width: int, canvasWidth: int)
    requires v.zoom > 0.0 && ZoomAccepted(v, e)
    ensures var f := WheelFactor(e).value;
      var w := Zoomed(v, e);
      && w.zoom > 0.0
      && ExactColumn(width, canvasWidth, w.zoom, w.panX, e.x)
         == ExactColumn(width, canvasWidth, v.zoom, v.panX, e.x) + (canvasWidth / 2) as real * (1.0 - 1.0 / f) / v.zoom
  {
    var f := WheelFactor(e).value;
    var z := v.zoom;
    var c := (canvasWidth / 2) as real;
    var a := e.x as real - v.panX;
    var w := Zoomed(v, e);
    assert (e.x - canvasWidth / 2) as real - w.panX == a * f - c;
    ScaledRatio(a, z, f);
    assert (a * f - c) / (z * f) == (a * f) / (z * f) - c / (z * f);
    assert ((e.x - canvasWidth / 2) as real - v.panX) / z == a / z - c / z;
    assert c / z - c / (z * f) == c * (1.0 - 1.0 / f) / z;
  }

  /** `mouse_zoom` with the pan update taken about the canvas centre, where
      `update_grid` anchors the image: the cursor's offset from
      `canvas // 2 + pan` is scaled by the wheel factor. */
  function ZoomedAboutCentre(v: View, e: WheelEvent, canvasWidth: int, canvasHeight: int): (w: View)
    ensures w.zoom == Zoomed(v, e).zoom
    ensures w.dragging == v.dragging && w.dragStartX == v.dragStartX && w.dragStartY == v.dragStartY
    ensures !ZoomAccepted(v, e) ==> w == v
  {
    match WheelFactor(e)
    case None => v
    case Some(factor) =>
      var newZoom := v.zoom * factor;
      if MinZoom <= newZoom <= MaxZoom then
        var dx := (e.x - canvasWidth / 2) as real;
        var dy := (e.y - canvasHeight / 2) as real;
        v.(zoom := newZoom, panX := dx - (dx - v.panX) * factor, panY := dy - (dy - v.panY) * factor)
      else v
  }

  /** Zooming about the canvas centre keeps the image point under the
      cursor, on both axes, for any wheel event. */
  lemma CentredZoomKeepsCursorPoint(v: View, e: WheelEvent, width: int, height: int,
                                    canvasWidth: int, canvasHeight: int)
    requires v.zoom > 0.0
    ensures var w := ZoomedAboutCentre(v, e, canvasWidth, canvasHeight);
      && w.zoom > 0.0
      && ExactColumn(width, canvasWidth, w.zoom, w.panX, e.x) == ExactColumn(width, canvasWidth, v.zoom, v.panX, e.x)
      && ExactColumn(height, canvasHeight, w.zoom, w.panY, e.y) == ExactColumn(height, canvasHeight, v.zoom, v.panY, e.y)
  {
    if ZoomAccepted(v, e) {
      var f := WheelFactor(e).value;
      ScaledRatio((e.x - canvasWidth / 2) as real - v.panX, v.zoom, f);
      ScaledRatio((e.y - canvasHeight / 2) as real - v.panY, v.zoom, f);
    }
  }

  /** The canvas items of one redraw, given the image's corner and size on
      screen and the displayed grid step: the image, the grid lines, the
      column letters and the row numbers. */
  function Layers(imgX: real, imgY: real, scaledWidth: int, scaledHeight: int, step: int, thickness: int)
    : seq<Primitive>
    requires step >= 1
  {
    var font := Sized("Arial", CanvasFontSize(step, step));
    [Picture(imgX, imgY, scaledWidth, scaledHeight)]
      + GridLines(imgX, imgY, scaledWidth, scaledHeight, step, step, thickness, "red")
      + ColumnLabels(imgX, imgY, scaledWidth, step, Letters, font)
      + RowLabels(imgX, imgY, scaledHeight, step, font)
  }

  /** What `update_grid` leaves on the canvas for a given view. */
  function Scene(image: ImageSize, canvasWidth: int, canvasHeight: int, zoom: real, panX: real, panY: real,
                 gridSize: int, thickness: int): seq<Primitive>
  {
    var scaledWidth := Trunc(ScaleBy(image.width, zoom));
    var scaledHeight := Trunc(ScaleBy(image.height, zoom));
    Layers(Origin(canvasWidth, scaledWidth, panX), Origin(canvasHeight, scaledHeight, panY),
           scaledWidth, scaledHeight, DisplayStep(gridSize, zoom), thickness)
  }

  /** The scene of a view is the redraw at the image's on-screen corner,
      size and grid step. */
  lemma SceneIsLayers(image: ImageSize, canvasWidth: int, canvasHeight: int, zoom: real, panX: real, panY: real,
                      gridSize: int, thickness: int,
                      imgX: real, imgY: real, scaledWidth: int, scaledHeight: int, step: int)
    requires scaledWidth == Trunc(ScaleBy(image.width, zoom)) && scaledHeight == Trunc(ScaleBy(image.height, zoom))
    requires imgX == Origin(canvasWidth, scaledWidth, panX) && imgY == Origin(canvasHeight, scaledHeight, panY)
    requires step == DisplayStep(gridSize, zoom)
    ensures Scene(image, canvasWidth, canvasHeight, zoom, panX, panY, gridSize, thickness)
            == Layers(imgX, imgY, scaledWidth, scaledHeight, step, thickness)
  {
  }

  /** Every line of a redraw is a red line of the given thickness lying on
      the displayed image. */
  lemma LayersLinesInside(imgX: real, imgY: real, scaledWidth: nat, scaledHeight: nat, step: int, thickness: int,
                          p: Primitive)
    requires step >= 1
    requires p in Layers(imgX, imgY, scaledWidth, scaledHeight, step, thickness) && p.Line?
    ensures p.width == thickness && p.color == "red"
    ensures imgX <= p.x1 <= p.x2 <= imgX + scaledWidth as real
    ensures imgY <= p.y1 <= p.y2 <= imgY + scaledHeight as real
  {
    var font := Sized("Arial", CanvasFontSize(step, step));
    var cols := ColumnLabels(imgX, imgY, scaledWidth, step, Letters, font);
    var rows := RowLabels(imgX, imgY, scaledHeight, step, font);
    assert p !in cols && p !in rows;
    GridLinesInside(imgX, imgY, scaledWidth, scaledHeight, step, step, thickness, "red", p);
  }

  /** Every line of the scene lies on the displayed image. */
  lemma SceneLinesInside(image: ImageSize, canvasWidth: int, canvasHeight: int, zoom: real, panX: real, panY: real,
                         gridSize: int, thickness: int, p: Primitive)
    requires zoom > 0.0
    requires p in Scene(image, canvasWidth, canvasHeight, zoom, panX, panY, gridSize, thickness) && p.Line?
    ensures var scaledWidth := Trunc(ScaleBy(image.width, zoom));
      var scaledHeight := Trunc(ScaleBy(image.height, zoom));
      var imgX := Origin(canvasWidth, scaledWidth, panX);
      var imgY := Origin(canvasHeight, scaledHeight, panY);
      && p.width == thickness && p.color == "red"
      && imgX <= p.x1 <= p.x2 <= imgX + scaledWidth as real
      && imgY <= p.y1 <= p.y2 <= imgY + scaledHeight as real
  {
    var scaledWidth := Trunc(ScaleBy(image.width, zoom));
    var scaledHeight := Trunc(ScaleBy(image.height, zoom));
    LayersLinesInside(Origin(canvasWidth, scaledWidth, panX), Origin(canvasHeight, scaledHeight, panY),
                      scaledWidth, scaledHeight, DisplayStep(gridSize, zoom), thickness, p);
  }

  /** The columns of the scene are lettered A, B, C, ... from the left. */
  lemma SceneColumnLetters(image: ImageSize, canvasWidth: int, canvasHeight: int, zoom: real, panX: real, panY: real,
                           gridSize: int, k: nat)
    requires zoom > 0.0
    ensures var scaledWidth := Trunc(ScaleBy(image.width, zoom));
      var imgX := Origin(canvasWidth, scaledWidth, panX);
      var imgY := Origin(canvasHeight, Trunc(ScaleBy(image.height, zoom)), panY);
      var step := DisplayStep(gridSize, zoom);
      var cols := ColumnLabels(imgX, imgY, scaledWidth, step, Letters, Sized("Arial", CanvasFontSize(step, step)));
      k < |cols| ==> cols[k].text == ColumnLetter(k)
  {
    var scaledWidth := Trunc(ScaleBy(image.width, zoom));
    var imgX := Origin(canvasWidth, scaledWidth, panX);
    var imgY := Origin(canvasHeight, Trunc(ScaleBy(image.height, zoom)), panY);
    var step := DisplayStep(gridSize, zoom);
    ColumnLabelsLayout(imgX, imgY, scaledWidth, step, Letters, Sized("Arial", CanvasFontSize(step, step)));
  }

  /** The drawing half of `update_grid`: clear the canvas, then draw the
      image, the grid and the labels. The column labels are
      `ColumnLetter(i)`, which is what `get_column_letter` returns
      (`ArtGridApp.GetColumnLetter`). */
  method Repaint(canvas: Surface, imgX: real, imgY: real, scaledWidth: int, scaledHeight: int, step: int,
                 thickness: int)
    requires step >= 1
    modifies canvas`items
    ensures canvas.items == Layers(imgX, imgY, scaledWidth, scaledHeight, step, thickness)
  {
    canvas.Clear();
    canvas.DrawPicture(imgX, imgY, scaledWidth, scaledHeight);
    DrawGridOnCanvas(canvas, imgX, imgY, scaledWidth, scaledHeight, step, step, thickness, "red");
    var font := Sized("Arial", CanvasFontSize(step, step));
    DrawColumnLabels(canvas, imgX, imgY, scaledWidth, step, Letters, font);
    DrawRowLabels(canvas, imgX, imgY, scaledHeight, step, font);
  }

  /** Setting the zoom slider (`from_=1`, `to=10`, `resolution=0.1`): Tk
      rounds the value to the nearest tenth, halves upwards, and then keeps
      it between the ends. */
  function ZoomSliderValue(v: real): (r: real)
    ensures 1.0 <= r <= 10.0
    ensures (r * 10.0).Floor as real == r * 10.0
    ensures 0.95 <= v < 10.05 ==> -0.05 < r - v <= 0.05
    ensures v < 0.95 ==> r == 1.0
    ensures v >= 10.05 ==> r == 10.0
  {
    var tenths := (v * 10.0 + 0.5).Floor;
    Clamp(tenths, 10, 100) as real / 10.0
  }

  /** A whole number of tenths between the ends is a resting position of
      the zoom slider: setting it leaves it alone. */
  lemma ZoomSliderKeepsTenths(k: int)
    requires 10 <= k <= 100
    ensures ZoomSliderValue(k as real / 10.0) == k as real / 10.0
  {
    var r := k as real / 10.0;
    assert r * 10.0 == k as real;
    assert (r * 10.0 + 0.5).Floor == k;
  }

  /** A wheel event together with the zoom slider's command. `mouse_zoom`
      sets the slider to the new zoom; when the slider's rounded value
      differs from its previous one, Tk later calls `update_zoom`, which
      replaces the zoom with the slider's value while the pan stays where
      `mouse_zoom` put it for the unrounded zoom. The result is the view and
      the slider position. */
  function WheelThroughSlider(v: View, slider: real, e: WheelEvent): (r: (View, real))
    ensures !ZoomAccepted(v, e) ==> r == (v, slider)
    ensures ZoomAccepted(v, e) ==> r.1 == ZoomSliderValue(v.zoom * WheelFactor(e).value)
    ensures ZoomAccepted(v, e) ==> r.0.panX == Zoomed(v, e).panX && r.0.panY == Zoomed(v, e).panY
    ensures ZoomAccepted(v, e) && r.1 == slider ==> r.0 == Zoomed(v, e)
    ensures ZoomAccepted(v, e) && r.1 != slider ==> r.0 == Zoomed(v, e).(zoom := r.1)
  {
    if !ZoomAccepted(v, e) then (v, slider)
    else
      var w := Zoomed(v, e);
      var s := ZoomSliderValue(w.zoom);
      if s != slider then (w.(zoom := s), s) else (w, s)
  }

  /** The slider's command moves the image point under the cursor once
      more. An image 400 pixels wide on a canvas 800 wide, zoom 1.1 with the
      slider at 1.1, no pan, one scroll up at x = 400: `mouse_zoom` sets pan
      -40 for zoom 1.21, leaving column 282 / 1.21 under the cursor; the
      slider rounds to 1.2, `update_zoom` sets zoom 1.2 and keeps the pan,
      and column 280 / 1.2 is under the cursor. */
  lemma SliderCallbackMovesCursorPoint()
    ensures var v := View(1.1, 0.0, 0.0, false, 0, 0);
      var e := WheelEvent(400, 300, 4, 0);
      var zoomed := Zoomed(v, e);
      var r := WheelThroughSlider(v, 1.1, e);
      && zoomed.zoom == 1.21 && zoomed.panX == -40.0
      && r.1 == 1.2 && r.0.zoom == 1.2 && r.0.panX == -40.0
      && ColumnUnderCursor(400, 800, zoomed, 400) == 282.0 / 1.21
      && ColumnUnderCursor(400, 800, r.0, 400) == 280.0 / 1.2
      && ColumnUnderCursor(400, 800, r.0, 400) != ColumnUnderCursor(400, 800, zoomed, 400)
  {
    var v := View(1.1, 0.0, 0.0, false, 0, 0);
    var e := WheelEvent(400, 300, 4, 0);
    assert WheelFactor(e) == Some(1.1);
    var zoomed := Zoomed(v, e);
    assert zoomed.zoom == 1.21 && zoomed.panX == -40.0;
    assert ZoomSliderValue(1.21) == 1.2 by {
      assert (1.21 * 10.0 + 0.5).Floor == 12;
    }
    var r := WheelThroughSlider(v, 1.1, e);
    assert r.1 == 1.2 && r.0 == zoomed.(zoom := 1.2);
    ScaleByIsProduct(400, 1.21);
    ScaleByIsProduct(400, 1.2);
    assert Trunc(ScaleBy(400, 1.21)) == 484 && Trunc(ScaleBy(400, 1.2)) == 480;
    assert ColumnUnderCursor(400, 800, zoomed, 400) == (400.0 - Origin(800, 484, -40.0)) / 1.21;
    assert ColumnUnderCursor(400, 800, r.0, 400) == (400.0 - Origin(800, 480, -40.0)) / 1.2;
    assert 282.0 / 1.21 != 280.0 / 1.2 by {
      assert (282.0 / 1.21) * 1.21 == 282.0 && (280.0 / 1.2) * 1.2 == 280.0;
    }
  }

  // ---------------------------------------------------------------------
  // ArtGridApp
  // ---------------------------------------------------------------------

  class ArtGridApp {
    /** The loaded image, reduced to its size; None before the first load. */
    var image: Option<ImageSize>
    var gridSize: int
    var lineThickness: int
    var zoomLevel: real
    var panX: real
    var panY: real
    var dragging: bool
    var dragStartX: int
    var dragStartY: int
    /** The positions of the grid-size, thickness and zoom sliders. */
    var gridSizeScale: int
    var thicknessScale: int
    var zoomScale: real
    const canvas: Surface

    /** The ranges the sliders allow, and the zoom bounds of `mouse_zoom`. */
    ghost predicate Valid()
      reads this
    {
      && MinZoom <= zoomLevel <= MaxZoom && 1.0 <= zoomScale <= 10.0
      && 10 <= gridSize <= 200 && 10 <= gridSizeScale <= 200
      && 1 <= lineThickness <= 10 && 1 <= thicknessScale <= 10
    }

    /** The view fields as a value. */
    function ViewOf(): View
      reads this
    {
      View(zoomLevel, panX, panY, dragging, dragStartX, dragStartY)
    }

    /** The state `update_grid` leaves, given the canvas items and the grid
      size and thickness before the call: nothing changes without an image;
      otherwise the slider values are taken, and the canvas is repainted
      unless it is not laid out yet (width at most 1), in which case the
      redraw is deferred and the canvas left as it was. */
    ghost predicate Redrawn(oldItems: seq<Primitive>, oldGridSize: int, oldThickness: int)
      reads this, canvas
    {
      if image.None? then
        canvas.items == oldItems && gridSize == oldGridSize && lineThickness == oldThickness
      else
        && gridSize == gridSizeScale && lineThickness == thicknessScale
        && canvas.items == (if canvas.width <= 1 then oldItems
                            else Scene(image.value, canvas.width, canvas.height, zoomLevel, panX, panY,
                                       gridSize, lineThickness))
    }

    /** `__init__`: no image, grid size 50, thickness 1, zoom 1, no pan. */
    constructor (canvas: Surface)
      ensures Valid() && this.canvas == canvas
      ensures image.None? && gridSize == 50 && lineThickness == 1
      ensures ViewOf() == View(1.0, 0.0, 0.0, false, 0, 0)
      ensures gridSizeScale == 50 && thicknessScale == 1 && zoomScale == 1.0
    {
      this.canvas := canvas;
      image := None;
      gridSize := 50;
      lineThickness := 1;
      zoomLevel := 1.0;
      panX, panY := 0.0, 0.0;
      dragging := false;
      dragStartX, dragStartY := 0, 0;
      gridSizeScale := 50;
      thicknessScale := 1;
      zoomScale := 1.0;
    }

    /** `get_column_letter`: the spreadsheet name of column `colNum`. */
    method GetColumnLetter(colNum: int) returns (result: string)
      ensures result == ColumnLetter(colNum)
    {
      result := "";
      var n := colNum;
      while n >= 0
        invariant ColumnLetter(colNum) == ColumnLetter(n) + result
        decreases n + 1
      {
        var remainder := n % 26;
        result := [Letter(remainder)] + result;
        n := n / 26 - 1;
        if n < 0 {
          break;
        }
      }
    }

    /** `update_grid`. */
    method UpdateGrid()
      requires Valid()
      modifies this`gridSize, this`lineThickness, canvas`items
      ensures Valid()
      ensures Redrawn(old(canvas.items), old(gridSize), old(lineThickness))
    {
      if image.None? {
        return;
      }
      gridSize := gridSizeScale;
      lineThickness := thicknessScale;
      var canvasWidth := canvas.width;
      var canvasHeight := canvas.height;
      if canvasWidth <= 1 {
        // the source retries after 100 ms; the retry is another call
        return;
      }
      var picture := image.value;
      var zoom, offsetX, offsetY := zoomLevel, panX, panY;
      var scaledWidth := Trunc(ScaleBy(picture.width, zoom));
      var scaledHeight := Trunc(ScaleBy(picture.height, zoom));
      var scaledGridSize := Trunc(ScaleBy(gridSize, zoom));
      if scaledGridSize < 5 {
        scaledGridSize := 5;
      }
      assert scaledGridSize == DisplayStep(gridSize, zoom);
      var imgX := (canvasWidth / 2 - scaledWidth / 2) as real + offsetX;
      var imgY := (canvasHeight / 2 - scaledHeight / 2) as real + offsetY;
      SceneIsLayers(picture, canvasWidth, canvasHeight, zoom, offsetX, offsetY, gridSize, lineThickness,
                    imgX, imgY, scaledWidth, scaledHeight, scaledGridSize);
      Repaint(canvas, imgX, imgY, scaledWidth, scaledHeight, scaledGridSize, lineThickness);
    }

    /** `reset_view`: zoom 1, slider at 1, no pan, then redraw. */
    method ResetView()
      requires Valid()
      modifies this`zoomLevel, this`zoomScale, this`panX, this`panY, this`gridSize, this`lineThickness, canvas`items
      ensures Valid()
      ensures ViewOf() == ViewReset(old(ViewOf())) && zoomScale == 1.0
      ensures Redrawn(old(canvas.items), old(gridSize), old(lineThickness))
    {
      zoomLevel := 1.0;
      zoomScale := 1.0;
      panX := 0.0;
      panY := 0.0;
      UpdateGrid();
    }

    /** `load_image`: a cancelled dialog (empty path) or an image that does
      not open changes nothing; otherwise the image replaces the previous one
      and the view is reset. */
    method LoadImage(filePath: string, decoded: Option<ImageSize>)
      requires Valid()
      modifies this`image, this`zoomLevel, this`zoomScale, this`panX, this`panY, this`gridSize,
               this`lineThickness, canvas`items
      ensures Valid()
      ensures filePath == "" || decoded.None? ==>
        && image == old(image) && ViewOf() == old(ViewOf()) && zoomScale == old(zoomScale)
        && gridSize == old(gridSize) && lineThickness == old(lineThickness) && canvas.items == old(canvas.items)
      ensures filePath != "" && decoded.Some? ==>
        && image == decoded && ViewOf() == ViewReset(old(ViewOf())) && zoomScale == 1.0
        && Redrawn(old(canvas.items), old(gridSize), old(lineThickness))
    {
      if filePath == "" || decoded.None? {
        return;
      }
      image := decoded;
      ResetView();
    }

    /** `update_zoom`: the zoom follows the zoom slider. */
    method UpdateZoom()
      requires Valid()
      modifies this`zoomLevel, this`gridSize, this`lineThickness, canvas`items
      ensures Valid()
      ensures ViewOf() == old(ViewOf()).(zoom := zoomScale)
      ensures Redrawn(old(canvas.items), old(gridSize), old(lineThickness))
    {
      zoomLevel := zoomScale;
      UpdateGrid();
    }

    /** Moving the grid-size slider: Tk keeps the value in 10..200 and, when
      the slider's value changes, calls `update_grid`. */
    method SlideGridSize(value: int)
      requires Valid()
      modifies this`gridSizeScale, this`gridSize, this`lineThickness, canvas`items
      ensures Valid()
      ensures gridSizeScale == Clamp(value, 10, 200)
      ensures gridSizeScale != old(gridSizeScale) ==> Redrawn(old(canvas.items), old(gridSize), old(lineThickness))
      ensures gridSizeScale == old(gridSizeScale) ==>
        gridSize == old(gridSize) && lineThickness == old(lineThickness) && canvas.items == old(canvas.items)
    {
      if Clamp(value, 10, 200) != gridSizeScale {
        gridSizeScale := Clamp(value, 10, 200);
        UpdateGrid();
      }
    }

    /** Moving the thickness slider: Tk keeps the value in 1..10 and, when
      the slider's value changes, calls `update_grid`. */
    method SlideThickness(value: int)
      requires Valid()
      modifies this`thicknessScale, this`gridSize, this`lineThickness, canvas`items
      ensures Valid()
      ensures thicknessScale == Clamp(value, 1, 10)
      ensures thicknessScale != old(thicknessScale) ==> Redrawn(old(canvas.items), old(gridSize), old(lineThickness))
      ensures thicknessScale == old(thicknessScale) ==>
        gridSize == old(gridSize) && lineThickness == old(lineThickness) && canvas.items == old(canvas.items)
    {
      if Clamp(value, 1, 10) != thicknessScale {
        thicknessScale := Clamp(value, 1, 10);
        UpdateGrid();
      }
    }

    /** Moving the zoom slider: Tk rounds the value to a tenth and keeps it
      in 1..10; only when that changes the slider's value does it call
      `update_zoom`. */
    method SlideZoom(value: real)
      requires Valid()
      modifies this`zoomScale, this`zoomLevel, this`gridSize, this`lineThickness, canvas`items
      ensures Valid()
      ensures zoomScale == ZoomSliderValue(value)
      ensures zoomScale != old(zoomScale) ==>
        ViewOf() == old(ViewOf()).(zoom := zoomScale) && Redrawn(old(canvas.items), old(gridSize), old(lineThickness))
      ensures zoomScale == old(zoomScale) ==>
        && ViewOf() == old(ViewOf()) && gridSize == old(gridSize) && lineThickness == old(lineThickness)
        && canvas.items == old(canvas.items)
    {
      if ZoomSliderValue(value) != zoomScale {
        zoomScale := ZoomSliderValue(value);
        UpdateZoom();
      }
    }

    /** `mouse_zoom`. */
    method MouseZoom(e: WheelEvent)
      requires Valid()
      modifies this`zoomLevel, this`zoomScale, this`panX, this`panY, this`gridSize, this`lineThickness, canvas`items
      ensures Valid()
      ensures ViewOf() == Zoomed(old(ViewOf()), e)
      ensures ZoomAccepted(old(ViewOf()), e) ==>
        zoomScale == ZoomSliderValue(zoomLevel) && Redrawn(old(canvas.items), old(gridSize), old(lineThickness))
      ensures !ZoomAccepted(old(ViewOf()), e) ==>
        && zoomScale == old(zoomScale) && gridSize == old(gridSize) && lineThickness == old(lineThickness)
        && canvas.items == old(canvas.items)
    {
      var x, y := e.x as real, e.y as real;
      var zoomFactor: real;
      if e.num == 4 || e.delta > 0 {
        zoomFactor := 1.1;
      } else if e.num == 5 || e.delta < 0 {
        zoomFactor := 0.9;
      } else {
        return;
      }
      var newZoom := zoomLevel * zoomFactor;
      if MinZoom <= newZoom <= MaxZoom {
        panX := x - (x - panX) * zoomFactor;
        panY := y - (y - panY) * zoomFactor;
        zoomLevel := newZoom;
        zoomScale := ZoomSliderValue(newZoom);
        UpdateGrid();
      }
    }

    /** `start_drag`. */
    method StartDrag(x: int, y: int)
      modifies this`dragging, this`dragStartX, this`dragStartY
      ensures ViewOf() == DragStarted(old(ViewOf()), x, y)
    {
      dragging := true;
      dragStartX := x;
      dragStartY := y;
    }

    /** `drag`: ignored unless a drag is in progress; otherwise pans by the
      mouse's movement and redraws. */
    method Drag(x: int, y: int)
      requires Valid()
      modifies this`panX, this`panY, this`dragStartX, this`dragStartY, this`gridSize, this`lineThickness, canvas`items
      ensures Valid()
      ensures ViewOf() == Dragged(old(ViewOf()), x, y)
      ensures old(dragging) ==> Redrawn(old(canvas.items), old(gridSize), old(lineThickness))
      ensures !old(dragging) ==>
        gridSize == old(gridSize) && lineThickness == old(lineThickness) && canvas.items == old(canvas.items)
    {
      if !dragging {
        return;
      }
      var dx := x - dragStartX;
      var dy := y - dragStartY;
      dragStartX := x;
      dragStartY := y;
      panX := panX + dx as real;
      panY := panY + dy as real;
      UpdateGrid();
    }

    /** `end_drag`. */
    method EndDrag()
      modifies this`dragging
      ensures ViewOf() == DragEnded(old(ViewOf()))
    {
      dragging := false;
    }

    /** `export_image`: without an image, or when the save dialog is
      cancelled, nothing is exported; otherwise the original image is drawn
      with a margin of `max(30, grid_size // 2)`, red grid lines, column
      letters and row numbers. */
    method ExportImage(filePath: string, arialLoads: bool, measure: Measure) returns (exported: Surface?)
      requires Valid()
      ensures image.None? || filePath == "" ==> exported == null
      ensures image.Some? && filePath != "" ==>
        && exported != null && fresh(exported)
        && exported.width == image.value.width + 2 * ExportMargin(gridSize, gridSize)
        && exported.height == image.value.height + 2 * ExportMargin(gridSize, gridSize)
        && exported.items == ExportItems(image.value.width, image.value.height, gridSize, gridSize, lineThickness,
                                         "red", Letters, ExportFont(arialLoads, ExportFontSize(gridSize, gridSize)),
                                         measure)
    {
      if image.None? {
        return null;
      }
      if filePath == "" {
        return null;
      }
      var font := ExportFont(arialLoads, ExportFontSize(gridSize, gridSize));
      exported := ComposeExport(image.value.width, image.value.height, gridSize, gridSize, lineThickness,
                                "red", Letters, font, measure);
    }
  }
}
