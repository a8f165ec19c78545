# Art grid: grid geometry, labelling, view state and unit conversion

A Dafny model of the core of a small Tk/Pillow tool. The tool lays a red cell
grid over an image with coordinate labels. The user pans it by dragging and
zooms it with the wheel or a slider, and can export it with the grid baked in.
The model covers three parts.

- **Grid layout** (`src/utils/grid_utils.py`), in `GridUtils`:
  - `GridRenderer` draws grid lines and numbered labels on a canvas.
  - `GridExporter` draws the same grid on a margin-padded export image.
  - A canvas or export image is a `Drawing.Surface`, a class whose `items` field lists the primitives drawn so far.
  - Each drawing loop is a method with loop invariants, proved to append exactly what a specification function describes (`GridLines`, `ColumnLabels`, `ExportItems`, ...).
  - Lemmas about those functions give counts, positions, spans, label texts and font-size clamps.
- **The application** (`main.py`), in `ArtGrid`:
  - `ArtGridApp` is a class with the source's fields: zoom, pan, drag state, grid size, thickness and slider positions.
  - Its event handlers are methods proved to perform the pure steps on `View` (`Zoomed`, `Dragged`, ...).
  - The lemmas about those steps cover zoom bounds, where the image point under the cursor goes when zooming, and drag deltas telescoping.
  - `update_grid` repaints a `Scene` on the canvas; `export_image` composes an export with letters over the columns.
  - `get_column_letter` is a while loop, proved equal to the bijective base-26 encoder `Labels.ColumnLetter`. That encoder is proved one-to-one and onto the non-empty capital-letter strings.
- **Unit conversion** (`src/utils/unit_converter.py`), in `UnitConverter`:
  - These are pure functions over exact reals on the ordered factor table.
  - Errors for unknown units are `Err` results.
  - Round trips and consistency between units are proved.

Shared pieces:
- `Labels` holds decimal and column-letter label texts with their inverses.
- `Arith` holds `Min`, `Clamp` and division facts.
- `Wrappers` holds `Option` and `Result`.
- Python's `//` and `%` always have a positive divisor here, so they are Dafny's `/` and `%`.
- Python's `int()` of a float is `ArtGrid.Trunc` (toward zero).

## Model

| member | source | states |
|---|---|---|
| Arith.Clamp | src/utils/grid_utils.py:26 | `max(lo, min(hi, v))` lies in `[lo, hi]`, equals `v` inside the range and the nearer bound outside it |
| Labels.DecimalString | src/utils/grid_utils.py:29-32 | `str(n)` is non-empty, all decimal digits, with no leading zero |
| Labels.DecimalRoundTrip | src/utils/grid_utils.py:29-32 | reading back the digits of `n` gives `n` |
| Labels.DecimalInjective | src/utils/grid_utils.py:29-32 | two numbers have the same decimal text iff they are equal |
| Labels.ColumnLetter | main.py:144-153 | the column name is non-empty exactly for `n >= 0` and consists of letters A-Z only |
| Labels.ColumnRoundTrip | main.py:144-153 | decoding the name of column `n` gives back `n` |
| Labels.ColumnLetterOnto | main.py:144-153 | every non-empty string of capitals is the name of exactly one column `n >= 0` |
| Labels.ColumnLetterInjective | main.py:144-153 | distinct columns get distinct names, and equal names mean equal columns |
| Labels.ColumnLetterExamples | main.py:144-153 | 0 is A, 25 is Z, 26 is AA, 27 is AB, 701 is ZZ and 702 is AAA |
| Labels.LabelTextDistinct | main.py:199-213 | column and row labels (numbers from 1, or letters) are non-empty and distinct for distinct cells |
| GridUtils.Range | src/utils/grid_utils.py:14 | Python's `range(0, stop, step)` for a positive step, as the sequence of multiples `k * step`; its elements, members and length are stated by the three lemmas below |
| GridUtils.RangeBounds | src/utils/grid_utils.py:14 | every element of `range(0, stop, step)` is in `[0, stop)` and the range covers `[0, stop)` |
| GridUtils.RangeMembers | src/utils/grid_utils.py:14 | `x` is in `range(0, stop, step)` iff `0 <= x < stop` and `x` is a multiple of `step` |
| GridUtils.RangeCounts | src/utils/grid_utils.py:14 | `range(0, e + 1, s)` has `e // s + 1` elements and `range(0, e, s)` has `ceil(e / s)` |
| GridUtils.VerticalLinesLayout | src/utils/grid_utils.py:14-17 | there are `width // step + 1` vertical lines; the `i`-th is at `img_x + i*step`, spans `img_y..img_y+height` and has the given thickness and colour; all lie within `[img_x, img_x+width]`; the last is less than one step from the right edge |
| GridUtils.HorizontalLinesLayout | src/utils/grid_utils.py:19-22 | the same for horizontal lines, with the image height and width |
| GridUtils.GridLinesInside | src/utils/grid_utils.py:14-22 | every grid line has the given thickness and colour and lies in the image rectangle |
| GridUtils.DrawGridOnCanvas | src/utils/grid_utils.py:12-22 | the canvas gains exactly the vertical lines, then the horizontal lines, and nothing else |
| GridUtils.CanvasFontSize | src/utils/grid_utils.py:26 | the canvas label font size is in `[8, 12]`: it is 8 below a 32-pixel step, 12 from 52 up, and `step // 4` in between |
| GridUtils.CellLabelOffset | src/utils/grid_utils.py:29-30 | `(i*step) // step == i`, and the centre offset `i*step + step//2` stays inside cell `i` |
| GridUtils.ColumnLabelsLayout | src/utils/grid_utils.py:28-33 | there are `ceil(width/step)` column labels; the `i`-th reads the label of column `i` ("1", "2", ... in order) at `(img_x + i*step + step//2, img_y - 15)`, inside cell `i`; no two read the same |
| GridUtils.RowLabelsLayout | src/utils/grid_utils.py:35-40 | there are `ceil(height/step)` row labels; the `i`-th reads `i + 1` at `(img_x - 15, img_y + i*step + step//2)`, inside row `i`; no two read the same |
| GridUtils.DrawColumnLabels | src/utils/grid_utils.py:28-33 | the canvas gains exactly the column labels, in order |
| GridUtils.DrawRowLabels | src/utils/grid_utils.py:35-40 | the canvas gains exactly the row labels, in order |
| GridUtils.DrawCoordinatesOnCanvas | src/utils/grid_utils.py:24-40 | the canvas gains the numbered column labels and then the row labels, in Arial at the clamped size |
| GridUtils.ExportMargin | src/utils/grid_utils.py:51 | the margin is at least 30 and at least half the smaller cell side, and is one of the two |
| GridUtils.ExportFontSize | src/utils/grid_utils.py:66 | the export font size is in `[10, 16]`: it is 10 below a 30-pixel cell, 16 from 51 up, and `cell // 3` in between |
| GridUtils.ExportLinesInside | src/utils/grid_utils.py:70-76 | every export line has the given thickness and colour and lies inside the pasted image `[margin, margin+w] x [margin, margin+h]`, never in the label margin |
| GridUtils.ExportColumnLabelsLayout | src/utils/grid_utils.py:78-90 | an export has `ceil(w / gw)` column labels; the `i`-th reads the label of column `i`; all are distinct |
| GridUtils.ExportRowLabelsLayout | src/utils/grid_utils.py:92-104 | an export has `ceil(h / gh)` row labels; the `i`-th reads `i + 1`; all are distinct |
| GridUtils.DrawExportColumnLabels | src/utils/grid_utils.py:78-90 | the image gains exactly the export column labels, each centred using the measured or fallback text size |
| GridUtils.DrawExportRowLabels | src/utils/grid_utils.py:92-104 | the image gains exactly the export row labels |
| GridUtils.ComposeExport | src/utils/grid_utils.py:60-104 | a fresh image of size `(w + 2*margin) x (h + 2*margin)` holds the image pasted at `(margin, margin)`, then the lines, column labels and row labels |
| GridUtils.ExportImageWithGrid | src/utils/grid_utils.py:49-107 | export with numbered labels in the clamped Arial size (or the built-in font); the call reports success |
| ArtGrid.Zoomed | main.py:100-119 | `mouse_zoom` as a step on the view: the drag state is never touched, and the view either stays as it was or gets a zoom within `[0.1, 10]` |
| ArtGrid.ViewReset | main.py:89-94 | `reset_view` as a step: zoom 1 (inside the wheel bounds), pan `(0, 0)`, drag state kept |
| ArtGrid.DragStarted | main.py:121-124 | `start_drag`: dragging, anchored at the press position, zoom and pan unchanged; a motion event at the press position then changes nothing |
| ArtGrid.Dragged | main.py:126-139 | `drag`: without a drag in progress nothing changes; otherwise zoom and drag flag are kept and the pan minus the anchor position is invariant on both axes, which is what makes the deltas telescope |
| ArtGrid.DragEnded | main.py:141-142 | `end_drag`: not dragging, zoom, pan and anchor unchanged, and any later motion event changes nothing |
| ArtGrid.ZoomEffect | main.py:100-119 | an accepted wheel event multiplies the zoom and the cursor's distance from the pan by the factor and leaves the drag state alone; any other event changes nothing; an event is non-scrolling iff `num` is neither 4 nor 5 and `delta == 0` |
| ArtGrid.ZoomStaysInBounds | main.py:110-112 | a zoom in `[0.1, 10]` stays in `[0.1, 10]` after any wheel event |
| ArtGrid.ZoomKeepsCursorPoint | main.py:113-116 | after an accepted zoom, the cursor's distance from the pan offset divided by the zoom is unchanged, `(x - pan') / zoom' == (x - pan) / zoom` on both axes; this is not the image point under the cursor, because the image is drawn centred (see "Findings") |
| ArtGrid.ExactColumnClose | main.py:179-180 | the image column under canvas column `x`, `(x - img_x) / zoom` with `img_x = canvas//2 - scaled//2 + pan`, is within one canvas pixel of the exact `width/2 + (x - canvas//2 - pan) / zoom` |
| ArtGrid.ZoomMovesDisplayedPoint | main.py:113-114 | image 400 wide on a canvas 800 wide, zoom 1, no pan, one scroll up at x = 400: the pan becomes -40 and the column under the cursor goes from 200 to 260 / 1.1 |
| ArtGrid.ZoomShiftsDisplayedPoint | main.py:113-114 | any accepted wheel zoom shifts the exact image column under the cursor by `(canvas//2) * (1 - 1/factor) / zoom` |
| ArtGrid.ZoomedAboutCentre | main.py:113-116 | the wheel step with the pan scaled about the canvas centre: same new zoom as `mouse_zoom`, drag state kept, and no change for a rejected event |
| ArtGrid.CentredZoomKeepsCursorPoint | main.py:113-116 | zooming about the canvas centre keeps the exact image point under the cursor on both axes, for every wheel event |
| ArtGrid.DragIdle | main.py:126-128 | motion events without a drag in progress change nothing |
| ArtGrid.DragTelescopes | main.py:130-137 | during a drag, any motion sequence moves the pan by exactly last position minus drag start; zoom is unchanged and the drag start is the last position |
| ArtGrid.DragGesture | main.py:121-142 | press at `(sx, sy)`, moves ending at `(ex, ey)`, release: the pan grows by `(ex - sx, ey - sy)`, dragging is off and later motion does nothing |
| ArtGrid.Trunc | main.py:171-172 | `int()` of a float is the integer part toward zero: within one of the value, never beyond it |
| ArtGrid.ScaleByIsProduct | main.py:171-172 | the scaled extent `n * zoom` used by the model is the product |
| ArtGrid.DisplayStep | main.py:184-186 | the displayed grid step is at least 5, equals `int(grid_size * zoom)` (the real product) whenever that is at least 5, and is 5 otherwise |
| ArtGrid.OriginCentres | main.py:179-180 | the image origin `canvas//2 - scaled//2 + pan` puts the image centre within half a pixel of the canvas centre shifted by the pan |
| ArtGrid.LayersLinesInside | main.py:188-197 | every line of a redraw is red, has the chosen thickness and lies on the displayed image |
| ArtGrid.SceneLinesInside | main.py:169-197 | every line of the scene lies on the displayed image |
| ArtGrid.SceneColumnLetters | main.py:199-205 | the scene's columns are labelled A, B, C, ... from the left |
| ArtGrid.Repaint | main.py:177-213 | the canvas is cleared and then holds exactly the image, the lines, the column letters and the row numbers |
| ArtGrid.ZoomSliderValue | main.py:50-52 | setting the zoom scale (`from_=1`, `to=10`, `resolution=0.1`) leaves a whole number of tenths in `[1, 10]`, within half a tenth of the request when that is in range, and the nearer end otherwise |
| ArtGrid.ZoomSliderKeepsTenths | main.py:50-52 | every whole number of tenths from 1.0 to 10.0 is kept as it is |
| ArtGrid.WheelThroughSlider | main.py:96-119 | a wheel event followed by the scale's `update_zoom` command: the slider takes the rounded new zoom; when it did not move the view is `mouse_zoom`'s, and when it moved the view is `mouse_zoom`'s with the zoom replaced by the slider's value |
| ArtGrid.SliderCallbackMovesCursorPoint | main.py:96-119 | image 400 wide on a canvas 800 wide, zoom and slider 1.1, one scroll up at x = 400: `mouse_zoom` leaves column 282 / 1.21 under the cursor; the slider rounds to 1.2, the zoom becomes 1.2 with pan -40, and column 280 / 1.2 is under the cursor instead |
| ArtGrid.ArtGridApp.constructor | main.py:14-24 | no image, grid size 50, thickness 1, zoom 1, no pan, no drag; the sliders show the same values |
| ArtGrid.ArtGridApp.GetColumnLetter | main.py:144-153 | the while loop returns exactly `ColumnLetter(col_num)`, so it inherits the round-trip and injectivity lemmas |
| ArtGrid.ArtGridApp.UpdateGrid | main.py:155-215 | no image: nothing changes. Otherwise grid size and thickness are read from the sliders; a canvas of width at most 1 is left untouched; else the canvas holds exactly the `Scene` of the current view |
| ArtGrid.ArtGridApp.ResetView | main.py:89-94 | zoom 1 and slider 1, pan `(0, 0)`, drag state kept, then a redraw |
| ArtGrid.ArtGridApp.LoadImage | main.py:74-87 | a cancelled dialog changes nothing; a decoded image replaces the previous one and the view is reset; for a file that does not open the model returns with nothing changed (see "Left out") |
| ArtGrid.ArtGridApp.UpdateZoom | main.py:96-98 | the zoom becomes the slider's value and the canvas is redrawn |
| ArtGrid.ArtGridApp.SlideGridSize | main.py:37-38 | the grid-size slider holds the value clamped to `[10, 200]`; the grid is redrawn only when that moved the slider, and otherwise nothing else changes |
| ArtGrid.ArtGridApp.SlideThickness | main.py:43-44 | the thickness slider holds the value clamped to `[1, 10]`; the grid is redrawn only when that moved the slider, and otherwise nothing else changes |
| ArtGrid.ArtGridApp.SlideZoom | main.py:50-51 | the zoom slider holds the value rounded to a tenth and kept in `[1, 10]`; when that moved the slider the zoom follows it and the canvas is redrawn, otherwise the view and canvas are unchanged |
| ArtGrid.ArtGridApp.MouseZoom | main.py:100-119 | the view becomes `Zoomed(view, event)`; when accepted, the slider is set to the new zoom rounded to a tenth and the canvas is redrawn, otherwise nothing else changes |
| ArtGrid.ArtGridApp.StartDrag | main.py:121-124 | the drag is on and starts at the mouse position |
| ArtGrid.ArtGridApp.Drag | main.py:126-139 | the view becomes `Dragged(view, x, y)`; the canvas is redrawn only while dragging |
| ArtGrid.ArtGridApp.EndDrag | main.py:141-142 | the drag is off; nothing else changes |
| ArtGrid.ArtGridApp.ExportImage | main.py:217-292 | no image or no path: nothing is exported. Otherwise a fresh image of the original size plus `2*max(30, grid_size//2)` per axis holds the image, the red lines, the column letters and the row numbers |
| UnitConverter.ToPixels | src/utils/unit_converter.py:16-20 | `to_pixels` succeeds exactly for the available units, fails with "Unsupported unit: " and the unit otherwise, and keeps the sign of the value |
| UnitConverter.FromPixels | src/utils/unit_converter.py:23-27 | `from_pixels` succeeds exactly for the available units, fails with "Unsupported unit: " and the unit otherwise, and keeps the sign of the value |
| UnitConverter.Convert | src/utils/unit_converter.py:30-33 | `convert` succeeds exactly when both units are available; an unknown source unit is the error reported first, then an unknown target unit; the sign of the value is kept |
| UnitConverter.Lookup | src/utils/unit_converter.py:18-20 | a table lookup finds a value iff the key is in the table, and the value found is stored under that key |
| UnitConverter.Factors | src/utils/unit_converter.py:5-13 | the factors are exactly 1, 9600/254, 960/254 and 96 pixels per unit, all positive |
| UnitConverter.PositiveFactor | src/utils/unit_converter.py:8-13 | every supported unit has a positive factor |
| UnitConverter.ToPixelsValue | src/utils/unit_converter.py:16-20 | for a supported unit, `to_pixels` multiplies by its factor |
| UnitConverter.FromPixelsValue | src/utils/unit_converter.py:23-27 | for a supported unit, `from_pixels` divides by its factor |
| UnitConverter.ToPixelsExamples | src/utils/unit_converter.py:16-20 | `to_pixels(v, 'px') == v` and `to_pixels(v, 'inch') == 96 v` |
| UnitConverter.UnsupportedUnit | src/utils/unit_converter.py:16-27 | both conversions fail exactly for units outside px, cm, mm and inch |
| UnitConverter.PixelsRoundTrip | src/utils/unit_converter.py:16-27 | `from_pixels(to_pixels(v, u), u) == v` for every supported unit |
| UnitConverter.PixelsRoundTripReverse | src/utils/unit_converter.py:16-27 | `to_pixels(from_pixels(p, u), u) == p` for every supported unit |
| UnitConverter.ConvertComposes | src/utils/unit_converter.py:30-33 | `convert` is `from_pixels` after `to_pixels`; an unknown source unit is reported before an unknown target unit |
| UnitConverter.ConvertRatio | src/utils/unit_converter.py:30-33 | `convert` multiplies by the ratio of the two factors |
| UnitConverter.ConvertSame | src/utils/unit_converter.py:30-33 | converting to the same unit returns the value |
| UnitConverter.ConvertRoundTrip | src/utils/unit_converter.py:30-33 | converting there and back returns the value, for every pair of supported units |
| UnitConverter.UnitsConsistent | src/utils/unit_converter.py:9-12 | 10v mm = v cm and 2.54v cm = v inch in pixels; inch to cm is 2.54v; cm to mm is 10v |
| UnitConverter.GetAvailableUnits | src/utils/unit_converter.py:36-38 | the units are exactly `["px", "cm", "mm", "inch"]`, in that order |
| UnitConverter.GetUnitDisplayName | src/utils/unit_converter.py:41-49 | each known unit has its name (Pixels, Centimeters, Millimeters, Inches); any other input is returned unchanged |
| UnitConverter.DisplayNamesDistinct | src/utils/unit_converter.py:41-49 | the four units have four different names, none of which is itself a unit |

## Left out

- Input and output are parameters or are left out:
  - The file dialogs are a path argument; an empty path is a cancelled dialog.
  - `Image.open` is a decoded size, or `None` when the file does not open.
- `ArtGrid.ArtGridApp.LoadImage`: when `Image.open` raises, the source has already set `image_path`, and the exception leaves the handler for Tk to report. The model has no `image_path` field; it returns and leaves every modelled field as it was.
  - Saving the export is not modelled.
  - The status-label text is not modelled.
- Which fonts are available, and how Pillow measures text, are parameters:
  - `arialLoads` says whether `arial.ttf` loads.
  - `Measure` gives `draw.textsize`, or nothing when Pillow lacks it.
- Images are reduced to their size. Resampling, `PhotoImage`, pasting pixels and rasterising lines and text are not modelled.
- `ArtGrid.ArtGridApp.UpdateGrid`: the `root.after(100, ...)` retry for an unlaid canvas is not modelled; the call returns and leaves the canvas as it was.
- `GridUtils.ExportImageWithGrid`: it takes the resized size `int(w * resize_factor)` as integer arguments instead of computing it from the factor.
- Every grid step is required to be at least 1: Python's `range` raises for a zero step.
- `ArtGrid.ArtGridApp.MouseZoom`: the method is the handler itself. The `update_zoom` call that Tk makes later, when `zoom_scale.set` moved the slider, is a separate event; `ArtGrid.WheelThroughSlider` models the two together (see "Findings"). It keeps the source's pan update `ArtGrid.Zoomed`, so that it models the handler as written; `ArtGrid.ZoomedAboutCentre` is the corrected step and is stated as a function only.
- `ArtGrid.ArtGridApp.ResetView`: the `update_zoom` call that `zoom_scale.set(1.0)` may trigger sets the zoom to 1 again and redraws; it is not modelled.
- `ArtGrid.ZoomSliderValue`: the rounding is done on exact reals, as Tk would do it without floating-point error.
- `canvasx`/`canvasy` are taken as the identity, because the canvas is never scrolled.
- Floating-point rounding is not covered. Zoom, pan and unit conversions use exact reals, so IEEE rounding of `1.1`, `0.9` and the unit factors is not modelled.
- `src/ui/controls.py`, `src/ui/canvas.py` and `src/utils/image_utils.py` are not part of this model. They are widget layout and thin wrappers over Pillow.
- The export margin is `max(30, min(cell) // 2)`, whatever the label text measures, and no DPI is written with the exported file.

## Findings

| source | as written | input that shows it | evidently intended | confidence | as-written member | corrected member |
|---|---|---|---|---|---|---|
| main.py:113-114 | `pan_x = x - (x - pan_x) * zoom_factor` scales the cursor's offset from the pan alone, but `update_grid` draws the image at `canvas_width//2 - scaled_width//2 + pan_x` (main.py:179), so the centring term is ignored | image 400 wide on a canvas 800 wide, zoom 1, pan 0, one scroll up at x = 400: column 200 is under the cursor before and 260 / 1.1 (about 236.4) after | the image point under the cursor stays put when zooming with the wheel | high, not executed | ArtGrid.ZoomMovesDisplayedPoint | ArtGrid.CentredZoomKeepsCursorPoint |
| main.py:96-119 | `mouse_zoom` sets `zoom_scale` to the new zoom; the scale rounds it to a tenth, and when the slider moves Tk calls `update_zoom`, which sets `zoom_level` to the rounded value but keeps the pan computed for the unrounded zoom | image 400 wide on a canvas 800 wide, zoom 1.1 with the slider at 1.1, pan 0, one scroll up at x = 400: `mouse_zoom` leaves column 282 / 1.21 under the cursor, then the zoom becomes 1.2 and column 280 / 1.2 is under it | the image point under the cursor stays put when zooming with the wheel, at the unrounded zoom the wheel computed | medium, not executed (depends on Tk calling a scale's command after `set`) | ArtGrid.SliderCallbackMovesCursorPoint | ArtGrid.CentredZoomKeepsCursorPoint |
