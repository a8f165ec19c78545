/** The drawing surfaces the grid is painted on, reduced to what the grid
    logic does with them: a Tk canvas and a Pillow export image both become
    a Surface whose item list grows by one primitive per drawing call. */
module Drawing {

  /** Pixel dimensions of a loaded image (`Image.size`). */
  datatype ImageSize = ImageSize(width: nat, height: nat)

  /** A font as the drawing calls receive it: a Tk font tuple or a
      TrueType font of a given size, or Pillow's built-in default font. */
  datatype Font = Sized(family: string, size: int) | BuiltinDefault

  /** One drawing call. Coordinates are real because the pan offset becomes
      fractional once the view has been zoomed with the mouse wheel. */
  datatype Primitive =
    | Line(x1: real, y1: real, x2: real, y2: real, width: int, color: string)
    | Text(x: real, y: real, text: string, font: Font, color: string)
    | Picture(x: real, y: real, pictureWidth: int, pictureHeight: int)

  /** Text measurement of a Pillow drawing context: `draw.textsize` where the
      installed Pillow provides it, otherwise nothing. */
  datatype Measure = TextSize(size: (string, Font) -> (int, int)) | NoTextSize

  /** A drawing surface: its size in pixels and the primitives drawn on it,
      in the order they were drawn. */
  class Surface {
    var width: int
    var height: int
    var items: seq<Primitive>

    constructor (width: int, height: int)
      ensures this.width == width && this.height == height && items == []
    {
      this.width := width;
      this.height := height;
      items := [];
    }

    /** `create_line` / `draw.line`. */
    method DrawLine(x1: real, y1: real, x2: real, y2: real, lineWidth: int, color: string)
      modifies this`items
      ensures items == old(items) + [Line(x1, y1, x2, y2, lineWidth, color)]
    {
      items := items + [Line(x1, y1, x2, y2, lineWidth, color)];
    }

    /** `create_text` / `draw.text`. */
    method DrawText(x: real, y: real, text: string, font: Font, color: string)
      modifies this`items
      ensures items == old(items) + [Text(x, y, text, font, color)]
    {
      items := items + [Text(x, y, text, font, color)];
    }

    /** `create_image` anchored at its top-left corner / `Image.paste`. */
    method DrawPicture(x: real, y: real, pictureWidth: int, pictureHeight: int)
      modifies this`items
      ensures items == old(items) + [Picture(x, y, pictureWidth, pictureHeight)]
    {
      items := items + [Picture(x, y, pictureWidth, pictureHeight)];
    }

    /** `canvas.delete("all")`. */
    method Clear()
      modifies this`items
      ensures items == []
    {
      items := [];
    }
  }
}
