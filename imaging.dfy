/**
 * An abstract stand-in for the imaging library: a surface (an image together
 * with its drawing context) that records what is drawn on it, an
 * uninterpreted text measure, and font handles. Pixels, font files and
 * encoders are not modelled.
 */
module Imaging {
  import opened Python

  /** A resolved font: a TrueType file at a size, or the built-in default. */
  datatype Font = TrueType(file: string, size: int) | DefaultFont(size: int)

  /** The measured size of a piece of text. */
  datatype Extent = Extent(width: nat, height: nat)

  /** How the drawing backend measures text in a font. */
  type Metrics = (string, Font) -> Extent

  /** One drawing operation, as issued to a surface. */
  datatype DrawCmd =
    | Rectangle(x0: int, y0: int, x1: int, y1: int, fill: PyValue)
    | DrawText(x: int, y: int, text: string, fill: PyValue, font: Font)

  /** A raster image with its drawing context. The drawing is the sequence of
      operations issued to it; nothing ever clears it. */
  class Surface {
    const width: int
    const height: int
    const background: PyValue
    const measure: Metrics
    var drawn: seq<DrawCmd>

    /** `Image.new(mode, size, color)` followed by `ImageDraw.Draw(image)`. */
    constructor (width: int, height: int, background: PyValue, measure: Metrics)
      ensures this.width == width && this.height == height
      ensures this.background == background && this.measure == measure
      ensures drawn == []
    {
      this.width := width;
      this.height := height;
      this.background := background;
      this.measure := measure;
      drawn := [];
    }

    /** `draw.textsize(text, font=font)`. */
    method TextSize(text: string, font: Font) returns (e: Extent)
      ensures e == measure(text, font)
    {
      e := measure(text, font);
    }

    /** `draw.rectangle([x0, y0, x1, y1], fill=fill)`. */
    method FillRectangle(x0: int, y0: int, x1: int, y1: int, fill: PyValue)
      modifies this
      ensures drawn == old(drawn) + [Rectangle(x0, y0, x1, y1, fill)]
    {
      drawn := drawn + [Rectangle(x0, y0, x1, y1, fill)];
    }

    /** `draw.text((x, y), text, fill=fill, font=font)`. */
    method Text(x: int, y: int, text: string, fill: PyValue, font: Font)
      modifies this
      ensures drawn == old(drawn) + [DrawText(x, y, text, fill, font)]
    {
      drawn := drawn + [DrawText(x, y, text, fill, font)];
    }
  }
}
