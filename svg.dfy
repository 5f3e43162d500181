/** The part of the `svg` element library the card is built from, as a tree of values.
    Lengths are in inches (the document's user units). Presentation attributes that only
    colour the drawing (stroke, fill, dash pattern, stroke width, text anchoring) are not
    part of this tree. */
module Svg {
  import opened Builtins

  datatype Element =
    | Style
      /** `svg.Rect`: top-left corner, size, optional CSS class and optional id. */
    | Rect(x: real, y: real, width: real, height: real, cls: Option<string>, rectId: Option<string>)
    | Text(x: real, y: real, text: string, cls: Option<string>)
    | Polygon(points: seq<(real, real)>, cls: Option<string>)
      /** `svg.Image` whose `href` is a PNG data URI of a rasterised document. */
    | Image(width: real, height: real, id: string, href: Raster)
      /** `svg.G`, with an optional `translate(dx, dy)` transform. */
    | Group(id: string, transform: Option<(real, real)>, elements: seq<Element>)
      /** A Python list placed where an element is expected; it stands for its elements. */
    | Items(elements: seq<Element>)

  /** `cairosvg.svg2png` of a document, at a scale, over a background colour. The pixels
      themselves are not modelled: the raster is identified by what it was rendered from. */
  datatype Raster = PngOf(source: Document, scale: nat, background: string)

  /** `svg.SVG`: width and height in inches, the view box `(min-x, min-y, width, height)`,
      and the top-level elements in drawing order. */
  datatype Document = Document(width: real, height: real, viewBox: (real, real, real, real), elements: seq<Element>)
}
