/**
 * The AWT vocabulary the renderers draw with, reduced to values: colours, decoded images,
 * font metrics, and the drawing commands a renderer issues on its output raster.
 */
module Graphics {
  import opened Wrappers

  /** A 32-bit unsigned value: the bits of a Java `int` pixel or colour. */
  type U32 = x: int | 0 <= x < 0x1_0000_0000

  /** `java.awt.Color`, kept as its 32-bit ARGB value (alpha in the top byte). */
  datatype Color = Color(argb: U32) {
    function Alpha(): int { argb / 0x100_0000 }
    function Rgb(): int { argb % 0x100_0000 }
  }

  /** `Color.BLACK`, opaque. */
  const BLACK: Color := Color(0xff00_0000)
  /** `Color.WHITE`, opaque. */
  const WHITE: Color := Color(0xffff_ffff)

  /** `new Color(rgb)`: the low 24 bits give the colour, alpha is 255. */
  function Opaque(rgb: int): (c: Color)
    ensures c.Alpha() == 255 && c.Rgb() == rgb % 0x100_0000
  {
    Color(0xff00_0000 + rgb % 0x100_0000)
  }

  type Pos = x: int | x > 0 witness 1

  /** A decoded picture (`BufferedImage` read from a file); decoded images are never empty. */
  datatype Image = Image(name: string, width: Pos, height: Pos)

  /** `new Font(name, style, size)`. */
  datatype Font = Font(name: string, bold: bool, italic: bool, size: int)

  /**
   * What a renderer learns from `FontMetrics`: the advance width of a string and the line
   * height of a font. A text is rasterised into a buffer of exactly this size.
   */
  datatype Metrics = Metrics(stringWidth: (Font, string) -> int, height: Font -> int)

  /** `new BufferedImage(w, h, ...)` throws unless both sides are positive. */
  predicate ValidBuffer(w: int, h: int) {
    w > 0 && h > 0
  }

  datatype Point = Point(x: int, y: int)

  datatype Rect = Rect(x: int, y: int, w: int, h: int)

  /** What `drawImage` puts on the raster: a rasterised text or a picture (with an optional alpha percentage). */
  datatype Sprite =
    | Text(text: string, font: Font, color: Color)
    | Picture(image: Image, alphaPercent: Option<int>)

  /** One drawing command on the output raster. */
  datatype Op =
    | FillRect(rect: Rect, color: Color)
    | FillPolygon(points: seq<Point>, color: Color)
    | StrokePolygon(points: seq<Point>, color: Color)
    | FillRoundRect(rect: Rect, arc: int, color: Color)
    | DrawSprite(sprite: Sprite, at: Rect)

  /** A rendered badge: its pixel size and the commands drawn on it, in order. */
  datatype Raster = Raster(width: int, height: int, ops: seq<Op>)

  /** Why a render threw: a buffer (the output or a text buffer) of an impossible size. */
  datatype RenderError = InvalidImageSize(width: int, height: int)
}
