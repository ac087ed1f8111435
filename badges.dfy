/**
 * The badge entity: its fixed texts, number and colours, its mutable physical size (inches,
 * proportion, dots per inch) and background placement, an append-only list of extra data
 * lines, and a cached render that every size change discards.
 */
module Badges {
  import opened Wrappers
  import opened Numbers
  import opened Graphics
  import opened ImageTools

  const BACKGROUND_FIT_WIDTH: int := 0
  const BACKGROUND_FIT_HEIGHT: int := 1
  const BACKGROUND_FILL: int := 2

  const BACKGROUND_MIDDLE: int := 0
  const BACKGROUND_BOTTOM: int := 1
  const BACKGROUND_TOP: int := 2

  const DEFAULT_WIDTH: real := 2.5
  const DEFAULT_PROPORTION: real := 1.25
  const DEFAULT_RESOLUTION: int := 300

  /**
   * Everything a renderer reads from a badge, as one value: the renderers are functions of it.
   * `width` is in inches, `proportion` is height over width, `resolution` in dots per inch.
   */
  datatype BadgeData = BadgeData(
    number: Int32,
    primaryText: string,
    secondaryText: string,
    background: Option<Image>,
    backgroundColor: Color,
    textBackgroundColor: Color,
    textColor: Color,
    backgroundScaling: Int32,
    backgroundVerticalPosition: Int32,
    extraData: seq<string>,
    width: real,
    proportion: real,
    resolution: real)
  {
    /** `getPixelDimension`. */
    function PixelDimension(): (Int32, Int32) {
      PixelSize(width, proportion, resolution)
    }

    /** `getHeight`: the physical height in inches. */
    function Height(): real {
      proportion * width
    }
  }

  /**
   * `getPixelDimension`: width times resolution, and proportion times width times resolution,
   * each truncated toward zero by the `(int)` cast; nothing keeps them at least 1. For
   * non-negative factors (and lengths below 2^31) each side lies within one pixel below the
   * physical length in dots.
   */
  function PixelSize(width: real, proportion: real, resolution: real): (size: (Int32, Int32))
    ensures (width >= 0.0 && proportion >= 0.0 && resolution >= 0.0 &&
             proportion * width * resolution < 2147483648.0 && width * resolution < 2147483648.0) ==>
      0 <= size.0 && size.0 as real <= width * resolution < size.0 as real + 1.0 &&
      0 <= size.1 && size.1 as real <= proportion * width * resolution < size.1 as real + 1.0
  {
    if width >= 0.0 && proportion >= 0.0 && resolution >= 0.0 then
      MulMonotone(0.0, width, resolution);
      MulMonotone(0.0, proportion, width);
      MulMonotone(0.0, proportion * width, resolution);
      (IntCast(width * resolution), IntCast(proportion * width * resolution))
    else (IntCast(width * resolution), IntCast(proportion * width * resolution))
  }

  /** The default badge, 2.5 in wide at 1.25 proportion and 300 dpi, is 750 x 937 pixels: the height is truncated, not rounded. */
  lemma DefaultPixelSize()
    ensures PixelSize(DEFAULT_WIDTH, DEFAULT_PROPORTION, DEFAULT_RESOLUTION as real) == (750, 937)
  {
    assert DEFAULT_PROPORTION * DEFAULT_WIDTH * 300.0 == 937.5;
  }

  /** There is no lower clamp: a small enough badge has zero pixels in each direction. */
  lemma TinyBadgeIsEmpty()
    ensures PixelSize(0.001, 1.0, 300.0) == (0, 0)
  {
    assert 0.001 * 300.0 == 0.3;
    assert 1.0 * 0.001 * 300.0 == 0.3;
  }

  class Badge {
    /** The render cached by `getImage`, `None` once discarded. */
    var unscaledImage: Option<Raster>
    var extraData: seq<string>
    var width: real
    var proportion: real
    var resolution: real
    const primaryText: string
    const secondaryText: string
    const number: Int32
    const background: Option<Image>
    const backgroundColor: Color
    const textBackgroundColor: Color
    const textColor: Color
    var backgroundScaling: Int32
    var backgroundVerticalPosition: Int32

    /**
     * A new badge: the three colours are parsed from their codes, the background fits the
     * width, sits in the middle, the size is the default one and there is no extra data.
     */
    constructor(number: Int32, name: string, secondary: string, background: Option<Image>,
                backgroundColor: string, textBackgroundColor: string, textColor: string)
      ensures this.number == number && primaryText == name && secondaryText == secondary
      ensures this.background == background
      ensures this.backgroundColor == ParseHexColor(backgroundColor)
      ensures this.textBackgroundColor == ParseHexColor(textBackgroundColor)
      ensures this.textColor == ParseHexColor(textColor)
      ensures backgroundScaling == BACKGROUND_FIT_WIDTH && backgroundVerticalPosition == BACKGROUND_MIDDLE
      ensures width == DEFAULT_WIDTH && proportion == DEFAULT_PROPORTION && resolution == DEFAULT_RESOLUTION as real
      ensures extraData == [] && unscaledImage == None
    {
      this.number := number;
      primaryText := name;
      secondaryText := secondary;
      this.background := background;
      this.backgroundColor := ParseHexColor(backgroundColor);
      this.textBackgroundColor := ParseHexColor(textBackgroundColor);
      this.textColor := ParseHexColor(textColor);
      backgroundScaling := BACKGROUND_FIT_WIDTH;
      width := DEFAULT_WIDTH;
      proportion := DEFAULT_PROPORTION;
      resolution := DEFAULT_RESOLUTION as real;
      extraData := [];
      backgroundVerticalPosition := BACKGROUND_MIDDLE;
      unscaledImage := None;
    }

    /** The badge as the renderers see it. */
    function Data(): BadgeData
      reads this
    {
      BadgeData(number, primaryText, secondaryText, background, backgroundColor,
        textBackgroundColor, textColor, backgroundScaling, backgroundVerticalPosition,
        extraData, width, proportion, resolution)
    }

    method SetProportion(f: real)
      modifies this
      ensures proportion == f && unscaledImage == None
      ensures width == old(width) && resolution == old(resolution) && extraData == old(extraData)
      ensures backgroundScaling == old(backgroundScaling) && backgroundVerticalPosition == old(backgroundVerticalPosition)
    {
      proportion := f;
      unscaledImage := None;
    }

    method SetResolution(v: Int32)
      modifies this
      ensures resolution == v as real && unscaledImage == None
      ensures width == old(width) && proportion == old(proportion) && extraData == old(extraData)
      ensures backgroundScaling == old(backgroundScaling) && backgroundVerticalPosition == old(backgroundVerticalPosition)
    {
      resolution := v as real;
      unscaledImage := None;
    }

    method SetWidth(f: real)
      modifies this
      ensures width == f && unscaledImage == None
      ensures proportion == old(proportion) && resolution == old(resolution) && extraData == old(extraData)
      ensures backgroundScaling == old(backgroundScaling) && backgroundVerticalPosition == old(backgroundVerticalPosition)
    {
      width := f;
      unscaledImage := None;
    }

    /** Changing the background fit keeps the cached render. */
    method SetBackgroundFit(v: Int32)
      modifies this
      ensures backgroundScaling == v && unscaledImage == old(unscaledImage)
      ensures width == old(width) && proportion == old(proportion) && resolution == old(resolution)
      ensures extraData == old(extraData) && backgroundVerticalPosition == old(backgroundVerticalPosition)
    {
      backgroundScaling := v;
    }

    /** Changing the vertical position keeps the cached render. */
    method SetBackgroundVerticalPosition(v: Int32)
      modifies this
      ensures backgroundVerticalPosition == v && unscaledImage == old(unscaledImage)
      ensures width == old(width) && proportion == old(proportion) && resolution == old(resolution)
      ensures extraData == old(extraData) && backgroundScaling == old(backgroundScaling)
    {
      backgroundVerticalPosition := v;
    }

    method AddExtraData(data: string)
      modifies this
      ensures extraData == old(extraData) + [data]
      ensures unscaledImage == old(unscaledImage)
      ensures width == old(width) && proportion == old(proportion) && resolution == old(resolution)
      ensures backgroundScaling == old(backgroundScaling) && backgroundVerticalPosition == old(backgroundVerticalPosition)
    {
      extraData := extraData + [data];
    }

    /** `getHeight`: the physical height in inches, as the renderers see it. */
    function GetHeight(): (h: real)
      reads this
      ensures IntCast(h * resolution) == Data().PixelDimension().1
      ensures width >= 0.0 && proportion >= 0.0 ==> h >= 0.0
    {
      proportion * width
    }

    /**
     * `render(r)`: the renderer's image replaces the cache. A renderer that throws leaves the
     * cache as it was; the error is passed on.
     */
    method Render(renderer: BadgeData -> Result<Raster, RenderError>) returns (r: Result<Raster, RenderError>)
      modifies this
      ensures r == renderer(old(Data()))
      ensures r.Ok? ==> unscaledImage == Some(r.value)
      ensures r.Err? ==> unscaledImage == old(unscaledImage)
      ensures Data() == old(Data())
    {
      r := renderer(Data());
      if r.Ok? {
        unscaledImage := Some(r.value);
      }
    }

    /** `getImage(r)`: the cached render if there is one, untouched; otherwise a fresh render, which is then cached. */
    method GetImage(renderer: BadgeData -> Result<Raster, RenderError>) returns (r: Result<Raster, RenderError>)
      modifies this
      ensures old(unscaledImage).Some? ==> r == Ok(old(unscaledImage).value) && unscaledImage == old(unscaledImage)
      ensures old(unscaledImage).None? ==> r == renderer(old(Data()))
      ensures r.Ok? ==> unscaledImage == Some(r.value)
      ensures r.Err? ==> unscaledImage == None
      ensures Data() == old(Data())
    {
      if unscaledImage.Some? {
        r := Ok(unscaledImage.value);
      } else {
        r := Render(renderer);
      }
    }
  }
}
