/**
 * The classic badge renderer: a background colour, an optional background picture fitted
 * and anchored by the badge's settings, a band across the top (a quadrilateral slanting
 * to the right edge) and a band across the bottom, the two-digit number at the top left,
 * the secondary text beside it and the primary text centred in the bottom strip.
 */
module ClassicRenderer {
  import opened Wrappers
  import opened Numbers
  import opened Graphics
  import opened ImageTools
  import opened Badges
  import opened Renderers

  /** The renderer's fields; `originalFontSize` is never changed by any property. */
  datatype ClassicSettings = ClassicSettings(
    font: string,
    originalFontSize: int,
    fontBold: bool,
    primaryHeight: real,
    secondaryHeight: real,
    textHeightFactor: real)

  const DEFAULT_SETTINGS: ClassicSettings := ClassicSettings("SansSerif", 200, false, 0.15, 0.15, 1.0)

  /** The properties the constructor declares, in order (the float defaults as `%.3f` prints them). */
  const CLASSIC_PROPERTIES: seq<Property> := [
    Property("font", STRING, "SansSerif", "Name of font to use"),
    Property("primary-height", FLOAT, "0.150", "Primary text line height in proportion to badge height"),
    Property("secondary-height", FLOAT, "0.150", "Secondary text line height in proportion to badge height"),
    Property("text-height-factor", FLOAT, "1.000", "Line height to text ratio (smaller for bigger text, 1.0 for equal heights)"),
    Property("font-bold", STRING, "no", "Make text bold {\"yes\", \"no\"}")]

  /**
   * `setProperty`: the font name is taken as given, the three heights only when the value
   * parses as a float (otherwise the old value stays), `font-bold` is on exactly for "yes",
   * and an unknown key changes nothing.
   */
  function Set(s: ClassicSettings, key: string, value: string): (r: (ClassicSettings, SetOutcome))
    ensures r.1 == UnknownKey <==>
      key !in {"font", "primary-height", "secondary-height", "text-height-factor", "font-bold"}
    ensures r.1 != Applied ==> r.0 == s
    ensures r.1 == Rejected <==> key in {"primary-height", "secondary-height", "text-height-factor"} && ParseFloat(value).None?
    ensures key == "font-bold" ==> (r.0.fontBold <==> value == "yes")
    ensures key == "font" ==> r.1 == Applied && r.0.font == value
    ensures r.1 == Applied && key == "primary-height" ==> ParseFloat(value) == Some(r.0.primaryHeight)
    ensures r.1 == Applied && key == "secondary-height" ==> ParseFloat(value) == Some(r.0.secondaryHeight)
    ensures r.1 == Applied && key == "text-height-factor" ==> ParseFloat(value) == Some(r.0.textHeightFactor)
    ensures r.0.originalFontSize == s.originalFontSize
  {
    match key
    case "font" => (s.(font := value), Applied)
    case "primary-height" =>
      (match ParseFloat(value)
       case None => (s, Rejected)
       case Some(v) => (s.(primaryHeight := v), Applied))
    case "secondary-height" =>
      (match ParseFloat(value)
       case None => (s, Rejected)
       case Some(v) => (s.(secondaryHeight := v), Applied))
    case "text-height-factor" =>
      (match ParseFloat(value)
       case None => (s, Rejected)
       case Some(v) => (s.(textHeightFactor := v), Applied))
    case "font-bold" => (s.(fontBold := value == "yes"), Applied)
    case _ => (s, UnknownKey)
  }

  /** An accepted value changes only the field its key names. */
  lemma SetChangesOneField(s: ClassicSettings, key: string, value: string)
    requires Set(s, key, value).1 == Applied
    ensures var t := Set(s, key, value).0;
      (key != "primary-height" ==> t.primaryHeight == s.primaryHeight) &&
      (key != "secondary-height" ==> t.secondaryHeight == s.secondaryHeight) &&
      (key != "text-height-factor" ==> t.textHeightFactor == s.textHeightFactor) &&
      (key != "font-bold" ==> t.fontBold == s.fontBold) &&
      (key != "font" ==> t.font == s.font)
  {
  }

  // ---------------------------------------------------------------------------
  // Layout arithmetic

  /**
   * The size the background picture is scaled to: the whole badge for FILL, the strip
   * between the bands (aspect kept) for FIT_HEIGHT, and the full width (aspect kept) for
   * FIT_WIDTH and every other value.
   */
  function BackgroundSize(fit: int, primaryHeight: real, secondaryHeight: real, w: int, h: int, img: Image): (size: (int, int))
    ensures fit == BACKGROUND_FILL ==> size == (w, h)
    ensures fit == BACKGROUND_FIT_HEIGHT ==> size.1 == IntCast((1.0 - primaryHeight - secondaryHeight) * h as real)
    ensures fit != BACKGROUND_FILL && fit != BACKGROUND_FIT_HEIGHT ==> size.0 == w
    ensures fit == BACKGROUND_FIT_HEIGHT && 0 <= size.1 && Proportional(size.1, img.height, img.width) < 2147483648.0 ==>
      0 <= size.1 * img.width - size.0 * img.height < img.height
    ensures fit != BACKGROUND_FILL && fit != BACKGROUND_FIT_HEIGHT && 0 <= w && Proportional(w, img.width, img.height) < 2147483648.0 ==>
      0 <= w * img.height - size.1 * img.width < img.width
  {
    if fit == BACKGROUND_FILL then (w, h)
    else if fit == BACKGROUND_FIT_HEIGHT then
      var bgHeight := IntCast((1.0 - primaryHeight - secondaryHeight) * h as real);
      (Carry(bgHeight, img.height, img.width) as int, bgHeight as int)
    else (w, Carry(w, img.width, img.height) as int)
  }

  /** The background's top edge: flush with the top, flush with the bottom, or centred (MIDDLE and any other value). */
  function BackgroundY(position: int, h: int, scaledHeight: int): (y: int)
    ensures position == BACKGROUND_TOP ==> y == 0
    ensures position == BACKGROUND_BOTTOM ==> y + scaledHeight == h
    ensures position != BACKGROUND_TOP && position != BACKGROUND_BOTTOM && 0 <= h - scaledHeight < 0x1_0000_0000 ==>
      0 <= h - scaledHeight - 2 * y <= 1
  {
    if position == BACKGROUND_TOP then 0
    else if position == BACKGROUND_BOTTOM then h - scaledHeight
    else Centered(h, scaledHeight)
  }

  /** The background picture's drawing command, if the badge has one. */
  function BackgroundOps(s: ClassicSettings, d: BadgeData, w: int, h: int): (ops: seq<Op>)
    ensures d.background.None? ==> ops == []
    ensures d.background.Some? ==> |ops| == 1 && ops[0].DrawSprite? && ops[0].sprite == Picture(d.background.value, None)
    ensures d.background.Some? ==>
      var size := BackgroundSize(d.backgroundScaling, s.primaryHeight, s.secondaryHeight, w, h, d.background.value);
      var r := ops[0].at;
      r.w == ScaleSize(size.0) && r.h == ScaleSize(size.1) &&
      r.x == Centered(w, r.w) && r.y == BackgroundY(d.backgroundVerticalPosition, h, r.h)
  {
    match d.background
    case None => []
    case Some(img) =>
      var size := BackgroundSize(d.backgroundScaling, s.primaryHeight, s.secondaryHeight, w, h, img);
      var sw := ScaleSize(size.0);
      var sh := ScaleSize(size.1);
      [DrawSprite(Picture(img, None), Rect(Centered(w, sw), BackgroundY(d.backgroundVerticalPosition, h, sh), sw, sh))]
  }

  /** The top band: full height `primaryHeight * h` from the left edge to 85% of the width, then slanting up to the top right corner. */
  function TopBand(primaryHeight: real, w: int, h: int): (r: seq<Point>)
    ensures |r| == 4 && r[0] == Point(0, 0) && r[3] == Point(w, 0) && r[1].y == r[2].y
    ensures 0.0 <= primaryHeight <= 1.0 && 0 <= w && 0 <= h ==>
      r[2].x <= w && forall k :: 0 <= k < |r| ==> 0 <= r[k].x <= w && 0 <= r[k].y <= h
  {
    var ph := IntCast(primaryHeight * h as real);
    var band := [Point(0, 0), Point(0, ph), Point(IntCast(0.85 * w as real), ph), Point(w, 0)];
    if 0.0 <= primaryHeight <= 1.0 && 0 <= w && 0 <= h then
      FractionCast(primaryHeight, h);
      FractionCast(0.85, w);
      band
    else band
  }

  /** The top edge of the bottom band, `(1 - secondaryHeight) * h`. */
  function BottomBandTop(secondaryHeight: real, h: int): Int32 {
    IntCast((1.0 - secondaryHeight) * h as real)
  }

  /** The bottom band: the full-width rectangle from `BottomBandTop` down to the bottom edge. */
  function BottomBand(secondaryHeight: real, w: int, h: int): (r: seq<Point>)
    ensures |r| == 4 && r[1] == Point(0, h) && r[2] == Point(w, h) && r[0].y == r[3].y == BottomBandTop(secondaryHeight, h)
    ensures 0.0 <= secondaryHeight <= 1.0 && 0 <= w && 0 <= h ==>
      forall k :: 0 <= k < |r| ==> 0 <= r[k].x <= w && 0 <= r[k].y <= h
  {
    var top := BottomBandTop(secondaryHeight, h);
    var band := [Point(0, top), Point(0, h), Point(w, h), Point(w, top)];
    if 0.0 <= secondaryHeight <= 1.0 && 0 <= w && 0 <= h then
      FractionCast(1.0 - secondaryHeight, h);
      band
    else band
  }

  /**
   * Where the primary text goes (before `scale`'s 0-to-1 clamp): fitted to the height
   * `primaryHeight * h` and to the width less 8%, centred horizontally, and centred in a
   * strip of height `primaryHeight * h` at the bottom.
   */
  function PrimaryPlacement(primaryHeight: real, w: int, h: int, gw: int, gh: int): (r: Rect)
    requires gw > 0 && gh > 0
    ensures r.w <= w - IntCast(0.08 * w as real)
    ensures 0 <= w - r.w < 0x1_0000_0000 ==> 0 <= w - r.w - 2 * r.x <= 1
  {
    var limitW := w - IntCast(0.08 * w as real);
    var size := FitText(IntCast(primaryHeight * h as real), limitW, gw, gh);
    var textY := h - size.1 - Half(IntCast(primaryHeight * h as real - size.1 as real));
    Rect(Centered(w, size.0), textY, size.0, size.1)
  }

  /** The width the number is drawn at: its text at the height `primaryHeight * h`, aspect kept. */
  function NumberWidth(primaryHeight: real, h: int, gw: int, gh: int): (r: Int32)
    requires gh > 0
    ensures var textH := IntCast(primaryHeight * h as real);
      0 <= textH && 0 < gw && Proportional(textH, gh, gw) < 2147483648.0 ==> 0 <= textH * gw - r * gh < gh
  {
    Carry(IntCast(primaryHeight * h as real), gh, gw)
  }

  /**
   * Where the secondary text goes (before `scale`'s clamp): fitted to the height
   * `secondaryHeight * h` and to the width left after the number and a quarter of the badge,
   * starting 6% of the width after the number, centred in the top strip but never above it.
   */
  function SecondaryPlacement(secondaryHeight: real, w: int, h: int, numberW: int, gw: int, gh: int): (r: Rect)
    requires gw > 0 && gh > 0
    ensures r.w <= w - numberW - IntCast(0.25 * w as real)
    ensures r.x == numberW + IntCast(0.06 * w as real)
    ensures r.y >= 0
    ensures (r.w, r.h) == FitText(IntCast(secondaryHeight * h as real), w - numberW - IntCast(0.25 * w as real), gw, gh)
  {
    var limitW := w - numberW - IntCast(0.25 * w as real);
    var size := FitText(IntCast(secondaryHeight * h as real), limitW, gw, gh);
    var y := IntCast(secondaryHeight * h as real / 2.0 - size.1 as real / 2.0);
    Rect(numberW + IntCast(0.06 * w as real), if y < 0 then 0 else y, size.0, size.1)
  }

  /** A placement as drawn: `scale` turns a zero side into one. */
  function Scaled(r: Rect): (s: Rect)
    ensures s.x == r.x && s.y == r.y && s.w != 0 && s.h != 0
    ensures r.w != 0 ==> s.w == r.w
    ensures r.h != 0 ==> s.h == r.h
  {
    Rect(r.x, r.y, ScaleSize(r.w), ScaleSize(r.h))
  }

  /** The font every text is drawn in. */
  function TextFont(s: ClassicSettings): Font {
    Font(s.font, s.fontBold, false, s.originalFontSize)
  }

  /** The number's command and width: nothing, and width 0, when the number is -1 or below. */
  function NumberOps(s: ClassicSettings, d: BadgeData, w: int, h: int, m: Metrics): (r: (seq<Op>, int))
    requires d.number > -1 ==> ValidBuffer(m.stringWidth(TextFont(s), FormatTwoDigits(d.number)), m.height(TextFont(s)))
    ensures d.number <= -1 ==> r == ([], 0)
    ensures d.number > -1 ==>
      (|r.0| == 1 && r.0[0].DrawSprite? && r.0[0].sprite == Text(FormatTwoDigits(d.number), TextFont(s), d.textColor))
    ensures d.number > -1 ==>
      r.1 == NumberWidth(s.primaryHeight, h, m.stringWidth(TextFont(s), FormatTwoDigits(d.number)), m.height(TextFont(s))) &&
      r.0[0].at == Scaled(Rect(IntCast(0.02 * w as real), 0, r.1, IntCast(s.primaryHeight * h as real)))
  {
    if d.number > -1 then
      var f := TextFont(s);
      var text := FormatTwoDigits(d.number);
      var numberW := NumberWidth(s.primaryHeight, h, m.stringWidth(f, text), m.height(f));
      var textH := IntCast(s.primaryHeight * h as real);
      ([DrawSprite(Text(text, f, d.textColor), Scaled(Rect(IntCast(0.02 * w as real), 0, numberW, textH)))], numberW as int)
    else ([], 0)
  }

  /**
   * `render`: fails when the badge has no pixels or a text buffer (number, primary or
   * secondary text, in that order) would be empty; otherwise fills the background, draws the
   * background picture, the two bands, the number, the primary and the secondary text.
   */
  function Layout(s: ClassicSettings, d: BadgeData, m: Metrics): (r: Result<Raster, RenderError>)
    ensures r.Ok? <==>
      ValidBuffer(d.PixelDimension().0, d.PixelDimension().1) &&
      (d.number > -1 ==> ValidBuffer(m.stringWidth(TextFont(s), FormatTwoDigits(d.number)), m.height(TextFont(s)))) &&
      ValidBuffer(m.stringWidth(TextFont(s), d.primaryText), m.height(TextFont(s))) &&
      ValidBuffer(m.stringWidth(TextFont(s), d.secondaryText), m.height(TextFont(s)))
    ensures r.Ok? ==> r.value.width == d.PixelDimension().0 && r.value.height == d.PixelDimension().1
    ensures r.Ok? ==>
      (|r.value.ops| >= 5 && r.value.ops[0] == FillRect(Rect(0, 0, r.value.width, r.value.height), d.backgroundColor))
    ensures r.Ok? ==>
      (r.value.ops[|r.value.ops| - 1].DrawSprite? &&
       r.value.ops[|r.value.ops| - 1].sprite == Text(d.secondaryText, TextFont(s), d.textColor))
    ensures r.Ok? ==>
      (r.value.ops[|r.value.ops| - 2].DrawSprite? &&
       r.value.ops[|r.value.ops| - 2].sprite == Text(d.primaryText, TextFont(s), d.textColor))
  {
    var (w, h) := d.PixelDimension();
    if !ValidBuffer(w, h) then Err(InvalidImageSize(w, h))
    else
      var f := TextFont(s);
      var gh := m.height(f);
      var numberText := FormatTwoDigits(d.number);
      if d.number > -1 && !ValidBuffer(m.stringWidth(f, numberText), gh) then
        Err(InvalidImageSize(m.stringWidth(f, numberText), gh))
      else if !ValidBuffer(m.stringWidth(f, d.primaryText), gh) then
        Err(InvalidImageSize(m.stringWidth(f, d.primaryText), gh))
      else if !ValidBuffer(m.stringWidth(f, d.secondaryText), gh) then
        Err(InvalidImageSize(m.stringWidth(f, d.secondaryText), gh))
      else
        var bands := [FillPolygon(TopBand(s.primaryHeight, w, h), d.textBackgroundColor),
                      FillPolygon(BottomBand(s.secondaryHeight, w, h), d.textBackgroundColor)];
        var (numberOps, numberW) := NumberOps(s, d, w, h, m);
        var primary := PrimaryPlacement(s.primaryHeight, w, h, m.stringWidth(f, d.primaryText), gh);
        var secondary := SecondaryPlacement(s.secondaryHeight, w, h, numberW, m.stringWidth(f, d.secondaryText), gh);
        Ok(Raster(w, h,
          [FillRect(Rect(0, 0, w, h), d.backgroundColor)] + BackgroundOps(s, d, w, h) + bands + numberOps +
          [DrawSprite(Text(d.primaryText, f, d.textColor), Scaled(primary)),
           DrawSprite(Text(d.secondaryText, f, d.textColor), Scaled(secondary))]))
  }

  // ---------------------------------------------------------------------------
  // Where the texts land

  /** Truncating `x - n` for a whole `n` below `x` is truncating `x` and subtracting `n`. */
  lemma CastMinusWhole(x: real, n: int)
    requires 0 <= n && n as real <= x < 2147483648.0
    ensures IntCast(x - n as real) == IntCast(x) - n
  {
    var a := IntCast(x);
    var b := IntCast(x - n as real);
    assert b as real <= x - n as real < b as real + 1.0;
    assert a as real <= x < a as real + 1.0;
  }

  lemma {:induction false} PrimaryInStrip(primaryHeight: real, w: int, h: int, gw: int, gh: int)
    requires gw > 0 && gh > 0 && 0 < w <= INT_MAX && h > 0
    requires 0.0 <= primaryHeight && primaryHeight * (h as real) < 2147483648.0
    ensures var r := PrimaryPlacement(primaryHeight, w, h, gw, gh);
      h - IntCast(primaryHeight * h as real) <= r.y && r.y + r.h <= h && 0 <= r.h
  {
    var ph := primaryHeight * (h as real);
    MulMonotone(0.0, primaryHeight, h as real);
    var big := IntCast(ph);
    var limitW := w - IntCast(0.08 * w as real);
    Fraction(0.08, w);
    var size := FitText(big, limitW, gw, gh);
    FitTextShrinks(big, limitW, gw, gh);
    CastMinusWhole(ph, size.1);
    assert IntCast(ph - size.1 as real) == big - size.1;
  }

  /**
   * The primary text stays inside a strip of height `primaryHeight * h` at the bottom, and,
   * when the two heights are equal (as by default), inside the bottom band.
   */
  lemma {:induction false} PrimaryInBottomBand(height: real, w: int, h: int, gw: int, gh: int)
    requires gw > 0 && gh > 0 && 0 < w <= INT_MAX && 0 < h <= INT_MAX
    requires 0.0 <= height <= 1.0
    ensures var r := PrimaryPlacement(height, w, h, gw, gh);
      BottomBandTop(height, h) <= r.y && r.y + r.h <= h
  {
    Fraction(height, h);
    assert h as real < 2147483648.0;
    assert height * (h as real) < 2147483648.0;
    PrimaryInStrip(height, w, h, gw, gh);
    BandTopAboveStrip(height, h);
  }

  /** The bottom band starts no lower than a strip of the same fraction of the height measured up from the bottom. */
  lemma BandTopAboveStrip(height: real, h: int)
    requires 0.0 <= height <= 1.0 && 0 < h <= INT_MAX
    ensures BottomBandTop(height, h) <= h - IntCast(height * h as real)
  {
    var hr := h as real;
    var ph := height * hr;
    Fraction(height, h);
    assert (1.0 - height) * hr == hr - ph;
    Fraction(1.0 - height, h);
    var top := IntCast(hr - ph);
    assert top as real <= hr - ph;
    assert IntCast(ph) as real <= ph;
  }

  /**
   * With unequal heights the bands and the texts disagree: at primary height 0.3 and secondary
   * height 0.1, on a 1000 x 1000 badge, the primary text starts 200 pixels above the bottom band.
   */
  lemma PrimaryOutsideBottomBand()
    ensures PrimaryPlacement(0.3, 1000, 1000, 1, 1).y == 700
    ensures BottomBandTop(0.1, 1000) == 900
  {
    assert 0.3 * 1000 as real == 300.0;
    assert IntCast(300.0) == 300;
    assert IntCast(0.08 * 1000 as real) == 80;
    assert Proportional(300, 1, 1) == 300.0;
    assert FitText(300, 920, 1, 1) == (300, 300);
    assert IntCast(300.0 - 300 as real) == 0;
    assert (1.0 - 0.1) * 1000 as real == 900.0;
  }

  /** The secondary text's top edge: a text no taller than the strip, centred in it, stays inside it. */
  lemma SecondaryVertical(sh: real, t: int)
    requires 0 <= t && t as real <= sh < 2147483648.0
    ensures 0 <= IntCast(sh / 2.0 - t as real / 2.0)
    ensures IntCast(sh / 2.0 - t as real / 2.0) + t <= IntCast(sh)
  {
    var x := sh / 2.0 - t as real / 2.0;
    assert x >= 0.0;
    var y := IntCast(x);
    assert (y + t) as real <= sh;
    WholeBelowCast(y + t, sh);
  }

  /** On a badge at least 50 pixels wide, 6% after the number is past 2%, and the text's budget ends before 85%. */
  lemma SecondaryHorizontal(w: int)
    requires 50 <= w <= INT_MAX
    ensures IntCast(0.02 * w as real) <= IntCast(0.06 * w as real)
    ensures w + IntCast(0.06 * w as real) - IntCast(0.25 * w as real) <= IntCast(0.85 * w as real)
  {
    var wr := w as real;
    var a, b, c, d := IntCast(0.02 * wr), IntCast(0.06 * wr), IntCast(0.25 * wr), IntCast(0.85 * wr);
    assert a as real <= 0.02 * wr;
    WholeBelowCast(a, 0.06 * wr);
    assert b as real <= 0.06 * wr;
    assert 0.25 * wr < c as real + 1.0;
    assert 0.85 * wr < d as real + 1.0;
  }

  /** A fraction of a height that fits in an `int` is a cast-safe real. */
  lemma StripBelowLimit(height: real, h: int)
    requires 0.0 <= height <= 1.0 && 0 < h <= INT_MAX
    ensures 0.0 <= height * (h as real) < 2147483648.0
  {
    Fraction(height, h);
  }

  /**
   * The secondary text (after a non-negative number width) stays inside the flat part of the
   * top band when the two heights are equal: below the top edge, above `secondaryHeight * h`,
   * right of the number, and left of the slant at 85% of the width.
   */
  lemma {:induction false} SecondaryInTopBand(height: real, w: int, h: int, numberW: int, gw: int, gh: int)
    requires gw > 0 && gh > 0 && 50 <= w <= INT_MAX && 0 < h <= INT_MAX
    requires 0.0 <= height <= 1.0 && 0 <= numberW
    requires w - numberW - IntCast(0.25 * w as real) >= 0
    ensures var r := SecondaryPlacement(height, w, h, numberW, gw, gh);
      0 <= r.y && r.y + r.h <= IntCast(height * h as real) &&
      IntCast(0.02 * w as real) + numberW <= r.x && r.x + r.w <= IntCast(0.85 * w as real)
  {
    var sh := height * (h as real);
    StripBelowLimit(height, h);
    var big := IntCast(sh);
    var limitW := w - numberW - IntCast(0.25 * w as real);
    var size := FitText(big, limitW, gw, gh);
    FitTextShrinks(big, limitW, gw, gh);
    assert size.1 as real <= sh;
    SecondaryVertical(sh, size.1);
    SecondaryHorizontal(w);
  }

  // ---------------------------------------------------------------------------
  // The renderer object

  class Classic {
    const base: Renderer
    var settings: ClassicSettings

    /** The constructor declares the five properties and starts from the default settings. */
    constructor()
      ensures fresh(base) && base.properties == CLASSIC_PROPERTIES
      ensures settings == DEFAULT_SETTINGS
    {
      var b := new Renderer();
      b.AddPropertyWithDefault("font", STRING, "SansSerif", "Name of font to use");
      b.AddPropertyWithDefault("primary-height", FLOAT, "0.150", "Primary text line height in proportion to badge height");
      b.AddPropertyWithDefault("secondary-height", FLOAT, "0.150", "Secondary text line height in proportion to badge height");
      b.AddPropertyWithDefault("text-height-factor", FLOAT, "1.000", "Line height to text ratio (smaller for bigger text, 1.0 for equal heights)");
      b.AddPropertyWithDefault("font-bold", STRING, "no", "Make text bold {\"yes\", \"no\"}");
      base := b;
      settings := DEFAULT_SETTINGS;
    }

    method SetProperty(key: string, value: string) returns (outcome: SetOutcome)
      modifies this
      ensures (settings, outcome) == Set(old(settings), key, value)
    {
      var r := Set(settings, key, value);
      settings := r.0;
      outcome := r.1;
    }
  }
}
