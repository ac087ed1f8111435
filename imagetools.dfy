/**
 * ImageTools: the colour parser, the text-fitting arithmetic of `drawString`, the 0-to-1
 * clamp of `scale`, the in-place alpha rewrite of `setAlpha`, and the read-through image cache.
 */
module ImageTools {
  import opened Wrappers
  import opened Strings
  import opened Numbers
  import opened Graphics

  // ---------------------------------------------------------------------------
  // parseHexColor

  /** The digits of a colour code: one leading `#` is dropped, and only one. */
  function StripHash(hex: string): (r: string)
    ensures StartsWith(hex, "#") ==> r == hex[1..]
    ensures !StartsWith(hex, "#") ==> r == hex
  {
    if StartsWith(hex, "#") then hex[1..] else hex
  }

  /**
   * `parseHexColor`: six digits give an opaque colour (`new Color(int)` keeps the low 24
   * bits), eight digits give the 32 bits of the parsed `long` as ARGB; any other length and
   * any `NumberFormatException` give black. A leading sign is accepted by the Java parsers.
   */
  function ParseHexColor(hex: string): (c: Color)
    ensures |StripHash(hex)| != 6 && |StripHash(hex)| != 8 ==> c == BLACK
    ensures |StripHash(hex)| == 6 ==> c.Alpha() == 255
  {
    var digits := StripHash(hex);
    if |digits| == 6 then
      match ParseInteger(digits, 16, INT_MIN, INT_MAX)
      case None => BLACK
      case Some(v) => Opaque(v)
    else if |digits| == 8 then
      match ParseInteger(digits, 16, LONG_MIN, LONG_MAX)
      case None => BLACK
      case Some(v) => Color(v % 0x1_0000_0000)
    else BLACK
  }

  /** The three outcomes of `parseHexColor`, by the number of digits after the optional `#`. */
  lemma ParseHexColorCases(hex: string)
    ensures var c := ParseHexColor(hex);
      (|StripHash(hex)| != 6 && |StripHash(hex)| != 8 ==> c == BLACK) &&
      (|StripHash(hex)| == 6 ==>
        match ParseInteger(StripHash(hex), 16, INT_MIN, INT_MAX)
        case None => c == BLACK
        case Some(v) => c.Alpha() == 255 && c.Rgb() == v % 0x100_0000) &&
      (|StripHash(hex)| == 8 ==>
        match ParseInteger(StripHash(hex), 16, LONG_MIN, LONG_MAX)
        case None => c == BLACK
        case Some(v) => c.argb == v % 0x1_0000_0000)
  {
  }

  /** `parseHexColor(null)`: the `NullPointerException` is caught as well, giving black. */
  function ParseHexColorOrNull(hex: Option<string>): (c: Color)
    ensures hex.None? ==> c == BLACK
    ensures hex.Some? ==> c == ParseHexColor(hex.value)
  {
    match hex
    case None => BLACK
    case Some(s) => ParseHexColor(s)
  }

  /** Six lower-case digits read back as the value they print, by the `int` parser in radix 16. */
  lemma {:induction false} ParseHex6(v: nat)
    requires v < 0x100_0000
    ensures ParseInteger(Hex6(v), 16, INT_MIN, INT_MAX) == Some(v)
    ensures ParseInteger(Hex6(v), 16, LONG_MIN, LONG_MAX) == Some(v)
  {
    assert Pow(16, 6) == 0x100_0000;
    HexDigitsValue(v, 6);
    var s := Hex6(v);
    assert IsDigit(s[0], 16);
    assert s[0] != '-' && s[0] != '+';
  }

  /** A colour printed as `%06x` of its RGB, with or without `#`, parses back to that RGB, opaque. */
  lemma {:induction false} ParseHexColorOpaque(v: nat, hash: bool)
    requires v < 0x100_0000
    ensures ParseHexColor((if hash then "#" else "") + Hex6(v)) == Opaque(v)
  {
    var s := (if hash then "#" else "") + Hex6(v);
    assert StripHash(s) == Hex6(v) by {
      if !hash {
        assert IsDigit(s[0], 16);
        assert s[0] != '#';
      } else {
        assert s[1..] == Hex6(v);
      }
    }
    ParseHex6(v);
  }

  /** Eight digits `aarrggbb` give exactly the ARGB colour they spell. */
  lemma {:induction false} ParseHexColorArgb(argb: U32)
    ensures ParseHexColor(HexDigits(argb, 8)) == Color(argb)
  {
    var s := HexDigits(argb, 8);
    assert Pow(16, 8) == 0x1_0000_0000;
    HexDigitsValue(argb, 8);
    assert IsDigit(s[0], 16);
    assert s[0] != '#' && s[0] != '-' && s[0] != '+';
    assert StripHash(s) == s;
    assert ParseInteger(s, 16, LONG_MIN, LONG_MAX) == Some(argb);
  }

  /** Only one `#` is stripped: a doubled `#` leaves a character no parser accepts, so the result is black. */
  lemma {:induction false} DoubleHashIsBlack(v: nat)
    requires v < 0x100_0000
    ensures ParseHexColor("##" + Hex6(v)) == BLACK
  {
    var s := "##" + Hex6(v);
    assert StripHash(s) == "#" + Hex6(v);
    var d := StripHash(s);
    assert |d| == 7;
  }

  /** A signed six-character code is accepted: `-00001` is the int -1, whose low 24 bits are white. */
  lemma SignedCodeAccepted()
    ensures ParseHexColor("-00001") == Opaque(0xff_ffff)
  {
    var body := "00001";
    assert AllDigits(body, 16) by {
      forall k | 0 <= k < |body| ensures IsDigit(body[k], 16) { }
    }
    assert ValueOf(body, 16) == 1 by {
      assert ValueOf("0", 16) == 0 by { assert "0"[..0] == ""; }
      assert ValueOf("00", 16) == 0 by { assert "00"[..1] == "0"; }
      assert ValueOf("000", 16) == 0 by { assert "000"[..2] == "00"; }
      assert ValueOf("0000", 16) == 0 by { assert "0000"[..3] == "000"; }
      assert body[..4] == "0000";
    }
    assert "-00001"[1..] == body;
    assert ParseInteger("-00001", 16, INT_MIN, INT_MAX) == Some(-1);
  }

  // ---------------------------------------------------------------------------
  // scale / fastScale and drawString

  /** The size `scale` and `fastScale` request: exactly 0 becomes 1, any other value (negatives too) is kept. */
  function ScaleSize(n: int): (r: int)
    ensures r != 0
    ensures r == n || n == 0
  {
    if n == 0 then 1 else n
  }

  /**
   * The size `drawString` scales a `gw` x `gh` text buffer to: the width that keeps the
   * aspect ratio at the requested height, or, when that exceeds `widthLimit`, the limit
   * itself with the height recomputed from it.
   */
  function FitText(height: int, widthLimit: int, gw: int, gh: int): (size: (int, int))
    requires gw > 0 && gh > 0
    ensures size.0 <= widthLimit
    ensures Carry(height, gh, gw) <= widthLimit ==> size.1 == height
    ensures Carry(height, gh, gw) > widthLimit ==> size.0 == widthLimit
    ensures 0 <= height <= INT_MAX && 0 <= widthLimit && Proportional(height, gh, gw) < 2147483648.0 ==>
      -gh < size.0 * gh - size.1 * gw < gw
  {
    var width := Carry(height, gh, gw);
    if width > widthLimit then
      if 0 <= height <= INT_MAX && 0 <= widthLimit && Proportional(height, gh, gw) < 2147483648.0 then
        ProportionalBelow(widthLimit, height, gw, gh);
        (widthLimit, Carry(widthLimit, gw, gh) as int)
      else (widthLimit, Carry(widthLimit, gw, gh) as int)
    else (width as int, height)
  }

  /** `(float)n / from * to`: `n` carried from a side of length `from` to one of length `to`. */
  function Proportional(n: int, from: int, to: int): real
    requires from != 0
  {
    n as real / from as real * to as real
  }

  /**
   * `(int)((float)n / from * to)`: a size carried over to the other side of a picture and
   * truncated. The ratio survives to within one unit of `from`: `n * to` exceeds `c * from`
   * by less than `from`.
   */
  function Carry(n: int, from: int, to: int): (c: Int32)
    requires from > 0
    ensures 0 <= n && 0 < to && Proportional(n, from, to) < 2147483648.0 ==> 0 <= n * to - c * from < from
  {
    if 0 <= n && 0 < to && Proportional(n, from, to) < 2147483648.0 then
      CarryBound(n, from, to);
      IntCast(Proportional(n, from, to))
    else IntCast(Proportional(n, from, to))
  }

  lemma CarryBound(n: int, from: int, to: int)
    requires 0 <= n && 0 < from && 0 < to && Proportional(n, from, to) < 2147483648.0
    ensures var c := IntCast(Proportional(n, from, to)); 0 <= n * to - c * from < from
  {
    var x := Proportional(n, from, to);
    var c := IntCast(x);
    ScaledNonNegative(n as real, to as real, from as real);
    assert c as real <= x < c as real + 1.0;
    CarryProduct(n, from, to);
    WithinOne(x, c, from, n * to);
  }

  /** Carrying `n` from `from` to `to` and scaling back by `from` gives `n * to`. */
  lemma CarryProduct(n: int, from: int, to: int)
    requires from > 0
    ensures Proportional(n, from, to) * from as real == (n * to) as real
  {
    var f := from as real;
    assert n as real / f * to as real * f == n as real * to as real;
  }

  /** A real within one unit above a whole number `c`, scaled by `f`, lies within `f` units above `c * f`. */
  lemma WithinOne(x: real, c: int, f: int, p: int)
    requires c as real <= x < c as real + 1.0 && f > 0 && x * f as real == p as real
    ensures c * f <= p < c * f + f
  {
    var fr := f as real;
    var cf := c * f;
    assert cf as real == c as real * fr;
    MulMonotone(c as real, x, fr);
    assert cf as real <= p as real;
    MulStrict(x, c as real + 1.0, fr);
    assert (c as real + 1.0) * fr == c as real * fr + fr;
    assert p as real < cf as real + fr;
    assert (cf + f) as real == cf as real + fr;
  }

  /** When the width carried from `height` overshoots `widthLimit`, the height carried back from the limit stays below `height`. */
  lemma ProportionalBelow(widthLimit: int, height: int, gw: int, gh: int)
    requires gw > 0 && gh > 0 && 0 <= height && 0 <= widthLimit
    requires Proportional(height, gh, gw) < 2147483648.0 && Carry(height, gh, gw) > widthLimit
    ensures Proportional(widthLimit, gw, gh) <= height as real
  {
    var h, l, w, g := height as real, widthLimit as real, gw as real, gh as real;
    ScaledNonNegative(h, w, g);
    assert l < h / g * w;
    BackHeightBelow(h, l, w, g);
  }

  /** The fitted text never grows: with a non-negative height and limit, both sides stay within the requests. */
  lemma {:induction false} FitTextShrinks(height: int, widthLimit: int, gw: int, gh: int)
    requires gw > 0 && gh > 0
    requires height >= 0 && widthLimit >= 0
    ensures 0 <= FitText(height, widthLimit, gw, gh).0 <= widthLimit
    ensures 0 <= FitText(height, widthLimit, gw, gh).1 <= height
  {
    var h, l, w, g := height as real, widthLimit as real, gw as real, gh as real;
    var wide := Proportional(height, gh, gw);
    assert wide == h / g * w;
    ScaledNonNegative(h, w, g);
    if IntCast(wide) > widthLimit {
      // the unclamped width exceeds the limit, so the limit's height is below the request
      assert l < wide;
      BackHeightBelow(h, l, w, g);
      var back := Proportional(widthLimit, gw, gh);
      assert back == l / w * g;
      CastBelowReal(back, height);
    }
  }

  lemma ScaledNonNegative(h: real, gw: real, gh: real)
    requires gw > 0.0 && gh > 0.0 && h >= 0.0
    ensures h / gh * gw >= 0.0
  {
    MulMonotone(0.0, h / gh, gw);
  }

  lemma BackHeightBelow(h: real, l: real, gw: real, gh: real)
    requires gw > 0.0 && gh > 0.0 && 0.0 <= l < h / gh * gw
    ensures 0.0 <= l / gw * gh <= h
  {
    var k := gh / gw;
    assert l / gw * gh == l * k;
    assert h / gh * gw * k == h;
    MulMonotone(l, h / gh * gw, k);
  }

  /** Packing an alpha byte above 24 RGB bits, and reading them back. */
  lemma Pack(alpha: int, rgb: int)
    requires 0 <= alpha < 256 && 0 <= rgb < 0x100_0000
    ensures (alpha * 0x100_0000 + rgb) / 0x100_0000 == alpha
    ensures (alpha * 0x100_0000 + rgb) % 0x100_0000 == rgb
  {
  }

  /** A text rendered by `drawString`: its sprite and the size it is scaled to. */
  datatype Glyph = Glyph(sprite: Sprite, width: int, height: int)

  /**
   * `drawString`: the text is rasterised into a buffer the size of its metrics (which must be
   * positive, or `new BufferedImage` throws), then fitted and scaled.
   */
  function DrawString(m: Metrics, f: Font, text: string, color: Color, height: int, widthLimit: int)
    : (r: Result<Glyph, RenderError>)
    ensures r.Err? <==> !ValidBuffer(m.stringWidth(f, text), m.height(f))
    ensures r.Ok? ==> r.value.sprite == Text(text, f, color)
    ensures r.Ok? ==> r.value.width != 0 && r.value.height != 0
    ensures r.Ok? ==> r.value.width <= widthLimit || (widthLimit == 0 && r.value.width == 1)
    ensures r.Ok? ==> var size := FitText(height, widthLimit, m.stringWidth(f, text), m.height(f));
      r.value.width == ScaleSize(size.0) && r.value.height == ScaleSize(size.1)
  {
    var gw := m.stringWidth(f, text);
    var gh := m.height(f);
    if !ValidBuffer(gw, gh) then Err(InvalidImageSize(gw, gh))
    else
      var size := FitText(height, widthLimit, gw, gh);
      Ok(Glyph(Text(text, f, color), ScaleSize(size.0), ScaleSize(size.1)))
  }

  // ---------------------------------------------------------------------------
  // setAlpha

  /** The alpha byte (bits 24..31) of a pixel. */
  function AlphaOf(p: U32): (a: int)
    ensures 0 <= a < 256
  {
    p / 0x100_0000
  }

  /** The RGB bits (0..23) of a pixel. */
  function RgbOf(p: U32): int { p % 0x100_0000 }

  /** `(int)(mult/100.0 * alpha)`: an alpha byte scaled by a percentage, truncated. */
  function ScaleAlpha(alpha: int, mult: int): (r: Int32)
    requires 0 <= alpha < 256
    ensures 0 <= mult ==> 0 <= r
  {
    if 0 <= mult then PercentBounds(mult, alpha); IntCast(Percent(mult, alpha)) else IntCast(Percent(mult, alpha))
  }

  /** `mult/100.0 * n`. */
  function Percent(mult: int, n: int): real {
    mult as real / 100.0 * n as real
  }

  /** A non-negative percentage of a non-negative value lies below the value up to 100, above it from 100. */
  lemma PercentBounds(mult: int, n: int)
    requires 0 <= mult && 0 <= n
    ensures 0.0 <= Percent(mult, n)
    ensures mult <= 100 ==> Percent(mult, n) <= n as real
    ensures mult >= 100 ==> Percent(mult, n) >= n as real
  {
    var m := mult as real / 100.0;
    var a := n as real;
    assert Percent(mult, n) == m * a;
    MulMonotone(0.0, m, a);
    assert a - m * a == (1.0 - m) * a;
    if mult <= 100 {
      MulMonotone(0.0, 1.0 - m, a);
    } else {
      MulMonotone(0.0, m - 1.0, a);
    }
  }

  /**
   * One pixel of `setAlpha`: the alpha byte becomes `ScaleAlpha`, capped at 255 (a negative
   * product keeps only its low 8 bits, as the shift into an `int` does), and the RGB bits
   * are kept.
   */
  function WithAlpha(p: U32, mult: int): (q: U32)
    ensures RgbOf(q) == RgbOf(p)
    ensures 0 <= mult ==> AlphaOf(q) == Min(255, ScaleAlpha(AlphaOf(p), mult))
  {
    var scaled := ScaleAlpha(AlphaOf(p), mult);
    var alpha := if scaled > 255 then 255 else scaled as int;
    Pack(alpha % 256, RgbOf(p));
    (alpha % 256) * 0x100_0000 + RgbOf(p)
  }

  function Min(a: int, b: int): int { if a <= b then a else b }

  /** A multiplier of 100 leaves every pixel as it was. */
  lemma WithAlphaIdentity(p: U32)
    ensures WithAlpha(p, 100) == p
  {
    assert Percent(100, AlphaOf(p)) == AlphaOf(p) as real;
    assert ScaleAlpha(AlphaOf(p), 100) == AlphaOf(p);
  }

  /** A multiplier of 0 makes every pixel fully transparent and keeps its colour. */
  lemma WithAlphaZero(p: U32)
    ensures WithAlpha(p, 0) == RgbOf(p)
  {
    assert Percent(0, AlphaOf(p)) == 0.0;
    assert ScaleAlpha(AlphaOf(p), 0) == 0;
  }

  /** A multiplier between 0 and 100 never makes a pixel more opaque; one above 100 never makes it less. */
  lemma {:induction false} WithAlphaMonotone(p: U32, mult: int)
    requires 0 <= mult
    ensures mult <= 100 ==> AlphaOf(WithAlpha(p, mult)) <= AlphaOf(p)
    ensures mult >= 100 ==> AlphaOf(WithAlpha(p, mult)) >= AlphaOf(p)
  {
    ScaleAlphaMonotone(AlphaOf(p), mult);
  }

  lemma ScaleAlphaMonotone(a: int, mult: int)
    requires 0 <= a < 256 && 0 <= mult
    ensures mult <= 100 ==> ScaleAlpha(a, mult) <= a
    ensures mult >= 100 ==> ScaleAlpha(a, mult) >= a
  {
    PercentBounds(mult, a);
    var x := Percent(mult, a);
    assert ScaleAlpha(a, mult) == IntCast(x);
    if mult >= 100 {
      CastAbove(x, a);
    }
  }

  lemma CastAbove(x: real, n: int)
    requires 0 <= n < 256 && x >= n as real
    ensures IntCast(x) >= n
  {
  }

  /**
   * `setAlpha`: for an ARGB image every pixel gets `WithAlpha`; any other image type is left
   * untouched. The image keeps its size (an `array2` cannot change its dimensions).
   */
  method SetAlpha(img: array2<U32>, isArgb: bool, mult: int)
    modifies img
    ensures forall x, y :: 0 <= x < img.Length0 && 0 <= y < img.Length1 ==>
      img[x, y] == if isArgb then WithAlpha(old(img[x, y]), mult) else old(img[x, y])
  {
    if !isArgb {
      return;
    }
    var x := 0;
    while x < img.Length0
      invariant 0 <= x <= img.Length0
      invariant forall i, j :: 0 <= i < x && 0 <= j < img.Length1 ==> img[i, j] == WithAlpha(old(img[i, j]), mult)
      invariant forall i, j :: x <= i < img.Length0 && 0 <= j < img.Length1 ==> img[i, j] == old(img[i, j])
    {
      var y := 0;
      while y < img.Length1
        invariant 0 <= y <= img.Length1
        invariant forall i, j :: 0 <= i < x && 0 <= j < img.Length1 ==> img[i, j] == WithAlpha(old(img[i, j]), mult)
        invariant forall j :: 0 <= j < y ==> img[x, j] == WithAlpha(old(img[x, j]), mult)
        invariant forall i, j :: x <= i < img.Length0 && 0 <= j < img.Length1 && (i > x || j >= y) ==> img[i, j] == old(img[i, j])
      {
        img[x, y] := WithAlpha(img[x, y], mult);
        y := y + 1;
      }
      x := x + 1;
    }
  }

  // ---------------------------------------------------------------------------
  // The image cache (get / invalidate)

  /** What `ImageIO.read` does with a path: decode it, return null (no reader for the format), or throw. */
  datatype LoadOutcome = Decoded(image: Image) | Undecodable | ReadFailed

  /** The `IOException` that `ImageIO.read` raised. */
  datatype IoError = IoError(path: string)

  /** What one `get` returns and the cache it leaves behind. */
  datatype Fetch = Fetch(result: Result<Option<Image>, IoError>, table: map<string, Option<Image>>)

  /**
   * `get(path)` on a cache holding `table`, where `outcome` is what reading the file would do:
   * a cached path (even one cached as null) is returned without reading; otherwise the read
   * result is stored and returned, and a failed read stores nothing.
   */
  function Lookup(table: map<string, Option<Image>>, path: string, outcome: LoadOutcome): (f: Fetch)
    ensures path in table ==> f == Fetch(Ok(table[path]), table)
    ensures path !in table && outcome.ReadFailed? ==> f == Fetch(Err(IoError(path)), table)
    ensures path !in table && outcome.Decoded? ==> f.result == Ok(Some(outcome.image)) && f.table == table[path := Some(outcome.image)]
    ensures path !in table && outcome.Undecodable? ==> f.result == Ok(None) && f.table == table[path := None]
  {
    if path in table then Fetch(Ok(table[path]), table)
    else
      match outcome
      case ReadFailed => Fetch(Err(IoError(path)), table)
      case Decoded(img) => Fetch(Ok(Some(img)), table[path := Some(img)])
      case Undecodable => Fetch(Ok(None), table[path := None])
  }

  /** Read-through: once a `get` has succeeded, the next `get` of that path returns the same value whatever the file now holds. */
  lemma {:induction false} LookupTwice(table: map<string, Option<Image>>, path: string, first: LoadOutcome, second: LoadOutcome)
    requires Lookup(table, path, first).result.Ok?
    ensures Lookup(Lookup(table, path, first).table, path, second) == Lookup(table, path, first)
  {
    var f := Lookup(table, path, first);
    assert path in f.table;
  }

  /** A `get` touches no other path. */
  lemma {:induction false} LookupKeepsOthers(table: map<string, Option<Image>>, path: string, outcome: LoadOutcome, other: string)
    requires other != path
    ensures other in Lookup(table, path, outcome).table <==> other in table
    ensures other in table ==> Lookup(table, path, outcome).table[other] == table[other]
  {
  }

  /**
   * The static cache: `created` records whether the map has been allocated yet (it is made
   * lazily by the first `get`), `table` its entries (a `null` image is cached as `None`).
   */
  class ImageCache {
    var created: bool
    var table: map<string, Option<Image>>

    predicate Valid()
      reads this
    {
      !created ==> table == map[]
    }

    constructor()
      ensures Valid() && !created && table == map[]
    {
      created := false;
      table := map[];
    }

    /** `get(path)`; `outcome` stands for what reading the file would do. */
    method Get(path: string, outcome: LoadOutcome) returns (r: Result<Option<Image>, IoError>)
      requires Valid()
      modifies this
      ensures Valid() && created
      ensures Fetch(r, table) == Lookup(old(table), path, outcome)
    {
      created := true;
      var f := Lookup(table, path, outcome);
      table := f.table;
      r := f.result;
    }

    /**
     * `invalidate(path)`: removes that one entry. Before the first `get` the map is still
     * null and the call throws a `NullPointerException`, reported here as `thrown`.
     */
    method Invalidate(path: string) returns (thrown: bool)
      requires Valid()
      modifies this
      ensures Valid() && created == old(created)
      ensures thrown <==> !old(created)
      ensures table == old(table) - {path}
    {
      thrown := !created;
      table := table - {path};
    }
  }
}
