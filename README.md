# Mercury badge maker, modelled in Dafny

This project models the core of the Mercury badge maker. The badge maker turns a list of
participants into printable badges or certificates. The model covers these parts of it:

- **The badge** (`Badges`). It holds a number, two texts, three colours and an optional
  background picture. Its physical size is mutable: width in inches, proportion, dots per
  inch. It also holds the background fit and vertical position, an append-only list of
  extra-data lines, and a cached render that every size change discards.
  `getPixelDimension` truncates, with no lower clamp.
- **The renderer registry** (`Renderers`). It is the list of declared properties, each with
  a type tag, a default and a description, kept in declaration order.
- **`ImageTools`**:
  - `parseHexColor`: an optional `#`, then six or eight characters for Java's `int` / `long`
    parsers in radix 16, which also accept a leading sign (`-00001` is the int -1, whose low
    24 bits are white). Any other length, or a parse error, gives black.
  - The size clamp of `scale` and `fastScale`.
  - The fitting arithmetic of `drawString`.
  - The in-place alpha rewrite of `setAlpha`, over an `array2` of 32-bit pixels.
  - The read-through image cache `get` / `invalidate`.
- **The three renderers**. Each is a class holding its settings. `setProperty` is a method
  specified by a function `Set`. `render` is specified by a function `Layout` that yields a
  raster: its pixel size and the drawing commands in order.
  - The classic badge: background colour, background picture, two bands, number, primary
    and secondary text.
  - The certificate page: background and logo, a text column laid out by a running cursor,
    and two signature blocks.
  - The scriptable renderer:
    - the regular-expression tokenizer;
    - the `polyfill` / `polyedge` / text / `blit` instructions;
    - `parsePosition` and `parseColor`;
    - the per-line exception handling that logs a failed line and goes on.
- **The PDF placement loop of `IO.generatePDF`** (`Packer`). Badges are laid out in rows
  across pages, driven by the `offX` / `offY` / `largestH` cursors. Positions are in PDF
  user space: the origin is the lower-left corner of the page and y grows upward, so the
  first row sits on the bottom margin and later rows stack up the page.
- **`IO.saveCSV` / `IO.parseCSV`** (`Csv`). A badge list becomes records of fields, and
  records become a badge list, with the background images read through the cache. Saving
  stops after the first badge whose background image cannot be written.
- **`Main.pad`** (`MainPad`).

`Numbers` and `Strings` model the Java library behaviour these rely on:

- the `(int)` cast (truncating, saturating);
- truncating `int` division;
- `Integer.parseInt` / `Long.parseLong` with a radix;
- `String.valueOf(int)`, `%02d` and `%06x`;
- `Float.parseFloat` in decimal notation;
- `trim`, ASCII `toLowerCase`, `split` and `indexOf`.

Java `float` arithmetic is modelled on exact reals, followed by the explicit `(int)` cast.
Things the program gets from outside are inputs to the model:

- font metrics (`Graphics.Metrics`);
- what reading an image file does (`LoadOutcome`);
- what reading a script file does (`ScriptRead`);
- the working directory.

Paths in the table are relative to the repository root. Most are under
`src/org/osumercury/badgemaker/`.

## Model

| member | source | states |
|---|---|---|
| Badges.Badge.constructor | src/org/osumercury/badgemaker/Badge.java:56-71 | The texts, number and background are as given. Each colour is `parseHexColor` of its code. The fit is to the width, in the middle, at 2.5 in × 1.25 at 300 dpi, with no extra data and no cached render. |
| Badges.Badge.SetProportion | src/org/osumercury/badgemaker/Badge.java:73-77 | The proportion takes the value and the cached render is discarded. No other field changes. |
| Badges.Badge.SetResolution | src/org/osumercury/badgemaker/Badge.java:79-83 | The resolution takes the value and the cached render is discarded. No other field changes. |
| Badges.Badge.SetWidth | src/org/osumercury/badgemaker/Badge.java:85-89 | The width takes the value and the cached render is discarded. No other field changes. |
| Badges.Badge.SetBackgroundFit | src/org/osumercury/badgemaker/Badge.java:96-98 | The fit takes the value. The cached render is kept, and every other field too. |
| Badges.Badge.SetBackgroundVerticalPosition | src/org/osumercury/badgemaker/Badge.java:100-102 | The vertical position takes the value. The cached render and every other field are kept. |
| Badges.Badge.AddExtraData | src/org/osumercury/badgemaker/Badge.java:104-106 | The line is appended at the end of the extra data. Nothing else changes. |
| Badges.Badge.GetHeight | src/org/osumercury/badgemaker/Badge.java:124-126 | Truncated at the resolution, the height in inches gives exactly the pixel height `getPixelDimension` reports. It is non-negative for a non-negative width and proportion. |
| Badges.Badge.Render | src/org/osumercury/badgemaker/Badge.java:132-134 | The result is the renderer applied to the badge. On success it becomes the cached render. A throwing renderer leaves the cache as it was. The badge's data is unchanged. |
| Badges.Badge.GetImage | src/org/osumercury/badgemaker/Badge.java:136-141 | A cached render is returned untouched. Without one, the badge is rendered and the result cached. The badge's data is unchanged. |
| Badges.PixelSize | src/org/osumercury/badgemaker/Badge.java:91-94 | For non-negative factors, and lengths below 2^31, each pixel side is the physical length in dots truncated: it lies within one pixel below that length. |
| Badges.DefaultPixelSize | src/org/osumercury/badgemaker/Badge.java:52-54 | The default badge is 750 × 937 pixels: the height 937.5 is truncated, not rounded. |
| Badges.TinyBadgeIsEmpty | src/org/osumercury/badgemaker/Badge.java:91-94 | Nothing clamps the pixel size: a 0.001 in badge is 0 × 0. |
| Graphics.Opaque | src/org/osumercury/badgemaker/ImageTools.java:89 | `new Color(rgb)` keeps the low 24 bits with alpha 255. |
| Renderers.Renderer.constructor | src/org/osumercury/badgemaker/Renderer.java:37-44 | A new renderer has declared no properties. |
| Renderers.Renderer.AddProperty | src/org/osumercury/badgemaker/Renderer.java:37-39 | Appends one property with an empty default. Earlier declarations are kept, in order. |
| Renderers.Renderer.AddPropertyWithDefault | src/org/osumercury/badgemaker/Renderer.java:41-44 | Appends one property with exactly the given key, type, default and description. |
| Renderers.Renderer.SetProperty | src/org/osumercury/badgemaker/Renderer.java:55 | The base `setProperty` leaves the registry unchanged. |
| Renderers.Keys | src/org/osumercury/badgemaker/Renderer.java:57-59 | The keys of the declared properties, position by position. |
| Renderers.KeysAppend | src/org/osumercury/badgemaker/Renderer.java:41-44 | Declaring a property appends its key and moves no earlier key. |
| ImageTools.StripHash | src/org/osumercury/badgemaker/ImageTools.java:83-85 | One leading `#` is removed when present. Otherwise the code is kept whole. |
| ImageTools.ParseHexColor | src/org/osumercury/badgemaker/ImageTools.java:81-107 | Any number of digits other than six or eight after the optional `#` gives black. Six digits always give an opaque colour. The exact values are in `ParseHexColorCases`. |
| ImageTools.ParseHexColorCases | src/org/osumercury/badgemaker/ImageTools.java:81-107 | Six digits give the `int` parse with alpha 255 and its low 24 bits as RGB. Eight digits give the `long` parse's low 32 bits as ARGB. Any other length, or a parse error, gives black. |
| ImageTools.ParseHexColorOrNull | src/org/osumercury/badgemaker/ImageTools.java:101-106 | A null code gives black; the NullPointerException is caught. |
| ImageTools.ParseHex6 | src/org/osumercury/badgemaker/ImageTools.java:88-93 | Six lower-case hex digits parse back to the value they print, under both the `int` and the `long` parser. |
| ImageTools.ParseHexColorOpaque | src/org/osumercury/badgemaker/ImageTools.java:81-90 | `%06x` of an RGB value parses back to that colour, opaque, with or without `#`. |
| ImageTools.ParseHexColorArgb | src/org/osumercury/badgemaker/ImageTools.java:91-93 | Eight digits `aarrggbb` give exactly the ARGB colour they spell, alpha included. |
| ImageTools.DoubleHashIsBlack | src/org/osumercury/badgemaker/ImageTools.java:83-106 | Only one `#` is stripped, so `##rrggbb` fails to parse and gives black. |
| ImageTools.SignedCodeAccepted | src/org/osumercury/badgemaker/ImageTools.java:88-90 | The Java parser accepts a sign: `-00001` is white. |
| ImageTools.ScaleSize | src/org/osumercury/badgemaker/ImageTools.java:62-79 | `scale` and `fastScale` never request a zero side. Only 0 is changed, to 1; every other value, negatives included, is kept. |
| ImageTools.FitText | src/org/osumercury/badgemaker/ImageTools.java:134-138 | The fitted width never exceeds the limit. When the width carried from the requested height fits, the height is kept; otherwise the width is exactly the limit. For non-negative sizes the fitted box keeps the text's aspect ratio to within a pixel: `w·gh − h·gw` lies strictly between `−gh` and `gw`. |
| ImageTools.FitTextShrinks | src/org/osumercury/badgemaker/ImageTools.java:134-138 | With a non-negative height and limit, the fitted text lies within both requests. |
| ImageTools.Carry | src/org/osumercury/badgemaker/ImageTools.java:134 | `(int)((float)n / from * to)` carries a length to the other side of a picture: for non-negative sizes below the `int` range, `n·to − c·from` lies in `[0, from)`, so the ratio is kept to within a pixel. |
| ImageTools.ProportionalBelow | src/org/osumercury/badgemaker/ImageTools.java:135-137 | When the width overshoots the limit, the height carried back from the limit is at most the requested height. |
| ImageTools.DrawString | src/org/osumercury/badgemaker/ImageTools.java:118-140 | Fails exactly when the metrics give an empty text buffer. Otherwise it is the text in that font and colour, at `FitText`'s size for the measured buffer after `scale`'s 0-to-1 clamp: no zero side, and no wider than the limit (one pixel wide for a zero limit). |
| ImageTools.AlphaOf | src/org/osumercury/badgemaker/ImageTools.java:152 | `rgb >> 24 & 0xff` is a byte. |
| ImageTools.ScaleAlpha | src/org/osumercury/badgemaker/ImageTools.java:153 | A non-negative percentage of an alpha byte, truncated, is non-negative. |
| ImageTools.PercentBounds | src/org/osumercury/badgemaker/ImageTools.java:153 | A percentage up to 100 scales a value down. One from 100 scales it up. |
| ImageTools.WithAlpha | src/org/osumercury/badgemaker/ImageTools.java:151-156 | A pixel keeps its RGB bits. Its alpha becomes the scaled alpha, capped at 255. |
| ImageTools.WithAlphaIdentity | src/org/osumercury/badgemaker/ImageTools.java:151-156 | A multiplier of 100 leaves every pixel unchanged. |
| ImageTools.WithAlphaZero | src/org/osumercury/badgemaker/ImageTools.java:151-156 | A multiplier of 0 makes every pixel fully transparent and keeps its colour. |
| ImageTools.WithAlphaMonotone | src/org/osumercury/badgemaker/ImageTools.java:151-156 | A multiplier up to 100 never raises a pixel's alpha. One from 100 never lowers it. |
| ImageTools.ScaleAlphaMonotone | src/org/osumercury/badgemaker/ImageTools.java:153-154 | The same for the scaled alpha before the cap. |
| ImageTools.SetAlpha | src/org/osumercury/badgemaker/ImageTools.java:142-159 | For an ARGB image every pixel becomes `WithAlpha` of its old value. Any other image type is unchanged. |
| ImageTools.Lookup | src/org/osumercury/badgemaker/ImageTools.java:43-56 | A cached path is answered from the cache without reading. Otherwise the read result, a null image included, is stored and returned. A failed read stores nothing. |
| ImageTools.LookupTwice | src/org/osumercury/badgemaker/ImageTools.java:47-55 | After a successful `get`, the next `get` of that path returns the same value whatever the file holds. |
| ImageTools.LookupKeepsOthers | src/org/osumercury/badgemaker/ImageTools.java:47-51 | A `get` adds or changes no entry for any other path. |
| ImageTools.ImageCache.constructor | src/org/osumercury/badgemaker/ImageTools.java:37 | The static cache starts unallocated and empty. |
| ImageTools.ImageCache.Get | src/org/osumercury/badgemaker/ImageTools.java:43-56 | Allocates the map on first use. The result and the new table are those of `Lookup`. |
| ImageTools.ImageCache.Invalidate | src/org/osumercury/badgemaker/ImageTools.java:58-60 | Removes exactly that entry. It throws exactly when no `get` has allocated the map yet. |
| Numbers.IntCast | src/org/osumercury/badgemaker/Badge.java:92-93 | Java's `(int)` cast rounds toward zero and saturates at the `int` range. |
| Numbers.Half | src/org/osumercury/badgemaker/renderers/ScriptableRenderer.java:229 | `int` division by 2 rounds toward zero, for negative operands too. |
| Numbers.Centered | src/org/osumercury/badgemaker/renderers/MercuryCertificateRenderer.java:380 | `(int)(len/2.0 - size/2.0)` centres: the two gaps differ by at most one pixel. |
| Numbers.ParseInteger | src/org/osumercury/badgemaker/ImageTools.java:89-92 | `parseInt` / `parseLong` succeed only on a sign and digits of the radix, with a value in range. |
| Numbers.ParseInt | src/org/osumercury/badgemaker/IO.java:424 | `Integer.parseInt` is the radix-10 parse within the `int` range. |
| Numbers.FormatInt | src/org/osumercury/badgemaker/IO.java:305 | `String.valueOf(int)` is non-empty and starts with `-` exactly for a negative number. |
| Numbers.ParseFormatInt | src/org/osumercury/badgemaker/IO.java:305 | `Integer.parseInt` reads back every `int` that `String.valueOf` prints. |
| Numbers.ParseNegative | src/org/osumercury/badgemaker/IO.java:424 | A `-` before digits parses as the negated value when it is in range. |
| Numbers.DecimalDigitsValue | src/org/osumercury/badgemaker/IO.java:305 | The printed digits of a natural number read back as it. |
| Numbers.FormatTwoDigits | src/org/osumercury/badgemaker/renderers/ClassicMercuryBadgeRenderer.java:165 | `%02d` zero-pads one digit to two and prints anything else as `String.valueOf`. |
| Numbers.HexDigitsValue | src/org/osumercury/badgemaker/IO.java:313-318 | `width` hex digits of a value below `16^width` read back as that value. |
| Numbers.Hex6 | src/org/osumercury/badgemaker/IO.java:313-318 | `%06x` of an RGB value is exactly six hex digits. |
| Numbers.ScanUnsigned | src/org/osumercury/badgemaker/renderers/ClassicMercuryBadgeRenderer.java:72 | The magnitude read is never negative; the values read are stated by the `ParseFloat…` lemmas below. |
| Numbers.ParseFloat | src/org/osumercury/badgemaker/renderers/ClassicMercuryBadgeRenderer.java:72 | `Float.parseFloat` fails on a blank string. |
| Numbers.Step | src/org/osumercury/badgemaker/renderers/ClassicMercuryBadgeRenderer.java:72 | One character of the scan: a decimal digit in the whole or fractional part keeps the phase, and no step returns to the whole part. |
| Numbers.AfterDigits | src/org/osumercury/badgemaker/renderers/ClassicMercuryBadgeRenderer.java:72 | After the digits only `e`/`E` (to the exponent) or a type suffix (which ends the number) may follow, and only once a digit has been read. |
| Numbers.ValueOfAppend | src/org/osumercury/badgemaker/renderers/ClassicMercuryBadgeRenderer.java:72 | The value of two digit strings side by side is the first shifted by the second's length plus the second. |
| Numbers.ScanDecimals | src/org/osumercury/badgemaker/renderers/ClassicMercuryBadgeRenderer.java:72 | Scanning a run of decimal digits accumulates exactly their value into the mantissa and their count, and into the fraction count in the fractional part. |
| Numbers.ParseFloatDigits | src/org/osumercury/badgemaker/renderers/ClassicMercuryBadgeRenderer.java:72 | A string of decimal digits parses as its integer value. |
| Numbers.ParseFloatDecimal | src/org/osumercury/badgemaker/renderers/ClassicMercuryBadgeRenderer.java:72 | `a.b` parses as the value of the digits `ab` divided by 10 to the length of `b`; either side may be empty, not both. |
| Numbers.ParseFloatSuffixed | src/org/osumercury/badgemaker/renderers/ClassicMercuryBadgeRenderer.java:72 | A type suffix (`f`, `F`, `d`, `D`) after the digits does not change the value. |
| Numbers.ParseFloatExponent | src/org/osumercury/badgemaker/renderers/ClassicMercuryBadgeRenderer.java:72 | Digits followed by `e` and one digit parse as the value times 10 to that digit. |
| Numbers.ParseFloatExample | src/org/osumercury/badgemaker/renderers/ClassicMercuryBadgeRenderer.java:72 | The default `0.15` parses as 0.15. |
| Strings.Leading | src/org/osumercury/badgemaker/IO.java:411 | `trim` skips exactly the leading run of characters up to U+0020. |
| Strings.Trailing | src/org/osumercury/badgemaker/IO.java:411 | `trim` drops exactly the trailing run of characters up to U+0020. |
| Strings.Trim | src/org/osumercury/badgemaker/IO.java:411 | A trimmed string is empty, or starts and ends with a character above U+0020. |
| Strings.TrimInfix | src/org/osumercury/badgemaker/IO.java:411 | What `trim` keeps is an infix of its input, and all it cuts away is trimmable. |
| Strings.ToLower | src/org/osumercury/badgemaker/IO.java:433 | `toLowerCase` maps each character in place and keeps the length. |
| Strings.LowerOfLower | src/org/osumercury/badgemaker/IO.java:433 | A string without capitals is its own lower case. |
| Strings.IndexOf | src/org/osumercury/badgemaker/renderers/MercuryCertificateRenderer.java:245 | The separator's first occurrence from a position on, or none at all. |
| Strings.IndexOfFirst | src/org/osumercury/badgemaker/renderers/MercuryCertificateRenderer.java:245 | An occurrence with none before it is the one found. |
| Strings.SplitOnce | src/org/osumercury/badgemaker/renderers/MercuryCertificateRenderer.java:245 | `split(sep, 2)` gives one part, the whole string, exactly when `sep` does not occur. Otherwise it gives two parts that joined by `sep` give the string back, cut at the first occurrence (none starts inside the first part). |
| Strings.Fields | src/org/osumercury/badgemaker/renderers/ScriptableRenderer.java:125 | At least one field; none contains the separator; joined with the separator they give the string back. A string without the separator is its own single field, and a non-empty one that does not end in it has a non-empty last field. |
| Strings.FieldsUnique | src/org/osumercury/badgemaker/renderers/ScriptableRenderer.java:125 | The fields are the only cut of the string into separator-free pieces that join back to it. |
| Strings.DropTrailingEmpty | src/org/osumercury/badgemaker/renderers/ScriptableRenderer.java:125 | The result is a prefix of the fields that is empty or ends in a non-empty field, and every field dropped is empty: exactly the trailing empty fields go. |
| Strings.Split | src/org/osumercury/badgemaker/renderers/ScriptableRenderer.java:125 | A string without the separator splits into itself. Otherwise the result is its fields with exactly the trailing empty ones dropped: a prefix of `Fields`, empty or ending in a non-empty field, with only empty fields cut. No part contains the separator. |
| Strings.SplitJoin | src/org/osumercury/badgemaker/renderers/ScriptableRenderer.java:125 | A non-empty line that does not end in the separator loses no field: its split is all its fields and joins back to it. |
| ClassicRenderer.Classic.constructor | src/org/osumercury/badgemaker/renderers/ClassicMercuryBadgeRenderer.java:49-61 | Declares the five properties in order, with the defaults as `%.3f` prints them. Starts from the default settings. |
| ClassicRenderer.Classic.SetProperty | src/org/osumercury/badgemaker/renderers/ClassicMercuryBadgeRenderer.java:63-89 | The new settings and the outcome are those of `Set`. |
| ClassicRenderer.Set | src/org/osumercury/badgemaker/renderers/ClassicMercuryBadgeRenderer.java:63-89 | Only the five keys are known; an unknown key changes nothing. `font` stores the value. Each height key stores exactly the number `Float.parseFloat` reads from the value; a value that does not parse is rejected and the old one kept. `font-bold` is on exactly for `yes`. The font size never changes. |
| ClassicRenderer.SetChangesOneField | src/org/osumercury/badgemaker/renderers/ClassicMercuryBadgeRenderer.java:63-89 | An accepted value changes only the field its key names. |
| ClassicRenderer.BackgroundSize | src/org/osumercury/badgemaker/renderers/ClassicMercuryBadgeRenderer.java:104-126 | FILL scales to the whole badge. FIT_HEIGHT scales to the height between the bands; FIT_WIDTH and any other value to the full width. The other side is carried from the picture's aspect ratio to within a pixel: for FIT_HEIGHT `0 ≤ h·iw − w·ih < ih`, otherwise `0 ≤ w·ih − h·iw < iw`. |
| ClassicRenderer.BackgroundY | src/org/osumercury/badgemaker/renderers/ClassicMercuryBadgeRenderer.java:129-140 | TOP is flush with the top and BOTTOM flush with the bottom. MIDDLE and any other value centre, to within a pixel. |
| ClassicRenderer.BackgroundOps | src/org/osumercury/badgemaker/renderers/ClassicMercuryBadgeRenderer.java:104-143 | Without a background nothing is drawn. With one, exactly that picture is drawn once, at `BackgroundSize` after `scale`'s 0-to-1 clamp, centred horizontally, at the `BackgroundY` of the badge's vertical position. |
| ClassicRenderer.PrimaryPlacement | src/org/osumercury/badgemaker/renderers/ClassicMercuryBadgeRenderer.java:191-213 | The primary text is no wider than the badge less 8%, and horizontally centred to within a pixel. |
| ClassicRenderer.SecondaryPlacement | src/org/osumercury/badgemaker/renderers/ClassicMercuryBadgeRenderer.java:215-242 | The secondary text is fitted by `FitText` to the height `secondaryHeight × h` and to the width left after the number and a quarter of the badge. It starts 6% of the width right of the number and never above the top edge. |
| ClassicRenderer.Scaled | src/org/osumercury/badgemaker/ImageTools.java:62-70 | A drawn placement has no zero side. Non-zero sides are kept. |
| ClassicRenderer.NumberOps | src/org/osumercury/badgemaker/renderers/ClassicMercuryBadgeRenderer.java:165-189 | A number of -1 or below draws nothing and takes no width. Otherwise it is drawn once as `%02d` in the text colour, `NumberWidth` wide and `primaryHeight × h` high (after the clamp), at 2% of the width from the left edge, on the top edge. |
| ClassicRenderer.NumberWidth | src/org/osumercury/badgemaker/renderers/ClassicMercuryBadgeRenderer.java:182-184 | The number's width is its text buffer carried to the height `primaryHeight × h`: `textH·gw − w·gh` lies in `[0, gh)`. |
| ClassicRenderer.Layout | src/org/osumercury/badgemaker/renderers/ClassicMercuryBadgeRenderer.java:91-315 | Succeeds exactly when the badge and each text buffer (number, primary, secondary) are non-empty. Then the raster has the badge's pixel size. It starts with the background fill and ends with the primary text, then the secondary text. |
| ClassicRenderer.PrimaryInStrip | src/org/osumercury/badgemaker/renderers/ClassicMercuryBadgeRenderer.java:201-211 | The primary text stays inside a strip of height `primaryHeight × h` at the bottom of the badge. |
| ClassicRenderer.BottomBand | src/org/osumercury/badgemaker/renderers/ClassicMercuryBadgeRenderer.java:152-157 | Four corners. The bottom edge runs the full width from (0, h) to (w, h), and the top edge is horizontal at `BottomBandTop`. With a fraction between 0 and 1 and non-negative sides, every corner lies inside the badge. |
| ClassicRenderer.PrimaryInBottomBand | src/org/osumercury/badgemaker/renderers/ClassicMercuryBadgeRenderer.java:152-157 | With equal band heights (the default), the primary text lies within the bottom band. |
| ClassicRenderer.BandTopAboveStrip | src/org/osumercury/badgemaker/renderers/ClassicMercuryBadgeRenderer.java:152-157 | The bottom band starts no lower than the text strip of the same fraction. |
| ClassicRenderer.PrimaryOutsideBottomBand | src/org/osumercury/badgemaker/renderers/ClassicMercuryBadgeRenderer.java:146-157 | With unequal heights the primary text leaves the bottom band. At 0.3 and 0.1 on 1000 pixels it starts 200 pixels above the band. |
| ClassicRenderer.SecondaryVertical | src/org/osumercury/badgemaker/renderers/ClassicMercuryBadgeRenderer.java:237-240 | A text no taller than the strip, centred in it, stays inside it. |
| ClassicRenderer.SecondaryHorizontal | src/org/osumercury/badgemaker/renderers/ClassicMercuryBadgeRenderer.java:228-236 | From 50 pixels wide, the text starts after the number and its budget ends before the slant at 85%. |
| ClassicRenderer.TopBand | src/org/osumercury/badgemaker/renderers/ClassicMercuryBadgeRenderer.java:146-151 | Four corners. The top edge runs the full width from (0, 0) to (w, 0), and the lower edge is horizontal. With a fraction between 0 and 1 and non-negative sides, every corner lies inside the badge. |
| ClassicRenderer.SecondaryInTopBand | src/org/osumercury/badgemaker/renderers/ClassicMercuryBadgeRenderer.java:146-151 | With equal heights, the secondary text stays in the flat part of the top band: below the top edge, above `secondaryHeight × h`, right of the number and left of the slant. |
| CertificateRenderer.Certificate.constructor | src/org/osumercury/badgemaker/renderers/MercuryCertificateRenderer.java:68-124 | Declares the 28 properties in order and starts from the default settings. |
| CertificateRenderer.DeclareTextProperties | src/org/osumercury/badgemaker/renderers/MercuryCertificateRenderer.java:69-90 | Appends the eleven text declarations. |
| CertificateRenderer.DeclareStaffProperties | src/org/osumercury/badgemaker/renderers/MercuryCertificateRenderer.java:69-82 | Appends the font, preamble and signatory declarations. |
| CertificateRenderer.DeclareEventProperties | src/org/osumercury/badgemaker/renderers/MercuryCertificateRenderer.java:83-90 | Appends the competition, host and date declarations. |
| CertificateRenderer.DeclareImageProperties | src/org/osumercury/badgemaker/renderers/MercuryCertificateRenderer.java:91-96 | Appends the picture and backdrop declarations; the two paths have no default. |
| CertificateRenderer.DeclareLayoutProperties | src/org/osumercury/badgemaker/renderers/MercuryCertificateRenderer.java:97-122 | Appends the layout and font-size declarations. |
| CertificateRenderer.DeclareHeightProperties | src/org/osumercury/badgemaker/renderers/MercuryCertificateRenderer.java:97-112 | Appends the top padding and the text heights. |
| CertificateRenderer.DeclareSpacingProperties | src/org/osumercury/badgemaker/renderers/MercuryCertificateRenderer.java:113-122 | Appends the signature, logo, spacing and font-size declarations. |
| CertificateRenderer.Certificate.SetProperty | src/org/osumercury/badgemaker/renderers/MercuryCertificateRenderer.java:126-165 | The new settings and the outcome are those of `Set`. |
| CertificateRenderer.SetText | src/org/osumercury/badgemaker/renderers/MercuryCertificateRenderer.java:126-143 | Assigning a text field sets exactly that field. |
| CertificateRenderer.SetFloat | src/org/osumercury/badgemaker/renderers/MercuryCertificateRenderer.java:144-157 | Assigning a float field sets exactly that field. |
| CertificateRenderer.Set | src/org/osumercury/badgemaker/renderers/MercuryCertificateRenderer.java:126-165 | A key is unknown exactly when the `switch` has no case for it. Then nothing changes. Texts and paths are taken as given. A float or font size that does not parse is rejected and changes nothing. The backdrop colour is always set. |
| CertificateRenderer.MalformedBackdropIsBlack | src/org/osumercury/badgemaker/renderers/MercuryCertificateRenderer.java:145 | A malformed backdrop colour is accepted and turns black. |
| CertificateRenderer.TextKeysHandled | src/org/osumercury/badgemaker/renderers/MercuryCertificateRenderer.java:69-90 | Every declared text key has a `setProperty` case. |
| CertificateRenderer.ImageKeysHandled | src/org/osumercury/badgemaker/renderers/MercuryCertificateRenderer.java:91-96 | Every declared picture key has a case of its declared type. |
| CertificateRenderer.LayoutKeysHandled | src/org/osumercury/badgemaker/renderers/MercuryCertificateRenderer.java:97-122 | Every declared layout key has a case of its declared type. |
| CertificateRenderer.DeclaredKeysHandled | src/org/osumercury/badgemaker/renderers/MercuryCertificateRenderer.java:68-165 | Registry and `switch` agree. Every declared key is handled with the parser of its declared type. |
| CertificateRenderer.SwitchedKeysDeclared | src/org/osumercury/badgemaker/renderers/MercuryCertificateRenderer.java:126-165 | Every key the `switch` accepts is declared, with the type it is parsed as. `DeclaredKeysHandled` is the converse. |
| CertificateRenderer.PrefixSplit | src/org/osumercury/badgemaker/renderers/MercuryCertificateRenderer.java:245 | A line that starts with the prefix splits at the end of the prefix. |
| CertificateRenderer.LineOverrideValue | src/org/osumercury/badgemaker/renderers/MercuryCertificateRenderer.java:244-248 | A line overrides exactly when its trimmed form starts with `text-participation::`. Its value is everything after the prefix, later `::` included. |
| CertificateRenderer.LatestLastWins | src/org/osumercury/badgemaker/renderers/MercuryCertificateRenderer.java:242-250 | With no picking item the initial value stays. Otherwise the last picking item wins. |
| CertificateRenderer.LatestSnoc | src/org/osumercury/badgemaker/renderers/MercuryCertificateRenderer.java:243-249 | One more item replaces the value exactly when it picks one. |
| CertificateRenderer.Latest | src/org/osumercury/badgemaker/renderers/MercuryCertificateRenderer.java:243-250 | The result is the initial value or the value some item picks. |
| CertificateRenderer.Participation | src/org/osumercury/badgemaker/renderers/MercuryCertificateRenderer.java:242-250 | The participation text is the configured one or the override of some extra-data line. |
| CertificateRenderer.ParticipationText | src/org/osumercury/badgemaker/renderers/MercuryCertificateRenderer.java:242-250 | The loop over the extra data computes `Participation`. |
| CertificateRenderer.ParticipationLastWins | src/org/osumercury/badgemaker/renderers/MercuryCertificateRenderer.java:242-250 | The last overriding extra-data line wins. With none, the configured participation text stays. |
| CertificateRenderer.FirstInvalid | src/org/osumercury/badgemaker/renderers/MercuryCertificateRenderer.java:227-374 | Rendering fails exactly when some text buffer of the twelve is empty. |
| CertificateRenderer.BlockOps | src/org/osumercury/badgemaker/renderers/MercuryCertificateRenderer.java:376-396 | A block ends with its text drawn at the cursor, centred across the page at its scaled size. |
| CertificateRenderer.Tops | src/org/osumercury/badgemaker/renderers/MercuryCertificateRenderer.java:376-444 | There is one cursor position per block of the column. |
| CertificateRenderer.Stack | src/org/osumercury/badgemaker/renderers/MercuryCertificateRenderer.java:376-444 | There is one command group per block. |
| CertificateRenderer.StackAt | src/org/osumercury/badgemaker/renderers/MercuryCertificateRenderer.java:376-444 | Block `k` is drawn at the `k`-th cursor position. |
| CertificateRenderer.StackCons | src/org/osumercury/badgemaker/renderers/MercuryCertificateRenderer.java:384 | The column is the first block at the cursor, then the rest one advance lower. |
| CertificateRenderer.Column | src/org/osumercury/badgemaker/renderers/MercuryCertificateRenderer.java:376-444 | The cursor moving down block by block draws exactly the text column. |
| CertificateRenderer.DrawBlock | src/org/osumercury/badgemaker/renderers/MercuryCertificateRenderer.java:384-396 | One step draws block `i` at the cursor and moves the cursor by its height plus spacing. |
| CertificateRenderer.Blocks | src/org/osumercury/badgemaker/renderers/MercuryCertificateRenderer.java:227-374 | Eight text blocks, each carrying its own text's measured buffer size. The team name is bold and white, with the only backdrop, in the `text-background` colour. The institution and the participation text come third and fourth. The last block, the date, adds no spacing after it. |
| CertificateRenderer.BlocksMeasured | src/org/osumercury/badgemaker/renderers/MercuryCertificateRenderer.java:227-374 | When every text can be rasterised, every block and both fonts have a positive height. |
| CertificateRenderer.Loaded | src/org/osumercury/badgemaker/renderers/MercuryCertificateRenderer.java:180-202 | A picture is drawn only when its path is set and reads as that picture. |
| CertificateRenderer.Layout | src/org/osumercury/badgemaker/renderers/MercuryCertificateRenderer.java:167-483 | Succeeds exactly when the page and all twelve text buffers are non-empty. Then the raster has the page's pixel size and starts with the background fill. |
| CertificateRenderer.Page | src/org/osumercury/badgemaker/renderers/MercuryCertificateRenderer.java:167-483 | The page has the given size and starts with the fill. |
| CertificateRenderer.PageAt | src/org/osumercury/badgemaker/renderers/MercuryCertificateRenderer.java:376-483 | The page with its column from a given row has the given size and starts with the fill. |
| CertificateRenderer.PageHead | src/org/osumercury/badgemaker/renderers/MercuryCertificateRenderer.java:177-210 | The page starts with the background-colour fill over the whole page, then the background picture when its path loads, then the logo when its path loads, each placed as `BackgroundOps` / `LogoOps` say, and nothing else. |
| CertificateRenderer.BackgroundOps | src/org/osumercury/badgemaker/renderers/MercuryCertificateRenderer.java:180-194 | Nothing is drawn without a loaded picture. With one, it is drawn once, `backgroundHeight` of the page high, its width carried from its aspect ratio, centred both ways. |
| CertificateRenderer.LogoOps | src/org/osumercury/badgemaker/renderers/MercuryCertificateRenderer.java:196-210 | Nothing is drawn without a loaded logo. With one, it is drawn once, `logoHeight` of the page high, its width carried from its aspect ratio, centred horizontally, its top at `(1 − 0.05 − logoHeight)` of the page. |
| CertificateRenderer.StaffText | src/org/osumercury/badgemaker/renderers/MercuryCertificateRenderer.java:456-476 | A staff text is one sprite at the row's `y`, its height the requested one after the clamp, centred on the column's centre to within a pixel. |
| CertificateRenderer.SignatureOps | src/org/osumercury/badgemaker/renderers/MercuryCertificateRenderer.java:446-476 | Two black signature lines at `signaturesPosition` of the page, left and right; then the advisor's and the president's names in bold on one row, and their titles in plain on the next. With non-negative spacing the names start below the lines and the titles no higher than the names. |
| CertificateRenderer.DrawPage | src/org/osumercury/badgemaker/renderers/MercuryCertificateRenderer.java:167-483 | Drawing step by step yields `Page`. |
| CertificateRenderer.Certificate.Render | src/org/osumercury/badgemaker/renderers/MercuryCertificateRenderer.java:167-483 | The render computed step by step is `Layout` of the current settings. |
| CertificateRenderer.AdvanceCoversBlock | src/org/osumercury/badgemaker/renderers/MercuryCertificateRenderer.java:384 | With non-negative height and spacing, the cursor moves down at least the block's height. |
| CertificateRenderer.TopsBelowStart | src/org/osumercury/badgemaker/renderers/MercuryCertificateRenderer.java:376-444 | No block starts above `topPadding`. |
| CertificateRenderer.ColumnDisjoint | src/org/osumercury/badgemaker/renderers/MercuryCertificateRenderer.java:376-444 | With non-negative heights and spacings, every block ends at or above the start of each later block. |
| CertificateRenderer.TopsAdvance | src/org/osumercury/badgemaker/renderers/MercuryCertificateRenderer.java:376-444 | The first block is at `topPadding`. Each next one is one truncated height-plus-spacing lower. |
| CertificateRenderer.BackdropFramesName | src/org/osumercury/badgemaker/renderers/MercuryCertificateRenderer.java:390-396 | The rounded backdrop has the name's top and height, and reaches at least as far on both sides. |
| CertificateRenderer.LogoAboveBottomMargin | src/org/osumercury/badgemaker/renderers/MercuryCertificateRenderer.java:204-210 | A logo at most 95% of the page tall ends no lower than 95% of the page height. |
| CertificateRenderer.SignatureLinesApart | src/org/osumercury/badgemaker/renderers/MercuryCertificateRenderer.java:446-453 | From 10 pixels wide, both signature lines are on the page, left first, without touching. |
| ScriptRenderer.Scriptable.constructor | src/org/osumercury/badgemaker/renderers/ScriptableRenderer.java:50-53 | Declares only `script-file`. Starts with no script and font size 200. |
| ScriptRenderer.Scriptable.SetProperty | src/org/osumercury/badgemaker/renderers/ScriptableRenderer.java:55-82 | The new settings and the outcome are those of `Set`. |
| ScriptRenderer.Set | src/org/osumercury/badgemaker/renderers/ScriptableRenderer.java:55-82 | `initial-font-size` takes a parsable `int` and otherwise keeps the old one. `script-file` records the name, lines and parent directory. An I/O failure clears all three. An unknown key changes nothing. |
| ScriptRenderer.ParentOf | src/org/osumercury/badgemaker/renderers/ScriptableRenderer.java:67 | A path without `/` has no parent. A parent is a proper prefix of the path. |
| ScriptRenderer.LastIndex | src/org/osumercury/badgemaker/renderers/ScriptableRenderer.java:67 | The last occurrence of a character, or none exactly when it does not occur. |
| ScriptRenderer.Scriptable.Render | src/org/osumercury/badgemaker/renderers/ScriptableRenderer.java:84-194 | The render through the shared cache is `Layout`. That includes the raster, the log and the cache left behind. |
| ScriptRenderer.Layout | src/org/osumercury/badgemaker/renderers/ScriptableRenderer.java:84-194 | Succeeds exactly when the badge has pixels, and starts with the background fill. Without a script only "undefined" is logged and the cache is untouched. Otherwise each line contributes at most one op or one log entry. |
| ScriptRenderer.Interpret | src/org/osumercury/badgemaker/renderers/ScriptableRenderer.java:111-191 | Each line yields at most one op or one log entry. The log names each failed line by its 1-based number and its text, in increasing line order. |
| ScriptRenderer.RunScript | src/org/osumercury/badgemaker/renderers/ScriptableRenderer.java:111-191 | The loop over the lines through the cache computes `Interpret`. |
| ScriptRenderer.ScriptOpsFromLines | src/org/osumercury/badgemaker/renderers/ScriptableRenderer.java:111-191 | A script split in two draws the first part, then the second from the cache the first leaves. |
| ScriptRenderer.SkipNonSpace | src/org/osumercury/badgemaker/renderers/ScriptableRenderer.java:116 | `\S*` ends at the first space character or at the end of the line. |
| ScriptRenderer.SkipSpace | src/org/osumercury/badgemaker/renderers/ScriptableRenderer.java:116 | `\s*` ends at the first non-space character or at the end of the line. |
| ScriptRenderer.QuoteEnd | src/org/osumercury/badgemaker/renderers/ScriptableRenderer.java:116 | `".+?"` ends after at least one character and the closing quote. |
| ScriptRenderer.MatchAt | src/org/osumercury/badgemaker/renderers/ScriptableRenderer.java:116-117 | A match is non-empty and starts with its first character. Every non-quote character starts one. |
| ScriptRenderer.Unquote | src/org/osumercury/badgemaker/renderers/ScriptableRenderer.java:118 | `replaceAll("\"", "")` leaves no quote and changes nothing in a quote-free token. |
| ScriptRenderer.Tokens | src/org/osumercury/badgemaker/renderers/ScriptableRenderer.java:115-118 | Every match takes at least one character, so a line of n characters has at most n tokens. `TokensUnquoted` states that the quotes are stripped. |
| ScriptRenderer.TokensCount | src/org/osumercury/badgemaker/renderers/ScriptableRenderer.java:116-118 | From any position, `find()` yields no more tokens than there are characters left. |
| ScriptRenderer.Tokenize | src/org/osumercury/badgemaker/renderers/ScriptableRenderer.java:115-118 | The `find()` loop computes `Tokens`. |
| ScriptRenderer.TokensUnquoted | src/org/osumercury/badgemaker/renderers/ScriptableRenderer.java:118 | No token contains a double quote. |
| ScriptRenderer.IndentedFirstToken | src/org/osumercury/badgemaker/renderers/ScriptableRenderer.java:116 | An indented line keeps its leading space in the first token. |
| ScriptRenderer.WordsRoundTrip | src/org/osumercury/badgemaker/renderers/ScriptableRenderer.java:115-118 | Words joined by single spaces tokenize back to exactly those words. |
| ScriptRenderer.EmptyLineHasNoTokens | src/org/osumercury/badgemaker/renderers/ScriptableRenderer.java:117 | An empty line has no tokens. |
| ScriptRenderer.At | src/org/osumercury/badgemaker/renderers/ScriptableRenderer.java:119 | `tokens.get(i)` fails exactly when `i` is out of bounds. |
| ScriptRenderer.FloatOf | src/org/osumercury/badgemaker/renderers/ScriptableRenderer.java:126 | `Float.parseFloat` as a line failure. |
| ScriptRenderer.PercentageWithin | src/org/osumercury/badgemaker/renderers/ScriptableRenderer.java:231 | A percentage between 0 and 100 of a pixel count stays within it. |
| ScriptRenderer.ParsePosition | src/org/osumercury/badgemaker/renderers/ScriptableRenderer.java:220-233 | Fails exactly when the value is neither a keyword nor a number `Float.parseFloat` reads. A number is that percentage of the extent, truncated. The keywords are in `PositionFlush` and `PositionCentred`. |
| ScriptRenderer.PositionFlush | src/org/osumercury/badgemaker/renderers/ScriptableRenderer.java:222-227 | `left` and `top` give 0. `right` and `bottom` put the far side on the far edge. |
| ScriptRenderer.PositionCentred | src/org/osumercury/badgemaker/renderers/ScriptableRenderer.java:228-229 | `centered` margins differ by at most one pixel. A side that fits stays inside. |
| ScriptRenderer.CentredOverhang | src/org/osumercury/badgemaker/renderers/ScriptableRenderer.java:229 | Truncating division: a side 3 pixels too wide hangs out 1 pixel on the left. |
| ScriptRenderer.PositionPercent | src/org/osumercury/badgemaker/renderers/ScriptableRenderer.java:230-231 | A percentage between 0 and 100 lands inside the extent. |
| ScriptRenderer.ParseColor | src/org/osumercury/badgemaker/renderers/ScriptableRenderer.java:235-246 | `bg`, `textbg` and `text` name the badge's colours. Anything else is a hex code. |
| ScriptRenderer.VertexOnBadge | src/org/osumercury/badgemaker/renderers/ScriptableRenderer.java:126-127 | Percentages between 0 and 100 give a vertex on the badge. |
| ScriptRenderer.PointParsed | src/org/osumercury/badgemaker/renderers/ScriptableRenderer.java:125-128 | Two numeric comma-separated fields give the vertex at those percentages. |
| ScriptRenderer.PointNeedsComma | src/org/osumercury/badgemaker/renderers/ScriptableRenderer.java:125-127 | A vertex token with no comma fails the line: `coords[1]` is out of bounds. |
| ScriptRenderer.Points | src/org/osumercury/badgemaker/renderers/ScriptableRenderer.java:124-129 | A successful vertex list has one point per token. |
| ScriptRenderer.PointsFailEarly | src/org/osumercury/badgemaker/renderers/ScriptableRenderer.java:124-129 | Once a prefix of the vertex list fails, the whole list fails the same way. |
| ScriptRenderer.PointsStep | src/org/osumercury/badgemaker/renderers/ScriptableRenderer.java:124-129 | Each token extends the vertex list or fails the whole polygon. |
| ScriptRenderer.BuildPolygon | src/org/osumercury/badgemaker/renderers/ScriptableRenderer.java:120-136 | The loop over the vertex tokens computes `Polygon`. |
| ScriptRenderer.Polygon | src/org/osumercury/badgemaker/renderers/ScriptableRenderer.java:120-135 | A polygon line without a colour fails on token 1. Otherwise it succeeds exactly when every vertex parses; it is filled for `polyfill` and stroked otherwise, in the parsed colour, with one vertex per token after the colour. |
| ScriptRenderer.Instruction | src/org/osumercury/badgemaker/renderers/ScriptableRenderer.java:119-150 | A first word that is not `polyfill`, `polyedge` or a text keyword draws nothing and does not fail. `polyfill` draws a filled polygon, `polyedge` a stroked one, a text keyword a sprite, and a polygon line fails exactly when `Polygon` does. |
| ScriptRenderer.Rasterized | src/org/osumercury/badgemaker/renderers/ScriptableRenderer.java:208-209 | A `drawString` failure becomes the line's failure. |
| ScriptRenderer.DrawText | src/org/osumercury/badgemaker/renderers/ScriptableRenderer.java:196-218 | A drawn text needs seven tokens. It is the text in the font and colour the tokens name. |
| ScriptRenderer.DrawTextCentred | src/org/osumercury/badgemaker/renderers/ScriptableRenderer.java:211-217 | The text is centred in its box to within a pixel, and no wider than the box. |
| ScriptRenderer.BlitPath | src/org/osumercury/badgemaker/renderers/ScriptableRenderer.java:154-155 | A path exists exactly when the script has a directory and the line a file token. |
| ScriptRenderer.Absolute | src/org/osumercury/badgemaker/renderers/ScriptableRenderer.java:154 | An absolute path is kept as it is. |
| ScriptRenderer.BlitDraw | src/org/osumercury/badgemaker/renderers/ScriptableRenderer.java:158-179 | A blit draws the fetched picture, with no zero side. It has an alpha exactly when the line has seven tokens, and the alpha is token 6's `int`. |
| ScriptRenderer.Alpha | src/org/osumercury/badgemaker/renderers/ScriptableRenderer.java:174-178 | The alpha token must parse as an `int`. |
| ScriptRenderer.TextSource | src/org/osumercury/badgemaker/renderers/ScriptableRenderer.java:137-152 | `primarytext`, `secondarytext` and `number` draw the badge's texts and `String.valueOf` of its number. `text` draws token 1 and needs it. |
| ScriptRenderer.Step | src/org/osumercury/badgemaker/renderers/ScriptableRenderer.java:112-189 | An empty line fails for want of a first token. A line other than `blit` executes its instruction and leaves the image cache as it was. No line removes or changes an image already cached. |
| ScriptRenderer.ExecuteLine | src/org/osumercury/badgemaker/renderers/ScriptableRenderer.java:112-189 | One line through the shared cache does what `Step` says. |
| ScriptRenderer.Record | src/org/osumercury/badgemaker/renderers/ScriptableRenderer.java:182-190 | A drawn line appends its op. A failed line is logged with its number and text, and draws nothing. The cache carries on. |
| ScriptRenderer.RunLines | src/org/osumercury/badgemaker/renderers/ScriptableRenderer.java:111-191 | Each line yields at most one op or one log entry. |
| ScriptRenderer.RunLinesSnoc | src/org/osumercury/badgemaker/renderers/ScriptableRenderer.java:111-191 | Running one more line records its outcome after the lines before it. |
| ScriptRenderer.RunLinesAppend | src/org/osumercury/badgemaker/renderers/ScriptableRenderer.java:111-191 | Running `a` then `b` is running `b` from the cache `a` leaves, with its log lines moved on by `|a|`. |
| ScriptRenderer.LogNamesLines | src/org/osumercury/badgemaker/renderers/ScriptableRenderer.java:182-190 | Every log entry names a failed line by its 1-based number and its text. |
| ScriptRenderer.LogInOrder | src/org/osumercury/badgemaker/renderers/ScriptableRenderer.java:182-190 | Failures are logged in increasing line order. |
| ScriptRenderer.RunLinesKeepsCache | src/org/osumercury/badgemaker/renderers/ScriptableRenderer.java:111-191 | Lines that each leave the cache alone leave it alone together. |
| ScriptRenderer.StepKeepsCache | src/org/osumercury/badgemaker/renderers/ScriptableRenderer.java:153-157 | Only `blit` consults the image cache. |
| ScriptRenderer.NoBlitKeepsCache | src/org/osumercury/badgemaker/renderers/ScriptableRenderer.java:111-191 | A script without `blit` leaves the image cache as it was. |
| ScriptRenderer.EmptyLineFails | src/org/osumercury/badgemaker/renderers/ScriptableRenderer.java:119 | An empty line has no token 0 and fails. |
| ScriptRenderer.IndentedLineIgnored | src/org/osumercury/badgemaker/renderers/ScriptableRenderer.java:116-119 | An indented line is no instruction and is silently ignored. |
| ScriptRenderer.UnknownWordIgnored | src/org/osumercury/badgemaker/renderers/ScriptableRenderer.java:119-181 | An unknown first word draws nothing and fails nothing. |
| ScriptRenderer.NumberDrawnAsDecimal | src/org/osumercury/badgemaker/renderers/ScriptableRenderer.java:145-147 | `number` draws `String.valueOf` of the number, which `Integer.parseInt` reads back. |
| Packer.Points | src/org/osumercury/badgemaker/IO.java:54-55 | A non-negative length stays non-negative in PDF units. |
| Packer.OneInch | src/org/osumercury/badgemaker/IO.java:54-55 | One inch and 25.4 mm are both 72 PDF units. |
| Packer.GeometryOf | src/org/osumercury/badgemaker/IO.java:69-72 | The usable area is the page less two margins each way. The page sides are the page size's, possibly swapped. |
| Packer.LandscapeSwaps | src/org/osumercury/badgemaker/IO.java:69-70 | Landscape is portrait on the page turned a quarter. |
| Packer.Advance | src/org/osumercury/badgemaker/IO.java:83-171 | One iteration processes one badge. |
| Packer.Place | src/org/osumercury/badgemaker/IO.java:157-167 | Placing processes one badge and opens no page. |
| Packer.GeneratePdf | src/org/osumercury/badgemaker/IO.java:41-199 | An empty list produces no document. Otherwise the loop's document is `DocumentOf`. |
| Packer.PlaceNext | src/org/osumercury/badgemaker/IO.java:84-170 | One loop body, on separate cursor variables, is `Advance`. |
| Packer.Fold | src/org/osumercury/badgemaker/IO.java:83-171 | The loop never goes back. It stops only at the end of the list or at a step that does not advance, and with steps of at most one badge it stops at the end. |
| Packer.Pack | src/org/osumercury/badgemaker/IO.java:83-171 | The loop visits every badge from `s.count` to the end of the list. |
| Packer.DocumentOf | src/org/osumercury/badgemaker/IO.java:41-199 | The page is the configured page, turned for landscape. An empty list gives no pages and no badges. |
| Packer.PackStep | src/org/osumercury/badgemaker/IO.java:83-171 | The loop is one iteration followed by the rest. |
| Packer.PackedLayout | src/org/osumercury/badgemaker/IO.java:111-167 | With non-negative spacing and sizes, each converted badge is drawn at its own size, in input order. No two badges on a page overlap. Each badge starts its row or ends within the usable width. |
| Packer.PackKeepsGood | src/org/osumercury/badgemaker/IO.java:83-171 | The loop keeps the layout invariant. |
| Packer.AdvanceKeepsGood | src/org/osumercury/badgemaker/IO.java:84-170 | One iteration keeps the layout invariant. |
| Packer.PlaceKeepsGood | src/org/osumercury/badgemaker/IO.java:157-167 | Placing a converted badge keeps the layout invariant. |
| Packer.PlaceAfter | src/org/osumercury/badgemaker/IO.java:157-167 | A new badge comes after every earlier one: on a later page, or on the same page with its lower edge no lower than the earlier one's (PDF y grows upward), without overlapping it, the earlier one staying behind the cursor. |
| Packer.PlaceNew | src/org/osumercury/badgemaker/IO.java:157-167 | The new badge is the list's badge at its own size. It fits its row. |
| Packer.Settled | src/org/osumercury/badgemaker/IO.java:111-149 | Settling places no badge and moves no badge on. Afterwards a page is open. A new page is opened exactly when `OpensPage` holds; otherwise nothing changes. |
| Packer.SettledKeepsGood | src/org/osumercury/badgemaker/IO.java:111-149 | Opening a page keeps the invariant. |
| Packer.PackCount | src/org/osumercury/badgemaker/IO.java:151-170 | The loop adds one placement per converted badge. |
| Packer.EveryConvertedPlaced | src/org/osumercury/badgemaker/IO.java:151-170 | Exactly the converted badges are drawn. |
| Packer.Converted | src/org/osumercury/badgemaker/IO.java:168-170 | There are at most as many converted badges as badges. |
| Packer.SomePage | src/org/osumercury/badgemaker/IO.java:111-149 | A non-empty list gives at least one page. |
| Packer.PackPagesGrow | src/org/osumercury/badgemaker/IO.java:111-149 | Pages are never removed. |
| Packer.NewPageRule | src/org/osumercury/badgemaker/IO.java:111-115 | A later badge opens a page exactly when both the row and the next-row checks fail. Otherwise it opens no page. |
| Packer.FailedConversionKeepsCursors | src/org/osumercury/badgemaker/IO.java:151-170 | A badge whose image fails moves no cursor and is not drawn. |
| Packer.WrapBelowTallest | src/org/osumercury/badgemaker/IO.java:157-162 | A row wrap starts the next row above the tallest badge of the page so far, not of the row: one half-inch badge then two inch-wide ones put the third 36 units above the second. |
| Packer.RowCanOverflowPage | src/org/osumercury/badgemaker/IO.java:111-115 | The next-row check ignores the new badge's height in `largestH`: a badge can be drawn past the top edge of the page. |
| Packer.FreshPageCorner | src/org/osumercury/badgemaker/IO.java:145-167 | A badge that opens a page goes to its lower-left corner (the PDF origin), one spacing in. |
| Packer.WideBadgeDropsARow | src/org/osumercury/badgemaker/IO.java:158-162 | A badge wider than the usable width is drawn one row up on its fresh page, its lower edge at margin + its own height + spacing. |
| Csv.FitToken | src/org/osumercury/badgemaker/IO.java:319-328 | FIT_WIDTH writes `fit_width` and FIT_HEIGHT writes `fit_height`. Anything else writes no field. |
| Csv.Fields | src/org/osumercury/badgemaker/IO.java:304-329 | A record has seven fixed fields, the fit token (if any), then the extra data. |
| Csv.FixedFields | src/org/osumercury/badgemaker/IO.java:305-318 | There are seven fixed columns. |
| Csv.SaveFields | src/org/osumercury/badgemaker/IO.java:304-329 | The `fields` list built for one badge is `Fields`. |
| Csv.AddAll | src/org/osumercury/badgemaker/IO.java:326-328 | Adding each item appends them all, in order. |
| Csv.Each | src/org/osumercury/badgemaker/IO.java:302-336 | One result per element. |
| Csv.EachAt | src/org/osumercury/badgemaker/IO.java:302-336 | Element `k` of the mapped list is `f` of element `k`. |
| Csv.Saved | src/org/osumercury/badgemaker/IO.java:302-336 | One record per badge. |
| Csv.SavedFields | src/org/osumercury/badgemaker/IO.java:302-336 | Record `k` holds the fields of badge `k`. |
| Csv.SavedSnoc | src/org/osumercury/badgemaker/IO.java:302-336 | Saving one more badge appends its record. |
| Csv.SaveCsv | src/org/osumercury/badgemaker/IO.java:280-351 | The records written are those of the badges up to and including the first badge whose background PNG fails to be written, since the exception leaves the loop; all of them when every write succeeds. |
| Csv.SavedCount | src/org/osumercury/badgemaker/IO.java:285-336 | The number of records is the position of the first failed image write, plus one, or every badge when none fails. Every badge before the last saved one wrote its image. |
| Csv.SavedCountAll | src/org/osumercury/badgemaker/IO.java:285-336 | Every record is written iff no image write fails before the last badge. |
| Csv.SavedPrefix | src/org/osumercury/badgemaker/IO.java:291-334 | The records of an interrupted save are the first records of the complete one. |
| Csv.SaveNext | src/org/osumercury/badgemaker/IO.java:302-336 | One iteration extends the records by the next badge's. |
| Csv.BackgroundColumn | src/org/osumercury/badgemaker/IO.java:306-312 | The background column is blank exactly when the badge has no background. |
| Csv.FitOf | src/org/osumercury/badgemaker/IO.java:432-440 | Column 7 gives FIT_HEIGHT or FIT_WIDTH, never FILL. |
| Csv.FitIgnoresCase | src/org/osumercury/badgemaker/IO.java:433 | Any letter case of `fit_height` fits to the height. |
| Csv.FitCapitals | src/org/osumercury/badgemaker/IO.java:433 | `FIT_HEIGHT` in capitals fits to the height. |
| Csv.FitOtherwiseWidth | src/org/osumercury/badgemaker/IO.java:433-440 | A token of any other length fits to the width. |
| Csv.FitTokenRoundTrip | src/org/osumercury/badgemaker/IO.java:319-328 | The token written for a width or height fit reads back as that fit. |
| Csv.ShapeOf | src/org/osumercury/badgemaker/IO.java:445-447 | The proportion times the width is the requested height. |
| Csv.BackgroundOf | src/org/osumercury/badgemaker/IO.java:411-422 | A blank column 3 loads nothing and leaves the cache alone. Otherwise the trimmed name is looked up through the cache. |
| Csv.ReadRecord | src/org/osumercury/badgemaker/IO.java:405-455 | A record gives a badge exactly when it has seven fields and an `int` number. The badge has the record's number and texts. A short record or blank background leaves the cache alone. |
| Csv.Datas | src/org/osumercury/badgemaker/IO.java:392-457 | The badges' values, position by position. |
| Csv.BadgeOf | src/org/osumercury/badgemaker/IO.java:423-447 | Columns 1 and 2 are the texts, and 4 to 6 the three colours through `parseHexColor`. A seven-field record fits to the width with no extra data. A longer one takes its fit from column 7 and its extra data from column 8 on. The background sits in the middle, and the size is the shape's. |
| Csv.MakeBadge | src/org/osumercury/badgemaker/IO.java:423-447 | The constructor, then the fit and extra data, then the size setters make `BadgeOf`. |
| Csv.AddAllExtraData | src/org/osumercury/badgemaker/IO.java:441-443 | The items are appended to the extra data and nothing else changes. |
| Csv.ReadNext | src/org/osumercury/badgemaker/IO.java:405-455 | One loop body through the cache is `ReadRecord`. |
| Csv.ReadInto | src/org/osumercury/badgemaker/IO.java:392-457 | One iteration extends the list, or ends the parse at a refused record. |
| Csv.ReadRecords | src/org/osumercury/badgemaker/IO.java:392-457 | The loop computes `ReadAll`. |
| Csv.ParseCsv | src/org/osumercury/badgemaker/IO.java:378-466 | The badges and the cache left behind are `ParseFrom`. |
| Csv.ParseFromReads | src/org/osumercury/badgemaker/IO.java:392-457 | Any reader that reads records as `ReadRecord` does gives `parseCSV`'s result. |
| Csv.ReadAll | src/org/osumercury/badgemaker/IO.java:392-457 | At most one badge per record from `i` on. With a reader that makes badges only from their own records, badge k was read from record i + k. |
| Csv.ParseFrom | src/org/osumercury/badgemaker/IO.java:378-466 | At most one badge per record, and badge k has record k's number and texts. |
| Csv.ReadAllSame | src/org/osumercury/badgemaker/IO.java:392-457 | Readers that agree read the same. |
| Csv.ReadAllStep | src/org/osumercury/badgemaker/IO.java:392-448 | An accepted record puts its badge before what the rest give. |
| Csv.ReadAllPrefix | src/org/osumercury/badgemaker/IO.java:392-457 | The parse takes the longest run of accepted records, each from its position. |
| Csv.ParseReadsPrefix | src/org/osumercury/badgemaker/IO.java:392-457 | Badge `k` has record `k`'s number and texts. The parse stops at the end or at the first record refused. |
| Csv.ReadAllKeepsCache | src/org/osumercury/badgemaker/IO.java:392-457 | Records that leave the cache alone leave it alone together. |
| Csv.NoBackgroundNoLoad | src/org/osumercury/badgemaker/IO.java:411-422 | Without background columns, parsing leaves the image cache unchanged. |
| Csv.ReadOne | src/org/osumercury/badgemaker/IO.java:392-457 | A single record reads as the badge it gives, if any. |
| Csv.ParseOne | src/org/osumercury/badgemaker/IO.java:405-448 | One accepted record parses to the one badge `BadgeOf` makes. |
| Csv.SavedColumns | src/org/osumercury/badgemaker/IO.java:304-329 | Each part of a badge sits in its own column of the saved record. |
| Csv.SavedBadge | src/org/osumercury/badgemaker/IO.java:423-444 | A saved record makes a badge with the same number, texts, fit and extra data. |
| Csv.SavedColours | src/org/osumercury/badgemaker/IO.java:313-318 | A saved record makes each colour's RGB, opaque. |
| Csv.RoundTrip | src/org/osumercury/badgemaker/IO.java:280-466 | For a width or height fit, saving then parsing gives back the number, texts, fit and extra data, and each colour's RGB, opaque. |
| Csv.FilledBadge | src/org/osumercury/badgemaker/IO.java:319-328 | FILL writes no fit token, so the first extra data line is read as the fit. |
| Csv.FillDoesNotRoundTrip | src/org/osumercury/badgemaker/IO.java:280-466 | A FILL badge with extra data `fit_height` comes back fitted to the height, with no extra data. |
| MainPad.Pad | src/org/osumercury/badgemaker/Main.java:239-252 | Every non-negative width gives exactly that many characters. A negative width gives the empty string. |
| MainPad.Spaces | src/org/osumercury/badgemaker/Main.java:241-242 | `%ns` of the empty string is `n` spaces. |
| MainPad.PadShort | src/org/osumercury/badgemaker/Main.java:241-242 | A short string is kept whole and followed by spaces. |
| MainPad.PadExact | src/org/osumercury/badgemaker/Main.java:243-244 | A string exactly as long as the column is unchanged. |
| MainPad.PadEllipsis | src/org/osumercury/badgemaker/Main.java:245-246 | A long string in a column wider than 3 keeps its head and ends in `...`. |
| MainPad.PadDash | src/org/osumercury/badgemaker/Main.java:247-248 | In a column of 1 to 3 a long string keeps its head and ends in `-`. |
| MainPad.PadIdempotent | src/org/osumercury/badgemaker/Main.java:239-252 | Padding twice to the same width changes nothing. |
| MainPad.PadFits | src/org/osumercury/badgemaker/Main.java:239-244 | A string that fits is never cut. |

## Left out

- Logging (`Log.d`, `Log.err`, the `System.err` messages) is not modelled. The one
  exception is the scriptable renderer's per-line failure log, which is modelled as data.
- Progress reporting and cancellation are not modelled. They are UI feedback. A cancel
  request ends `generatePDF`, `saveCSV` (IO.java:292-297) and `parseCSV` (IO.java:395-399)
  early with what was done so far. The model always runs to the end of the list, or, for
  `saveCSV`, to the first failed image write.
- `generatePDF`'s document is reduced to its layout. PDFBox documents, pages, content
  streams, JPEG/PNG encoding and saving are foreign code. A failed content stream, which
  ends the run early, is not modelled.
- Packer.Item: a renderer that throws something other than an `IOException` ends
  `generatePDF` with that exception. An invalid buffer size is one such case. The model
  only has badges that convert, or that fail with the caught `IOException`.
- Csv.SaveCsv: the CSV text format is not modelled (Commons CSV quoting, separators, the
  file writer). A file is modelled as its list of records. The `ImageIO.write` of each
  background PNG is reduced to its outcome, a parameter. A failure to open or write the
  CSV file itself, which also leaves the loop, is not modelled.
- Csv.ParseCsv: `readFromCSV`'s file reading, the CSV tokenising and the source file's
  directory are not modelled; the directory is a parameter.
- Csv.ParseCsv requires a non-zero badge width. Java's float division by zero gives an
  infinite or NaN proportion, which has no real counterpart. The same holds for Csv.ParseFrom.
- `File.getAbsolutePath` and path normalisation are reduced to string concatenation with
  the working directory as a parameter.
- Numbers.IntCast: Java's `float` is modelled by exact reals. Rounding to 24 bits, infinities
  and NaN (which casts to 0) are not modelled.
- Numbers.ParseFloat accepts decimal notation only. Hexadecimal floats and the
  `NaN` / `Infinity` spellings are not modelled.
- Numbers.ParseInteger accepts ASCII digits only; Java also accepts other Unicode decimal digits.
- Numbers.ScanUnsigned: its own contract states only that the magnitude read is
  non-negative. The values read are stated by Numbers.ScanDecimals and the lemmas
  Numbers.ParseFloatDigits, ParseFloatDecimal, ParseFloatSuffixed, ParseFloatExponent and
  ParseFloatExample; exponents of more than one digit and signed exponents have no value lemma.
- Graphics.ValidBuffer rejects only a zero or negative side. AWT's `BufferedImage` also
  throws when `width × height` reaches 2^31 ("Dimensions too large"); that error is not
  modelled, so a huge text buffer or badge counts as renderable.
- MainPad.Pad: Java's `String.length` and `substring` count UTF-16 code units, while the
  model's strings are sequences of Unicode scalar values. For text outside the Basic
  Multilingual Plane the padded width, and the indices of Strings.IndexOf, Strings.SplitOnce
  and the tokenizer, count one per character where Java counts two.
- Strings.ToLower maps ASCII letters only. Locale-sensitive and non-ASCII case mapping is
  not modelled.
- `discardAlphaChannel` is not modelled. It is an AWT-only copy into an RGB buffer, and
  none of the modelled code calls it.
- `fastScale`'s resampling is not modelled, only its size clamp (ImageTools.ScaleSize).
  Pixel resampling by imgscalr is foreign code. The model assumes `scale` returns exactly
  the (clamped) requested size.
- Fonts and glyph pixels are not modelled. Text rasterisation is abstracted as the
  metrics' width and height and a `Text` sprite.
- The certificate renderer reads its pictures with `ImageIO.read` directly. This is a
  `load` parameter, not the cache.
- The renderers' settings save and load (`IO` property files), their GUI controls and
  `getDescription` are not modelled. Neither are the command-line `main` (apart from `pad`)
  and the windowing code.
- ImageTools.SetAlpha takes the image type as a flag. `getType` is not otherwise modelled.
