/**
 * The scriptable renderer: a badge drawn by a line-oriented script. Every line is cut into
 * tokens and dispatched on its first one; a line that throws is logged with its number and
 * text, and the next line runs regardless.
 */
module ScriptRenderer {
  import opened Wrappers
  import opened Strings
  import opened Numbers
  import opened Graphics
  import opened ImageTools
  import opened Badges
  import opened Renderers

  // ---------------------------------------------------------------------------
  // The tokenizer: `find()` with the pattern ([^"]\S*|".+?")\s*, quotes removed

  /** `\s`: space, tab, line feed, vertical tab, form feed, carriage return. */
  predicate IsSpace(c: char) {
    c == ' ' || c == '\t' || c == '\n' || c == '\U{000B}' || c == '\U{000C}' || c == '\r'
  }

  /** A line terminator, which `.` does not match. */
  predicate IsLineBreak(c: char) {
    c == '\n' || c == '\r' || c == '\U{0085}' || c == '\U{2028}' || c == '\U{2029}'
  }

  /** `\S*` from `i`: where the run of non-space characters starting there ends. */
  function SkipNonSpace(l: string, i: nat): (j: nat)
    requires i <= |l|
    ensures i <= j <= |l|
    ensures forall k :: i <= k < j ==> !IsSpace(l[k])
    ensures j == |l| || IsSpace(l[j])
    decreases |l| - i
  {
    if i == |l| || IsSpace(l[i]) then i else SkipNonSpace(l, i + 1)
  }

  /** `\s*` from `i`: where the run of space characters starting there ends. */
  function SkipSpace(l: string, i: nat): (j: nat)
    requires i <= |l|
    ensures i <= j <= |l|
    ensures forall k :: i <= k < j ==> IsSpace(l[k])
    ensures j == |l| || !IsSpace(l[j])
    decreases |l| - i
  {
    if i == |l| || !IsSpace(l[i]) then i else SkipSpace(l, i + 1)
  }

  /** The end of a run is determined by the run: any position that ends it is the one `SkipNonSpace` finds. */
  lemma SkipNonSpaceAt(l: string, i: nat, e: nat)
    requires i <= e <= |l|
    requires forall k :: i <= k < e ==> !IsSpace(l[k])
    requires e == |l| || IsSpace(l[e])
    ensures SkipNonSpace(l, i) == e
  {
  }

  lemma SkipSpaceAt(l: string, i: nat, e: nat)
    requires i <= e <= |l|
    requires forall k :: i <= k < e ==> IsSpace(l[k])
    requires e == |l| || !IsSpace(l[e])
    ensures SkipSpace(l, i) == e
  {
  }

  /**
   * `".+?"` once `.` has taken `l[j]`: the match ends just after the first quote that follows,
   * unless a line terminator comes first.
   */
  function QuoteEnd(l: string, j: nat): (e: Option<nat>)
    ensures e.Some? ==> j + 2 <= e.value <= |l|
    decreases |l| - j
  {
    if j >= |l| || IsLineBreak(l[j]) then None
    else if j + 1 < |l| && l[j + 1] == '"' then Some(j + 2)
    else QuoteEnd(l, j + 1)
  }

  /** The match that starts at `i`, if any: the text of group 1 and where the whole match ends. */
  function MatchAt(l: string, i: nat): (r: Option<(string, nat)>)
    requires i < |l|
    ensures r.Some? ==> i < r.value.1 <= |l| && |r.value.0| > 0 && r.value.0[0] == l[i]
    ensures l[i] != '"' ==> r.Some?
  {
    if l[i] != '"' then
      var j := SkipNonSpace(l, i + 1);
      Some((l[i..j], SkipSpace(l, j)))
    else
      match QuoteEnd(l, i + 1)
      case None => None
      case Some(e) => Some((l[i..e], SkipSpace(l, e)))
  }

  /** `replaceAll("\"", "")`. */
  function Unquote(s: string): (r: string)
    ensures '"' !in r
    ensures '"' !in s ==> r == s
    ensures |s| > 0 && s[0] != '"' ==> |r| > 0 && r[0] == s[0]
  {
    if s == [] then []
    else (if s[0] == '"' then [] else [s[0]]) + Unquote(s[1..])
  }

  /** The tokens `find()` yields from position `from` on: where no match starts, the search moves one character on. */
  function TokensFrom(l: string, from: nat): seq<string>
    decreases |l| - from
  {
    if from >= |l| then []
    else
      match MatchAt(l, from)
      case None => TokensFrom(l, from + 1)
      case Some((g, e)) => [Unquote(g)] + TokensFrom(l, e)
  }

  /** The tokens of a script line. */
  function Tokens(l: string): (r: seq<string>)
    ensures |r| <= |l|
  {
    TokensCount(l, 0);
    TokensFrom(l, 0)
  }

  /** Every match takes at least one character, so there are no more tokens than characters left. */
  lemma {:induction false} TokensCount(l: string, from: nat)
    requires from <= |l|
    ensures |TokensFrom(l, from)| <= |l| - from
    decreases |l| - from
  {
    if from < |l| {
      var m := MatchAt(l, from);
      if m.None? {
        assert TokensFrom(l, from) == TokensFrom(l, from + 1);
        TokensCount(l, from + 1);
      } else {
        var e := m.value.1;
        assert TokensFrom(l, from) == [Unquote(m.value.0)] + TokensFrom(l, e);
        TokensCount(l, e);
      }
    }
  }

  /** The `while (m.find())` loop collecting the tokens of a line. */
  method Tokenize(l: string) returns (tokens: seq<string>)
    ensures tokens == Tokens(l)
  {
    tokens := [];
    var pos := 0;
    while pos < |l|
      invariant 0 <= pos <= |l|
      invariant tokens + TokensFrom(l, pos) == Tokens(l)
      decreases |l| - pos
    {
      var m := MatchAt(l, pos);
      if m.None? {
        assert TokensFrom(l, pos) == TokensFrom(l, pos + 1);
        pos := pos + 1;
      } else {
        var (g, e) := m.value;
        TokensFromMatch(l, pos, g, e);
        assert tokens + TokensFrom(l, pos) == (tokens + [Unquote(g)]) + TokensFrom(l, e);
        tokens := tokens + [Unquote(g)];
        pos := e;
      }
    }
  }

  /** No token keeps a double quote: every one is stripped, whether it delimited a group or not. */
  lemma {:induction false} TokensUnquoted(l: string, from: nat)
    ensures forall t :: t in TokensFrom(l, from) ==> '"' !in t
    decreases |l| - from
  {
    if from < |l| {
      match MatchAt(l, from) {
        case None =>
          TokensUnquoted(l, from + 1);
        case Some((g, e)) =>
          TokensUnquoted(l, e);
      }
    }
  }

  /** An indented line keeps its leading space in the first token (`[^"]` takes it), so it names no instruction. */
  lemma IndentedFirstToken(l: string)
    requires |l| > 0 && IsSpace(l[0])
    ensures |Tokens(l)| > 0 && |Tokens(l)[0]| > 0 && IsSpace(Tokens(l)[0][0])
  {
    var m := MatchAt(l, 0);
    assert m.Some?;
    assert Tokens(l) == [Unquote(m.value.0)] + TokensFrom(l, m.value.1);
  }

  /** A word as a script writes it: non-empty, with no white space and no quote. */
  predicate IsWord(w: string) {
    |w| > 0 && forall k :: 0 <= k < |w| ==> !IsSpace(w[k]) && w[k] != '"'
  }

  /** Every one of `words` is a word. */
  predicate AllWords(words: seq<string>) {
    words == [] || (IsWord(words[0]) && AllWords(words[1..]))
  }

  /** Words joined by single spaces. */
  function Unwords(words: seq<string>): string {
    if |words| == 0 then ""
    else if |words| == 1 then words[0]
    else words[0] + " " + Unwords(words[1..])
  }

  /** Words separated by single spaces come back as exactly those words. */
  lemma WordsRoundTrip(words: seq<string>)
    requires AllWords(words)
    ensures Tokens(Unwords(words)) == words
  {
    TokensOfWords(Unwords(words), 0, words);
  }

  lemma {:induction false} TokensOfWords(l: string, from: nat, words: seq<string>)
    requires from <= |l| && l[from..] == Unwords(words)
    requires AllWords(words)
    ensures TokensFrom(l, from) == words
    decreases |words|
  {
    if words == [] {
      assert |l[from..]| == 0;
    } else if |words| == 1 {
      LastWord(l, from, words[0]);
    } else {
      var w, more := words[0], Unwords(words[1..]);
      assert l[from..] == w + " " + more;
      assert |more| > 0 && more[0] == words[1][0] by {
        if |words| > 2 {
          assert more == words[1] + " " + Unwords(words[2..]);
        }
      }
      NextWordStart(l, from, w, more);
      TokensOfWords(l, from + |w| + 1, words[1..]);
      NextWord(l, from, w, more, words[1..]);
      assert words == [w] + words[1..];
    }
  }

  /** A line ending in a word yields that word as its last token. */
  lemma LastWord(l: string, from: nat, w: string)
    requires from <= |l| && l[from..] == w && IsWord(w)
    ensures TokensFrom(l, from) == [w]
  {
    assert l[from..] == w + "";
    WordSpan(l, from, w, "");
    FirstWordMatch(l, from, w);
    WordUnquoted(w);
    TokensFromMatch(l, from, w, |l|);
  }

  /** A word followed by one space yields the word, then the tokens from where the next word starts. */
  lemma NextWord(l: string, from: nat, w: string, more: string, tail: seq<string>)
    requires from <= |l| && l[from..] == w + " " + more && IsWord(w)
    requires |more| > 0 && !IsSpace(more[0])
    requires from + |w| + 1 <= |l| && TokensFrom(l, from + |w| + 1) == tail
    ensures TokensFrom(l, from) == [w] + tail
  {
    NextWordMatch(l, from, w, more);
    WordUnquoted(w);
    TokensFromMatch(l, from, w, from + |w| + 1);
  }

  /** The match at a word followed by one space takes the word and the space. */
  lemma NextWordMatch(l: string, from: nat, w: string, more: string)
    requires from <= |l| && l[from..] == w + " " + more && IsWord(w)
    requires |more| > 0 && !IsSpace(more[0])
    ensures from < |l| && MatchAt(l, from) == Some((w, from + |w| + 1))
  {
    assert l[from..] == w + (" " + more);
    WordSpan(l, from, w, " " + more);
    FirstWordMatch(l, from, w);
    NextWordStart(l, from, w, more);
  }

  /** One step of `find()` where a match starts. */
  lemma TokensFromMatch(l: string, from: nat, g: string, e: nat)
    requires from < |l| && MatchAt(l, from) == Some((g, e))
    ensures TokensFrom(l, from) == [Unquote(g)] + TokensFrom(l, e)
  {
  }

  lemma WordUnquoted(w: string)
    requires IsWord(w)
    ensures Unquote(w) == w
  {
    assert '"' !in w by {
      forall k | 0 <= k < |w|
        ensures w[k] != '"'
      {
      }
    }
  }

  /** The match at the start of a word is the word, up to the space or end of line that follows it. */
  lemma FirstWordMatch(l: string, from: nat, w: string)
    requires from + |w| <= |l| && |w| > 0 && l[from..from + |w|] == w && l[from] != '"'
    requires SkipNonSpace(l, from + 1) == from + |w|
    ensures MatchAt(l, from) == Some((w, SkipSpace(l, from + |w|)))
  {
    var j := SkipNonSpace(l, from + 1);
    assert l[from..j] == w;
  }

  /** The run of non-space characters at the start of a word covers exactly the word. */
  lemma WordSpan(l: string, from: nat, w: string, rest: string)
    requires from <= |l| && l[from..] == w + rest && IsWord(w)
    requires rest == "" || rest[0] == ' '
    ensures from + |w| <= |l| && l[from..from + |w|] == w && l[from] == w[0] != '"'
    ensures SkipNonSpace(l, from + 1) == from + |w|
  {
    var e := from + |w|;
    assert l[from..e] == w by {
      assert l[from..e] == l[from..][..|w|];
    }
    forall k | from <= k < e
      ensures !IsSpace(l[k])
    {
      assert l[k] == l[from..][k - from] == w[k - from];
    }
    if rest != "" {
      assert l[e] == l[from..][|w|] == ' ';
    }
    SkipNonSpaceAt(l, from + 1, e);
  }

  /** After a word and one space, the white space ends where the next word begins. */
  lemma NextWordStart(l: string, from: nat, w: string, more: string)
    requires from <= |l| && l[from..] == w + " " + more
    requires |more| > 0 && !IsSpace(more[0])
    ensures SkipSpace(l, from + |w|) == from + |w| + 1
    ensures l[from + |w| + 1..] == more
  {
    var e := from + |w|;
    assert l[e] == l[from..][|w|] == ' ';
    assert l[e + 1] == l[from..][|w| + 1] == more[0];
    assert l[e + 1..] == l[from..][|w| + 1..];
    SkipSpaceAt(l, e, e + 1);
  }

  /** A blank line has no tokens at all. */
  lemma EmptyLineHasNoTokens()
    ensures Tokens("") == []
  {
  }

  // ---------------------------------------------------------------------------
  // Executing one line

  /** Why a line was abandoned: the exception its execution raised. */
  datatype Failure =
    | MissingToken(index: nat)          // the token list (or a sub-list of it) is too short
    | MissingCoordinate(point: string)  // a polygon point without a second coordinate
    | NotANumber(text: string)          // `Float.parseFloat` or `Integer.parseInt` threw
    | NoScriptDirectory                 // `blit` before the script's directory is known
    | Unreadable(path: string)          // reading the blitted image threw
    | NoImage(path: string)             // the blitted file decoded to no image
    | BadBuffer(error: RenderError)     // a text buffer with no pixels

  /** What one line sees: the badge, its pixel size, the font metrics and the renderer's state. */
  datatype Context = Context(
    badge: BadgeData,
    width: int,
    height: int,
    metrics: Metrics,
    fontSize: Int32,
    scriptDir: Option<string>,
    cwd: string)

  /** `tokens.get(i)`. */
  function At(t: seq<string>, i: nat): (r: Result<string, Failure>)
    ensures r.Ok? <==> i < |t|
    ensures r.Ok? ==> r.value == t[i]
  {
    if i < |t| then Ok(t[i]) else Err(MissingToken(i))
  }

  /** `Float.parseFloat`. */
  function FloatOf(text: string): (r: Result<real, Failure>)
    ensures r.Ok? <==> ParseFloat(text).Some?
    ensures r.Ok? ==> r.value == ParseFloat(text).value
  {
    match ParseFloat(text)
    case Some(v) => Ok(v)
    case None => Err(NotANumber(text))
  }

  /** `(int)(p / 100 * n)`: `p` percent of `n` pixels, truncated. */
  function Percentage(p: real, n: int): Int32 {
    Portion(p / 100.0, n)
  }

  /** A percentage between 0 and 100 of a non-negative pixel count stays within that count. */
  lemma PercentageWithin(p: real, n: int)
    requires 0.0 <= p <= 100.0 && n >= 0
    ensures 0 <= Percentage(p, n) <= n
  {
    PortionWithin(p / 100.0, n);
  }

  predicate IsPositionKeyword(value: string) {
    value == "left" || value == "top" || value == "right" || value == "bottom" || value == "centered"
  }

  /**
   * `parsePosition`: where a side of length `dim` starts along an extent of length `bounds`,
   * by keyword or as a percentage of the extent.
   */
  function ParsePosition(bounds: int, dim: int, value: string): (r: Result<int, Failure>)
    ensures r.Err? <==> !IsPositionKeyword(value) && ParseFloat(value).None?
    ensures !IsPositionKeyword(value) && r.Ok? ==> r.value == Percentage(ParseFloat(value).value, bounds)
  {
    if value == "left" || value == "top" then Ok(0)
    else if value == "right" || value == "bottom" then Ok(bounds - dim)
    else if value == "centered" then Ok(Half(bounds - dim))
    else
      var p :- FloatOf(value);
      Ok(Percentage(p, bounds))
  }

  /** `left`/`top` put the side at the origin, `right`/`bottom` flush against the far edge. */
  lemma PositionFlush(bounds: int, dim: int)
    ensures ParsePosition(bounds, dim, "left") == Ok(0) && ParsePosition(bounds, dim, "top") == Ok(0)
    ensures ParsePosition(bounds, dim, "right").Ok? && ParsePosition(bounds, dim, "right").value + dim == bounds
    ensures ParsePosition(bounds, dim, "bottom").Ok? && ParsePosition(bounds, dim, "bottom").value + dim == bounds
  {
  }

  /** `centered` leaves margins that differ by at most one pixel; a side that fits stays inside. */
  lemma PositionCentred(bounds: int, dim: int)
    ensures ParsePosition(bounds, dim, "centered").Ok?
    ensures var x := ParsePosition(bounds, dim, "centered").value;
      -1 <= (bounds - (x + dim)) - x <= 1 && (dim <= bounds ==> 0 <= x && x + dim <= bounds)
  {
  }

  /** Java's integer division truncates: a side 3 pixels too wide for its extent hangs out by 1 on the left, not 2. */
  lemma CentredOverhang()
    ensures ParsePosition(10, 13, "centered") == Ok(-1)
  {
  }

  /** A percentage between 0 and 100 lands inside the extent. */
  lemma PositionPercent(bounds: int, dim: int, value: string, p: real)
    requires !IsPositionKeyword(value) && ParseFloat(value) == Some(p)
    requires 0.0 <= p <= 100.0 && bounds >= 0
    ensures ParsePosition(bounds, dim, value).Ok?
    ensures 0 <= ParsePosition(bounds, dim, value).value <= bounds
  {
    PercentageWithin(p, bounds);
  }

  /** `parseColor`: the badge's three colours by name, anything else as a hexadecimal code. */
  function ParseColor(d: BadgeData, value: string): (c: Color)
    ensures value == "bg" ==> c == d.backgroundColor
    ensures value == "textbg" ==> c == d.textBackgroundColor
    ensures value == "text" ==> c == d.textColor
    ensures value != "bg" && value != "textbg" && value != "text" ==> c == ParseHexColor(value)
  {
    if value == "bg" then d.backgroundColor
    else if value == "textbg" then d.textBackgroundColor
    else if value == "text" then d.textColor
    else ParseHexColor(value)
  }

  /** The vertex at `px`% of the badge's last pixel column and `py`% of its last pixel row. */
  function Vertex(px: real, py: real, width: int, height: int): Point {
    Point(Percentage(px, width - 1), Percentage(py, height - 1))
  }

  /** Percentages between 0 and 100 give a vertex on the badge. */
  lemma VertexOnBadge(px: real, py: real, width: int, height: int)
    requires width >= 1 && height >= 1
    requires 0.0 <= px <= 100.0 && 0.0 <= py <= 100.0
    ensures var p := Vertex(px, py, width, height); 0 <= p.x < width && 0 <= p.y < height
  {
    PercentageWithin(px, width - 1);
    PercentageWithin(py, height - 1);
  }

  /** A polygon vertex `x,y`: the text split at commas, the first two fields parsed as percentages. */
  function PointOf(text: string, width: int, height: int): Result<Point, Failure> {
    var coords := Split(text, ',');
    if |coords| == 0 then Err(MissingCoordinate(text))
    else
      var px :- FloatOf(coords[0]);
      if |coords| < 2 then Err(MissingCoordinate(text))
      else
        var py :- FloatOf(coords[1]);
        Ok(Vertex(px, py, width, height))
  }

  /** A token whose first two comma-separated fields are numbers is the vertex at those percentages. */
  lemma PointParsed(text: string, width: int, height: int, px: real, py: real)
    requires |Split(text, ',')| >= 2
    requires ParseFloat(Split(text, ',')[0]) == Some(px) && ParseFloat(Split(text, ',')[1]) == Some(py)
    ensures PointOf(text, width, height) == Ok(Vertex(px, py, width, height))
  {
  }

  /** A token with no comma has no second coordinate (Java's `coords[1]` is out of bounds). */
  lemma PointNeedsComma(text: string, width: int, height: int)
    requires ',' !in text && ParseFloat(text).Some?
    ensures PointOf(text, width, height) == Err(MissingCoordinate(text))
  {
  }

  /** The vertices of a polygon, in order; the first token that is not a vertex fails the line. */
  function Points(coords: seq<string>, width: int, height: int): (r: Result<seq<Point>, Failure>)
    ensures r.Ok? ==> |r.value| == |coords|
  {
    if coords == [] then Ok([])
    else
      var init :- Points(coords[..|coords| - 1], width, height);
      var p :- PointOf(coords[|coords| - 1], width, height);
      Ok(init + [p])
  }

  /** Once a prefix of the vertex list fails, the whole list fails the same way. */
  lemma {:induction false} PointsFailEarly(coords: seq<string>, n: nat, width: int, height: int)
    requires n <= |coords| && Points(coords[..n], width, height).Err?
    ensures Points(coords, width, height) == Points(coords[..n], width, height)
    decreases |coords| - n
  {
    if n < |coords| {
      var shorter := coords[..|coords| - 1];
      assert shorter[..n] == coords[..n];
      PointsFailEarly(shorter, n, width, height);
    } else {
      assert coords[..n] == coords;
    }
  }

  /** `polyfill` and `polyedge`: a colour, then the vertices. */
  function Polygon(c: Context, t: seq<string>): (r: Result<Op, Failure>)
    requires |t| > 0
    ensures |t| < 2 ==> r == Err(MissingToken(1))
    ensures |t| >= 2 ==> (r.Ok? <==> Points(t[2..], c.width, c.height).Ok?)
    ensures r.Ok? ==>
      (if t[0] == "polyfill" then r.value.FillPolygon? else r.value.StrokePolygon?) &&
      r.value.color == ParseColor(c.badge, t[1]) &&
      Points(t[2..], c.width, c.height) == Ok(r.value.points) && |r.value.points| == |t| - 2
  {
    var colorName :- At(t, 1);
    var color := ParseColor(c.badge, colorName);
    var points :- Points(t[2..], c.width, c.height);
    Ok(if t[0] == "polyfill" then FillPolygon(points, color) else StrokePolygon(points, color))
  }

  /** The polygon branch of `render`: the loop over the vertex tokens. */
  method BuildPolygon(c: Context, t: seq<string>) returns (r: Result<Op, Failure>)
    requires |t| > 0
    ensures r == Polygon(c, t)
  {
    if |t| < 2 {
      return Err(MissingToken(1));
    }
    var color := ParseColor(c.badge, t[1]);
    var coords := t[2..];
    var points := [];
    var i := 0;
    while i < |coords|
      invariant 0 <= i <= |coords|
      invariant Points(coords[..i], c.width, c.height) == Ok(points)
    {
      var p := PointOf(coords[i], c.width, c.height);
      PointsStep(coords, i, points, c.width, c.height);
      if p.Err? {
        return Err(p.error);
      }
      points := points + [p.value];
      i := i + 1;
    }
    assert coords[..i] == coords;
    r := Ok(if t[0] == "polyfill" then FillPolygon(points, color) else StrokePolygon(points, color));
  }

  /** One more vertex token either extends the vertex list or fails the whole polygon with its error. */
  lemma PointsStep(coords: seq<string>, i: nat, points: seq<Point>, width: int, height: int)
    requires i < |coords| && Points(coords[..i], width, height) == Ok(points)
    ensures PointOf(coords[i], width, height).Ok? ==>
      Points(coords[..i + 1], width, height) == Ok(points + [PointOf(coords[i], width, height).value])
    ensures PointOf(coords[i], width, height).Err? ==>
      Points(coords, width, height) == Err(PointOf(coords[i], width, height).error)
  {
    assert coords[..i + 1][..i] == coords[..i];
    if PointOf(coords[i], width, height).Err? {
      PointsFailEarly(coords, i + 1, width, height);
    }
  }

  /** The font `drawText` selects: family from token 1, bold and italic when token 2 mentions them. */
  function TextFont(c: Context, t: seq<string>): Font
    requires |t| >= 3
  {
    Font(t[1], Contains(t[2], "bold"), Contains(t[2], "italic"), c.fontSize)
  }

  /** The box `drawText` fits a text into: tokens 3 and 4 place it, tokens 5 and 6 size it in percent of the badge. */
  function TextBox(c: Context, t: seq<string>): Result<Rect, Failure> {
    var wText :- At(t, 5);
    var wp :- FloatOf(wText);
    var hText :- At(t, 6);
    var hp :- FloatOf(hText);
    var w := Percentage(wp, c.width);
    var h := Percentage(hp, c.height);
    // tokens 3 and 4 exist once token 6 does
    var x :- ParsePosition(c.width, w, t[3]);
    var y :- ParsePosition(c.height, h, t[4]);
    Ok(Rect(x, y, w, h))
  }

  /** `inner` sits in the middle of `box`: the margins on either side differ by at most one pixel. */
  predicate CentredIn(inner: Rect, box: Rect) {
    -1 <= (box.x + box.w - (inner.x + inner.w)) - (inner.x - box.x) <= 1 &&
    -1 <= (box.y + box.h - (inner.y + inner.h)) - (inner.y - box.y) <= 1 &&
    (inner.w <= box.w ==> box.x <= inner.x && inner.x + inner.w <= box.x + box.w) &&
    (inner.h <= box.h ==> box.y <= inner.y && inner.y + inner.h <= box.y + box.h)
  }

  /** `drawString`'s failure as the exception of the line. */
  function Rasterized(g: Result<Glyph, RenderError>): (r: Result<Glyph, Failure>)
    ensures r.Ok? <==> g.Ok?
    ensures r.Ok? ==> r.value == g.value
  {
    match g
    case Ok(glyph) => Ok(glyph)
    case Err(e) => Err(BadBuffer(e))
  }

  /**
   * `drawText(str, t)`: colour, font and box from the tokens, the text rendered by `drawString`
   * at the box's height and no wider than the box, and drawn centred in it.
   */
  function DrawText(c: Context, str: string, t: seq<string>): (r: Result<Op, Failure>)
    ensures r.Ok? ==> |t| >= 7 && r.value.DrawSprite?
    ensures r.Ok? ==> r.value.sprite == Text(str, TextFont(c, t), ParseColor(c.badge, t[0]))
  {
    var colorName :- At(t, 0);
    var color := ParseColor(c.badge, colorName);
    var family :- At(t, 1);
    var style :- At(t, 2);
    var font := Font(family, Contains(style, "bold"), Contains(style, "italic"), c.fontSize);
    var wText :- At(t, 5);
    var wp :- FloatOf(wText);
    var hText :- At(t, 6);
    var hp :- FloatOf(hText);
    var w := Percentage(wp, c.width);
    var h := Percentage(hp, c.height);
    var glyph :- Rasterized(DrawString(c.metrics, font, str, color, h, w));
    // tokens 3 and 4 exist once token 6 does
    var x :- ParsePosition(c.width, w, t[3]);
    var y :- ParsePosition(c.height, h, t[4]);
    Ok(DrawSprite(glyph.sprite, Rect(x + Half(w - glyph.width), y + Half(h - glyph.height), glyph.width, glyph.height)))
  }

  /**
   * The drawn text sits centred in the box the tokens give (to within a pixel each way), and is
   * no wider than the box (a box of width 0 still gets a one-pixel text).
   */
  lemma DrawTextCentred(c: Context, str: string, t: seq<string>)
    requires DrawText(c, str, t).Ok?
    ensures TextBox(c, t).Ok? && CentredIn(DrawText(c, str, t).value.at, TextBox(c, t).value)
    ensures var box := TextBox(c, t).value; var at := DrawText(c, str, t).value.at;
      at.w <= box.w || (box.w == 0 && at.w == 1)
  {
  }

  /** Where `blit` reads from: the script's directory made absolute, a separator, then token 1. */
  function BlitPath(c: Context, t: seq<string>): (r: Result<string, Failure>)
    ensures r.Ok? <==> c.scriptDir.Some? && |t| >= 2
  {
    if c.scriptDir.None? then Err(NoScriptDirectory)
    else
      var name :- At(t, 1);
      Ok(Absolute(c.cwd, c.scriptDir.value) + "/" + name)
  }

  /** `File.getAbsolutePath`: a relative path is resolved against the working directory. */
  function Absolute(cwd: string, path: string): (r: string)
    ensures StartsWith(path, "/") ==> r == path
  {
    if StartsWith(path, "/") then path else cwd + "/" + path
  }

  /**
   * `blit` once the image is fetched: token 2 chooses the side given as a percentage (token 3)
   * — `width`, or anything else for the height — the other side keeps the picture's aspect,
   * tokens 4 and 5 place it, and a seventh token is an alpha percentage.
   */
  function BlitDraw(c: Context, t: seq<string>, path: string, img: Option<Image>): (r: Result<Op, Failure>)
    ensures r.Ok? ==> |t| >= 6 && img.Some? && r.value.DrawSprite? && r.value.sprite.Picture?
    ensures r.Ok? ==> r.value.sprite.image == img.value
    ensures r.Ok? ==> (r.value.sprite.alphaPercent.Some? <==> |t| == 7)
    ensures r.Ok? && |t| == 7 ==> ParseInt(t[6]).Some? && r.value.sprite.alphaPercent.value == ParseInt(t[6]).value as int
    ensures r.Ok? ==> r.value.at.w != 0 && r.value.at.h != 0
  {
    var mode :- At(t, 2);
    var amountText :- At(t, 3);
    var amount :- FloatOf(amountText);
    if img.None? then Err(NoImage(path))
    else
      var pic := img.value;
      var size: (int, int) :=
        if mode == "width" then
          var w := Percentage(amount, c.width);
          (w, IntCast(Proportional(w, pic.width, pic.height)) as int)
        else
          var h := Percentage(amount, c.height);
          (IntCast(Proportional(h, pic.height, pic.width)) as int, h);
      var xText :- At(t, 4);
      var x :- ParsePosition(c.width, size.0, xText);
      var yText :- At(t, 5);
      var y :- ParsePosition(c.height, size.1, yText);
      var alpha :- if |t| == 7 then Alpha(t[6]) else Ok(None);
      Ok(DrawSprite(Picture(pic, alpha), Rect(x, y, ScaleSize(size.0), ScaleSize(size.1))))
  }

  function Alpha(text: string): (r: Result<Option<int>, Failure>)
    ensures r.Ok? <==> ParseInt(text).Some?
    ensures r.Ok? ==> r.value == Some(ParseInt(text).value as int)
  {
    match ParseInt(text)
    case Some(a) => Ok(Some(a as int))
    case None => Err(NotANumber(text))
  }

  /** An instruction that draws, as a line result: drawn, or the exception. */
  function Drawn(r: Result<Op, Failure>): (d: Result<Option<Op>, Failure>)
    ensures d.Ok? <==> r.Ok?
    ensures r.Ok? ==> d.value == Some(r.value)
  {
    match r
    case Ok(op) => Ok(Some(op))
    case Err(e) => Err(e)
  }

  /** The instructions `render` dispatches on. */
  predicate IsKeyword(word: string) {
    word == "polyfill" || word == "polyedge" || word == "primarytext" || word == "secondarytext" ||
    word == "number" || word == "text" || word == "blit"
  }

  /** The text instructions: what each draws, and the tokens that describe how. */
  function TextSource(c: Context, t: seq<string>): (r: Result<(string, seq<string>), Failure>)
    requires |t| > 0 && IsTextKeyword(t[0])
    ensures t[0] != "text" ==> r.Ok? && r.value.1 == t[1..]
    ensures t[0] == "primarytext" ==> r.value.0 == c.badge.primaryText
    ensures t[0] == "secondarytext" ==> r.value.0 == c.badge.secondaryText
    ensures t[0] == "number" ==> r.value.0 == FormatInt(c.badge.number)
    ensures t[0] == "text" ==> (r.Ok? <==> |t| >= 2) && (r.Ok? ==> r.value == (t[1], t[2..]))
  {
    if t[0] == "primarytext" then Ok((c.badge.primaryText, t[1..]))
    else if t[0] == "secondarytext" then Ok((c.badge.secondaryText, t[1..]))
    else if t[0] == "number" then Ok((FormatInt(c.badge.number), t[1..]))
    else
      var text :- At(t, 1);
      Ok((text, t[2..]))
  }

  predicate IsTextKeyword(word: string) {
    word == "primarytext" || word == "secondarytext" || word == "number" || word == "text"
  }

  /** Every instruction except `blit`, which alone touches the image cache; an unknown word draws nothing. */
  function Instruction(c: Context, t: seq<string>): (r: Result<Option<Op>, Failure>)
    requires |t| > 0
    ensures t[0] != "polyfill" && t[0] != "polyedge" && !IsTextKeyword(t[0]) ==> r == Ok(None)
    ensures (t[0] == "polyfill" || t[0] == "polyedge") ==> r.Ok? == Polygon(c, t).Ok?
    ensures r.Ok? && r.value.Some? ==>
      (t[0] == "polyfill" ==> r.value.value.FillPolygon?) &&
      (t[0] == "polyedge" ==> r.value.value.StrokePolygon?) &&
      (IsTextKeyword(t[0]) ==> r.value.value.DrawSprite?)
  {
    if t[0] == "polyfill" || t[0] == "polyedge" then Drawn(Polygon(c, t))
    else if IsTextKeyword(t[0]) then
      var (str, rest) :- TextSource(c, t);
      Drawn(DrawText(c, str, rest))
    else Ok(None)
  }

  /** What a line did and the image cache it leaves. */
  datatype Outcome = Outcome(result: Result<Option<Op>, Failure>, table: map<string, Option<Image>>)

  /**
   * One line of the script against the image cache `table`; `files` is what reading each
   * path would do. An empty line fails (there is no first token).
   */
  function Step(c: Context, table: map<string, Option<Image>>, files: string -> LoadOutcome, line: string): (o: Outcome)
    ensures Tokens(line) == [] ==> o.result == Err(MissingToken(0))
    ensures Tokens(line) != [] && Tokens(line)[0] != "blit" ==> o == Outcome(Instruction(c, Tokens(line)), table)
    ensures forall p :: p in table ==> p in o.table && o.table[p] == table[p]
  {
    var t := Tokens(line);
    if |t| == 0 then Outcome(Err(MissingToken(0)), table)
    else if t[0] == "blit" then
      match BlitPath(c, t)
      case Err(e) => Outcome(Err(e), table)
      case Ok(path) =>
        var f := Lookup(table, path, files(path));
        match f.result
        case Err(_) => Outcome(Err(Unreadable(path)), f.table)
        case Ok(img) => Outcome(Drawn(BlitDraw(c, t, path, img)), f.table)
    else Outcome(Instruction(c, t), table)
  }

  /** The body of the `render` loop for one line, reading blitted images through the cache. */
  method ExecuteLine(c: Context, cache: ImageCache, files: string -> LoadOutcome, line: string)
    returns (result: Result<Option<Op>, Failure>)
    requires cache.Valid()
    modifies cache
    ensures cache.Valid() && (old(cache.created) ==> cache.created)
    ensures Outcome(result, cache.table) == Step(c, old(cache.table), files, line)
  {
    var t := Tokenize(line);
    if |t| == 0 {
      return Err(MissingToken(0));
    }
    if t[0] == "blit" {
      var path := BlitPath(c, t);
      if path.Err? {
        return Err(path.error);
      }
      var img := cache.Get(path.value, files(path.value));
      if img.Err? {
        return Err(Unreadable(path.value));
      }
      result := Drawn(BlitDraw(c, t, path.value, img.value));
    } else if t[0] == "polyfill" || t[0] == "polyedge" {
      var polygon := BuildPolygon(c, t);
      result := Drawn(polygon);
    } else {
      result := Instruction(c, t);
    }
  }

  // ---------------------------------------------------------------------------
  // Running a script

  /** A message `render` logs. */
  datatype LogEntry =
    | ScriptUndefined                                       // no script, or an empty one
    | LineFailed(lineNumber: int, line: string, reason: Failure)

  /** The drawing commands, the log and the image cache after running some lines. */
  datatype Run = Run(ops: seq<Op>, log: seq<LogEntry>, table: map<string, Option<Image>>)

  /** What running one line against a cache does: its outcome and the cache it leaves. */
  type LineStep = (map<string, Option<Image>>, string) -> Outcome

  /** One line's bookkeeping: its op appended, or its failure logged under `lineNumber`, and the cache carried on. */
  function Record(before: Run, lineNumber: int, line: string, o: Outcome): (after: Run)
    ensures after.table == o.table
    ensures o.result.Ok? ==> after.log == before.log
    ensures o.result == Ok(None) ==> after.ops == before.ops
    ensures (o.result.Ok? && o.result.value.Some?) ==> after.ops == before.ops + [o.result.value.value]
    ensures o.result.Err? ==> after.ops == before.ops && after.log == before.log + [LineFailed(lineNumber, line, o.result.error)]
  {
    match o.result
    case Ok(None) => Run(before.ops, before.log, o.table)
    case Ok(Some(op)) => Run(before.ops + [op], before.log, o.table)
    case Err(e) => Run(before.ops, before.log + [LineFailed(lineNumber, line, e)], o.table)
  }

  /** The lines run in order from cache `table`; a line that throws is logged with its 1-based number and skipped. */
  function RunLines(step: LineStep, table: map<string, Option<Image>>, lines: seq<string>): (run: Run)
    ensures |run.ops| + |run.log| <= |lines|
    decreases |lines|
  {
    if lines == [] then Run([], [], table)
    else
      var before := RunLines(step, table, lines[..|lines| - 1]);
      Record(before, |lines|, lines[|lines| - 1], step(before.table, lines[|lines| - 1]))
  }

  /** The script lines of `render`, each executed by `Step`. */
  function Interpret(c: Context, table: map<string, Option<Image>>, files: string -> LoadOutcome, lines: seq<string>): (r: Run)
    ensures |r.ops| + |r.log| <= |lines|
    ensures NumberedInOrder(r.log)
    ensures forall e :: e in r.log ==> e.LineFailed? && 1 <= e.lineNumber <= |lines| && lines[e.lineNumber - 1] == e.line
  {
    var step: LineStep := (t, line) => Step(c, t, files, line);
    LogNamesLines(step, table, lines);
    LogInOrder(step, table, lines);
    RunLines(step, table, lines)
  }

  /** Running one more line is recording its outcome after the lines before it. */
  lemma RunLinesSnoc(step: LineStep, table: map<string, Option<Image>>, lines: seq<string>, i: nat)
    requires i < |lines|
    ensures var before := RunLines(step, table, lines[..i]);
      RunLines(step, table, lines[..i + 1]) == Record(before, i + 1, lines[i], step(before.table, lines[i]))
  {
    assert lines[..i + 1][..i] == lines[..i];
  }

  /** A log entry reported `k` lines further on. */
  function Moved(e: LogEntry, k: int): LogEntry {
    if e.LineFailed? then e.(lineNumber := e.lineNumber + k) else e
  }

  /** Where the entries of a script run after `k` other lines report: each line number moved on by `k`. */
  function Shifted(log: seq<LogEntry>, k: int): (r: seq<LogEntry>)
    ensures |r| == |log|
  {
    if log == [] then [] else Shifted(log[..|log| - 1], k) + [Moved(log[|log| - 1], k)]
  }

  lemma ShiftedSnoc(log: seq<LogEntry>, e: LogEntry, k: int)
    ensures Shifted(log + [e], k) == Shifted(log, k) + [Moved(e, k)]
  {
    assert (log + [e])[..|log|] == log;
  }

  /** Shifting keeps every entry in place and moves only its line number. */
  lemma {:induction false} ShiftedEntries(log: seq<LogEntry>, k: int, i: nat)
    requires i < |log|
    ensures Shifted(log, k)[i] == Moved(log[i], k)
    decreases |log|
  {
    if i < |log| - 1 {
      ShiftedEntries(log[..|log| - 1], k, i);
    }
  }

  /**
   * Running `a` then `b` is running `a`, then running `b` from the cache `a` leaves: the lines
   * of `b` draw and fail exactly as they would alone, reported `|a|` lines further on.
   */
  lemma {:induction false} RunLinesAppend(step: LineStep, table: map<string, Option<Image>>, a: seq<string>, b: seq<string>)
    ensures var ra := RunLines(step, table, a);
      var rb := RunLines(step, ra.table, b);
      RunLines(step, table, a + b) == Run(ra.ops + rb.ops, ra.log + Shifted(rb.log, |a|), rb.table)
    decreases |b|
  {
    var ra := RunLines(step, table, a);
    if b == [] {
      assert a + b == a;
    } else {
      var b' := b[..|b| - 1];
      var line := b[|b| - 1];
      RunLinesAppend(step, table, a, b');
      assert (a + b)[..|a + b| - 1] == a + b';
      var rb' := RunLines(step, ra.table, b');
      var o := step(rb'.table, line);
      var whole' := Run(ra.ops + rb'.ops, ra.log + Shifted(rb'.log, |a|), rb'.table);
      assert RunLines(step, table, a + b) == Record(whole', |a + b|, line, o);
      assert RunLines(step, ra.table, b) == Record(rb', |b|, line, o);
      RecordAppend(ra, rb', |a|, |b|, line, o);
    }
  }

  /** Recording a line after a run continued from `ra` is recording it, moved on by `|a|` lines, after the combined run. */
  lemma RecordAppend(ra: Run, rb: Run, k: int, n: int, line: string, o: Outcome)
    ensures var r := Record(rb, n, line, o);
      Record(Run(ra.ops + rb.ops, ra.log + Shifted(rb.log, k), rb.table), n + k, line, o) ==
      Run(ra.ops + r.ops, ra.log + Shifted(r.log, k), r.table)
  {
    match o.result {
      case Ok(None) =>
      case Ok(Some(op)) =>
        assert ra.ops + rb.ops + [op] == ra.ops + (rb.ops + [op]);
      case Err(e) =>
        var entry := LineFailed(n, line, e);
        ShiftedSnoc(rb.log, entry, k);
        assert ra.log + Shifted(rb.log, k) + [Moved(entry, k)] == ra.log + (Shifted(rb.log, k) + [Moved(entry, k)]);
    }
  }

  /** Every entry reports a failed line, in strictly increasing line order. */
  predicate NumberedInOrder(log: seq<LogEntry>) {
    forall i, j :: 0 <= i < j < |log| ==> log[i].LineFailed? && log[j].LineFailed? && log[i].lineNumber < log[j].lineNumber
  }

  /** Each logged failure names a line of the script by its 1-based number. */
  lemma {:induction false} LogNamesLines(step: LineStep, table: map<string, Option<Image>>, lines: seq<string>)
    ensures forall e :: e in RunLines(step, table, lines).log ==>
      e.LineFailed? && 1 <= e.lineNumber <= |lines| && lines[e.lineNumber - 1] == e.line
    decreases |lines|
  {
    if lines != [] {
      var init := lines[..|lines| - 1];
      LogNamesLines(step, table, init);
      var before := RunLines(step, table, init);
      var o := step(before.table, lines[|lines| - 1]);
      var log := RunLines(step, table, lines).log;
      assert log == Record(before, |lines|, lines[|lines| - 1], o).log;
      forall e | e in log
        ensures e.LineFailed? && 1 <= e.lineNumber <= |lines| && lines[e.lineNumber - 1] == e.line
      {
        if e in before.log {
          assert lines[e.lineNumber - 1] == init[e.lineNumber - 1];
        }
      }
    }
  }

  /** The failures are logged in increasing line order. */
  lemma {:induction false} LogInOrder(step: LineStep, table: map<string, Option<Image>>, lines: seq<string>)
    ensures NumberedInOrder(RunLines(step, table, lines).log)
    decreases |lines|
  {
    if lines != [] {
      var init := lines[..|lines| - 1];
      LogInOrder(step, table, init);
      LogNamesLines(step, table, init);
      var before := RunLines(step, table, init);
      var o := step(before.table, lines[|lines| - 1]);
      var log := RunLines(step, table, lines).log;
      assert log == Record(before, |lines|, lines[|lines| - 1], o).log;
      if o.result.Err? {
        assert log == before.log + [LineFailed(|lines|, lines[|lines| - 1], o.result.error)];
        forall i, j | 0 <= i < j < |log|
          ensures log[i].LineFailed? && log[j].LineFailed? && log[i].lineNumber < log[j].lineNumber
        {
          assert log[i] == before.log[i] && before.log[i] in before.log;
          if j < |before.log| {
            assert log[j] == before.log[j];
          }
        }
      }
    }
  }

  /** Lines that leave the cache alone leave it alone together. */
  lemma {:induction false} RunLinesKeepsCache(step: LineStep, table: map<string, Option<Image>>, lines: seq<string>)
    requires forall i :: 0 <= i < |lines| ==> step(table, lines[i]).table == table
    ensures RunLines(step, table, lines).table == table
    decreases |lines|
  {
    if lines != [] {
      RunLinesKeepsCache(step, table, lines[..|lines| - 1]);
    }
  }

  /** Only `blit` consults the image cache: every other line leaves it as it was. */
  lemma StepKeepsCache(c: Context, table: map<string, Option<Image>>, files: string -> LoadOutcome, line: string)
    requires Tokens(line) == [] || Tokens(line)[0] != "blit"
    ensures Step(c, table, files, line).table == table
  {
  }

  /** Without a `blit` line the image cache is left as it was. */
  lemma NoBlitKeepsCache(c: Context, table: map<string, Option<Image>>, files: string -> LoadOutcome, lines: seq<string>)
    requires forall i :: 0 <= i < |lines| ==> Tokens(lines[i]) == [] || Tokens(lines[i])[0] != "blit"
    ensures Interpret(c, table, files, lines).table == table
  {
    forall i | 0 <= i < |lines| {
      StepKeepsCache(c, table, files, lines[i]);
    }
    RunLinesKeepsCache((t, line) => Step(c, t, files, line), table, lines);
  }

  /** An empty line has no first token and fails. */
  lemma EmptyLineFails(c: Context, table: map<string, Option<Image>>, files: string -> LoadOutcome)
    ensures Step(c, table, files, "") == Outcome(Err(MissingToken(0)), table)
  {
    EmptyLineHasNoTokens();
  }

  /**
   * A line that starts with white space (a blank line too) is ignored: `[^"]` takes the space
   * itself as the first token, which is no instruction.
   */
  lemma IndentedLineIgnored(c: Context, table: map<string, Option<Image>>, files: string -> LoadOutcome, line: string)
    requires |line| > 0 && IsSpace(line[0])
    ensures Step(c, table, files, line) == Outcome(Ok(None), table)
  {
    IndentedFirstToken(line);
    UnknownWordIgnored(c, table, files, line);
  }

  /** A line whose first word is not an instruction draws nothing, fails nothing and touches no cache entry. */
  lemma UnknownWordIgnored(c: Context, table: map<string, Option<Image>>, files: string -> LoadOutcome, line: string)
    requires |Tokens(line)| > 0 && !IsKeyword(Tokens(line)[0])
    ensures Step(c, table, files, line) == Outcome(Ok(None), table)
  {
  }

  /** `number` draws the badge number as `String.valueOf` writes it, which `Integer.parseInt` reads back. */
  lemma NumberDrawnAsDecimal(c: Context, t: seq<string>)
    requires |t| > 0 && t[0] == "number"
    requires Instruction(c, t).Ok? && Instruction(c, t).value.Some?
    ensures Instruction(c, t).value.value.sprite.text == FormatInt(c.badge.number)
    ensures ParseInt(Instruction(c, t).value.value.sprite.text) == Some(c.badge.number)
  {
    ParseFormatInt(c.badge.number);
  }

  // ---------------------------------------------------------------------------
  // The renderer object

  /** The renderer's fields: the script's name, its directory, its lines and the initial font size. */
  datatype ScriptSettings = ScriptSettings(
    scriptFile: Option<string>,
    scriptPath: Option<string>,
    script: Option<seq<string>>,
    initialFontSize: Int32)

  const DEFAULT_SCRIPT_SETTINGS: ScriptSettings := ScriptSettings(None, None, None, 200)

  /** What `Files.readAllLines(Paths.get(value))` does: the lines, an I/O failure, or a path that cannot be formed. */
  datatype ScriptRead =
    | ScriptLines(lines: seq<string>)
    | NotReadable     // an IOException
    | MalformedPath   // Paths.get throws before anything is read

  /** The last index of `c` in `s`, if any. */
  function LastIndex(s: string, c: char): (r: Option<nat>)
    ensures r.Some? ==> r.value < |s| && s[r.value] == c && c !in s[r.value + 1..]
    ensures r.None? <==> c !in s
  {
    if s == [] then None
    else if s[|s| - 1] == c then Some(|s| - 1)
    else
      var r := LastIndex(s[..|s| - 1], c);
      assert s == s[..|s| - 1] + [s[|s| - 1]];
      r
  }

  /**
   * `new File(path).getParentFile()` on a Unix path: everything before the last `/`, the root
   * itself when that `/` is the first character of a longer path, nothing when there is no `/`.
   */
  function ParentOf(path: string): (r: Option<string>)
    ensures '/' !in path ==> r.None?
    ensures r.Some? ==> |r.value| < |path| && StartsWith(path, r.value)
  {
    match LastIndex(path, '/')
    case None => None
    case Some(i) =>
      if i == 0 then (if |path| > 1 then Some("/") else None)
      else Some(path[..i])
  }

  /**
   * `setProperty`: `initial-font-size` takes an `int` (an unparsable value keeps the old one);
   * `script-file` records the name, then reads the lines and keeps the file's directory, or on
   * an I/O failure forgets all three; a path that cannot be formed keeps only the new name.
   */
  function Set(s: ScriptSettings, key: string, value: string, read: ScriptRead): (r: (ScriptSettings, SetOutcome))
    ensures r.1 == UnknownKey <==> key != "initial-font-size" && key != "script-file"
    ensures r.1 == UnknownKey ==> r.0 == s
    ensures key == "initial-font-size" ==>
      (r.1 == Applied <==> ParseInt(value).Some?) &&
      (r.1 == Applied ==> r.0 == s.(initialFontSize := ParseInt(value).value)) &&
      (r.1 != Applied ==> r.0 == s)
    ensures key == "script-file" && read.ScriptLines? ==>
      r.1 == Applied && r.0 == s.(scriptFile := Some(value), script := Some(read.lines), scriptPath := ParentOf(value))
    ensures key == "script-file" && read.NotReadable? ==>
      r.1 == Rejected && r.0 == s.(scriptFile := None, script := None, scriptPath := None)
    ensures key == "script-file" && read.MalformedPath? ==>
      r.1 == Rejected && r.0 == s.(scriptFile := Some(value))
  {
    if key == "initial-font-size" then
      match ParseInt(value)
      case None => (s, Rejected)
      case Some(n) => (s.(initialFontSize := n), Applied)
    else if key == "script-file" then
      match read
      case ScriptLines(lines) => (s.(scriptFile := Some(value), script := Some(lines), scriptPath := ParentOf(value)), Applied)
      case NotReadable => (s.(scriptFile := None, script := None, scriptPath := None), Rejected)
      case MalformedPath => (s.(scriptFile := Some(value)), Rejected)
    else (s, UnknownKey)
  }

  /** The context a render runs in: the badge at its pixel size, and the renderer's settings. */
  function ContextOf(s: ScriptSettings, d: BadgeData, m: Metrics, cwd: string): Context {
    Context(d, d.PixelDimension().0, d.PixelDimension().1, m, s.initialFontSize, s.scriptPath, cwd)
  }

  predicate NoScript(s: ScriptSettings) {
    s.script.None? || s.script.value == []
  }

  /** A render: the raster, what was logged and the image cache afterwards. */
  datatype Rendering = Rendering(raster: Raster, log: seq<LogEntry>, table: map<string, Option<Image>>)

  /**
   * `render`: the badge-sized buffer (which throws for a badge without pixels) filled with the
   * background colour; without a script that is all, and "Script is undefined" is logged;
   * otherwise every line runs in order and draws over it.
   */
  function Layout(s: ScriptSettings, d: BadgeData, m: Metrics, table: map<string, Option<Image>>,
                  files: string -> LoadOutcome, cwd: string): (r: Result<Rendering, RenderError>)
    ensures r.Ok? <==> ValidBuffer(d.PixelDimension().0, d.PixelDimension().1)
    ensures r.Ok? ==> r.value.raster.width == d.PixelDimension().0 && r.value.raster.height == d.PixelDimension().1
    ensures r.Ok? ==>
      |r.value.raster.ops| >= 1 && r.value.raster.ops[0] == FillRect(Rect(0, 0, r.value.raster.width, r.value.raster.height), d.backgroundColor)
    ensures r.Ok? && NoScript(s) ==>
      r.value.raster.ops == [r.value.raster.ops[0]] && r.value.log == [ScriptUndefined] && r.value.table == table
    ensures r.Ok? && !NoScript(s) ==> |r.value.raster.ops| + |r.value.log| <= |s.script.value| + 1
  {
    var (w, h) := d.PixelDimension();
    if !ValidBuffer(w, h) then Err(InvalidImageSize(w, h))
    else
      var fill := FillRect(Rect(0, 0, w, h), d.backgroundColor);
      if NoScript(s) then Ok(Rendering(Raster(w, h, [fill]), [ScriptUndefined], table))
      else
        var run := Interpret(ContextOf(s, d, m, cwd), table, files, s.script.value);
        Ok(Rendering(Raster(w, h, [fill] + run.ops), run.log, run.table))
  }

  /**
   * A script split anywhere draws, after the background, what its first part draws and then
   * what its second part draws from the cache the first part leaves: no failure stops a later line.
   */
  lemma ScriptOpsFromLines(s: ScriptSettings, d: BadgeData, m: Metrics, table: map<string, Option<Image>>,
                           files: string -> LoadOutcome, cwd: string, a: seq<string>, b: seq<string>)
    requires s.script == Some(a + b) && a != []
    requires Layout(s, d, m, table, files, cwd).Ok?
    ensures var c := ContextOf(s, d, m, cwd);
      var ra := Interpret(c, table, files, a);
      Layout(s, d, m, table, files, cwd).value.raster.ops[1..] == ra.ops + Interpret(c, ra.table, files, b).ops
  {
    RunLinesAppend((t, line) => Step(ContextOf(s, d, m, cwd), t, files, line), table, a, b);
  }

  /** The loop of `render` over the script's lines, each run through the shared image cache. */
  method RunScript(c: Context, lines: seq<string>, cache: ImageCache, files: string -> LoadOutcome)
    returns (ops: seq<Op>, log: seq<LogEntry>)
    requires cache.Valid()
    modifies cache
    ensures cache.Valid()
    ensures Run(ops, log, cache.table) == Interpret(c, old(cache.table), files, lines)
  {
    ghost var step: LineStep := (t, line) => Step(c, t, files, line);
    ops, log := [], [];
    var lineNumber := 1;
    var i := 0;
    while i < |lines|
      invariant 0 <= i <= |lines| && lineNumber == i + 1
      invariant cache.Valid()
      invariant Run(ops, log, cache.table) == RunLines(step, old(cache.table), lines[..i])
    {
      var line := lines[i];
      var before := Run(ops, log, cache.table);
      RunLinesSnoc(step, old(cache.table), lines, i);
      var result := ExecuteLine(c, cache, files, line);
      // a failure is logged with the line's number and the loop goes on
      var after := Record(before, lineNumber, line, Outcome(result, cache.table));
      ops, log := after.ops, after.log;
      lineNumber := lineNumber + 1;
      i := i + 1;
    }
    assert lines[..i] == lines;
  }

  class Scriptable {
    const base: Renderer
    var settings: ScriptSettings

    /** The constructor declares only `script-file`; `initial-font-size` is accepted without being declared. */
    constructor()
      ensures fresh(base) && base.properties == [Property("script-file", STRING, "", "script file to execute")]
      ensures settings == DEFAULT_SCRIPT_SETTINGS
    {
      var b := new Renderer();
      b.AddProperty("script-file", STRING, "script file to execute");
      base := b;
      settings := DEFAULT_SCRIPT_SETTINGS;
    }

    /** `setProperty`; `read` stands for what reading the named script file would do. */
    method SetProperty(key: string, value: string, read: ScriptRead) returns (outcome: SetOutcome)
      modifies this
      ensures (settings, outcome) == Set(old(settings), key, value, read)
    {
      var r := Set(settings, key, value, read);
      settings := r.0;
      outcome := r.1;
    }

    /** `render`: the loop over the script's lines, each run through the shared image cache. */
    method Render(d: BadgeData, m: Metrics, cache: ImageCache, files: string -> LoadOutcome, cwd: string)
      returns (r: Result<(Raster, seq<LogEntry>), RenderError>)
      requires cache.Valid()
      modifies cache
      ensures cache.Valid()
      ensures var l := Layout(settings, d, m, old(cache.table), files, cwd);
        r.Ok? == l.Ok? && (r.Ok? ==> r.value == (l.value.raster, l.value.log) && cache.table == l.value.table)
    {
      var (w, h) := d.PixelDimension();
      if !ValidBuffer(w, h) {
        return Err(InvalidImageSize(w, h));
      }
      var fill := FillRect(Rect(0, 0, w, h), d.backgroundColor);
      if NoScript(settings) {
        return Ok((Raster(w, h, [fill]), [ScriptUndefined]));
      }
      var c := ContextOf(settings, d, m, cwd);
      var ops, log := RunScript(c, settings.script.value, cache, files);
      r := Ok((Raster(w, h, [fill] + ops), log));
    }
  }
}
