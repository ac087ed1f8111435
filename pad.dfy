/**
 * `Main.pad`: a string fitted to a column of a given width, used to line up the
 * property listings the program logs. A short string is padded with spaces; a long one
 * is cut and marked with `...`, or with `-` in a column of at most three characters.
 */
module MainPad {

  /** `n` spaces, what `String.format("%" + n + "s", "")` gives for a positive `n`. */
  function Spaces(n: nat): (r: string)
    ensures |r| == n && forall k :: 0 <= k < n ==> r[k] == ' '
  {
    if n == 0 then [] else Spaces(n - 1) + [' ']
  }

  /** `pad(width, str)`: every non-negative width gives a string of exactly that length. */
  function Pad(width: int, s: string): (r: string)
    ensures width >= 0 ==> |r| == width
    ensures width < 0 ==> r == ""
  {
    var spaces := width - |s|;
    if spaces > 0 then s + Spaces(spaces)
    else if spaces == 0 then s
    else if width > 3 then s[..width - 3] + "..."
    else if width > 0 then s[..width - 1] + "-"
    else ""
  }

  /** A string shorter than the column is kept whole and followed by spaces. */
  lemma PadShort(width: int, s: string)
    requires |s| < width
    ensures Pad(width, s)[..|s|] == s
    ensures forall k :: |s| <= k < width ==> Pad(width, s)[k] == ' '
  {
  }

  /** A string exactly as long as the column is left as it is. */
  lemma PadExact(s: string)
    ensures Pad(|s|, s) == s
  {
  }

  /** A string longer than a column of more than three characters keeps its head and ends in `...`. */
  lemma PadEllipsis(width: int, s: string)
    requires 3 < width < |s|
    ensures Pad(width, s)[..width - 3] == s[..width - 3]
    ensures Pad(width, s)[width - 3..] == "..."
  {
  }

  /** In a column of one to three characters a longer string keeps its head and ends in `-`. */
  lemma PadDash(width: int, s: string)
    requires 0 < width <= 3 && width < |s|
    ensures Pad(width, s)[..width - 1] == s[..width - 1]
    ensures Pad(width, s)[width - 1] == '-'
  {
  }

  /** Padding what is already padded to the same width changes nothing. */
  lemma PadIdempotent(width: int, s: string)
    ensures Pad(width, Pad(width, s)) == Pad(width, s)
  {
    if width >= 0 {
      PadExact(Pad(width, s));
    }
  }

  /** A string that fits is never cut: its characters are all still there, in front. */
  lemma PadFits(width: int, s: string)
    requires |s| <= width
    ensures Pad(width, s)[..|s|] == s
  {
    if |s| < width {
      PadShort(width, s);
    }
  }
}
