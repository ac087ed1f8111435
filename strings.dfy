/** The java.lang.String operations the badge maker relies on, over `seq<char>`. */
module Strings {
  import opened Wrappers

  /** `String.trim` removes every leading and trailing character whose code is at most U+0020. */
  predicate IsTrimmed(c: char) {
    c <= ' '
  }

  /** How many trimmable characters `String.trim` skips at the front of `s`. */
  function Leading(s: string): (n: nat)
    ensures n <= |s| && (n == |s| || !IsTrimmed(s[n]))
    ensures forall k :: 0 <= k < n ==> IsTrimmed(s[k])
  {
    if s == [] || !IsTrimmed(s[0]) then 0 else 1 + Leading(s[1..])
  }

  /** How many trimmable characters `String.trim` drops at the back of `s`. */
  function Trailing(s: string): (n: nat)
    ensures n <= |s| && (n == |s| || !IsTrimmed(s[|s| - 1 - n]))
    ensures forall k :: |s| - n <= k < |s| ==> IsTrimmed(s[k])
  {
    if s == [] || !IsTrimmed(s[|s| - 1]) then 0 else 1 + Trailing(s[..|s| - 1])
  }

  function TrimStart(s: string): (r: string) {
    s[Leading(s)..]
  }

  function TrimEnd(s: string): (r: string) {
    s[..|s| - Trailing(s)]
  }

  /** `String.trim`: the longest infix with no trimmable character at either end. */
  function Trim(s: string): (r: string)
    ensures r == [] || (!IsTrimmed(r[0]) && !IsTrimmed(r[|r| - 1]))
  {
    TrimEnd(TrimStart(s))
  }

  /** What `Trim` keeps is an infix of its input, and everything cut away around it is trimmable. */
  lemma TrimInfix(s: string)
    ensures var r := Trim(s); var i := |s| - |TrimStart(s)|;
      OccursAt(s, r, i) &&
      (forall k :: 0 <= k < i ==> IsTrimmed(s[k])) &&
      (forall k :: i + |r| <= k < |s| ==> IsTrimmed(s[k]))
  {
  }

  predicate StartsWith(s: string, prefix: string) {
    |prefix| <= |s| && s[..|prefix|] == prefix
  }

  /** `String.contains`. */
  predicate Contains(s: string, part: string) {
    exists i :: 0 <= i <= |s| - |part| && OccursAt(s, part, i)
  }

  /** One character of `String.toLowerCase`, ASCII letters only. */
  function LowerChar(c: char): char {
    if 'A' <= c <= 'Z' then (c as int + 32) as char else c
  }

  /** `String.toLowerCase` restricted to ASCII letters (other characters are kept). */
  function ToLower(s: string): (r: string)
    ensures |r| == |s|
    ensures forall k :: 0 <= k < |s| ==> r[k] == LowerChar(s[k])
  {
    if s == [] then []
    else [LowerChar(s[0])] + ToLower(s[1..])
  }

  /** `ToLower(s)` is `t` when they agree character by character. */
  lemma LowerBy(s: string, t: string)
    requires |s| == |t| && forall k :: 0 <= k < |s| ==> LowerChar(s[k]) == t[k]
    ensures ToLower(s) == t
  {
  }

  /** A string without upper-case ASCII letters is its own lower case. */
  lemma LowerOfLower(s: string)
    requires forall k :: 0 <= k < |s| ==> !('A' <= s[k] <= 'Z')
    ensures ToLower(s) == s
  {
  }

  /** `sep` occurs in `s` starting at index `k`. */
  predicate OccursAt(s: string, sep: string, k: int) {
    0 <= k <= |s| - |sep| && s[k..k + |sep|] == sep
  }

  /** The first index at or after `from` where `sep` occurs in `s`. */
  function IndexOf(s: string, sep: string, from: nat): (r: Option<nat>)
    ensures r.Some? ==> from <= r.value && OccursAt(s, sep, r.value)
    ensures r.Some? ==> forall k :: from <= k < r.value ==> !OccursAt(s, sep, k)
    ensures r.None? ==> forall k :: from <= k ==> !OccursAt(s, sep, k)
    decreases |s| - from
  {
    if from + |sep| > |s| then None
    else if OccursAt(s, sep, from) then Some(from)
    else IndexOf(s, sep, from + 1)
  }

  /** An occurrence with none before it (from `from` on) is the one `IndexOf` finds. */
  lemma {:induction false} IndexOfFirst(s: string, sep: string, from: nat, i: nat)
    requires from <= i && OccursAt(s, sep, i)
    requires forall k :: from <= k < i ==> !OccursAt(s, sep, k)
    ensures IndexOf(s, sep, from) == Some(i)
    decreases i - from
  {
    if from < i {
      IndexOfFirst(s, sep, from + 1, i);
    }
  }

  /** `s.split(sep, 2)` for a literal separator: the text before the first `sep` and everything after it. */
  function SplitOnce(s: string, sep: string): (parts: seq<string>)
    requires |sep| > 0
    ensures 1 <= |parts| <= 2
    ensures |parts| == 1 <==> forall k :: 0 <= k ==> !OccursAt(s, sep, k)
    ensures |parts| == 1 ==> parts[0] == s
    ensures |parts| == 2 ==> parts[0] + sep + parts[1] == s
    ensures |parts| == 2 ==> forall k :: 0 <= k < |parts[0]| ==> !OccursAt(s, sep, k)
  {
    match IndexOf(s, sep, 0)
    case None => [s]
    case Some(i) =>
      assert s[..i] + sep + s[i + |sep|..] == s by {
        assert s[i..i + |sep|] == sep;
        assert s == s[..i] + s[i..i + |sep|] + s[i + |sep|..];
      }
      [s[..i], s[i + |sep|..]]
  }

  /** A field free of the separator. */
  predicate SepFree(f: string, sep: char) {
    sep !in f
  }

  /** The fields joined back with `sep` between neighbours (the inverse of splitting). */
  function Join(fields: seq<string>, sep: char): string {
    if |fields| <= 1 then (if fields == [] then [] else fields[0])
    else fields[0] + [sep] + Join(fields[1..], sep)
  }

  /** Every field of `s` between occurrences of `sep`, empty ones included: none contains `sep`, and joined with `sep` they give `s` back. */
  function Fields(s: string, sep: char): (r: seq<string>)
    ensures |r| >= 1
    ensures sep !in s ==> r == [s]
    ensures forall k :: 0 <= k < |r| ==> SepFree(r[k], sep)
    ensures Join(r, sep) == s
    ensures |s| > 0 && s[|s| - 1] != sep ==> |r[|r| - 1]| > 0
    decreases |s|
  {
    if sep !in s then [s]
    else
      var i := FirstIndex(s, sep);
      var rest := Fields(s[i + 1..], sep);
      assert s[..i] + [sep] + s[i + 1..] == s;
      [s[..i]] + rest
  }

  /** Splitting is the only way to cut `s` into `sep`-free fields that join back to it. */
  lemma {:induction false} FieldsUnique(s: string, sep: char, fields: seq<string>)
    requires |fields| >= 1 && Join(fields, sep) == s
    requires forall k :: 0 <= k < |fields| ==> SepFree(fields[k], sep)
    ensures fields == Fields(s, sep)
    decreases |fields|
  {
    if |fields| == 1 {
      assert s == fields[0];
      assert SepFree(fields[0], sep);
    } else {
      var head, more := fields[0], fields[1..];
      var tail := Join(more, sep);
      assert s == head + [sep] + tail;
      var i := |head|;
      assert s[..i] == head && s[i] == sep && s[i + 1..] == tail;
      assert SepFree(head, sep);
      FirstIndexIs(s, sep, i);
      assert FirstIndex(s, sep) == i && sep in s;
      assert forall k :: 0 <= k < |more| ==> SepFree(more[k], sep) by {
        forall k | 0 <= k < |more| ensures SepFree(more[k], sep) {
          assert more[k] == fields[k + 1];
        }
      }
      FieldsUnique(tail, sep, more);
      assert Fields(s, sep) == [head] + Fields(tail, sep);
      assert fields == [head] + more;
    }
  }

  /** The first occurrence of `c` is at `i` when `s[i]` is `c` and nothing before it is. */
  lemma FirstIndexIs(s: string, c: char, i: nat)
    requires i < |s| && s[i] == c && c !in s[..i]
    ensures c in s && FirstIndex(s, c) == i
  {
  }

  function FirstIndex(s: string, c: char): (i: nat)
    requires c in s
    ensures i < |s| && s[i] == c && c !in s[..i]
  {
    if s[0] == c then 0 else 1 + FirstIndex(s[1..], c)
  }

  /** The longest prefix of `fields` that does not end in an empty field: exactly the trailing empty fields are dropped. */
  function DropTrailingEmpty(fields: seq<string>): (r: seq<string>)
    ensures |r| <= |fields| && r == fields[..|r|]
    ensures r == [] || r[|r| - 1] != []
    ensures forall k :: |r| <= k < |fields| ==> fields[k] == []
  {
    if fields == [] || fields[|fields| - 1] != [] then fields
    else DropTrailingEmpty(fields[..|fields| - 1])
  }

  /**
   * `s.split(",")`: a string without the separator splits into itself; otherwise into its
   * fields, none containing the separator, with the trailing empty ones dropped.
   */
  function Split(s: string, sep: char): (r: seq<string>)
    ensures sep !in s ==> r == [s]
    ensures forall k :: 0 <= k < |r| ==> SepFree(r[k], sep)
    ensures var all := Fields(s, sep);
      |r| <= |all| && r == all[..|r|] && (forall k :: |r| <= k < |all| ==> all[k] == [])
    ensures sep in s ==> r == [] || r[|r| - 1] != []
  {
    if sep !in s then [s] else DropTrailingEmpty(Fields(s, sep))
  }

  /** A line that does not end in the separator loses no field: its split joins back to it. */
  lemma {:induction false} SplitJoin(s: string, sep: char)
    requires |s| > 0 && s[|s| - 1] != sep
    ensures Split(s, sep) == Fields(s, sep)
    ensures Join(Split(s, sep), sep) == s
  {
  }

}
