/**
 * The two pieces of the Kotlin standard library's String API that the
 * activity relies on: `trim()` and `contains(other, ignoreCase = true)`.
 * Both are restricted to ASCII: whitespace is the ASCII part of
 * `Char.isWhitespace` and case folding is ASCII upper-casing.
 */
module KotlinStrings {

  /** ASCII part of `Char.isWhitespace`: HT, LF, VT, FF, CR, the four
      information separators FS, GS, RS, US, and the space. */
  predicate IsWhitespace(c: char) {
    var k := c as int;
    k == 32 || 9 <= k <= 13 || 28 <= k <= 31
  }

  predicate AllWhitespace(s: string) {
    forall k :: 0 <= k < |s| ==> IsWhitespace(s[k])
  }

  /** Drops the leading whitespace. */
  function TrimStart(s: string): (r: string)
    ensures |r| <= |s|
  {
    if |s| > 0 && IsWhitespace(s[0]) then TrimStart(s[1..]) else s
  }

  /** Drops the trailing whitespace. */
  function TrimEnd(s: string): (r: string)
    ensures |r| <= |s|
  {
    if |s| > 0 && IsWhitespace(s[|s| - 1]) then TrimEnd(s[..|s| - 1]) else s
  }

  /** What TrimStart drops is all whitespace, and what it keeps is a suffix
      that does not start with whitespace. */
  lemma {:induction false} TrimStartSpec(s: string)
    ensures var r := TrimStart(s);
      |r| <= |s| && r == s[|s| - |r|..] &&
      AllWhitespace(s[..|s| - |r|]) &&
      (|r| > 0 ==> !IsWhitespace(r[0]))
  {
    if |s| > 0 && IsWhitespace(s[0]) {
      TrimStartSpec(s[1..]);
      var r := TrimStart(s[1..]);
      assert s[|s| - |r|..] == s[1..][|s| - 1 - |r|..];
      assert forall k :: 1 <= k < |s| - |r| ==> s[k] == s[1..][..|s| - 1 - |r|][k - 1];
    }
  }

  /** What TrimEnd drops is all whitespace, and what it keeps is a prefix
      that does not end with whitespace. */
  lemma {:induction false} TrimEndSpec(s: string)
    ensures var r := TrimEnd(s);
      |r| <= |s| && r == s[..|r|] &&
      AllWhitespace(s[|r|..]) &&
      (|r| > 0 ==> !IsWhitespace(r[|r| - 1]))
  {
    if |s| > 0 && IsWhitespace(s[|s| - 1]) {
      TrimEndSpec(s[..|s| - 1]);
      var r := TrimEnd(s[..|s| - 1]);
      assert forall k :: |r| <= k < |s| - 1 ==> s[k] == s[..|s| - 1][|r|..][k - |r|];
    }
  }

  /** `String.trim()`: whitespace removed at both ends. The result is no
      longer than the text and neither starts nor ends with whitespace. */
  function Trim(s: string): (r: string)
    ensures |r| <= |s|
    ensures |r| > 0 ==> !IsWhitespace(r[0]) && !IsWhitespace(r[|r| - 1])
  {
    var t := TrimStart(s);
    TrimStartSpec(s);
    TrimEndSpec(t);
    var r := TrimEnd(t);
    assert |r| > 0 ==> r[0] == t[0];
    r
  }

  /** The trimmed text is the infix of the text left after removing
      whitespace at both ends. */
  lemma TrimIsInfix(s: string)
    ensures var i := |s| - |TrimStart(s)|; var r := Trim(s);
      i + |r| <= |s| && r == s[i..i + |r|] &&
      AllWhitespace(s[..i]) && AllWhitespace(s[i + |r|..])
  {
    var t := TrimStart(s);
    TrimStartSpec(s);
    TrimEndSpec(t);
    var i := |s| - |t|;
    var r := TrimEnd(t);
    assert s[i + |r|..] == t[|r|..];
  }

  /** The trimmed text is empty exactly when the whole text is whitespace. */
  lemma TrimEmptyIffBlank(s: string)
    ensures |Trim(s)| == 0 <==> AllWhitespace(s)
  {
    var t := TrimStart(s);
    TrimStartSpec(s);
    TrimIsInfix(s);
    if |Trim(s)| == 0 {
      assert |t| == 0;
      assert s[..|s|] == s;
    }
  }

  /** A text that neither starts nor ends with whitespace is its own trim. */
  lemma TrimOfTrimmed(s: string)
    requires |s| > 0 ==> !IsWhitespace(s[0]) && !IsWhitespace(s[|s| - 1])
    ensures Trim(s) == s
  {
  }

  /** Trimming is idempotent. */
  lemma TrimIdempotent(s: string)
    ensures Trim(Trim(s)) == Trim(s)
  {
  }

  /** ASCII part of `Char.uppercaseChar()`. */
  function AsciiUpper(c: char): (u: char)
    ensures 'a' <= c <= 'z' ==> 'A' <= u <= 'Z' && u as int == c as int - 32
    ensures !('a' <= c <= 'z') ==> u == c
  {
    if 'a' <= c <= 'z' then (c as int - 32) as char else c
  }

  /** `Char.equals(other, ignoreCase = true)` restricted to ASCII. */
  predicate EqualsIgnoringCase(a: char, b: char) {
    a == b || AsciiUpper(a) == AsciiUpper(b)
  }

  /** `pattern` occurs in `text` at offset `i`, ignoring case
      (`regionMatches(..., ignoreCase = true)` at that offset). */
  predicate RegionMatchesAt(text: string, i: int, pattern: string) {
    0 <= i && i + |pattern| <= |text| &&
    forall k :: 0 <= k < |pattern| ==> EqualsIgnoringCase(text[i + k], pattern[k])
  }

  /** The first offset at or after `from` where `pattern` occurs ignoring
      case, or -1 when there is none (`indexOf(pattern, from, ignoreCase = true)`). */
  function IndexOfIgnoringCase(text: string, pattern: string, from: nat): (r: int)
    ensures r == -1 || (from <= r && RegionMatchesAt(text, r, pattern))
    ensures r == -1 ==> forall i :: from <= i ==> !RegionMatchesAt(text, i, pattern)
    ensures r != -1 ==> forall i :: from <= i < r ==> !RegionMatchesAt(text, i, pattern)
    decreases |text| - from
  {
    if from + |pattern| > |text| then -1
    else if forall k :: 0 <= k < |pattern| ==> EqualsIgnoringCase(text[from + k], pattern[k]) then from
    else IndexOfIgnoringCase(text, pattern, from + 1)
  }

  /** `text.contains(pattern, ignoreCase = true)`: some offset matches. */
  function ContainsIgnoringCase(text: string, pattern: string): (b: bool)
    ensures b <==> exists i :: RegionMatchesAt(text, i, pattern)
  {
    IndexOfIgnoringCase(text, pattern, 0) >= 0
  }
}
