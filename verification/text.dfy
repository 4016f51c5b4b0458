/**
  Character classes and small string utilities shared by the extractor.

  The generator relies on .NET's regex classes `\w` and `\s`, on
  `string.Trim()` and on `string.ToLower()`. All four are modelled on the
  ASCII range: `\w` is a letter, a digit or an underscore; `\s` and Trim's
  white space are space, tab, line feed, carriage return, form feed and
  vertical tab; lower-casing maps A-Z to a-z and leaves every other
  character alone.
 */
module Text {

  predicate IsWordChar(c: char) {
    ('a' <= c <= 'z') || ('A' <= c <= 'Z') || ('0' <= c <= '9') || c == '_'
  }

  predicate IsSpace(c: char) {
    c == ' ' || c == '\t' || c == '\n' || c == '\r' || c == '\U{000B}' || c == '\U{000C}'
  }

  /** A non-empty run of word characters: what `\w+` can match. */
  predicate IsWord(s: string) {
    |s| > 0 && forall i :: 0 <= i < |s| ==> IsWordChar(s[i])
  }

  predicate AllSpace(s: string) {
    forall i :: 0 <= i < |s| ==> IsSpace(s[i])
  }

  /** `r` occurs in `s` starting at index `i`. */
  predicate OccursAt(r: string, s: string, i: int) {
    0 <= i <= |s| - |r| && s[i..i + |r|] == r
  }

  /** `r` occurs in `s` as a contiguous piece. */
  ghost predicate IsInfix(r: string, s: string) {
    exists i :: OccursAt(r, s, i)
  }

  /** Length of the longest prefix of word characters (greedy `\w*`). */
  function WordLen(s: string): (n: nat)
    ensures n <= |s|
    ensures forall i :: 0 <= i < n ==> IsWordChar(s[i])
    ensures n < |s| ==> !IsWordChar(s[n])
  {
    if s == [] || !IsWordChar(s[0]) then 0 else 1 + WordLen(s[1..])
  }

  /** Length of the longest prefix of white space (greedy `\s*`). */
  function SpaceLen(s: string): (n: nat)
    ensures n <= |s|
    ensures AllSpace(s[..n])
    ensures n < |s| ==> !IsSpace(s[n])
  {
    if s == [] || !IsSpace(s[0]) then 0 else 1 + SpaceLen(s[1..])
  }

  /** Length of the longest prefix without a line feed (greedy `.*` in multiline mode). */
  function LineLen(s: string): (n: nat)
    ensures n <= |s|
    ensures '\n' !in s[..n]
    ensures n < |s| ==> s[n] == '\n'
  {
    if s == [] || s[0] == '\n' then 0 else 1 + LineLen(s[1..])
  }

  /** Length of the longest suffix of white space. */
  function TrailingSpaceLen(s: string): (n: nat)
    ensures n <= |s|
    ensures AllSpace(s[|s| - n..])
    ensures n < |s| ==> !IsSpace(s[|s| - n - 1])
  {
    if s == [] || !IsSpace(s[|s| - 1]) then 0 else 1 + TrailingSpaceLen(s[..|s| - 1])
  }

  /** `string.Trim()`: drops leading and trailing white space. */
  function Trim(s: string): (r: string)
    ensures r == [] || (!IsSpace(r[0]) && !IsSpace(r[|r| - 1]))
    ensures exists i :: OccursAt(r, s, i) && AllSpace(s[..i]) && AllSpace(s[i + |r|..])
  {
    var lo := SpaceLen(s);
    if lo == |s| then
      assert OccursAt([], s, 0) && AllSpace(s[..0]);
      []
    else
      var hi := |s| - TrailingSpaceLen(s);
      assert lo < hi by {
        assert !IsSpace(s[lo]);
      }
      assert OccursAt(s[lo..hi], s, lo);
      s[lo..hi]
  }

  function LowerChar(c: char): char {
    if 'A' <= c <= 'Z' then (c as int - 'A' as int + 'a' as int) as char else c
  }

  /** `string.ToLower()` on ASCII letters. */
  function ToLower(s: string): (r: string)
    ensures |r| == |s|
    ensures forall i :: 0 <= i < |s| ==> r[i] == LowerChar(s[i])
  {
    if s == [] then [] else [LowerChar(s[0])] + ToLower(s[1..])
  }

  /** Lower-casing twice is lower-casing once. */
  lemma ToLowerIdempotent(s: string)
    ensures ToLower(ToLower(s)) == ToLower(s)
  {
    var t := ToLower(s);
    assert forall i :: 0 <= i < |t| ==> LowerChar(t[i]) == t[i];
  }

  /** An infix of an infix is an infix. */
  lemma InfixTransitive(a: string, b: string, c: string)
    requires IsInfix(a, b) && IsInfix(b, c)
    ensures IsInfix(a, c)
  {
    var i :| OccursAt(a, b, i);
    var j :| OccursAt(b, c, j);
    assert forall k :: 0 <= k < |a| ==> a[k] == b[i + k] == c[j + i + k];
    assert c[j + i..j + i + |a|] == a;
    assert OccursAt(a, c, j + i);
  }

  lemma PrefixIsInfix(a: string, b: string)
    requires |a| <= |b| && b[..|a|] == a
    ensures IsInfix(a, b)
  {
    assert OccursAt(a, b, 0);
  }

  lemma SuffixIsInfix(t: string, k: nat)
    requires k <= |t|
    ensures IsInfix(t[k..], t)
  {
    assert OccursAt(t[k..], t, k);
  }

  /** A run of `n` non-line-feed characters followed by a line feed or the end has line length `n`. */
  lemma {:induction false} LineLenOf(w: string, rest: string)
    requires '\n' !in w
    requires rest == [] || rest[0] == '\n'
    ensures LineLen(w + rest) == |w|
  {
    if w != [] {
      assert (w + rest)[1..] == w[1..] + rest;
      LineLenOf(w[1..], rest);
    } else {
      assert w + rest == rest;
    }
  }

  /** White space followed by a character that is not white space has that length. */
  lemma {:induction false} SpaceLenOf(w: string, rest: string)
    requires AllSpace(w)
    requires rest == [] || !IsSpace(rest[0])
    ensures SpaceLen(w + rest) == |w|
  {
    if w != [] {
      assert (w + rest)[1..] == w[1..] + rest;
      SpaceLenOf(w[1..], rest);
    } else {
      assert w + rest == rest;
    }
  }

  /** A text without white space at either end is its own trim. */
  lemma TrimUnchanged(s: string)
    requires s != [] && !IsSpace(s[0]) && !IsSpace(s[|s| - 1])
    ensures Trim(s) == s
  {
    assert SpaceLen(s) == 0;
    assert TrailingSpaceLen(s) == 0;
    assert s[0..|s|] == s;
  }
}
