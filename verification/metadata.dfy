/**
  `GetMetadataValue`: the value of a `-- key: value` comment.

  The generator builds the pattern `--\s*KEY:\s*(.+)$` in multiline mode,
  takes the leftmost match and returns its trimmed capture, or the empty
  string when nothing matches. For a key that is a plain word the pattern
  can be followed by hand:
  - `\s*` after `--` must take the whole run of white space, because the key
    begins with a word character; the run may cross line breaks, and the
    `--` need not open a line;
  - after `KEY:`, `\s*` again takes the whole run of white space when some
    other character follows it, and `(.+)` then takes the rest of that line
    (a carriage return included, since `.` matches it);
  - when only white space follows the colon, the regex backtracks into that
    run and captures its last character that is not a line feed, which the
    trim then removes; if there is none, this start position fails and the
    search moves on.
 */
module Metadata {
  import opened Text
  import opened Wrappers

  /** A metadata key such as `name` or `result`: a non-empty word. */
  predicate IsKey(key: string) {
    IsWord(key)
  }

  /** Where the key would start after the `--` and its white space. */
  function KeyStart(t: string): (w: nat)
    requires |t| >= 2
    ensures w <= |t|
  {
    2 + SpaceLen(t[2..])
  }

  /** `t` begins with `--`, optional white space, the key and a colon. */
  predicate HeaderAt(t: string, key: string) {
    |t| >= 2 && t[..2] == "--" &&
    KeyStart(t) + |key| < |t| &&
    t[KeyStart(t)..KeyStart(t) + |key|] == key && t[KeyStart(t) + |key|] == ':'
  }

  /** Some position of `s` begins a header for `key`. */
  ghost predicate HasHeader(s: string, key: string) {
    exists p :: 0 <= p <= |s| && HeaderAt(s[p..], key)
  }

  /**
    Backtracking into a run of white space that reaches the end of the text:
    `(.+)` can only take the last character that is not a line feed.
   */
  function LastNonNewline(t: string): (r: Option<string>)
    ensures r.Some? ==> |r.value| == 1 && r.value[0] != '\n' && IsInfix(r.value, t)
    ensures r.None? ==> forall i :: 0 <= i < |t| ==> t[i] == '\n'
  {
    if t == [] then None
    else if t[|t| - 1] != '\n' then
      assert OccursAt([t[|t| - 1]], t, |t| - 1);
      Some([t[|t| - 1]])
    else
      var r := LastNonNewline(t[..|t| - 1]);
      if r.Some? then
        PrefixIsInfix(t[..|t| - 1], t);
        InfixTransitive(r.value, t[..|t| - 1], t);
        r
      else r
  }

  /** What `\s*(.+)$` captures in `t`, the text after the colon. */
  function Capture(t: string): (r: Option<string>)
    ensures r.Some? ==> |r.value| > 0 && '\n' !in r.value && IsInfix(r.value, t)
    ensures r.None? ==> forall i :: 0 <= i < |t| ==> t[i] == '\n'
  {
    var w := SpaceLen(t);
    if w < |t| then
      var n := LineLen(t[w..]);
      assert t[w..][..n] == t[w..w + n];
      assert OccursAt(t[w..w + n], t, w);
      Some(t[w..w + n])
    else
      LastNonNewline(t)
  }

  /** The regex tried at the first character of `t`. */
  function MatchAt(t: string, key: string): (r: Option<string>)
    ensures r.Some? ==> HeaderAt(t, key) && |r.value| > 0 && '\n' !in r.value && IsInfix(r.value, t)
  {
    if HeaderAt(t, key) then
      var c := Capture(t[KeyStart(t) + |key| + 1..]);
      if c.Some? then
        SuffixIsInfix(t, KeyStart(t) + |key| + 1);
        InfixTransitive(c.value, t[KeyStart(t) + |key| + 1..], t);
        c
      else None
    else None
  }

  /** `regex.Match`: the capture of the leftmost match, if any. */
  function FirstMatch(s: string, key: string): (r: Option<string>)
    ensures r.Some? ==> |r.value| > 0 && '\n' !in r.value && IsInfix(r.value, s)
    ensures r.Some? ==> HasHeader(s, key)
    decreases |s|
  {
    if s == [] then None
    else
      var here := MatchAt(s, key);
      if here.Some? then
        SuffixIsInfix(s, 0);
        assert s[0..] == s;
        here
      else
        var later := FirstMatch(s[1..], key);
        if later.Some? then
          SuffixIsInfix(s, 1);
          InfixTransitive(later.value, s[1..], s);
          var p :| 0 <= p <= |s[1..]| && HeaderAt(s[1..][p..], key);
          assert s[1..][p..] == s[p + 1..];
          later
        else None
  }

  lemma NoNewlineInInfix(r: string, c: string)
    requires IsInfix(r, c) && '\n' !in c
    ensures '\n' !in r
  {
    var i :| OccursAt(r, c, i);
    assert forall k :: 0 <= k < |r| ==> r[k] == c[i + k];
  }

  /**
    `GetMetadataValue`: the trimmed capture of the leftmost match, or the
    empty string. The value is a piece of the file on one line, with no
    white space at either end; without a `--`, white space, `key:` sequence
    anywhere in the file it is empty.
   */
  function GetMetadataValue(sqlContent: string, metadataName: string): (r: string)
    requires IsKey(metadataName)
    ensures r == [] || (!IsSpace(r[0]) && !IsSpace(r[|r| - 1]))
    ensures '\n' !in r
    ensures IsInfix(r, sqlContent)
    ensures !HasHeader(sqlContent, metadataName) ==> r == []
  {
    var m := FirstMatch(sqlContent, metadataName);
    if m.None? then
      assert OccursAt([], sqlContent, 0);
      []
    else
      var r := Trim(m.value);
      var i :| OccursAt(r, m.value, i) && AllSpace(m.value[..i]) && AllSpace(m.value[i + |r|..]);
      InfixTransitive(r, m.value, sqlContent);
      NoNewlineInInfix(r, m.value);
      r
  }

  /**
    A key at least as long as the text is never found: the `--` and the key
    would have to fit inside the text together. In particular a pattern built
    from the whole SQL text, read literally, never matches that text.
   */
  lemma {:induction false} LongKeyNeverMatches(s: string, key: string)
    requires |key| >= |s|
    ensures FirstMatch(s, key) == None
    decreases |s|
  {
    if s != [] {
      assert !HeaderAt(s, key);
      LongKeyNeverMatches(s[1..], key);
    }
  }

  lemma SelfKeyNeverMatches(s: string)
    ensures FirstMatch(s, s) == None
  {
    LongKeyNeverMatches(s, s);
  }

  /** `-- key:` at the start of a text is a header whose key starts at index 3. */
  lemma HeaderAtStart(key: string, tail: string)
    requires IsKey(key)
    ensures HeaderAt("-- " + key + ":" + tail, key)
    ensures KeyStart("-- " + key + ":" + tail) == 3
  {
    var s := "-- " + key + ":" + tail;
    var body := key + (":" + tail);
    assert s == "--" + (" " + body);
    assert s[2..] == " " + body;
    SpaceLenOf(" ", body);
    assert s[3..] == body;
  }

  /** After the colon, one space and a value up to the end of its line capture that value. */
  lemma CaptureValue(v: string, rest: string)
    requires v != [] && '\n' !in v && !IsSpace(v[0])
    requires rest == [] || rest[0] == '\n'
    ensures Capture(" " + (v + rest)) == Some(v)
  {
    var t := " " + (v + rest);
    SpaceLenOf(" ", v + rest);
    assert t[1..] == v + rest;
    LineLenOf(v, rest);
    assert t[1..1 + |v|] == v;
  }

  /** The value of a header on the first line of a file. */
  lemma LeadingHeader(key: string, v: string, rest: string)
    requires IsKey(key)
    requires v != [] && '\n' !in v && !IsSpace(v[0]) && !IsSpace(v[|v| - 1])
    requires rest == [] || rest[0] == '\n'
    ensures GetMetadataValue("-- " + key + ":" + (" " + (v + rest)), key) == v
  {
    var tail := " " + (v + rest);
    var s := "-- " + key + ":" + tail;
    HeaderAtStart(key, tail);
    assert s[3 + |key| + 1..] == tail;
    CaptureValue(v, rest);
    assert MatchAt(s, key) == Some(v);
    assert FirstMatch(s, key) == Some(v);
    TrimUnchanged(v);
  }

  /** A prefix none of whose positions starts a match is passed over. */
  lemma {:induction false} FirstMatchSkip(pre: string, s: string, key: string)
    requires forall p :: 0 <= p < |pre| ==> !HeaderAt((pre + s)[p..], key)
    ensures FirstMatch(pre + s, key) == FirstMatch(s, key)
  {
    if pre != [] {
      assert (pre + s)[0..] == pre + s;
      assert (pre + s)[1..] == pre[1..] + s;
      forall p | 0 <= p < |pre[1..]|
        ensures !HeaderAt((pre[1..] + s)[p..], key)
      {
        assert (pre[1..] + s)[p..] == (pre + s)[p + 1..];
      }
      FirstMatchSkip(pre[1..], s, key);
    } else {
      assert pre + s == s;
    }
  }

  /** A header after a preamble that starts no header for the key yields its value. */
  lemma HeaderAfterPrefix(pre: string, key: string, v: string, rest: string)
    requires IsKey(key)
    requires v != [] && '\n' !in v && !IsSpace(v[0]) && !IsSpace(v[|v| - 1])
    requires rest == [] || rest[0] == '\n'
    requires forall p :: 0 <= p < |pre| ==> !HeaderAt((pre + ("-- " + key + ":" + (" " + (v + rest))))[p..], key)
    ensures GetMetadataValue(pre + ("-- " + key + ":" + (" " + (v + rest))), key) == v
  {
    FirstMatchSkip(pre, "-- " + key + ":" + (" " + (v + rest)), key);
    LeadingHeader(key, v, rest);
  }

  /** A text that does not start with `--` starts no header. */
  lemma NoHeaderWithoutDashes(t: string, key: string)
    requires |t| < 2 || t[0] != '-' || t[1] != '-'
    ensures !HeaderAt(t, key)
  {
  }

  /** A header for a shorter key is not a header for a longer one. */
  lemma ShorterKeyNoHeader(k1: string, key: string, tail: string)
    requires IsKey(k1) && IsKey(key) && |k1| < |key|
    ensures !HeaderAt("-- " + k1 + ":" + tail, key)
  {
    HeaderAtStart(k1, tail);
    var s := "-- " + k1 + ":" + tail;
    assert s[3 + |k1|] == ':';
    assert !IsWordChar(':');
    assert !IsWordChar(s[3 + |k1|]);
  }

  /**
    The value of a header on the second line of a file, when the first line
    is a header for a shorter key whose value has no `-`.
   */
  lemma SecondHeader(k1: string, v1: string, key: string, v: string, rest: string)
    requires IsKey(k1) && IsKey(key) && |k1| < |key|
    requires '-' !in v1 && '\n' !in v1
    requires v != [] && '\n' !in v && !IsSpace(v[0]) && !IsSpace(v[|v| - 1])
    requires rest == [] || rest[0] == '\n'
    ensures GetMetadataValue("-- " + k1 + ":" + (" " + v1 + "\n") + ("-- " + key + ":" + (" " + (v + rest))), key) == v
  {
    var tail1 := " " + v1 + "\n";
    var line := "-- " + k1 + ":" + tail1;
    var second := "-- " + key + ":" + (" " + (v + rest));
    var s := line + second;
    assert forall p :: 2 <= p < |line| ==> line[p] != '-' by {
      assert line == "--" + " " + k1 + ":" + " " + v1 + "\n";
    }
    forall p | 0 <= p < |line|
      ensures !HeaderAt(s[p..], key)
    {
      if p == 0 {
        assert s == "-- " + k1 + ":" + (tail1 + second);
        ShorterKeyNoHeader(k1, key, tail1 + second);
      } else {
        assert s[p..][0] == line[p];
        assert s[p..][1] == s[p + 1];
        NoHeaderWithoutDashes(s[p..], key);
      }
    }
    FirstMatchSkip(line, second, key);
    LeadingHeader(key, v, rest);
  }

  /** The first of two header lines gives its own key's value. */
  lemma FirstHeader(k1: string, v1: string, second: string)
    requires IsKey(k1)
    requires v1 != [] && '\n' !in v1 && !IsSpace(v1[0]) && !IsSpace(v1[|v1| - 1])
    ensures GetMetadataValue("-- " + k1 + ":" + (" " + v1 + "\n") + second, k1) == v1
  {
    assert "-- " + k1 + ":" + (" " + v1 + "\n") + second == "-- " + k1 + ":" + (" " + (v1 + ("\n" + second)));
    LeadingHeader(k1, v1, "\n" + second);
  }
}
