/**
  The `@name:type` parameter tokens of an annotated `.sql` file.

  The generator matches the pattern `@(\w+):(\w+)` three times over the same
  text: `ParseParameters` walks the matches, and `CleanupSqlForConstant`
  replaces each match by `@name`. Because `:` is not a word character, a
  match starting at an `@` has no choice to make: the name is the longest run
  of word characters after the `@`, it must be followed by `:`, and the type
  is the longest run of word characters after that. Matches are found from
  left to right and do not overlap, so the regex is modelled by `Scan`, which
  cuts the text into single literal characters and whole tokens.
 */
module Parameters {
  import opened Text
  import opened Wrappers

  /** One `(Name, Type)` pair of the generator's parameter list. */
  datatype Param = Param(name: string, sqlType: string)

  /** The token as written in the `.sql` file: `@name:type`. */
  function Spelled(p: Param): string {
    "@" + p.name + ":" + p.sqlType
  }

  /** The token as it appears in the SQL constant: `@name`. */
  function Bare(p: Param): string {
    "@" + p.name
  }

  /** A piece of scanned text: one character outside any token, or a whole token. */
  datatype Piece = Lit(c: char) | Tok(param: Param)

  /**
    The match of `@(\w+):(\w+)` that begins at the first character of `s`,
    if there is one. A match is a maximal token: its type is not followed by
    another word character.
   */
  function TokenAt(s: string): (r: Option<Param>)
    ensures r.Some? ==> IsWord(r.value.name) && IsWord(r.value.sqlType)
    ensures r.Some? ==> |Spelled(r.value)| <= |s| && s[..|Spelled(r.value)|] == Spelled(r.value)
    ensures r.Some? ==> |Spelled(r.value)| == |s| || !IsWordChar(s[|Spelled(r.value)|])
  {
    if |s| > 0 && s[0] == '@' then
      var n := WordLen(s[1..]);
      if n > 0 && 1 + n < |s| && s[1 + n] == ':' then
        var t := WordLen(s[2 + n..]);
        if t > 0 then
          var p := Param(s[1..1 + n], s[2 + n..2 + n + t]);
          assert forall i :: 0 <= i < n ==> p.name[i] == s[1..][i];
          assert forall i :: 0 <= i < t ==> p.sqlType[i] == s[2 + n..][i];
          assert s[..|Spelled(p)|] == Spelled(p);
          Some(p)
        else None
      else None
    else None
  }

  /**
    Conversely, a text that begins with a maximal token is matched there, and
    the match is exactly that token.
   */
  lemma TokenAtSpelled(p: Param, rest: string)
    requires IsWord(p.name) && IsWord(p.sqlType)
    requires rest == [] || !IsWordChar(rest[0])
    ensures TokenAt(Spelled(p) + rest) == Some(p)
  {
    SpelledLayout(p.name, p.sqlType, rest);
    WordLenOf(p.name, ":" + p.sqlType + rest);
    WordLenOf(p.sqlType, rest);
  }

  /** Where the name and the type sit in a spelled-out token followed by more text. */
  lemma SpelledLayout(name: string, sqlType: string, rest: string)
    ensures var s := "@" + name + ":" + sqlType + rest;
      var n := |name|;
      |s| == 2 + n + |sqlType| + |rest| && s[0] == '@' && s[1 + n] == ':' &&
      s[1..] == name + (":" + sqlType + rest) && s[2 + n..] == sqlType + rest &&
      s[1..1 + n] == name && s[2 + n..2 + n + |sqlType|] == sqlType
  {
    var s := "@" + name + ":" + sqlType + rest;
    var n := |name|;
    assert s == "@" + (name + (":" + (sqlType + rest)));
    assert s[1..] == name + (":" + sqlType + rest);
    assert s[2 + n..] == sqlType + rest;
  }

  lemma {:induction false} WordLenOf(w: string, rest: string)
    requires forall i :: 0 <= i < |w| ==> IsWordChar(w[i])
    requires rest == [] || !IsWordChar(rest[0])
    ensures WordLen(w + rest) == |w|
  {
    if w != [] {
      assert (w + rest)[1..] == w[1..] + rest;
      WordLenOf(w[1..], rest);
    }
  }

  /** Text as it was written: literal characters and spelled-out tokens. */
  function Unscan(ps: seq<Piece>): string {
    if ps == [] then [] else
      (match ps[0] case Lit(c) => [c] case Tok(p) => Spelled(p)) + Unscan(ps[1..])
  }

  /** Text as the SQL constant shows it: literal characters and bare `@name` tokens. */
  function CleanText(ps: seq<Piece>): string {
    if ps == [] then [] else
      (match ps[0] case Lit(c) => [c] case Tok(p) => Bare(p)) + CleanText(ps[1..])
  }

  /** The tokens among the pieces, in order. */
  function TokensOf(ps: seq<Piece>): seq<Param> {
    if ps == [] then [] else
      (match ps[0] case Lit(_) => [] case Tok(p) => [p]) + TokensOf(ps[1..])
  }

  /** Characters a cleanup removes for the given tokens: the colon and the type of each. */
  function Overhead(ts: seq<Param>): nat {
    if ts == [] then 0 else 1 + |ts[0].sqlType| + Overhead(ts[1..])
  }

  /**
    Leftmost, non-overlapping scanning of `@(\w+):(\w+)`: a token where one
    begins, otherwise one literal character. Scanning loses nothing: the
    pieces spell out the input again.
   */
  function Scan(s: string): (ps: seq<Piece>)
    ensures Unscan(ps) == s
    decreases |s|
  {
    if s == [] then []
    else match TokenAt(s)
      case Some(p) =>
        var rest := s[|Spelled(p)|..];
        assert s == Spelled(p) + rest;
        [Tok(p)] + Scan(rest)
      case None =>
        assert s == [s[0]] + s[1..];
        [Lit(s[0])] + Scan(s[1..])
  }

  /** `regex.Matches(sqlContent)`: the tokens of the text, in order of appearance. */
  function Matches(s: string): seq<Param> {
    TokensOf(Scan(s))
  }

  /** No position strictly inside a spelled-out token starts a match: it holds no `@`. */
  lemma NoTokenInside(p: Param, rest: string, j: int)
    requires IsWord(p.name) && IsWord(p.sqlType)
    requires 1 <= j < |Spelled(p)|
    ensures TokenAt((Spelled(p) + rest)[j..]) == None
  {
    var s := Spelled(p) + rest;
    var n := |p.name|;
    SpelledLayout(p.name, p.sqlType, rest);
    if j < 1 + n {
      assert s[j] == p.name[j - 1];
    } else if j > 1 + n {
      assert s[j] == p.sqlType[j - 2 - n];
    }
    assert s[j..][0] == s[j] != '@';
  }

  /**
    Every position where `@(\w+):(\w+)` matches is reported by the scan: a
    match that starts inside an earlier match is impossible, so none is
    skipped.
   */
  lemma {:induction false} TokenFound(s: string, i: int)
    requires 0 <= i < |s| && TokenAt(s[i..]).Some?
    ensures TokenAt(s[i..]).value in Matches(s)
    decreases |s|
  {
    MatchesStep(s);
    var r := TokenAt(s);
    if i == 0 {
      assert s[i..] == s;
    } else {
      var k := if r.Some? then |Spelled(r.value)| else 1;
      if i < k {
        assert s == Spelled(r.value) + s[k..];
        NoTokenInside(r.value, s[k..], i);
        assert false;
      }
      TokenAtDrop(s, k, i - k);
      TokenFound(s[k..], i - k);
    }
  }

  lemma DropDrop(s: string, k: nat, j: nat)
    requires k + j <= |s|
    ensures s[k..][j..] == s[k + j..]
  {
  }

  /** One step of the scan: a match where one begins, otherwise one character passed over. */
  lemma MatchesStep(s: string)
    requires s != []
    ensures TokenAt(s).Some? ==> Matches(s) == [TokenAt(s).value] + Matches(s[|Spelled(TokenAt(s).value)|..])
    ensures TokenAt(s).None? ==> Matches(s) == Matches(s[1..])
  {
    match TokenAt(s)
    case Some(q) =>
      PiecesCons(Tok(q), Scan(s[|Spelled(q)|..]));
    case None =>
      PiecesCons(Lit(s[0]), Scan(s[1..]));
  }

  lemma TokenAtDrop(s: string, k: nat, j: int)
    requires 0 <= j && k + j <= |s|
    ensures forall i :: i == k + j ==> TokenAt(s[k..][j..]) == TokenAt(s[i..])
  {
    DropDrop(s, k, j);
  }

  /** A match that does not begin the text is a match of what follows the first scan step. */
  lemma LaterMatch(s: string, p: Param) returns (k: nat)
    requires p in Matches(s) && TokenAt(s) != Some(p)
    ensures 0 < k <= |s| && p in Matches(s[k..])
  {
    if s == [] {
      assert false;
    }
    MatchesStep(s);
    k := if TokenAt(s).Some? then |Spelled(TokenAt(s).value)| else 1;
  }

  /** Conversely, every token the scan reports is a match at some position of the text. */
  lemma {:induction false} MatchPlaced(s: string, p: Param) returns (i: int)
    requires p in Matches(s)
    ensures 0 <= i < |s| && TokenAt(s[i..]) == Some(p)
    decreases |s|
  {
    if TokenAt(s) == Some(p) {
      i := 0;
      assert s[i..] == s;
    } else {
      var k := LaterMatch(s, p);
      var j := MatchPlaced(s[k..], p);
      i := k + j;
      TokenAtDrop(s, k, j);
    }
  }

  /** The matches are exactly the tokens that `@(\w+):(\w+)` finds at some position. */
  lemma MatchesAreTokens(s: string, p: Param)
    ensures p in Matches(s) <==> exists i :: 0 <= i < |s| && TokenAt(s[i..]) == Some(p)
  {
    if p in Matches(s) {
      var i := MatchPlaced(s, p);
    }
    if exists i :: 0 <= i < |s| && TokenAt(s[i..]) == Some(p) {
      var i :| 0 <= i < |s| && TokenAt(s[i..]) == Some(p);
      TokenFound(s, i);
    }
  }

  /** A match named `n` begins at position `i` of `s`. */
  predicate TokenNamedAt(s: string, i: int, n: string) {
    0 <= i < |s| && TokenAt(s[i..]).Some? && TokenAt(s[i..]).value.name == n
  }

  /** A match named `n` begins where some reported match named `n` was found. */
  lemma ReportedNameFound(s: string, n: string) returns (i: int)
    requires HasName(Matches(s), n)
    ensures TokenNamedAt(s, i, n)
  {
    var ms := Matches(s);
    var j :| 0 <= j < |ms| && ms[j].name == n;
    i := MatchPlaced(s, ms[j]);
  }

  /** A match named `n` that begins somewhere is reported. */
  lemma FoundNameReported(s: string, i: int, n: string)
    requires TokenNamedAt(s, i, n)
    ensures HasName(Matches(s), n)
  {
    var p := TokenAt(s[i..]).value;
    TokenFound(s, i);
    var ms := Matches(s);
    var j :| 0 <= j < |ms| && ms[j] == p;
  }

  /** Some match of the text is named `n` exactly when a match named `n` begins somewhere in it. */
  lemma MatchNames(s: string, n: string)
    ensures HasName(Matches(s), n) <==> exists i :: TokenNamedAt(s, i, n)
  {
    if HasName(Matches(s), n) {
      var i := ReportedNameFound(s, n);
    }
    if exists i :: TokenNamedAt(s, i, n) {
      var i :| TokenNamedAt(s, i, n);
      FoundNameReported(s, i, n);
    }
  }

  /**
    `CleanupSqlForConstant`: every token `@name:type` becomes `@name`. Only the
    colon and the type of each token are removed.
   */
  function Cleanup(s: string): (r: string)
    ensures |r| == |s| - Overhead(Matches(s))
  {
    var ps := Scan(s);
    CleanTextLength(ps);
    CleanText(ps)
  }

  lemma {:induction false} CleanTextLength(ps: seq<Piece>)
    ensures |CleanText(ps)| + Overhead(TokensOf(ps)) == |Unscan(ps)|
  {
    if ps != [] {
      CleanTextLength(ps[1..]);
      match ps[0]
      case Lit(_) =>
        assert TokensOf(ps) == TokensOf(ps[1..]);
      case Tok(p) =>
        assert TokensOf(ps) == [p] + TokensOf(ps[1..]);
    }
  }

  /** Unscan, CleanText and TokensOf on a piece followed by more pieces. */
  lemma PiecesCons(x: Piece, ps: seq<Piece>)
    ensures Unscan([x] + ps) == (match x case Lit(c) => [c] case Tok(p) => Spelled(p)) + Unscan(ps)
    ensures CleanText([x] + ps) == (match x case Lit(c) => [c] case Tok(p) => Bare(p)) + CleanText(ps)
    ensures TokensOf([x] + ps) == (match x case Lit(_) => [] case Tok(p) => [p]) + TokensOf(ps)
  {
    assert ([x] + ps)[0] == x;
    assert ([x] + ps)[1..] == ps;
  }

  /**
    Text without an `@` passes through the scan unchanged: it yields no token
    and is copied into the SQL constant as it is.
   */
  lemma {:induction false} CleanupPassesText(a: string, b: string)
    requires '@' !in a
    ensures Matches(a + b) == Matches(b)
    ensures Cleanup(a + b) == a + Cleanup(b)
  {
    if a != [] {
      var s := a + b;
      var tail := a[1..] + b;
      assert s[1..] == tail;
      assert s[0] == a[0] != '@';
      assert TokenAt(s) == None;
      assert Scan(s) == [Lit(a[0])] + Scan(tail);
      PiecesCons(Lit(a[0]), Scan(tail));
      CleanupPassesText(a[1..], b);
      assert a == [a[0]] + a[1..];
    } else {
      assert a + b == b;
    }
  }

  /** A position where no match begins is copied into the constant as it is. */
  lemma CleanupStep(s: string)
    requires s != [] && TokenAt(s).None?
    ensures Matches(s) == Matches(s[1..])
    ensures Cleanup(s) == [s[0]] + Cleanup(s[1..])
  {
    assert Scan(s) == [Lit(s[0])] + Scan(s[1..]);
    PiecesCons(Lit(s[0]), Scan(s[1..]));
  }

  /**
    Text none of whose positions starts a match passes through unchanged,
    even when it holds an `@` (as the operators `@>`, `<@` and `@@` do).
   */
  lemma {:induction false} CleanupPassesUnmatched(a: string, b: string)
    requires forall i :: 0 <= i < |a| ==> TokenAt(a[i..] + b).None?
    ensures Matches(a + b) == Matches(b)
    ensures Cleanup(a + b) == a + Cleanup(b)
  {
    if a != [] {
      var s, t := a + b, a[1..] + b;
      UnmatchedTail(a, b);
      assert s[1..] == t;
      CleanupStep(s);
      CleanupPassesUnmatched(a[1..], b);
      assert Cleanup(s) == [a[0]] + (a[1..] + Cleanup(b));
      ConsAppend(a, Cleanup(b));
    } else {
      assert a + b == b;
    }
  }

  lemma ConsAppend(a: string, x: string)
    requires a != []
    ensures [a[0]] + (a[1..] + x) == a + x
  {
    assert a == [a[0]] + a[1..];
  }

  lemma UnmatchedTail(a: string, b: string)
    requires a != []
    requires forall i :: 0 <= i < |a| ==> TokenAt(a[i..] + b).None?
    ensures TokenAt(a + b).None?
    ensures forall i :: 0 <= i < |a[1..]| ==> TokenAt(a[1..][i..] + b).None?
  {
    assert a[0..] == a;
    forall i | 0 <= i < |a[1..]|
      ensures TokenAt(a[1..][i..] + b).None?
    {
      assert a[1..][i..] == a[i + 1..];
    }
  }

  /** `@` followed by a character that cannot start a name begins no match. */
  lemma AtWithoutName(x: string)
    requires |x| >= 2 && x[0] == '@' && !IsWordChar(x[1])
    ensures TokenAt(x).None?
  {
    assert x[1..][0] == x[1];
  }

  /** `@> @name:type`: the containment operator is kept and the token after it is cleaned. */
  lemma ContainmentThenToken(p: Param, b: string)
    requires IsWord(p.name) && IsWord(p.sqlType)
    requires b == [] || !IsWordChar(b[0])
    ensures Matches("@> " + Spelled(p) + b) == [p] + Matches(b)
    ensures Cleanup("@> " + Spelled(p) + b) == "@> " + Bare(p) + Cleanup(b)
  {
    var op := "@> ";
    var t := Spelled(p) + b;
    forall i | 0 <= i < |op|
      ensures TokenAt(op[i..] + t).None?
    {
      if i == 0 {
        AtWithoutName(op + t);
      }
    }
    CleanupPassesUnmatched(op, t);
    CleanupRewritesToken(p, b);
    Regroup3(op, Spelled(p), b);
    Regroup3(op, Bare(p), Cleanup(b));
  }

  /**
    A maximal token is reported as one match and is rewritten to `@name`;
    scanning resumes right after its type.
   */
  lemma CleanupRewritesToken(p: Param, b: string)
    requires IsWord(p.name) && IsWord(p.sqlType)
    requires b == [] || !IsWordChar(b[0])
    ensures Matches(Spelled(p) + b) == [p] + Matches(b)
    ensures Cleanup(Spelled(p) + b) == Bare(p) + Cleanup(b)
  {
    var s := Spelled(p) + b;
    TokenAtSpelled(p, b);
    assert s[|Spelled(p)|..] == b;
    assert Scan(s) == [Tok(p)] + Scan(b);
    PiecesCons(Tok(p), Scan(b));
  }

  lemma Regroup3(a: string, x: string, b: string)
    ensures a + x + b == a + (x + b)
  {
  }

  lemma Regroup5(a: string, x: string, b: string, y: string, c: string)
    ensures a + x + b + y + c == a + (x + (b + y + c))
  {
  }

  /** Text without `@` holds no token and is kept as it is. */
  lemma PlainText(b: string)
    requires '@' !in b
    ensures Matches(b) == [] && Cleanup(b) == b
  {
    CleanupPassesText(b, []);
    assert b + [] == b;
  }

  /** A token followed by text without `@`. */
  lemma TokenThenText(p: Param, b: string)
    requires '@' !in b
    requires IsWord(p.name) && IsWord(p.sqlType)
    requires b == [] || !IsWordChar(b[0])
    ensures Matches(Spelled(p) + b) == [p]
    ensures Cleanup(Spelled(p) + b) == Bare(p) + b
  {
    PlainText(b);
    CleanupRewritesToken(p, b);
  }

  /** Plain text around one `@name:type` token: the token is the only parameter and loses its type. */
  lemma OneToken(a: string, p: Param, b: string)
    requires '@' !in a && '@' !in b
    requires IsWord(p.name) && IsWord(p.sqlType)
    requires b == [] || !IsWordChar(b[0])
    ensures Matches(a + Spelled(p) + b) == [p]
    ensures Cleanup(a + Spelled(p) + b) == a + Bare(p) + b
  {
    TokenThenText(p, b);
    CleanupPassesText(a, Spelled(p) + b);
    Regroup3(a, Spelled(p), b);
    Regroup3(a, Bare(p), b);
  }

  /** A token followed by text that holds one more token. */
  lemma TokenThenOneToken(p: Param, b: string, q: Param, c: string)
    requires '@' !in b && '@' !in c
    requires IsWord(p.name) && IsWord(p.sqlType) && IsWord(q.name) && IsWord(q.sqlType)
    requires b != [] && !IsWordChar(b[0]) && (c == [] || !IsWordChar(c[0]))
    ensures Matches(Spelled(p) + (b + Spelled(q) + c)) == [p, q]
    ensures Cleanup(Spelled(p) + (b + Spelled(q) + c)) == Bare(p) + (b + Bare(q) + c)
  {
    OneToken(b, q, c);
    CleanupRewritesToken(p, b + Spelled(q) + c);
  }

  /** Two tokens in plain text: both are parameters, in order, and both lose their types. */
  lemma TwoTokens(a: string, p: Param, b: string, q: Param, c: string)
    requires '@' !in a && '@' !in b && '@' !in c
    requires IsWord(p.name) && IsWord(p.sqlType) && IsWord(q.name) && IsWord(q.sqlType)
    requires b != [] && !IsWordChar(b[0]) && (c == [] || !IsWordChar(c[0]))
    ensures Matches(a + Spelled(p) + b + Spelled(q) + c) == [p, q]
    ensures Cleanup(a + Spelled(p) + b + Spelled(q) + c) == a + Bare(p) + b + Bare(q) + c
  {
    TokenThenOneToken(p, b, q, c);
    CleanupPassesText(a, Spelled(p) + (b + Spelled(q) + c));
    Regroup5(a, Spelled(p), b, Spelled(q), c);
    Regroup5(a, Bare(p), b, Bare(q), c);
  }

  /** Cleanup changes the text exactly when the text holds at least one token. */
  lemma CleanupChangesIffTokens(s: string)
    ensures Cleanup(s) == s <==> Matches(s) == []
  {
    CleanTextWithoutTokens(Scan(s));
  }

  lemma {:induction false} CleanTextWithoutTokens(ps: seq<Piece>)
    ensures TokensOf(ps) == [] ==> CleanText(ps) == Unscan(ps)
  {
    if ps != [] {
      CleanTextWithoutTokens(ps[1..]);
    }
  }

  /**
    Cleanup is not idempotent: a type followed by another `:word` leaves a
    fresh token behind, so `@n:t:u` cleans to `@n:u` ...
   */
  lemma CleanupLeavesSecondType(p: Param, u: string)
    requires IsWord(p.name) && IsWord(p.sqlType) && IsWord(u)
    ensures Cleanup(Spelled(p) + (":" + u)) == Bare(p) + (":" + u)
  {
    CleanupColonWord(u);
    CleanupRewritesToken(p, ":" + u);
  }

  /** ... which cleans again to `@n`. */
  lemma CleanupAgainDropsSecondType(p: Param, u: string)
    requires IsWord(p.name) && IsWord(u)
    ensures Cleanup(Bare(p) + (":" + u)) == Bare(p)
  {
    var q := p.(sqlType := u);
    assert Spelled(q) == Bare(p) + (":" + u);
    CleanupOfToken(q);
  }

  lemma CleanupColonWord(u: string)
    requires IsWord(u)
    ensures Cleanup(":" + u) == ":" + u
  {
    var tail := ":" + u;
    assert '@' !in tail by {
      assert forall i :: 0 <= i < |u| ==> tail[i + 1] == u[i];
    }
    CleanupPassesText(tail, []);
    assert tail + [] == tail;
    assert Cleanup([]) == [];
  }

  lemma CleanupOfToken(p: Param)
    requires IsWord(p.name) && IsWord(p.sqlType)
    ensures Cleanup(Spelled(p)) == Bare(p) != Spelled(p)
  {
    CleanupRewritesToken(p, []);
    assert Spelled(p) + [] == Spelled(p);
    assert Cleanup([]) == [];
    assert |Bare(p)| < |Spelled(p)|;
  }

  /** A list of parameters holds an entry named `n`. */
  predicate HasName(ps: seq<Param>, n: string) {
    exists i :: 0 <= i < |ps| && ps[i].name == n
  }

  lemma HasNameSnoc(ps: seq<Param>, x: Param, n: string)
    ensures HasName(ps + [x], n) <==> HasName(ps, n) || x.name == n
  {
    var q := ps + [x];
    if HasName(ps, n) {
      var i :| 0 <= i < |ps| && ps[i].name == n;
      assert q[i].name == n;
    }
    if x.name == n {
      assert q[|ps|].name == n;
    }
    if HasName(q, n) {
      var i :| 0 <= i < |q| && q[i].name == n;
      if i < |ps| {
        assert ps[i].name == n;
      }
    }
  }

  /**
    Keeps the first entry for each name, in order of first appearance; a
    later entry with a name already kept is dropped whatever its type.
   */
  function Dedup(ts: seq<Param>): seq<Param>
    decreases |ts|
  {
    if ts == [] then []
    else
      var kept := Dedup(ts[..|ts| - 1]);
      var last := ts[|ts| - 1];
      if HasName(kept, last.name) then kept else kept + [last]
  }

  /** One more entry is kept exactly when no kept entry has its name. */
  lemma DedupSnoc(ts: seq<Param>, init: seq<Param>, last: Param)
    requires ts == init + [last]
    ensures Dedup(ts) == if HasName(Dedup(init), last.name) then Dedup(init) else Dedup(init) + [last]
  {
    assert ts[..|ts| - 1] == init;
  }

  /** The position of the first entry named `n`. */
  function FirstIndex(ts: seq<Param>, n: string): (i: nat)
    requires HasName(ts, n)
    ensures i < |ts| && ts[i].name == n
    ensures forall j :: 0 <= j < i ==> ts[j].name != n
  {
    if ts[0].name == n then 0
    else
      var k :| 0 <= k < |ts| && ts[k].name == n;
      assert ts[1..][k - 1].name == n;
      1 + FirstIndex(ts[1..], n)
  }

  /** Extending a list does not move the first occurrence of a name it already had. */
  lemma FirstIndexOfPrefix(ts: seq<Param>, m: nat, n: string)
    requires m <= |ts| && HasName(ts[..m], n)
    ensures HasName(ts, n) && FirstIndex(ts, n) == FirstIndex(ts[..m], n)
  {
    var i := FirstIndex(ts[..m], n);
    assert ts[i].name == n;
    var j := FirstIndex(ts, n);
    assert j < m ==> ts[..m][j] == ts[j];
  }

  /** A name is in the parameter list exactly when some token carries it. */
  lemma {:induction false} DedupHasName(ts: seq<Param>, n: string)
    ensures HasName(Dedup(ts), n) <==> HasName(ts, n)
  {
    if ts != [] {
      var pre, last := ts[..|ts| - 1], ts[|ts| - 1];
      assert ts == pre + [last];
      HasNameSnoc(pre, last, n);
      DedupHasName(pre, n);
      HasNameSnoc(Dedup(pre), last, n);
    }
  }

  /** The names in the parameter list are pairwise distinct. */
  lemma {:induction false} DedupDistinct(ts: seq<Param>)
    ensures forall a, b :: 0 <= a < b < |Dedup(ts)| ==> Dedup(ts)[a].name != Dedup(ts)[b].name
  {
    if ts != [] {
      var pre, last := ts[..|ts| - 1], ts[|ts| - 1];
      var kept := Dedup(pre);
      DedupDistinct(pre);
      if !HasName(kept, last.name) {
        forall a | 0 <= a < |kept|
          ensures kept[a].name != last.name
        {
        }
      }
    }
  }

  /**
    Each entry is the first token carrying its name, so it holds the type of
    that first occurrence.
   */
  lemma {:induction false} DedupFirstOccurrence(ts: seq<Param>)
    ensures forall k :: 0 <= k < |Dedup(ts)| ==>
              HasName(ts, Dedup(ts)[k].name) && Dedup(ts)[k] == ts[FirstIndex(ts, Dedup(ts)[k].name)]
  {
    if ts != [] {
      var pre, last := ts[..|ts| - 1], ts[|ts| - 1];
      var kept := Dedup(pre);
      DedupFirstOccurrence(pre);
      forall k | 0 <= k < |kept|
        ensures HasName(ts, kept[k].name) && kept[k] == ts[FirstIndex(ts, kept[k].name)]
      {
        FirstIndexOfPrefix(ts, |ts| - 1, kept[k].name);
      }
      if !HasName(kept, last.name) {
        LastIsFirstOccurrence(ts, kept);
      }
    }
  }

  /** A name the earlier tokens lack first occurs at the last token. */
  lemma LastIsFirstOccurrence(ts: seq<Param>, kept: seq<Param>)
    requires ts != [] && kept == Dedup(ts[..|ts| - 1])
    requires !HasName(kept, ts[|ts| - 1].name)
    ensures HasName(ts, ts[|ts| - 1].name) && FirstIndex(ts, ts[|ts| - 1].name) == |ts| - 1
  {
    var pre, n := ts[..|ts| - 1], ts[|ts| - 1].name;
    DedupHasName(pre, n);
    forall j | 0 <= j < |ts| - 1
      ensures ts[j].name != n
    {
      assert pre[j] == ts[j];
    }
    assert ts[|ts| - 1].name == n;
  }

  /** Entries appear in the order of their names' first occurrences. */
  lemma {:induction false} DedupOrder(ts: seq<Param>)
    ensures forall a, b :: 0 <= a < b < |Dedup(ts)| ==>
              HasName(ts, Dedup(ts)[a].name) && HasName(ts, Dedup(ts)[b].name) &&
              FirstIndex(ts, Dedup(ts)[a].name) < FirstIndex(ts, Dedup(ts)[b].name)
  {
    if ts != [] {
      var pre, last := ts[..|ts| - 1], ts[|ts| - 1];
      var kept := Dedup(pre);
      DedupOrder(pre);
      forall k | 0 <= k < |kept|
        ensures HasName(pre, kept[k].name) && HasName(ts, kept[k].name)
        ensures FirstIndex(ts, kept[k].name) == FirstIndex(pre, kept[k].name) < |ts| - 1
      {
        DedupHasName(pre, kept[k].name);
        assert HasName(kept, kept[k].name);
        FirstIndexOfPrefix(ts, |ts| - 1, kept[k].name);
      }
      var d := Dedup(ts);
      if !HasName(kept, last.name) {
        LastIsFirstOccurrence(ts, kept);
        assert d == kept + [last];
      } else {
        assert d == kept;
      }
      forall a, b | 0 <= a < b < |Dedup(ts)|
        ensures HasName(ts, Dedup(ts)[a].name) && HasName(ts, Dedup(ts)[b].name) &&
                FirstIndex(ts, Dedup(ts)[a].name) < FirstIndex(ts, Dedup(ts)[b].name)
      {
        assert d[a] == kept[a];
        if b < |kept| {
          assert d[b] == kept[b];
        }
      }
    } else {
      assert Dedup(ts) == [];
    }
  }

  /** There are no more entries than tokens. */
  lemma {:induction false} DedupLength(ts: seq<Param>)
    ensures |Dedup(ts)| <= |ts|
  {
    if ts != [] {
      DedupLength(ts[..|ts| - 1]);
    }
  }

  /**
    A name is in the parameter list exactly when a match with that name
    begins somewhere in the text.
   */
  lemma ParameterNames(s: string, n: string)
    ensures HasName(Dedup(Matches(s)), n) <==> HasName(Matches(s), n)
    ensures HasName(Dedup(Matches(s)), n) <==> exists i :: TokenNamedAt(s, i, n)
  {
    DedupHasName(Matches(s), n);
    MatchNames(s, n);
  }

  /**
    `ParseParameters`: walks the matches in order and adds a match only when
    no entry with its name is listed yet, so the list is the matches with
    repeated names dropped.
   */
  method ParseParameters(sqlContent: string) returns (result: seq<Param>)
    ensures result == Dedup(Matches(sqlContent))
    ensures forall a, b :: 0 <= a < b < |result| ==> result[a].name != result[b].name
    ensures forall n :: HasName(result, n) <==> HasName(Matches(sqlContent), n)
    ensures forall n :: HasName(result, n) <==> exists i :: TokenNamedAt(sqlContent, i, n)
  {
    var matches := Matches(sqlContent);
    result := [];
    for i := 0 to |matches|
      invariant result == Dedup(matches[..i])
    {
      var m := matches[i];
      DedupSnoc(matches[..i + 1], matches[..i], m);
      if !HasName(result, m.name) {
        result := result + [m];
      }
    }
    assert matches[..|matches|] == matches;
    DedupDistinct(matches);
    forall n
      ensures HasName(result, n) <==> HasName(matches, n)
      ensures HasName(result, n) <==> exists i :: TokenNamedAt(sqlContent, i, n)
    {
      ParameterNames(sqlContent, n);
    }
  }
}
