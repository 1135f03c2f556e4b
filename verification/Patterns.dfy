// The two regular expressions of pkg/config/validate.go, matched as written, and strings.TrimSpace.
module Patterns {
  import opened Types
  import opened Validate

  // One piece of a pattern: characters that fit, at least min and at most max of them.
  datatype Piece = Piece(fits: char -> bool, min: nat, max: Option<nat>)

  // The first n characters of s are taken by the piece.
  predicate Takes(p: Piece, s: string, n: nat)
  {
    n <= |s| && p.min <= n && (p.max.Some? ==> n <= p.max.value) && forall i :: 0 <= i < n ==> p.fits(s[i])
  }

  // The whole of s is taken by the pieces, one after another.
  ghost predicate Matches(re: seq<Piece>, s: string)
    decreases |re|
  {
    if re == [] then s == "" else exists n: nat :: Takes(re[0], s, n) && Matches(re[1..], s[n..])
  }

  function One(c: char): Piece { Piece((x: char) => x == c, 1, Some(1)) }

  const LETTER := Piece((x: char) => 'a' <= x <= 'z', 1, Some(1))
  const ID_TAIL := Piece((x: char) => 'a' <= x <= 'z' || '0' <= x <= '9' || x == '-', 1, Some(62))

  // ^[a-z][a-z0-9-]{1,62}$
  const ID_PATTERN := [LETTER, ID_TAIL]

  // [^@\s]+
  const WORD := Piece((x: char) => x != '@' && !RegexSpace(x), 1, None)

  // ^[^@\s]+@[^@\s]+\.[^@\s]+$
  const EMAIL_PATTERN := [WORD, One('@'), WORD, One('.'), WORD]

  // ---- Matching piece by piece ----

  // The last piece takes all that is left.
  lemma MatchesLast(p: Piece, s: string)
    ensures Matches([p], s) <==> Takes(p, s, |s|)
  {
    if Takes(p, s, |s|) { assert s[|s|..] == "" && [p][1..] == []; }
    if Matches([p], s) {
      var n: nat :| Takes([p][0], s, n) && Matches([p][1..], s[n..]);
      assert [p][1..] == [];
      assert n == |s|;
    }
  }

  lemma MatchesFirst(p: Piece, re: seq<Piece>, s: string, n: nat)
    requires Takes(p, s, n) && Matches(re, s[n..])
    ensures Matches([p] + re, s)
  {
    assert ([p] + re)[0] == p && ([p] + re)[1..] == re;
  }

  lemma SplitFirst(p: Piece, re: seq<Piece>, s: string) returns (n: nat)
    requires Matches([p] + re, s)
    ensures Takes(p, s, n) && Matches(re, s[n..])
  {
    assert ([p] + re)[0] == p && ([p] + re)[1..] == re;
    n :| Takes(([p] + re)[0], s, n) && Matches(([p] + re)[1..], s[n..]);
  }

  // ---- The checks are the patterns ----

  // An id passes the check exactly when the pattern matches it.
  lemma ValidIdIsPattern(s: string)
    ensures ValidId(s) <==> Matches(ID_PATTERN, s)
  {
    assert ID_PATTERN == [LETTER] + [ID_TAIL];
    if ValidId(s) {
      assert Takes(ID_TAIL, s[1..], |s[1..]|);
      MatchesLast(ID_TAIL, s[1..]);
      MatchesFirst(LETTER, [ID_TAIL], s, 1);
    }
    if Matches(ID_PATTERN, s) {
      var n := SplitFirst(LETTER, [ID_TAIL], s);
      MatchesLast(ID_TAIL, s[1..]);
      assert s[..1][0] == s[0];
      forall i | 1 <= i < |s| ensures IdChar(s[i]) { assert s[1..][..|s| - 1][i - 1] == s[i]; }
    }
  }

  predicate IsWord(s: string) { forall i :: 0 <= i < |s| ==> s[i] != '@' && !RegexSpace(s[i]) }

  // The pattern is not that of a DNS label: a hyphen may come last.
  lemma TrailingHyphenPasses()
    ensures ValidId("acme-")
  {
  }

  lemma WordTakes(s: string, n: nat)
    requires n <= |s|
    ensures Takes(WORD, s, n) <==> n > 0 && IsWord(s[..n])
  {
  }

  // s is a word, the character c and a rest that the pattern re matches, with c at n.
  ghost predicate CutAt(s: string, n: nat, c: char, re: seq<Piece>)
  {
    0 < n < |s| && s[n] == c && IsWord(s[..n]) && Matches(re, s[n + 1..])
  }

  lemma CutMatches(s: string, n: nat, c: char, re: seq<Piece>)
    requires CutAt(s, n, c, re)
    ensures Matches([WORD] + ([One(c)] + re), s)
  {
    WordTakes(s, n);
    assert s[n..][1..] == s[n + 1..];
    MatchesFirst(One(c), re, s[n..], 1);
    MatchesFirst(WORD, [One(c)] + re, s, n);
  }

  lemma MatchedIsCut(s: string, c: char, re: seq<Piece>) returns (n: nat)
    requires Matches([WORD] + ([One(c)] + re), s)
    ensures CutAt(s, n, c, re)
  {
    n := SplitFirst(WORD, [One(c)] + re, s);
    WordTakes(s, n);
    var one := SplitFirst(One(c), re, s[n..]);
    assert s[n..][..1][0] == s[n] && s[n..][one..] == s[n + 1..];
  }

  lemma LastWord(s: string)
    ensures Matches([WORD], s) <==> s != "" && IsWord(s)
  {
    MatchesLast(WORD, s);
    WordTakes(s, |s|);
    assert s[..|s|] == s;
  }

  lemma AddressIsCut(s: string, at: int, dot: int)
    requires EmailAt(s, at, dot)
    ensures Matches(EMAIL_PATTERN, s)
  {
    var tail := s[at + 1..];
    var n := dot - at - 1;
    assert tail[n + 1..] == s[dot + 1..];
    LastWord(tail[n + 1..]);
    CutMatches(tail, n, '.', [WORD]);
    CutMatches(s, at, '@', [WORD] + ([One('.')] + [WORD]));
    assert EMAIL_PATTERN == [WORD] + ([One('@')] + ([WORD] + ([One('.')] + [WORD])));
  }

  lemma CutIsAddress(s: string) returns (at: nat, dot: nat)
    requires Matches(EMAIL_PATTERN, s)
    ensures EmailAt(s, at, dot)
  {
    assert EMAIL_PATTERN == [WORD] + ([One('@')] + ([WORD] + ([One('.')] + [WORD])));
    at := MatchedIsCut(s, '@', [WORD] + ([One('.')] + [WORD]));
    var tail := s[at + 1..];
    var n := MatchedIsCut(tail, '.', [WORD]);
    LastWord(tail[n + 1..]);
    dot := at + 1 + n;
    forall i | 0 <= i < |s| && i != at ensures s[i] != '@' && !RegexSpace(s[i]) {
      if i < at { assert s[..at][i] == s[i]; }
      if at < i < dot { assert tail[..n][i - at - 1] == s[i]; }
      if i > dot { assert tail[n + 1..][i - dot - 1] == s[i]; }
    }
  }

  // An email passes the check exactly when the pattern matches it.
  lemma ValidEmailIsPattern(s: string)
    ensures ValidEmail(s) <==> Matches(EMAIL_PATTERN, s)
  {
    if ValidEmail(s) {
      var at, dot :| 0 < at < |s| && 0 < dot < |s| && EmailAt(s, at, dot);
      AddressIsCut(s, at, dot);
    }
    if Matches(EMAIL_PATTERN, s) {
      var at, dot := CutIsAddress(s);
    }
  }

  // ---- strings.TrimSpace ----

  function TrimLeft(s: string): string { if s != "" && UnicodeSpace(s[0]) then TrimLeft(s[1..]) else s }

  function TrimRight(s: string): string
  {
    if s != "" && UnicodeSpace(s[|s| - 1]) then TrimRight(s[..|s| - 1]) else s
  }

  function TrimSpace(s: string): string { TrimRight(TrimLeft(s)) }

  lemma {:induction false} TrimLeftEmpty(s: string)
    ensures TrimLeft(s) == "" <==> Blank(s)
    ensures TrimLeft(s) != "" ==> !UnicodeSpace(TrimLeft(s)[0])
  {
    if s != "" && UnicodeSpace(s[0]) {
      TrimLeftEmpty(s[1..]);
      if Blank(s[1..]) {
        forall i | 0 <= i < |s| ensures UnicodeSpace(s[i]) { if i > 0 { assert s[1..][i - 1] == s[i]; } }
      }
    }
  }

  lemma {:induction false} TrimRightKeeps(s: string)
    requires s != "" && !UnicodeSpace(s[0])
    ensures TrimRight(s) != ""
  {
    if UnicodeSpace(s[|s| - 1]) { TrimRightKeeps(s[..|s| - 1]); }
  }

  // A text is refused as blank exactly when trimming leaves nothing of it.
  lemma BlankIsTrimmed(s: string)
    ensures Blank(s) <==> TrimSpace(s) == ""
  {
    TrimLeftEmpty(s);
    if TrimLeft(s) != "" { TrimRightKeeps(TrimLeft(s)); }
  }
}
