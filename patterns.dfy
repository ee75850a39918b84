/** The two regular expressions whose matches are kept by a split: the link
    pattern of the reply bubble (`/(https?:\/\/[^\s<>"{}|\\^`\[\]]+)/g`, with
    JavaScript's `\s`) and the sentence-break pattern of the response handler
    (`r'([.!?]+(?:\s+|$))'`, with Python's `\s`). Splitting with a capture group
    yields text, match, text, …, text; the same split serves JavaScript's
    `String.prototype.split` and Python's `re.split`, which agree when no match
    is empty. */
module Patterns {
  import opened Common

  // ---------------------------------------------------------------------------
  // Links

  /** A character the URL pattern accepts after the scheme. */
  predicate UrlChar(c: char) {
    !IsSpace(Js, c) && c != '<' && c != '>' && c != '"' && c != '{' && c != '}'
    && c != '|' && c != '\\' && c != '^' && c != '`' && c != '[' && c != ']'
  }

  /** The number of URL characters `s` starts with. */
  function UrlRun(s: string): (k: nat)
    ensures k <= |s|
    ensures k > 0 <==> s != [] && UrlChar(s[0])
    ensures forall i :: 0 <= i < k ==> UrlChar(s[i])
    ensures k < |s| ==> !UrlChar(s[k])
    decreases |s|
  {
    if s != [] && UrlChar(s[0]) then 1 + UrlRun(s[1..]) else 0
  }

  function SchemeLength(s: string): nat {
    if StartsWith(s, "https://") then 8 else if StartsWith(s, "http://") then 7 else 0
  }

  /** The length of the URL match starting at the front of `s` (greedy), or 0
      when none starts there. */
  function UrlMatch(s: string): (n: nat)
    ensures n <= |s|
  {
    var k := SchemeLength(s);
    if k > 0 && UrlRun(s[k..]) > 0 then k + UrlRun(s[k..]) else 0
  }

  lemma {:induction false} UrlRunOfPrefix(s: string, m: nat)
    requires m == UrlRun(s)
    ensures UrlRun(s[..m]) == m
    decreases |s|
  {
    if m > 0 {
      assert s[..m][1..] == s[1..][..m - 1];
      UrlRunOfPrefix(s[1..], m - 1);
    }
  }


  // ---------------------------------------------------------------------------
  // Sentence breaks

  predicate Punct(c: char) {
    c == '.' || c == '!' || c == '?'
  }

  /** The number of punctuation characters `s` starts with. */
  function PunctRun(s: string): (k: nat)
    ensures k <= |s|
    ensures forall i :: 0 <= i < k ==> Punct(s[i])
    ensures k < |s| ==> !Punct(s[k])
    decreases |s|
  {
    if s != [] && Punct(s[0]) then 1 + PunctRun(s[1..]) else 0
  }

  /** The number of whitespace characters (`str.isspace`) `s` starts with. */
  function SpaceRun(s: string): (k: nat)
    ensures k <= |s|
    ensures forall i :: 0 <= i < k ==> IsSpace(Py, s[i])
    ensures k < |s| ==> !IsSpace(Py, s[k])
    decreases |s|
  {
    if s != [] && IsSpace(Py, s[0]) then 1 + SpaceRun(s[1..]) else 0
  }

  /** The length of the sentence-break match at the front of `s`, or 0. The
      punctuation run is greedy; it must be followed by whitespace (taken
      greedily) or by the end of the text. Giving back punctuation never helps,
      since the character after a shorter run is punctuation again. */
  function BreakMatch(s: string): (n: nat)
    ensures n <= |s|
    ensures n > 0 ==> Punct(s[0])
  {
    var p := PunctRun(s);
    if p > 0 && (p == |s| || IsSpace(Py, s[p])) then p + SpaceRun(s[p..]) else 0
  }

  // ---------------------------------------------------------------------------
  // Splitting with the matches kept

  datatype Pattern = UrlPattern | SentencePattern

  /** The length of the match of `p` starting at the front of `s`, 0 if none. */
  function MatchLength(p: Pattern, s: string): (n: nat)
    ensures n <= |s|
  {
    match p
    case UrlPattern => UrlMatch(s)
    case SentencePattern => BreakMatch(s)
  }

  /** The split with the matches kept: text, match, text, …, text. `acc` is
      the text read since the last match; the search resumes after a match. */
  function SplitFrom(p: Pattern, s: string, acc: string): (parts: seq<string>)
    ensures |parts| % 2 == 1
    decreases |s|
  {
    if s == [] then [acc]
    else
      var n := MatchLength(p, s);
      if n > 0 then [acc, s[..n]] + SplitFrom(p, s[n..], "")
      else SplitFrom(p, s[1..], acc + [s[0]])
  }

  function SplitKeep(p: Pattern, s: string): seq<string> {
    SplitFrom(p, s, "")
  }

  lemma MoveFirst(s: string, acc: string)
    requires s != []
    ensures (acc + [s[0]]) + s[1..] == acc + s
  {
  }

  lemma SplitAt(acc: string, s: string, n: nat)
    requires n <= |s|
    ensures acc + s[..n] + s[n..] == acc + s
  {
    assert s == s[..n] + s[n..];
  }

  /** The split pieces put back together give the text. */
  lemma {:induction false} SplitFromConcat(p: Pattern, s: string, acc: string)
    ensures Concat(SplitFrom(p, s, acc)) == acc + s
    decreases |s|
  {
    if s == [] {
      assert Concat([acc]) == acc + Concat([]);
    } else if MatchLength(p, s) > 0 {
      var n := MatchLength(p, s);
      var rest := SplitFrom(p, s[n..], "");
      SplitFromConcat(p, s[n..], "");
      assert "" + s[n..] == s[n..];
      ConcatPair(acc, s[..n], rest);
      SplitAt(acc, s, n);
    } else {
      SplitFromConcat(p, s[1..], acc + [s[0]]);
      MoveFirst(s, acc);
    }
  }

  lemma SplitKeepConcat(p: Pattern, s: string)
    ensures Concat(SplitKeep(p, s)) == s
  {
    SplitFromConcat(p, s, "");
    assert "" + s == s;
  }
}
