/** The chat response handler. It asks the agent for an answer and streams
    it back over the WebSocket in sentence-sized parts, or in groups of eight
    words when the sentences do not break the text up. It collects the
    knowledge-base citations without repeating a source and tries the agent
    at most twice. It then posts a `complete` message, or `{error}` when
    something raised. */
module ChatResponse {
  import opened Common
  import opened Patterns
  import opened Agent

  // ---------------------------------------------------------------------------
  // WebSocket messages

  datatype CitedRef = CitedRef(source: string, title: string)
  datatype Citation = Citation(text: string, references: seq<CitedRef>)

  datatype WsMessage =
    | ChunkMsg(chunk: string)
    | CompleteMsg(responsetext: string, citations: seq<Citation>)
    | ErrorMsg(error: string)

  /** `if connection_id:` — present and not empty. */
  predicate HasConnection(connectionId: Option<string>) {
    connectionId.Some? && connectionId.value != ""
  }

  /** `send_ws_response`: the posts it makes to the connection. A test
      connection ("mock-…") gets none; a failing post is swallowed, so the
      caller never sees it. */
  function Posted(connectionId: string, m: WsMessage): (r: seq<WsMessage>)
    ensures r == [] <==> StartsWith(connectionId, "mock-")
    ensures r != [] ==> r == [m]
  {
    if connectionId != "" && StartsWith(connectionId, "mock-") then [] else [m]
  }

  // ---------------------------------------------------------------------------
  // Sentence parts

  /** The recombination loop: each text piece with the sentence break after
      it, the odd last piece alone, blank results dropped. */
  function Recombined(pieces: seq<string>): (parts: seq<string>)
    ensures forall i :: 0 <= i < |parts| ==> !Blank(Py, parts[i])
    decreases |pieces|
  {
    if pieces == [] then []
    else if |pieces| == 1 then (if Blank(Py, pieces[0]) then [] else [pieces[0]])
    else
      var combined := pieces[0] + pieces[1];
      (if Blank(Py, combined) then [] else [combined]) + Recombined(pieces[2..])
  }

  /** The `while idx < len(sentences)` loop. */
  method Recombine(sentences: seq<string>) returns (parts: seq<string>)
    ensures parts == Recombined(sentences)
  {
    parts := [];
    var idx := 0;
    while idx < |sentences|
      invariant 0 <= idx <= |sentences|
      invariant parts + Recombined(sentences[idx..]) == Recombined(sentences)
    {
      var rest := sentences[idx..];
      if idx + 1 < |sentences| {
        var combined := sentences[idx] + sentences[idx + 1];
        assert rest[0] + rest[1] == combined && rest[2..] == sentences[idx + 2..];
        var tail := Recombined(sentences[idx + 2..]);
        assert Recombined(rest) == (if Blank(Py, combined) then [] else [combined]) + tail;
        TrimEmptyIffBlank(Py, combined);
        var trimmed := Trim(Py, combined);
        if trimmed != "" {
          assert parts + ([combined] + tail) == parts + [combined] + tail;
          parts := parts + [combined];
        } else {
          assert [] + tail == tail;
        }
        idx := idx + 2;
      } else {
        var last := sentences[idx];
        assert rest == [last] && sentences[idx + 1..] == [];
        TrimEmptyIffBlank(Py, last);
        var trimmed := Trim(Py, last);
        if trimmed != "" {
          parts := parts + [last];
        }
        idx := idx + 1;
      }
    }
  }

  /** The sentence parts of a chunk text. */
  function SentenceParts(text: string): seq<string> {
    Recombined(SplitKeep(SentencePattern, text))
  }

  /** Every second piece of a split is a sentence break: it is not empty and
      begins with punctuation. */
  predicate BreaksAtOdd(pieces: seq<string>) {
    forall i :: 0 <= i < |pieces| && i % 2 == 1 ==> pieces[i] != [] && Punct(pieces[i][0])
  }

  lemma {:induction false} SplitBreaksAtOdd(s: string, acc: string)
    ensures BreaksAtOdd(SplitFrom(SentencePattern, s, acc))
    decreases |s|
  {
    if s != [] {
      var n := MatchLength(SentencePattern, s);
      if n > 0 {
        var rest := SplitFrom(SentencePattern, s[n..], "");
        SplitBreaksAtOdd(s[n..], "");
        var pieces := [acc, s[..n]] + rest;
        forall i | 0 <= i < |pieces| && i % 2 == 1 ensures pieces[i] != [] && Punct(pieces[i][0]) {
          if i > 1 { assert pieces[i] == rest[i - 2]; }
        }
      } else {
        SplitBreaksAtOdd(s[1..], acc + [s[0]]);
      }
    }
  }

  /** A text piece followed by a break is never blank, so recombining drops
      at most the last piece, and only when it is blank. */
  lemma {:induction false} RecombinedSpells(pieces: seq<string>)
    requires |pieces| % 2 == 1 && BreaksAtOdd(pieces)
    ensures var t := pieces[|pieces| - 1];
      Concat(Recombined(pieces)) + (if Blank(Py, t) then t else "") == Concat(pieces)
    decreases |pieces|
  {
    if |pieces| == 1 {
      assert Concat(pieces) == pieces[0] + Concat([]);
    } else {
      var combined := pieces[0] + pieces[1];
      assert !IsSpace(Py, combined[|pieces[0]|]);
      assert !Blank(Py, combined);
      var tail := pieces[2..];
      assert BreaksAtOdd(tail) by {
        forall i | 0 <= i < |tail| && i % 2 == 1 ensures tail[i] != [] && Punct(tail[i][0]) {
          assert tail[i] == pieces[i + 2];
        }
      }
      RecombinedSpells(tail);
      assert pieces == [pieces[0], pieces[1]] + tail;
      ConcatPair(pieces[0], pieces[1], tail);
      assert Recombined(pieces) == [combined] + Recombined(tail);
      assert Concat([combined] + Recombined(tail)) == combined + Concat(Recombined(tail)) by {
        assert ([combined] + Recombined(tail))[1..] == Recombined(tail);
      }
      assert pieces[|pieces| - 1] == tail[|tail| - 1];
    }
  }

  /** The sentence parts spell the chunk text, up to trailing whitespace. */
  lemma SentencePartsSpell(text: string)
    ensures var c := Concat(SentenceParts(text));
      |c| <= |text| && text[..|c|] == c && Blank(Py, text[|c|..])
  {
    var pieces := SplitKeep(SentencePattern, text);
    SplitBreaksAtOdd(text, "");
    SplitKeepConcat(SentencePattern, text);
    RecombinedSpells(pieces);
    var c := Concat(SentenceParts(text));
    var t := pieces[|pieces| - 1];
    var dropped: string := if Blank(Py, t) then t else "";
    assert text == c + dropped;
    assert text[..|c|] == c && text[|c|..] == dropped;
  }

  // ---------------------------------------------------------------------------
  // Word groups

  /** `[w for w in text.split(' ') if w.strip()]`. */
  function NonBlank(ws: seq<string>): (r: seq<string>)
    ensures forall i :: 0 <= i < |r| ==> !Blank(Py, r[i]) && r[i] in ws
    ensures forall w :: w in ws && !Blank(Py, w) ==> w in r
    decreases |ws|
  {
    if ws == [] then []
    else (if Blank(Py, ws[0]) then [] else [ws[0]]) + NonBlank(ws[1..])
  }

  function Words(text: string): (r: seq<string>)
    ensures forall i :: 0 <= i < |r| ==> !Blank(Py, r[i]) && ' ' !in r[i]
  {
    NonBlank(Split(text, ' '))
  }

  /** A text with a non-space character has a word. */
  lemma WordsOfNonBlank(text: string)
    requires !Blank(Py, text)
    ensures Words(text) != []
  {
    var pieces := Split(text, ' ');
    JoinSplit(text, ' ');
    if forall w :: w in pieces ==> Blank(Py, w) {
      JoinOfBlank(pieces);
      assert false;
    }
  }

  lemma {:induction false} JoinOfBlank(ws: seq<string>)
    requires forall w :: w in ws ==> Blank(Py, w)
    ensures Blank(Py, Join(ws, " "))
    decreases |ws|
  {
    if |ws| > 1 {
      JoinOfBlank(ws[1..]);
      assert ws[0] in ws;
      var j := ws[0] + " " + Join(ws[1..], " ");
      forall i | 0 <= i < |j| ensures IsSpace(Py, j[i]) {
        if i < |ws[0]| { assert j[i] == ws[0][i]; }
        else if i > |ws[0]| { assert j[i] == Join(ws[1..], " ")[i - |ws[0]| - 1]; }
      }
    } else if |ws| == 1 {
      assert ws[0] in ws;
    }
  }

  const GroupSize := 8

  function Min(a: int, b: int): int {
    if a < b then a else b
  }

  /** The group starting at word `idx`: up to eight words joined by spaces,
      with one more space when words remain after it. */
  function Group(words: seq<string>, idx: nat): string
    requires idx < |words|
  {
    Join(words[idx..Min(idx + GroupSize, |words|)], " ")
      + (if idx + GroupSize < |words| then " " else "")
  }

  /** The groups from word `idx` on. */
  function GroupsFrom(words: seq<string>, idx: nat): seq<string>
    decreases |words| - idx
  {
    if idx >= |words| then [] else [Group(words, idx)] + GroupsFrom(words, idx + GroupSize)
  }

  /** The `for word_idx in range(0, len(words), 8)` loop. */
  method GroupWords(words: seq<string>) returns (groups: seq<string>)
    ensures groups == GroupsFrom(words, 0)
  {
    groups := [];
    var wordIdx := 0;
    while wordIdx < |words|
      invariant groups + GroupsFrom(words, wordIdx) == GroupsFrom(words, 0)
    {
      var chunk := Join(words[wordIdx..Min(wordIdx + GroupSize, |words|)], " ");
      if wordIdx + GroupSize < |words| {
        chunk := chunk + " ";
      }
      assert chunk == Group(words, wordIdx);
      assert GroupsFrom(words, wordIdx) == [chunk] + GroupsFrom(words, wordIdx + GroupSize);
      groups := groups + [chunk];
      wordIdx := wordIdx + GroupSize;
    }
  }

  /** The groups put together are the words joined by single spaces. */
  lemma {:induction false} GroupsConcat(words: seq<string>, idx: nat)
    requires idx < |words|
    ensures Concat(GroupsFrom(words, idx)) == Join(words[idx..], " ")
    decreases |words| - idx
  {
    var g := GroupsFrom(words, idx);
    assert g == [Group(words, idx)] + GroupsFrom(words, idx + GroupSize);
    ConcatAppend([Group(words, idx)], GroupsFrom(words, idx + GroupSize));
    assert Concat([Group(words, idx)]) == Group(words, idx) + Concat([]);
    if idx + GroupSize < |words| {
      GroupsConcat(words, idx + GroupSize);
      assert words[idx..] == words[idx..idx + GroupSize] + words[idx + GroupSize..];
      JoinAppend(words[idx..idx + GroupSize], words[idx + GroupSize..], " ");
    } else {
      assert GroupsFrom(words, idx + GroupSize) == [];
      assert words[idx..Min(idx + GroupSize, |words|)] == words[idx..];
    }
  }

  /** Group `k` of the groups from word `idx` on holds words `idx + 8k` to
      `idx + 8k + 7` (fewer in the last group) and, unless it is the last,
      ends in one space. */
  predicate GroupAt(words: seq<string>, idx: nat, g: seq<string>, k: nat)
    requires k < |g|
  {
    var start := idx + GroupSize * k;
    var end := Min(start + GroupSize, |words|);
    start < end <= start + GroupSize
    && g[k] == Join(words[start..end], " ") + (if k < |g| - 1 then " " else "")
  }

  /** There is one group per eight words, rounded up, and each group is made
      as `GroupAt` says. */
  lemma {:induction false} GroupsShape(words: seq<string>, idx: nat)
    requires idx <= |words|
    ensures |GroupsFrom(words, idx)| == (|words| - idx + GroupSize - 1) / GroupSize
    ensures forall k :: 0 <= k < |GroupsFrom(words, idx)| ==> GroupAt(words, idx, GroupsFrom(words, idx), k)
    decreases |words| - idx
  {
    if idx < |words| {
      var g := GroupsFrom(words, idx);
      var rest := GroupsFrom(words, idx + GroupSize);
      if idx + GroupSize < |words| {
        GroupsShape(words, idx + GroupSize);
        assert |rest| > 0;
        assert |g| == 1 + (|words| - idx - 1) / GroupSize;
      } else {
        assert rest == [];
        assert 0 < |words| - idx <= GroupSize;
        assert (|words| - idx + GroupSize - 1) / GroupSize == 1;
      }
      assert g == [Group(words, idx)] + rest;
      forall k | 0 <= k < |g| ensures GroupAt(words, idx, g, k) {
        if k > 0 {
          assert g[k] == rest[k - 1];
          assert GroupAt(words, idx + GroupSize, rest, k - 1);
          assert idx + GroupSize * k == idx + GroupSize + GroupSize * (k - 1);
        } else {
          assert g[k] == Group(words, idx);
        }
      }
    }
  }

  /** A group starts with its first word, so it is never blank. */
  lemma GroupNonBlank(words: seq<string>, idx: nat)
    requires idx < |words| && !Blank(Py, words[idx])
    ensures !Blank(Py, Group(words, idx))
  {
    var ws := words[idx..Min(idx + GroupSize, |words|)];
    JoinStartsWithFirst(ws, " ");
    var i :| 0 <= i < |ws[0]| && !IsSpace(Py, ws[0][i]);
    assert Group(words, idx)[i] == ws[0][i];
  }

  lemma {:induction false} JoinStartsWithFirst(ws: seq<string>, sep: string)
    requires ws != []
    ensures |ws[0]| <= |Join(ws, sep)| && Join(ws, sep)[..|ws[0]|] == ws[0]
  {
  }

  lemma {:induction false} GroupsNonBlank(words: seq<string>, idx: nat)
    requires forall i :: 0 <= i < |words| ==> !Blank(Py, words[i])
    ensures forall k :: 0 <= k < |GroupsFrom(words, idx)| ==> !Blank(Py, GroupsFrom(words, idx)[k])
    decreases |words| - idx
  {
    if idx < |words| {
      GroupsNonBlank(words, idx + GroupSize);
      GroupNonBlank(words, idx);
      var g := GroupsFrom(words, idx);
      assert g == [Group(words, idx)] + GroupsFrom(words, idx + GroupSize);
      forall k | 0 <= k < |g| ensures !Blank(Py, g[k]) {
        if k > 0 { assert g[k] == GroupsFrom(words, idx + GroupSize)[k - 1]; }
      }
    }
  }

  // ---------------------------------------------------------------------------
  // Splitting one chunk text

  /** The fallback test: no part, a single part, or a non-empty part longer
      than 100 characters. */
  predicate NeedsWords(parts: seq<string>) {
    parts == [] || |parts| == 1 || exists i :: 0 <= i < |parts| && parts[i] != "" && |parts[i]| > 100
  }

  /** The parts to send for a chunk text, and the string the loop variable
      `chunk` is left bound to: the last word group when the word fallback
      runs. */
  datatype ChunkSplit = ChunkSplit(parts: seq<string>, rebound: Option<string>)

  function SplitChunk(text: string): ChunkSplit {
    var parts := SentenceParts(text);
    if !NeedsWords(parts) then ChunkSplit(parts, None)
    else
      var words := Words(text);
      if words == [] then ChunkSplit(if Blank(Py, text) then [] else [text], None)
      else
        var groups := GroupsFrom(words, 0);
        ChunkSplit(groups, Some(groups[|groups| - 1]))
  }

  /** Splitting a non-blank text: every part is non-blank; the fallback runs
      exactly when the sentence parts call for it, and then the parts are the
      word groups, which put together are the words joined by single spaces,
      the loop variable being left on the last of them. Otherwise the parts
      are the sentence parts. */
  lemma SplitChunkSpec(text: string)
    requires !Blank(Py, text)
    ensures var r := SplitChunk(text);
      (forall i :: 0 <= i < |r.parts| ==> !Blank(Py, r.parts[i]))
      && (r.rebound.Some? <==> NeedsWords(SentenceParts(text)))
      && (r.rebound.None? ==> r.parts == SentenceParts(text))
      && (r.rebound.Some? ==>
            r.parts != [] && r.rebound.value == r.parts[|r.parts| - 1]
            && Concat(r.parts) == Join(Words(text), " "))
  {
    WordsOfNonBlank(text);
    var words := Words(text);
    GroupsNonBlank(words, 0);
    GroupsConcat(words, 0);
    assert words[0..] == words;
  }

  /** The splitting step for one non-blank chunk text. */
  method ChunkParts(text: string) returns (parts: seq<string>, rebound: Option<string>)
    ensures ChunkSplit(parts, rebound) == SplitChunk(text)
  {
    var sentences := SplitKeep(SentencePattern, text);
    parts := Recombine(sentences);
    rebound := None;
    if parts == [] || |parts| == 1 || exists i :: 0 <= i < |parts| && parts[i] != "" && |parts[i]| > 100 {
      var words := Words(text);
      if words != [] {
        var wordChunks := GroupWords(words);
        // the loop variable `chunk` stays bound to the last group
        rebound := Some(wordChunks[|wordChunks| - 1]);
        parts := wordChunks;
      } else {
        TrimEmptyIffBlank(Py, text);
        parts := if Trim(Py, text) != "" then [text] else [];
      }
    }
  }

  /** The chunk messages posted for the parts: one per non-blank part. */
  function SentChunks(connectionId: string, parts: seq<string>): (r: seq<WsMessage>)
    ensures forall i :: 0 <= i < |r| ==> r[i].ChunkMsg? && !Blank(Py, r[i].chunk)
    decreases |parts|
  {
    if parts == [] then []
    else
      (if parts[0] != "" && !Blank(Py, parts[0]) then Posted(connectionId, ChunkMsg(parts[0])) else [])
      + SentChunks(connectionId, parts[1..])
  }

  /** Every non-blank part goes out, in order, unless the connection is a
      test one. */
  lemma {:induction false} SentChunksAll(connectionId: string, parts: seq<string>)
    requires forall i :: 0 <= i < |parts| ==> !Blank(Py, parts[i])
    ensures SentChunks(connectionId, parts)
      == if StartsWith(connectionId, "mock-") then [] else Chunks(parts)
    decreases |parts|
  {
    if parts != [] {
      SentChunksAll(connectionId, parts[1..]);
    }
  }

  function Chunks(parts: seq<string>): (r: seq<WsMessage>)
    ensures |r| == |parts| && forall i :: 0 <= i < |r| ==> r[i] == ChunkMsg(parts[i])
  {
    seq(|parts|, i requires 0 <= i < |parts| => ChunkMsg(parts[i]))
  }

  // ---------------------------------------------------------------------------
  // Citations attached to chunks

  /** The references kept from an attributed citation: those whose location
      type is "S3", titled with the last '/'-segment of their source URI. */
  function S3Refs(refs: seq<Reference>): (r: seq<CitedRef>)
    ensures |r| <= |refs|
    decreases |refs|
  {
    if refs == [] then []
    else
      var ref := refs[0];
      (if ref.locationType == Str("S3") then [CitedRef(ref.uri, LastSegment(ref.sourceUri, '/'))] else [])
      + S3Refs(refs[1..])
  }

  /** The citations made from a chunk's attribution: one per generated
      citation that keeps at least one reference, with that citation's text. */
  function Attributed(cs: seq<GeneratedCitation>): (r: seq<Citation>)
    ensures |r| <= |cs|
    decreases |cs|
  {
    if cs == [] then []
    else
      var refs := S3Refs(cs[0].refs);
      (if refs != [] then [Citation(cs[0].text, refs)] else []) + Attributed(cs[1..])
  }

  /** A kept reference is an S3 one, its source the S3 URI and its title the
      last '/'-segment of the source-URI metadata; every S3 reference is kept. */
  lemma {:induction false} S3RefsSpec(refs: seq<Reference>)
    ensures forall c :: c in S3Refs(refs) ==>
      (exists ref :: ref in refs && ref.locationType == Str("S3")
        && c == CitedRef(ref.uri, LastSegment(ref.sourceUri, '/')))
    ensures forall ref :: ref in refs && ref.locationType == Str("S3") ==>
      CitedRef(ref.uri, LastSegment(ref.sourceUri, '/')) in S3Refs(refs)
    decreases |refs|
  {
    if refs != [] {
      S3RefsSpec(refs[1..]);
      assert forall ref :: ref in refs ==> ref == refs[0] || ref in refs[1..];
    }
  }

  /** Each citation made from an attribution has references and comes from
      one generated citation, keeping its text; a generated citation with an
      S3 reference always yields one. */
  lemma {:induction false} AttributedSpec(cs: seq<GeneratedCitation>)
    ensures forall c :: c in Attributed(cs) ==>
      c.references != [] && (exists g :: g in cs && c == Citation(g.text, S3Refs(g.refs)))
    ensures forall g :: g in cs && S3Refs(g.refs) != [] ==> Citation(g.text, S3Refs(g.refs)) in Attributed(cs)
    decreases |cs|
  {
    if cs != [] {
      AttributedSpec(cs[1..]);
      assert forall g :: g in cs ==> g == cs[0] || g in cs[1..];
    }
  }

  /** The loop over one citation's `retrievedReferences`. */
  method CollectS3Refs(retrieved: seq<Reference>) returns (refs: seq<CitedRef>)
    ensures refs == S3Refs(retrieved)
  {
    refs := [];
    for j := 0 to |retrieved|
      invariant refs + S3Refs(retrieved[j..]) == S3Refs(retrieved)
    {
      var ref := retrieved[j];
      assert retrieved[j..][1..] == retrieved[j + 1..];
      if ref.locationType == Str("S3") {
        refs := refs + [CitedRef(ref.uri, LastSegment(ref.sourceUri, '/'))];
      }
    }
    assert retrieved[|retrieved|..] == [];
  }

  /** The loop over `chunk['attribution']['citations']`. */
  method CollectAttributed(cs: seq<GeneratedCitation>) returns (added: seq<Citation>)
    ensures added == Attributed(cs)
  {
    added := [];
    for i := 0 to |cs|
      invariant added + Attributed(cs[i..]) == Attributed(cs)
    {
      var refs := CollectS3Refs(cs[i].refs);
      assert cs[i..][1..] == cs[i + 1..];
      if refs != [] {
        added := added + [Citation(cs[i].text, refs)];
      }
    }
    assert cs[|cs|..] == [];
  }

  // ---------------------------------------------------------------------------
  // Citations from knowledge-base lookups

  /** The file name of a URI: the text after its last '/', or the URI itself
      when it has none. */
  function FileName(uri: string): (r: string)
    ensures r == LastSegment(uri, '/')
  {
    LastSegmentIsSuffix(uri, '/');
    if '/' in uri then LastSegment(uri, '/') else uri
  }

  /** The first loop over the retrieved references: each non-empty URI not
      seen before becomes a reference titled by its file name. */
  function UniqueRefs(refs: seq<Reference>, seen: set<string>): seq<CitedRef>
    decreases |refs|
  {
    if refs == [] then []
    else
      var uri := refs[0].uri;
      if uri != "" && uri !in seen then [CitedRef(uri, FileName(uri))] + UniqueRefs(refs[1..], seen + {uri})
      else UniqueRefs(refs[1..], seen)
  }

  /** Sources distinct within a list of references. */
  predicate DistinctSources(rs: seq<CitedRef>) {
    forall i, j :: 0 <= i < j < |rs| ==> rs[i].source != rs[j].source
  }

  /** The unique references: non-empty sources outside `seen`, pairwise
      distinct, each titled by its file name; and every non-empty URI of the
      input outside `seen` is among them. */
  lemma UniqueRefsSpec(refs: seq<Reference>, seen: set<string>)
    ensures var r := UniqueRefs(refs, seen);
      DistinctSources(r)
      && (forall c :: c in r ==>
            c.source != "" && c.source !in seen && c.title == LastSegment(c.source, '/')
            && (exists ref :: ref in refs && ref.uri == c.source))
      && (forall ref :: ref in refs && ref.uri != "" && ref.uri !in seen ==>
            exists c :: c in r && c.source == ref.uri)
  {
    UniqueRefsSound(refs, seen);
    UniqueRefsDistinct(refs, seen);
    UniqueRefsComplete(refs, seen);
  }

  /** Each unique reference has a non-empty source outside `seen`, taken
      from the input and titled by its file name. */
  lemma {:induction false} UniqueRefsSound(refs: seq<Reference>, seen: set<string>)
    ensures forall c :: c in UniqueRefs(refs, seen) ==>
      c.source != "" && c.source !in seen && c.title == LastSegment(c.source, '/')
      && (exists ref :: ref in refs && ref.uri == c.source)
    decreases |refs|
  {
    if refs != [] {
      var uri := refs[0].uri;
      var tail := refs[1..];
      if uri != "" && uri !in seen {
        UniqueRefsSound(tail, seen + {uri});
        var rest := UniqueRefs(tail, seen + {uri});
        assert UniqueRefs(refs, seen) == [CitedRef(uri, FileName(uri))] + rest;
        forall c | c in rest ensures exists ref :: ref in refs && ref.uri == c.source {
          var ref :| ref in tail && ref.uri == c.source;
          assert ref in refs;
        }
        assert refs[0] in refs;
      } else {
        UniqueRefsSound(tail, seen);
        forall c | c in UniqueRefs(tail, seen) ensures exists ref :: ref in refs && ref.uri == c.source {
          var ref :| ref in tail && ref.uri == c.source;
          assert ref in refs;
        }
      }
    }
  }

  /** The unique references have pairwise distinct sources. */
  lemma {:induction false} UniqueRefsDistinct(refs: seq<Reference>, seen: set<string>)
    ensures DistinctSources(UniqueRefs(refs, seen))
    decreases |refs|
  {
    if refs != [] {
      var uri := refs[0].uri;
      var tail := refs[1..];
      if uri != "" && uri !in seen {
        UniqueRefsDistinct(tail, seen + {uri});
        UniqueRefsOutside(tail, seen + {uri});
        var rest := UniqueRefs(tail, seen + {uri});
        var r := [CitedRef(uri, FileName(uri))] + rest;
        assert UniqueRefs(refs, seen) == r;
        forall i, j | 0 <= i < j < |r| ensures r[i].source != r[j].source {
          assert r[j] == rest[j - 1];
          if i > 0 { assert r[i] == rest[i - 1]; }
        }
      } else {
        UniqueRefsDistinct(tail, seen);
      }
    }
  }

  /** No unique reference has a source in `seen`. */
  lemma {:induction false} UniqueRefsOutside(refs: seq<Reference>, seen: set<string>)
    ensures forall k :: 0 <= k < |UniqueRefs(refs, seen)| ==> UniqueRefs(refs, seen)[k].source !in seen
    decreases |refs|
  {
    if refs != [] {
      var uri := refs[0].uri;
      if uri != "" && uri !in seen {
        UniqueRefsOutside(refs[1..], seen + {uri});
        var rest := UniqueRefs(refs[1..], seen + {uri});
        var r := [CitedRef(uri, FileName(uri))] + rest;
        assert UniqueRefs(refs, seen) == r;
        forall k | 0 <= k < |r| ensures r[k].source !in seen {
          if k > 0 { assert r[k] == rest[k - 1]; }
        }
      } else {
        UniqueRefsOutside(refs[1..], seen);
      }
    }
  }

  /** Every non-empty URI of the input outside `seen` is among the unique
      references. */
  lemma {:induction false} UniqueRefsComplete(refs: seq<Reference>, seen: set<string>)
    ensures forall ref :: ref in refs && ref.uri != "" && ref.uri !in seen ==>
      exists c :: c in UniqueRefs(refs, seen) && c.source == ref.uri
    decreases |refs|
  {
    if refs != [] {
      var uri := refs[0].uri;
      var tail := refs[1..];
      if uri != "" && uri !in seen {
        UniqueRefsComplete(tail, seen + {uri});
        var rest := UniqueRefs(tail, seen + {uri});
        var r := [CitedRef(uri, FileName(uri))] + rest;
        assert UniqueRefs(refs, seen) == r;
        forall ref | ref in refs && ref.uri != "" && ref.uri !in seen ensures exists c :: c in r && c.source == ref.uri {
          if ref.uri != uri {
            assert ref in tail;
            var c :| c in rest && c.source == ref.uri;
            assert c in r;
          } else {
            assert r[0] in r;
          }
        }
      } else {
        UniqueRefsComplete(tail, seen);
        forall ref | ref in refs && ref.uri != "" && ref.uri !in seen
          ensures exists c :: c in UniqueRefs(tail, seen) && c.source == ref.uri
        {
          assert ref in tail;
        }
      }
    }
  }

  /** The sources of a list of references. */
  function RefSources(refs: seq<CitedRef>): (r: set<string>)
    ensures forall x :: x in r <==> exists ref :: ref in refs && ref.source == x
    decreases |refs|
  {
    if refs == [] then {}
    else
      var rest := RefSources(refs[1..]);
      assert forall ref :: ref in refs ==> ref == refs[0] || ref in refs[1..];
      {refs[0].source} + rest
  }

  /** The sources of all references of `cs`. */
  function SourcesOf(cs: seq<Citation>): (r: set<string>)
    ensures forall x :: x in r <==> exists c, ref :: c in cs && ref in c.references && ref.source == x
    decreases |cs|
  {
    if cs == [] then {}
    else
      var rest := SourcesOf(cs[1..]);
      assert forall c :: c in cs ==> c == cs[0] || c in cs[1..];
      RefSources(cs[0].references) + rest
  }

  /** `[ref for ref in refs if ref['source'] not in existing]`. */
  function Unseen(refs: seq<CitedRef>, existing: set<string>): (r: seq<CitedRef>)
    ensures forall c :: c in r <==> c in refs && c.source !in existing
    ensures |r| <= |refs|
    decreases |refs|
  {
    if refs == [] then []
    else (if refs[0].source in existing then [] else [refs[0]]) + Unseen(refs[1..], existing)
  }

  /** The citation a knowledge-base lookup adds, if any. */
  function TraceCitationOf(retrieved: seq<Reference>, citations: seq<Citation>): Option<Citation> {
    if retrieved == [] then None
    else
      var refs := UniqueRefs(retrieved, {});
      if refs == [] then None
      else
        var newRefs := Unseen(refs, SourcesOf(citations));
        if newRefs == [] then None else Some(Citation("", newRefs))
  }

  /** The inner loop over one citation's references. */
  method CitationSources(refs: seq<CitedRef>) returns (here: set<string>)
    ensures here == RefSources(refs)
  {
    here := {};
    for j := 0 to |refs|
      invariant here + RefSources(refs[j..]) == RefSources(refs)
    {
      assert refs[j..][1..] == refs[j + 1..];
      here := here + {refs[j].source};
    }
    assert refs[|refs|..] == [];
  }

  /** The loops over `citations` collecting the existing sources. */
  method ExistingSources(citations: seq<Citation>) returns (existing: set<string>)
    ensures existing == SourcesOf(citations)
  {
    existing := {};
    for i := 0 to |citations|
      invariant existing + SourcesOf(citations[i..]) == SourcesOf(citations)
    {
      var here := CitationSources(citations[i].references);
      assert citations[i..][1..] == citations[i + 1..];
      existing := existing + here;
    }
    assert citations[|citations|..] == [];
  }

  /** The handling of a knowledge-base lookup's retrieved references. */
  method TraceCitation(retrieved: seq<Reference>, citations: seq<Citation>) returns (c: Option<Citation>)
    ensures c == TraceCitationOf(retrieved, citations)
  {
    c := None;
    if retrieved != [] {
      var references: seq<CitedRef> := [];
      var seenSources: set<string> := {};
      assert retrieved[0..] == retrieved;
      for j := 0 to |retrieved|
        invariant references + UniqueRefs(retrieved[j..], seenSources) == UniqueRefs(retrieved, {})
      {
        var uri := retrieved[j].uri;
        assert retrieved[j..][1..] == retrieved[j + 1..];
        if uri != "" && uri !in seenSources {
          var filename := if '/' in uri then LastSegment(uri, '/') else uri;
          references := references + [CitedRef(uri, filename)];
          seenSources := seenSources + {uri};
        }
      }
      assert retrieved[|retrieved|..] == [];
      assert references == UniqueRefs(retrieved, {});
      if references != [] {
        var existing := ExistingSources(citations);
        var newRefs := Unseen(references, existing);
        if newRefs != [] {
          c := Some(Citation("", newRefs));
        }
      }
    }
  }

  /** A lookup adds a citation exactly when one of its non-empty URIs is not
      yet a source of an earlier citation. */
  lemma TraceCitationWhen(retrieved: seq<Reference>, citations: seq<Citation>)
    ensures TraceCitationOf(retrieved, citations).Some?
      <==> exists ref :: ref in retrieved && ref.uri != "" && ref.uri !in SourcesOf(citations)
  {
    var earlier := SourcesOf(citations);
    UniqueRefsSpec(retrieved, {});
    var refs := UniqueRefs(retrieved, {});
    if exists ref :: ref in retrieved && ref.uri != "" && ref.uri !in earlier {
      var ref :| ref in retrieved && ref.uri != "" && ref.uri !in earlier;
      var r :| r in refs && r.source == ref.uri;
      assert r in Unseen(refs, earlier);
    }
    if Unseen(refs, earlier) != [] {
      var r := Unseen(refs, earlier)[0];
      assert r in Unseen(refs, earlier);
      var ref :| ref in retrieved && ref.uri == r.source;
      assert ref.uri != "" && ref.uri !in earlier;
    }
  }

  /** The added citation has no text; its references have distinct, non-empty
      sources, none of them earlier, each titled by its file name, and they
      cover every non-empty URI of the lookup that is not earlier. */
  lemma TraceCitationShape(retrieved: seq<Reference>, citations: seq<Citation>)
    requires TraceCitationOf(retrieved, citations).Some?
    ensures var c := TraceCitationOf(retrieved, citations).value;
      var earlier := SourcesOf(citations);
      c.text == "" && c.references != [] && DistinctSources(c.references)
      && (forall r :: r in c.references ==>
            r.source != "" && r.source !in earlier && r.title == LastSegment(r.source, '/'))
      && (forall ref :: ref in retrieved && ref.uri != "" && ref.uri !in earlier ==>
            exists r :: r in c.references && r.source == ref.uri)
  {
    var earlier := SourcesOf(citations);
    UniqueRefsSpec(retrieved, {});
    var refs := UniqueRefs(retrieved, {});
    var newRefs := Unseen(refs, earlier);
    UnseenKeepsDistinct(refs, earlier);
    forall ref | ref in retrieved && ref.uri != "" && ref.uri !in earlier
      ensures exists r :: r in newRefs && r.source == ref.uri
    {
      var r :| r in refs && r.source == ref.uri;
      assert r in newRefs;
    }
  }

  /** No reference drawn from the tail shares the head's source. */
  lemma HeadSourceFresh(refs: seq<CitedRef>, rest: seq<CitedRef>)
    requires refs != [] && DistinctSources(refs)
    requires forall c :: c in rest ==> c in refs[1..]
    ensures forall c :: c in rest ==> c.source != refs[0].source
  {
    forall c | c in rest ensures c.source != refs[0].source {
      var k :| 0 <= k < |refs[1..]| && refs[1..][k] == c;
      assert refs[k + 1] == c;
    }
  }

  lemma {:induction false} UnseenKeepsDistinct(refs: seq<CitedRef>, existing: set<string>)
    requires DistinctSources(refs)
    ensures DistinctSources(Unseen(refs, existing))
    decreases |refs|
  {
    if refs != [] {
      var tail := refs[1..];
      assert DistinctSources(tail) by {
        forall i, j | 0 <= i < j < |tail| ensures tail[i].source != tail[j].source {
          assert tail[i] == refs[i + 1] && tail[j] == refs[j + 1];
        }
      }
      UnseenKeepsDistinct(tail, existing);
      var rest := Unseen(tail, existing);
      var r := Unseen(refs, existing);
      if refs[0].source !in existing {
        assert r == [refs[0]] + rest;
        HeadSourceFresh(refs, rest);
        forall i, j | 0 <= i < j < |r| ensures r[i].source != r[j].source {
          assert r[j] == rest[j - 1];
          if i > 0 { assert r[i] == rest[i - 1]; }
        }
      } else {
        assert r == rest;
      }
    }
  }

  // ---------------------------------------------------------------------------
  // One completion event

  /** What the loop variable `chunk` is bound to when the attribution test
      reads it: the event's chunk entry, or the last word group when the word
      fallback rebound it. */
  datatype ChunkVar = Entry(entry: Chunk) | Rebound(text: string)

  /** How the attribution test is read: as written, against whatever `chunk`
      is bound to, or as evidently intended, against the event's chunk entry. */
  datatype Reading = AsWritten | Intended

  /** The state of one attempt: `full_response`, `citations`, and every post
      made so far, those of earlier failed attempts included. */
  datatype Attempt = Attempt(full: string, citations: seq<Citation>, posts: seq<WsMessage>)

  /** An attempt that got through its events, or the exception it raised with
      the posts made before it. */
  datatype Outcome = Done(state: Attempt) | Raised(error: string, posts: seq<WsMessage>)

  /** The message of the `TypeError` raised by indexing a `str` with a `str`. */
  const TypeErrorText := "string indices must be integers, not 'str'"

  /** The decoded text of a chunk entry: it is added to the response and, when
      there is a connection and the text is not blank, its parts are posted.
      Also gives what `chunk` is bound to afterwards. */
  function ChunkText(a: Attempt, c: Chunk, conn: Option<string>): (Attempt, ChunkVar) {
    if c.bytes.None? then (a, Entry(c))
    else
      var text := c.bytes.value;
      if HasConnection(conn) && !Blank(Py, text) then
        var split := SplitChunk(text);
        (a.(full := a.full + text, posts := a.posts + SentChunks(conn.value, split.parts)),
         if split.rebound.Some? then Rebound(split.rebound.value) else Entry(c))
      else (a.(full := a.full + text), Entry(c))
  }

  /** The attribution test on what `chunk` is bound to. On a chunk entry it
      adds the attribution's citations; on a string it is a substring test,
      and a string containing "attribution" is then indexed with a string,
      which raises. */
  function Attribute(a: Attempt, v: ChunkVar): Outcome {
    match v
    case Rebound(s) =>
      if Contains(s, "attribution") then Raised(TypeErrorText, a.posts) else Done(a)
    case Entry(c) =>
      if c.attribution.Cited? then Done(a.(citations := a.citations + Attributed(c.attribution.citations)))
      else Done(a)
  }

  /** The handling of an event's chunk entry. */
  function StepChunk(a: Attempt, c: Chunk, conn: Option<string>, reading: Reading): Outcome {
    var (b, v) := ChunkText(a, c, conn);
    Attribute(b, if reading == AsWritten then v else Entry(c))
  }

  /** The handling of a knowledge-base lookup. */
  function StepTrace(a: Attempt, lookup: Option<seq<Reference>>): Attempt {
    if lookup.None? || lookup.value == [] then a
    else
      match TraceCitationOf(lookup.value, a.citations)
      case None => a
      case Some(c) => a.(citations := a.citations + [c])
  }

  /** One iteration of `for event in response['completion']`. */
  function StepEvent(a: Attempt, e: Event, conn: Option<string>, reading: Reading): Outcome {
    var o := if e.chunk.Some? then StepChunk(a, e.chunk.value, conn, reading) else Done(a);
    if o.Raised? then o else Done(StepTrace(o.state, e.lookup))
  }

  /** The events of one attempt, in order, up to the first that raises. */
  function RunEvents(a: Attempt, events: seq<Event>, conn: Option<string>, reading: Reading): Outcome
    decreases |events|
  {
    if events == [] then Done(a)
    else
      match StepEvent(a, events[0], conn, reading)
      case Raised(e, p) => Raised(e, p)
      case Done(b) => RunEvents(b, events[1..], conn, reading)
  }

  /** One attempt: the agent call raises, or its events are handled from an
      empty response and no citation, after which the stream may raise. */
  function RunInvocation(inv: Invocation, conn: Option<string>, posts: seq<WsMessage>, reading: Reading): Outcome {
    match inv
    case Refused(error) => Raised(error, posts)
    case Streamed(events, failure) =>
      match RunEvents(Attempt("", [], posts), events, conn, reading)
      case Raised(e, p) => Raised(e, p)
      case Done(b) => if failure.Some? then Raised(failure.value, b.posts) else Done(b)
  }

  /** The number of attempts, `max_retries`. */
  const MaxRetries := 2

  /** The retry loop over the given agent calls: the first attempt that gets
      through ends it; the last attempt's exception is re-raised. */
  function Retried(calls: seq<Invocation>, conn: Option<string>, posts: seq<WsMessage>, reading: Reading): Outcome
    requires calls != []
    decreases |calls|
  {
    var o := RunInvocation(calls[0], conn, posts, reading);
    if o.Done? || |calls| == 1 then o else Retried(calls[1..], conn, o.posts, reading)
  }

  /** The decoding and posting of a chunk's bytes, as the loop body does
      it. */
  method DecodeChunk(a: Attempt, c: Chunk, conn: Option<string>) returns (b: Attempt, chunk: ChunkVar)
    ensures (b, chunk) == ChunkText(a, c, conn)
  {
    b, chunk := a, Entry(c);
    if c.bytes.Some? {
      var text := c.bytes.value;
      b := b.(full := b.full + text);
      TrimEmptyIffBlank(Py, text);
      if HasConnection(conn) && Trim(Py, text) != "" {
        var parts, rebound := ChunkParts(text);
        b := b.(posts := b.posts + SentChunks(conn.value, parts));
        if rebound.Some? {
          chunk := Rebound(rebound.value);
        }
      }
    }
  }

  /** The handling of an event's chunk entry, as the loop body does it. */
  method ProcessChunk(a: Attempt, c: Chunk, conn: Option<string>) returns (o: Outcome)
    ensures o == StepChunk(a, c, conn, AsWritten)
  {
    var cur, chunk := DecodeChunk(a, c, conn);
    if chunk.Rebound? {
      if Contains(chunk.text, "attribution") {
        return Raised(TypeErrorText, cur.posts);
      }
    } else if chunk.entry.attribution.Cited? {
      var added := CollectAttributed(chunk.entry.attribution.citations);
      cur := cur.(citations := cur.citations + added);
    }
    return Done(cur);
  }

  /** The handling of one event, as the loop body does it. */
  method ProcessEvent(a: Attempt, e: Event, conn: Option<string>) returns (o: Outcome)
    ensures o == StepEvent(a, e, conn, AsWritten)
  {
    var cur := a;
    if e.chunk.Some? {
      o := ProcessChunk(a, e.chunk.value, conn);
      if o.Raised? {
        return o;
      }
      cur := o.state;
    }
    if e.lookup.Some? && e.lookup.value != [] {
      var c := TraceCitation(e.lookup.value, cur.citations);
      if c.Some? {
        cur := cur.(citations := cur.citations + [c.value]);
      }
    }
    return Done(cur);
  }

  /** One attempt, as the body of the retry loop runs it. */
  method RunAttempt(inv: Invocation, conn: Option<string>, posts: seq<WsMessage>) returns (o: Outcome)
    ensures o == RunInvocation(inv, conn, posts, AsWritten)
  {
    if inv.Refused? {
      return Raised(inv.error, posts);
    }
    var events := inv.events;
    var cur := Attempt("", [], posts);
    var i := 0;
    while i < |events|
      invariant 0 <= i <= |events|
      invariant RunEvents(Attempt("", [], posts), events, conn, AsWritten) == RunEvents(cur, events[i..], conn, AsWritten)
    {
      assert events[i..][1..] == events[i + 1..];
      var step := ProcessEvent(cur, events[i], conn);
      if step.Raised? {
        return step;
      }
      cur := step.state;
      i := i + 1;
    }
    if inv.failure.Some? {
      return Raised(inv.failure.value, cur.posts);
    }
    return Done(cur);
  }

  /** The number of agent calls the retry loop makes. */
  function Tries(calls: seq<Invocation>, conn: Option<string>, posts: seq<WsMessage>, reading: Reading): (n: nat)
    requires calls != []
    ensures 1 <= n <= |calls|
    decreases |calls|
  {
    var o := RunInvocation(calls[0], conn, posts, reading);
    if o.Done? || |calls| == 1 then 1 else 1 + Tries(calls[1..], conn, o.posts, reading)
  }

  // ---------------------------------------------------------------------------
  // The handler

  /** The handler's input: `querytext` (default ""), `connectionId` when
      present, and the `session_id` and `user_role` fields as they stand in
      the event: absent, null or a value. */
  datatype Request = Request(querytext: string, connectionId: Option<string>, sessionId: Field, userRole: Field)

  /** What varies between agent calls: the session, the input text, the role
      and its instructions. */
  datatype AgentCall = AgentCall(sessionId: Field, inputText: string, userRole: Field, instructions: Instructions)

  /** The payload handed to the log classifier, its timestamp left out. */
  datatype LogPayload = LogPayload(sessionId: Field, query: string, response: string)

  datatype Response = Response(statusCode: int, body: WsMessage)

  /** Everything one run of the handler does: the agent calls, the posts to
      the connection, the payload handed to the log classifier, the response. */
  datatype Handled = Handled(agentCalls: seq<AgentCall>, posts: seq<WsMessage>, logged: Option<LogPayload>, response: Response)

  /** `role_instructions.get(user_role, …)`: only a string can name a role. */
  function InstructionsOf(role: Field): Instructions {
    if role.Str? then RoleInstructions(role.s) else ForLearner
  }

  function AgentCallOf(req: Request, requestId: string): AgentCall {
    var role := if req.userRole.Missing? then Str("guest") else req.userRole;
    AgentCall(if req.sessionId.Missing? then Str(requestId) else req.sessionId,
              Trim(Py, req.querytext), role, InstructionsOf(role))
  }

  /** The request id stands in for the session only when `session_id` is
      absent: a null one is passed on as null. The role is "guest" when
      absent, and a role that is not a string gets the learner's
      instructions. */
  lemma AgentCallDefaults(req: Request, requestId: string)
    ensures var c := AgentCallOf(req, requestId);
      (c.sessionId == Str(requestId) <== req.sessionId.Missing?)
      && (!req.sessionId.Missing? ==> c.sessionId == req.sessionId)
      && !c.sessionId.Missing? && !c.userRole.Missing?
      && (req.userRole.Missing? ==> c.userRole == Str("guest") && c.instructions == ForLearner)
      && (req.userRole.Null? ==> c.userRole == Null && c.instructions == ForLearner)
      && (req.userRole == Str("instructor") ==> c.instructions == ForInstructor)
      && (req.userRole == Str("staff") ==> c.instructions == ForStaff)
  {
  }

  /** The posts of `send_ws_response` when there is a connection. */
  function PostIfConnected(conn: Option<string>, m: WsMessage): seq<WsMessage> {
    if HasConnection(conn) then Posted(conn.value, m) else []
  }

  /** What the handler does once the retry loop has ended with `o` after
      `tries` agent calls: the answer is posted and returned, and after a
      successful attempt the log payload is handed on, which may raise. */
  function Answer(call: AgentCall, conn: Option<string>, tries: nat, o: Outcome, logFailure: Option<string>): Handled {
    var tried := seq(tries, _ => call);
    match o
    case Raised(e, p) =>
      Handled(tried, p + PostIfConnected(conn, ErrorMsg(e)), None, Response(500, ErrorMsg(e)))
    case Done(a) =>
      var result := CompleteMsg(a.full, a.citations);
      var posts := a.posts + PostIfConnected(conn, result);
      var payload := Some(LogPayload(call.sessionId, call.inputText, a.full));
      if logFailure.Some? then
        var e := logFailure.value;
        Handled(tried, posts + PostIfConnected(conn, ErrorMsg(e)), payload, Response(500, ErrorMsg(e)))
      else Handled(tried, posts, payload, Response(200, result))
  }

  /** `lambda_handler`. `calls` is what each agent call does, `requestId` the
      request id of the invocation context, and `logFailure` the exception
      handing the payload to the log classifier raises, if it does. */
  function HandleSpec(req: Request, requestId: string, calls: seq<Invocation>, logFailure: Option<string>,
                      reading: Reading): Handled
    requires |calls| == MaxRetries
  {
    var conn := req.connectionId;
    Answer(AgentCallOf(req, requestId), conn, Tries(calls, conn, [], reading), Retried(calls, conn, [], reading), logFailure)
  }

  /** The handler as written. */
  method Handle(req: Request, requestId: string, calls: seq<Invocation>, logFailure: Option<string>)
    returns (h: Handled)
    requires |calls| == MaxRetries
    ensures h == HandleSpec(req, requestId, calls, logFailure, AsWritten)
  {
    var call := AgentCallOf(req, requestId);
    var conn := req.connectionId;
    var agentCalls: seq<AgentCall> := [];
    var posts: seq<WsMessage> := [];
    var o := Raised("", []);
    var attempt := 0;
    while true
      invariant 0 <= attempt < MaxRetries
      invariant agentCalls == seq(attempt, _ => call)
      invariant Retried(calls, conn, [], AsWritten) == Retried(calls[attempt..], conn, posts, AsWritten)
      invariant Tries(calls, conn, [], AsWritten) == attempt + Tries(calls[attempt..], conn, posts, AsWritten)
      decreases MaxRetries - attempt
    {
      agentCalls := agentCalls + [call];
      o := RunAttempt(calls[attempt], conn, posts);
      if o.Done? || attempt == MaxRetries - 1 {
        break;
      }
      assert calls[attempt..][1..] == calls[attempt + 1..];
      posts := o.posts;
      attempt := attempt + 1;
    }
    assert o == Retried(calls, conn, [], AsWritten);
    assert |agentCalls| == Tries(calls, conn, [], AsWritten);
    h := Reply(call, conn, agentCalls, o, logFailure);
    HandleIsAnswer(req, requestId, calls, logFailure, AsWritten);
  }

  /** What the handler does after the retry loop, as written. */
  method Reply(call: AgentCall, conn: Option<string>, agentCalls: seq<AgentCall>, o: Outcome, logFailure: Option<string>)
    returns (h: Handled)
    requires agentCalls == seq(|agentCalls|, _ => call)
    ensures h == Answer(call, conn, |agentCalls|, o, logFailure)
  {
    if o.Raised? {
      return Handled(agentCalls, o.posts + PostIfConnected(conn, ErrorMsg(o.error)), None, Response(500, ErrorMsg(o.error)));
    }
    var posts;
    var result := CompleteMsg(o.state.full, o.state.citations);
    posts := o.state.posts;
    if HasConnection(conn) {
      posts := posts + Posted(conn.value, result);
    }
    var payload := LogPayload(call.sessionId, call.inputText, o.state.full);
    if logFailure.Some? {
      if HasConnection(conn) {
        posts := posts + Posted(conn.value, ErrorMsg(logFailure.value));
      }
      return Handled(agentCalls, posts, Some(payload), Response(500, ErrorMsg(logFailure.value)));
    }
    return Handled(agentCalls, posts, Some(payload), Response(200, result));
  }

  // ---------------------------------------------------------------------------
  // What a run of the events promises

  /** The posts an outcome has made. */
  function PostsOf(o: Outcome): seq<WsMessage> {
    match o
    case Done(a) => a.posts
    case Raised(_, p) => p
  }

  /** `ps` is `base` followed only by chunk messages with non-blank text. */
  predicate ChunksAfter(ps: seq<WsMessage>, base: seq<WsMessage>) {
    |base| <= |ps| && ps[..|base|] == base
    && forall i :: |base| <= i < |ps| ==> ps[i].ChunkMsg? && !Blank(Py, ps[i].chunk)
  }

  lemma ChunksAfterTrans(ps: seq<WsMessage>, mid: seq<WsMessage>, base: seq<WsMessage>)
    requires ChunksAfter(mid, base) && ChunksAfter(ps, mid)
    ensures ChunksAfter(ps, base)
  {
    assert ps[..|base|] == mid[..|mid|][..|base|];
  }

  lemma ChunksAfterAppend(base: seq<WsMessage>, extra: seq<WsMessage>)
    requires forall i :: 0 <= i < |extra| ==> extra[i].ChunkMsg? && !Blank(Py, extra[i].chunk)
    ensures ChunksAfter(base + extra, base)
  {
    assert (base + extra)[..|base|] == base;
    forall i | |base| <= i < |base + extra|
      ensures (base + extra)[i].ChunkMsg? && !Blank(Py, (base + extra)[i].chunk)
    {
      assert (base + extra)[i] == extra[i - |base|];
    }
  }

  /** Every citation has at least one reference. */
  predicate AllReferenced(cs: seq<Citation>) {
    forall i :: 0 <= i < |cs| ==> cs[i].references != []
  }

  lemma AppendReferenced(cs: seq<Citation>, added: seq<Citation>)
    requires AllReferenced(cs) && AllReferenced(added)
    ensures AllReferenced(cs + added)
  {
    forall i | 0 <= i < |cs + added| ensures (cs + added)[i].references != [] {
      if i >= |cs| { assert (cs + added)[i] == added[i - |cs|]; }
    }
  }

  /** The text of a chunk entry is added to the response; the posts it makes
      are non-blank chunk messages, none without a connection. */
  lemma ChunkTextSpec(a: Attempt, c: Chunk, conn: Option<string>)
    ensures var b := ChunkText(a, c, conn).0;
      ChunksAfter(b.posts, a.posts)
      && (!HasConnection(conn) ==> b.posts == a.posts)
      && b.full == a.full + (if c.bytes.Some? then c.bytes.value else "")
      && b.citations == a.citations
  {
    if c.bytes.Some? && HasConnection(conn) && !Blank(Py, c.bytes.value) {
      ChunksAfterAppend(a.posts, SentChunks(conn.value, SplitChunk(c.bytes.value).parts));
    } else {
      assert a.posts[..|a.posts|] == a.posts;
      assert a.full + "" == a.full;
    }
  }

  /** The attribution test posts nothing and only adds citations with
      references. */
  lemma AttributeSpec(b: Attempt, v: ChunkVar)
    requires AllReferenced(b.citations)
    ensures var o := Attribute(b, v);
      PostsOf(o) == b.posts
      && (o.Done? ==> o.state.full == b.full && o.state.posts == b.posts && AllReferenced(o.state.citations))
  {
    if v.Entry? && v.entry.attribution.Cited? {
      var added := Attributed(v.entry.attribution.citations);
      AttributedSpec(v.entry.attribution.citations);
      assert AllReferenced(added) by {
        forall i | 0 <= i < |added| ensures added[i].references != [] {
          assert added[i] in added;
        }
      }
      AppendReferenced(b.citations, added);
    }
  }

  /** A lookup only adds a citation with references. */
  lemma StepTraceSpec(a: Attempt, lookup: Option<seq<Reference>>)
    requires AllReferenced(a.citations)
    ensures var r := StepTrace(a, lookup);
      r.full == a.full && r.posts == a.posts && AllReferenced(r.citations)
  {
    if lookup.Some? && lookup.value != [] {
      var c := TraceCitationOf(lookup.value, a.citations);
      if c.Some? {
        TraceCitationShape(lookup.value, a.citations);
        AppendReferenced(a.citations, [c.value]);
      }
    }
  }

  /** One event adds its chunk text to the response, posts only non-blank
      chunk messages and nothing at all without a connection, and adds only
      citations with references. */
  lemma StepEventSpec(a: Attempt, e: Event, conn: Option<string>, reading: Reading)
    requires AllReferenced(a.citations)
    ensures var o := StepEvent(a, e, conn, reading);
      ChunksAfter(PostsOf(o), a.posts)
      && (!HasConnection(conn) ==> PostsOf(o) == a.posts)
      && (o.Done? ==> o.state.full == a.full + EventText(e) && AllReferenced(o.state.citations))
  {
    if e.chunk.Some? {
      var c := e.chunk.value;
      ChunkTextSpec(a, c, conn);
      var (b, v) := ChunkText(a, c, conn);
      AttributeSpec(b, if reading == AsWritten then v else Entry(c));
      var o := StepChunk(a, c, conn, reading);
      if o.Done? {
        StepTraceSpec(o.state, e.lookup);
      }
    } else {
      assert a.posts[..|a.posts|] == a.posts;
      assert a.full + "" == a.full;
      StepTraceSpec(a, e.lookup);
    }
  }

  /** The events of an attempt, from state `a`: when they all get through, the
      response is `a`'s followed by every chunk text in order; whatever
      happens, the posts made are chunk messages with non-blank text, none
      without a connection; every citation collected has references. */
  lemma {:induction false} RunEventsSpec(a: Attempt, events: seq<Event>, conn: Option<string>, reading: Reading)
    requires AllReferenced(a.citations)
    ensures var o := RunEvents(a, events, conn, reading);
      ChunksAfter(PostsOf(o), a.posts)
      && (!HasConnection(conn) ==> PostsOf(o) == a.posts)
      && (o.Done? ==> o.state.full == a.full + StreamText(events) && AllReferenced(o.state.citations))
    decreases |events|
  {
    if events == [] {
      assert a.posts[..|a.posts|] == a.posts;
      assert a.full + "" == a.full;
    } else {
      StepEventSpec(a, events[0], conn, reading);
      var o := StepEvent(a, events[0], conn, reading);
      if o.Done? {
        var b := o.state;
        RunEventsSpec(b, events[1..], conn, reading);
        ChunksAfterTrans(PostsOf(RunEvents(b, events[1..], conn, reading)), b.posts, a.posts);
        StreamTextAfter(a.full, events);
      }
    }
  }

  /** An attempt that gets through had a stream that did not fail, and its
      response is the stream's text. */
  lemma RunInvocationSpec(inv: Invocation, conn: Option<string>, posts: seq<WsMessage>, reading: Reading)
    ensures var o := RunInvocation(inv, conn, posts, reading);
      ChunksAfter(PostsOf(o), posts)
      && (!HasConnection(conn) ==> PostsOf(o) == posts)
      && (o.Done? ==>
            inv.Streamed? && inv.failure.None?
            && o.state.full == StreamText(inv.events) && AllReferenced(o.state.citations))
  {
    if inv.Refused? {
      assert posts[..|posts|] == posts;
    } else {
      RunEventsSpec(Attempt("", [], posts), inv.events, conn, reading);
      assert "" + StreamText(inv.events) == StreamText(inv.events);
    }
  }

  /** The retry loop: the attempt that gets through is the last one tried,
      and every attempt before it raised; the posts of all attempts are
      chunk messages. */
  lemma {:induction false} RetriedSpec(calls: seq<Invocation>, conn: Option<string>, posts: seq<WsMessage>, reading: Reading)
    requires calls != []
    ensures var o := Retried(calls, conn, posts, reading);
      var k := Tries(calls, conn, posts, reading) - 1;
      ChunksAfter(PostsOf(o), posts)
      && (!HasConnection(conn) ==> PostsOf(o) == posts)
      && (k > 0 ==> RunInvocation(calls[0], conn, posts, reading).Raised?)
      && (o.Done? ==>
            calls[k].Streamed? && calls[k].failure.None?
            && o.state.full == StreamText(calls[k].events) && AllReferenced(o.state.citations))
    decreases |calls|
  {
    var first := RunInvocation(calls[0], conn, posts, reading);
    RunInvocationSpec(calls[0], conn, posts, reading);
    if !(first.Done? || |calls| == 1) {
      RetriedSpec(calls[1..], conn, first.posts, reading);
      var o := Retried(calls[1..], conn, first.posts, reading);
      ChunksAfterTrans(PostsOf(o), first.posts, posts);
    }
  }

  /** After the retry loop the agent has been called the number of times
      the loop ran, always the same way. The answer is 200 with the complete
      message exactly when the loop ended with an attempt that got through
      and handing on the log payload did not raise; the payload then carries
      the query and that attempt's response. Otherwise it is 500 with the
      error. */
  lemma AnswerStatus(call: AgentCall, conn: Option<string>, tries: nat, o: Outcome, logFailure: Option<string>)
    ensures var h := Answer(call, conn, tries, o, logFailure);
      |h.agentCalls| == tries
      && (forall i :: 0 <= i < tries ==> h.agentCalls[i] == call)
      && (h.response.statusCode == 200 <==> o.Done? && logFailure.None?)
      && (h.response.statusCode == 200 ==>
            h.response.body == CompleteMsg(o.state.full, o.state.citations)
            && h.logged == Some(LogPayload(call.sessionId, call.inputText, o.state.full)))
      && (h.response.statusCode != 200 ==> h.response.statusCode == 500 && h.response.body.ErrorMsg?)
  {
  }

  /** The posts after the retry loop are those of its attempts followed by
      the answer's body, which is the last post on a connection that is not
      a test one; there are none without a connection. */
  lemma AnswerPosts(call: AgentCall, conn: Option<string>, tries: nat, o: Outcome, logFailure: Option<string>)
    ensures var h := Answer(call, conn, tries, o, logFailure);
      |PostsOf(o)| <= |h.posts| && h.posts[..|PostsOf(o)|] == PostsOf(o)
      && (!HasConnection(conn) ==> h.posts == PostsOf(o))
      && (HasConnection(conn) && !StartsWith(conn.value, "mock-") ==>
            h.posts != [] && h.posts[|h.posts| - 1] == h.response.body)
  {
    var h := Answer(call, conn, tries, o, logFailure);
    assert h.posts[..|PostsOf(o)|] == PostsOf(o);
  }

  /** The agent is called once, or twice when the first call raised, always
      with the trimmed query, the session (the request id by default), the
      role ("guest" by default) and that role's instructions. */
  lemma HandleCalls(req: Request, requestId: string, calls: seq<Invocation>,
                    logFailure: Option<string>, reading: Reading)
    requires |calls| == MaxRetries
    ensures var h := HandleSpec(req, requestId, calls, logFailure, reading);
      var n := |h.agentCalls|;
      1 <= n <= MaxRetries
      && (forall i :: 0 <= i < n ==> h.agentCalls[i] == AgentCallOf(req, requestId))
      && (n == 2 ==> RunInvocation(calls[0], req.connectionId, [], reading).Raised?)
  {
    var conn := req.connectionId;
    RetriedSpec(calls, conn, [], reading);
    AnswerStatus(AgentCallOf(req, requestId), conn, Tries(calls, conn, [], reading), Retried(calls, conn, [], reading), logFailure);
  }

  /** The handler answers 200 with the complete message exactly when an
      attempt got through and handing the log payload on did not raise; the
      complete message then carries the text of that attempt's stream, and
      the payload the trimmed query and that text. Otherwise it answers 500
      with the error. */
  lemma HandleStatus(req: Request, requestId: string, calls: seq<Invocation>,
                     logFailure: Option<string>, reading: Reading)
    requires |calls| == MaxRetries
    ensures var h := HandleSpec(req, requestId, calls, logFailure, reading);
      var n := |h.agentCalls|;
      (h.response.statusCode == 200 <==> Retried(calls, req.connectionId, [], reading).Done? && logFailure.None?)
      && (h.response.statusCode == 200 ==>
            1 <= n <= |calls| && calls[n - 1].Streamed? && calls[n - 1].failure.None?
            && h.response.body.CompleteMsg?
            && h.response.body.responsetext == StreamText(calls[n - 1].events)
            && AllReferenced(h.response.body.citations)
            && h.logged == Some(LogPayload(AgentCallOf(req, requestId).sessionId, Trim(Py, req.querytext),
                                           h.response.body.responsetext)))
      && (h.response.statusCode != 200 ==> h.response.statusCode == 500 && h.response.body.ErrorMsg?)
  {
    var conn := req.connectionId;
    RetriedSpec(calls, conn, [], reading);
    AnswerStatus(AgentCallOf(req, requestId), conn, Tries(calls, conn, [], reading), Retried(calls, conn, [], reading), logFailure);
  }

  /** Without a connection the handler posts nothing. With one that is not a
      test one, its last post is its answer's body, and the posts before the
      complete or error message are non-blank chunks. */
  lemma HandlePosts(req: Request, requestId: string, calls: seq<Invocation>,
                    logFailure: Option<string>, reading: Reading)
    requires |calls| == MaxRetries
    ensures var h := HandleSpec(req, requestId, calls, logFailure, reading);
      var conn := req.connectionId;
      var streamed := PostsOf(Retried(calls, conn, [], reading));
      (!HasConnection(conn) ==> h.posts == [])
      && (forall i :: 0 <= i < |streamed| ==> streamed[i].ChunkMsg? && !Blank(Py, streamed[i].chunk))
      && |streamed| <= |h.posts| && h.posts[..|streamed|] == streamed
      && (HasConnection(conn) && !StartsWith(conn.value, "mock-") ==>
            h.posts != [] && h.posts[|h.posts| - 1] == h.response.body)
  {
    var conn := req.connectionId;
    HandleIsAnswer(req, requestId, calls, logFailure, reading);
    StreamedChunks(calls, conn, reading);
    AnswerPosts(AgentCallOf(req, requestId), conn, Tries(calls, conn, [], reading), Retried(calls, conn, [], reading), logFailure);
  }

  /** The handler's result is the answer to the outcome of the retry loop. */
  lemma HandleIsAnswer(req: Request, requestId: string, calls: seq<Invocation>,
                       logFailure: Option<string>, reading: Reading)
    requires |calls| == MaxRetries
    ensures HandleSpec(req, requestId, calls, logFailure, reading)
         == Answer(AgentCallOf(req, requestId), req.connectionId, Tries(calls, req.connectionId, [], reading),
                   Retried(calls, req.connectionId, [], reading), logFailure)
  {
  }

  /** Every message the retry loop posts is a non-blank chunk, and without
      a connection it posts none. */
  lemma StreamedChunks(calls: seq<Invocation>, conn: Option<string>, reading: Reading)
    requires calls != []
    ensures var streamed := PostsOf(Retried(calls, conn, [], reading));
      (forall i :: 0 <= i < |streamed| ==> streamed[i].ChunkMsg? && !Blank(Py, streamed[i].chunk))
      && (!HasConnection(conn) ==> streamed == [])
  {
    RetriedSpec(calls, conn, [], reading);
  }

  // ---------------------------------------------------------------------------
  // The rebound loop variable

  /** A text without punctuation has no sentence break. */
  lemma {:induction false} SplitWithoutBreak(s: string, acc: string)
    requires forall i :: 0 <= i < |s| ==> !Punct(s[i])
    ensures SplitFrom(SentencePattern, s, acc) == [acc + s]
    decreases |s|
  {
    if s == [] {
      assert acc + s == acc;
    } else {
      assert MatchLength(SentencePattern, s) == 0;
      SplitWithoutBreak(s[1..], acc + [s[0]]);
      MoveFirst(s, acc);
    }
  }

  /** A single word without punctuation is one sentence part, so the word
      fallback runs and leaves `chunk` bound to the word itself. */
  lemma SplitChunkOfWord(t: string)
    requires !Blank(Py, t) && ' ' !in t
    requires forall i :: 0 <= i < |t| ==> !Punct(t[i])
    ensures SplitChunk(t) == ChunkSplit([t], Some(t))
  {
    SplitWithoutBreak(t, "");
    assert "" + t == t;
    assert SentenceParts(t) == [t];
    assert IndexOf(t, ' ').None?;
    assert Split(t, ' ') == [t];
    assert NonBlank([t][1..]) == [];
    assert Words(t) == [t];
    assert [t][0..Min(0 + GroupSize, 1)] == [t];
    assert Group([t], 0) == t;
    assert GroupsFrom([t], 0) == [t] + GroupsFrom([t], GroupSize);
  }

  /** A text shorter than `sub` does not contain it. */
  lemma {:induction false} ShortLacks(s: string, sub: string)
    requires |s| < |sub|
    ensures !Contains(s, sub)
    decreases |s|
  {
    if s != [] {
      ShortLacks(s[1..], sub);
    }
  }

  /** Read as intended, the handling of a chunk entry never raises. */
  lemma IntendedChunkDone(a: Attempt, c: Chunk, conn: Option<string>)
    ensures StepChunk(a, c, conn, Intended).Done?
  {
    var (b, v) := ChunkText(a, c, conn);
    assert StepChunk(a, c, conn, Intended) == Attribute(b, Entry(c));
  }

  /** As written: a one-word chunk text containing "attribution", streamed
      to a connection, makes the attribution test index a string, which
      raises; read as intended, the chunk goes through. */
  lemma AttributionWordRaises(a: Attempt, t: string, attribution: Attribution, conn: Option<string>)
    requires HasConnection(conn) && !Blank(Py, t) && ' ' !in t
    requires forall i :: 0 <= i < |t| ==> !Punct(t[i])
    requires Contains(t, "attribution")
    ensures StepChunk(a, Chunk(Some(t), attribution), conn, AsWritten)
      == Raised(TypeErrorText, a.posts + SentChunks(conn.value, [t]))
    ensures StepChunk(a, Chunk(Some(t), attribution), conn, Intended).Done?
  {
    WordChunkRaises(a, t, attribution, conn);
    IntendedChunkDone(a, Chunk(Some(t), attribution), conn);
  }

  lemma WordChunkRaises(a: Attempt, t: string, attribution: Attribution, conn: Option<string>)
    requires HasConnection(conn) && !Blank(Py, t) && ' ' !in t
    requires forall i :: 0 <= i < |t| ==> !Punct(t[i])
    requires Contains(t, "attribution")
    ensures StepChunk(a, Chunk(Some(t), attribution), conn, AsWritten)
      == Raised(TypeErrorText, a.posts + SentChunks(conn.value, [t]))
  {
    WordChunkText(a, t, attribution, conn);
  }

  /** A one-word chunk text, streamed to a connection, is sent as it is and
      rebinds `chunk` to itself. */
  lemma WordChunkText(a: Attempt, t: string, attribution: Attribution, conn: Option<string>)
    requires HasConnection(conn) && !Blank(Py, t) && ' ' !in t
    requires forall i :: 0 <= i < |t| ==> !Punct(t[i])
    ensures ChunkText(a, Chunk(Some(t), attribution), conn)
      == (a.(full := a.full + t, posts := a.posts + SentChunks(conn.value, [t])), Rebound(t))
  {
    SplitChunkOfWord(t);
  }

  /** As written: a one-word chunk text without "attribution", streamed to a
      connection, leaves the attempt's citations as they were, whatever the
      chunk's attribution cites; read as intended, the attributed citations
      are added. */
  lemma AttributionWordDropped(a: Attempt, t: string, cited: seq<GeneratedCitation>, conn: Option<string>)
    requires HasConnection(conn) && !Blank(Py, t) && ' ' !in t
    requires forall i :: 0 <= i < |t| ==> !Punct(t[i])
    requires !Contains(t, "attribution")
    ensures var o := StepChunk(a, Chunk(Some(t), Cited(cited)), conn, AsWritten);
      o.Done? && o.state.citations == a.citations
    ensures var o := StepChunk(a, Chunk(Some(t), Cited(cited)), conn, Intended);
      o.Done? && o.state.citations == a.citations + Attributed(cited)
  {
    SplitChunkOfWord(t);
    var c := Chunk(Some(t), Cited(cited));
    var b := a.(full := a.full + t, posts := a.posts + SentChunks(conn.value, [t]));
    assert ChunkText(a, c, conn) == (b, Rebound(t));
    assert Attribute(b, Rebound(t)) == Done(b);
  }

  /** The input that shows the exception: the chunk text "attribution". */
  lemma AttributionRaisesExample()
    ensures StepChunk(Attempt("", [], []), Chunk(Some("attribution"), NoAttribution), Some("c1"), AsWritten)
      == Raised(TypeErrorText, [ChunkMsg("attribution")])
  {
    var t := "attribution";
    OneWord(t);
    AttributionWordRaises(Attempt("", [], []), t, NoAttribution, Some("c1"));
    SentOne("c1", t);
  }

  /** "attribution" is one word, without punctuation, that contains itself. */
  lemma OneWord(t: string)
    requires t == "attribution"
    ensures !Blank(Py, t) && ' ' !in t && Contains(t, "attribution")
    ensures forall i :: 0 <= i < |t| ==> !Punct(t[i])
  {
    assert StartsWith(t, "attribution");
    assert !IsSpace(Py, t[0]);
  }

  /** A single non-blank part goes out as one chunk message on a connection
      that is not a test one. */
  lemma SentOne(connectionId: string, p: string)
    requires !Blank(Py, p) && !StartsWith(connectionId, "mock-")
    ensures SentChunks(connectionId, [p]) == [ChunkMsg(p)]
  {
    assert p != "";
    assert SentChunks(connectionId, [p][1..]) == [];
  }

  /** The input that shows the lost citation: the chunk text "Hello",
      attributed to an S3 document. */
  lemma AttributionDroppedExample(h: string, cited: seq<GeneratedCitation>)
    requires h == "Hello"
    requires cited == [GeneratedCitation("Hello", [Reference(Str("S3"), "s3://kb/guide.pdf", "s3://kb/guide.pdf", "")])]
    ensures var o := StepChunk(Attempt("", [], []), Chunk(Some(h), Cited(cited)), Some("c1"), AsWritten);
      o.Done? && o.state.citations == []
    ensures var o := StepChunk(Attempt("", [], []), Chunk(Some(h), Cited(cited)), Some("c1"), Intended);
      o.Done? && o.state.citations != []
  {
    ShortLacks(h, "attribution");
    assert !Blank(Py, h) by { assert !IsSpace(Py, h[0]); }
    assert ' ' !in h;
    assert forall i :: 0 <= i < |h| ==> !Punct(h[i]);
    AttributionWordDropped(Attempt("", [], []), h, cited, Some("c1"));
    assert S3Refs(cited[0].refs) != [];
    assert Attributed(cited) != [];
  }

  /** Read as intended, no chunk raises: an attempt fails only when the agent
      call or its stream does, and every attribution's citations are kept. */
  lemma {:induction false} IntendedNeverRaises(a: Attempt, events: seq<Event>, conn: Option<string>)
    ensures RunEvents(a, events, conn, Intended).Done?
    decreases |events|
  {
    if events != [] {
      var o := StepEvent(a, events[0], conn, Intended);
      assert o.Done?;
      IntendedNeverRaises(o.state, events[1..], conn);
    }
  }

  /** The two readings differ only where the word fallback rebound `chunk`. */
  lemma ReadingsAgree(a: Attempt, c: Chunk, conn: Option<string>)
    requires ChunkText(a, c, conn).1.Entry?
    ensures StepChunk(a, c, conn, AsWritten) == StepChunk(a, c, conn, Intended)
  {
  }
}
