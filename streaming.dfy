/** The streaming handler. It validates the query, calls the agent and
    writes the answer as server-sent events: one `chunk` event per chunk
    text, then one `complete` event with the whole response and the
    knowledge-base citations, unique by URI; or an `error` event when the
    stream raises. */
module Streaming {
  import opened Common
  import opened Agent
  import opened Json
  import opened Sse
  import Websocket

  // ---------------------------------------------------------------------------
  // Event payloads

  /** A citation: the S3 URI and the first 200 characters of the content. */
  datatype StreamCitation = StreamCitation(uri: string, content: string)

  /** What one event carries, before it is written as JSON. */
  datatype Payload =
    | ChunkPayload(text: string)
    | CompletePayload(responsetext: string, citations: seq<StreamCitation>)
    | ErrorPayload(message: string)

  /** Every character printable ASCII. */
  predicate AllPrintable(s: string) {
    forall i :: 0 <= i < |s| ==> Printable(s[i])
  }

  lemma PrintableConcat(a: string, b: string)
    requires AllPrintable(a) && AllPrintable(b)
    ensures AllPrintable(a + b)
  {
    forall i | 0 <= i < |a + b| ensures Printable((a + b)[i]) {
      if i >= |a| { assert (a + b)[i] == b[i - |a|]; }
    }
  }

  /** `json.dumps` of one citation. */
  function CitationJson(c: StreamCitation): (r: string)
    ensures AllPrintable(r)
  {
    var u := Quote(c.uri);
    var t := Quote(c.content);
    PrintableConcat("{\"uri\": ", u);
    PrintableConcat("{\"uri\": " + u, ", \"content\": ");
    PrintableConcat("{\"uri\": " + u + ", \"content\": ", t);
    PrintableConcat("{\"uri\": " + u + ", \"content\": " + t, "}");
    "{\"uri\": " + u + ", \"content\": " + t + "}"
  }

  /** The citations after the first, each preceded by `", "`. */
  function MoreCitationsJson(cs: seq<StreamCitation>): (r: string)
    ensures AllPrintable(r)
    decreases |cs|
  {
    if cs == [] then ""
    else
      var head := CitationJson(cs[0]);
      var rest := MoreCitationsJson(cs[1..]);
      PrintableConcat(", ", head);
      PrintableConcat(", " + head, rest);
      ", " + head + rest
  }

  /** `json.dumps` of the citation list. */
  function CitationsJson(cs: seq<StreamCitation>): (r: string)
    ensures AllPrintable(r)
  {
    if cs == [] then "[]"
    else
      var head := CitationJson(cs[0]);
      var rest := MoreCitationsJson(cs[1..]);
      PrintableConcat("[", head);
      PrintableConcat("[" + head, rest);
      PrintableConcat("[" + head + rest, "]");
      "[" + head + rest + "]"
  }

  /** A printable prefix, a printable middle and a printable suffix. */
  lemma PrintableWrap(prefix: string, middle: string, suffix: string)
    requires AllPrintable(prefix) && AllPrintable(middle) && AllPrintable(suffix)
    ensures AllPrintable(prefix + middle + suffix)
  {
    PrintableConcat(prefix, middle);
    PrintableConcat(prefix + middle, suffix);
  }

  const ChunkPrefix := "{\"type\": \"chunk\", \"chunk\": "
  const CompletePrefix := "{\"type\": \"complete\", \"responsetext\": "
  const CitationsKey := ", \"citations\": "
  const ErrorPrefix := "{\"type\": \"error\", \"message\": "

  lemma PrefixesPrintable()
    ensures AllPrintable(ChunkPrefix) && AllPrintable(CompletePrefix)
    ensures AllPrintable(CitationsKey) && AllPrintable(ErrorPrefix) && AllPrintable("}")
  {
  }

  /** `json.dumps` of a payload, with its default separators `", "` and
      `": "`. */
  function Encode(p: Payload): (r: string)
    ensures AllPrintable(r)
  {
    PrefixesPrintable();
    match p
    case ChunkPayload(text) =>
      PrintableWrap(ChunkPrefix, Quote(text), "}");
      ChunkPrefix + Quote(text) + "}"
    case CompletePayload(text, cs) =>
      var l := CitationsJson(cs);
      PrintableWrap(CompletePrefix, Quote(text), CitationsKey);
      PrintableWrap(CompletePrefix + Quote(text) + CitationsKey, l, "}");
      CompletePrefix + Quote(text) + CitationsKey + l + "}"
    case ErrorPayload(message) =>
      PrintableWrap(ErrorPrefix, Quote(message), "}");
      ErrorPrefix + Quote(message) + "}"
  }

  /** The text of a chunk event, read back from its data: the JSON string
      between the fixed prefix and the closing brace. */
  function ChunkOf(data: string): Option<string> {
    var prefix := ChunkPrefix;
    if |data| < |prefix| + 1 || data[..|prefix|] != prefix || data[|data| - 1] != '}' then None
    else Unquote(data[|prefix|..|data| - 1])
  }

  /** A chunk event's text reads back from what was written. */
  lemma ChunkRoundTrip(text: string)
    ensures ChunkOf(Encode(ChunkPayload(text))) == Some(text)
  {
    var prefix := ChunkPrefix;
    var d := Encode(ChunkPayload(text));
    assert d == prefix + Quote(text) + "}";
    assert d[..|prefix|] == prefix;
    assert d[|prefix|..|d| - 1] == Quote(text);
    UnquoteQuote(text);
  }

  /** The frame yielded for a payload. */
  function FrameOf(p: Payload): string {
    Frame(Encode(p))
  }

  /** The data written for each payload. */
  function Encoded(ps: seq<Payload>): (r: seq<string>)
    ensures |r| == |ps| && forall i :: 0 <= i < |ps| ==> r[i] == Encode(ps[i])
  {
    seq(|ps|, i requires 0 <= i < |ps| => Encode(ps[i]))
  }

  // ---------------------------------------------------------------------------
  // The generator

  /** `uri in [c.get('uri') for c in citations]`. */
  predicate HasUri(cs: seq<StreamCitation>, uri: string) {
    exists i :: 0 <= i < |cs| && cs[i].uri == uri
  }

  /** The loop over a lookup's retrieved references: each non-empty URI not
      yet cited is added, with its content cut to 200 characters. */
  function AddCitations(cs: seq<StreamCitation>, refs: seq<Reference>): seq<StreamCitation>
    decreases |refs|
  {
    if refs == [] then cs
    else
      var uri := refs[0].uri;
      if uri != "" && !HasUri(cs, uri) then AddCitations(cs + [StreamCitation(uri, Take(refs[0].content, 200))], refs[1..])
      else AddCitations(cs, refs[1..])
  }

  /** The generator's state: `full_response`, `citations`, and the payloads
      yielded so far. */
  datatype StreamState = StreamState(full: string, citations: seq<StreamCitation>, yielded: seq<Payload>)

  /** One event: a chunk with bytes is added to the response and yielded;
      a lookup's references add citations. */
  function StepStream(st: StreamState, e: Event): StreamState {
    var afterChunk :=
      if e.chunk.Some? && e.chunk.value.bytes.Some? then
        var text := e.chunk.value.bytes.value;
        st.(full := st.full + text, yielded := st.yielded + [ChunkPayload(text)])
      else st;
    if e.lookup.Some? then afterChunk.(citations := AddCitations(afterChunk.citations, e.lookup.value))
    else afterChunk
  }

  function RunStream(st: StreamState, events: seq<Event>): StreamState
    decreases |events|
  {
    if events == [] then st else RunStream(StepStream(st, events[0]), events[1..])
  }

  /** Everything the generator yields for a stream that yields `events` and
      then ends, or raises `failure`. */
  function Payloads(events: seq<Event>, failure: Option<string>): seq<Payload> {
    var st := RunStream(StreamState("", [], []), events);
    if failure.Some? then st.yielded + [ErrorPayload(failure.value)]
    else st.yielded + [CompletePayload(st.full, st.citations)]
  }

  /** The interaction handed to the log classifier, its timestamp left out. */
  datatype StreamLog = StreamLog(querytext: string, responsetext: string, sessionId: Field, userRole: Field)

  /** The log payload handed on after the complete event; none when the
      stream raised. A failure to hand it on is swallowed. */
  function LoggedOf(events: seq<Event>, failure: Option<string>, sessionId: Field, query: string, role: Field): Option<StreamLog> {
    if failure.Some? then None
    else Some(StreamLog(query, RunStream(StreamState("", [], []), events).full, sessionId, role))
  }

  /** The references loop of one lookup. */
  method CollectCitations(cs: seq<StreamCitation>, refs: seq<Reference>) returns (r: seq<StreamCitation>)
    ensures r == AddCitations(cs, refs)
  {
    r := cs;
    for j := 0 to |refs|
      invariant AddCitations(r, refs[j..]) == AddCitations(cs, refs)
    {
      assert refs[j..][1..] == refs[j + 1..];
      var uri := refs[j].uri;
      var known := false;
      for k := 0 to |r|
        invariant known <==> exists i :: 0 <= i < k && r[i].uri == uri
      {
        if r[k].uri == uri {
          known := true;
        }
      }
      if uri != "" && !known {
        r := r + [StreamCitation(uri, Take(refs[j].content, 200))];
      }
    }
    assert refs[|refs|..] == [];
  }

  /** `stream_bedrock_response`: the frames it yields and the log payload it
      hands on. */
  method StreamBedrockResponse(events: seq<Event>, failure: Option<string>, sessionId: Field, query: string, role: Field)
    returns (frames: seq<string>, logged: Option<StreamLog>)
    ensures frames == seq(|Payloads(events, failure)|, i requires 0 <= i < |Payloads(events, failure)| => FrameOf(Payloads(events, failure)[i]))
    ensures logged == LoggedOf(events, failure, sessionId, query, role)
  {
    var st := StreamState("", [], []);
    var yielded: seq<Payload> := [];
    frames := [];
    for i := 0 to |events|
      invariant RunStream(st, events[i..]) == RunStream(StreamState("", [], []), events)
      invariant st.yielded == yielded
      invariant |frames| == |yielded| && forall k :: 0 <= k < |frames| ==> frames[k] == FrameOf(yielded[k])
    {
      assert events[i..][1..] == events[i + 1..];
      var e := events[i];
      if e.chunk.Some? && e.chunk.value.bytes.Some? {
        var text := e.chunk.value.bytes.value;
        st := st.(full := st.full + text, yielded := st.yielded + [ChunkPayload(text)]);
        yielded := yielded + [ChunkPayload(text)];
        frames := frames + [FrameOf(ChunkPayload(text))];
      }
      if e.lookup.Some? {
        var cs := CollectCitations(st.citations, e.lookup.value);
        st := st.(citations := cs);
      }
    }
    assert events[|events|..] == [];
    var last := if failure.Some? then ErrorPayload(failure.value) else CompletePayload(st.full, st.citations);
    frames := frames + [FrameOf(last)];
    logged := if failure.Some? then None else Some(StreamLog(query, st.full, sessionId, role));
  }

  // ---------------------------------------------------------------------------
  // What the stream promises

  /** The texts of the chunk payloads, concatenated. */
  function ChunkTexts(ps: seq<Payload>): string
    decreases |ps|
  {
    if ps == [] then "" else (if ps[0].ChunkPayload? then ps[0].text else "") + ChunkTexts(ps[1..])
  }

  /** The payload an event yields: one chunk payload when it has bytes. */
  function Yield(e: Event): seq<Payload> {
    if e.chunk.Some? && e.chunk.value.bytes.Some? then [ChunkPayload(e.chunk.value.bytes.value)] else []
  }

  /** The payloads the events yield, in order. */
  function Yields(events: seq<Event>): seq<Payload>
    decreases |events|
  {
    if events == [] then [] else Yield(events[0]) + Yields(events[1..])
  }

  /** One event adds its text to the response and its payload to what was
      yielded. */
  lemma StepShape(st: StreamState, e: Event)
    ensures StepStream(st, e).full == st.full + EventText(e)
    ensures StepStream(st, e).yielded == st.yielded + Yield(e)
  {
  }

  lemma {:induction false} RunStreamShape(st: StreamState, events: seq<Event>)
    ensures RunStream(st, events).full == st.full + StreamText(events)
    ensures RunStream(st, events).yielded == st.yielded + Yields(events)
    decreases |events|
  {
    if events == [] {
      assert st.full + "" == st.full;
      assert st.yielded + [] == st.yielded;
    } else {
      var e := events[0];
      var next := StepStream(st, e);
      StepShape(st, e);
      RunStreamShape(next, events[1..]);
      assert RunStream(st, events) == RunStream(next, events[1..]);
      assert next.full + StreamText(events[1..]) == st.full + StreamText(events) by {
        assert StreamText(events) == EventText(e) + StreamText(events[1..]);
      }
      assert next.yielded + Yields(events[1..]) == st.yielded + Yields(events) by {
        assert Yields(events) == Yield(e) + Yields(events[1..]);
      }
    }
  }

  /** The yielded payloads are chunk payloads whose texts are the stream's. */
  lemma {:induction false} YieldsSpec(events: seq<Event>)
    ensures forall i :: 0 <= i < |Yields(events)| ==> Yields(events)[i].ChunkPayload?
    ensures ChunkTexts(Yields(events)) == StreamText(events)
    decreases |events|
  {
    if events != [] {
      var y := Yield(events[0]);
      var rest := Yields(events[1..]);
      YieldsSpec(events[1..]);
      if y == [] {
        assert Yields(events) == rest;
        assert EventText(events[0]) == "";
      } else {
        assert Yields(events) == [y[0]] + rest;
        assert ([y[0]] + rest)[1..] == rest;
        assert forall i :: 1 <= i < |[y[0]] + rest| ==> ([y[0]] + rest)[i] == rest[i - 1];
      }
    }
  }

  /** The generator yields chunk payloads whose texts put together are the
      response, then exactly one last payload: the complete one with the
      whole response when the stream ends, the error when it raises. */
  lemma PayloadsSpec(events: seq<Event>, failure: Option<string>)
    ensures var ps := Payloads(events, failure);
      var n := |ps| - 1;
      n >= 0
      && (forall i :: 0 <= i < n ==> ps[i].ChunkPayload?)
      && ChunkTexts(ps[..n]) == StreamText(events)
      && (failure.None? ==> ps[n].CompletePayload? && ps[n].responsetext == StreamText(events))
      && (failure.Some? ==> ps[n] == ErrorPayload(failure.value))
  {
    var st := StreamState("", [], []);
    RunStreamShape(st, events);
    YieldsSpec(events);
    var ps := Payloads(events, failure);
    assert ps[..|ps| - 1] == Yields(events);
    assert "" + StreamText(events) == StreamText(events);
  }

  /** Written one after the other, the frames read back as one event per
      payload, each with the payload's JSON as data. */
  lemma FramesReadBack(ps: seq<Payload>)
    ensures Concat(seq(|ps|, i requires 0 <= i < |ps| => FrameOf(ps[i]))) == Frames(Encoded(ps))
    ensures ReadEvents(Frames(Encoded(ps))) == Encoded(ps)
  {
    FramesConcat(ps);
    var data := Encoded(ps);
    forall d | d in data ensures '\n' !in d && '\r' !in d {
      var i :| 0 <= i < |data| && data[i] == d;
      assert forall k :: 0 <= k < |d| ==> Printable(d[k]);
    }
    ReadFrames(data);
  }

  lemma {:induction false} FramesConcat(ps: seq<Payload>)
    ensures Concat(seq(|ps|, i requires 0 <= i < |ps| => FrameOf(ps[i]))) == Frames(Encoded(ps))
    decreases |ps|
  {
    var fs := seq(|ps|, i requires 0 <= i < |ps| => FrameOf(ps[i]));
    if ps != [] {
      FramesConcat(ps[1..]);
      assert fs[1..] == seq(|ps[1..]|, i requires 0 <= i < |ps[1..]| => FrameOf(ps[1..][i]));
      assert Encoded(ps)[1..] == Encoded(ps[1..]);
    }
  }

  // ---------------------------------------------------------------------------
  // Citations

  /** URIs distinct across the list. */
  predicate DistinctUris(cs: seq<StreamCitation>) {
    forall i, j :: 0 <= i < j < |cs| ==> cs[i].uri != cs[j].uri
  }

  /** Adding a lookup's references keeps the citations already there, keeps
      the URIs distinct and non-empty, cuts every added content to at most
      200 characters of a reference with that URI, and cites every non-empty
      URI of the lookup. */
  lemma {:induction false} AddCitationsSpec(cs: seq<StreamCitation>, refs: seq<Reference>)
    requires DistinctUris(cs)
    ensures var r := AddCitations(cs, refs);
      |cs| <= |r| && r[..|cs|] == cs && DistinctUris(r)
      && (forall i :: |cs| <= i < |r| ==>
            r[i].uri != "" && |r[i].content| <= 200
            && exists ref :: ref in refs && ref.uri == r[i].uri && r[i].content == Take(ref.content, 200))
      && (forall ref :: ref in refs && ref.uri != "" ==> HasUri(r, ref.uri))
    decreases |refs|
  {
    if refs == [] {
      assert cs[..|cs|] == cs;
    } else {
      var ref0 := refs[0];
      var uri := ref0.uri;
      var next := if uri != "" && !HasUri(cs, uri) then cs + [StreamCitation(uri, Take(ref0.content, 200))] else cs;
      assert DistinctUris(next);
      AddCitationsSpec(next, refs[1..]);
      var r := AddCitations(next, refs[1..]);
      assert r == AddCitations(cs, refs);
      assert r[..|cs|] == cs by {
        assert r[..|cs|] == r[..|next|][..|cs|];
      }
      forall i | |cs| <= i < |r|
        ensures r[i].uri != "" && |r[i].content| <= 200
          && exists ref :: ref in refs && ref.uri == r[i].uri && r[i].content == Take(ref.content, 200)
      {
        if i < |next| {
          assert r[i] == next[i];
          assert ref0 in refs;
        } else {
          var ref :| ref in refs[1..] && ref.uri == r[i].uri && r[i].content == Take(ref.content, 200);
          assert ref in refs;
        }
      }
      forall ref | ref in refs && ref.uri != "" ensures HasUri(r, ref.uri) {
        if ref == ref0 {
          if HasUri(cs, uri) {
            var k :| 0 <= k < |cs| && cs[k].uri == uri;
            assert r[k] == cs[k];
          } else {
            assert r[|cs|] == next[|cs|];
          }
        } else {
          assert ref in refs[1..];
        }
      }
    }
  }

  // ---------------------------------------------------------------------------
  // The handler

  /** The request body: one that `json.loads` or `.get` raises on (not
      JSON, or JSON that is not an object), with the exception's message;
      or the `querytext`, `session_id` and `user_role` fields as they stand
      in the parsed object. */
  datatype StreamRequest =
    | Unparsable(message: string)
    | Body(querytext: Field, sessionId: Field, userRole: Field)

  /** The handler's answer: a JSON error response, or the event stream. */
  datatype StreamingResponse =
    | Rejected(statusCode: int, error: string)
    | EventStream(frames: seq<string>, logged: Option<StreamLog>)

  const QueryRequired := "Query text is required"

  /** The message of the `NameError` the unbound name `awslambda` raises. */
  const AwsLambdaUnbound := "name 'awslambda' is not defined"

  /** The checks before the stream: a body that cannot be read, or a query
      without `strip`, raises and gives 500; a blank query is refused with
      400; an agent call that raises gives 500. */
  function Checked(req: StreamRequest, call: Invocation): Option<StreamingResponse> {
    match req
    case Unparsable(m) => Some(Rejected(500, m))
    case Body(q, _, _) =>
      match Websocket.QueryOf(q)
      case Err(m) => Some(Rejected(500, m))
      case Ok(query) =>
        if query == "" then Some(Rejected(400, QueryRequired))
        else if call.Refused? then Some(Rejected(500, call.error))
        else None
  }

  /** `lambda_handler` as written: past the checks it reads the unbound
      name `awslambda`, which raises, so the answer is 500. */
  function StreamingHandle(req: StreamRequest, call: Invocation): StreamingResponse {
    match Checked(req, call)
    case Some(r) => r
    case None => Rejected(500, AwsLambdaUnbound)
  }

  /** `lambda_handler` as evidently intended: past the checks it answers with
      the stream the generator writes. The session defaults to the request
      id and the role to "guest" only when the key is absent. */
  function StreamingHandleIntended(req: StreamRequest, requestId: string, call: Invocation): StreamingResponse {
    match Checked(req, call)
    case Some(r) => r
    case None =>
      var ps := Payloads(call.events, call.failure);
      EventStream(seq(|ps|, i requires 0 <= i < |ps| => FrameOf(ps[i])),
                  LoggedOf(call.events, call.failure, GetOr(req.sessionId, requestId), Trim(Py, req.querytext.s),
                           GetOr(req.userRole, "guest")))
  }

  /** A blank query is a missing `querytext` or a string of whitespace. */
  predicate BlankQuery(req: StreamRequest) {
    req.Body? && (req.querytext.Missing? || (req.querytext.Str? && Blank(Py, req.querytext.s)))
  }

  /** A blank query, and only a blank query, is refused with 400 and "Query
      text is required". */
  lemma BlankQueryRefused(req: StreamRequest, call: Invocation)
    ensures BlankQuery(req) <==> StreamingHandle(req, call) == Rejected(400, QueryRequired)
    ensures BlankQuery(req) ==> StreamingHandleIntended(req, "", call) == Rejected(400, QueryRequired)
  {
    if req.Body? && req.querytext.Str? {
      TrimEmptyIffBlank(Py, req.querytext.s);
    }
  }

  /** A body that cannot be read, or a `querytext` that is neither absent
      nor a string, raises before any check and is answered 500 with the
      exception's message, by both readings. */
  lemma UnreadableRequestFails(req: StreamRequest, requestId: string, call: Invocation)
    ensures req.Unparsable? ==>
      StreamingHandle(req, call) == Rejected(500, req.message)
      && StreamingHandleIntended(req, requestId, call) == Rejected(500, req.message)
    ensures req.Body? && !req.querytext.Missing? && !req.querytext.Str? ==>
      StreamingHandle(req, call) == Rejected(500, Websocket.NoStrip(req.querytext))
      && StreamingHandleIntended(req, requestId, call) == Rejected(500, Websocket.NoStrip(req.querytext))
  {
  }

  /** As written, no request gets the stream: the answer is always a JSON
      error, 500 for every query that is not blank. */
  lemma NeverStreams(req: StreamRequest, call: Invocation)
    ensures StreamingHandle(req, call).Rejected?
    ensures !BlankQuery(req) ==> StreamingHandle(req, call).statusCode == 500
  {
    BlankQueryRefused(req, call);
    var r := StreamingHandle(req, call);
    assert r.Rejected? && (r.statusCode == 500 || r == Rejected(400, QueryRequired));
  }

  /** As intended, a non-blank query whose agent call goes through gets the
      stream, which reads back as the chunk events followed by one complete
      or error event. */
  lemma IntendedStreams(req: StreamRequest, requestId: string, call: Invocation)
    requires req.Body? && req.querytext.Str? && !Blank(Py, req.querytext.s) && call.Streamed?
    ensures var r := StreamingHandleIntended(req, requestId, call);
      var ps := Payloads(call.events, call.failure);
      r.EventStream? && ReadEvents(Concat(r.frames)) == Encoded(ps)
  {
    TrimEmptyIffBlank(Py, req.querytext.s);
    FramesReadBack(Payloads(call.events, call.failure));
  }

  /** As intended, the log payload of a stream that completes carries the
      trimmed query, the session id (the request id only when `session_id`
      is absent, so a null one stays null) and the role ("guest" only when
      `user_role` is absent). */
  lemma IntendedLogsRequestFields(req: StreamRequest, requestId: string, call: Invocation)
    requires req.Body? && req.querytext.Str? && !Blank(Py, req.querytext.s) && call.Streamed? && call.failure.None?
    ensures var r := StreamingHandleIntended(req, requestId, call);
      r.EventStream? && r.logged.Some?
      && r.logged.value.querytext == Trim(Py, req.querytext.s)
      && (req.sessionId.Missing? ==> r.logged.value.sessionId == Str(requestId))
      && (!req.sessionId.Missing? ==> r.logged.value.sessionId == req.sessionId)
      && (req.userRole.Missing? ==> r.logged.value.userRole == Str("guest"))
      && (!req.userRole.Missing? ==> r.logged.value.userRole == req.userRole)
  {
    TrimEmptyIffBlank(Py, req.querytext.s);
  }
}
