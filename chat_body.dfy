/** The chat page's turn state machine: the message list, the `processing`
    flag, and one WebSocket turn whose frames are delivered one at a time. */
module ChatBody {
  import opened Common
  import opened Storage

  datatype Sender = User | Bot
  datatype Status = Sent | Processing | Streaming | Received

  /** A citation as the server sends it; the page only passes it along. */
  datatype Citation = Citation(title: string, uri: string)

  /** A message block. The block constructor is not part of this model beyond
      what the page relies on: it yields a block with a fresh id and no
      citation list. */
  datatype Message = Message(id: nat, sender: Sender, content: Field, status: Status,
                             citations: Option<seq<Citation>>)

  function NewBlock(id: nat, text: string, sender: Sender, status: Status): Message {
    Message(id, sender, Str(text), status, None)
  }

  /** A bot answer still being produced. */
  predicate InFlight(m: Message) {
    m.status == Processing || m.status == Streaming
  }

  /** `c || []` for a citation list (any array, even an empty one, is truthy). */
  function OrEmpty(c: Option<seq<Citation>>): seq<Citation> {
    if c.Some? then c.value else []
  }

  /** The text JavaScript appends in `s += v` for a JSON value `v`. */
  function JsText(f: Field): string {
    match f
    case Missing => "undefined"
    case Null => "null"
    case Str(s) => s
    case Num(n) => IntToString(n)
  }

  // ---------------------------------------------------------------------------
  // Frames

  /** What `JSON.parse` gives for a frame's text. A parsed value that is not an
      object reads every key as absent. */
  datatype Parsed =
    | Unparseable
    | ParsedNull
    | Value(kind: Field, chunk: Field, responsetext: Field, citations: Option<seq<Citation>>)

  datatype Frame = Frame(raw: string, parsed: Parsed)

  datatype FrameKind = Heartbeat | Chunk | Complete | Legacy | ParseError

  /** Which branch of the frame handler a frame takes. Reading `type` of a
      parsed `null` throws and lands in the same handler as a parse error. */
  function Classify(f: Frame): (k: FrameKind)
    ensures k == Chunk ==> f.parsed.Value? && f.parsed.kind == Str("chunk")
    ensures k == Complete ==> f.parsed.Value? && f.parsed.kind == Str("complete")
    ensures k == Legacy ==> f.parsed.Value? && f.parsed.kind != Str("chunk") && f.parsed.kind != Str("complete")
  {
    if Blank(Js, f.raw) then Heartbeat
    else match f.parsed
      case Unparseable => ParseError
      case ParsedNull => ParseError
      case Value(t, _, _, _) =>
        if t == Str("chunk") then Chunk
        else if t == Str("complete") then Complete
        else Legacy
  }

  /** The heartbeat test is the page's `trim() === ""`, and a frame that parses
      to no object is a parse error. */
  lemma ClassifyByTrim(f: Frame)
    ensures Classify(f) == Heartbeat <==> Trim(Js, f.raw) == ""
    ensures Classify(f) == ParseError <==> Trim(Js, f.raw) != "" && !f.parsed.Value?
  {
    TrimEmptyIffBlank(Js, f.raw);
  }

  /** An empty or whitespace-only frame is a heartbeat and changes nothing. */
  lemma HeartbeatChangesNothing(c: Chat, f: Frame)
    requires Trim(Js, f.raw) == ""
    ensures Deliver(c, f) == c
  {
    ClassifyByTrim(f);
  }

  const ParseErrorText := "Error parsing response. Please try again."
  const SocketErrorText := "WebSocket error. Please try again."

  // ---------------------------------------------------------------------------
  // Status-filtered updates of the message list

  function ChunkUpdate(m: Message, text: string): Message {
    if InFlight(m) then m.(content := Str(text), status := Streaming, citations := Some(OrEmpty(m.citations)))
    else m
  }

  /** A chunk shows the whole streamed text on every in-flight message. */
  function ApplyChunk(msgs: seq<Message>, text: string): (r: seq<Message>)
    ensures |r| == |msgs|
    ensures forall i :: 0 <= i < |r| ==> r[i].id == msgs[i].id && r[i].sender == msgs[i].sender
    ensures forall i :: 0 <= i < |r| && !InFlight(msgs[i]) ==> r[i] == msgs[i]
    ensures forall i :: 0 <= i < |r| && InFlight(msgs[i]) ==>
      r[i].content == Str(text) && r[i].status == Streaming
  {
    seq(|msgs|, i requires 0 <= i < |msgs| => ChunkUpdate(msgs[i], text))
  }

  function Settle(m: Message, text: Field, cits: Option<seq<Citation>>): Message {
    m.(content := text, status := Received, citations := Some(OrEmpty(cits)))
  }

  /** A complete frame settles every in-flight message on the final text. */
  function ApplyComplete(msgs: seq<Message>, text: Field, cits: Option<seq<Citation>>): (r: seq<Message>)
    ensures |r| == |msgs|
    ensures forall i :: 0 <= i < |r| ==> r[i].id == msgs[i].id && r[i].sender == msgs[i].sender
    ensures forall i :: 0 <= i < |r| && !InFlight(msgs[i]) ==> r[i] == msgs[i]
    ensures forall i :: 0 <= i < |r| && InFlight(msgs[i]) ==>
      r[i].content == text && r[i].status == Received && r[i].citations == Some(OrEmpty(cits))
    ensures forall i :: 0 <= i < |r| ==> !InFlight(r[i])
  {
    seq(|msgs|, i requires 0 <= i < |msgs| =>
      if InFlight(msgs[i]) then Settle(msgs[i], text, cits) else msgs[i])
  }

  /** A frame of the older format settles PROCESSING messages only; a message
      already STREAMING keeps its state. */
  function ApplyLegacy(msgs: seq<Message>, text: Field, cits: Option<seq<Citation>>): (r: seq<Message>)
    ensures |r| == |msgs|
    ensures forall i :: 0 <= i < |r| ==> r[i].id == msgs[i].id && r[i].sender == msgs[i].sender
    ensures forall i :: 0 <= i < |r| && msgs[i].status != Processing ==> r[i] == msgs[i]
    ensures forall i :: 0 <= i < |r| && msgs[i].status == Processing ==>
      r[i].content == text && r[i].status == Received && r[i].citations == Some(OrEmpty(cits))
  {
    seq(|msgs|, i requires 0 <= i < |msgs| =>
      if msgs[i].status == Processing then Settle(msgs[i], text, cits) else msgs[i])
  }

  /** Every PROCESSING message is replaced by a new received bot block carrying
      `text`. The new blocks take fresh ids `next`, `next + 1`, … in list order;
      the second component is the next unused id. */
  function ReplaceProcessing(msgs: seq<Message>, text: string, next: nat): (r: (seq<Message>, nat))
    ensures |r.0| == |msgs| && next <= r.1
    ensures forall i :: 0 <= i < |msgs| && msgs[i].status != Processing ==> r.0[i] == msgs[i]
    ensures forall i :: 0 <= i < |msgs| && msgs[i].status == Processing ==>
      r.0[i] == Message(r.0[i].id, Bot, Str(text), Received, None) && next <= r.0[i].id < r.1
    ensures forall i, j :: 0 <= i < j < |msgs| && msgs[i].status == Processing && msgs[j].status == Processing ==>
      r.0[i].id < r.0[j].id
    ensures forall i :: 0 <= i < |msgs| ==> r.0[i].status != Processing
    decreases |msgs|
  {
    if msgs == [] then ([], next)
    else
      var m := msgs[0];
      if m.status == Processing then
        var rest := ReplaceProcessing(msgs[1..], text, next + 1);
        var r := [NewBlock(next, text, Bot, Received)] + rest.0;
        assert forall i :: 1 <= i < |msgs| ==> r[i] == rest.0[i - 1] && msgs[i] == msgs[1..][i - 1];
        (r, rest.1)
      else
        var rest := ReplaceProcessing(msgs[1..], text, next);
        var r := [m] + rest.0;
        assert forall i :: 1 <= i < |msgs| ==> r[i] == rest.0[i - 1] && msgs[i] == msgs[1..][i - 1];
        (r, rest.1)
  }

  // ---------------------------------------------------------------------------
  // The page state and its transitions

  /** The socket of the current turn: the trimmed question, the role captured
      when the question was sent, the text streamed so far, and whether the
      page has not yet closed the socket. */
  datatype Turn = Turn(question: string, role: Option<string>, streamed: string, live: bool)

  datatype Chat = Chat(messages: seq<Message>, processing: bool, input: string,
                       role: Option<string>, nextId: nat, turn: Option<Turn>)

  /** The payload sent when the socket opens. */
  datatype Payload = Payload(action: string, querytext: string, sessionId: string, userRole: string)

  const Initial := Chat([], false, "", None, 0, None)

  predicate UniqueIds(msgs: seq<Message>) {
    forall i, j :: 0 <= i < j < |msgs| ==> msgs[i].id != msgs[j].id
  }

  /** Every id was handed out before `nextId`, and no two messages share one. */
  predicate WellFormed(c: Chat) {
    UniqueIds(c.messages) && forall i :: 0 <= i < |c.messages| ==> c.messages[i].id < c.nextId
  }

  /** Sending: a blank text changes nothing; otherwise the user's text (as
      typed) and an empty bot placeholder are appended and a turn starts with
      the trimmed question. */
  function Send(c: Chat, text: string): Chat {
    if Trim(Js, text) == "" then c
    else c.(processing := true,
            messages := c.messages + [NewBlock(c.nextId, text, User, Sent), NewBlock(c.nextId + 1, "", Bot, Processing)],
            nextId := c.nextId + 2,
            turn := Some(Turn(Trim(Js, text), c.role, "", true)))
  }

  /** Sending empty or whitespace-only text changes nothing: no message, no
      change to `processing`, no socket. */
  lemma SendBlankChangesNothing(c: Chat, text: string)
    requires Blank(Js, text)
    ensures Send(c, text) == c
  {
    TrimEmptyIffBlank(Js, text);
  }

  /** Sending other text appends exactly the user's message (untrimmed) and an
      empty bot placeholder, sets `processing`, and starts a turn that asks the
      trimmed question with the current role. */
  lemma SendNonBlank(c: Chat, text: string)
    requires !Blank(Js, text)
    ensures var r := Send(c, text);
      r.messages == c.messages + [Message(c.nextId, User, Str(text), Sent, None),
                                  Message(c.nextId + 1, Bot, Str(""), Processing, None)]
      && r.processing && r.input == c.input && r.role == c.role
      && r.turn == Some(Turn(Trim(Js, text), c.role, "", true))
  {
    TrimEmptyIffBlank(Js, text);
  }

  /** What the socket sends when it opens, if a live turn exists. */
  function OpenPayload(c: Chat, sessionId: string): (p: Option<Payload>)
    ensures p.Some? <==> c.turn.Some? && c.turn.value.live
    ensures p.Some? ==> p.value.action == "sendMessage" && p.value.sessionId == sessionId
    ensures p.Some? ==> p.value.querytext == c.turn.value.question
    ensures p.Some? && (c.turn.value.role.None? || c.turn.value.role.value == "") ==> p.value.userRole == "guest"
    ensures p.Some? && c.turn.value.role.Some? && c.turn.value.role.value != "" ==> p.value.userRole == c.turn.value.role.value
  {
    if c.turn.Some? && c.turn.value.live then
      Some(Payload("sendMessage", c.turn.value.question, sessionId, OrElse(c.turn.value.role, "guest")))
    else None
  }

  /** One inbound frame. Frames reach only a live socket. */
  function Deliver(c: Chat, f: Frame): Chat {
    if c.turn.None? || !c.turn.value.live then c
    else
      var t := c.turn.value;
      match Classify(f)
      case Heartbeat => c
      case Chunk =>
        var s := t.streamed + JsText(f.parsed.chunk);
        c.(messages := ApplyChunk(c.messages, s), turn := Some(t.(streamed := s)))
      case Complete =>
        c.(messages := ApplyComplete(c.messages, f.parsed.responsetext, f.parsed.citations),
           processing := false, turn := Some(t.(live := false)))
      case Legacy =>
        c.(messages := ApplyLegacy(c.messages, f.parsed.responsetext, f.parsed.citations),
           processing := false, turn := Some(t.(live := false)))
      case ParseError =>
        var r := ReplaceProcessing(c.messages, ParseErrorText, c.nextId);
        c.(messages := r.0, nextId := r.1, processing := false, turn := Some(t.(live := false)))
  }

  /** The socket reports an error: like a parse error with another text, but
      the page does not close the socket. */
  function SocketError(c: Chat): Chat {
    if c.turn.None? || !c.turn.value.live then c
    else
      var r := ReplaceProcessing(c.messages, SocketErrorText, c.nextId);
      c.(messages := r.0, nextId := r.1, processing := false)
  }

  function Reset(c: Chat): (r: Chat)
    ensures r.messages == [] && r.input == "" && !r.processing
    ensures r.role == c.role && r.turn == c.turn && r.nextId == c.nextId
  {
    c.(messages := [], input := "", processing := false)
  }

  function DeliverAll(c: Chat, fs: seq<Frame>): Chat
    decreases |fs|
  {
    if fs == [] then c else DeliverAll(Deliver(c, fs[0]), fs[1..])
  }

  // ---------------------------------------------------------------------------
  // Properties of the transitions

  /** Sending keeps ids unique and below the id counter. */
  lemma SendKeepsWellFormed(c: Chat, text: string)
    requires WellFormed(c)
    ensures WellFormed(Send(c, text))
  {
    var d := Send(c, text);
    if d != c {
      var m := d.messages;
      assert |m| == |c.messages| + 2;
      forall i, j | 0 <= i < j < |m| ensures m[i].id != m[j].id {
        if j < |c.messages| {
          assert m[i] == c.messages[i] && m[j] == c.messages[j];
        } else if i < |c.messages| {
          assert m[i] == c.messages[i];
        }
      }
      forall i | 0 <= i < |m| ensures m[i].id < d.nextId {
        if i < |c.messages| { assert m[i] == c.messages[i]; }
      }
    }
  }

  lemma SameIdsKeepWellFormed(msgs: seq<Message>, r: seq<Message>, next: nat)
    requires UniqueIds(msgs) && forall i :: 0 <= i < |msgs| ==> msgs[i].id < next
    requires |r| == |msgs| && forall i :: 0 <= i < |r| ==> r[i].id == msgs[i].id
    ensures UniqueIds(r) && forall i :: 0 <= i < |r| ==> r[i].id < next
  {
  }

  /** Every frame and every socket error keeps ids unique and below the id
      counter: updated messages keep their ids, replacements get fresh ones. */
  lemma DeliverKeepsWellFormed(c: Chat, f: Frame)
    requires WellFormed(c)
    ensures WellFormed(Deliver(c, f))
    ensures WellFormed(SocketError(c))
  {
    if c.turn.Some? && c.turn.value.live {
      ReplaceKeepsWellFormed(c.messages, SocketErrorText, c.nextId);
      var d := Deliver(c, f);
      match Classify(f)
      case Heartbeat =>
      case Chunk => SameIdsKeepWellFormed(c.messages, d.messages, c.nextId);
      case Complete => SameIdsKeepWellFormed(c.messages, d.messages, c.nextId);
      case Legacy => SameIdsKeepWellFormed(c.messages, d.messages, c.nextId);
      case ParseError => ReplaceKeepsWellFormed(c.messages, ParseErrorText, c.nextId);
    }
  }

  lemma ReplaceKeepsWellFormed(msgs: seq<Message>, text: string, next: nat)
    requires UniqueIds(msgs) && forall i :: 0 <= i < |msgs| ==> msgs[i].id < next
    ensures var r := ReplaceProcessing(msgs, text, next);
      UniqueIds(r.0) && forall i :: 0 <= i < |r.0| ==> r.0[i].id < r.1
  {
    var r := ReplaceProcessing(msgs, text, next);
    forall i, j | 0 <= i < j < |msgs| ensures r.0[i].id != r.0[j].id {
      if msgs[i].status == Processing && msgs[j].status != Processing {
        assert r.0[j].id < next <= r.0[i].id;
      } else if msgs[i].status != Processing && msgs[j].status == Processing {
        assert r.0[i].id < next <= r.0[j].id;
      }
    }
  }

  /** `d` is `c` after chunks that brought the streamed text to `s`: nothing
      but the streamed text and the in-flight messages differ, in-flight
      messages stay in flight, and once any chunk has arrived they show `s`. */
  predicate StreamedFrom(c: Chat, d: Chat, s: string, anyChunk: bool) {
    c.turn.Some? && d.turn == Some(c.turn.value.(streamed := s))
    && d.processing == c.processing && d.nextId == c.nextId && |d.messages| == |c.messages|
    && forall i :: 0 <= i < |c.messages| ==>
      if InFlight(c.messages[i]) then
        InFlight(d.messages[i]) && d.messages[i].id == c.messages[i].id
        && d.messages[i].sender == c.messages[i].sender && (anyChunk ==> d.messages[i].content == Str(s) && d.messages[i].status == Streaming)
      else d.messages[i] == c.messages[i]
  }

  /** One chunk frame on a live socket. */
  lemma ChunkStep(c: Chat, f: Frame)
    requires c.turn.Some? && c.turn.value.live && Classify(f) == Chunk
    ensures StreamedFrom(c, Deliver(c, f), c.turn.value.streamed + JsText(f.parsed.chunk), true)
  {
  }

  lemma StreamedTrans(c: Chat, d: Chat, e: Chat, s: string, t: string, anyChunk: bool)
    requires StreamedFrom(c, d, s, anyChunk) && StreamedFrom(d, e, t, true)
    ensures StreamedFrom(c, e, t, true)
  {
  }

  /** The text a sequence of frames appends to the streamed text. */
  function ChunkText(fs: seq<Frame>): string
    decreases |fs|
  {
    if fs == [] then ""
    else (if fs[0].parsed.Value? then JsText(fs[0].parsed.chunk) else "") + ChunkText(fs[1..])
  }

  /** Over a stream of chunk frames on a live socket, the streamed text grows
      by exactly the chunks, in order; every in-flight message shows it; no
      other message changes and `processing` does not change. */
  lemma {:induction false} ChunksAccumulate(c: Chat, fs: seq<Frame>)
    requires c.turn.Some? && c.turn.value.live
    requires forall i :: 0 <= i < |fs| ==> Classify(fs[i]) == Chunk
    ensures StreamedFrom(c, DeliverAll(c, fs), c.turn.value.streamed + ChunkText(fs), fs != [])
    decreases |fs|
  {
    var t := c.turn.value.streamed;
    if fs == [] {
      assert t + ChunkText(fs) == t;
    } else {
      var d := Deliver(c, fs[0]);
      ChunkStep(c, fs[0]);
      var s := t + JsText(fs[0].parsed.chunk);
      ChunksAccumulate(d, fs[1..]);
      assert s + ChunkText(fs[1..]) == t + ChunkText(fs);
      if fs[1..] != [] {
        StreamedTrans(c, d, DeliverAll(d, fs[1..]), s, s + ChunkText(fs[1..]), true);
      } else {
        assert ChunkText(fs[1..]) == "";
      }
    }
  }

  lemma {:induction false} DeliverAllSnoc(c: Chat, fs: seq<Frame>, f: Frame)
    ensures DeliverAll(c, fs + [f]) == Deliver(DeliverAll(c, fs), f)
    decreases |fs|
  {
    if fs != [] {
      assert (fs + [f])[1..] == fs[1..] + [f];
      DeliverAllSnoc(Deliver(c, fs[0]), fs[1..], f);
    }
  }

  /** A complete frame ends the turn: nothing is left in flight, `processing`
      is false and the socket is closed, so every later frame changes nothing. */
  lemma CompleteEndsTurn(c: Chat, f: Frame, later: seq<Frame>)
    requires c.turn.Some? && c.turn.value.live && Classify(f) == Complete
    ensures var d := Deliver(c, f);
      !d.processing && (forall i :: 0 <= i < |d.messages| ==> !InFlight(d.messages[i]))
      && DeliverAll(d, later) == d
  {
    ClosedIgnoresFrames(Deliver(c, f), later);
  }

  lemma {:induction false} ClosedIgnoresFrames(c: Chat, fs: seq<Frame>)
    requires c.turn.None? || !c.turn.value.live
    ensures DeliverAll(c, fs) == c
    decreases |fs|
  {
    if fs != [] { ClosedIgnoresFrames(c, fs[1..]); }
  }

  /** A frame of the older format arriving after chunks leaves the streaming
      answer marked STREAMING while the page stops processing. */
  lemma LegacyAfterChunkStaysStreaming(c: Chat, chunk: Frame, legacy: Frame, i: nat)
    requires c.turn.Some? && c.turn.value.live
    requires Classify(chunk) == Chunk && Classify(legacy) == Legacy
    requires i < |c.messages| && InFlight(c.messages[i])
    ensures var d := Deliver(Deliver(c, chunk), legacy);
      !d.processing && d.messages[i].status == Streaming
  {
  }

  /** One whole turn: from a page with nothing in flight, sending a non-blank
      question, streaming chunks and then a complete frame leaves the earlier
      messages as they were, the question as typed, and the final text with its
      citations on the bot answer, whatever the chunks said. */
  lemma {:induction false} WholeTurn(c: Chat, text: string, fs: seq<Frame>, done: Frame)
    requires forall i :: 0 <= i < |c.messages| ==> !InFlight(c.messages[i])
    requires !Blank(Js, text)
    requires forall i :: 0 <= i < |fs| ==> Classify(fs[i]) == Chunk
    requires Classify(done) == Complete
    ensures var d := Deliver(DeliverAll(Send(c, text), fs), done);
      d.messages == c.messages + [Message(c.nextId, User, Str(text), Sent, None),
                                  Message(c.nextId + 1, Bot, done.parsed.responsetext, Received,
                                          Some(OrEmpty(done.parsed.citations)))]
      && !d.processing
  {
    SendNonBlank(c, text);
    var s := Send(c, text);
    var d := Deliver(DeliverAll(s, fs), done);
    var n := |c.messages|;
    var expected := c.messages + [Message(c.nextId, User, Str(text), Sent, None),
                                  Message(c.nextId + 1, Bot, done.parsed.responsetext, Received,
                                          Some(OrEmpty(done.parsed.citations)))];
    StreamThenComplete(s, fs, done, 0);
    forall i | 0 <= i < n + 2 ensures d.messages[i] == expected[i] {
      StreamThenComplete(s, fs, done, i);
      if i < n {
        assert s.messages[i] == c.messages[i] == expected[i];
      } else if i == n {
        assert s.messages[i] == Message(c.nextId, User, Str(text), Sent, None) == expected[i];
      } else {
        assert s.messages[i] == Message(c.nextId + 1, Bot, Str(""), Processing, None);
      }
    }
    assert d.messages == expected;
  }

  /** Chunks and then a complete frame on a live socket: every message that
      was in flight holds the final text and citations, every other one is
      as it was, and the page stops processing. */
  lemma StreamThenComplete(s: Chat, fs: seq<Frame>, done: Frame, i: nat)
    requires s.turn.Some? && s.turn.value.live
    requires forall i :: 0 <= i < |fs| ==> Classify(fs[i]) == Chunk
    requires Classify(done) == Complete
    requires i < |s.messages|
    ensures var d := Deliver(DeliverAll(s, fs), done);
      |d.messages| == |s.messages| && !d.processing
      && (InFlight(s.messages[i]) ==>
            d.messages[i] == Message(s.messages[i].id, s.messages[i].sender, done.parsed.responsetext, Received,
                                     Some(OrEmpty(done.parsed.citations))))
      && (!InFlight(s.messages[i]) ==> d.messages[i] == s.messages[i])
  {
    ChunksAccumulate(s, fs);
    var d0 := DeliverAll(s, fs);
    if InFlight(s.messages[i]) {
      assert InFlight(d0.messages[i]);
    } else {
      assert d0.messages[i] == s.messages[i];
    }
  }

  // ---------------------------------------------------------------------------
  // The page component

  class ChatSession {
    /** The session id, fixed for the life of the mounted page. */
    const sessionId: string
    var messages: seq<Message>
    var processing: bool
    var inputValue: string
    var userRole: Option<string>
    var nextId: nat
    var turn: Option<Turn>
    /** Every payload the page has written to a socket, oldest first. */
    var sent: seq<Payload>

    function State(): Chat
      reads this
    {
      Chat(messages, processing, inputValue, userRole, nextId, turn)
    }

    constructor(sessionId: string)
      ensures State() == Initial && this.sessionId == sessionId && sent == []
    {
      this.sessionId := sessionId;
      messages := [];
      processing := false;
      inputValue := "";
      userRole := None;
      nextId := 0;
      turn := None;
      sent := [];
    }

    /** On mount the page turns guest mode on and takes the role passed by the
        landing page, or "learner". */
    method Mount(store: LocalStorage, roleFromState: Option<string>)
      modifies this, store
      ensures store.items == old(store.items)["guestMode" := "true"]
      ensures State() == old(State()).(role := Some(OrElse(roleFromState, "learner")))
      ensures sent == old(sent)
    {
      store.SetItem("guestMode", "true");
      userRole := Some(OrElse(roleFromState, "learner"));
    }

    method HandleSend(text: string)
      modifies this
      ensures State() == Send(old(State()), text)
      ensures sent == old(sent)
    {
      var question := Trim(Js, text);
      if question == "" {
        return;
      }
      processing := true;
      messages := messages + [NewBlock(nextId, text, User, Sent), NewBlock(nextId + 1, "", Bot, Processing)];
      nextId := nextId + 2;
      turn := Some(Turn(question, userRole, "", true));
    }

    method OnOpen()
      modifies this
      ensures State() == old(State())
      ensures var p := OpenPayload(old(State()), sessionId);
        sent == old(sent) + (if p.Some? then [p.value] else [])
    {
      if turn.Some? && turn.value.live {
        var role := if turn.value.role.Some? && turn.value.role.value != "" then turn.value.role.value else "guest";
        sent := sent + [Payload("sendMessage", turn.value.question, sessionId, role)];
      }
    }

    method OnMessage(f: Frame)
      modifies this
      ensures State() == Deliver(old(State()), f)
      ensures sent == old(sent)
    {
      if turn.None? || !turn.value.live {
        return;
      }
      ClassifyByTrim(f);
      if Trim(Js, f.raw) == "" {
        return;
      }
      var t := turn.value;
      if !f.parsed.Value? {
        var r := ReplaceProcessing(messages, ParseErrorText, nextId);
        messages, nextId := r.0, r.1;
        processing := false;
        turn := Some(t.(live := false));
      } else if f.parsed.kind == Str("chunk") {
        var s := t.streamed + JsText(f.parsed.chunk);
        turn := Some(t.(streamed := s));
        messages := ApplyChunk(messages, s);
      } else if f.parsed.kind == Str("complete") {
        messages := ApplyComplete(messages, f.parsed.responsetext, f.parsed.citations);
        processing := false;
        turn := Some(t.(live := false));
      } else {
        messages := ApplyLegacy(messages, f.parsed.responsetext, f.parsed.citations);
        processing := false;
        turn := Some(t.(live := false));
      }
    }

    method OnError()
      modifies this
      ensures State() == SocketError(old(State()))
      ensures sent == old(sent)
    {
      if turn.Some? && turn.value.live {
        var r := ReplaceProcessing(messages, SocketErrorText, nextId);
        messages, nextId := r.0, r.1;
        processing := false;
      }
    }

    method ResetChat()
      modifies this
      ensures State() == Reset(old(State()))
      ensures sent == old(sent)
    {
      messages := [];
      inputValue := "";
      processing := false;
    }

    /** A role change applies the new role, then resets the conversation. */
    method HandleRoleChange(newRole: Option<string>)
      modifies this
      ensures State() == Reset(old(State()).(role := newRole))
      ensures sent == old(sent)
    {
      userRole := newRole;
      ResetChat();
    }
  }

  // ---------------------------------------------------------------------------
  // Role-dependent prompt tables

  datatype Lang = En | Es
  datatype PromptTable = InstructorPrompts | StaffPrompts | LearnerPrompts

  /** The three suggested prompts: instructor and staff have their own; every
      other role, including none, gets the learner prompts. */
  function SuggestedPrompts(role: Option<string>): (t: PromptTable)
    ensures t == InstructorPrompts <==> role == Some("instructor")
    ensures t == StaffPrompts <==> role == Some("staff")
  {
    if role == Some("instructor") then InstructorPrompts
    else if role == Some("staff") then StaffPrompts
    else LearnerPrompts
  }

  datatype QueryTable = QueryTable(role: string, lang: Lang)

  /** The sample query table for a role and interface language. A missing role
      reads as "learner"; a role without its own table falls back to the
      English learner table, whatever the language. */
  function RoleSpecificQueries(role: Option<string>, language: string): (q: QueryTable)
    ensures q.role in {"instructor", "staff", "learner"}
    ensures OrElse(role, "learner") in {"instructor", "staff", "learner"} ==>
      q == QueryTable(OrElse(role, "learner"), if language == "ES" then Es else En)
    ensures OrElse(role, "learner") !in {"instructor", "staff", "learner"} ==> q == QueryTable("learner", En)
  {
    var r := OrElse(role, "learner");
    var lang := if language == "ES" then Es else En;
    if r == "instructor" || r == "staff" || r == "learner" then QueryTable(r, lang)
    else QueryTable("learner", En)
  }
}
