/** Server-sent events as the WHATWG HTML Living Standard, section 9.2
    ("Server-sent events"), defines them: the frames the streaming handler
    writes, and the reading of an event stream back into the data of its
    events, restricted to streams whose lines end in LF and to the `data`
    field. */
module Sse {
  import opened Common

  /** One event as the server writes it: a single `data` line, then a blank
      line that dispatches it. */
  function Frame(data: string): string {
    "data: " + data + "\n\n"
  }

  /** Frames written one after the other. */
  function Frames(payloads: seq<string>): string
    decreases |payloads|
  {
    if payloads == [] then "" else Frame(payloads[0]) + Frames(payloads[1..])
  }

  // ---------------------------------------------------------------------------
  // Reading

  /** A field line: the name is the text before the first colon and the
      value the text after it, one leading space dropped; a line without a
      colon is a name with the empty value. */
  function ParseField(line: string): (string, string) {
    match IndexOf(line, ':')
    case None => (line, "")
    case Some(i) =>
      var v := line[i + 1..];
      (line[..i], if v != [] && v[0] == ' ' then v[1..] else v)
  }

  /** Dispatching the data buffer: no event when it is empty, otherwise one
      whose data is the buffer without its final LF. */
  function Dispatch(data: string): seq<string> {
    if data == "" then []
    else [if data[|data| - 1] == '\n' then data[..|data| - 1] else data]
  }

  /** Processing complete lines: a blank line dispatches, a `data` field adds
      its value and an LF to the buffer, other fields and comments (a line
      starting with a colon has the empty name) are ignored here. */
  function ReadLines(lines: seq<string>, data: string): seq<string>
    decreases |lines|
  {
    if lines == [] then []
    else if lines[0] == "" then Dispatch(data) + ReadLines(lines[1..], "")
    else
      var (name, value) := ParseField(lines[0]);
      ReadLines(lines[1..], if name == "data" then data + value + "\n" else data)
  }

  /** The data of the events read from a stream. The text after the last LF
      is an unfinished line; at the end of the stream, data not yet
      dispatched is discarded. */
  function ReadEvents(stream: string): seq<string> {
    var lines := Split(stream, '\n');
    ReadLines(lines[..|lines| - 1], "")
  }

  // ---------------------------------------------------------------------------
  // Reading frames back

  lemma {:induction false} IndexOfAfter(a: string, c: char, b: string)
    requires c !in a
    ensures IndexOf(a + [c] + b, c) == Some(|a|)
    decreases |a|
  {
    var s := a + [c] + b;
    if a != [] {
      assert s[1..] == a[1..] + [c] + b;
      IndexOfAfter(a[1..], c, b);
    }
  }

  /** A line ending in `c` splits off. */
  lemma SplitAfterLine(a: string, c: char, b: string)
    requires c !in a
    ensures Split(a + [c] + b, c) == [a] + Split(b, c)
  {
    IndexOfAfter(a, c, b);
    var s := a + [c] + b;
    assert s[..|a|] == a && s[|a| + 1..] == b;
  }

  /** The lines of written frames: the `data` line and the blank line of each. */
  function FrameLines(payloads: seq<string>): seq<string>
    decreases |payloads|
  {
    if payloads == [] then [] else ["data: " + payloads[0], ""] + FrameLines(payloads[1..])
  }

  lemma FrameSplit(p: string, after: string)
    requires '\n' !in p
    ensures Split(Frame(p) + after, '\n') == ["data: " + p, ""] + Split(after, '\n')
  {
    var line := "data: " + p;
    assert '\n' !in line;
    var second := [] + ['\n'] + after;
    assert Frame(p) + after == line + ['\n'] + second;
    SplitAfterLine(line, '\n', second);
    SplitAfterLine([], '\n', after);
  }

  lemma {:induction false} SplitFrames(payloads: seq<string>, tail: string)
    requires forall p :: p in payloads ==> '\n' !in p
    ensures Split(Frames(payloads) + tail, '\n') == FrameLines(payloads) + Split(tail, '\n')
    decreases |payloads|
  {
    if payloads != [] {
      var p := payloads[0];
      var after := Frames(payloads[1..]) + tail;
      assert p in payloads;
      assert Frames(payloads) + tail == Frame(p) + after;
      FrameSplit(p, after);
      assert forall q :: q in payloads[1..] ==> q in payloads;
      SplitFrames(payloads[1..], tail);
    } else {
      assert Frames(payloads) + tail == tail;
    }
  }

  lemma DataField(p: string)
    ensures ParseField("data: " + p) == ("data", p)
  {
    var line := "data: " + p;
    IndexOfAfter("data", ':', " " + p);
    assert line == "data" + [':'] + (" " + p);
    assert line[..4] == "data";
    assert line[4 + 1..] == " " + p;
    assert (" " + p)[1..] == p;
  }

  lemma {:induction false} ReadFrameLines(payloads: seq<string>)
    ensures ReadLines(FrameLines(payloads), "") == payloads
    decreases |payloads|
  {
    if payloads != [] {
      var p := payloads[0];
      var rest := FrameLines(payloads[1..]);
      var lines := ["data: " + p, ""] + rest;
      DataField(p);
      assert lines[1..] == [""] + rest;
      assert ([""] + rest)[1..] == rest;
      assert "" + p + "\n" == p + "\n";
      assert (p + "\n")[..|p|] == p;
      ReadFrameLines(payloads[1..]);
    }
  }

  /** Frames written with payloads free of line breaks are read back as one
      event per frame, in order, each with its payload as data. */
  lemma ReadFrames(payloads: seq<string>)
    requires forall p :: p in payloads ==> '\n' !in p && '\r' !in p
    ensures ReadEvents(Frames(payloads)) == payloads
  {
    SplitFrames(payloads, "");
    assert Frames(payloads) + "" == Frames(payloads);
    var lines := Split(Frames(payloads), '\n');
    assert Split("", '\n') == [""];
    assert lines[..|lines| - 1] == FrameLines(payloads);
    ReadFrameLines(payloads);
  }

  /** Writing frames one after the other. */
  lemma {:induction false} FramesAppend(a: seq<string>, b: seq<string>)
    ensures Frames(a + b) == Frames(a) + Frames(b)
    decreases |a|
  {
    if a == [] {
      assert a + b == b;
    } else {
      assert (a + b)[1..] == a[1..] + b;
      FramesAppend(a[1..], b);
    }
  }
}
