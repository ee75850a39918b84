/** The completion events of one agent invocation, as the two response
    handlers read them. Keys the handlers read with a default are given their
    default when absent. */
module Agent {
  import opened Common

  /** A retrieved reference: `location.type`, `location.s3Location.uri`
      (default ""), the `x-amz-bedrock-kb-source-uri` metadata entry
      (default "") and `content.text` (default ""). */
  datatype Reference = Reference(locationType: Field, uri: string, sourceUri: string, content: string)

  /** A citation attached to a chunk: the text of the generated response part
      (default "") and its retrieved references. */
  datatype GeneratedCitation = GeneratedCitation(text: string, refs: seq<Reference>)

  /** `chunk['attribution']`: absent, present without `citations`, or with them. */
  datatype Attribution = NoAttribution | NoCitations | Cited(citations: seq<GeneratedCitation>)

  /** The `chunk` entry of an event: its decoded `bytes`, when present, and its
      attribution. */
  datatype Chunk = Chunk(bytes: Option<string>, attribution: Attribution)

  /** One completion event: its `chunk`, when present, and the retrieved
      references of a knowledge-base lookup when the event's trace holds one
      (`trace.trace.orchestrationTrace.observation.knowledgeBaseLookupOutput`,
      its `retrievedReferences` defaulting to the empty list). */
  datatype Event = Event(chunk: Option<Chunk>, lookup: Option<seq<Reference>>)

  /** What one call of the agent does: it raises when invoked, or it yields
      its events and then either ends or raises. */
  datatype Invocation = Refused(error: string) | Streamed(events: seq<Event>, failure: Option<string>)

  /** The decoded text of an event's chunk, "" when it carries none. */
  function EventText(e: Event): string {
    if e.chunk.Some? && e.chunk.value.bytes.Some? then e.chunk.value.bytes.value else ""
  }

  /** The texts of all events, concatenated. */
  function StreamText(events: seq<Event>): string
    decreases |events|
  {
    if events == [] then "" else EventText(events[0]) + StreamText(events[1..])
  }

  /** Read after some text, the stream's text is its first event's text
      followed by the rest's. */
  lemma StreamTextAfter(prefix: string, events: seq<Event>)
    requires events != []
    ensures prefix + EventText(events[0]) + StreamText(events[1..]) == prefix + StreamText(events)
  {
    assert StreamText(events) == EventText(events[0]) + StreamText(events[1..]);
  }

  // ---------------------------------------------------------------------------
  // Role instructions

  /** The three instruction texts of the role table, by entry. */
  datatype Instructions = ForInstructor | ForStaff | ForLearner

  /** `get_role_specific_instructions`, the same in both handlers: the table
      lookup with the learner entry as the fallback, so "guest" and every
      unknown role get it. */
  function RoleInstructions(role: string): (r: Instructions)
    ensures r == ForInstructor <==> role == "instructor"
    ensures r == ForStaff <==> role == "staff"
    ensures r == ForLearner <==> role != "instructor" && role != "staff"
  {
    if role == "instructor" then ForInstructor
    else if role == "staff" then ForStaff
    else ForLearner
  }
}
