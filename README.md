# A verified model of the Mental Health First Aid chatbot

The system is a question-answering chatbot with an administration console.
A React front end opens a WebSocket per question and shows the answer as it
streams in. Python Lambda functions relay the question to a Bedrock agent
and split its answer into sentence-sized chunks. They collect the
knowledge-base citations, record thumbs-up/down feedback, list escalated
queries, aggregate the conversation logs for the dashboards and keep the
knowledge base in step with the S3 document bucket.

This project models the sequential logic underneath in Dafny, one module per
source file:

- **Chat turn, client side.**
  - `ChatBody` is the message list, the `processing` flag and one socket turn, delivered frame by frame.
  - `ChatInput` is the send guard and the speech toggle.
  - `BotReply` covers blank-line clean-up, the link split, the feedback toggle, the file-check animation and the loading dots.
  - `ChatHeader` is the language toggle.
- **Answer, server side.**
  - `ChatResponse` splits chunks, de-duplicates citations, retries and builds the final payloads.
  - `Streaming` is the server-sent-event handler; `Sse` is its framing and its reading back.
  - `Json` covers JSON strings.
  - `Websocket` is the route handler.
  - `Agent` holds the agent events and the role instructions.
  - `Patterns` holds the two regular-expression splits.
- **Back-end APIs.**
  - `SessionLogs` (with `Dates` for the calendar) aggregates the conversation logs.
  - `EscalatedQueries` lists and updates escalated queries.
  - `Feedback` records and counts feedback.
  - `KbSync` keeps the knowledge base in step with S3.
  - `Sorting` holds the stable sorts that Python and JavaScript provide.
  - `Decimal` holds the errors `json.dumps` raises on the numbers boto3 reads from DynamoDB.
- **Admin pages.**
  - `AdminAnalytics`, `AdminDashboard`, `AdminDashboardSimple`.
  - `ConversationLogs`, `EscalatedQueriesPage`, `ManageDocuments`.
- **Session and utilities.**
  - `Auth`, `AdminLogin` and `RoleSelector` work over `Storage`, which is localStorage as a string map.
  - `Logger`, `AccessibleColors`, `ErrorBoundary`.
  - `Common` holds the shared strings, options and JSON fields.

How the model is built:

- **Outside calls are inputs.** Every call into AWS, Amplify, the browser or the network is an input value: the answer, the failure or the page of items. What the code sends out is recorded as a sequence: posts to a connection, requests, console lines.
- **Pure computations are functions.** They are Dafny functions with lemmas about them.
- **State-changing code is imperative.** Handlers and loops become classes with fields, or methods with loops. Each is proved against a function that says what it computes.

## Model

| member | source | states |
|---|---|---|
| Agent.RoleInstructions | cdk_backend/lambda/chatResponseHandler/handler.py:45-83 | The instructor and staff roles get their own instructions; every other role, "guest" and unknown roles included, gets the learner's. |
| Agent.StreamTextAfter | cdk_backend/lambda/chatResponseHandler/handler.py:123-128 | The response after some text is that text, the first event's chunk text, then the rest's. |
| ChatResponse.Posted | cdk_backend/lambda/chatResponseHandler/handler.py:31-43 | A connection id starting with "mock-" gets no post; any other gets exactly the one message, and a failing post is not seen by the caller. |
| ChatResponse.Recombined | cdk_backend/lambda/chatResponseHandler/handler.py:139-152 | Every part the recombination keeps is non-blank. |
| ChatResponse.Recombine | cdk_backend/lambda/chatResponseHandler/handler.py:140-152 | The index loop computes exactly the recombined parts. |
| ChatResponse.SplitBreaksAtOdd | cdk_backend/lambda/chatResponseHandler/handler.py:136-137 | Splitting on the capturing sentence pattern puts a break at every odd position. |
| ChatResponse.RecombinedSpells | cdk_backend/lambda/chatResponseHandler/handler.py:139-152 | The recombined parts, put together, spell the pieces, less the last piece when that one is blank. |
| ChatResponse.SentencePartsSpell | cdk_backend/lambda/chatResponseHandler/handler.py:136-152 | The sentence parts spell a prefix of the chunk text, and what is left over is whitespace. |
| ChatResponse.NonBlank | cdk_backend/lambda/chatResponseHandler/handler.py:157 | The kept words are exactly the non-blank ones. |
| ChatResponse.Words | cdk_backend/lambda/chatResponseHandler/handler.py:157 | Every word is non-blank and has no space. |
| ChatResponse.WordsOfNonBlank | cdk_backend/lambda/chatResponseHandler/handler.py:157-158 | A text that is not blank has at least one word. |
| ChatResponse.GroupWords | cdk_backend/lambda/chatResponseHandler/handler.py:160-166 | The word-group loop computes the groups of eight words. |
| ChatResponse.GroupsConcat | cdk_backend/lambda/chatResponseHandler/handler.py:160-166 | The groups put together are the words joined by single spaces. |
| ChatResponse.GroupsShape | cdk_backend/lambda/chatResponseHandler/handler.py:162-166 | There is one group per eight words, rounded up; each is eight words joined by spaces, with a trailing space on every group except the last. |
| ChatResponse.GroupNonBlank | cdk_backend/lambda/chatResponseHandler/handler.py:163 | A group that starts with a non-blank word is not blank. |
| ChatResponse.GroupsNonBlank | cdk_backend/lambda/chatResponseHandler/handler.py:160-166 | When every word is non-blank, so is every group. |
| ChatResponse.SplitChunkSpec | cdk_backend/lambda/chatResponseHandler/handler.py:133-169 | For a non-blank chunk every part is non-blank; the word fallback runs exactly when the sentence parts call for it, and then the parts spell the words joined by spaces and `chunk` is left bound to the last group; otherwise the parts are the sentence parts. |
| ChatResponse.ChunkParts | cdk_backend/lambda/chatResponseHandler/handler.py:136-169 | The splitting step computes the parts and the rebinding of `chunk` that the split function describes. |
| ChatResponse.SentChunks | cdk_backend/lambda/chatResponseHandler/handler.py:171-184 | Only chunk messages with non-blank text are posted. |
| ChatResponse.SentChunksAll | cdk_backend/lambda/chatResponseHandler/handler.py:171-184 | Every non-blank part is posted, in order, unless the connection is a test one. |
| ChatResponse.S3Refs | cdk_backend/lambda/chatResponseHandler/handler.py:195-202 | No more references are kept than were retrieved. |
| ChatResponse.Attributed | cdk_backend/lambda/chatResponseHandler/handler.py:187-205 | At most one citation per generated citation. |
| ChatResponse.S3RefsSpec | cdk_backend/lambda/chatResponseHandler/handler.py:195-202 | A kept reference comes from an S3 reference, with its URI as source and the last '/'-segment of the source-URI metadata as title; every S3 reference is kept. |
| ChatResponse.AttributedSpec | cdk_backend/lambda/chatResponseHandler/handler.py:187-205 | Each citation added has references and keeps its generated citation's text; every generated citation with an S3 reference yields one. |
| ChatResponse.CollectS3Refs | cdk_backend/lambda/chatResponseHandler/handler.py:195-202 | The loop over the retrieved references computes the kept references. |
| ChatResponse.CollectAttributed | cdk_backend/lambda/chatResponseHandler/handler.py:188-205 | The loop over the attribution's citations computes the citations added. |
| ChatResponse.FileName | cdk_backend/lambda/chatResponseHandler/handler.py:236 | The file name is the text after the last '/', or the whole URI when it has none. |
| ChatResponse.UniqueRefsSpec | cdk_backend/lambda/chatResponseHandler/handler.py:227-243 | The references of a lookup have distinct non-empty sources titled by their file names, and every non-empty URI is among them. |
| ChatResponse.UniqueRefsSound | cdk_backend/lambda/chatResponseHandler/handler.py:227-243 | Each unique reference has a non-empty source not seen before, taken from a retrieved URI and titled by its file name. |
| ChatResponse.UniqueRefsDistinct | cdk_backend/lambda/chatResponseHandler/handler.py:227-243 | The unique references have pairwise distinct sources. |
| ChatResponse.UniqueRefsComplete | cdk_backend/lambda/chatResponseHandler/handler.py:227-243 | Every non-empty retrieved URI not seen before is among the unique references. |
| ChatResponse.RefSources | cdk_backend/lambda/chatResponseHandler/handler.py:250-251 | A source is collected exactly when some reference of the citation has it. |
| ChatResponse.SourcesOf | cdk_backend/lambda/chatResponseHandler/handler.py:248-251 | A source is collected exactly when some reference of some earlier citation has it. |
| ChatResponse.Unseen | cdk_backend/lambda/chatResponseHandler/handler.py:253-254 | A reference is kept exactly when its source is not an existing source. |
| ChatResponse.CitationSources | cdk_backend/lambda/chatResponseHandler/handler.py:250-251 | The inner loop collects exactly the sources of one citation. |
| ChatResponse.ExistingSources | cdk_backend/lambda/chatResponseHandler/handler.py:248-251 | The nested loops collect exactly the sources of all earlier citations. |
| ChatResponse.TraceCitation | cdk_backend/lambda/chatResponseHandler/handler.py:208-258 | The handling of a lookup's references computes the citation the trace function describes. |
| ChatResponse.TraceCitationWhen | cdk_backend/lambda/chatResponseHandler/handler.py:219-258 | A lookup adds a citation exactly when one of its non-empty URIs is not already a source of an earlier citation. |
| ChatResponse.TraceCitationShape | cdk_backend/lambda/chatResponseHandler/handler.py:219-258 | The added citation has empty text and distinct, non-empty, new sources titled by file name, and it covers every new non-empty URI of the lookup. |
| ChatResponse.UnseenKeepsDistinct | cdk_backend/lambda/chatResponseHandler/handler.py:253-254 | Dropping the existing sources keeps the sources distinct. |
| ChatResponse.ProcessEvent | cdk_backend/lambda/chatResponseHandler/handler.py:123-258 | The loop body computes the outcome of one event as the step function describes it. |
| ChatResponse.DecodeChunk | cdk_backend/lambda/chatResponseHandler/handler.py:126-184 | A chunk's bytes are added to the response and, on a connection and when not blank, its parts are posted, as the chunk-text function describes. |
| ChatResponse.ProcessChunk | cdk_backend/lambda/chatResponseHandler/handler.py:124-205 | A chunk entry is decoded and then the attribution test is applied to it, as the chunk step function describes. |
| ChatResponse.Reply | cdk_backend/lambda/chatResponseHandler/handler.py:263-300 | After the retry loop the handler answers as the answer function describes. |
| ChatResponse.RunAttempt | cdk_backend/lambda/chatResponseHandler/handler.py:101-260 | One attempt of the retry loop computes the outcome the invocation function describes. |
| ChatResponse.Tries | cdk_backend/lambda/chatResponseHandler/handler.py:100-264 | The retry loop calls the agent at least once and at most twice. |
| ChatResponse.Handle | cdk_backend/lambda/chatResponseHandler/handler.py:85-300 | The handler computes the answer, the posts, the agent calls and the log payload that the handler function describes. |
| ChatResponse.ChunkTextSpec | cdk_backend/lambda/chatResponseHandler/handler.py:124-184 | A chunk's bytes are added to the full response; its posts are non-blank chunk messages, and there are none without a connection. |
| ChatResponse.AttributeSpec | cdk_backend/lambda/chatResponseHandler/handler.py:187-205 | The attribution test posts nothing and adds only citations that have references. |
| ChatResponse.StepTraceSpec | cdk_backend/lambda/chatResponseHandler/handler.py:208-258 | A trace event only adds a citation with references. |
| ChatResponse.StepEventSpec | cdk_backend/lambda/chatResponseHandler/handler.py:123-258 | An event adds its chunk text to the response, posts only non-blank chunks and nothing without a connection, and adds only referenced citations. |
| ChatResponse.RunEventsSpec | cdk_backend/lambda/chatResponseHandler/handler.py:119-258 | When every event gets through, the response is the stream's text in order; whatever happens, the posts are non-blank chunks, none without a connection. |
| ChatResponse.RunInvocationSpec | cdk_backend/lambda/chatResponseHandler/handler.py:101-260 | An attempt that gets through had a stream that did not fail, and its response is the stream's text. |
| ChatResponse.RetriedSpec | cdk_backend/lambda/chatResponseHandler/handler.py:100-264 | The attempt that gets through is the last one tried, and any attempt before it raised. |
| ChatResponse.HandleCalls | cdk_backend/lambda/chatResponseHandler/handler.py:87-117 | The agent is called once, or twice after a raise, each time with the trimmed query, the session id (the request id by default), the role ("guest" by default) and that role's instructions. |
| ChatResponse.AgentCallOf | cdk_backend/lambda/chatResponseHandler/handler.py:87-110 | The arguments of each agent call, taken from the event; AgentCallDefaults and HandleCalls state its properties. |
| ChatResponse.InstructionsOf | cdk_backend/lambda/chatResponseHandler/handler.py:83 | The role's instructions; a role that is not a string gets the learner's. |
| ChatResponse.AgentCallDefaults | cdk_backend/lambda/chatResponseHandler/handler.py:87-98 | The request id stands in for the session only when `session_id` is absent, and a null one stays null. An absent role is "guest", and a null role gets the learner's instructions. |
| ChatResponse.HandleStatus | cdk_backend/lambda/chatResponseHandler/handler.py:267-300 | The answer is 200 with the complete message exactly when an attempt got through and the log invocation did not raise; the message carries that attempt's text and the payload the trimmed query; otherwise 500 with the error. |
| ChatResponse.HandlePosts | cdk_backend/lambda/chatResponseHandler/handler.py:171-300 | Without a connection nothing is posted; with a real one, the posts are the streamed non-blank chunks followed by the answer's body. |
| ChatResponse.AnswerStatus | cdk_backend/lambda/chatResponseHandler/handler.py:263-300 | After the loop the agent has been called as often as the loop ran; the answer is 200 with the complete message and the log payload exactly when an attempt got through and the hand-off did not raise, and 500 with the error otherwise. |
| ChatResponse.Answer | cdk_backend/lambda/chatResponseHandler/handler.py:263-300 | What the handler does once the retry loop has ended; AnswerStatus and AnswerPosts state its properties. |
| ChatResponse.AnswerPosts | cdk_backend/lambda/chatResponseHandler/handler.py:263-300 | The posts after the loop are the attempts' posts followed by the answer, which is the last post on a real connection; none without a connection. |
| ChatResponse.SplitWithoutBreak | cdk_backend/lambda/chatResponseHandler/handler.py:136-137 | A text without punctuation splits into the one piece. |
| ChatResponse.SplitChunkOfWord | cdk_backend/lambda/chatResponseHandler/handler.py:155-167 | A single word without punctuation takes the word fallback and leaves `chunk` bound to that word. |
| ChatResponse.IntendedChunkDone | cdk_backend/lambda/chatResponseHandler/handler.py:186-205 | Read as intended, handling a chunk entry never raises. |
| ChatResponse.AttributionWordRaises | cdk_backend/lambda/chatResponseHandler/handler.py:162-188 | As written, a one-word chunk containing "attribution" sent to a connection raises a TypeError after its post; read as intended it goes through. |
| ChatResponse.WordChunkRaises | cdk_backend/lambda/chatResponseHandler/handler.py:162-188 | As written, a one-word chunk containing "attribution" sent to a connection raises a TypeError once the word has been posted. |
| ChatResponse.WordChunkText | cdk_backend/lambda/chatResponseHandler/handler.py:126-184 | A one-word chunk sent to a connection is added to the full response, posted as one chunk message, and `chunk` is rebound to the word. |
| ChatResponse.AttributionWordDropped | cdk_backend/lambda/chatResponseHandler/handler.py:162-188 | As written, the citations of a one-word chunk without "attribution" are lost; read as intended they are added. |
| ChatResponse.AttributionRaisesExample | cdk_backend/lambda/chatResponseHandler/handler.py:162-188 | The chunk text "attribution" raises as written. |
| ChatResponse.AttributionDroppedExample | cdk_backend/lambda/chatResponseHandler/handler.py:162-188 | The chunk "Hello" attributed to an S3 document loses its citation as written. |
| ChatResponse.IntendedNeverRaises | cdk_backend/lambda/chatResponseHandler/handler.py:123-205 | Read as intended, no chunk raises; only a failing agent call or stream ends an attempt. |
| ChatResponse.ReadingsAgree | cdk_backend/lambda/chatResponseHandler/handler.py:162-188 | The two readings differ only where the word fallback rebound `chunk`. |
| ChatResponse.SentenceParts | cdk_backend/lambda/chatResponseHandler/handler.py:136-152 | The parts of a chunk text once split on sentence punctuation and recombined; SentencePartsSpell and Recombined state their properties. |
| ChatResponse.GroupsFrom | cdk_backend/lambda/chatResponseHandler/handler.py:160-166 | The groups of up to eight words from a given word on; GroupsShape and GroupsConcat state their shape and what they spell. |
| ChatResponse.SplitChunk | cdk_backend/lambda/chatResponseHandler/handler.py:133-169 | The parts a decoded chunk is posted as, and what `chunk` is rebound to when the word fallback runs; SplitChunkSpec states their properties. |
| ChatResponse.Chunks | cdk_backend/lambda/chatResponseHandler/handler.py:171-184 | One chunk message per part, in order, each carrying its part's text. |
| ChatResponse.UniqueRefs | cdk_backend/lambda/chatResponseHandler/handler.py:227-243 | The references a lookup yields, by first occurrence of each non-empty URI, titled by file name; UniqueRefsSpec states which are kept. |
| ChatResponse.TraceCitationOf | cdk_backend/lambda/chatResponseHandler/handler.py:219-258 | The citation a knowledge-base lookup adds, if any; TraceCitation, TraceCitationWhen and TraceCitationShape state when it is added and what it holds. |
| ChatResponse.ChunkText | cdk_backend/lambda/chatResponseHandler/handler.py:124-184 | The decoded text of a chunk added to the response and its parts posted; ChunkTextSpec states what it adds and posts. |
| ChatResponse.Attribute | cdk_backend/lambda/chatResponseHandler/handler.py:187-205 | The attribution test on what `chunk` is bound to; AttributeSpec states when it adds citations and when it raises. |
| ChatResponse.StepChunk | cdk_backend/lambda/chatResponseHandler/handler.py:124-205 | The handling of one chunk entry, as written or as intended; ProcessChunk is the method it specifies. |
| ChatResponse.StepTrace | cdk_backend/lambda/chatResponseHandler/handler.py:208-258 | The handling of one knowledge-base lookup; StepTraceSpec states what it adds. |
| ChatResponse.StepEvent | cdk_backend/lambda/chatResponseHandler/handler.py:123-258 | One iteration over the completion events; StepEventSpec states what it posts and adds. |
| ChatResponse.RunEvents | cdk_backend/lambda/chatResponseHandler/handler.py:119-258 | The events of one attempt, in order, up to the first that raises; RunEventsSpec states what the run posts and accumulates. |
| ChatResponse.RunInvocation | cdk_backend/lambda/chatResponseHandler/handler.py:101-260 | One attempt of the agent call and its stream; RunInvocationSpec states its outcome. |
| ChatResponse.Retried | cdk_backend/lambda/chatResponseHandler/handler.py:100-264 | The retry loop over at most two agent calls; RetriedSpec states that the first attempt that gets through ends it and the last failure is re-raised. |
| ChatResponse.PostIfConnected | cdk_backend/lambda/chatResponseHandler/handler.py:31-43 | What `send_ws_response` posts for a request with a connection id; AnswerPosts states the posts of the answer. |
| ChatResponse.HandleSpec | cdk_backend/lambda/chatResponseHandler/handler.py:85-300 | The whole `lambda_handler` on a request, its agent calls and the log hand-off; Handle is the method it specifies, and HandleStatus, HandlePosts and HandleCalls state its properties. |
| Agent.EventText | cdk_backend/lambda/chatResponseHandler/handler.py:124-127 | The decoded text of an event's chunk, "" when it has none. |
| Agent.StreamText | cdk_backend/lambda/chatResponseHandler/handler.py:123-128 | The texts of all events put together; StreamTextAfter, RunEventsSpec and, for the streaming handler, RunStreamShape and YieldsSpec state that it is the response. |
| Json.Hex4 | cdk_backend/lambda/streamingHandler/handler.py:144 | Four printable hexadecimal digits. |
| Json.Hex4RoundTrip | cdk_backend/lambda/streamingHandler/handler.py:144 | Four hexadecimal digits written for a number read back as that number. |
| Json.EscapeChar | cdk_backend/lambda/streamingHandler/handler.py:144 | Every character is written as printable ASCII: a short escape, itself, a `\uXXXX` escape or a surrogate pair of them. |
| Json.UnicodeEscape | cdk_backend/lambda/streamingHandler/handler.py:144 | A `\uXXXX` escape is six printable characters. |
| Json.Escape | cdk_backend/lambda/streamingHandler/handler.py:144 | An escaped string is printable ASCII only. |
| Json.Quote | cdk_backend/lambda/streamingHandler/handler.py:144 | A string literal as `json.dumps` writes it is printable ASCII only. |
| Json.QuoteHasNoBreak | cdk_backend/lambda/streamingHandler/handler.py:144-145 | A written string literal has no line break, so it fits on one event-stream line. |
| Json.UnescapeChar | cdk_backend/lambda/streamingHandler/handler.py:144 | One written character reads back as that character. |
| Json.UnescapeEscape | cdk_backend/lambda/streamingHandler/handler.py:144 | An escaped string reads back as the original string. |
| Json.UnquoteQuote | cdk_backend/lambda/streamingHandler/handler.py:144 | The literal written for a string reads back as that string. |
| Sse.SplitAfterLine | cdk_backend/lambda/streamingHandler/handler.py:145 | A line that ends at the first line break splits off from the rest. |
| Sse.FrameSplit | cdk_backend/lambda/streamingHandler/handler.py:145 | A frame splits into its data line and the blank line that dispatches it. |
| Sse.SplitFrames | cdk_backend/lambda/streamingHandler/handler.py:145 | Frames written one after another split into the lines of each frame in turn. |
| Sse.DataField | cdk_backend/lambda/streamingHandler/handler.py:145 | A line written as `data: p` is the `data` field with value `p`. |
| Sse.ReadFrameLines | cdk_backend/lambda/streamingHandler/handler.py:145 | The lines of the frames are read as one event per frame. |
| Sse.ReadFrames | cdk_backend/lambda/streamingHandler/handler.py:145 | Frames whose payloads have no line breaks read back as one event per frame, in order, each with its payload as data. |
| Sse.FramesAppend | cdk_backend/lambda/streamingHandler/handler.py:145 | Writing two lists of frames one after the other is writing their concatenation. |
| Streaming.PrintableConcat | cdk_backend/lambda/streamingHandler/handler.py:144 | Joining two printable strings gives a printable string. |
| Streaming.CitationJson | cdk_backend/lambda/streamingHandler/handler.py:170-174 | A citation's JSON is printable ASCII. |
| Streaming.MoreCitationsJson | cdk_backend/lambda/streamingHandler/handler.py:170-174 | The JSON of the citations after the first is printable ASCII. |
| Streaming.CitationsJson | cdk_backend/lambda/streamingHandler/handler.py:170-174 | The JSON of the citation list is printable ASCII. |
| Streaming.Encode | cdk_backend/lambda/streamingHandler/handler.py:144 | Every payload's JSON (chunk, complete or error) is printable ASCII, so no frame is broken by a line break. |
| Streaming.ChunkRoundTrip | cdk_backend/lambda/streamingHandler/handler.py:144-145 | A chunk payload's text reads back from the JSON written for it. |
| Streaming.Encoded | cdk_backend/lambda/streamingHandler/handler.py:144-198 | One JSON string per payload, in order. |
| Streaming.CollectCitations | cdk_backend/lambda/streamingHandler/handler.py:157-165 | The loop over a lookup's references computes the citations the add function describes. |
| Streaming.StreamBedrockResponse | cdk_backend/lambda/streamingHandler/handler.py:125-198 | The generator yields one frame per payload and hands on the log payload, as the stream functions describe. |
| Streaming.RunStreamShape | cdk_backend/lambda/streamingHandler/handler.py:135-145 | Running the events adds their chunk texts to the response and their chunk payloads to what was yielded. |
| Streaming.StepShape | cdk_backend/lambda/streamingHandler/handler.py:135-145 | One event adds its chunk text to the response and its chunk payload to what was yielded. |
| Streaming.YieldsSpec | cdk_backend/lambda/streamingHandler/handler.py:136-145 | Only chunk payloads are yielded for the events, and their texts put together are the stream's text. |
| Streaming.PayloadsSpec | cdk_backend/lambda/streamingHandler/handler.py:125-198 | The generator yields chunk payloads whose texts make the response, then exactly one last payload: the complete one with the whole response, or the error when the stream raises. |
| Streaming.FramesReadBack | cdk_backend/lambda/streamingHandler/handler.py:145-198 | The frames written one after the other read back as one event per payload, each with the payload's JSON as data. |
| Streaming.FramesConcat | cdk_backend/lambda/streamingHandler/handler.py:145-198 | The frames put together are the frames of the encoded payloads. |
| Streaming.AddCitationsSpec | cdk_backend/lambda/streamingHandler/handler.py:157-165 | Existing citations are kept and URIs stay distinct and non-empty; each added content is the first 200 characters of a reference with that URI, and every non-empty URI of the lookup is cited. |
| Streaming.BlankQueryRefused | cdk_backend/lambda/streamingHandler/handler.py:61-76 | A missing or whitespace-only `querytext`, and nothing else, is refused with 400 and "Query text is required"; the intended handler refuses it the same way. |
| Streaming.NeverStreams | cdk_backend/lambda/streamingHandler/handler.py:59-123 | As written, no request gets the stream: every answer is a JSON error, and every request that is not a blank query gets 500. |
| Streaming.StreamingHandle | cdk_backend/lambda/streamingHandler/handler.py:59-123 | The handler as written: past the checks it reads the unbound `awslambda`; BlankQueryRefused, UnreadableRequestFails and NeverStreams state its properties. |
| Streaming.StreamingHandleIntended | cdk_backend/lambda/streamingHandler/handler.py:59-123 | The handler with the stream returned as intended; BlankQueryRefused, UnreadableRequestFails, IntendedStreams and IntendedLogsRequestFields state its properties. |
| Streaming.IntendedStreams | cdk_backend/lambda/streamingHandler/handler.py:59-123 | As intended, a non-blank query whose agent call goes through gets the event stream, which reads back as the chunk events and one complete or error event. |
| Streaming.Checked | cdk_backend/lambda/streamingHandler/handler.py:59-123 | The checks before the stream: an unreadable body or a non-string query raises (500 with the message), a blank query gets 400, an agent call that raises gets 500; UnreadableRequestFails and BlankQueryRefused state them. |
| Streaming.BlankQuery | cdk_backend/lambda/streamingHandler/handler.py:62-68 | A parsed body whose `querytext` is absent or a string of whitespace; BlankQueryRefused states that it is exactly what gets 400. |
| Streaming.UnreadableRequestFails | cdk_backend/lambda/streamingHandler/handler.py:59-123 | A body that is not a JSON object, or a `querytext` that is null or not a string, is answered 500 with the exception's message, as written and as intended. |
| Streaming.IntendedLogsRequestFields | cdk_backend/lambda/streamingHandler/handler.py:62-189 | As intended, a completed stream logs the trimmed query, the session id (the request id only when `session_id` is absent, so null stays null) and the role ("guest" only when `user_role` is absent). |
| Streaming.ChunkOf | cdk_backend/lambda/streamingHandler/handler.py:144 | The text read back from a chunk event's data; ChunkRoundTrip states that it is the text written. |
| Streaming.FrameOf | cdk_backend/lambda/streamingHandler/handler.py:144-145 | The `data: …` frame yielded for a payload; FramesReadBack states how the frames read back. |
| Streaming.AddCitations | cdk_backend/lambda/streamingHandler/handler.py:157-165 | The citations after one lookup's references; AddCitationsSpec states what is kept and added, and CollectCitations is the loop it specifies. |
| Streaming.StepStream | cdk_backend/lambda/streamingHandler/handler.py:135-165 | One completion event's effect on the response, the yielded payloads and the citations; StepShape states it. |
| Streaming.RunStream | cdk_backend/lambda/streamingHandler/handler.py:135-165 | The events handled in order; RunStreamShape states what they add to the response and the payloads. |
| Streaming.Payloads | cdk_backend/lambda/streamingHandler/handler.py:125-198 | Everything the generator yields; PayloadsSpec states that it is chunk payloads followed by one complete or error payload. |
| Streaming.LoggedOf | cdk_backend/lambda/streamingHandler/handler.py:177-191 | The log payload handed on after a stream that completes, none after one that raises; IntendedLogsRequestFields states its fields. |
| Streaming.ChunkTexts | cdk_backend/lambda/streamingHandler/handler.py:140 | The texts of the chunk payloads put together; YieldsSpec and PayloadsSpec state that they make the response. |
| Streaming.Yields | cdk_backend/lambda/streamingHandler/handler.py:136-145 | The chunk payloads the events yield, in order; YieldsSpec states their properties. |
| Websocket.Get | cdk_backend/lambda/websocketHandler/handler.py:31-33 | An absent key reads as None, like JSON null; a present key reads as its value. |
| Websocket.QueryOf | cdk_backend/lambda/websocketHandler/handler.py:30 | A string query is stripped, a missing one is empty, and any other value raises. |
| Websocket.PayloadOf | cdk_backend/lambda/websocketHandler/handler.py:38-46 | The payload carries the query, the connection id, the session id and the role ("guest" when absent), and a location exactly when the body's is truthy. |
| Websocket.ConnectionRoutes | cdk_backend/lambda/websocketHandler/handler.py:18-24 | Connecting and disconnecting answer 200 and invoke nothing. |
| Websocket.WebsocketHandle | cdk_backend/lambda/websocketHandler/handler.py:10-69 | The handler as a function of the route, the connection, the body and the invocation's outcome; ConnectionRoutes, UnknownRoutes, BlankQueryNotInvoked, InvokedOnce and ErrorsCarryMessages state its properties. |
| Websocket.UnknownRoutes | cdk_backend/lambda/websocketHandler/handler.py:57-59 | Exactly the routes other than the three known ones answer 400 "Unknown route", and they invoke nothing. |
| Websocket.BlankQueryNotInvoked | cdk_backend/lambda/websocketHandler/handler.py:35-36 | A missing or all-whitespace query answers 500 "Empty query received" and invokes nothing. |
| Websocket.InvokedOnce | cdk_backend/lambda/websocketHandler/handler.py:26-55 | The response function is invoked at most once, and exactly for a `sendMessage` with a non-blank string query whose invocation goes through; the answer is then 200 and the payload carries the stripped, non-empty query and the request's fields. |
| Websocket.ErrorsCarryMessages | cdk_backend/lambda/websocketHandler/handler.py:10-69 | Every answer is 200, 400 or 500, and it carries an error message exactly when it is not 200. |
| Common.GetOr | cdk_backend/lambda/websocketHandler/handler.py:33 | `body.get(key, default)`: the default replaces an absent key only; a present value, null included, is kept. |
| Websocket.NoStrip | cdk_backend/lambda/websocketHandler/handler.py:30 | The message of the error `.strip()` raises on a null or numeric query; QueryOf states when it is raised. |
| Feedback.MessageIdOf | cdk_backend/lambda/feedback/handler.py:67-70 | An absent or null message id stays None; any other value is converted to its text, a string staying itself. |
| Feedback.Submit | cdk_backend/lambda/feedback/handler.py:60-134 | `handle_submit_feedback` as written, removal keyed on the current time; SubmitValidation, SubmitWrites and RemovalKeepsFeedback state its properties. |
| Feedback.SubmitIntended | cdk_backend/lambda/feedback/handler.py:60-134 | The submission with the removal corrected to delete the message's stored record; IntendedRemoval states its property. |
| Feedback.PreviewOf | cdk_backend/lambda/feedback/handler.py:112 | The preview of a string message is its first 200 characters. |
| Feedback.RemovalKeepsFeedback | cdk_backend/lambda/feedback/handler.py:83-101 | As written, a removal keyed on the current time reports success and leaves the table unchanged when no record has that timestamp. |
| Feedback.RemovalExample | cdk_backend/lambda/feedback/handler.py:83-101 | A thumbs-up stored earlier for message "m1" is still there after a removal that answers "removed". |
| Feedback.IntendedRemoval | cdk_backend/lambda/feedback/handler.py:86-101 | As intended, a removal leaves no record of the message and keeps every other record. |
| Feedback.SubmitValidation | cdk_backend/lambda/feedback/handler.py:76-81 | A submission is refused with 400 exactly when the converted message id is missing or empty or the session id is falsy; a refused one writes nothing, and the number 0 is accepted as an id. |
| Feedback.SubmitWrites | cdk_backend/lambda/feedback/handler.py:102-126 | A non-null feedback, or a null one whose delete raised, is written under the message id and the current time with the first 200 characters of the message; no other record changes. |
| Feedback.CountFeedback | cdk_backend/lambda/feedback/handler.py:146-147 | A count is at most the number of records. |
| Feedback.PositiveNegative | cdk_backend/lambda/feedback/handler.py:146-148 | The positive and negative counts together are at most the total. |
| Feedback.StatsOf | cdk_backend/lambda/feedback/handler.py:136-173 | `handle_get_feedback_stats` over one scan page: the counts, percentages and first ten records, or the caught error of writing a number read back as a `Decimal`; StatsSpec states its properties. |
| Feedback.StatsSpec | cdk_backend/lambda/feedback/handler.py:145-173 | The statistics are answered exactly when none of the first ten records holds a number; otherwise the error is "Failed to get feedback stats: Object of type Decimal is not JSON serializable". When answered, the total is the number of records scanned and positive plus negative is at most that total. Both percentages are non-negative, add up to at most 100, and are 0 for an empty table. At most the first 10 records are returned. |
| Feedback.GetStats | cdk_backend/lambda/feedback/handler.py:42-43 | A GET, as written and as intended, changes nothing and answers 200 with the statistics and the first ten records exactly when those records hold no number; otherwise it answers 500 with the `Decimal` error. |
| Feedback.NumericFeedbackExample | cdk_backend/lambda/feedback/handler.py:107-165 | A thumbs-up sent as the number 1 is accepted and stored; the statistics read back over that record answer 500. |
| Feedback.Serializable | cdk_backend/lambda/feedback/handler.py:161-165 | A record `json.dumps` can write: neither its session id nor its feedback is a number; GetStats states where it decides the answer. |
| Feedback.RecentSerializable | cdk_backend/lambda/feedback/handler.py:161-165 | The first ten records, those the answer returns, can all be written; GetStats states that it decides the status. |
| Feedback.PercentageSum | cdk_backend/lambda/feedback/handler.py:154-155 | Two percentages whose counts share a positive total add up to at most 100. |
| Feedback.Routing | cdk_backend/lambda/feedback/handler.py:31-58 | Only a POST can change the table, and exactly the methods other than OPTIONS, POST and GET answer 405. |
| Feedback.FeedbackHandle | cdk_backend/lambda/feedback/handler.py:11-58 | `lambda_handler` as written: POST goes to the as-written submission; Routing, GetStats and NumericFeedbackExample state its properties. |
| Feedback.FeedbackHandleIntended | cdk_backend/lambda/feedback/handler.py:11-58 | `lambda_handler` with the corrected submission; Routing and GetStats state the same properties of it. |
| Feedback.Route | cdk_backend/lambda/feedback/handler.py:31-58 | The dispatch on the HTTP method: OPTIONS, POST, GET (200 with the statistics, or 500 with their error), and 405 for anything else; Routing and GetStats state its properties. |
| Feedback.Percentage | cdk_backend/lambda/feedback/handler.py:154-155 | A count as a percentage of the total, 0 of an empty total; StatsSpec states that both percentages lie between 0 and 100 and add up to at most 100. |
| Feedback.RecordsOf | cdk_backend/lambda/feedback/handler.py:86-101 | The stored records of one message; IntendedRemoval states that the corrected removal deletes exactly these. |
| KbSync.ChangeOf | cdk_backend/lambda/kb-sync/handler.py:35-45 | A record's change carries its event name, bucket, key and event time, each "" when missing. |
| KbSync.CollectChanges | cdk_backend/lambda/kb-sync/handler.py:33-45 | One change per record, in record order. |
| KbSync.StartIngestion | cdk_backend/lambda/kb-sync/handler.py:73-108 | A conflict becomes the synthetic "existing-job" in progress; the call fails exactly on any other client error or any other exception. |
| KbSync.ListedLines | cdk_backend/lambda/kb-sync/handler.py:125-128 | Only the first ten changes get a line. |
| KbSync.BuildFileList | cdk_backend/lambda/kb-sync/handler.py:125-131 | Building the file list step by step gives the lines of the first ten changes, then the count of the rest. |
| KbSync.Notify | cdk_backend/lambda/kb-sync/handler.py:111-161 | At most one message is published, and none without a topic. |
| KbSync.KbSyncHandle | cdk_backend/lambda/kb-sync/handler.py:15-70 | The handler computes the answer, the ingestion request and the publication that the handler function describes. |
| KbSync.KbSyncSpec | cdk_backend/lambda/kb-sync/handler.py:15-70 | The handler as a function of the records, the ingestion answer and the topic; HandlerOutcomes, ConflictIsExistingJob and PublishFailureHarmless state its properties. |
| KbSync.ChangesOf | cdk_backend/lambda/kb-sync/handler.py:33-45 | One change per record. |
| KbSync.HandlerOutcomes | cdk_backend/lambda/kb-sync/handler.py:24-70 | No records means 400, with no job requested and nothing published. Otherwise the job is requested, the answer is 200 exactly when the ingestion call answered or hit a conflict, and a 200 reports one change per record. |
| KbSync.ConflictIsExistingJob | cdk_backend/lambda/kb-sync/handler.py:94-105 | A conflict answers 200 with "existing-job" as the job id. |
| KbSync.PublishFailureHarmless | cdk_backend/lambda/kb-sync/handler.py:159-161 | A failing publish changes neither the status nor the body; it only drops the message. |
| KbSync.OnlyFirstTenListed | cdk_backend/lambda/kb-sync/handler.py:125-131 | Two change lists of the same length that agree on their first ten give the same file list. |
| KbSync.MoreLineOnlyOverTen | cdk_backend/lambda/kb-sync/handler.py:125-131 | With ten changes or fewer the list is their lines alone; with more it ends with the count of the changes left out. |
| KbSync.ListedInOrder | cdk_backend/lambda/kb-sync/handler.py:125-128 | The i-th listed line is "- event: key" of the i-th change. |
| KbSync.ChangeLine | cdk_backend/lambda/kb-sync/handler.py:125 | The line "- event: key" of one change; ListedInOrder states that the i-th listed line is the line of the i-th change. |
| KbSync.MoreLine | cdk_backend/lambda/kb-sync/handler.py:129-130 | The "... and N more files" line; MoreLineOnlyOverTen states that it ends the list exactly when there are more than ten changes. |
| KbSync.Show | cdk_backend/lambda/kb-sync/handler.py:126 | A field as an f-string shows it: a string as itself, a number in decimal, anything else as "None"; ListedInOrder states the lines through it. |
| KbSync.FileList | cdk_backend/lambda/kb-sync/handler.py:125-131 | The message's file list; BuildFileList is the loop it specifies, and OnlyFirstTenListed, MoreLineOnlyOverTen and ListedInOrder state its properties. |
| KbSync.NotificationText | cdk_backend/lambda/kb-sync/handler.py:133-149 | The message text for a count, a file list, a job id and a time; NotificationHolds and NotifyMessage state what it holds. |
| KbSync.ContainsMiddle | cdk_backend/lambda/kb-sync/handler.py:133-149 | A text made of three parts holds its middle part. |
| KbSync.NotifyMessage | cdk_backend/lambda/kb-sync/handler.py:115-155 | With a topic and a publish that goes through, exactly one message goes to that topic under the fixed subject, holding the number of changes followed by the file list, and the job id ("N/A" when the answer has none). |
| KbSync.NotificationHolds | cdk_backend/lambda/kb-sync/handler.py:133-149 | The message text holds the number of changes followed by the file list, and the line naming the job id. |
| EscalatedQueries.ParseIntOfDigits | cdk_backend/lambda/escalatedQueries/handler.py:53 | `int` of a string of decimal digits is the number they spell. |
| EscalatedQueries.ByTimestampPreorder | cdk_backend/lambda/escalatedQueries/handler.py:87 | Ordering by timestamp, newest first, is a total preorder, so the sort is well defined. |
| EscalatedQueries.CountStatus | cdk_backend/lambda/escalatedQueries/handler.py:91-93 | A status count is at most the number of rows. |
| EscalatedQueries.Dispatch | cdk_backend/lambda/escalatedQueries/handler.py:41-57 | OPTIONS answers 200 "OK", PUT goes to the update, and every other method is a GET that never updates. |
| EscalatedQueries.EscalatedHandle | cdk_backend/lambda/escalatedQueries/handler.py:37-108 | The handler as a function of the method, the parameters and the table's answers; Dispatch, DefaultLimit and BadLimits state its properties. |
| EscalatedQueries.Get | cdk_backend/lambda/escalatedQueries/handler.py:50-108 | A GET: a single lookup by id, or the listing with its limit; SingleLookup, ListingSpec and NumericStatusFails state its properties. |
| EscalatedQueries.Update | cdk_backend/lambda/escalatedQueries/handler.py:110-144 | `handle_update_query_status`; UpdateValidation states its properties. |
| EscalatedQueries.ListingOf | cdk_backend/lambda/escalatedQueries/handler.py:84-103 | The listing body: rows sorted newest first and cut at the limit, with the status summary; ListingSpec states its properties. |
| EscalatedQueries.UpdateValidation | cdk_backend/lambda/escalatedQueries/handler.py:116-144 | An update is made, at most once, exactly when the id and status are truthy and the status is one of the three; it carries that id and status and answers 200 unless the table call fails. Otherwise a parsed body answers 400. |
| EscalatedQueries.SingleLookup | cdk_backend/lambda/escalatedQueries/handler.py:61-69 | A lookup that finds no row answers 404 "Query not found"; otherwise it answers 200 with the first row, or 500 with the `Decimal` error when that row's status is a number. |
| EscalatedQueries.Reply | cdk_backend/lambda/escalatedQueries/handler.py:21-31 | `cors_response` inside the `try`: the body is answered with its status exactly when it holds no numeric status; otherwise the caught `TypeError` gives 500 with "Object of type Decimal is not JSON serializable". |
| EscalatedQueries.Serializable | cdk_backend/lambda/escalatedQueries/handler.py:21-31 | A body `json.dumps` can write: no row in it has a numeric status; Reply states what it decides. |
| EscalatedQueries.NumericStatusFails | cdk_backend/lambda/escalatedQueries/handler.py:84-107 | A listing answers 200 exactly when no query it returns has a numeric status; when the limit covers every row read, one row with a numeric status makes the answer 500 with the `Decimal` error. |
| EscalatedQueries.AllListed | cdk_backend/lambda/escalatedQueries/handler.py:82-96 | A limit at least the number of rows read returns every row. |
| EscalatedQueries.ListingSpec | cdk_backend/lambda/escalatedQueries/handler.py:84-103 | The total is the number of rows read and the three status counts add up to at most it. The newest `limit` rows are returned (all of them when there are fewer), newest first: each one is a row read, and no row left out is newer than one returned. |
| EscalatedQueries.NewestRows | cdk_backend/lambda/escalatedQueries/handler.py:84-103 | The rows a positive limit keeps are the newest ones, newest first, and as many as the limit allows; no row left out is newer than one kept. |
| EscalatedQueries.StatusesDisjoint | cdk_backend/lambda/escalatedQueries/handler.py:91-93 | The pending, in-progress and resolved counts add up to at most the number of rows. |
| EscalatedQueries.DefaultLimit | cdk_backend/lambda/escalatedQueries/handler.py:53-103 | Without a limit the listing is answered with the limit 50 and keeps at most 50 queries. |
| EscalatedQueries.BadLimits | cdk_backend/lambda/escalatedQueries/handler.py:53-82 | A limit that is not an integer escapes the handler uncaught; one below 1 answers 500. |
| SessionLogs.ResolveTimeframes | cdk_backend/lambda/retrieveSessionLogs/handler.py:55-87 | A timeframe is refused as unknown exactly when its lower-cased name is none of the five; a missing one is "today", from midnight to now. |
| SessionLogs.ResolveCustom | cdk_backend/lambda/retrieveSessionLogs/handler.py:61-73 | A custom range without both dates is refused. With both it is resolved exactly when both parse, and it runs from the start date's midnight to 23:59:59 on the end date. |
| SessionLogs.CalendarWindows | cdk_backend/lambda/retrieveSessionLogs/handler.py:74-85 | Today, weekly, monthly and yearly windows end now and start at midnight: on the Monday of this week, the first of the month or January 1. |
| SessionLogs.ScanAll | cdk_backend/lambda/retrieveSessionLogs/handler.py:98-130 | The paging loop collects all the pages' items, in order. |
| SessionLogs.PutSpec | cdk_backend/lambda/retrieveSessionLogs/handler.py:139-140 | Setting a key keeps the keys distinct and changes the lookup of that key only. |
| SessionLogs.LookupIn | cdk_backend/lambda/retrieveSessionLogs/handler.py:135-140 | Every key in the map can be looked up. |
| SessionLogs.LookupSome | cdk_backend/lambda/retrieveSessionLogs/handler.py:135-140 | A key that can be looked up is in the map. |
| SessionLogs.BuildFeedbackMap | cdk_backend/lambda/retrieveSessionLogs/handler.py:135-140 | The loop builds the feedback map that the map function describes. |
| SessionLogs.FeedbackMapSpec | cdk_backend/lambda/retrieveSessionLogs/handler.py:135-140 | Every id appears once and maps to the feedback of its last record with a truthy id and feedback. |
| SessionLogs.FirstMatch | cdk_backend/lambda/retrieveSessionLogs/handler.py:181-186 | A match found is an entry that matches, with its feedback; none found means no entry matches. |
| SessionLogs.FindFeedback | cdk_backend/lambda/retrieveSessionLogs/handler.py:181-186 | The search loop stops at the first matching entry, in map order. |
| SessionLogs.Conversations | cdk_backend/lambda/retrieveSessionLogs/handler.py:202-211 | One conversation per item. |
| SessionLogs.Label | cdk_backend/lambda/retrieveSessionLogs/handler.py:175-192 | One conversation's sentiment is computed as the sentiment function describes. |
| SessionLogs.Aggregate | cdk_backend/lambda/retrieveSessionLogs/handler.py:145-211 | The loop computes the sessions, locations, category counts, sentiment counts and conversations. |
| SessionLogs.AggregateStep | cdk_backend/lambda/retrieveSessionLogs/handler.py:162-211 | One more item adds its truthy session, its new non-empty string location, one to its truthy category and one to its sentiment. |
| SessionLogs.AddPlaces | cdk_backend/lambda/retrieveSessionLogs/handler.py:162-169 | Item `i` extends the sessions, locations and categories of the items before it to those of the items up to and including it. |
| SessionLogs.AddSentiment | cdk_backend/lambda/retrieveSessionLogs/handler.py:175-211 | Item `i` extends the sentiment counts and conversations of the items before it to those of the items up to and including it. |
| SessionLogs.CountsTotal | cdk_backend/lambda/retrieveSessionLogs/handler.py:194-200 | Positive, negative and neutral add up to the number of conversations. |
| SessionLogs.SentimentFromFeedback | cdk_backend/lambda/retrieveSessionLogs/handler.py:175-192 | A conversation is positive or negative exactly when its session id is truthy and the first map entry whose id contains the session id or the timestamp holds that feedback. |
| SessionLogs.CategoriesSpec | cdk_backend/lambda/retrieveSessionLogs/handler.py:168-169 | The category counts cover exactly the truthy categories that occur, each with its number of items. |
| SessionLogs.LocationsSpec | cdk_backend/lambda/retrieveSessionLogs/handler.py:165-167 | The locations are distinct and are exactly the non-empty string locations that occur. |
| SessionLogs.SessionsSpec | cdk_backend/lambda/retrieveSessionLogs/handler.py:163-164 | The sessions are exactly the truthy session ids that occur. |
| SessionLogs.ByRecencyPreorder | cdk_backend/lambda/retrieveSessionLogs/handler.py:219 | Ordering by timestamp, newest first, is a total preorder. |
| SessionLogs.RetrieveSessionLogs | cdk_backend/lambda/retrieveSessionLogs/handler.py:50-237 | The handler computes the answer that the report function describes, including the failure of writing a number read from a table. |
| SessionLogs.SessionLogs | cdk_backend/lambda/retrieveSessionLogs/handler.py:50-237 | The answer as a function of the parameters, the clock and the scanned records: a refusal, the report, or the uncaught `TypeError` of writing it; ReportSpec, ResolveTimeframes, CalendarWindows, NumericCategoryRaises, NumericFieldRaises and NumberFreeReport state its properties. |
| SessionLogs.ReportSpec | cdk_backend/lambda/retrieveSessionLogs/handler.py:218-231 | The latest 50 conversations (all of them when there are fewer), most recent first: each is an aggregated one, and no conversation left out is newer than one kept. The sentiment counts add up to the number of items. |
| SessionLogs.DumpFailure | cdk_backend/lambda/retrieveSessionLogs/handler.py:36-44 | Writing the report: a numeric category key is refused first, then a numeric value in a returned conversation; NumericCategoryRaises, NumericFieldRaises and NumberFreeReport state when it fails. |
| SessionLogs.HoldsNumber | cdk_backend/lambda/retrieveSessionLogs/handler.py:203-209 | A returned conversation whose query, response, category or sentiment is a number; NumericFieldRaises and NumberFreeReport state its effect. |
| SessionLogs.NumericCategoryRaises | cdk_backend/lambda/retrieveSessionLogs/handler.py:168-237 | A conversation whose category is a non-zero number makes the handler raise "keys must be str, int, float, bool or None, not Decimal", because that number is a key of the category counts. |
| SessionLogs.NumericFieldRaises | cdk_backend/lambda/retrieveSessionLogs/handler.py:202-230 | With at most 50 conversations every one is returned, so a numeric query, response or category on any of them makes the handler raise. |
| SessionLogs.NumberFreeReport | cdk_backend/lambda/retrieveSessionLogs/handler.py:134-237 | When no conversation holds a numeric query, response or category and no feedback record a numeric feedback, a resolved timeframe is answered with the report. |
| SessionLogs.CategoryKeysOccur | cdk_backend/lambda/retrieveSessionLogs/handler.py:168-169 | Every category counted is the category of some conversation. |
| SessionLogs.ConversationsFrom | cdk_backend/lambda/retrieveSessionLogs/handler.py:202-211 | Every conversation built comes from a scanned item, and every scanned item gives one. |
| SessionLogs.PutNumberFree | cdk_backend/lambda/retrieveSessionLogs/handler.py:139-140 | Storing a non-numeric feedback keeps every value of the map non-numeric. |
| SessionLogs.FeedbackMapNumberFree | cdk_backend/lambda/retrieveSessionLogs/handler.py:135-140 | A map built from records without numeric feedback holds no numeric value. |
| SessionLogs.ConversationsNumberFree | cdk_backend/lambda/retrieveSessionLogs/handler.py:202-230 | Without numbers in the items or the map, no returned conversation holds a number. |
| SessionLogs.LatestFifty | cdk_backend/lambda/retrieveSessionLogs/handler.py:218-230 | Sorting newest first and keeping 50 keeps min(50, n) conversations, sorted, from the input, none older than one left out. |
| SessionLogs.RejectionText | cdk_backend/lambda/retrieveSessionLogs/handler.py:65-87 | The 400 error text of each refusal; for an invalid date only its prefix. |
| SessionLogs.TimeframeName | cdk_backend/lambda/retrieveSessionLogs/handler.py:55-56 | The lower-cased timeframe, "today" when absent or empty; ResolveTimeframes states how it is resolved. |
| SessionLogs.Resolve | cdk_backend/lambda/retrieveSessionLogs/handler.py:54-87 | The window of the named timeframe, or why it is refused; ResolveTimeframes, ResolveCustom and CalendarWindows state its properties. |
| SessionLogs.AllItems | cdk_backend/lambda/retrieveSessionLogs/handler.py:98-130 | The items of the scan pages, in order; ScanAll states that the paging loop collects them. |
| SessionLogs.Put | cdk_backend/lambda/retrieveSessionLogs/handler.py:139-140 | A dictionary assignment, keeping the insertion order; PutSpec states its properties. |
| SessionLogs.Lookup | cdk_backend/lambda/retrieveSessionLogs/handler.py:135-140 | A dictionary lookup; LookupIn, LookupSome and PutSpec state its properties. |
| SessionLogs.FeedbackMapOf | cdk_backend/lambda/retrieveSessionLogs/handler.py:135-140 | The feedback map built from the feedback records in order; BuildFeedbackMap is the loop it specifies and FeedbackMapSpec states its contents. |
| SessionLogs.Latest | cdk_backend/lambda/retrieveSessionLogs/handler.py:135-140 | The feedback of the last record with a given id that has truthy id and feedback; FeedbackMapSpec states that the map holds it. |
| SessionLogs.KeyText | cdk_backend/lambda/retrieveSessionLogs/handler.py:184 | `str(msg_id)` for a string, a number or anything else. |
| SessionLogs.Matches | cdk_backend/lambda/retrieveSessionLogs/handler.py:184 | A map entry matches a conversation when its id's text contains the session id or the non-empty timestamp; FirstMatch and SentimentFromFeedback state the search through it. |
| SessionLogs.SentimentOf | cdk_backend/lambda/retrieveSessionLogs/handler.py:175-192 | A conversation's sentiment: the first matching feedback when truthy, else "neutral"; SentimentFromFeedback states it. |
| SessionLogs.CountSentiment | cdk_backend/lambda/retrieveSessionLogs/handler.py:194-200 | One sentiment added to the positive, negative or neutral count; CountsTotal states the totals. |
| SessionLogs.Counts | cdk_backend/lambda/retrieveSessionLogs/handler.py:194-200 | The sentiment counts of the conversations; CountsTotal states that they add up to the number of conversations. |
| SessionLogs.Sessions | cdk_backend/lambda/retrieveSessionLogs/handler.py:163-164 | The distinct truthy session ids; SessionsSpec states which they are. |
| SessionLogs.Locations | cdk_backend/lambda/retrieveSessionLogs/handler.py:165-167 | The distinct non-empty string locations, in order of first appearance; LocationsSpec states which they are. |
| SessionLogs.Categories | cdk_backend/lambda/retrieveSessionLogs/handler.py:168-169 | The number of items per truthy category; CategoriesSpec states which categories are counted and how many. |
| SessionLogs.CategoryCount | cdk_backend/lambda/retrieveSessionLogs/handler.py:168-169 | The number of items in one category; CategoriesSpec states the counts through it. |
| SessionLogs.ConversationOf | cdk_backend/lambda/retrieveSessionLogs/handler.py:202-211 | One conversation entry, with the query, response and category defaulting when absent, and its sentiment; Conversations states that each item gets one. |
| SessionLogs.ByRecency | cdk_backend/lambda/retrieveSessionLogs/handler.py:219 | Newest first by timestamp; ByRecencyPreorder states that it is a total preorder and ReportSpec the order it gives. |
| EscalatedQueries.ParseInt | cdk_backend/lambda/escalatedQueries/handler.py:53 | Python's `int()` on the `limit` parameter, None where it raises; ParseIntOfDigits states the value of a digit string and BadLimits what a non-integer does. |
| EscalatedQueries.ByTimestamp | cdk_backend/lambda/escalatedQueries/handler.py:87 | Newest first by timestamp, a missing one counting as ""; ByTimestampPreorder states that it is a total preorder and NewestRows the order it gives. |
| EscalatedQueries.Slice | cdk_backend/lambda/escalatedQueries/handler.py:96 | Python's `items[:limit]` for any integer limit; NewestRows states what a positive limit keeps. |
| EscalatedQueries.LimitRefused | cdk_backend/lambda/escalatedQueries/handler.py:53-82 | The error text for a `Limit` below 1; BadLimits states that such a limit answers 500 with it. |
| Dates.Weekday | cdk_backend/lambda/retrieveSessionLogs/handler.py:78 | `weekday()` is between 0 (Monday) and 6 (Sunday). |
| Dates.YearLength | cdk_backend/lambda/retrieveSessionLogs/handler.py:78 | A year has 365 days, 366 when it is a leap year. |
| Dates.MonthsOfYear | cdk_backend/lambda/retrieveSessionLogs/handler.py:78 | The months of a year add up to 365 days, 366 in a leap year. |
| Dates.PrevDaySpec | cdk_backend/lambda/retrieveSessionLogs/handler.py:78 | The day before a valid date is a valid date one day earlier. |
| Dates.DaysBackSpec | cdk_backend/lambda/retrieveSessionLogs/handler.py:78 | Stepping back `n` days gives a valid date `n` days earlier. |
| Dates.WeekdayBelowOrdinal | cdk_backend/lambda/retrieveSessionLogs/handler.py:78 | There are always enough days before a date to step back to its Monday. |
| Dates.WeekStartSpec | cdk_backend/lambda/retrieveSessionLogs/handler.py:78 | The week starts on a Monday, at most six days back. |
| Dates.MondayOf | cdk_backend/lambda/retrieveSessionLogs/handler.py:78 | The date `Weekday(d)` days before `d` is a Monday. |
| Dates.ParseYmd | cdk_backend/lambda/retrieveSessionLogs/handler.py:70-71 | Whatever `strptime` with "%Y-%m-%d" accepts is a valid date. |
| Dates.FormatYmd | cdk_backend/lambda/retrieveSessionLogs/handler.py:223-224 | `strftime("%Y-%m-%d")` of a date with a four-digit year is ten characters. |
| Dates.ParseFormat | cdk_backend/lambda/retrieveSessionLogs/handler.py:70-71 | A date written as YYYY-MM-DD parses back to that date. |
| Sorting.Insert | cdk_backend/lambda/retrieveSessionLogs/handler.py:219 | Inserting adds exactly one element. |
| Sorting.SortBy | cdk_backend/lambda/retrieveSessionLogs/handler.py:219 | The sort keeps the length. |
| Sorting.InsertPerm | cdk_backend/lambda/retrieveSessionLogs/handler.py:219 | Inserting adds the element to the multiset and nothing else. |
| Sorting.InsertSpec | cdk_backend/lambda/retrieveSessionLogs/handler.py:219 | Inserting into a sorted list keeps it sorted. |
| Sorting.SortBySpec | cdk_backend/lambda/retrieveSessionLogs/handler.py:219 | The sort orders its input and is a permutation of it. |
| Sorting.InsertTies | cdk_backend/lambda/retrieveSessionLogs/handler.py:219 | Inserting puts the new element ahead of every element tied with it. |
| Sorting.SortByStable | cdk_backend/lambda/retrieveSessionLogs/handler.py:219 | The sort is stable: elements with equal keys keep their order. |
| Sorting.TakeSorted | cdk_backend/lambda/retrieveSessionLogs/handler.py:230 | The first `n` of the sorted list are still sorted and are all from the input, and every input element left out may come after every element kept. |
| Sorting.KeptBeforeDropped | cdk_backend/lambda/retrieveSessionLogs/handler.py:230 | In a sorted list, every element of a prefix may come before every element after it. |
| Patterns.UrlRun | frontend/src/Components/BotFileCheckReply.jsx:78 | The URL run is the longest prefix of characters the URL pattern's class allows. |
| Patterns.UrlMatch | frontend/src/Components/BotFileCheckReply.jsx:78 | A URL match found at the front is no longer than the text. |
| Patterns.PunctRun | cdk_backend/lambda/chatResponseHandler/handler.py:136 | The punctuation run is the longest prefix of '.', '!' and '?'. |
| Patterns.SpaceRun | cdk_backend/lambda/chatResponseHandler/handler.py:136 | The whitespace run is the longest prefix of whitespace characters. |
| Patterns.BreakMatch | cdk_backend/lambda/chatResponseHandler/handler.py:136 | A sentence-break match starts with punctuation and is no longer than the text. |
| Patterns.SplitFrom | cdk_backend/lambda/chatResponseHandler/handler.py:137 | A split with the matches kept has an odd number of pieces: text, match, text, and so on. |
| Patterns.SplitFromConcat | frontend/src/Components/BotFileCheckReply.jsx:79 | The split pieces put back together give the text. |
| Patterns.SplitKeepConcat | frontend/src/Components/BotFileCheckReply.jsx:79 | The split pieces put back together give the text. |
| BotReply.NewlineRun | frontend/src/Components/BotFileCheckReply.jsx:66 | The newline run is the longest prefix of newlines. |
| BotReply.Collapse | frontend/src/Components/BotFileCheckReply.jsx:66 | Collapsing never lengthens the text and keeps a first character that is not a newline. |
| BotReply.CleanupText | frontend/src/Components/BotFileCheckReply.jsx:61-67 | A missing or empty text cleans to "". |
| BotReply.CollapseNoTriple | frontend/src/Components/BotFileCheckReply.jsx:66 | The clean-up leaves no run of three newlines. |
| BotReply.CollapseKeepsText | frontend/src/Components/BotFileCheckReply.jsx:66 | The clean-up keeps every character other than newlines, in order. |
| BotReply.CollapseFixesClean | frontend/src/Components/BotFileCheckReply.jsx:66 | A text without three newlines in a row is left alone. |
| BotReply.CleanupIdempotent | frontend/src/Components/BotFileCheckReply.jsx:61-67 | Cleaning twice is cleaning once. |
| BotReply.UrlMatchOfPrefix | frontend/src/Components/BotFileCheckReply.jsx:78-82 | A URL match on a prefix is also a match on the whole string. |
| BotReply.AccHasNoUrl | frontend/src/Components/BotFileCheckReply.jsx:79 | Text read before the next match contains no URL. |
| BotReply.MatchIsWholeUrl | frontend/src/Components/BotFileCheckReply.jsx:79-82 | The matched text is itself exactly one URL match. |
| BotReply.SplitFromWell | frontend/src/Components/BotFileCheckReply.jsx:79 | In the split the odd pieces are each exactly one URL match, and the even pieces contain none. |
| BotReply.RenderParts | frontend/src/Components/BotFileCheckReply.jsx:81-111 | A piece is a link exactly when its part matches the URL pattern, and it shows that part's text. |
| BotReply.RenderMessage | frontend/src/Components/BotFileCheckReply.jsx:70-71 | Nothing is rendered exactly when the text is missing or empty. |
| BotReply.RenderMessageSpec | frontend/src/Components/BotFileCheckReply.jsx:70-111 | The rendered pieces spell the cleaned text, and the links are exactly the odd pieces of the split, each one whole URL. |
| BotReply.AnimationStep | frontend/src/Components/BotFileCheckReply.jsx:114-124 | Only the checking state changes. It becomes success exactly for "File page limit check succeeded.", and fail exactly for a size or network error. |
| BotReply.DotsCycle | frontend/src/Components/BotFileCheckReply.jsx:127-134 | From "" the dots run through "", ".", "..", "..." and back, with period four, never longer than three. |
| BotReply.ReplyBubble.constructor | frontend/src/Components/BotFileCheckReply.jsx:25-28 | The reply starts checking, with no feedback, not submitting and no dots. |
| BotReply.ReplyBubble.HandleFeedback | frontend/src/Components/BotFileCheckReply.jsx:40-58 | A click while submitting or without a message id does nothing. Otherwise clicking the shown kind clears it and another kind replaces it; the callback gets the message id, session id, new feedback, message and click time, and the flag stays set only when awaiting the callback throws. |
| BotReply.ReplyBubble.StatusTimer | frontend/src/Components/BotFileCheckReply.jsx:114-124 | The timer applies the animation step and changes nothing else. |
| BotReply.ReplyBubble.TickDots | frontend/src/Components/BotFileCheckReply.jsx:127-134 | The dots advance one step and stay at most three long. |
| BotReply.ToggleTwice | frontend/src/Components/BotFileCheckReply.jsx:44 | Clicking the same kind twice comes back to the feedback shown before that kind was chosen; clicking the other kind switches. |
| BotReply.NextDots | frontend/src/Components/BotFileCheckReply.jsx:127-134 | One step of the dots: one more dot, back to none after three; DotsCycle states the cycle. |
| BotReply.Ticks | frontend/src/Components/BotFileCheckReply.jsx:127-134 | The dots after a number of steps; DotsCycle states their period and length. |
| BotReply.TicksLast | frontend/src/Components/BotFileCheckReply.jsx:127-134 | One more step is one step after the others. |
| BotReply.ContainsUrl | frontend/src/Components/BotFileCheckReply.jsx:82 | Some position of the text starts a URL match; AccHasNoUrl and SplitFromWell state which pieces contain none. |
| ChatBody.Classify | frontend/src/Components/ChatBody.jsx:187-264 | A frame takes the chunk branch only when it parses to an object of type "chunk", and the complete branch only for type "complete". Any other parsed object takes the older-format branch. |
| ChatBody.ClassifyByTrim | frontend/src/Components/ChatBody.jsx:189-194 | A frame is a heartbeat exactly when its text trims to ""; it is a parse error exactly when it is not blank and does not parse to an object. |
| ChatBody.Deliver | frontend/src/Components/ChatBody.jsx:187-264 | The change one socket frame makes to the page state; HeartbeatChangesNothing, ChunkStep, CompleteEndsTurn and DeliverKeepsWellFormed state its properties. |
| ChatBody.SocketError | frontend/src/Components/ChatBody.jsx:266-270 | The socket's error handler: processing messages become the error text and `processing` is cleared; ChatBody.ChatSession.OnError and ReplaceKeepsWellFormed state its properties. |
| ChatBody.HeartbeatChangesNothing | frontend/src/Components/ChatBody.jsx:189-191 | An empty or whitespace-only frame changes nothing. |
| ChatBody.ApplyChunk | frontend/src/Components/ChatBody.jsx:196-219 | A chunk puts the whole streamed text on every in-flight message and marks it streaming; ids, senders and every other message are unchanged. |
| ChatBody.ApplyComplete | frontend/src/Components/ChatBody.jsx:220-236 | A complete frame puts the final text and citations (or []) on every in-flight message and marks it received, leaving nothing in flight; other messages are unchanged. |
| ChatBody.ApplyLegacy | frontend/src/Components/ChatBody.jsx:239-254 | A frame in the older format settles only processing messages; streaming ones keep their state. |
| ChatBody.ReplaceProcessing | frontend/src/Components/ChatBody.jsx:135-142 | Every processing message becomes a new received bot block with the text and a fresh, increasing id; other messages are unchanged and nothing stays processing. |
| ChatBody.SendBlankChangesNothing | frontend/src/Components/ChatBody.jsx:160-161 | Sending empty or whitespace-only text adds no message, leaves `processing` alone and opens no socket. |
| ChatBody.SendNonBlank | frontend/src/Components/ChatBody.jsx:160-168 | Sending other text appends the user's message as typed and an empty processing bot block, sets `processing`, and asks the trimmed question with the current role. |
| ChatBody.Send | frontend/src/Components/ChatBody.jsx:160-185 | `handleSend` on the page state; SendBlankChangesNothing, SendNonBlank and SendKeepsWellFormed state its properties. |
| ChatBody.OpenPayload | frontend/src/Components/ChatBody.jsx:176-185 | An open socket sends exactly one "sendMessage" payload with the question and the session id, the role being "guest" when there is none. |
| ChatBody.Reset | frontend/src/Components/ChatBody.jsx:145-150 | A reset empties the messages and the input and clears `processing`, keeping the role. |
| ChatBody.SendKeepsWellFormed | frontend/src/Components/ChatBody.jsx:160-168 | Sending keeps message ids unique and below the id counter. |
| ChatBody.DeliverKeepsWellFormed | frontend/src/Components/ChatBody.jsx:187-270 | Every frame and every socket error keeps message ids unique and below the id counter. |
| ChatBody.ReplaceKeepsWellFormed | frontend/src/Components/ChatBody.jsx:135-142 | Replacing processing messages keeps ids unique and below the new counter. |
| ChatBody.ChunkStep | frontend/src/Components/ChatBody.jsx:196-219 | One chunk on a live socket adds its text to the streamed text. |
| ChatBody.ChunksAccumulate | frontend/src/Components/ChatBody.jsx:196-219 | Over chunk frames on a live socket the streamed text grows by exactly the chunks, in order, and every in-flight message shows it; no other message changes, and neither does `processing`. |
| ChatBody.DeliverAllSnoc | frontend/src/Components/ChatBody.jsx:187-264 | Delivering one more frame is delivering it after the others. |
| ChatBody.CompleteEndsTurn | frontend/src/Components/ChatBody.jsx:220-238 | A complete frame leaves nothing in flight, clears `processing` and closes the socket, so later frames change nothing. |
| ChatBody.StreamThenComplete | frontend/src/Components/ChatBody.jsx:196-238 | After chunks and a complete frame on a live socket, each message that was in flight holds the final text and citations, every other message is unchanged, and `processing` is false. |
| ChatBody.ClosedIgnoresFrames | frontend/src/Components/ChatBody.jsx:238 | A closed socket ignores every frame. |
| ChatBody.LegacyAfterChunkStaysStreaming | frontend/src/Components/ChatBody.jsx:239-256 | A frame in the older format after chunks leaves the answer marked streaming while the page stops processing. |
| ChatBody.WholeTurn | frontend/src/Components/ChatBody.jsx:160-238 | A non-blank question, its chunks and a complete frame leave the earlier messages, the question as typed, and the final text with its citations on the answer. |
| ChatBody.ChatSession.constructor | frontend/src/Components/ChatBody.jsx:74-94 | The page starts with no messages and nothing sent. |
| ChatBody.ChatSession.Mount | frontend/src/Components/ChatBody.jsx:99-110 | Mounting turns guest mode on and takes the role from the landing page, or "learner". |
| ChatBody.ChatSession.HandleSend | frontend/src/Components/ChatBody.jsx:160-168 | The send handler makes the change that sending describes. |
| ChatBody.ChatSession.OnOpen | frontend/src/Components/ChatBody.jsx:176-185 | Opening sends the payload of the live turn, if any, and changes nothing else. |
| ChatBody.ChatSession.OnMessage | frontend/src/Components/ChatBody.jsx:187-264 | A frame makes the change that delivery describes. |
| ChatBody.ChatSession.OnError | frontend/src/Components/ChatBody.jsx:266-270 | A socket error replaces processing messages with the error text and clears `processing`. |
| ChatBody.ChatSession.ResetChat | frontend/src/Components/ChatBody.jsx:145-150 | The reset handler makes the change that reset describes. |
| ChatBody.ChatSession.HandleRoleChange | frontend/src/Components/ChatBody.jsx:153-158 | A role change sets the new role, then resets the conversation. |
| ChatBody.SuggestedPrompts | frontend/src/Components/ChatBody.jsx:278-301 | Instructor and staff have their own prompts, and every other role, none included, gets the learner's. |
| ChatBody.RoleSpecificQueries | frontend/src/Components/ChatBody.jsx:323-510 | A missing role reads as learner. A known role gets its own table in Spanish for "ES" and in English otherwise, and an unknown role gets the English learner table. |
| ChatBody.ChunkUpdate | frontend/src/Components/ChatBody.jsx:196-219 | A chunk's change to one message, made only when it is in flight; ApplyChunk states its effect on the list. |
| ChatBody.Settle | frontend/src/Components/ChatBody.jsx:220-236 | A complete frame's change to one in-flight message; ApplyComplete states its effect on the list. |
| ChatBody.DeliverAll | frontend/src/Components/ChatBody.jsx:187-264 | Frames delivered in order; DeliverAllSnoc, ChunksAccumulate and StreamThenComplete state its properties. |
| ChatBody.ChunkText | frontend/src/Components/ChatBody.jsx:196-219 | The text a run of frames adds to the streamed text; ChunksAccumulate states that the streamed text grows by it. |
| ChatBody.JsText | frontend/src/Components/ChatBody.jsx:198 | The text JavaScript appends for a JSON value: "undefined", "null", a string as itself or a number in decimal; ChunksAccumulate states the streamed text through it. |
| ChatBody.NewBlock | frontend/src/Components/ChatBody.jsx:135-168 | A new message block with no citations; ReplaceProcessing and SendNonBlank state the blocks added. |
| ChatBody.ChatSession.State | frontend/src/Components/ChatBody.jsx:74-94 | The page state as a value; every ChatSession method states its change through it. |
| ChatInput.ButtonMatchesGuard | frontend/src/Components/ChatInput.jsx:58-63 | For a present message the send button is enabled exactly when the send guard passes: the message is not blank and nothing is processing. |
| ChatInput.AbsentMessagePassesGuard | frontend/src/Components/ChatInput.jsx:204 | With no message at all the guard passes while the button is disabled. |
| ChatInput.ChatInputBox.constructor | frontend/src/Components/ChatInput.jsx:8-14 | The box starts not listening, with nothing sent and no recognition calls. |
| ChatInput.ChatInputBox.HandleSendMessage | frontend/src/Components/ChatInput.jsx:58-63 | When the guard passes, the message goes to the send callback and the input is cleared; otherwise nothing changes. |
| ChatInput.ChatInputBox.KeyDown | frontend/src/Components/ChatInput.jsx:117-122 | Enter without Shift, while not processing, sends as the send handler does; every other key changes nothing. |
| ChatInput.ChatInputBox.ToggleSpeechRecognition | frontend/src/Components/ChatInput.jsx:65-80 | Without recognition support nothing happens. While listening it stops. Otherwise it starts, and listening is on unless the start throws. |
| ChatInput.ChatInputBox.OnResult | frontend/src/Components/ChatInput.jsx:31-35 | A result replaces the message with the transcript and stops listening. |
| ChatInput.ChatInputBox.OnErrorOrEnd | frontend/src/Components/ChatInput.jsx:37-44 | An error or the end of recognition stops listening and keeps the message. |
| ChatInput.CanSend | frontend/src/Components/ChatInput.jsx:59 | The send guard: not processing, and the message absent or not blank; ButtonMatchesGuard and AbsentMessagePassesGuard state it against the button. |
| ChatInput.SendDisabled | frontend/src/Components/ChatInput.jsx:204 | The button's disabled test; ButtonMatchesGuard and AbsentMessagePassesGuard state it against the guard. |
| ChatInput.KeySends | frontend/src/Components/ChatInput.jsx:117-122 | Enter without Shift while not processing; ChatInputBox.KeyDown states that such a key press sends. |
| ManageDocuments.Utf8 | frontend/src/Components/ManageDocuments.jsx:108 | A code point has one to four UTF-8 bytes, each below 256. |
| ManageDocuments.PercentBytes | frontend/src/Components/ManageDocuments.jsx:108 | Each byte becomes three characters, all of them '%' or unreserved. |
| ManageDocuments.EncodeURIComponent | frontend/src/Components/ManageDocuments.jsx:108-109 | The encoding holds only '%' and unreserved characters and is at least as long as the key. |
| ManageDocuments.HexDigit | frontend/src/Components/ManageDocuments.jsx:108 | One upper-case hexadecimal digit of a percent-escape; PercentBytes states that the escapes hold only '%' and unreserved characters. |
| ManageDocuments.EncodeChar | frontend/src/Components/ManageDocuments.jsx:108 | One character of the key, kept when unreserved and percent-escaped otherwise; EncodeURIComponent and EncodeUnreserved state its properties. |
| ManageDocuments.EncodeUnreserved | frontend/src/Components/ManageDocuments.jsx:108-109 | A key made only of unreserved characters encodes to itself. |
| ManageDocuments.FormatSize | frontend/src/Components/ManageDocuments.jsx:60-61 | The size shows "--" exactly when it is absent. |
| ManageDocuments.FormatDate | frontend/src/Components/ManageDocuments.jsx:68-69 | The date shows "--" exactly when it is absent or empty. |
| ManageDocuments.ParseAll | frontend/src/Components/ManageDocuments.jsx:103-111 | There is one document per listed file, in order. |
| ManageDocuments.ParseDocSpec | frontend/src/Components/ManageDocuments.jsx:103-111 | A document's name is its key. Its type is the upper-cased text after the key's last '.' (the whole key when there is none). Its link and delete endpoint are the same URL, with the key as one encoded path segment under files/. |
| ManageDocuments.ParseDoc | frontend/src/Components/ManageDocuments.jsx:103-111 | One listed file as a document; ParseDocSpec states its properties. |
| ManageDocuments.Remove | frontend/src/Components/ManageDocuments.jsx:258 | Removing a name drops every copy of it and keeps every other name, with its count. |
| ManageDocuments.RemoveAbsent | frontend/src/Components/ManageDocuments.jsx:258 | Removing a name that is not selected changes nothing. |
| ManageDocuments.ToggleSpec | frontend/src/Components/ManageDocuments.jsx:256-259 | A checkbox change flips the membership of that name and of no other, and never makes a duplicate. |
| ManageDocuments.Toggle | frontend/src/Components/ManageDocuments.jsx:256-259 | The checkbox toggle of a name; ToggleSpec and ToggleTwice state its properties. |
| ManageDocuments.NoDupCounts | frontend/src/Components/ManageDocuments.jsx:256-259 | In a selection without duplicates every name occurs at most once. |
| ManageDocuments.CountsNoDup | frontend/src/Components/ManageDocuments.jsx:256-259 | A selection in which every name occurs once has no duplicates. |
| ManageDocuments.Twice | frontend/src/Components/ManageDocuments.jsx:256-259 | Equal entries at two positions mean the name occurs at least twice. |
| ManageDocuments.ToggleTwice | frontend/src/Components/ManageDocuments.jsx:256-259 | Two changes of an unselected name give back the selection. For a selected name they give back the other names in order followed by that name; when the name was selected once, the same names come back. |
| ManageDocuments.RemoveAppend | frontend/src/Components/ManageDocuments.jsx:258 | Removing from a concatenation removes from each part. |
| ManageDocuments.VisibleSpec | frontend/src/Components/ManageDocuments.jsx:311 | The listing shows exactly the documents whose lower-cased name contains the lower-cased search term, and an empty term shows them all. |
| ManageDocuments.Visible | frontend/src/Components/ManageDocuments.jsx:311 | The documents the search term shows; VisibleSpec states its properties. |
| ManageDocuments.Targets | frontend/src/Components/ManageDocuments.jsx:127 | A bulk delete targets exactly the listed documents whose name is selected. |
| ManageDocuments.Endpoints | frontend/src/Components/ManageDocuments.jsx:127-132 | There is one request per target, to its delete endpoint, in order. |
| ManageDocuments.Sent | frontend/src/Components/ManageDocuments.jsx:127-133 | A run sends no more requests than there are targets. |
| ManageDocuments.DocumentsPage.constructor | frontend/src/Components/ManageDocuments.jsx:78-84 | The page starts with no documents, no selection, no search term, no error and nothing sent. |
| ManageDocuments.DocumentsPage.FetchDocuments | frontend/src/Components/ManageDocuments.jsx:87-120 | A listing replaces the documents (a missing files field reads as none). A failure sets the error and keeps the documents. Loading ends either way. |
| ManageDocuments.DocumentsPage.HandleCheckboxChange | frontend/src/Components/ManageDocuments.jsx:256-259 | A checkbox change toggles the name in the selection and changes nothing else. |
| ManageDocuments.DocumentsPage.HandleDeleteFiles | frontend/src/Components/ManageDocuments.jsx:122-142 | One DELETE goes out per selected document, in listing order, until a request raises. If one raises, its error shows and the selection stays; otherwise the list is fetched again and the selection cleared. |
| ManageDocuments.SendDeletes | frontend/src/Components/ManageDocuments.jsx:127-133 | The loop sends the endpoints of the targets it reaches and reports whether a raised error stopped it. |
| ManageDocuments.DeletesOnlySelected | frontend/src/Components/ManageDocuments.jsx:127-132 | Every delete request is the endpoint of a listed, selected document. |
| ManageDocuments.FileUrl | frontend/src/Components/ManageDocuments.jsx:108-109 | A document's URL, the key as one encoded path segment under files/; ParseDocSpec and EncodeUnreserved state its form. |
| ManageDocuments.ListError | frontend/src/Components/ManageDocuments.jsx:99-116 | The error a failed listing shows: the thrown message, or "List failed: " and the status; DocumentsPage.FetchDocuments ensures the page shows it. |
| ManageDocuments.Interrupted | frontend/src/Components/ManageDocuments.jsx:127-142 | Whether a delete run stopped on a raised error; SendDeletes and DocumentsPage.HandleDeleteFiles state what follows from it. |
| AdminAnalytics.Normalize | frontend/src/Components/AdminAnalytics.jsx:69-76 | There is one entry per default category, in the table's order, holding the response's count for it or 0. |
| AdminAnalytics.NormalizeCounts | frontend/src/Components/AdminAnalytics.jsx:70-78 | The loop over the default categories builds the normalized counts and their total. |
| AdminAnalytics.IgnoresOtherCategories | frontend/src/Components/AdminAnalytics.jsx:72-73 | A category outside the default list does not change the counts. |
| AdminAnalytics.TotalOfZeros | frontend/src/Components/AdminAnalytics.jsx:71-75 | Counts that are all 0 add up to 0. |
| AdminAnalytics.NoCategories | frontend/src/Components/AdminAnalytics.jsx:73 | A response without categories gives every category 0, and the total is 0. |
| AdminAnalytics.TopSpec | frontend/src/Components/AdminAnalytics.jsx:89-91 | The top list has min(5, n) entries, largest count first, all taken from the counts, and no entry left out has a larger count than one shown. |
| AdminAnalytics.Top | frontend/src/Components/AdminAnalytics.jsx:89-91 | The five largest categories; TopSpec states its properties. |
| AdminAnalytics.AnalyticsPage.constructor | frontend/src/Components/AdminAnalytics.jsx:55-58 | The page starts on "today" with no counts, 0 users and 0 questions. |
| AdminAnalytics.AnalyticsPage.FetchAnalytics | frontend/src/Components/AdminAnalytics.jsx:60-84 | A response replaces the counts, the total and the user count (0 when absent); a failure changes nothing. |
| AdminAnalytics.CountFor | frontend/src/Components/AdminAnalytics.jsx:73 | The server's count for one category, 0 when the categories or that category are absent; Normalize, IgnoresOtherCategories and NoCategories state its properties. |
| AdminAnalytics.Total | frontend/src/Components/AdminAnalytics.jsx:71-75 | The sum of the normalized counts; NormalizeCounts states that the loop's running total is this sum, and TotalOfZeros that zero counts add up to 0. |
| AdminAnalytics.ByCount | frontend/src/Components/AdminAnalytics.jsx:90 | The comparator putting larger counts first; TopSpec states the order it gives the top list. |
| AdminDashboard.CollectTrends | frontend/src/Components/AdminDashboard.jsx:82-108 | The loop from six days back to today collects each day's trend entry. |
| AdminDashboard.CollectEmptyTrends | frontend/src/Components/AdminDashboard.jsx:132-141 | The error path's loop builds one zero entry per day. |
| AdminDashboard.TrendsSpec | frontend/src/Components/AdminDashboard.jsx:82-141 | There are seven entries, oldest day first. A failed day counts 0, and a day that answered counts its user count (0 when absent). The error list has the same days at 0, which is the list for seven failed days. |
| AdminDashboard.Trends | frontend/src/Components/AdminDashboard.jsx:82-141 | The seven-day user trend; TrendsSpec states its properties. |
| AdminDashboard.SentimentData | frontend/src/Components/AdminDashboard.jsx:171-175 | The pie has at most three slices, each named Positive, Neutral or Negative, each above 0. |
| AdminDashboard.SliceSumAppend | frontend/src/Components/AdminDashboard.jsx:171-175 | The sum over joined slice lists is the sum of the two sums. |
| AdminDashboard.SentimentDataSpec | frontend/src/Components/AdminDashboard.jsx:117-175 | With no negative counts the slices add up to the total on the metric card. A slice is shown exactly when its count is above 0, in the order Positive, Neutral, Negative. |
| AdminDashboard.PercentageChangeSpec | frontend/src/Components/AdminDashboard.jsx:160-168 | Only the four known metrics report a change, and only the response time reports a fall. |
| AdminDashboard.PercentageChange | frontend/src/Components/AdminDashboard.jsx:160-168 | The fixed change shown for each metric; PercentageChangeSpec states its properties. |
| AdminDashboard.DashboardPage.constructor | frontend/src/Components/AdminDashboard.jsx:48-58 | The page starts loading, with the initial metrics and no trends. |
| AdminDashboard.DashboardPage.FetchAnalytics | frontend/src/Components/AdminDashboard.jsx:74-146 | When the token and today's request succeed, the trends are the seven days' entries and the metrics are today's. Otherwise the trends are the zero list and the metrics stay. Loading ends. |
| AdminDashboard.TodayFailureDropsTrends | frontend/src/Components/AdminDashboard.jsx:107-141 | If today's request fails, days that did answer are lost: their counts become 0. |
| AdminDashboard.QueriesOf | frontend/src/Components/AdminDashboard.jsx:95-104 | A day's count: its user count, 0 when absent or when the request failed; TrendsSpec states it for every day. |
| AdminDashboard.EmptyTrends | frontend/src/Components/AdminDashboard.jsx:132-141 | The error path's seven zero entries; CollectEmptyTrends is the loop it specifies. |
| AdminDashboard.TotalSentiment | frontend/src/Components/AdminDashboard.jsx:116-119 | The total of today's positive, negative and neutral counts, each 0 when absent; SentimentDataSpec states that the pie's slices add up to it. |
| AdminDashboard.SliceSum | frontend/src/Components/AdminDashboard.jsx:171-175 | The sum of the slices' values; SliceSumAppend and SentimentDataSpec state its properties. |
| AdminDashboard.MetricsOf | frontend/src/Components/AdminDashboard.jsx:116-128 | The metric cards after today's request: its sentiment (zeros when absent), its user count, the sentiment total and its conversations; DashboardPage.FetchAnalytics ensures the page takes it. |
| AdminDashboardSimple.FilteredSpec | frontend/src/Components/AdminDashboardSimple.jsx:130-134 | "all" keeps every conversation. Any other filter keeps, in order, exactly those whose sentiment (neutral when absent) equals it up to case. |
| AdminDashboardSimple.CategoriesSpec | frontend/src/Components/AdminDashboardSimple.jsx:144-153 | The categories are listed without repeats, and a category is listed exactly when some conversation falls in it. |
| AdminDashboardSimple.CountInAbsent | frontend/src/Components/AdminDashboardSimple.jsx:144-148 | A category no conversation falls in counts 0. |
| AdminDashboardSimple.SumCountsStep | frontend/src/Components/AdminDashboardSimple.jsx:144-148 | Adding one conversation adds one to the summed counts when its category is listed. |
| AdminDashboardSimple.SumCountsAppend | frontend/src/Components/AdminDashboardSimple.jsx:144-153 | Listing one more category adds its count. |
| AdminDashboardSimple.SumIsSumCounts | frontend/src/Components/AdminDashboardSimple.jsx:150-153 | The chart's values add up to the summed counts of its categories. |
| AdminDashboardSimple.SumCountsAll | frontend/src/Components/AdminDashboardSimple.jsx:144-148 | Over all the listed categories the counts add up to the number of conversations. |
| AdminDashboardSimple.CategoryDataSpec | frontend/src/Components/AdminDashboardSimple.jsx:144-153 | Each category is listed once, in order of first appearance, with its number of conversations (a missing category counts as "Unknown"). A category is listed exactly when some conversation is in it, and the counts add up to the number of conversations. |
| AdminDashboardSimple.CategoryData | frontend/src/Components/AdminDashboardSimple.jsx:144-153 | The category chart data; CategoryDataSpec states its properties. |
| AdminDashboardSimple.HourlySpec | frontend/src/Components/AdminDashboardSimple.jsx:157-167 | There are twelve buckets, for the hours 8 to 19 in order. Each counts exactly the conversations of its hour, never more than there are. |
| AdminDashboardSimple.HourlyData | frontend/src/Components/AdminDashboardSimple.jsx:157-167 | The hourly chart data; HourlySpec states its properties. |
| AdminDashboardSimple.ChartData | frontend/src/Components/AdminDashboardSimple.jsx:137-141 | The chart has Positive, Neutral and Negative in that order, each with its count or 0. |
| AdminDashboardSimple.SentimentColor | frontend/src/Components/AdminDashboardSimple.jsx:113-119 | Positive is green and negative red, whatever the case. Anything else is amber, an absent sentiment included. |
| AdminDashboardSimple.SentimentIcon | frontend/src/Components/AdminDashboardSimple.jsx:121-127 | The happy face means exactly positive and the sad face exactly negative, whatever the case. |
| AdminDashboardSimple.IconMatchesColor | frontend/src/Components/AdminDashboardSimple.jsx:113-127 | A row's icon and colour always agree. |
| AdminDashboardSimple.ToggleRowSpec | frontend/src/Components/AdminDashboardSimple.jsx:106-111 | A toggle flips only the given row, and two toggles give back whether it was expanded. |
| AdminDashboardSimple.ToggleRow | frontend/src/Components/AdminDashboardSimple.jsx:106-111 | The expanded-row toggle; ToggleRowSpec states its properties. |
| AdminDashboardSimple.SimpleDashboard.constructor | frontend/src/Components/AdminDashboardSimple.jsx:69-76 | The page starts loading, filtered on "all", with zero analytics and no expanded rows. |
| AdminDashboardSimple.SimpleDashboard.FetchAnalytics | frontend/src/Components/AdminDashboardSimple.jsx:85-104 | A response replaces the analytics, each part defaulting when absent; a failure keeps them. Loading ends. |
| AdminDashboardSimple.SimpleDashboard.HandleToggleRow | frontend/src/Components/AdminDashboardSimple.jsx:106-111 | The row's flag flips and nothing else changes. |
| AdminDashboardSimple.SentimentOf | frontend/src/Components/AdminDashboardSimple.jsx:133 | A conversation's sentiment, "neutral" when absent or empty; FilteredSpec states the filter through it. |
| AdminDashboardSimple.Filtered | frontend/src/Components/AdminDashboardSimple.jsx:130-134 | The conversations the sentiment filter shows; FilteredSpec states which are kept. |
| AdminDashboardSimple.CategoryOf | frontend/src/Components/AdminDashboardSimple.jsx:145 | A conversation's category, "Unknown" when absent or empty; CategoryDataSpec states the chart through it. |
| AdminDashboardSimple.Categories | frontend/src/Components/AdminDashboardSimple.jsx:144-153 | The categories in the order they first appear; CategoriesSpec states that they are distinct and exactly those present. |
| AdminDashboardSimple.CountIn | frontend/src/Components/AdminDashboardSimple.jsx:144-148 | The number of conversations in a category; CountInAbsent, SumCountsAll and CategoryDataSpec state its properties. |
| AdminDashboardSimple.AtHour | frontend/src/Components/AdminDashboardSimple.jsx:159-162 | The conversations of one hour; HourlySpec states which they are. |
| ConversationLogs.NormalizeSentiment | frontend/src/Components/ConversationLogs.jsx:107-110 | The normalised sentiment is never empty and has no capital letters. |
| ConversationLogs.NormalizeIdempotent | frontend/src/Components/ConversationLogs.jsx:107-110 | Normalising twice is normalising once, and a sentiment that differs only in case normalises the same. |
| ConversationLogs.SentimentColor | frontend/src/Components/ConversationLogs.jsx:113-116 | Positive and negative get their colours; any other normalised sentiment gets the neutral colour. |
| ConversationLogs.SentimentIcon | frontend/src/Components/ConversationLogs.jsx:119-122 | The happy icon means exactly positive, the sad one exactly negative, the neutral one anything else. |
| ConversationLogs.FallbackIsNeutral | frontend/src/Components/ConversationLogs.jsx:107-122 | A missing, empty or unknown sentiment gets the neutral colour and icon, whatever its case. |
| ConversationLogs.FilteredSpec | frontend/src/Components/ConversationLogs.jsx:125-129 | "all" keeps every conversation. Any other filter keeps exactly those whose normalised sentiment is the lower-cased filter, so case in the filter does not matter. |
| ConversationLogs.Filtered | frontend/src/Components/ConversationLogs.jsx:125-129 | The sentiment filter; FilteredSpec and FilteredKeepsOrder state its properties. |
| ConversationLogs.FilteredKeepsOrder | frontend/src/Components/ConversationLogs.jsx:125-129 | Filtering keeps order: the filter of a concatenation is the concatenation of the filters. |
| ConversationLogs.LabelSpec | frontend/src/Components/ConversationLogs.jsx:296 | The chip label is the normalised sentiment with its first character upper-cased. Lower-casing it gives the normalised sentiment back; an absent sentiment reads "Neutral". |
| ConversationLogs.ConversationLogsPage.constructor | frontend/src/Components/ConversationLogs.jsx:55-62 | The page starts loading, on "today" and "all", with no conversations, no error and no dialog. |
| ConversationLogs.ConversationLogsPage.FetchConversations | frontend/src/Components/ConversationLogs.jsx:68-86 | The error is cleared first. A response replaces the conversations and the counts (empty when absent); a failure keeps them and sets the error. Loading ends. |
| ConversationLogs.ConversationLogsPage.ViewDetails | frontend/src/Components/ConversationLogs.jsx:88-91 | The conversation is selected and the dialog opens. |
| ConversationLogs.ConversationLogsPage.CloseDialog | frontend/src/Components/ConversationLogs.jsx:93-96 | The dialog closes and the selection is dropped. |
| ConversationLogs.Label | frontend/src/Components/ConversationLogs.jsx:296 | The sentiment chip's label; LabelSpec states that it is the normalised sentiment with its first character upper-cased. |
| EscalatedQueriesPage.FilterQueriesSpec | frontend/src/Components/EscalatedQueries.jsx:104-110 | The "all" tab shows every query. Any other tab shows, in order, exactly the queries with that status, so two different status tabs never share a query. |
| EscalatedQueriesPage.FilterQueries | frontend/src/Components/EscalatedQueries.jsx:104-110 | The queries shown under a tab; FilterQueriesSpec states its properties. |
| EscalatedQueriesPage.StatusLabelSpec | frontend/src/Components/EscalatedQueries.jsx:312 | The label is the status upper-cased, except that its first "_", and only that one, becomes a space. |
| EscalatedQueriesPage.StatusLabel | frontend/src/Components/EscalatedQueries.jsx:312 | The chip label; StatusLabelSpec states its properties. |
| EscalatedQueriesPage.StatusLabelExamples | frontend/src/Components/EscalatedQueries.jsx:312 | "in_progress" reads "IN PROGRESS" and "pending" reads "PENDING". A second "_" stays. |
| EscalatedQueriesPage.EscalatedQueriesView.constructor | frontend/src/Components/EscalatedQueries.jsx:56-70 | The page starts loading, on the "all" tab, with no queries, a zero summary and nothing sent. |
| EscalatedQueriesPage.EscalatedQueriesView.FetchQueries | frontend/src/Components/EscalatedQueries.jsx:77-102 | A response replaces the queries and the summary (zeros when absent). A failure keeps them and sets the server's error or the default. The shown list is the filter of the current tab. |
| EscalatedQueriesPage.EscalatedQueriesView.SelectTab | frontend/src/Components/EscalatedQueries.jsx:104-110 | A tab change shows the filter of the new tab. |
| EscalatedQueriesPage.EscalatedQueriesView.ViewDetails | frontend/src/Components/EscalatedQueries.jsx:112-117 | The dialog opens on the query, with its status and notes ("" when absent) ready to edit. |
| EscalatedQueriesPage.EscalatedQueriesView.CloseDialog | frontend/src/Components/EscalatedQueries.jsx:119-124 | The dialog closes and its selection, status and notes are reset. |
| EscalatedQueriesPage.EscalatedQueriesView.UpdateStatus | frontend/src/Components/EscalatedQueries.jsx:126-157 | Without a selection nothing happens. When the token lookup throws, no PUT goes out and the default error is set. Otherwise one PUT goes out with the query's key and the edited status and notes. On success the list is reloaded and the dialog closed. On failure the server's error, or the default, is set and the dialog stays open. |
| EscalatedQueriesPage.InProgressLabel | frontend/src/Components/EscalatedQueries.jsx:312 | "in_progress" reads "IN PROGRESS". |
| EscalatedQueriesPage.PendingLabel | frontend/src/Components/EscalatedQueries.jsx:312 | "pending" reads "PENDING". |
| EscalatedQueriesPage.SecondUnderscoreStays | frontend/src/Components/EscalatedQueries.jsx:312 | Only the first underscore becomes a space: "a_b_c" reads "A B_C". |
| Auth.Obtain | frontend/src/utilities/auth.js:16-40 | A token obtained is never empty. |
| Auth.ObtainSpec | frontend/src/utilities/auth.js:16-40 | The plain fetch counts only when the forced refresh raised. A refresh that answers decides the result alone: its token if it has one, else the "no token" error. When both fetches raise, the plain fetch's error is the result. |
| Auth.FetchToken | frontend/src/utilities/auth.js:8-88 | In guest mode the guest token comes back and no session fetch is made. Otherwise the result is the one described above, and a token obtained is stored under its kind's key. The plain fetch is made only after the refresh raised. |
| Auth.GetIdToken | frontend/src/utilities/auth.js:8-45 | In guest mode the result is the guest token. Otherwise a fetched id token is stored under "idToken". |
| Auth.GetAccessToken | frontend/src/utilities/auth.js:51-88 | In guest mode the result is the guest token. Otherwise a fetched access token is stored under "accessToken". |
| Auth.IsAuthenticated | frontend/src/utilities/auth.js:94-98 | A user is authenticated exactly in guest mode or with a non-empty stored id token. |
| Auth.Authenticated | frontend/src/utilities/auth.js:94-98 | Guest mode or a non-empty stored id token; IsAuthenticated, LogoutSpec and StoredIdTokenAuthenticates state its properties. |
| Auth.Logout | frontend/src/utilities/auth.js:103-116 | Whether or not sign-out raised, the access token, the id token and the guest flag are removed and nothing else. |
| Auth.LogoutSpec | frontend/src/utilities/auth.js:94-116 | After logout nobody is authenticated, and every other stored item is kept. |
| Auth.StoredIdTokenAuthenticates | frontend/src/utilities/auth.js:94-98 | Storing a fetched id token makes the user authenticated; storing an access token alone does not. |
| Auth.KeyOf | frontend/src/utilities/auth.js:8-88 | The storage key of a token kind: "idToken" or "accessToken"; GetIdToken and GetAccessToken state what is stored under it. |
| Auth.GotToken | frontend/src/utilities/auth.js:16-40 | A session fetch that yields a non-empty token; ObtainSpec states which fetch decides. |
| AdminLogin.DisplayName | frontend/src/Components/AdminLogin.jsx:89-91 | The name is the part of the e-mail before the first '@', or "Admin" when that part is empty. It is never empty and has no '@'. |
| AdminLogin.Utf16LengthBmp | frontend/src/Components/AdminLogin.jsx:79 | Within the Basic Multilingual Plane the JavaScript length is the number of characters. |
| AdminLogin.PasswordRule | frontend/src/Components/AdminLogin.jsx:79-82 | Eight characters or more always pass and fewer than four always fail. Within the Basic Multilingual Plane the rule is exactly "at least 8". |
| AdminLogin.LoginForm.constructor | frontend/src/Components/AdminLogin.jsx:32-36 | The form starts empty, with no error, no new-password form and no navigation. |
| AdminLogin.LoginForm.HandleLogin | frontend/src/Components/AdminLogin.jsx:39-75 | Once signed in with both tokens, they are stored and the dashboard opens. The new-password step shows its form. An error shows its message or "Authentication failed". |
| AdminLogin.LoginForm.HandleNewPasswordSubmit | frontend/src/Components/AdminLogin.jsx:77-120 | A short password is refused before any request. Otherwise the request carries the display name and "User". A session with both tokens opens the dashboard; one without goes back to sign-in. An error shows its message or the default. |
| AdminLogin.LoginForm.ContinueAsGuest | frontend/src/Components/AdminLogin.jsx:290-296 | The guest button turns guest mode on, stores the guest token as both tokens and opens the dashboard. |
| AdminLogin.HasBothTokens | frontend/src/Components/AdminLogin.jsx:59-62 | A session with both an access token and an id token, each non-empty; LoginForm.HandleLogin and HandleNewPasswordSubmit state what follows from it. |
| AdminLogin.StoreTokens | frontend/src/Components/AdminLogin.jsx:62-64 | The stored items after both tokens are written; LoginForm.HandleLogin and HandleNewPasswordSubmit ensure the storage takes them. |
| AdminLogin.PasswordTooShort | frontend/src/Components/AdminLogin.jsx:79 | An empty password or one under eight UTF-16 code units; PasswordRule states which lengths pass. |
| RoleSelector.StoredRole | frontend/src/Components/RoleSelector.jsx:71-72 | A restored guest role is never empty. |
| RoleSelector.SaveThenRestore | frontend/src/Components/RoleSelector.jsx:69-122 | A role saved on the guest path is the one the next mount restores. |
| RoleSelector.RoleSelectorView.constructor | frontend/src/Components/RoleSelector.jsx:53-56 | The picker starts with no role, no error and nothing selected or posted. |
| RoleSelector.RoleSelectorView.Notify | frontend/src/Components/RoleSelector.jsx:76-78 | The callback runs only when one was passed. |
| RoleSelector.RoleSelectorView.FetchExistingProfile | frontend/src/Components/RoleSelector.jsx:64-104 | On the guest path a stored role is restored and passed on. Otherwise the id token is fetched and a non-empty profile role is treated the same way. Failures change nothing, and loading ends. |
| RoleSelector.RoleSelectorView.Mount | frontend/src/Components/RoleSelector.jsx:58-62 | When localStorage is to be skipped, mounting changes nothing; otherwise it has exactly the effect of fetching the existing profile: a stored guest role, or the profile's role once a token is obtained, becomes the existing and selected role and is passed to the callback, and the error and posted roles stay as they were. |
| RoleSelector.RoleSelectorView.SaveRole | frontend/src/Components/RoleSelector.jsx:106-157 | Without a role only the error is set. On the guest path the role and time are stored (unless skipped) and the callback runs. Otherwise the role is posted, the callback runs on success, and a failure sets the server's error or the default. |
| RoleSelector.GuestPath | frontend/src/Components/RoleSelector.jsx:69-70 | Guest mode on, or no or an empty id token; SaveThenRestore and RoleSelectorView.FetchExistingProfile state what the path does. |
| RoleSelector.SaveItems | frontend/src/Components/RoleSelector.jsx:121-122 | The role and its timestamp as a guest save writes them; SaveThenRestore states that the next mount restores the role. |
| ChatHeader.Language | frontend/src/Components/ChatHeader.jsx:17 | The language shown is the one passed in if non-empty, else the context's if non-empty, else "EN". |
| ChatHeader.Toggled | frontend/src/Components/ChatHeader.jsx:21 | A toggle always gives "EN" or "ES". |
| ChatHeader.ToggleSpec | frontend/src/Components/ChatHeader.jsx:20-29 | The toggle alternates between EN and ES, and any other language goes to EN. |
| ChatHeader.ToggleShows | frontend/src/Components/ChatHeader.jsx:17-29 | After a toggle the header shows the new language unless a language was passed in, which still wins. |
| ChatHeader.RoleSwitcherSpec | frontend/src/Components/ChatHeader.jsx:149 | The role switcher shows exactly when there is a non-empty role and a change handler. |
| ChatHeader.Header.constructor | frontend/src/Components/ChatHeader.jsx:14-17 | The header keeps its props and the context's language. |
| ChatHeader.Header.HandleLanguageToggle | frontend/src/Components/ChatHeader.jsx:20-29 | The toggled language goes to the context and to storage, and the callback runs when there is one. |
| ChatHeader.ShowsRoleSwitcher | frontend/src/Components/ChatHeader.jsx:149 | A non-empty role and a role-change handler; RoleSwitcherSpec states it. |
| ChatHeader.Header.Shown | frontend/src/Components/ChatHeader.jsx:17 | The language the header shows; ToggleShows and Header.HandleLanguageToggle state it after a toggle. |
| Logger.LevelValue | frontend/src/utilities/logger.js:6-11 | Exactly the four names ERROR, WARN, INFO and DEBUG have a level. |
| Logger.LevelsSpec | frontend/src/utilities/logger.js:6-13 | The levels run ERROR 0 < WARN 1 < INFO 2 < DEBUG 3. An absent or empty setting means INFO, and the setting is read whatever its case. An unknown name leaves the level undefined, so nothing is logged. |
| Logger.EnabledMonotone | frontend/src/utilities/logger.js:65-103 | A level lets a method through exactly when the method's level is at most it. A higher level lets through everything a lower one does, and ERROR always passes when the level is defined. |
| Logger.Enabled | frontend/src/utilities/logger.js:65-103 | Whether a level lets a method through; EnabledMonotone states its properties. |
| Logger.FormatSpec | frontend/src/utilities/logger.js:23-31 | The line is "[timestamp] [LEVEL] [context] " followed by the message, and the message can be read back after that prefix. |
| Logger.FormatMessage | frontend/src/utilities/logger.js:23-31 | The log line; FormatSpec states its properties. |
| Logger.Log.constructor | frontend/src/utilities/logger.js:16-18 | A logger keeps its context and starts with no output. |
| Logger.Log.SendToMonitoring | frontend/src/utilities/logger.js:36-60 | Outside production nothing reaches monitoring. |
| Logger.Log.Error | frontend/src/utilities/logger.js:65-71 | When ERROR is enabled, one formatted console.error line is written and one ERROR report goes to monitoring in production; otherwise nothing. |
| Logger.Log.Warn | frontend/src/utilities/logger.js:76-82 | When WARN is enabled, one formatted console.warn line is written and one WARN report goes to monitoring in production; otherwise nothing. |
| Logger.Log.Info | frontend/src/utilities/logger.js:87-93 | When INFO is enabled, one formatted console.info line is written and one INFO report goes to monitoring in production; otherwise nothing. |
| Logger.Log.Debug | frontend/src/utilities/logger.js:98-103 | When DEBUG is enabled, one formatted console.log line is written, and debug never reaches monitoring. |
| Logger.Log.TrackEvent | frontend/src/utilities/logger.js:108-126 | When INFO is enabled, an event logs the line "Event: name" as info does. |
| Logger.Log.Performance | frontend/src/utilities/logger.js:131-137 | When INFO is enabled, a metric logs "Performance: name" as info does, and in production it is reported as PERFORMANCE whatever the level. |
| Logger.CurrentLevel | frontend/src/utilities/logger.js:13 | The level of the environment setting, upper-cased, INFO when absent or empty, undefined for an unknown name; LevelsSpec states its properties. |
| AccessibleColors.StripHash | frontend/src/utilities/accessibleColors.js:81 | Only the first '#' is removed: a string without one is unchanged, and a leading one is dropped. |
| AccessibleColors.Substr | frontend/src/utilities/accessibleColors.js:82-84 | A substring is never longer than asked. |
| AccessibleColors.DigitValue | frontend/src/utilities/accessibleColors.js:82-84 | A hexadecimal digit is worth less than 16, and a non-zero digit more than 0. |
| AccessibleColors.HexPrefixSpec | frontend/src/utilities/accessibleColors.js:82-84 | The digits parseInt reads are the longest prefix of hexadecimal digits. |
| AccessibleColors.HexPrefix | frontend/src/utilities/accessibleColors.js:82-84 | The run of hexadecimal digits `parseInt(s, 16)` reads, never longer than the text; HexPrefixSpec states that it is the longest such prefix. |
| AccessibleColors.Byte | frontend/src/utilities/accessibleColors.js:82-84 | Two hexadecimal digits write a byte: at most 255. |
| AccessibleColors.ParseDigits | frontend/src/utilities/accessibleColors.js:82-84 | A text starting with a digit and no "0x" parses to the value of its leading digits. |
| AccessibleColors.ParseNaN | frontend/src/utilities/accessibleColors.js:82-84 | A text starting with a character that is not whitespace, a sign or a digit parses to NaN. |
| AccessibleColors.TwoDigits | frontend/src/utilities/accessibleColors.js:82-84 | Two hexadecimal digits parse to their byte value. |
| AccessibleColors.Channel | frontend/src/utilities/accessibleColors.js:82-84 | A channel of a six-digit colour is at most 255. |
| AccessibleColors.ChannelParses | frontend/src/utilities/accessibleColors.js:82-84 | Each channel of a six-digit colour parses to its byte value. |
| AccessibleColors.ContrastSpec | frontend/src/utilities/accessibleColors.js:79-88 | For "#rrggbb" the channels are the three byte values, and the text is dark exactly when 0.299r + 0.587g + 0.114b exceeds half of 255. |
| AccessibleColors.ContrastText | frontend/src/utilities/accessibleColors.js:79-88 | The text colour for a background; ContrastSpec, BrighterStaysDark, NoHash and NotAColour state its properties. |
| AccessibleColors.BrighterStaysDark | frontend/src/utilities/accessibleColors.js:85-87 | Making every channel brighter never turns dark text into white text. |
| AccessibleColors.NoHash | frontend/src/utilities/accessibleColors.js:81 | A colour written without '#' gets the same text colour as with it. |
| AccessibleColors.NotAColour | frontend/src/utilities/accessibleColors.js:82-87 | A colour whose first channel is not a number (NaN), and the empty string, get white text. |
| AccessibleColors.ParseHex | frontend/src/utilities/accessibleColors.js:82-84 | `parseInt(s, 16)`: leading whitespace, a sign, an optional "0x", then the longest run of hex digits, NaN when there is none; ParseDigits, ParseNaN and TwoDigits state its properties. |
| AccessibleColors.HexValue | frontend/src/utilities/accessibleColors.js:82-84 | The value of a run of hexadecimal digits; Byte and TwoDigits state its bounds and values. |
| AccessibleColors.Channels | frontend/src/utilities/accessibleColors.js:81-84 | The three channels read from characters 0-1, 2-3 and 4-5 after the first '#'; ChannelParses and ContrastSpec state their values. |
| AccessibleColors.Bright | frontend/src/utilities/accessibleColors.js:85-87 | The luminance test, false when a channel is NaN; ContrastSpec and BrighterStaysDark state its properties. |
| AccessibleColors.HashedChannels | frontend/src/utilities/accessibleColors.js:81-84 | For "#" and six hexadecimal digits the channels are the three byte values. |
| AccessibleColors.EmptyIsLight | frontend/src/utilities/accessibleColors.js:79-88 | The empty string gets white text. |
| ErrorBoundary.DerivedFromError | frontend/src/Components/ErrorBoundary.jsx:16-19 | The derived state holds an error and changes nothing else. |
| ErrorBoundary.Caught | frontend/src/Components/ErrorBoundary.jsx:32-42 | A catch holds the error and its info and counts one more error. The later test of the count changes nothing. |
| ErrorBoundary.Cleared | frontend/src/Components/ErrorBoundary.jsx:77-98 | Reload and go-home clear the error and its info but keep the count. |
| ErrorBoundary.Render | frontend/src/Components/ErrorBoundary.jsx:100-231 | The fallback shows exactly when an error is held, with details exactly in development when there is an error. |
| ErrorBoundary.RecoverySpec | frontend/src/Components/ErrorBoundary.jsx:8-98 | A fresh boundary shows its children. After a catch it shows the fallback, and after a reload it shows the children again, remembering the count. |
| ErrorBoundary.CatchAndReload | frontend/src/Components/ErrorBoundary.jsx:32-83 | After catches each followed by a reload, no error is held. |
| ErrorBoundary.CatchAndReloadCounts | frontend/src/Components/ErrorBoundary.jsx:32-83 | The count is the number of catches: it never resets. |
| ErrorBoundary.Boundary.constructor | frontend/src/Components/ErrorBoundary.jsx:6-14 | The boundary starts with no error and a count of 0. |
| ErrorBoundary.Boundary.GetDerivedStateFromError | frontend/src/Components/ErrorBoundary.jsx:16-19 | The state switches to the fallback. |
| ErrorBoundary.Boundary.ComponentDidCatch | frontend/src/Components/ErrorBoundary.jsx:21-43 | A catch logs to the console in development and reports to the service in production, then updates the state. |
| ErrorBoundary.Boundary.HandleReload | frontend/src/Components/ErrorBoundary.jsx:77-87 | Reload clears the error and reloads the page once. |
| ErrorBoundary.Boundary.HandleGoHome | frontend/src/Components/ErrorBoundary.jsx:89-98 | Go-home clears the error and goes to "/". |
| ErrorBoundary.Boundary.Shown | frontend/src/Components/ErrorBoundary.jsx:100-231 | What the boundary shows for its state; RecoverySpec and Render state it. |

## Left out

- AWS, Amplify and browser I/O are not modelled; each call is an input or a recorded output. This covers Bedrock, DynamoDB, SNS, API Gateway, Lambda invoke, Cognito, axios/fetch and the WebSocket transport.
- Concurrency and timing are not modelled: React batching, `setTimeout`/`setInterval`, `Promise.all`, the 30-second refresh, and the one-second delay before logout. Events arrive one at a time.
- ChatBody.ChatSession.OnMessage: matches in-flight messages by status, as the page does. Two overlapping turns would therefore share updates; the model runs one turn at a time and states this sharing rather than ruling it out.
- ChatBody: the effect that sends the landing page's initial question, auto-scrolling and the feedback POST are not modelled; they are navigation and I/O. `createMessageBlock` lives in a file outside this model; it is modelled by what the page relies on, a block with a fresh id.
- ManageDocuments.FormatSize: only the absent-size branch is modelled; the megabyte figure with `toFixed` is floating point.
- ManageDocuments.FormatDate: the locale formatting of a present date is not modelled.
- ManageDocuments: single-file delete, upload and download are not modelled. They are browser I/O (FileReader, base64, Blob, object URLs) with no logic beyond the bulk delete's.
- AccessibleColors.ContrastSpec: compares 299r + 587g + 114b with 127500 in exact integers. The source computes the same ratio in binary floating point, which may differ when the sum is exactly 127500.
- Feedback.StatsSpec: the percentages are exact ratios; the rounding to one decimal place, `round(…, 1)`, is not modelled.
- SessionLogs.RetrieveSessionLogs: `avg_satisfaction` and each conversation's `satisfaction_score` are floating point and are left out of the report. Their crash is lost with them: `float(score)` (retrieveSessionLogs/handler.py:170-171) raises on a truthy score that is not numeric, and `float(it.get("satisfaction_score", 50))` (line 210) raises on a null score. Both lie outside any `try`, so the invocation fails, and the model does not show that failure.
- AdminDashboard.DashboardPage.FetchAnalytics: `avg_satisfaction` and the fixed `avg_response_time` of 1.2 are floating point and are left out of the metrics. The trend's date label is an input, because its locale formatting is not modelled.
- AdminDashboardSimple.HourlySpec: each conversation's local hour is an input, because time zones are not modelled.
- Dates, clocks and identifiers are inputs: "now", `uuid4`, the Lambda request id and the ISO timestamps. `strptime` and `int()` are modelled for ASCII digits only; Unicode digits and underscores in numbers are not.
- Case mapping (`lower`, `upper`, `toLowerCase`, `toUpperCase`) is modelled for ASCII letters only.
- JavaScript property lookups are modelled as lookups of the key alone. Inherited prototype keys are not modelled, nor is the special ordering of integer-like keys in objects.
- ChatResponse.Request: `querytext` is a string, because the websocket handler only invokes the response function with the query it has already stripped.
- JSON values in request bodies and records are modelled as missing, null, strings and integers. Floats, booleans, lists and objects in those places are not modelled, nor is S3 record nesting that is not an object.
- A number stored in DynamoDB comes back from boto3 as a `decimal.Decimal`, which `json.dumps` refuses without a `default=`. The model states this failure where a stored number reaches the answer: the feedback statistics (500), the escalated-queries answers (500) and the session-logs report (an uncaught failure).
- EscalatedQueries.Query: only the timestamp and the status of a row are modelled; the row's other attributes are taken to be strings, so a number among them, which would give the same 500, is not modelled, nor is a numeric timestamp, which would make the sort raise.
- SessionLogs.Item: `session_id` is a string when present; a numeric one would make `session_id in str(msg_id)` (retrieveSessionLogs/handler.py:184) raise, and is not modelled.
- The error messages of Python exceptions are modelled as fixed texts where the handlers show them, not with CPython's exact wording.
- `get_ingestion_job_status` in kb-sync/handler.py is never called by the handler and is not modelled.
- Logger.Log: the `data` arguments reach the console but do not change the formatted line and are not recorded. The context is a constructor parameter, whose default is 'APP'. The body of `sendToMonitoring` is commented out in the source, so only the production test is modelled.
- ErrorBoundary.Boundary.ComponentDidCatch: the payload sent to the error service (user agent, URL, timestamp) is not recorded; only the error and its info are.
- The translation tables and the JSX rendering and styling are not modelled. `constants` and `LanguageContext` are not part of this model; they are taken as inputs.

## Findings

| source | as written | input that shows it | evidently intended | confidence | as-written member | corrected member |
|---|---|---|---|---|---|---|
| cdk_backend/lambda/chatResponseHandler/handler.py:163 | Line 163 rebinds the loop variable `chunk` to the last word group. The test at line 187 then looks for the substring "attribution" in that string and indexes it with a string key, raising TypeError. | A streamed chunk whose text is the word "attribution": the run raises and is retried. A chunk "Hello" cited to an S3 document: its citation is dropped. | Test and read the attribution of the agent event, not of the word group. | not executed | ChatResponse.AttributionRaisesExample | ChatResponse.IntendedNeverRaises |
| cdk_backend/lambda/streamingHandler/handler.py:99 | The handler returns `awslambda.stream_response(…)`, but `awslambda` is never imported or defined. The NameError is caught and answered with status 500. | Any query that is not blank. | Answer with the event stream of `stream_bedrock_response`. | not executed | Streaming.NeverStreams | Streaming.IntendedStreams |
| cdk_backend/lambda/feedback/handler.py:83 | Removing feedback deletes the key (message id, the current time). The stored record was written earlier, so nothing is deleted, yet the answer is "Feedback removed successfully". | Message "m1" has a thumbs-up stored at 10:00 and is removed at 10:05: the thumbs-up stays. | Delete the feedback stored for the message, whatever its timestamp. | not executed | Feedback.RemovalExample | Feedback.IntendedRemoval |
