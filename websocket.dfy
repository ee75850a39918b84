/** The WebSocket route handler: `$connect` and `$disconnect` are accepted,
    `sendMessage` checks the query and hands a payload to the response
    function with one asynchronous invocation, and anything else is an
    unknown route. Every exception becomes a 500 answer carrying its
    message. */
module Websocket {
  import opened Common

  /** The fields of a `sendMessage` body that the handler reads, or a body
      that is not valid JSON (`json.loads` raises with `message`). */
  datatype MessageBody =
    | Malformed(message: string)
    | Parsed(querytext: Field, location: Field, sessionId: Field, userRole: Field)

  /** What the response function is invoked with. `None` for the connection
      id is JSON null; `location` is present only when the body's was truthy. */
  datatype EvaluatorPayload = EvaluatorPayload(
    querytext: string, connectionId: Option<string>, sessionId: Field, userRole: Field, location: Option<Field>)

  /** The answer: a status code, the `error` of the JSON body when there is
      one, and the invocations made. */
  datatype WsResponse = WsResponse(statusCode: int, error: Option<string>, invoked: seq<EvaluatorPayload>)

  const EmptyQuery := "Empty query received"
  const UnknownRoute := "Unknown route"

  /** The message of the `AttributeError` raised by calling `.strip()` on a
      JSON value that is not a string. */
  function NoStrip(f: Field): string {
    match f
    case Null => "'NoneType' object has no attribute 'strip'"
    case _ => "'int' object has no attribute 'strip'"
  }

  /** Python `d.get(k)`: an absent key reads as None, like JSON null. */
  function Get(f: Field): (r: Field)
    ensures !r.Missing? && (f.Missing? || f.Null? <==> r.Null?)
    ensures !f.Missing? ==> r == f
  {
    if f.Missing? then Null else f
  }

  /** A string, or the message of the exception raised computing it. */
  datatype Result = Ok(text: string) | Err(message: string)

  /** The query of a body: `body.get('querytext', '').strip()`, or the
      error message when the value has no `strip`. */
  function QueryOf(q: Field): (r: Result)
    ensures r.Ok? <==> q.Missing? || q.Str?
    ensures q.Str? ==> r == Ok(Trim(Py, q.s))
    ensures q.Missing? ==> r == Ok("")
  {
    match q
    case Missing => Ok("")
    case Str(s) => Ok(Trim(Py, s))
    case _ => Err(NoStrip(q))
  }

  /** The payload built for a query that passed the check: the required
      fields, then `location` added only when it is truthy. */
  function PayloadOf(query: string, connectionId: Option<string>, body: MessageBody): (p: EvaluatorPayload)
    requires body.Parsed?
    ensures p.querytext == query && p.connectionId == connectionId
    ensures p.sessionId == Get(body.sessionId) && p.userRole == GetOr(body.userRole, "guest")
    ensures p.location.Some? <==> Truthy(body.location)
    ensures p.location.Some? ==> p.location.value == body.location
  {
    var p := EvaluatorPayload(query, connectionId, Get(body.sessionId), GetOr(body.userRole, "guest"), None);
    if Truthy(body.location) then p.(location := Some(body.location)) else p
  }

  /** `lambda_handler`. `invokeFailure` is the error the invocation raises,
      if it does. */
  function WebsocketHandle(routeKey: Option<string>, connectionId: Option<string>, body: MessageBody,
                           invokeFailure: Option<string>): WsResponse
  {
    if routeKey == Some("$connect") || routeKey == Some("$disconnect") then WsResponse(200, None, [])
    else if routeKey == Some("sendMessage") then
      match body
      case Malformed(m) => WsResponse(500, Some(m), [])
      case Parsed(q, _, _, _) =>
        match QueryOf(q)
        case Err(m) => WsResponse(500, Some(m), [])
        case Ok(query) =>
          if query == "" then WsResponse(500, Some(EmptyQuery), [])
          else
            match invokeFailure
            case Some(m) => WsResponse(500, Some(m), [])
            case None => WsResponse(200, None, [PayloadOf(query, connectionId, body)])
    else WsResponse(400, Some(UnknownRoute), [])
  }

  // ---------------------------------------------------------------------------
  // Properties

  /** Connecting and disconnecting answer 200 and invoke nothing. */
  lemma ConnectionRoutes(routeKey: Option<string>, connectionId: Option<string>, body: MessageBody,
                         invokeFailure: Option<string>)
    requires routeKey == Some("$connect") || routeKey == Some("$disconnect")
    ensures WebsocketHandle(routeKey, connectionId, body, invokeFailure) == WsResponse(200, None, [])
  {
  }

  /** Any route other than the three known ones answers 400 "Unknown route"
      and invokes nothing; the known ones never do. */
  lemma UnknownRoutes(routeKey: Option<string>, connectionId: Option<string>, body: MessageBody,
                      invokeFailure: Option<string>)
    ensures var r := WebsocketHandle(routeKey, connectionId, body, invokeFailure);
      (r == WsResponse(400, Some(UnknownRoute), []))
        <==> routeKey !in {Some("$connect"), Some("$disconnect"), Some("sendMessage")}
  {
    var r := WebsocketHandle(routeKey, connectionId, body, invokeFailure);
    if routeKey == Some("sendMessage") {
      assert r.statusCode != 400;
    }
  }

  /** A `sendMessage` whose query is missing or all whitespace answers 500
      with "Empty query received" and invokes nothing. */
  lemma BlankQueryNotInvoked(connectionId: Option<string>, body: MessageBody, invokeFailure: Option<string>)
    requires body.Parsed? && (body.querytext.Missing? || (body.querytext.Str? && Blank(Py, body.querytext.s)))
    ensures WebsocketHandle(Some("sendMessage"), connectionId, body, invokeFailure)
      == WsResponse(500, Some(EmptyQuery), [])
  {
    if body.querytext.Str? {
      TrimEmptyIffBlank(Py, body.querytext.s);
    }
  }

  /** The response function is invoked at most once, and exactly when the
      route is `sendMessage`, the query is a string that is not all
      whitespace and the invocation goes through; the answer is then 200.
      The payload carries the stripped query, which is non-empty and
      already stripped, the connection id, the session id and the role
      ("guest" when absent), and a location exactly when the body's is
      truthy. */
  lemma InvokedOnce(routeKey: Option<string>, connectionId: Option<string>, body: MessageBody,
                    invokeFailure: Option<string>)
    ensures var r := WebsocketHandle(routeKey, connectionId, body, invokeFailure);
      |r.invoked| <= 1
      && (|r.invoked| == 1 <==>
            routeKey == Some("sendMessage") && body.Parsed? && body.querytext.Str?
            && !Blank(Py, body.querytext.s) && invokeFailure.None?)
      && (|r.invoked| == 1 ==>
            var p := r.invoked[0];
            r.statusCode == 200 && r.error.None?
            && p.querytext == Trim(Py, body.querytext.s) && p.querytext != ""
            && Trim(Py, p.querytext) == p.querytext
            && p.connectionId == connectionId
            && p.sessionId == Get(body.sessionId)
            && p.userRole == GetOr(body.userRole, "guest")
            && (p.location.Some? <==> Truthy(body.location)))
  {
    if body.Parsed? && body.querytext.Str? {
      TrimEmptyIffBlank(Py, body.querytext.s);
      TrimIdempotent(Py, body.querytext.s);
    }
  }

  /** Every answer other than 200 carries an error message, and every 200
      answer none. */
  lemma ErrorsCarryMessages(routeKey: Option<string>, connectionId: Option<string>, body: MessageBody,
                            invokeFailure: Option<string>)
    ensures var r := WebsocketHandle(routeKey, connectionId, body, invokeFailure);
      (r.statusCode == 200 <==> r.error.None?) && r.statusCode in {200, 400, 500}
  {
  }
}
