/** The escalated-queries API: GET lists queries (or looks one up), PUT
    updates a query's status, OPTIONS answers the CORS preflight. */
module EscalatedQueries {
  import opened Common
  import opened Decimal
  import opened Sorting

  /** An escalated query as stored: the handler reads only its timestamp
      (a string, absent on some rows) and its status; `id` stands for the
      rest of the row. */
  datatype Query = Query(id: string, timestamp: Option<string>, status: Field)

  /** The GET parameters: query string `status` and `limit`, path `queryId`. */
  datatype ListParams = ListParams(status: Option<string>, limit: Option<string>, queryId: Option<string>)

  /** The fields of a PUT body, or a body that is not JSON. */
  datatype UpdateBody =
    | Malformed(message: string)
    | Parsed(queryId: Field, status: Field, adminNotes: Field, timestamp: Field)

  /** What the table returns to a read: rows, or the error it raises. */
  datatype Fetch = Rows(rows: seq<Query>) | Failed(message: string)

  /** The `update_item` call: the key and the new status and notes. */
  datatype UpdateCall = UpdateCall(queryId: Field, timestamp: Field, status: Field, adminNotes: Field)

  datatype Summary = Summary(pending: nat, inProgress: nat, resolved: nat)

  datatype Body =
    | Message(text: string)
    | Error(error: string)
    | Row(query: Query)
    | Listing(queries: seq<Query>, total: nat, summary: Summary)

  /** The answer, with the updates made; or an exception that escapes the
      handler, which API Gateway turns into its own error. */
  datatype EscResponse =
    | Response(statusCode: int, body: Body, updates: seq<UpdateCall>)
    | Crashed(message: string)

  const Statuses := ["pending", "in_progress", "resolved"]

  // ---------------------------------------------------------------------------
  // Python int() on a query string value

  predicate IsDigit(c: char) {
    '0' <= c <= '9'
  }

  function Digits(s: string): (n: nat)
    requires forall i :: 0 <= i < |s| ==> IsDigit(s[i])
    decreases |s|
  {
    if s == [] then 0
    else
      assert IsDigit(s[|s| - 1]);
      10 * Digits(s[..|s| - 1]) + (s[|s| - 1] as int - '0' as int)
  }

  /** `int(s)` for a string: optional surrounding whitespace, an optional
      sign, then one or more ASCII digits; None where `int` raises
      `ValueError`. */
  function ParseInt(s: string): (r: Option<int>)
  {
    var t := Trim(Py, s);
    if t == [] then None
    else
      var neg := t[0] == '-';
      var body := if t[0] == '-' || t[0] == '+' then t[1..] else t;
      if body == [] || !(forall i :: 0 <= i < |body| ==> IsDigit(body[i])) then None
      else
        var n: int := Digits(body);
        Some(if neg then -n else n)
  }

  lemma ParseIntOfDigits(s: string)
    requires s != [] && forall i :: 0 <= i < |s| ==> IsDigit(s[i])
    ensures ParseInt(s) == Some(Digits(s))
  {
    assert !IsSpace(Py, s[0]) && !IsSpace(Py, s[|s| - 1]);
    assert TrimLeft(Py, s) == s;
    assert TrimRight(Py, s) == s;
  }

  // ---------------------------------------------------------------------------
  // Listing

  /** Newest first by timestamp, a missing one counting as "". */
  function ByTimestamp(a: Query, b: Query): bool {
    StrLe(OrElse(b.timestamp, ""), OrElse(a.timestamp, ""))
  }

  lemma ByTimestampPreorder()
    ensures TotalPreorder(ByTimestamp)
  {
    forall a: Query, b: Query ensures ByTimestamp(a, b) || ByTimestamp(b, a) {
      StrLeTotal(OrElse(a.timestamp, ""), OrElse(b.timestamp, ""));
    }
    forall a: Query, b: Query, c: Query | ByTimestamp(a, b) && ByTimestamp(b, c) ensures ByTimestamp(a, c) {
      StrLeTrans(OrElse(c.timestamp, ""), OrElse(b.timestamp, ""), OrElse(a.timestamp, ""));
    }
  }

  /** The number of rows with status `s`. */
  function CountStatus(rows: seq<Query>, s: string): (n: nat)
    ensures n <= |rows|
    decreases |rows|
  {
    if rows == [] then 0 else (if rows[0].status == Str(s) then 1 else 0) + CountStatus(rows[1..], s)
  }

  /** Python `items[:limit]` for any integer limit. */
  function Slice(s: seq<Query>, limit: int): seq<Query> {
    if limit >= 0 then Take(s, limit)
    else if -limit < |s| then s[..|s| + limit]
    else []
  }

  /** The listing of the rows read with a given limit. */
  function ListingOf(rows: seq<Query>, limit: int): Body {
    var sorted := SortBy(rows, ByTimestamp);
    Listing(Slice(sorted, limit), |sorted|,
            Summary(CountStatus(sorted, "pending"), CountStatus(sorted, "in_progress"), CountStatus(sorted, "resolved")))
  }

  /** A body `json.dumps` can write: a status stored as a number comes
      back from the table as a `Decimal`. The other attributes of a row are
      strings. */
  predicate Serializable(b: Body) {
    match b
    case Row(q) => !q.status.Num?
    case Listing(qs, _, _) => forall q :: q in qs ==> !q.status.Num?
    case _ => true
  }

  /** `cors_response` inside the handler's `try`: the answer, or the caught
      `TypeError` of writing a `Decimal`, answered 500. */
  function Reply(statusCode: int, b: Body): (r: EscResponse)
    ensures r.Response? && r.updates == []
    ensures Serializable(b) <==> r == Response(statusCode, b, [])
    ensures !Serializable(b) ==> r == Response(500, Error(DecimalNotSerializable), [])
  {
    if Serializable(b) then Response(statusCode, b, []) else Response(500, Error(DecimalNotSerializable), [])
  }

  /** The text botocore refuses a `Limit` below 1 with. */
  function LimitRefused(limit: int): string {
    "Parameter validation failed:\nInvalid value for parameter Limit, value: " + IntToString(limit)
    + ", valid min value: 1"
  }

  /** The GET branch. `lookup` is the table's answer to the single-query
      read, `listing` its answer to the status query or the scan. */
  function Get(p: ListParams, lookup: Fetch, listing: Fetch): EscResponse {
    var limit := if p.limit.None? then Some(50) else ParseInt(p.limit.value);
    if limit.None? then Crashed("invalid literal for int() with base 10")
    else if OrElse(p.queryId, "") != "" then
      match lookup
      case Failed(m) => Response(500, Error(m), [])
      case Rows(rows) => if rows == [] then Response(404, Error("Query not found"), []) else Reply(200, Row(rows[0]))
    else if limit.value < 1 then Response(500, Error(LimitRefused(limit.value)), [])
    else
      match listing
      case Failed(m) => Response(500, Error(m), [])
      case Rows(rows) => Reply(200, ListingOf(rows, limit.value))
  }

  // ---------------------------------------------------------------------------
  // Updating

  /** `handle_update_query_status`. `failure` is the error `update_item`
      raises, if it does. */
  function Update(body: UpdateBody, failure: Option<string>): EscResponse {
    match body
    case Malformed(m) => Response(500, Error(m), [])
    case Parsed(id, status, notes, ts) =>
      if !Truthy(id) || !Truthy(status) then Response(400, Error("query_id and status are required"), [])
      else if !(status.Str? && status.s in Statuses) then Response(400, Error("Invalid status"), [])
      else
        var call := UpdateCall(id, if ts.Missing? then Null else ts, status, GetOr(notes, ""));
        match failure
        case Some(m) => Response(500, Error(m), [call])
        case None => Response(200, Message("Status updated successfully"), [call])
  }

  /** `lambda_handler`: OPTIONS, then PUT, and every other method as GET. */
  function EscalatedHandle(httpMethod: string, p: ListParams, lookup: Fetch, listing: Fetch,
                           body: UpdateBody, failure: Option<string>): EscResponse
  {
    if httpMethod == "OPTIONS" then Response(200, Message("OK"), [])
    else if httpMethod == "PUT" then Update(body, failure)
    else Get(p, lookup, listing)
  }

  // ---------------------------------------------------------------------------
  // Properties

  /** OPTIONS answers 200 and PUT goes to the update; any other method is
      a GET, which never updates. */
  lemma Dispatch(httpMethod: string, p: ListParams, lookup: Fetch, listing: Fetch,
                 body: UpdateBody, failure: Option<string>)
    ensures var r := EscalatedHandle(httpMethod, p, lookup, listing, body, failure);
      (httpMethod == "OPTIONS" ==> r == Response(200, Message("OK"), []))
      && (httpMethod == "PUT" ==> r == Update(body, failure))
      && (httpMethod != "OPTIONS" && httpMethod != "PUT" ==> r == Get(p, lookup, listing) && (r.Response? ==> r.updates == []))
  {
  }

  /** An update is made exactly when the id and the status are both truthy
      and the status is one of the three; otherwise the answer is 400 (or
      500 for a body that is not JSON). */
  lemma UpdateValidation(body: UpdateBody, failure: Option<string>)
    ensures var r := Update(body, failure);
      r.Response? && |r.updates| <= 1
      && (|r.updates| == 1 <==>
            body.Parsed? && Truthy(body.queryId) && body.status.Str? && body.status.s in Statuses)
      && (body.Parsed? && |r.updates| == 0 ==> r.statusCode == 400)
      && (|r.updates| == 1 ==>
            r.updates[0].status == body.status && r.updates[0].queryId == body.queryId
            && (r.statusCode == 200 <==> failure.None?))
  {
  }

  /** A single lookup that finds no row is 404, otherwise the first row,
      unless its status is a number, which makes the answer 500. */
  lemma SingleLookup(p: ListParams, rows: seq<Query>, listing: Fetch)
    requires p.queryId.Some? && p.queryId.value != "" && (p.limit.None? || ParseInt(p.limit.value).Some?)
    ensures var r := Get(p, Rows(rows), listing);
      (rows == [] ==> r == Response(404, Error("Query not found"), []))
      && (rows != [] && !rows[0].status.Num? ==> r == Response(200, Row(rows[0]), []))
      && (rows != [] && rows[0].status.Num? ==> r == Response(500, Error(DecimalNotSerializable), []))
  {
  }

  /** A listing: the total is the number of rows read; the summary counts
      by status add up to at most the total; the newest `limit` rows are
      returned (50 without a limit), newest first, so that no row left out
      is newer than one returned. */
  lemma ListingSpec(rows: seq<Query>, limit: int)
    requires limit >= 1
    ensures var b := ListingOf(rows, limit);
      b.total == |rows|
      && b.summary.pending + b.summary.inProgress + b.summary.resolved <= b.total
      && |b.queries| == (if limit < |rows| then limit else |rows|)
      && Sorted(b.queries, ByTimestamp)
      && multiset(b.queries) <= multiset(rows)
      && (forall q, d :: q in b.queries && d in multiset(rows) - multiset(b.queries) ==>
            StrLe(OrElse(d.timestamp, ""), OrElse(q.timestamp, "")))
  {
    ByTimestampPreorder();
    NewestRows(rows, limit);
    SortBySpec(rows, ByTimestamp);
    StatusesDisjoint(SortBy(rows, ByTimestamp));
  }

  /** The rows a positive limit keeps are the newest, newest first. */
  lemma NewestRows(rows: seq<Query>, limit: int)
    requires limit >= 1
    ensures var qs := Slice(SortBy(rows, ByTimestamp), limit);
      |qs| == (if limit < |rows| then limit else |rows|)
      && Sorted(qs, ByTimestamp) && multiset(qs) <= multiset(rows)
      && (forall q, d :: q in qs && d in multiset(rows) - multiset(qs) ==>
            StrLe(OrElse(d.timestamp, ""), OrElse(q.timestamp, "")))
  {
    ByTimestampPreorder();
    TakeSorted(rows, limit, ByTimestamp);
    SortBySpec(rows, ByTimestamp);
    var r := SortBy(rows, ByTimestamp);
    var qs := Slice(r, limit);
    assert qs == r[..|qs|];
    forall q, d | q in qs && d in multiset(rows) - multiset(qs)
      ensures StrLe(OrElse(d.timestamp, ""), OrElse(q.timestamp, ""))
    {
      assert ByTimestamp(q, d);
    }
  }

  lemma {:induction false} StatusesDisjoint(rows: seq<Query>)
    ensures CountStatus(rows, "pending") + CountStatus(rows, "in_progress") + CountStatus(rows, "resolved") <= |rows|
    decreases |rows|
  {
    if rows != [] { StatusesDisjoint(rows[1..]); }
  }

  /** Without a `limit` the listing keeps at most 50 queries. */
  lemma DefaultLimit(p: ListParams, rows: seq<Query>, lookup: Fetch)
    requires p.limit.None? && OrElse(p.queryId, "") == ""
    ensures Get(p, lookup, Rows(rows)) == Reply(200, ListingOf(rows, 50))
    ensures |ListingOf(rows, 50).queries| == if |rows| < 50 then |rows| else 50
  {
    NewestRows(rows, 50);
  }

  /** A listing answers 200 exactly when no query it returns has a numeric
      status; with a limit that covers every row read, one such row among
      them is enough for the 500 of the caught `TypeError`. */
  lemma NumericStatusFails(p: ListParams, lookup: Fetch, rows: seq<Query>)
    requires OrElse(p.queryId, "") == "" && p.limit.Some? && ParseInt(p.limit.value).Some?
    requires ParseInt(p.limit.value).value >= 1
    ensures var r := Get(p, lookup, Rows(rows)); var b := ListingOf(rows, ParseInt(p.limit.value).value);
      r.Response? && (r.statusCode == 200 <==> forall q :: q in b.queries ==> !q.status.Num?)
    ensures ParseInt(p.limit.value).value >= |rows| && (exists q :: q in rows && q.status.Num?) ==>
      Get(p, lookup, Rows(rows)) == Response(500, Error(DecimalNotSerializable), [])
  {
    var limit := ParseInt(p.limit.value).value;
    if limit >= |rows| {
      AllListed(rows, limit);
    }
  }

  /** A limit that covers every row read lists every row. */
  lemma AllListed(rows: seq<Query>, limit: int)
    requires limit >= |rows|
    ensures forall q :: q in rows ==> q in ListingOf(rows, limit).queries
  {
    ByTimestampPreorder();
    SortBySpec(rows, ByTimestamp);
    assert ListingOf(rows, limit).queries == SortBy(rows, ByTimestamp);
    forall q | q in rows ensures q in SortBy(rows, ByTimestamp) {
      assert q in multiset(rows);
    }
  }

  /** A limit that is not an integer escapes the handler before the table
      is read; one below 1 is refused by the client library with 500. */
  lemma BadLimits(p: ListParams, lookup: Fetch, listing: Fetch)
    requires p.limit.Some?
    ensures ParseInt(p.limit.value).None? ==> Get(p, lookup, listing).Crashed?
    ensures ParseInt(p.limit.value).Some? && ParseInt(p.limit.value).value < 1 && OrElse(p.queryId, "") == ""
      ==> Get(p, lookup, listing).Response? && Get(p, lookup, listing).statusCode == 500
  {
  }
}
