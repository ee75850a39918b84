/** The feedback API: POST records a thumbs-up or thumbs-down on a bot
    message (or removes it when the feedback is null), GET returns counts
    over the stored feedback, OPTIONS answers the CORS preflight. The
    feedback table is a map from its key, the message id and the write
    timestamp, to the stored record. */
module Feedback {
  import opened Common
  import opened Decimal

  /** The fields of a POST body, or a body that is not JSON. */
  datatype FeedbackBody =
    | Malformed(reason: string)
    | Parsed(messageId: Field, sessionId: Field, feedback: Field, message: Field)

  datatype Key = Key(messageId: string, timestamp: string)

  /** A stored record: `message_preview` is the first 200 characters of the
      message; `created_at` equals the key's timestamp. */
  datatype Record = Record(sessionId: Field, feedback: Field, messagePreview: string)

  type Table = map<Key, Record>

  datatype Answer =
    | Removed(messageId: string)
    | Submitted(messageId: string, feedback: Field)
    | Stats(total: nat, positive: nat, negative: nat, positivePercentage: real, negativePercentage: real,
            recent: seq<Record>)
    | Error(error: string)
    | Preflight
    | NotAllowed

  datatype Outcome = Outcome(statusCode: int, answer: Answer, table: Table)

  /** `message_id` after the handler's conversion: `str()` of any present
      value, None for an absent or null one. */
  function MessageIdOf(f: Field): (r: Option<string>)
    ensures r.None? <==> f.Missing? || f.Null?
    ensures f.Str? ==> r == Some(f.s)
  {
    match f
    case Missing => None
    case Null => None
    case Str(s) => Some(s)
    case Num(n) => Some(IntToString(n))
  }

  /** `message[:200] if message else ''`, or the error of slicing a number. */
  function PreviewOf(f: Field): (r: Result<string>)
    ensures f.Str? ==> r == Ok(Take(f.s, 200))
  {
    match f
    case Str(s) => Ok(Take(s, 200))
    case Num(n) => if n == 0 then Ok("") else Fail("'int' object is not subscriptable")
    case _ => Ok("")
  }

  datatype Result<T> = Ok(value: T) | Fail(message: string)

  const SubmitFailed := "Failed to submit feedback: "

  /** `handle_submit_feedback` as written. `now` is the ISO timestamp of the
      call; `deleteFailure` and `putFailure` are the errors the two table
      calls raise, if they do. A null feedback deletes the record keyed by
      the message id and `now`; if that delete raises, a record with null
      feedback is written instead. */
  function Submit(t: Table, body: FeedbackBody, now: string, deleteFailure: Option<string>,
                  putFailure: Option<string>): Outcome
  {
    match body
    case Malformed(m) => Outcome(500, Error(SubmitFailed + m), t)
    case Parsed(mid, sid, fb, msg) =>
      var id := MessageIdOf(mid);
      if id.None? || id.value == "" || !Truthy(sid) then
        Outcome(400, Error("messageId and sessionId are required"), t)
      else if (fb.Missing? || fb.Null?) && deleteFailure.None? then
        Outcome(200, Removed(id.value), t - {Key(id.value, now)})
      else
        match PreviewOf(msg)
        case Fail(m) => Outcome(500, Error(SubmitFailed + m), t)
        case Ok(preview) =>
          var feedback := if fb.Missing? then Null else fb;
          match putFailure
          case Some(m) => Outcome(500, Error(SubmitFailed + m), t)
          case None =>
            Outcome(200, Submitted(id.value, feedback), t[Key(id.value, now) := Record(sid, feedback, preview)])
  }

  /** The records stored for a message. */
  function RecordsOf(t: Table, id: string): set<Key> {
    set k | k in t && k.messageId == id
  }

  /** The removal as the handler's comment describes it: every record of
      the message is deleted. */
  function SubmitIntended(t: Table, body: FeedbackBody, now: string, deleteFailure: Option<string>,
                          putFailure: Option<string>): Outcome
  {
    match body
    case Parsed(mid, sid, fb, _) =>
      var id := MessageIdOf(mid);
      if id.Some? && id.value != "" && Truthy(sid) && (fb.Missing? || fb.Null?) && deleteFailure.None? then
        Outcome(200, Removed(id.value), t - RecordsOf(t, id.value))
      else Submit(t, body, now, deleteFailure, putFailure)
    case _ => Submit(t, body, now, deleteFailure, putFailure)
  }

  /** As written, removing feedback reports success but deletes nothing
      when no record was written at this very timestamp: the earlier
      feedback of the message stays in the table. */
  lemma RemovalKeepsFeedback(t: Table, body: FeedbackBody, now: string)
    requires body.Parsed? && (body.feedback.Missing? || body.feedback.Null?)
    requires MessageIdOf(body.messageId).Some? && MessageIdOf(body.messageId).value != "" && Truthy(body.sessionId)
    requires forall k :: k in t ==> k.timestamp != now
    ensures var o := Submit(t, body, now, None, None);
      o.answer.Removed? && o.statusCode == 200 && o.table == t
  {
    var id := MessageIdOf(body.messageId).value;
    assert Key(id, now) !in t;
  }

  /** A concrete case: the message "m1" has a thumbs-up stored at an earlier
      time; removing it answers "removed" and the thumbs-up is still there. */
  lemma RemovalExample(t: Table, body: FeedbackBody)
    requires t == map[Key("m1", "2024-05-01T10:00:00") := Record(Str("s1"), Str("positive"), "hi")]
    requires body == Parsed(Str("m1"), Str("s1"), Null, Missing)
    ensures var o := Submit(t, body, "2024-05-01T10:05:00", None, None);
      o.answer == Removed("m1") && o.table[Key("m1", "2024-05-01T10:00:00")].feedback == Str("positive")
  {
    assert Key("m1", "2024-05-01T10:05:00") != Key("m1", "2024-05-01T10:00:00");
  }

  /** As intended, a removal leaves no record of the message and every
      other record as it was. */
  lemma IntendedRemoval(t: Table, body: FeedbackBody, now: string)
    requires body.Parsed? && (body.feedback.Missing? || body.feedback.Null?)
    requires MessageIdOf(body.messageId).Some? && MessageIdOf(body.messageId).value != "" && Truthy(body.sessionId)
    ensures var o := SubmitIntended(t, body, now, None, None); var id := MessageIdOf(body.messageId).value;
      o.answer == Removed(id)
      && (forall k :: k in o.table ==> k.messageId != id)
      && (forall k :: k in t && k.messageId != id ==> k in o.table && o.table[k] == t[k])
  {
  }

  /** A submission needs a message id that is non-empty once converted to
      text (so the number 0 is accepted) and a truthy session id; without
      them nothing is written. */
  lemma SubmitValidation(t: Table, body: FeedbackBody, now: string, deleteFailure: Option<string>,
                         putFailure: Option<string>)
    requires body.Parsed?
    ensures var o := Submit(t, body, now, deleteFailure, putFailure);
      var id := MessageIdOf(body.messageId);
      (o.statusCode == 400 <==> id.None? || id.value == "" || !Truthy(body.sessionId))
      && (o.statusCode == 400 ==> o.table == t)
      && (body.messageId == Num(0) && Truthy(body.sessionId) ==> o.statusCode != 400)
  {
  }

  /** A feedback that is not null, or a null one whose delete raised, is
      written under the message id and `now`, with the first 200
      characters of the message; nothing else changes. */
  lemma SubmitWrites(t: Table, body: FeedbackBody, now: string, deleteFailure: Option<string>)
    requires body.Parsed? && body.message.Str?
    requires MessageIdOf(body.messageId).Some? && MessageIdOf(body.messageId).value != "" && Truthy(body.sessionId)
    requires !(body.feedback.Missing? || body.feedback.Null?) || deleteFailure.Some?
    ensures var o := Submit(t, body, now, deleteFailure, None); var k := Key(MessageIdOf(body.messageId).value, now);
      o.statusCode == 200 && o.table == t[k := o.table[k]]
      && k in o.table && o.table[k].messagePreview == Take(body.message.s, 200)
      && |o.table[k].messagePreview| <= 200
      && o.table[k].feedback == (if body.feedback.Missing? then Null else body.feedback)
  {
  }

  // ---------------------------------------------------------------------------
  // Statistics

  function CountFeedback(items: seq<Record>, f: string): (n: nat)
    ensures n <= |items|
    decreases |items|
  {
    if items == [] then 0 else (if items[0].feedback == Str(f) then 1 else 0) + CountFeedback(items[1..], f)
  }

  /** A count as a percentage of the total, before rounding; 0 of nothing. */
  function Percentage(count: nat, total: nat): real {
    if total > 0 then count as real / total as real * 100.0 else 0.0
  }

  /** A record `json.dumps` can write back: a session id or a feedback
      stored as a number comes back from the table as a `Decimal`. */
  predicate Serializable(r: Record) {
    !r.sessionId.Num? && !r.feedback.Num?
  }

  /** The first ten records, the ones the answer returns, can be written. */
  predicate RecentSerializable(items: seq<Record>) {
    forall r :: r in Take(items, 10) ==> Serializable(r)
  }

  const StatsFailed := "Failed to get feedback stats: "

  /** `handle_get_feedback_stats` over the records of one scan page: the
      counts, or the caught error of writing a `Decimal` among the records
      returned. */
  function StatsOf(items: seq<Record>): Answer {
    if !RecentSerializable(items) then Error(StatsFailed + DecimalNotSerializable)
    else
      var positive, negative := CountFeedback(items, "positive"), CountFeedback(items, "negative");
      Stats(|items|, positive, negative, Percentage(positive, |items|), Percentage(negative, |items|), Take(items, 10))
  }

  lemma {:induction false} PositiveNegative(items: seq<Record>)
    ensures CountFeedback(items, "positive") + CountFeedback(items, "negative") <= |items|
    decreases |items|
  {
    if items != [] { PositiveNegative(items[1..]); }
  }

  /** Positive and negative together are at most the total, which is the
      number of records scanned, so their percentages add up to at most 100
      and are both 0 when nothing was scanned; at most the first 10 records
      are returned. */
  lemma StatsSpec(items: seq<Record>)
    ensures StatsOf(items).Stats? <==> RecentSerializable(items)
    ensures StatsOf(items).Error? ==> StatsOf(items).error == StatsFailed + DecimalNotSerializable
    ensures var s := StatsOf(items); s.Stats? ==>
      s.total == |items| && s.positive + s.negative <= s.total
      && 0.0 <= s.positivePercentage && 0.0 <= s.negativePercentage
      && s.positivePercentage + s.negativePercentage <= 100.0
      && (s.total == 0 ==> s.positivePercentage == 0.0 && s.negativePercentage == 0.0)
      && |s.recent| == (if |items| < 10 then |items| else 10) && s.recent == items[..|s.recent|]
  {
    PositiveNegative(items);
    var s := StatsOf(items);
    if |items| > 0 && s.Stats? {
      PercentageSum(s.positive, s.negative, |items|);
    }
  }

  lemma PercentageSum(p: nat, n: nat, t: nat)
    requires 0 < t && p + n <= t
    ensures 0.0 <= Percentage(p, t) && 0.0 <= Percentage(n, t) && Percentage(p, t) + Percentage(n, t) <= 100.0
  {
    var tr, pr, nr := t as real, p as real, n as real;
    assert pr / tr + nr / tr == (pr + nr) / tr;
    assert (pr + nr) / tr <= 1.0;
    assert Percentage(p, t) + Percentage(n, t) == (pr / tr + nr / tr) * 100.0;
  }

  // ---------------------------------------------------------------------------
  // Routing

  /** `lambda_handler`: OPTIONS, POST and GET, anything else 405. `scan` is
      the first page of the table's scan, or the error it raised. */
  function FeedbackHandle(httpMethod: string, t: Table, body: FeedbackBody, now: string,
                          deleteFailure: Option<string>, putFailure: Option<string>,
                          scan: Result<seq<Record>>): Outcome
  {
    Route(httpMethod, t, Submit(t, body, now, deleteFailure, putFailure), scan)
  }

  /** `lambda_handler` with the removal corrected as in `SubmitIntended`. */
  function FeedbackHandleIntended(httpMethod: string, t: Table, body: FeedbackBody, now: string,
                                  deleteFailure: Option<string>, putFailure: Option<string>,
                                  scan: Result<seq<Record>>): Outcome
  {
    Route(httpMethod, t, SubmitIntended(t, body, now, deleteFailure, putFailure), scan)
  }

  /** The dispatch on the method, given what the POST handler answers. */
  function Route(httpMethod: string, t: Table, post: Outcome, scan: Result<seq<Record>>): Outcome {
    if httpMethod == "OPTIONS" then Outcome(200, Preflight, t)
    else if httpMethod == "POST" then post
    else if httpMethod == "GET" then
      match scan
      case Ok(items) => var a := StatsOf(items); Outcome(if a.Error? then 500 else 200, a, t)
      case Fail(m) => Outcome(500, Error(StatsFailed + m), t)
    else Outcome(405, NotAllowed, t)
  }

  /** As written and as intended, only a POST can change the table, and a
      method other than OPTIONS, POST and GET answers 405. */
  lemma Routing(httpMethod: string, t: Table, body: FeedbackBody, now: string,
                deleteFailure: Option<string>, putFailure: Option<string>, scan: Result<seq<Record>>)
    ensures var o := FeedbackHandle(httpMethod, t, body, now, deleteFailure, putFailure, scan);
      (httpMethod != "POST" ==> o.table == t)
      && (o.statusCode == 405 <==> httpMethod !in {"OPTIONS", "POST", "GET"})
    ensures var o := FeedbackHandleIntended(httpMethod, t, body, now, deleteFailure, putFailure, scan);
      (httpMethod != "POST" ==> o.table == t)
      && (o.statusCode == 405 <==> httpMethod !in {"OPTIONS", "POST", "GET"})
  {
    if httpMethod == "POST" {
      assert Submit(t, body, now, deleteFailure, putFailure).statusCode in {200, 400, 500};
      assert SubmitIntended(t, body, now, deleteFailure, putFailure).statusCode in {200, 400, 500};
    }
  }

  /** A GET, as written and as intended, answers 200 with the statistics
      exactly when the first ten records scanned hold no number; otherwise
      the `TypeError` of writing the `Decimal` is caught and answered 500. */
  lemma GetStats(t: Table, body: FeedbackBody, now: string, deleteFailure: Option<string>,
                 putFailure: Option<string>, items: seq<Record>)
    ensures var o := FeedbackHandle("GET", t, body, now, deleteFailure, putFailure, Ok(items));
      o.table == t && (o.statusCode == 200 <==> RecentSerializable(items))
      && (o.statusCode == 200 ==> o.answer.Stats? && o.answer.recent == Take(items, 10))
      && (o.statusCode != 200 ==> o.statusCode == 500 && o.answer == Error(StatsFailed + DecimalNotSerializable))
    ensures var o := FeedbackHandleIntended("GET", t, body, now, deleteFailure, putFailure, Ok(items));
      o.table == t && (o.statusCode == 200 <==> RecentSerializable(items))
      && (o.statusCode == 200 ==> o.answer.Stats? && o.answer.recent == Take(items, 10))
      && (o.statusCode != 200 ==> o.statusCode == 500 && o.answer == Error(StatsFailed + DecimalNotSerializable))
  {
    StatsSpec(items);
  }

  /** A concrete case: a thumbs-up sent as the number 1 is accepted and
      stored; the statistics read back over that record then fail with 500. */
  lemma NumericFeedbackExample(now: string)
    ensures var body := Parsed(Str("m1"), Str("s1"), Num(1), Missing);
      var post := FeedbackHandle("POST", map[], body, now, None, None, Ok([]));
      var get := FeedbackHandle("GET", post.table, body, now, None, None, Ok([post.table[Key("m1", now)]]));
      post.statusCode == 200 && Key("m1", now) in post.table
      && get.statusCode == 500 && get.answer == Error(StatsFailed + DecimalNotSerializable)
  {
    var r := Record(Str("s1"), Num(1), "");
    assert Take([r], 10) == [r];
    assert !Serializable(r);
  }
}
