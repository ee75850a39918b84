/** The analytics handler behind the admin dashboard: it resolves a
    timeframe into a window, scans the conversation log and the feedback
    table page by page, labels each conversation with the feedback left on
    it, and returns counts and the most recent conversations. */
module SessionLogs {
  import opened Common
  import opened Decimal
  import opened Dates
  import opened Sorting

  // ---------------------------------------------------------------------------
  // Timeframe

  /** The query string parameters the handler reads (all absent when there
      are none). */
  datatype Params = Params(timeframe: Option<string>, startDate: Option<string>, endDate: Option<string>)

  /** The scan's window on `original_ts`, both ends included. */
  datatype Window = Window(start: DateTime, end: DateTime)

  /** Why a request is refused with 400. The text of the `ValueError` that
      follows the invalid-date prefix is not modelled. */
  datatype Rejection = DatesRequired | InvalidDate(input: string) | UnknownTimeframe(tf: string)

  const DatesRequiredText := "Custom timeframe requires both start_date and end_date parameters"
  const InvalidDatePrefix := "Invalid date format. Use YYYY-MM-DD: "

  /** The error text of a rejection (for an invalid date, its prefix). */
  function RejectionText(r: Rejection): string {
    match r
    case DatesRequired => DatesRequiredText
    case InvalidDate(_) => InvalidDatePrefix
    case UnknownTimeframe(tf) => "Invalid timeframe \"" + tf + "\". Use: today, weekly, monthly, yearly, or custom"
  }

  datatype Resolution = Resolved(tf: string, window: Window) | Refused(rejection: Rejection)

  function Midnight(d: Date): DateTime {
    DateTime(d, 0, 0, 0, 0)
  }

  /** The timeframe named by the parameters: absent or empty means "today",
      and the name is lower-cased. */
  function TimeframeName(p: Params): string {
    Lower(OrElse(p.timeframe, "today"))
  }

  /** Steps 1 of the handler: the window of the named timeframe, ending now
      except for a custom range, which runs from the start date's midnight
      to 23:59:59 on the end date. */
  function Resolve(p: Params, now: DateTime): Resolution
    requires ValidDateTime(now)
  {
    var tf := TimeframeName(p);
    var today := now.date;
    if tf == "custom" then
      if OrElse(p.startDate, "") == "" || OrElse(p.endDate, "") == "" then Refused(DatesRequired)
      else
        match ParseYmd(p.startDate.value)
        case None => Refused(InvalidDate(p.startDate.value))
        case Some(s) =>
          match ParseYmd(p.endDate.value)
          case None => Refused(InvalidDate(p.endDate.value))
          case Some(e) => Resolved(tf, Window(Midnight(s), DateTime(e, 23, 59, 59, 0)))
    else if tf == "today" then Resolved(tf, Window(Midnight(today), now))
    else if tf == "weekly" then Resolved(tf, Window(Midnight(WeekStart(today)), now))
    else if tf == "monthly" then Resolved(tf, Window(Midnight(Date(today.year, today.month, 1)), now))
    else if tf == "yearly" then Resolved(tf, Window(Midnight(Date(today.year, 1, 1)), now))
    else Refused(UnknownTimeframe(tf))
  }

  /** The timeframes the handler knows. */
  predicate KnownTimeframe(tf: string) {
    tf in {"today", "weekly", "monthly", "yearly", "custom"}
  }

  /** A timeframe is refused as unknown exactly when its lower-cased name is
      none of the five; a missing one is "today", whose window runs from
      midnight to now. */
  lemma ResolveTimeframes(p: Params, now: DateTime)
    requires ValidDateTime(now)
    ensures Resolve(p, now).Refused? && Resolve(p, now).rejection.UnknownTimeframe?
      <==> !KnownTimeframe(TimeframeName(p))
    ensures p.timeframe.None? ==> Resolve(p, now) == Resolved("today", Window(Midnight(now.date), now))
  {
  }

  /** A custom range without both dates is refused; with both, it is
      resolved exactly when both parse as dates, and its window starts at
      the start date's midnight and ends at the end date's last second. */
  lemma ResolveCustom(p: Params, now: DateTime)
    requires ValidDateTime(now) && TimeframeName(p) == "custom"
    ensures (p.startDate.None? || p.startDate == Some("") || p.endDate.None? || p.endDate == Some(""))
      ==> Resolve(p, now) == Refused(DatesRequired)
    ensures Resolve(p, now).Resolved? <==>
      p.startDate.Some? && p.endDate.Some? && ParseYmd(p.startDate.value).Some? && ParseYmd(p.endDate.value).Some?
    ensures Resolve(p, now).Resolved? ==>
      var w := Resolve(p, now).window;
      w.start == Midnight(ParseYmd(p.startDate.value).value)
      && w.end == DateTime(ParseYmd(p.endDate.value).value, 23, 59, 59, 0)
  {
  }

  /** The weekly window starts at midnight on the Monday of the current
      week; the monthly one on the first of the month, the yearly one on
      January 1; all three end now. */
  lemma CalendarWindows(p: Params, now: DateTime)
    requires ValidDateTime(now)
    ensures var r := Resolve(p, now); var tf := TimeframeName(p);
      (tf in {"today", "weekly", "monthly", "yearly"} ==>
         r.Resolved? && r.window.end == now
         && r.window.start.hour == 0 && r.window.start.minute == 0 && r.window.start.second == 0)
      && (tf == "weekly" ==>
            var s := r.window.start.date;
            ValidDate(s) && Weekday(s) == 0 && Ordinal(now.date) - 6 <= Ordinal(s) <= Ordinal(now.date))
      && (tf == "monthly" ==> r.window.start.date == Date(now.date.year, now.date.month, 1))
      && (tf == "yearly" ==> r.window.start.date == Date(now.date.year, 1, 1))
  {
    WeekStartSpec(now.date);
  }

  // ---------------------------------------------------------------------------
  // Paged scans

  /** One page of a scan, and whether it carried a `LastEvaluatedKey`. */
  datatype ScanPage<T> = ScanPage(items: seq<T>, more: bool)

  /** The pages a scan returns: every page but the last says there is more. */
  predicate WellPaged<T>(pages: seq<ScanPage<T>>) {
    |pages| > 0 && !pages[|pages| - 1].more && forall i :: 0 <= i < |pages| - 1 ==> pages[i].more
  }

  /** The items of the pages, in order. */
  function AllItems<T>(pages: seq<ScanPage<T>>): seq<T>
    decreases |pages|
  {
    if pages == [] then [] else AllItems(pages[..|pages| - 1]) + pages[|pages| - 1].items
  }

  /** The paging loop: the first page, then every next page until one
      carries no `LastEvaluatedKey`; the items are all the pages' items, in
      order. */
  method ScanAll<T>(pages: seq<ScanPage<T>>) returns (items: seq<T>)
    requires WellPaged(pages)
    ensures items == AllItems(pages)
  {
    assert pages[..1][..0] == [];
    items := pages[0].items;
    var i := 0;
    while pages[i].more
      invariant 0 <= i < |pages|
      invariant items == AllItems(pages[..i + 1])
      decreases |pages| - i
    {
      i := i + 1;
      assert pages[..i + 1][..i] == pages[..i];
      items := items + pages[i].items;
    }
    assert pages[..i + 1] == pages;
  }

  // ---------------------------------------------------------------------------
  // The feedback map

  /** A feedback record: its `message_id` and its `feedback`. */
  datatype FeedbackItem = FeedbackItem(messageId: Field, feedback: Field)

  /** One key of a Python dict, with its value; the dict is the list of
      its entries in insertion order. */
  datatype Entry = Entry(key: Field, value: Field)

  /** `d[k] = v`: a present key keeps its place and takes the new value, a
      new key goes last. */
  function Put(m: seq<Entry>, k: Field, v: Field): (r: seq<Entry>)
    decreases |m|
  {
    if m == [] then [Entry(k, v)]
    else if m[0].key == k then [Entry(k, v)] + m[1..]
    else [m[0]] + Put(m[1..], k, v)
  }

  /** `d.get(k)`. */
  function Lookup(m: seq<Entry>, k: Field): Option<Field>
    decreases |m|
  {
    if m == [] then None else if m[0].key == k then Some(m[0].value) else Lookup(m[1..], k)
  }

  predicate DistinctKeys(m: seq<Entry>) {
    forall i, j :: 0 <= i < j < |m| ==> m[i].key != m[j].key
  }

  lemma {:induction false} PutSpec(m: seq<Entry>, k: Field, v: Field)
    requires DistinctKeys(m)
    ensures DistinctKeys(Put(m, k, v))
    ensures forall j :: Lookup(Put(m, k, v), j) == if j == k then Some(v) else Lookup(m, j)
    decreases |m|
  {
    var r := Put(m, k, v);
    if m != [] && m[0].key != k {
      PutSpec(m[1..], k, v);
      var t := Put(m[1..], k, v);
      assert r == [m[0]] + t;
      forall e | e in t ensures e.key != m[0].key {
        if e.key == m[0].key {
          assert Lookup(t, m[0].key) != None by { LookupIn(t, e); }
          assert Lookup(m[1..], m[0].key) != None;
          LookupSome(m[1..], m[0].key);
        }
      }
      forall i, j | 0 <= i < j < |r| ensures r[i].key != r[j].key {
        if i == 0 {
          assert r[j] in t;
        } else {
          assert r[i] == t[i - 1] && r[j] == t[j - 1];
        }
      }
    } else if m != [] {
      forall i, j | 0 <= i < j < |r| ensures r[i].key != r[j].key {
        assert r[j].key == m[j].key;
        if i > 0 { assert r[i].key == m[i].key; }
      }
      forall j ensures Lookup(r, j) == if j == k then Some(v) else Lookup(m, j) {
        assert r[1..] == m[1..];
      }
    }
  }

  lemma {:induction false} LookupIn(m: seq<Entry>, e: Entry)
    requires e in m
    ensures Lookup(m, e.key).Some?
    decreases |m|
  {
    if m[0] != e && m[0].key != e.key {
      assert e in m[1..];
      LookupIn(m[1..], e);
    }
  }

  lemma {:induction false} LookupSome(m: seq<Entry>, k: Field)
    requires Lookup(m, k).Some?
    ensures exists e :: e in m && e.key == k
    decreases |m|
  {
    if m[0].key != k {
      LookupSome(m[1..], k);
      var e :| e in m[1..] && e.key == k;
      assert e in m;
    }
  }

  /** The feedback a record leaves, when both its id and its feedback are
      truthy. */
  predicate Counted(fb: FeedbackItem) {
    Truthy(fb.messageId) && Truthy(fb.feedback)
  }

  /** The feedback map built from the records in order (lines 135-140). */
  function FeedbackMapOf(fbs: seq<FeedbackItem>): seq<Entry>
    decreases |fbs|
  {
    if fbs == [] then []
    else
      var m := FeedbackMapOf(fbs[..|fbs| - 1]);
      var fb := fbs[|fbs| - 1];
      if Counted(fb) then Put(m, fb.messageId, fb.feedback) else m
  }

  /** The feedback of the last counted record with id `k`. */
  function Latest(fbs: seq<FeedbackItem>, k: Field): Option<Field>
    decreases |fbs|
  {
    if fbs == [] then None
    else
      var fb := fbs[|fbs| - 1];
      if Counted(fb) && fb.messageId == k then Some(fb.feedback) else Latest(fbs[..|fbs| - 1], k)
  }

  /** The map's loop. */
  method BuildFeedbackMap(fbs: seq<FeedbackItem>) returns (m: seq<Entry>)
    ensures m == FeedbackMapOf(fbs)
  {
    m := [];
    for i := 0 to |fbs|
      invariant m == FeedbackMapOf(fbs[..i])
    {
      assert fbs[..i + 1][..i] == fbs[..i];
      var fb := fbs[i];
      if Truthy(fb.messageId) && Truthy(fb.feedback) {
        m := Put(m, fb.messageId, fb.feedback);
      }
    }
    assert fbs[..|fbs|] == fbs;
  }

  /** In the map every id appears once, and an id maps to the feedback of
      its last counted record: a later record overwrites an earlier one, and
      records missing an id or a feedback are skipped. */
  lemma {:induction false} FeedbackMapSpec(fbs: seq<FeedbackItem>)
    ensures DistinctKeys(FeedbackMapOf(fbs))
    ensures forall k :: Lookup(FeedbackMapOf(fbs), k) == Latest(fbs, k)
    decreases |fbs|
  {
    if fbs != [] {
      var init := fbs[..|fbs| - 1];
      FeedbackMapSpec(init);
      var fb := fbs[|fbs| - 1];
      if Counted(fb) {
        PutSpec(FeedbackMapOf(init), fb.messageId, fb.feedback);
      }
    }
  }

  // ---------------------------------------------------------------------------
  // Labelling and counting

  /** A scanned conversation: the attributes the handler reads. The scan's
      filter only returns items whose `original_ts` is a string in the
      window, so the timestamp is always there. */
  datatype Item = Item(sessionId: Option<string>, timestamp: string, location: Field, category: Field,
                       query: Field, response: Field)

  /** `str(msg_id)`. */
  function KeyText(k: Field): string {
    match k
    case Str(s) => s
    case Num(n) => IntToString(n)
    case _ => "None"
  }

  /** The entry matches the conversation: its id's text contains the
      session id, or the (non-empty) timestamp. */
  predicate Matches(e: Entry, sid: string, ts: string) {
    Contains(KeyText(e.key), sid) || (ts != "" && Contains(KeyText(e.key), ts))
  }

  /** The feedback of the first matching entry, in map order. */
  function FirstMatch(m: seq<Entry>, sid: string, ts: string): (r: Option<Field>)
    ensures r.Some? ==> exists e :: e in m && Matches(e, sid, ts) && e.value == r.value
    ensures r.None? ==> forall e :: e in m ==> !Matches(e, sid, ts)
    decreases |m|
  {
    if m == [] then None
    else if Matches(m[0], sid, ts) then Some(m[0].value)
    else FirstMatch(m[1..], sid, ts)
  }

  /** The search loop over the map, left at the first match. */
  method FindFeedback(m: seq<Entry>, sid: string, ts: string) returns (f: Option<Field>)
    ensures f == FirstMatch(m, sid, ts)
  {
    var i := 0;
    while i < |m|
      invariant 0 <= i <= |m|
      invariant FirstMatch(m[i..], sid, ts) == FirstMatch(m, sid, ts)
    {
      assert m[i..][1..] == m[i + 1..];
      if Contains(KeyText(m[i].key), sid) || (ts != "" && Contains(KeyText(m[i].key), ts)) {
        return Some(m[i].value);
      }
      i := i + 1;
    }
    return None;
  }

  predicate HasSession(it: Item) {
    it.sessionId.Some? && it.sessionId.value != ""
  }

  /** The label of a conversation: the feedback found for it, else
      "neutral". Only a conversation with a session id is looked up. */
  function SentimentOf(it: Item, m: seq<Entry>): Field {
    var found := if HasSession(it) then FirstMatch(m, it.sessionId.value, it.timestamp) else None;
    if found.Some? && Truthy(found.value) then found.value else Str("neutral")
  }

  datatype SentimentCounts = SentimentCounts(positive: nat, negative: nat, neutral: nat)

  function CountSentiment(c: SentimentCounts, s: Field): SentimentCounts {
    if s == Str("positive") then c.(positive := c.positive + 1)
    else if s == Str("negative") then c.(negative := c.negative + 1)
    else c.(neutral := c.neutral + 1)
  }

  function Counts(items: seq<Item>, m: seq<Entry>): SentimentCounts
    decreases |items|
  {
    if items == [] then SentimentCounts(0, 0, 0)
    else CountSentiment(Counts(items[..|items| - 1], m), SentimentOf(items[|items| - 1], m))
  }

  /** The distinct truthy session ids. */
  function Sessions(items: seq<Item>): set<string> {
    set i | 0 <= i < |items| && HasSession(items[i]) :: items[i].sessionId.value
  }

  /** The distinct non-empty string locations, in order of first appearance
      (the keys of `loc_counts`). */
  function Locations(items: seq<Item>): seq<string>
    decreases |items|
  {
    if items == [] then []
    else
      var ls := Locations(items[..|items| - 1]);
      var loc := items[|items| - 1].location;
      if loc.Str? && loc.s != "" && loc.s !in ls then ls + [loc.s] else ls
  }

  /** The number of conversations per truthy category. */
  function Categories(items: seq<Item>): map<Field, nat>
    decreases |items|
  {
    if items == [] then map[]
    else
      var cs := Categories(items[..|items| - 1]);
      var cat := items[|items| - 1].category;
      if Truthy(cat) then cs[cat := (if cat in cs then cs[cat] else 0) + 1] else cs
  }

  /** A conversation as returned. */
  datatype Conversation = Conversation(sessionId: Option<string>, timestamp: string, query: Field, response: Field,
                                       category: Field, sentiment: Field)

  function ConversationOf(it: Item, m: seq<Entry>): Conversation {
    Conversation(it.sessionId, it.timestamp, GetOr(it.query, ""), GetOr(it.response, ""),
                 GetOr(it.category, "Unknown"), SentimentOf(it, m))
  }

  function Conversations(items: seq<Item>, m: seq<Entry>): (cs: seq<Conversation>)
    ensures |cs| == |items|
    decreases |items|
  {
    if items == [] then [] else Conversations(items[..|items| - 1], m) + [ConversationOf(items[|items| - 1], m)]
  }

  /** Looking up the feedback of one conversation (lines 175-192). */
  method Label(it: Item, m: seq<Entry>) returns (sentiment: Field)
    ensures sentiment == SentimentOf(it, m)
  {
    var found: Option<Field> := None;
    if it.sessionId.Some? && it.sessionId.value != "" {
      found := FindFeedback(m, it.sessionId.value, it.timestamp);
    }
    sentiment := if found.Some? && Truthy(found.value) then found.value else Str("neutral");
  }

  /** The aggregation loop (lines 162-211). */
  method Aggregate(items: seq<Item>, m: seq<Entry>)
    returns (sessions: set<string>, locations: seq<string>, categories: map<Field, nat>,
             counts: SentimentCounts, conversations: seq<Conversation>)
    ensures sessions == Sessions(items) && locations == Locations(items) && categories == Categories(items)
    ensures counts == Counts(items, m) && conversations == Conversations(items, m)
  {
    sessions, locations, categories := {}, [], map[];
    counts, conversations := SentimentCounts(0, 0, 0), [];
    for i := 0 to |items|
      invariant sessions == Sessions(items[..i]) && locations == Locations(items[..i])
      invariant categories == Categories(items[..i])
      invariant counts == Counts(items[..i], m) && conversations == Conversations(items[..i], m)
    {
      sessions, locations, categories := AddPlaces(items, i, m, sessions, locations, categories);
      counts, conversations := AddSentiment(items, i, m, counts, conversations);
    }
    assert items[..|items|] == items;
  }

  /** Item `i` added to the sessions, locations and categories of the
      items before it. */
  method AddPlaces(items: seq<Item>, i: nat, m: seq<Entry>,
                   sessions: set<string>, locations: seq<string>, categories: map<Field, nat>)
    returns (sessions': set<string>, locations': seq<string>, categories': map<Field, nat>)
    requires i < |items|
    requires sessions == Sessions(items[..i]) && locations == Locations(items[..i])
    requires categories == Categories(items[..i])
    ensures sessions' == Sessions(items[..i + 1]) && locations' == Locations(items[..i + 1])
    ensures categories' == Categories(items[..i + 1])
  {
    var it := items[i];
    AggregateStep(items, i, m);
    sessions', locations', categories' := sessions, locations, categories;
    if it.sessionId.Some? && it.sessionId.value != "" {
      sessions' := sessions + {it.sessionId.value};
    }
    if it.location.Str? && it.location.s != "" && it.location.s !in locations {
      locations' := locations + [it.location.s];
    }
    if Truthy(it.category) {
      categories' := categories[it.category := (if it.category in categories then categories[it.category] else 0) + 1];
    }
  }

  /** Item `i` added to the sentiment counts and the conversations of the
      items before it. */
  method AddSentiment(items: seq<Item>, i: nat, m: seq<Entry>, counts: SentimentCounts, conversations: seq<Conversation>)
    returns (counts': SentimentCounts, conversations': seq<Conversation>)
    requires i < |items|
    requires counts == Counts(items[..i], m) && conversations == Conversations(items[..i], m)
    ensures counts' == Counts(items[..i + 1], m) && conversations' == Conversations(items[..i + 1], m)
  {
    var it := items[i];
    AggregateStep(items, i, m);
    var sentiment := Label(it, m);
    if sentiment == Str("positive") {
      counts' := counts.(positive := counts.positive + 1);
    } else if sentiment == Str("negative") {
      counts' := counts.(negative := counts.negative + 1);
    } else {
      counts' := counts.(neutral := counts.neutral + 1);
    }
    assert counts' == CountSentiment(counts, sentiment);
    conversations' := conversations + [ConversationOf(it, m)];
  }

  /** The aggregates of one more conversation. */
  lemma AggregateStep(items: seq<Item>, i: nat, m: seq<Entry>)
    requires i < |items|
    ensures var it := items[i]; var pre := items[..i]; var next := items[..i + 1];
      Sessions(next) == Sessions(pre) + (if HasSession(it) then {it.sessionId.value} else {})
      && Locations(next) == (if it.location.Str? && it.location.s != "" && it.location.s !in Locations(pre)
                             then Locations(pre) + [it.location.s] else Locations(pre))
      && Categories(next) == (if Truthy(it.category)
                              then Categories(pre)[it.category := (if it.category in Categories(pre)
                                                                   then Categories(pre)[it.category] else 0) + 1]
                              else Categories(pre))
      && Counts(next, m) == CountSentiment(Counts(pre, m), SentimentOf(it, m))
      && Conversations(next, m) == Conversations(pre, m) + [ConversationOf(it, m)]
  {
    var next := items[..i + 1];
    assert next[..i] == items[..i] && next[i] == items[i];
    assert forall j :: 0 <= j < i ==> next[j] == items[..i][j];
  }

  /** Every conversation is counted once: positive, negative and neutral
      add up to the number of conversations. */
  lemma {:induction false} CountsTotal(items: seq<Item>, m: seq<Entry>)
    ensures var c := Counts(items, m); c.positive + c.negative + c.neutral == |items|
    decreases |items|
  {
    if items != [] { CountsTotal(items[..|items| - 1], m); }
  }

  /** A conversation is positive or negative exactly when its session id is
      truthy and the first entry of the map whose id's text contains the
      session id or the timestamp holds that feedback. */
  lemma SentimentFromFeedback(it: Item, m: seq<Entry>, verdict: string)
    requires verdict == "positive" || verdict == "negative"
    ensures SentimentOf(it, m) == Str(verdict)
      <==> HasSession(it) && FirstMatch(m, it.sessionId.value, it.timestamp) == Some(Str(verdict))
  {
  }

  /** The number of conversations in category `c`. */
  function CategoryCount(items: seq<Item>, c: Field): nat
    decreases |items|
  {
    if items == [] then 0
    else CategoryCount(items[..|items| - 1], c) + (if items[|items| - 1].category == c then 1 else 0)
  }

  /** The category counts cover exactly the truthy categories that occur,
      each with its number of conversations. */
  lemma {:induction false} CategoriesSpec(items: seq<Item>)
    ensures forall c :: c in Categories(items) <==> Truthy(c) && CategoryCount(items, c) > 0
    ensures forall c :: c in Categories(items) ==> Categories(items)[c] == CategoryCount(items, c)
    decreases |items|
  {
    if items != [] { CategoriesSpec(items[..|items| - 1]); }
  }

  /** The locations are distinct, and are exactly the non-empty string
      locations that occur. */
  lemma {:induction false} LocationsSpec(items: seq<Item>)
    ensures forall i, j :: 0 <= i < j < |Locations(items)| ==> Locations(items)[i] != Locations(items)[j]
    ensures forall l :: l in Locations(items) <==> l != "" && exists it :: it in items && it.location == Str(l)
    decreases |items|
  {
    if items != [] {
      var init := items[..|items| - 1];
      LocationsSpec(init);
      assert items == init + [items[|items| - 1]];
      forall l ensures l in Locations(items) <==> l != "" && exists it :: it in items && it.location == Str(l) {
        if l != "" && (exists it :: it in items && it.location == Str(l)) {
          var it :| it in items && it.location == Str(l);
          if it != items[|items| - 1] {
            assert it in init;
          }
        }
      }
    }
  }

  /** `user_count` counts the distinct truthy session ids. */
  lemma SessionsSpec(items: seq<Item>, sid: string)
    ensures sid in Sessions(items) <==> sid != "" && exists it :: it in items && it.sessionId == Some(sid)
  {
    if sid != "" && exists it :: it in items && it.sessionId == Some(sid) {
      var it :| it in items && it.sessionId == Some(sid);
      var i :| 0 <= i < |items| && items[i] == it;
      assert HasSession(items[i]);
    }
  }

  // ---------------------------------------------------------------------------
  // The handler

  /** Most recent first: Python's `sort(key=timestamp, reverse=True)`. */
  function ByRecency(a: Conversation, b: Conversation): bool {
    StrLe(b.timestamp, a.timestamp)
  }

  lemma ByRecencyPreorder()
    ensures TotalPreorder(ByRecency)
  {
    forall a: Conversation, b: Conversation ensures ByRecency(a, b) || ByRecency(b, a) {
      StrLeTotal(a.timestamp, b.timestamp);
    }
    forall a: Conversation, b: Conversation, c: Conversation | ByRecency(a, b) && ByRecency(b, c)
      ensures ByRecency(a, c)
    {
      StrLeTrans(c.timestamp, b.timestamp, a.timestamp);
    }
  }

  datatype Report = Report(timeframe: string, startDate: Date, endDate: Date, userCount: nat,
                           locations: seq<string>, categories: map<Field, nat>, sentiment: SentimentCounts,
                           conversations: seq<Conversation>)

  /** The answer: a refusal, the report, or the `TypeError` that
      `json.dumps` raises on the report at line 43, outside any `try`, so
      that the invocation fails. */
  datatype LogsResponse = BadRequest(rejection: Rejection) | Ok(window: Window, report: Report) | Raised(message: string)

  /** A returned conversation holds a number: boto3 reads it as a `Decimal`. */
  predicate HoldsNumber(c: Conversation) {
    c.query.Num? || c.response.Num? || c.category.Num? || c.sentiment.Num?
  }

  /** Writing the report: the category counts come first and refuse a
      numeric key, then the conversations refuse a numeric value. */
  function DumpFailure(rep: Report): Option<string> {
    if exists c :: c in rep.categories && c.Num? then Some(DecimalKeyRefused)
    else if exists c :: c in rep.conversations && HoldsNumber(c) then Some(DecimalNotSerializable)
    else None
  }

  /** The answer for the scanned items and feedback records. */
  function SessionLogs(p: Params, now: DateTime, items: seq<Item>, fbs: seq<FeedbackItem>): LogsResponse
    requires ValidDateTime(now)
  {
    match Resolve(p, now)
    case Refused(r) => BadRequest(r)
    case Resolved(tf, w) =>
      var m := FeedbackMapOf(fbs);
      var rep := Report(tf, w.start.date, w.end.date, |Sessions(items)|, Locations(items), Categories(items),
                        Counts(items, m), Take(SortBy(Conversations(items, m), ByRecency), 50));
      match DumpFailure(rep)
      case Some(e) => Raised(e)
      case None => Ok(w, rep)
  }

  /** `lambda_handler`: resolve, scan both tables page by page, build the
      feedback map, aggregate, sort and keep the 50 most recent. */
  method RetrieveSessionLogs(p: Params, now: DateTime, pages: seq<ScanPage<Item>>,
                             feedbackPages: seq<ScanPage<FeedbackItem>>) returns (r: LogsResponse)
    requires ValidDateTime(now) && WellPaged(pages) && WellPaged(feedbackPages)
    ensures r == SessionLogs(p, now, AllItems(pages), AllItems(feedbackPages))
  {
    var res := Resolve(p, now);
    if res.Refused? {
      return BadRequest(res.rejection);
    }
    var items := ScanAll(pages);
    var fbs := ScanAll(feedbackPages);
    var m := BuildFeedbackMap(fbs);
    var sessions, locations, categories, counts, conversations := Aggregate(items, m);
    var sorted := SortBy(conversations, ByRecency);
    var w := res.window;
    var rep := Report(res.tf, w.start.date, w.end.date, |sessions|, locations, categories, counts, Take(sorted, 50));
    var failure := DumpFailure(rep);
    if failure.Some? {
      return Raised(failure.value);
    }
    r := Ok(w, rep);
  }

  /** The report's conversations: the latest 50 (all of them when there
      are fewer), most recent first, so that no conversation left out is
      newer than one kept; the counts add up to the number of items. */
  lemma ReportSpec(p: Params, now: DateTime, items: seq<Item>, fbs: seq<FeedbackItem>)
    requires ValidDateTime(now) && SessionLogs(p, now, items, fbs).Ok?
    ensures var rep := SessionLogs(p, now, items, fbs).report;
      var all := Conversations(items, FeedbackMapOf(fbs));
      var cs := rep.conversations;
      |cs| == (if |items| < 50 then |items| else 50)
      && Sorted(cs, ByRecency) && multiset(cs) <= multiset(all)
      && (forall c, d :: c in cs && d in multiset(all) - multiset(cs) ==> StrLe(d.timestamp, c.timestamp))
      && rep.sentiment.positive + rep.sentiment.negative + rep.sentiment.neutral == |items|
  {
    var m := FeedbackMapOf(fbs);
    var all := Conversations(items, m);
    assert SessionLogs(p, now, items, fbs).report.conversations == Take(SortBy(all, ByRecency), 50);
    LatestFifty(all);
    CountsTotal(items, m);
  }

  /** The 50 most recent of a list of conversations, newest first. */
  lemma LatestFifty(all: seq<Conversation>)
    ensures var cs := Take(SortBy(all, ByRecency), 50);
      |cs| == (if |all| < 50 then |all| else 50)
      && Sorted(cs, ByRecency) && multiset(cs) <= multiset(all)
      && (forall c, d :: c in cs && d in multiset(all) - multiset(cs) ==> StrLe(d.timestamp, c.timestamp))
  {
    ByRecencyPreorder();
    TakeSorted(all, 50, ByRecency);
    var r := SortBy(all, ByRecency);
    var cs := Take(r, 50);
    assert cs == r[..|cs|];
    forall c, d | c in cs && d in multiset(all) - multiset(cs) ensures StrLe(d.timestamp, c.timestamp) {
      assert ByRecency(c, d);
    }
  }

  // ---------------------------------------------------------------------------
  // Numbers read from the tables

  lemma {:induction false} CategoryKeysOccur(items: seq<Item>)
    ensures forall c :: c in Categories(items) ==> exists it :: it in items && it.category == c
    decreases |items|
  {
    if items != [] {
      var init := items[..|items| - 1];
      CategoryKeysOccur(init);
      forall c | c in Categories(items) ensures exists it :: it in items && it.category == c {
        if c != items[|items| - 1].category {
          assert c in Categories(init);
          var it :| it in init && it.category == c;
          assert it in items;
        }
      }
    }
  }

  lemma {:induction false} ConversationsFrom(items: seq<Item>, m: seq<Entry>)
    ensures forall c :: c in Conversations(items, m) ==> exists it :: it in items && c == ConversationOf(it, m)
    ensures forall it :: it in items ==> ConversationOf(it, m) in Conversations(items, m)
    decreases |items|
  {
    if items != [] {
      var init := items[..|items| - 1];
      ConversationsFrom(init, m);
      assert items == init + [items[|items| - 1]];
    }
  }

  /** Every value of the map is the feedback of some record. */
  predicate NumberFree(m: seq<Entry>) {
    forall e :: e in m ==> !e.value.Num?
  }

  lemma {:induction false} PutNumberFree(m: seq<Entry>, k: Field, v: Field)
    requires NumberFree(m) && !v.Num?
    ensures NumberFree(Put(m, k, v))
    decreases |m|
  {
    if m != [] && m[0].key != k {
      PutNumberFree(m[1..], k, v);
    }
  }

  lemma {:induction false} FeedbackMapNumberFree(fbs: seq<FeedbackItem>)
    requires forall fb :: fb in fbs ==> !fb.feedback.Num?
    ensures NumberFree(FeedbackMapOf(fbs))
    decreases |fbs|
  {
    if fbs != [] {
      var init := fbs[..|fbs| - 1];
      assert forall fb :: fb in init ==> fb in fbs;
      FeedbackMapNumberFree(init);
      if Counted(fbs[|fbs| - 1]) {
        PutNumberFree(FeedbackMapOf(init), fbs[|fbs| - 1].messageId, fbs[|fbs| - 1].feedback);
      }
    }
  }

  /** A conversation whose category is a non-zero number makes the handler
      raise: that number is a key of the category counts, which come first
      in the report. */
  lemma NumericCategoryRaises(p: Params, now: DateTime, items: seq<Item>, fbs: seq<FeedbackItem>, it: Item)
    requires ValidDateTime(now) && Resolve(p, now).Resolved?
    requires it in items && it.category.Num? && it.category.n != 0
    ensures SessionLogs(p, now, items, fbs) == Raised(DecimalKeyRefused)
  {
    var c := it.category;
    var i :| 0 <= i < |items| && items[i] == it;
    CategoryCountOf(items, i);
    CategoriesSpec(items);
    assert c in Categories(items);
  }

  lemma {:induction false} CategoryCountOf(items: seq<Item>, i: nat)
    requires i < |items|
    ensures CategoryCount(items, items[i].category) > 0
    decreases |items|
  {
    if i < |items| - 1 {
      CategoryCountOf(items[..|items| - 1], i);
    }
  }

  /** With at most 50 conversations every one is returned, so a numeric
      query, response or category on any of them makes the handler raise. */
  lemma NumericFieldRaises(p: Params, now: DateTime, items: seq<Item>, fbs: seq<FeedbackItem>, it: Item)
    requires ValidDateTime(now) && Resolve(p, now).Resolved? && |items| <= 50
    requires it in items && (it.query.Num? || it.response.Num? || it.category.Num?)
    ensures SessionLogs(p, now, items, fbs).Raised?
  {
    var m := FeedbackMapOf(fbs);
    var all := Conversations(items, m);
    var cs := Take(SortBy(all, ByRecency), 50);
    ConversationsFrom(items, m);
    ByRecencyPreorder();
    SortBySpec(all, ByRecency);
    assert cs == SortBy(all, ByRecency);
    var c := ConversationOf(it, m);
    assert c in multiset(all);
    assert c in cs && HoldsNumber(c);
  }

  lemma ConversationsNumberFree(items: seq<Item>, m: seq<Entry>)
    requires NumberFree(m)
    requires forall it :: it in items ==> !it.query.Num? && !it.response.Num? && !it.category.Num?
    ensures forall c :: c in Take(SortBy(Conversations(items, m), ByRecency), 50) ==> !HoldsNumber(c)
  {
    var all := Conversations(items, m);
    ConversationsFrom(items, m);
    LatestFifty(all);
    forall c | c in Take(SortBy(all, ByRecency), 50) ensures !HoldsNumber(c) {
      assert c in multiset(Take(SortBy(all, ByRecency), 50));
      assert c in multiset(all);
      assert c in all;
      var it :| it in items && c == ConversationOf(it, m);
      var found := if HasSession(it) then FirstMatch(m, it.sessionId.value, it.timestamp) else None;
      assert found.Some? ==> !found.value.Num?;
    }
  }

  /** Conversely, when no record read holds a number where the report
      repeats it, the report is written. */
  lemma NumberFreeReport(p: Params, now: DateTime, items: seq<Item>, fbs: seq<FeedbackItem>)
    requires ValidDateTime(now) && Resolve(p, now).Resolved?
    requires forall it :: it in items ==> !it.query.Num? && !it.response.Num? && !it.category.Num?
    requires forall fb :: fb in fbs ==> !fb.feedback.Num?
    ensures SessionLogs(p, now, items, fbs).Ok?
  {
    CategoryKeysOccur(items);
    FeedbackMapNumberFree(fbs);
    ConversationsNumberFree(items, FeedbackMapOf(fbs));
  }
}
