/** The admin dashboard: a seven-day usage trend, today's metric cards and
    the sentiment pie. Each day's request and today's request are inputs,
    and so is the date label of each day (its locale formatting is not
    modelled). */
module AdminDashboard {
  import opened Common

  /** One point of the trend line: the day's label and its query count. */
  datatype Trend = Trend(date: string, queries: int)

  /** The outcome of one day's request: its `user_count`, possibly absent,
      or a failure the per-day `catch` turns into 0. */
  datatype DayFetch = DayFetched(userCount: Option<int>) | DayFailed

  function OrZero(x: Option<int>): int {
    if x.Some? then x.value else 0
  }

  function QueriesOf(d: DayFetch): int {
    if d.DayFetched? then OrZero(d.userCount) else 0
  }

  /** The trend list: the day `6 - k` days back at position `k`. `dateOf(i)`
      is the label of the day `i` days back, `day(i)` its request. */
  function Trends(dateOf: int -> string, day: int -> DayFetch): seq<Trend> {
    seq(7, k requires 0 <= k < 7 => Trend(dateOf(6 - k), QueriesOf(day(6 - k))))
  }

  /** The trend list of the error path. */
  function EmptyTrends(dateOf: int -> string): seq<Trend> {
    seq(7, k requires 0 <= k < 7 => Trend(dateOf(6 - k), 0))
  }

  /** The loop `for (let i = 6; i >= 0; i--)` collecting each day's
      result. */
  method CollectTrends(dateOf: int -> string, day: int -> DayFetch) returns (results: seq<Trend>)
    ensures results == Trends(dateOf, day)
  {
    results := [];
    for i := 7 downto 0
      invariant |results| == 7 - i
      invariant forall k :: 0 <= k < |results| ==> results[k] == Trends(dateOf, day)[k]
    {
      var d := day(i);
      var queries := if d.DayFetched? then (if d.userCount.Some? then d.userCount.value else 0) else 0;
      results := results + [Trend(dateOf(i), queries)];
    }
  }

  /** The error path's loop, building seven zero entries. */
  method CollectEmptyTrends(dateOf: int -> string) returns (results: seq<Trend>)
    ensures results == EmptyTrends(dateOf)
  {
    results := [];
    for i := 7 downto 0
      invariant |results| == 7 - i
      invariant forall k :: 0 <= k < |results| ==> results[k] == EmptyTrends(dateOf)[k]
    {
      results := results + [Trend(dateOf(i), 0)];
    }
  }

  /** Seven entries, oldest day first; a failed day counts 0 and any other
      its user count, or 0 when it has none. The error path's list has the
      same days, all at 0, which is the list of seven failed days. */
  lemma TrendsSpec(dateOf: int -> string, day: int -> DayFetch)
    ensures |Trends(dateOf, day)| == 7
    ensures forall k :: 0 <= k < 7 ==>
      Trends(dateOf, day)[k].date == dateOf(6 - k)
      && (day(6 - k).DayFailed? ==> Trends(dateOf, day)[k].queries == 0)
      && (day(6 - k).DayFetched? && day(6 - k).userCount.Some? ==>
            Trends(dateOf, day)[k].queries == day(6 - k).userCount.value)
    ensures EmptyTrends(dateOf) == Trends(dateOf, (i: int) => DayFailed)
    ensures forall k :: 0 <= k < 7 ==> EmptyTrends(dateOf)[k].date == Trends(dateOf, day)[k].date
  {
    var none := (i: int) => DayFailed;
    var failed := Trends(dateOf, none);
    forall k | 0 <= k < 7 ensures EmptyTrends(dateOf)[k] == failed[k] {
      assert none(6 - k) == DayFailed;
      assert QueriesOf(none(6 - k)) == 0;
    }
  }

  // ---------------------------------------------------------------------------
  // Today's metrics

  datatype SentimentCounts = SentimentCounts(positive: Option<int>, neutral: Option<int>, negative: Option<int>)

  /** `totalSentiment`: the three counts, each 0 when absent. */
  function TotalSentiment(s: Option<SentimentCounts>): int {
    if s.None? then 0 else OrZero(s.value.positive) + OrZero(s.value.negative) + OrZero(s.value.neutral)
  }

  datatype Slice = Slice(name: string, value: int, color: string)

  function SliceIfPositive(name: string, value: Option<int>, color: string): seq<Slice> {
    if value.Some? && value.value > 0 then [Slice(name, value.value, color)] else []
  }

  /** `sentimentData`: Positive, Neutral (0 when absent) and Negative, then
      only the entries above 0; an absent positive or negative count never
      compares above 0. */
  function SentimentData(s: SentimentCounts): (r: seq<Slice>)
    ensures |r| <= 3
    ensures forall x :: x in r ==> x.value > 0 && x.name in {"Positive", "Neutral", "Negative"}
  {
    SliceIfPositive("Positive", s.positive, "#10B981") + SliceIfPositive("Neutral", Some(OrZero(s.neutral)), "#6B7280")
    + SliceIfPositive("Negative", s.negative, "#EF4444")
  }

  function SliceSum(r: seq<Slice>): int
    decreases |r|
  {
    if r == [] then 0 else r[0].value + SliceSum(r[1..])
  }

  lemma {:induction false} SliceSumAppend(a: seq<Slice>, b: seq<Slice>)
    ensures SliceSum(a + b) == SliceSum(a) + SliceSum(b)
    decreases |a|
  {
    if a != [] {
      assert (a + b)[1..] == a[1..] + b;
      assert (a + b)[0] == a[0];
      SliceSumAppend(a[1..], b);
    } else {
      assert a + b == b;
    }
  }

  /** Dropping the empty slices loses nothing: with no negative count, the
      pie adds up to the total of the metric card. A slice is shown exactly
      when its count is above 0, in the order Positive, Neutral,
      Negative. */
  lemma SentimentDataSpec(s: SentimentCounts)
    requires OrZero(s.positive) >= 0 && OrZero(s.neutral) >= 0 && OrZero(s.negative) >= 0
    ensures SliceSum(SentimentData(s)) == TotalSentiment(Some(s))
    ensures (Slice("Positive", OrZero(s.positive), "#10B981") in SentimentData(s)) <==> OrZero(s.positive) > 0
    ensures (Slice("Neutral", OrZero(s.neutral), "#6B7280") in SentimentData(s)) <==> OrZero(s.neutral) > 0
    ensures (Slice("Negative", OrZero(s.negative), "#EF4444") in SentimentData(s)) <==> OrZero(s.negative) > 0
    ensures OrZero(s.positive) > 0 ==> SentimentData(s)[0].name == "Positive"
    ensures OrZero(s.negative) > 0 ==> SentimentData(s)[|SentimentData(s)| - 1].name == "Negative"
  {
    var p := SliceIfPositive("Positive", s.positive, "#10B981");
    var u := SliceIfPositive("Neutral", Some(OrZero(s.neutral)), "#6B7280");
    var n := SliceIfPositive("Negative", s.negative, "#EF4444");
    SliceSumAppend(p, u);
    SliceSumAppend(p + u, n);
  }

  /** `getPercentageChange`: the fixed table, 0 for any other type. */
  function PercentageChange(kind: string): int {
    if kind == "queries" then 12
    else if kind == "users" then 8
    else if kind == "satisfaction" then 3
    else if kind == "response_time" then -5
    else 0
  }

  /** Only the four known metrics report a change, and only the response
      time goes down. */
  lemma PercentageChangeSpec(kind: string)
    ensures PercentageChange(kind) != 0 <==> kind in {"queries", "users", "satisfaction", "response_time"}
    ensures PercentageChange(kind) < 0 <==> kind == "response_time"
  {
  }

  // ---------------------------------------------------------------------------
  // The page

  /** The metric-card state; the conversations are kept by session id. */
  datatype Metrics = Metrics(sentiment: SentimentCounts, userCount: int, totalQueries: int, conversations: seq<string>)

  /** Today's request: `sentiment`, `user_count` and `conversations`, each
      possibly absent, or a failure. */
  datatype TodayFetch =
    | TodayFetched(sentiment: Option<SentimentCounts>, userCount: Option<int>, conversations: Option<seq<string>>)
    | TodayFailed

  const Initial := Metrics(SentimentCounts(Some(0), None, Some(0)), 0, 0, [])

  function MetricsOf(f: TodayFetch): Metrics
    requires f.TodayFetched?
  {
    Metrics(if f.sentiment.Some? then f.sentiment.value else SentimentCounts(Some(0), Some(0), Some(0)),
            OrZero(f.userCount), TotalSentiment(f.sentiment),
            if f.conversations.Some? then f.conversations.value else [])
  }

  class DashboardPage {
    var loading: bool
    var analytics: Metrics
    var usageTrends: seq<Trend>

    constructor()
      ensures loading && analytics == Initial && usageTrends == []
    {
      loading := true;
      analytics := Initial;
      usageTrends := [];
    }

    /** `fetchAnalytics`. `tokenOk` says whether the token lookup
        succeeded. The trends are set from the seven days before today's
        request is made, so a failure of today's request replaces them
        with the zero list again; the metric cards change only when every
        request got through. */
    method FetchAnalytics(tokenOk: bool, dateOf: int -> string, day: int -> DayFetch, today: TodayFetch)
      modifies this
      ensures tokenOk && today.TodayFetched? ==>
        usageTrends == Trends(dateOf, day) && analytics == MetricsOf(today)
      ensures !(tokenOk && today.TodayFetched?) ==>
        usageTrends == EmptyTrends(dateOf) && analytics == old(analytics)
      ensures !loading
    {
      loading := true;
      if !tokenOk {
        usageTrends := CollectEmptyTrends(dateOf);
      } else {
        usageTrends := CollectTrends(dateOf, day);
        if today.TodayFailed? {
          usageTrends := CollectEmptyTrends(dateOf);
        } else {
          var total := TotalSentiment(today.sentiment);
          analytics := Metrics(
            if today.sentiment.Some? then today.sentiment.value else SentimentCounts(Some(0), Some(0), Some(0)),
            OrZero(today.userCount), total,
            if today.conversations.Some? then today.conversations.value else []);
        }
      }
      loading := false;
    }
  }

  /** When today's request fails, the results of the seven days already
      fetched are lost: the trend list is all zeros even for days that
      answered. */
  lemma TodayFailureDropsTrends(dateOf: int -> string, day: int -> DayFetch)
    requires day(0) == DayFetched(Some(5))
    ensures Trends(dateOf, day)[6].queries == 5 && EmptyTrends(dateOf)[6].queries == 0
  {
  }
}
