/** The simple admin dashboard: today's conversations, filtered by
    sentiment, with a category distribution, an hourly histogram, a
    sentiment chart and rows that expand. The analytics request and each
    conversation's local hour are inputs. */
module AdminDashboardSimple {
  import opened Common

  /** A conversation as the dashboard reads it. `hour` is the local hour of
      its timestamp, None when the timestamp is not a date. */
  datatype Conversation = Conversation(sessionId: string, sentiment: Option<string>, category: Option<string>,
                                       hour: Option<int>)

  /** `conv.sentiment || 'neutral'`. */
  function SentimentOf(c: Conversation): string {
    if c.sentiment.None? || c.sentiment.value == "" then "neutral" else c.sentiment.value
  }

  /** `filteredConversations`. */
  function Filtered(convs: seq<Conversation>, filter: string): seq<Conversation> {
    if filter == "all" then convs
    else Filter(convs, (c: Conversation) => Lower(SentimentOf(c)) == Lower(filter))
  }

  /** "all" keeps every conversation; any other filter keeps, in order,
      exactly those whose sentiment (neutral when absent) equals it up to
      case. */
  lemma FilteredSpec(convs: seq<Conversation>, filter: string)
    ensures filter == "all" ==> Filtered(convs, filter) == convs
    ensures filter != "all" ==>
      forall c :: c in Filtered(convs, filter) <==> c in convs && Lower(SentimentOf(c)) == Lower(filter)
    ensures |Filtered(convs, filter)| <= |convs|
  {
  }

  // ---------------------------------------------------------------------------
  // Category distribution

  function CategoryOf(c: Conversation): string {
    if c.category.None? || c.category.value == "" then "Unknown" else c.category.value
  }

  datatype CategoryCount = CategoryCount(name: string, value: nat)

  /** The categories in the order the reduce first meets them, which is the
      key order of the object it builds. */
  function Categories(convs: seq<Conversation>): seq<string>
    decreases |convs|
  {
    if convs == [] then []
    else
      var init, c := Categories(convs[..|convs| - 1]), CategoryOf(convs[|convs| - 1]);
      if c in init then init else init + [c]
  }

  /** The number of conversations in a category. */
  function CountIn(convs: seq<Conversation>, name: string): nat
    decreases |convs|
  {
    if convs == [] then 0
    else CountIn(convs[..|convs| - 1], name) + (if CategoryOf(convs[|convs| - 1]) == name then 1 else 0)
  }

  /** `categoryData`: each category with its count. */
  function CategoryData(convs: seq<Conversation>): seq<CategoryCount> {
    var names := Categories(convs);
    seq(|names|, i requires 0 <= i < |names| => CategoryCount(names[i], CountIn(convs, names[i])))
  }

  function Sum(d: seq<CategoryCount>): nat
    decreases |d|
  {
    if d == [] then 0 else d[0].value + Sum(d[1..])
  }

  function SumCounts(names: seq<string>, convs: seq<Conversation>): nat
    decreases |names|
  {
    if names == [] then 0 else CountIn(convs, names[0]) + SumCounts(names[1..], convs)
  }

  predicate Distinct(names: seq<string>) {
    forall i, j :: 0 <= i < j < |names| ==> names[i] != names[j]
  }

  lemma {:induction false} CategoriesSpec(convs: seq<Conversation>)
    ensures Distinct(Categories(convs))
    ensures forall n :: n in Categories(convs) <==> exists i :: 0 <= i < |convs| && CategoryOf(convs[i]) == n
    decreases |convs|
  {
    if convs != [] {
      var init := convs[..|convs| - 1];
      CategoriesSpec(init);
      forall n ensures n in Categories(convs) <==> exists i :: 0 <= i < |convs| && CategoryOf(convs[i]) == n {
        if n in Categories(init) {
          var i :| 0 <= i < |init| && CategoryOf(init[i]) == n;
          assert convs[i] == init[i];
        }
        if exists i :: 0 <= i < |convs| && CategoryOf(convs[i]) == n {
          var i :| 0 <= i < |convs| && CategoryOf(convs[i]) == n;
          if i < |init| {
            assert convs[i] == init[i];
          }
        }
      }
    }
  }

  lemma {:induction false} CountInAbsent(convs: seq<Conversation>, name: string)
    requires name !in Categories(convs)
    ensures CountIn(convs, name) == 0
    decreases |convs|
  {
    if convs != [] {
      CountInAbsent(convs[..|convs| - 1], name);
    }
  }

  lemma {:induction false} SumCountsStep(names: seq<string>, convs: seq<Conversation>)
    requires convs != [] && Distinct(names)
    ensures SumCounts(names, convs)
      == SumCounts(names, convs[..|convs| - 1]) + (if CategoryOf(convs[|convs| - 1]) in names then 1 else 0)
    decreases |names|
  {
    if names != [] {
      SumCountsStep(names[1..], convs);
      assert CategoryOf(convs[|convs| - 1]) in names <==>
        CategoryOf(convs[|convs| - 1]) == names[0] || CategoryOf(convs[|convs| - 1]) in names[1..];
    }
  }

  lemma {:induction false} SumCountsAppend(names: seq<string>, n: string, convs: seq<Conversation>)
    ensures SumCounts(names + [n], convs) == SumCounts(names, convs) + CountIn(convs, n)
    decreases |names|
  {
    if names != [] {
      assert (names + [n])[1..] == names[1..] + [n];
      SumCountsAppend(names[1..], n, convs);
    }
  }

  lemma {:induction false} SumIsSumCounts(names: seq<string>, convs: seq<Conversation>)
    ensures Sum(seq(|names|, i requires 0 <= i < |names| => CategoryCount(names[i], CountIn(convs, names[i]))))
      == SumCounts(names, convs)
    decreases |names|
  {
    if names != [] {
      SumIsSumCounts(names[1..], convs);
      var d := seq(|names|, i requires 0 <= i < |names| => CategoryCount(names[i], CountIn(convs, names[i])));
      assert d[1..] == seq(|names[1..]|, i requires 0 <= i < |names[1..]| =>
        CategoryCount(names[1..][i], CountIn(convs, names[1..][i])));
    }
  }

  lemma {:induction false} SumCountsAll(convs: seq<Conversation>)
    ensures SumCounts(Categories(convs), convs) == |convs|
    decreases |convs|
  {
    if convs != [] {
      var init := convs[..|convs| - 1];
      var c := CategoryOf(convs[|convs| - 1]);
      SumCountsAll(init);
      CategoriesSpec(init);
      SumCountsStep(Categories(init), convs);
      if c !in Categories(init) {
        SumCountsAppend(Categories(init), c, convs);
        CountInAbsent(init, c);
      }
    }
  }

  /** The distribution lists each category once, in the order it first
      occurs; a category is listed exactly when some conversation is in it
      (a missing category counting as "Unknown"), with the number of
      conversations in it; the counts add up to the number of
      conversations. */
  lemma CategoryDataSpec(convs: seq<Conversation>)
    ensures var d := CategoryData(convs);
      Distinct(Categories(convs))
      && (forall e :: e in d ==> e.value == CountIn(convs, e.name))
      && (forall n :: n in Categories(convs) <==> exists i :: 0 <= i < |convs| && CategoryOf(convs[i]) == n)
      && Sum(d) == |convs|
  {
    CategoriesSpec(convs);
    SumCountsAll(convs);
    SumIsSumCounts(Categories(convs), convs);
  }

  // ---------------------------------------------------------------------------
  // Hourly activity

  datatype Bucket = Bucket(time: string, hour: int, conversations: nat)

  function AtHour(convs: seq<Conversation>, h: int): seq<Conversation> {
    Filter(convs, (c: Conversation) => c.hour == Some(h))
  }

  /** `hourlyData`: one bucket per hour from 8 to 19. */
  function HourlyData(convs: seq<Conversation>): seq<Bucket> {
    seq(12, i requires 0 <= i < 12 => Bucket(IntToString(i + 8) + ":00", i + 8, |AtHour(convs, i + 8)|))
  }

  /** Twelve buckets for the hours 8 to 19 in order, each counting the
      conversations of its hour, never more than there are. */
  lemma HourlySpec(convs: seq<Conversation>)
    ensures |HourlyData(convs)| == 12
    ensures forall i :: 0 <= i < 12 ==>
      HourlyData(convs)[i].hour == i + 8
      && HourlyData(convs)[i].conversations <= |convs|
      && (forall c :: c in AtHour(convs, i + 8) <==> c in convs && c.hour == Some(i + 8))
  {
  }

  // ---------------------------------------------------------------------------
  // Sentiment chart and colours

  datatype SentimentCounts = SentimentCounts(positive: Option<int>, neutral: Option<int>, negative: Option<int>)

  datatype Slice = Slice(name: string, value: int, color: string)

  function OrZero(x: Option<int>): int {
    if x.Some? then x.value else 0
  }

  /** `sentimentChartData`. */
  function ChartData(s: SentimentCounts): (r: seq<Slice>)
    ensures |r| == 3 && r[0].name == "Positive" && r[1].name == "Neutral" && r[2].name == "Negative"
    ensures r[0].value == OrZero(s.positive) && r[1].value == OrZero(s.neutral) && r[2].value == OrZero(s.negative)
  {
    [Slice("Positive", OrZero(s.positive), "#4CAF50"), Slice("Neutral", OrZero(s.neutral), "#FFC107"),
     Slice("Negative", OrZero(s.negative), "#F44336")]
  }

  /** `getSentimentColor`: green for positive, red for negative, whatever
      the case; amber for anything else, an absent sentiment included. */
  function SentimentColor(sentiment: Option<string>): (color: string)
    ensures sentiment.Some? && Lower(sentiment.value) == "positive" ==> color == "#4CAF50"
    ensures sentiment.Some? && Lower(sentiment.value) == "negative" ==> color == "#F44336"
    ensures (sentiment.None? || Lower(sentiment.value) !in {"positive", "negative"}) ==> color == "#FFC107"
  {
    if sentiment.None? then "#FFC107"
    else
      var s := Lower(sentiment.value);
      if s == "positive" then "#4CAF50" else if s == "negative" then "#F44336" else "#FFC107"
  }

  datatype Icon = Happy | Sad | Neutral

  /** `getSentimentIcon`, with the same cases. */
  function SentimentIcon(sentiment: Option<string>): (icon: Icon)
    ensures icon == Happy <==> sentiment.Some? && Lower(sentiment.value) == "positive"
    ensures icon == Sad <==> sentiment.Some? && Lower(sentiment.value) == "negative"
  {
    if sentiment.None? then Neutral
    else
      var s := Lower(sentiment.value);
      if s == "positive" then Happy else if s == "negative" then Sad else Neutral
  }

  /** The icon and the colour of a row always agree: green with the happy
      face, red with the sad one, amber with the neutral one. */
  lemma IconMatchesColor(sentiment: Option<string>)
    ensures SentimentIcon(sentiment) == Happy <==> SentimentColor(sentiment) == "#4CAF50"
    ensures SentimentIcon(sentiment) == Sad <==> SentimentColor(sentiment) == "#F44336"
    ensures SentimentIcon(sentiment) == Neutral <==> SentimentColor(sentiment) == "#FFC107"
  {
  }

  // ---------------------------------------------------------------------------
  // Expanded rows

  predicate Expanded(rows: map<string, bool>, k: string) {
    k in rows && rows[k]
  }

  /** `toggleRow`: the key's flag becomes `!prev[k]`, an absent key
      reading as not expanded. */
  function ToggleRow(rows: map<string, bool>, k: string): map<string, bool> {
    rows[k := !Expanded(rows, k)]
  }

  /** A toggle flips only the given row; two toggles give back whether it
      was expanded. */
  lemma ToggleRowSpec(rows: map<string, bool>, k: string)
    ensures Expanded(ToggleRow(rows, k), k) == !Expanded(rows, k)
    ensures forall j :: j != k ==>
      (j in ToggleRow(rows, k) <==> j in rows) && (j in rows ==> ToggleRow(rows, k)[j] == rows[j])
    ensures Expanded(ToggleRow(ToggleRow(rows, k), k), k) == Expanded(rows, k)
  {
  }

  // ---------------------------------------------------------------------------
  // The page

  datatype Analytics = Analytics(sentiment: SentimentCounts, userCount: int, conversations: seq<Conversation>)

  /** The analytics request: the body's `sentiment`, `user_count` and
      `conversations`, each possibly absent, or a failure. */
  datatype Fetch =
    | Fetched(sentiment: Option<SentimentCounts>, userCount: Option<int>, conversations: Option<seq<Conversation>>)
    | FetchFailed

  const ZeroCounts := SentimentCounts(Some(0), Some(0), Some(0))

  class SimpleDashboard {
    var loading: bool
    var sentimentFilter: string
    var analytics: Analytics
    var expandedRows: map<string, bool>

    constructor()
      ensures loading && sentimentFilter == "all" && analytics == Analytics(ZeroCounts, 0, []) && expandedRows == map[]
    {
      loading := true;
      sentimentFilter := "all";
      analytics := Analytics(ZeroCounts, 0, []);
      expandedRows := map[];
    }

    /** `fetchAnalytics`: a response replaces the analytics, each part
        defaulting when absent; a failure keeps them. */
    method FetchAnalytics(f: Fetch)
      modifies this
      ensures f.FetchFailed? ==> analytics == old(analytics)
      ensures f.Fetched? ==> analytics == Analytics(
        if f.sentiment.Some? then f.sentiment.value else ZeroCounts,
        OrZero(f.userCount),
        if f.conversations.Some? then f.conversations.value else [])
      ensures !loading && sentimentFilter == old(sentimentFilter) && expandedRows == old(expandedRows)
    {
      loading := true;
      if f.Fetched? {
        analytics := Analytics(
          if f.sentiment.Some? then f.sentiment.value else ZeroCounts,
          OrZero(f.userCount),
          if f.conversations.Some? then f.conversations.value else []);
      }
      loading := false;
    }

    method HandleToggleRow(k: string)
      modifies this
      ensures expandedRows == ToggleRow(old(expandedRows), k)
      ensures analytics == old(analytics) && sentimentFilter == old(sentimentFilter) && loading == old(loading)
    {
      expandedRows := expandedRows[k := !(k in expandedRows && expandedRows[k])];
    }
  }
}
