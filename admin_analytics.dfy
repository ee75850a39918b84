/** The analytics page: the per-category question counts of a timeframe,
    normalised over the twelve known categories, their total, the five
    largest, and the user count. The analytics request is an input. */
module AdminAnalytics {
  import opened Common
  import opened Sorting

  const DefaultCategories: seq<string> := [
    "Training & Courses", "Instructor Certification", "Learner Support", "Administrative Procedures",
    "Course Materials", "MHFA Connect Platform", "Recertification", "Mental Health Resources",
    "Scheduling & Registration", "Policies & Guidelines", "Technical Support", "Unknown"]

  /** One entry of the counts object, in its key order. */
  datatype Entry = Entry(category: string, count: int)

  /** `data.categories?.[c] || 0`: the server's count, 0 when the
      categories or this category are absent. */
  function CountFor(categories: Option<map<string, int>>, c: string): int {
    if categories.Some? && c in categories.value then categories.value[c] else 0
  }

  /** The counts object the page keeps: one entry per default category. */
  function Normalize(categories: Option<map<string, int>>): (entries: seq<Entry>)
    ensures |entries| == |DefaultCategories|
    ensures forall i :: 0 <= i < |entries| ==>
      entries[i] == Entry(DefaultCategories[i], CountFor(categories, DefaultCategories[i]))
  {
    seq(|DefaultCategories|, i requires 0 <= i < |DefaultCategories| =>
      Entry(DefaultCategories[i], CountFor(categories, DefaultCategories[i])))
  }

  /** The sum of the counts. */
  function Total(entries: seq<Entry>): int
    decreases |entries|
  {
    if entries == [] then 0 else Total(entries[..|entries| - 1]) + entries[|entries| - 1].count
  }

  /** The `forEach` over the default categories, filling the counts and
      the running total. */
  method NormalizeCounts(categories: Option<map<string, int>>) returns (counts: seq<Entry>, total: int)
    ensures counts == Normalize(categories) && total == Total(counts)
  {
    counts, total := [], 0;
    for i := 0 to |DefaultCategories|
      invariant counts == Normalize(categories)[..i]
      invariant total == Total(counts)
    {
      var c := DefaultCategories[i];
      var n := CountFor(categories, c);
      assert (counts + [Entry(c, n)])[..i] == counts;
      counts := counts + [Entry(c, n)];
      total := total + n;
    }
  }

  /** A category the page does not know changes nothing. */
  lemma IgnoresOtherCategories(m: map<string, int>, k: string, v: int)
    requires k !in DefaultCategories
    ensures Normalize(Some(m[k := v])) == Normalize(Some(m))
  {
    forall i | 0 <= i < |DefaultCategories| ensures CountFor(Some(m[k := v]), DefaultCategories[i]) == CountFor(Some(m), DefaultCategories[i]) {
      assert DefaultCategories[i] != k;
    }
  }

  lemma {:induction false} TotalOfZeros(entries: seq<Entry>)
    requires forall i :: 0 <= i < |entries| ==> entries[i].count == 0
    ensures Total(entries) == 0
    decreases |entries|
  {
    if entries != [] {
      TotalOfZeros(entries[..|entries| - 1]);
    }
  }

  /** Without categories every count, and so the total, is 0. */
  lemma NoCategories()
    ensures forall i :: 0 <= i < |DefaultCategories| ==> Normalize(None)[i].count == 0
    ensures Total(Normalize(None)) == 0
  {
    TotalOfZeros(Normalize(None));
  }

  // ---------------------------------------------------------------------------
  // Top categories

  /** The comparator `b[1] - a[1]`: larger counts first, ties kept in key
      order by the stable sort. */
  function ByCount(a: Entry, b: Entry): bool {
    a.count >= b.count
  }

  function Top(entries: seq<Entry>): seq<Entry> {
    Take(SortBy(entries, ByCount), 5)
  }

  /** The top list holds at most five entries, largest count first, each
      one an entry of the counts; no entry left out has a larger count
      than one shown. */
  lemma TopSpec(entries: seq<Entry>)
    ensures var t := Top(entries);
      |t| == (if |entries| < 5 then |entries| else 5)
      && Sorted(t, ByCount)
      && multiset(t) <= multiset(entries)
      && forall i, j :: 0 <= i < |t| <= j < |entries| ==> t[i].count >= SortBy(entries, ByCount)[j].count
  {
    assert TotalPreorder(ByCount);
    TakeSorted(entries, 5, ByCount);
    SortBySpec(entries, ByCount);
  }

  // ---------------------------------------------------------------------------
  // The page

  /** The analytics request: the body's `categories` and `user_count`, or
      a failure (the token lookup or the request raised). */
  datatype Fetch = Fetched(categories: Option<map<string, int>>, userCount: Option<int>) | FetchFailed

  class AnalyticsPage {
    var timeframe: string
    var categoryCounts: seq<Entry>
    var userCount: int
    var totalQuestions: int

    constructor()
      ensures timeframe == "today" && categoryCounts == [] && userCount == 0 && totalQuestions == 0
    {
      timeframe := "today";
      categoryCounts := [];
      userCount := 0;
      totalQuestions := 0;
    }

    /** `fetchAnalytics`: a response replaces the counts, the total and the
        user count (`user_count || 0`); a failure changes nothing. */
    method FetchAnalytics(f: Fetch)
      modifies this
      ensures f.FetchFailed? ==>
        categoryCounts == old(categoryCounts) && totalQuestions == old(totalQuestions) && userCount == old(userCount)
      ensures f.Fetched? ==>
        categoryCounts == Normalize(f.categories) && totalQuestions == Total(categoryCounts)
        && userCount == (if f.userCount.Some? then f.userCount.value else 0)
      ensures timeframe == old(timeframe)
    {
      if f.Fetched? {
        var counts, total := NormalizeCounts(f.categories);
        categoryCounts := counts;
        totalQuestions := total;
        userCount := if f.userCount.Some? then f.userCount.value else 0;
      }
    }
  }
}
