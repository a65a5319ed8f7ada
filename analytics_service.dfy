/** The analytics service (src/services/api/analyticsService.js): totals and
    revenue over the page table, a fixed seven-day chart, the five most
    viewed pages, and a fixed visitor feed. Ranking the pages sorts the
    page table itself, in place, by views. */
module AnalyticsService {
  import opened JsValues
  import opened Tables
  import opened BonusPageService
  import opened CounterTotals

  /** The average commission per conversion, in dollars. */
  const CommissionPerConversion := 47
  const DayMillis := 24 * 60 * 60 * 1000
  const MinuteMillis := 60 * 1000
  const TopCount := 5

  // ---------------------------------------------------------------------
  // Ranking by views

  /** `page.views || 0`, the sort key. */
  function ViewKey(page: Record): int {
    Count(Get(page, "views"))
  }

  function HasViewKey(k: int): Record -> bool {
    (page: Record) => ViewKey(page) == k
  }

  predicate SortedByViews(s: seq<Record>) {
    forall i, j :: 0 <= i < j < |s| ==> ViewKey(s[i]) >= ViewKey(s[j])
  }

  /** Inserts `x` after every element with at least its views. */
  function InsertByViews(x: Record, s: seq<Record>): (r: seq<Record>)
    ensures |r| == |s| + 1
    ensures multiset(r) == multiset(s) + multiset{x}
    decreases |s|
  {
    if |s| == 0 then [x]
    else
      assert s == [s[0]] + s[1..];
      if ViewKey(s[0]) >= ViewKey(x) then [s[0]] + InsertByViews(x, s[1..])
      else [x] + s
  }

  /** `sort((a, b) => (b.views || 0) - (a.views || 0))`: a stable sort,
      most views first. */
  function SortByViews(s: seq<Record>): (r: seq<Record>)
    ensures |r| == |s|
    ensures multiset(r) == multiset(s)
    decreases |s|
  {
    if |s| == 0 then []
    else
      assert s == s[..|s| - 1] + [s[|s| - 1]];
      InsertByViews(s[|s| - 1], SortByViews(s[..|s| - 1]))
  }

  /** Inserting keeps every element within a bound both sides respect. */
  lemma {:induction false} InsertBounded(x: Record, s: seq<Record>, bound: int)
    requires ViewKey(x) <= bound
    requires forall j :: 0 <= j < |s| ==> ViewKey(s[j]) <= bound
    ensures forall j :: 0 <= j < |s| + 1 ==> ViewKey(InsertByViews(x, s)[j]) <= bound
    decreases |s|
  {
    if |s| > 0 && ViewKey(s[0]) >= ViewKey(x) {
      InsertBounded(x, s[1..], bound);
    }
  }

  lemma {:induction false} InsertKeepsSorted(x: Record, s: seq<Record>)
    requires SortedByViews(s)
    ensures SortedByViews(InsertByViews(x, s))
    decreases |s|
  {
    if |s| > 0 && ViewKey(s[0]) >= ViewKey(x) {
      InsertKeepsSorted(x, s[1..]);
      InsertBounded(x, s[1..], ViewKey(s[0]));
    }
  }

  /** The ranking is in order of views, most first. */
  lemma {:induction false} SortByViewsSorted(s: seq<Record>)
    ensures SortedByViews(SortByViews(s))
    decreases |s|
  {
    if |s| > 0 {
      SortByViewsSorted(s[..|s| - 1]);
      InsertKeepsSorted(s[|s| - 1], SortByViews(s[..|s| - 1]));
    }
  }

  lemma {:induction false} InsertStable(x: Record, s: seq<Record>, k: int)
    requires SortedByViews(s)
    ensures Filter(InsertByViews(x, s), HasViewKey(k))
      == Filter(s, HasViewKey(k)) + (if ViewKey(x) == k then [x] else [])
    decreases |s|
  {
    if |s| == 0 {
    } else if ViewKey(s[0]) >= ViewKey(x) {
      InsertStable(x, s[1..], k);
      assert ([s[0]] + InsertByViews(x, s[1..]))[1..] == InsertByViews(x, s[1..]);
    } else {
      assert ([x] + s)[1..] == s;
      if ViewKey(x) == k {
        FilterDropsAll(s, HasViewKey(k));
      }
    }
  }

  /** The sort is stable: pages with equal views keep their relative order. */
  lemma {:induction false} SortByViewsStable(s: seq<Record>, k: int)
    ensures Filter(SortByViews(s), HasViewKey(k)) == Filter(s, HasViewKey(k))
    decreases |s|
  {
    if |s| > 0 {
      var init, last := s[..|s| - 1], s[|s| - 1];
      SortByViewsStable(init, k);
      SortByViewsSorted(init);
      InsertStable(last, SortByViews(init), k);
      assert s == init + [last];
      FilterConcat(init, [last], HasViewKey(k));
      assert Filter([last], HasViewKey(k)) == if ViewKey(last) == k then [last] else [] by {
        assert [last][1..] == [];
      }
    }
  }

  // ---------------------------------------------------------------------
  // The report

  /** `page.views > 0 ? ((page.clicks / page.views) * 100).toFixed(1) : 0`:
      `PercentText(c, v)` stands for the one-decimal text of c/v as a
      percentage (with `c` as stored, so a missing click count gives
      "NaN"), `ZeroRate` for the number 0. */
  datatype PageRate = ZeroRate | PercentText(clicks: Value, views: int)

  datatype TopPage = TopPage(id: Value, title: Value, views: int, clicks: int, conversionRate: PageRate)

  datatype Point = Point(x: int, y: int)
  datatype Series = Series(name: string, data: seq<Point>)

  /** One entry of the visitor feed, `timestamp` in milliseconds. */
  datatype Visit = Visit(id: int, pageTitle: string, action: string, timestamp: int, source: string)

  datatype Analytics = Analytics(
    totalViews: int,
    totalClicks: int,
    conversionRate: Rate,
    revenue: int,
    chartData: seq<Series>,
    topPages: seq<TopPage>,
    recentActivity: seq<Visit>)

  /** The summary row of one ranked page. */
  function Summarize(page: Record): (t: TopPage)
    requires NumericCounter(Get(page, "views")) && NumericCounter(Get(page, "clicks"))
    ensures t.id == Get(page, "id") && t.title == Get(page, "title")
    ensures Num(t.views) == Or(Get(page, "views"), Num(0)) && Num(t.clicks) == Or(Get(page, "clicks"), Num(0))
    ensures t.conversionRate.PercentText? <==> t.views > 0
  {
    IncrementNumeric(Get(page, "views"));
    IncrementNumeric(Get(page, "clicks"));
    var views := Get(page, "views");
    TopPage(Get(page, "id"), Get(page, "title"), Count(views), Count(Get(page, "clicks")),
      if views.Num? && views.n > 0 then PercentText(Get(page, "clicks"), views.n) else ZeroRate)
  }

  /** A series of seven daily points ending at `now`. */
  function Daily(name: string, ys: seq<int>, now: int): (s: Series)
    requires |ys| == 7
    ensures s.name == name && |s.data| == 7
    ensures forall i :: 0 <= i < 7 ==> s.data[i] == Point(now - (6 - i) * DayMillis, ys[i])
  {
    Series(name, seq(7, i requires 0 <= i < 7 => Point(now - (6 - i) * DayMillis, ys[i])))
  }

  function ChartData(now: int): seq<Series> {
    [Daily("Views", [45, 52, 38, 67, 49, 73, 61], now),
     Daily("Clicks", [12, 15, 9, 18, 13, 21, 16], now),
     Daily("Conversions", [2, 3, 1, 4, 2, 5, 3], now)]
  }

  function RecentVisits(now: int): seq<Visit> {
    [Visit(1, "P.E.A Profit Multiplier Toolkit", "view", now - 10 * MinuteMillis, "Direct"),
     Visit(2, "5-Day Cash Machine Course", "click", now - 25 * MinuteMillis, "Facebook"),
     Visit(3, "Social Media Domination Pack", "view", now - 45 * MinuteMillis, "Email"),
     Visit(4, "Conversion Optimization Masterclass", "click", now - 60 * MinuteMillis, "Twitter")]
  }

  /** Every page's counters are numeric: the case the report adds up. */
  predicate Countable(pages: seq<Record>) {
    NumericCounters(pages, "views") && NumericCounters(pages, "clicks") && NumericCounters(pages, "conversions")
  }

  /** The report getAnalytics returns for the table `pages` at clock `now`. */
  function Report(pages: seq<Record>, now: int): (a: Analytics)
    requires Countable(pages)
    ensures ReduceSum(pages, "views") == Num(a.totalViews)
    ensures ReduceSum(pages, "clicks") == Num(a.totalClicks)
    ensures ReduceSum(pages, "conversions") == Num(a.revenue / CommissionPerConversion)
    ensures a.revenue % CommissionPerConversion == 0
    ensures a.conversionRate == ClickRate(a.totalClicks, a.totalViews)
    ensures a.topPages == TopPages(pages) && a.chartData == ChartData(now)
  {
    ReduceSumIsTotal(pages, "views");
    ReduceSumIsTotal(pages, "clicks");
    ReduceSumIsTotal(pages, "conversions");
    var views, clicks := Total(pages, "views"), Total(pages, "clicks");
    Analytics(views, clicks, ClickRate(clicks, views),
      Total(pages, "conversions") * CommissionPerConversion,
      ChartData(now),
      TopPages(pages),
      RecentVisits(now))
  }

  /** `sort(...).slice(0, 5).map(...)`: the summaries of the first five
      pages of the ranking. */
  function TopPages(pages: seq<Record>): (top: seq<TopPage>)
    requires Countable(pages)
    ensures |top| == if |pages| < TopCount then |pages| else TopCount
    ensures forall i :: 0 <= i < |top| ==>
      top[i].views == ViewKey(SortByViews(pages)[i]) && top[i].id == Get(SortByViews(pages)[i], "id")
    ensures Countable(SortByViews(pages))
    ensures forall i :: 0 <= i < |top| ==> top[i] == Summarize(SortByViews(pages)[i])
  {
    var ranked := SortByViews(pages);
    SortKeepsCountable(pages);
    var n := if |ranked| < TopCount then |ranked| else TopCount;
    seq(n, i requires 0 <= i < n => Summarize(ranked[i]))
  }

  lemma SortKeepsCountable(pages: seq<Record>)
    requires Countable(pages)
    ensures Countable(SortByViews(pages))
  {
    var r := SortByViews(pages);
    forall j | 0 <= j < |r|
      ensures r[j] in pages
    {
      assert r[j] in multiset(r);
    }
  }

  /** The top pages are in order of views, and no page left out of them
      has more views than the last one listed. */
  lemma TopPagesAreTheMostViewed(pages: seq<Record>)
    requires Countable(pages)
    ensures var top := TopPages(pages);
      (forall i, j :: 0 <= i < j < |top| ==> top[i].views >= top[j].views)
      && (|top| > 0 ==> forall p :: p in pages && ViewKey(p) > top[|top| - 1].views ==>
            p in SortByViews(pages)[..|top|])
  {
    TopPagesInOrder(pages);
    TopPagesCutoff(pages);
  }

  /** Helper: the top entries are in non-increasing order of views. */
  lemma TopPagesInOrder(pages: seq<Record>)
    requires Countable(pages)
    ensures var top := TopPages(pages);
      forall i, j :: 0 <= i < j < |top| ==> top[i].views >= top[j].views
  {
    SortByViewsSorted(pages);
    var ranked, top := SortByViews(pages), TopPages(pages);
    TopOfRanking(pages, ranked, top);
  }

  /** Helper: every page with more views than the last entry is ranked
      among the entries. */
  lemma TopPagesCutoff(pages: seq<Record>)
    requires Countable(pages)
    ensures var top := TopPages(pages);
      |top| > 0 ==> forall p :: p in pages && ViewKey(p) > top[|top| - 1].views ==>
        p in SortByViews(pages)[..|top|]
  {
    SortByViewsSorted(pages);
    var ranked, top := SortByViews(pages), TopPages(pages);
    TopOfRanking(pages, ranked, top);
  }

  /** Helper: entries whose views follow a sorted ranking of `pages` are in
      order, and every page above the last entry is ranked before it. */
  lemma TopOfRanking(pages: seq<Record>, ranked: seq<Record>, top: seq<TopPage>)
    requires SortedByViews(ranked) && multiset(ranked) == multiset(pages) && |top| <= |ranked|
    requires forall i :: 0 <= i < |top| ==> top[i].views == ViewKey(ranked[i])
    ensures forall i, j :: 0 <= i < j < |top| ==> top[i].views >= top[j].views
    ensures |top| > 0 ==> forall p :: p in pages && ViewKey(p) > top[|top| - 1].views ==> p in ranked[..|top|]
  {
    var n := |top|;
    if n > 0 {
      forall p | p in pages && ViewKey(p) > top[n - 1].views
        ensures p in ranked[..n]
      {
        assert p in multiset(pages);
        AboveCutoffIsRanked(ranked, n, p);
      }
    }
  }

  /** In a sorted ranking, a page with more views than the one at the
      cut-off comes before the cut-off. */
  lemma AboveCutoffIsRanked(ranked: seq<Record>, n: nat, p: Record)
    requires SortedByViews(ranked) && 0 < n <= |ranked|
    requires p in ranked && ViewKey(p) > ViewKey(ranked[n - 1])
    ensures p in ranked[..n]
  {
    var m :| 0 <= m < |ranked| && ranked[m] == p;
    assert ranked[..n][m] == p;
  }

  /** The chart has the three series, each with a point per day ending today. */
  lemma ChartCoversTheWeek(now: int)
    ensures var c := ChartData(now);
      |c| == 3 && c[0].name == "Views" && c[1].name == "Clicks" && c[2].name == "Conversions"
      && forall s :: s in c ==>
        (|s.data| == 7 && s.data[6].x == now && forall i, j :: 0 <= i < j < 7 ==> s.data[i].x < s.data[j].x)
  {
  }

  /** getAnalytics reads the live page table, and its ranking step sorts
      that table in place, most viewed first. */
  method GetAnalytics(store: BonusPageStore, now: int) returns (a: Analytics)
    requires Countable(store.pages)
    modifies store
    ensures a == Report(old(store.pages), now)
    ensures store.pages == SortByViews(old(store.pages))
  {
    var pages := store.GetAll();
    a := Report(pages, now);
    store.pages := SortByViews(pages);
  }
}
