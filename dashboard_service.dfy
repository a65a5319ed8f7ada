/** The dashboard service (src/services/api/dashboardService.js): headline
    statistics over the bonus and page tables, and a fixed activity feed. */
module DashboardService {
  import opened JsValues
  import opened Tables
  import opened BonusPageService
  import opened CounterTotals

  const HourMillis := 60 * 60 * 1000

  datatype Stats = Stats(totalBonuses: nat, activePages: nat, totalViews: int, conversionRate: Rate)

  /** `p.status === "active"`. */
  predicate IsActive(page: Record) {
    StrictEquals(Get(page, "status"), Str("active"))
  }

  function ActiveTest(): Record -> bool {
    (page: Record) => IsActive(page)
  }

  /** getStats over the two tables, when the view and click counters of
      every page are numeric. */
  function GetStats(bonuses: seq<Record>, pages: seq<Record>): (s: Stats)
    requires NumericCounters(pages, "views") && NumericCounters(pages, "clicks")
    ensures s.totalBonuses == |bonuses|
    ensures s.activePages == |Filter(pages, ActiveTest())| <= |pages|
    ensures ReduceSum(pages, "views") == Num(s.totalViews)
    ensures s.conversionRate.NoViews? <==> s.totalViews <= 0
    ensures s.conversionRate.Percent? ==> ReduceSum(pages, "clicks") == Num(s.conversionRate.clicks)
    ensures s.conversionRate.Percent? ==> s.conversionRate.views == s.totalViews
  {
    ReduceSumIsTotal(pages, "views");
    ReduceSumIsTotal(pages, "clicks");
    var views := Total(pages, "views");
    Stats(|bonuses|, |Filter(pages, ActiveTest())|, views, ClickRate(Total(pages, "clicks"), views))
  }

  /** A page created through the page service shows up as one more active
      page, with no views yet. */
  lemma StatsAfterCreatePage(bonuses: seq<Record>, pages: seq<Record>, pageData: Record, idStamp: int, urlStamp: int, origin: string, createdAt: string)
    requires NumericCounters(pages, "views") && NumericCounters(pages, "clicks")
    ensures var after := pages + [NewPage(pageData, idStamp, urlStamp, origin, createdAt)];
      NumericCounters(after, "views") && NumericCounters(after, "clicks")
      && GetStats(bonuses, after).activePages == GetStats(bonuses, pages).activePages + 1
      && GetStats(bonuses, after).totalViews == GetStats(bonuses, pages).totalViews
  {
    var page := NewPage(pageData, idStamp, urlStamp, origin, createdAt);
    CreateKeepsCountersNumeric(pages, page, "views");
    CreateKeepsCountersNumeric(pages, page, "clicks");
    FilterConcat(pages, [page], ActiveTest());
    assert Filter([page], ActiveTest()) == [page];
    TotalAppend(pages, page, "views");
  }

  /** A view of a stored page adds one to the total views and leaves the
      number of active pages alone. */
  lemma StatsAfterTrackView(bonuses: seq<Record>, pages: seq<Record>, id: Value)
    requires NumericCounters(pages, "views") && NumericCounters(pages, "clicks")
    requires IndexOf(pages, id).Some?
    ensures var after := Bump(pages, id, "views");
      NumericCounters(after, "views") && NumericCounters(after, "clicks")
      && GetStats(bonuses, after).totalViews == GetStats(bonuses, pages).totalViews + 1
      && GetStats(bonuses, after).activePages == GetStats(bonuses, pages).activePages
  {
    var i := IndexOf(pages, id).value;
    var page := pages[i][ "views" := Increment(Get(pages[i], "views"))];
    BumpKeepsCountersNumeric(pages, id, "views", "views");
    BumpKeepsCountersNumeric(pages, id, "views", "clicks");
    IncrementNumeric(Get(pages[i], "views"));
    TotalUpdate(pages, i, page, "views");
    assert IsActive(page) == IsActive(pages[i]);
    FilterLengthUpdate(pages, i, page, ActiveTest());
  }

  /** One entry of the activity feed; `kind` is its `type`, `timestamp`
      the time in milliseconds. */
  datatype Activity = Activity(id: int, kind: string, description: string, timestamp: int)

  /** getRecentActivity at clock reading `now`: four fixed events, two
      hours apart, the newest first. */
  function GetRecentActivity(now: int): (r: seq<Activity>)
    ensures |r| == 4
    ensures forall i :: 0 <= i < |r| ==> r[i].id == i + 1 && r[i].timestamp == now - 2 * (i + 1) * HourMillis
    ensures forall i, j :: 0 <= i < j < |r| ==> r[i].timestamp > r[j].timestamp
  {
    [
      Activity(1, "bonus_created", "Created new bonus: P.E.A Profit Multiplier Toolkit", now - 2 * HourMillis),
      Activity(2, "page_created", "Published bonus page: 5-Day Cash Machine Course", now - 4 * HourMillis),
      Activity(3, "page_viewed", "Bonus page viewed 15 times", now - 6 * HourMillis),
      Activity(4, "click_tracked", "Affiliate link clicked 3 times", now - 8 * HourMillis)
    ]
  }
}
