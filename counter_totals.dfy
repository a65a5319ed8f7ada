/** The page totals that the dashboard and the analytics services both
    compute (src/services/api/dashboardService.js,
    src/services/api/analyticsService.js): a counter summed over all
    pages with `pages.reduce((sum, page) => sum + (page.views || 0), 0)`, and
    the click-through rate derived from two such sums. */
module CounterTotals {
  import opened JsValues
  import opened BonusPageService

  /** The reduce itself, step by step with the `+` of JavaScript. */
  function ReduceSum(pages: seq<Record>, field: string): Value
    decreases |pages|
  {
    if |pages| == 0 then Num(0)
    else Add(ReduceSum(pages[..|pages| - 1], field), Or(Get(pages[|pages| - 1], field), Num(0)))
  }

  /** The arithmetic sum of the counters. */
  function Total(pages: seq<Record>, field: string): int
    decreases |pages|
  {
    if |pages| == 0 then 0
    else Total(pages[..|pages| - 1], field) + Count(Get(pages[|pages| - 1], field))
  }

  /** On numeric counters the reduce adds up the counters. */
  lemma {:induction false} ReduceSumIsTotal(pages: seq<Record>, field: string)
    requires NumericCounters(pages, field)
    ensures ReduceSum(pages, field) == Num(Total(pages, field))
    decreases |pages|
  {
    if |pages| > 0 {
      var init := pages[..|pages| - 1];
      assert NumericCounters(init, field) by {
        assert forall j :: 0 <= j < |init| ==> init[j] == pages[j];
      }
      ReduceSumIsTotal(init, field);
      IncrementNumeric(Get(pages[|pages| - 1], field));
    }
  }

  /** A page appended to the table adds its counter to the total. */
  lemma TotalAppend(pages: seq<Record>, page: Record, field: string)
    ensures Total(pages + [page], field) == Total(pages, field) + Count(Get(page, field))
  {
    assert (pages + [page])[..|pages|] == pages;
  }

  /** Replacing one page changes the total by the difference of its counters. */
  lemma {:induction false} TotalUpdate(pages: seq<Record>, i: nat, page: Record, field: string)
    requires i < |pages|
    ensures Total(pages[i := page], field)
      == Total(pages, field) - Count(Get(pages[i], field)) + Count(Get(page, field))
    decreases |pages|
  {
    var n := |pages|;
    var updated := pages[i := page];
    if i == n - 1 {
      assert updated[..n - 1] == pages[..n - 1];
    } else {
      assert updated[..n - 1] == pages[..n - 1][i := page];
      TotalUpdate(pages[..n - 1], i, page, field);
    }
  }

  /** `totalViews > 0 ? parseFloat(((totalClicks / totalViews) * 100).toFixed(1)) : 0`:
      `Percent(c, v)` stands for c/v as a percentage rounded to one decimal,
      `NoViews` for the number 0. */
  datatype Rate = NoViews | Percent(clicks: int, views: int)

  function ClickRate(clicks: int, views: int): (r: Rate)
    ensures r.NoViews? <==> views <= 0
    ensures r.Percent? ==> r.views == views && r.clicks == clicks && r.views > 0
  {
    if views > 0 then Percent(clicks, views) else NoViews
  }
}
