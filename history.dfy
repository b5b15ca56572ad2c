/**
 * The purchase history page (src/history/history.js): the filter bar, the
 * summary cards, the platform options, the category chart and the weekly
 * trend bars. The page keeps its own copy of the stored list.
 */
module History {
  import opened Wrappers
  import opened Text
  import opened Records
  import Store

  // ---------------------------------------------------------------- filters

  /** The four controls of the filter bar, as the page reads them. */
  datatype Filters = Filters(period: string, category: string, platform: string, search: string)

  /** The start of a period as the page's own switch computes it; a value the switch does not know has none. */
  function PeriodStart(period: string, starts: PeriodStarts): (r: Option<int>)
    ensures r.Some? <==> period == "weekly" || period == "monthly" || period == "yearly"
    ensures period == "weekly" ==> r == Some(starts.weekly)
    ensures period == "monthly" ==> r == Some(starts.monthly)
    ensures period == "yearly" ==> r == Some(starts.yearly)
  {
    if period == "weekly" then Some(starts.weekly)
    else if period == "monthly" then Some(starts.monthly)
    else if period == "yearly" then Some(starts.yearly)
    else None
  }

  /** `new Date(p.date) >= startDate`: false when the date or the start is missing. */
  predicate InPeriod(period: string, starts: PeriodStarts, p: Purchase) {
    var start := PeriodStart(period, starts);
    start.Some? && DatedFrom(p, start.value)
  }

  /** The search box after lower-casing and trimming. */
  function Needle(search: string): string {
    Trim(Lower(search))
  }

  predicate MatchesSearch(needle: string, p: Purchase) {
    || Contains(Lower(p.description), needle)
    || Contains(Lower(p.platform), needle)
    || Contains(Lower(p.category), needle)
  }

  /** Whether a purchase passes the first `k` filters, in the page's order. */
  predicate PassesFirst(f: Filters, starts: PeriodStarts, k: nat, p: Purchase) {
    && (k < 1 || f.period == "all" || InPeriod(f.period, starts, p))
    && (k < 2 || f.category == "all" || p.category == f.category)
    && (k < 3 || f.platform == "all" || p.platform == f.platform)
    && (k < 4 || Needle(f.search) == [] || MatchesSearch(Needle(f.search), p))
  }

  function Stage(f: Filters, starts: PeriodStarts, k: nat): Purchase -> bool {
    p => PassesFirst(f, starts, k, p)
  }

  function PeriodTest(period: string, starts: PeriodStarts): Purchase -> bool {
    p => InPeriod(period, starts, p)
  }

  function CategoryIs(category: string): Purchase -> bool {
    (p: Purchase) => p.category == category
  }

  function PlatformIs(platform: string): Purchase -> bool {
    (p: Purchase) => p.platform == platform
  }

  function SearchTest(needle: string): Purchase -> bool {
    p => MatchesSearch(needle, p)
  }

  // ---------------------------------------------------------------- summary

  /** The four summary cards. */
  datatype Summary = Summary(total: int, count: nat, average: real, topCategory: string)

  /** `top` is the first bucket whose total is strictly greater than every earlier one and than 0. */
  predicate IsTop(g: seq<Bucket>, top: Option<nat>) {
    && (top.None? <==> forall i :: 0 <= i < |g| ==> g[i].total <= 0)
    && (top.Some? ==>
          && top.value < |g|
          && g[top.value].total > 0
          && (forall j :: 0 <= j < top.value ==> g[j].total < g[top.value].total)
          && (forall j :: top.value < j < |g| ==> g[j].total <= g[top.value].total))
  }

  // ---------------------------------------------------------------- the page

  class HistoryPage {
    /** The page's copy of the stored list (`allPurchases`). */
    var allPurchases: seq<Purchase>

    /** The page load: the stored list is read once. */
    constructor (store: Store.PurchaseStore)
      ensures allPurchases == store.purchases
    {
      allPurchases := store.purchases;
    }

    /**
     * `getFilteredPurchases()`: each active filter narrows the list in turn,
     * "all" (or a blank search) leaving it as it is.
     */
    method GetFilteredPurchases(f: Filters, starts: PeriodStarts) returns (filtered: seq<Purchase>)
      ensures filtered == Filter(allPurchases, Stage(f, starts, 4))
    {
      filtered := allPurchases;
      FilterAll(allPurchases, Stage(f, starts, 0));
      if f.period != "all" {
        FilterTwice(allPurchases, Stage(f, starts, 0), PeriodTest(f.period, starts), Stage(f, starts, 1));
        filtered := Filter(filtered, PeriodTest(f.period, starts));
      } else {
        FilterSame(allPurchases, Stage(f, starts, 0), Stage(f, starts, 1));
      }
      if f.category != "all" {
        FilterTwice(allPurchases, Stage(f, starts, 1), CategoryIs(f.category), Stage(f, starts, 2));
        filtered := Filter(filtered, CategoryIs(f.category));
      } else {
        FilterSame(allPurchases, Stage(f, starts, 1), Stage(f, starts, 2));
      }
      if f.platform != "all" {
        FilterTwice(allPurchases, Stage(f, starts, 2), PlatformIs(f.platform), Stage(f, starts, 3));
        filtered := Filter(filtered, PlatformIs(f.platform));
      } else {
        FilterSame(allPurchases, Stage(f, starts, 2), Stage(f, starts, 3));
      }
      var needle := Needle(f.search);
      if needle != [] {
        FilterTwice(allPurchases, Stage(f, starts, 3), SearchTest(needle), Stage(f, starts, 4));
        filtered := Filter(filtered, SearchTest(needle));
      } else {
        FilterSame(allPurchases, Stage(f, starts, 3), Stage(f, starts, 4));
      }
    }

    /** A delete button: the record goes from the store and the page re-reads the list. */
    method DeleteRow(store: Store.PurchaseStore, id: string)
      modifies this, store
      ensures store.purchases == Filter(old(store.purchases), OtherId(id))
      ensures allPurchases == store.purchases
      ensures store.settings == old(store.settings) && store.categories == old(store.categories)
    {
      var _ := store.DeletePurchase(id);
      allPurchases := store.purchases;
    }
  }

  /** The `byCategory` accumulation of `renderSummary`. */
  method SumByCategory(purchases: seq<Purchase>) returns (byCategory: seq<Bucket>)
    ensures byCategory == Group(purchases)
  {
    byCategory := [];
    var i := 0;
    while i < |purchases|
      invariant 0 <= i <= |purchases|
      invariant byCategory == Group(purchases[..i])
    {
      assert purchases[..i + 1][..i] == purchases[..i];
      byCategory := AddTo(byCategory, CategoryOf(purchases[i]), AmountOr0(purchases[i]));
      i := i + 1;
    }
    assert purchases[..i] == purchases;
  }

  /** The `topCat` scan: a strictly larger total than the best so far, starting from 0, takes over. */
  method TopCategory(byCategory: seq<Bucket>) returns (topCat: string, top: Option<nat>)
    ensures IsTop(byCategory, top)
    ensures top.None? ==> topCat == "-"
    ensures top.Some? ==> topCat == byCategory[top.value].category
  {
    topCat := "-";
    var topAmount := 0;
    top := None;
    var k := 0;
    while k < |byCategory|
      invariant 0 <= k <= |byCategory|
      invariant IsTop(byCategory[..k], top)
      invariant top.None? ==> topCat == "-" && topAmount == 0
      invariant top.Some? ==> topCat == byCategory[top.value].category && topAmount == byCategory[top.value].total
    {
      if byCategory[k].total > topAmount {
        topAmount := byCategory[k].total;
        topCat := byCategory[k].category;
        top := Some(k);
      }
      k := k + 1;
    }
    assert byCategory[..k] == byCategory;
  }

  /** `count > 0 ? total / count : 0`. */
  function Average(total: int, count: nat): (a: real)
    ensures count == 0 ==> a == 0.0
    ensures count > 0 ==> a * (count as real) == total as real
  {
    if count > 0 then (total as real) / (count as real) else 0.0
  }

  /**
   * `renderSummary(purchases)`: the total and count, the average (0 for no
   * purchases), and the category with the largest total.
   */
  method RenderSummary(purchases: seq<Purchase>) returns (s: Summary, top: Option<nat>)
    ensures s.total == Total(purchases) && s.count == |purchases|
    ensures s.average == Average(s.total, s.count)
    ensures IsTop(Group(purchases), top)
    ensures top.None? ==> s.topCategory == "-"
    ensures top.Some? ==> s.topCategory == Group(purchases)[top.value].category
  {
    var total := Total(purchases);
    var count := |purchases|;
    var average := Average(total, count);
    var byCategory := SumByCategory(purchases);
    var topCat;
    topCat, top := TopCategory(byCategory);
    s := Summary(total, count, average, topCat);
  }

  /** The top category's total is the largest total of any category name, and it is that category's own total. */
  lemma TopCategoryIsLargest(ps: seq<Purchase>, top: nat, c: string)
    requires IsTop(Group(ps), Some(top))
    ensures Group(ps)[top].total == Total(Filter(ps, InCategory(Group(ps)[top].category)))
    ensures Total(Filter(ps, InCategory(c))) <= Group(ps)[top].total
  {
    var g := Group(ps);
    GroupBuckets(ps);
    assert BucketExact(ps, g, top);
    if c in Categories(g) {
      var i :| 0 <= i < |g| && Categories(g)[i] == c;
      assert BucketExact(ps, g, i);
    } else {
      forall p | p in ps
        ensures !InCategory(c)(p)
      {
        assert CategoryOf(p) in Categories(g);
      }
      FilterNone(ps, InCategory(c));
    }
  }

  // ---------------------------------------------------------------- platform options

  /** `[...new Set(platforms.filter(Boolean))]`: the non-empty platforms, each once, as first seen. */
  function DistinctPlatforms(ps: seq<Purchase>): (r: seq<string>)
    ensures forall i, j :: 0 <= i < j < |r| ==> r[i] != r[j]
    ensures forall x :: x in r <==> x != [] && exists i :: 0 <= i < |ps| && ps[i].platform == x
  {
    if ps == [] then []
    else
      var init := ps[..|ps| - 1];
      var x := ps[|ps| - 1].platform;
      var r0 := DistinctPlatforms(init);
      assert forall i :: 0 <= i < |init| ==> init[i] == ps[i];
      if x == [] || x in r0 then r0 else r0 + [x]
  }

  /** Later purchases only add options after the existing ones, so the options keep first-appearance order. */
  lemma {:induction false} DistinctPlatformsExtend(a: seq<Purchase>, b: seq<Purchase>)
    ensures DistinctPlatforms(a) <= DistinctPlatforms(a + b)
  {
    if b == [] {
      assert a + b == a;
    } else {
      var b0 := b[..|b| - 1];
      DistinctPlatformsExtend(a, b0);
      assert (a + b)[..|a + b| - 1] == a + b0;
    }
  }

  // ---------------------------------------------------------------- category chart

  predicate SortedByTotal(bs: seq<Bucket>) {
    forall i, j :: 0 <= i < j < |bs| ==> bs[i].total >= bs[j].total
  }

  /** Places `b` before the first entry whose total is not larger. */
  function Insert(b: Bucket, sorted: seq<Bucket>): (r: seq<Bucket>)
    requires SortedByTotal(sorted)
    ensures SortedByTotal(r)
    ensures multiset(r) == multiset(sorted) + multiset{b}
    ensures |r| == |sorted| + 1
    ensures r[0] == b || (sorted != [] && r[0] == sorted[0])
  {
    if sorted == [] || b.total >= sorted[0].total then [b] + sorted
    else
      var rest := Insert(b, sorted[1..]);
      assert sorted == [sorted[0]] + sorted[1..];
      [sorted[0]] + rest
  }

  /** The chart's `sort((a, b) => b[1] - a[1])`, a stable sort by descending total. */
  function SortByTotal(bs: seq<Bucket>): (r: seq<Bucket>)
    ensures SortedByTotal(r)
    ensures multiset(r) == multiset(bs)
    ensures |r| == |bs|
  {
    if bs == [] then []
    else
      assert bs == [bs[0]] + bs[1..];
      Insert(bs[0], SortByTotal(bs[1..]))
  }

  /** The chart rows of `renderChart(purchases)`. */
  function ChartRows(ps: seq<Purchase>): seq<Bucket> {
    SortByTotal(Group(ps))
  }

  /** `maxVal`: the first row's total, or 0 with no rows. */
  function ChartScale(rows: seq<Bucket>): int {
    if rows == [] then 0 else rows[0].total
  }

  /** `pct`: a row's bar width as a share of the scale. */
  function BarWidth(amount: int, maxVal: int): real {
    if maxVal > 0 then (amount as real) / (maxVal as real) * 100.0 else 0.0
  }

  /** The chart has one row per category, the scale is the largest total, and no bar is wider than 100. */
  lemma ChartScaleIsLargest(ps: seq<Purchase>)
    ensures multiset(ChartRows(ps)) == multiset(Group(ps))
    ensures forall i :: 0 <= i < |ChartRows(ps)| ==> ChartRows(ps)[i].total <= ChartScale(ChartRows(ps))
    ensures forall i :: 0 <= i < |ChartRows(ps)| ==> BarWidth(ChartRows(ps)[i].total, ChartScale(ChartRows(ps))) <= 100.0
  {
    var rows := ChartRows(ps);
    forall i | 0 <= i < |rows|
      ensures BarWidth(rows[i].total, ChartScale(rows)) <= 100.0
    {
      if ChartScale(rows) > 0 {
        RatioAtMostOne(rows[i].total, ChartScale(rows));
      }
    }
  }

  lemma RatioAtMostOne(x: int, m: int)
    requires 0 < m && x <= m
    ensures (x as real) / (m as real) * 100.0 <= 100.0
  {
    assert (x as real) / (m as real) <= 1.0;
  }

  // ---------------------------------------------------------------- weekly trend

  /** `Math.max(...totals, floor)`. */
  function MaxTotal(weeks: seq<Week>, floor: int): (m: int)
    ensures m >= floor
    ensures forall i :: 0 <= i < |weeks| ==> weeks[i].total <= m
    ensures m == floor || exists i :: 0 <= i < |weeks| && weeks[i].total == m
  {
    if weeks == [] then floor
    else
      var m0 := MaxTotal(weeks[..|weeks| - 1], floor);
      assert forall i :: 0 <= i < |weeks| - 1 ==> weeks[..|weeks| - 1][i] == weeks[i];
      if weeks[|weeks| - 1].total > m0 then weeks[|weeks| - 1].total else m0
  }

  /** The trend's floor for the scale: one euro, in cents. */
  const MinScale := 100

  datatype Bar = Bar(height: real, current: bool)

  /** One bar: its share of the scale, at least 3. */
  function BarOf(w: Week, scale: int, current: bool): (b: Bar)
    requires 0 < scale && w.total <= scale
    ensures 3.0 <= b.height <= 100.0
    ensures w.total == scale ==> b.height == 100.0
    ensures b.current == current
  {
    RatioAtMostOne(w.total, scale);
    var h := (w.total as real) / (scale as real) * 100.0;
    Bar(if h > 3.0 then h else 3.0, current)
  }

  /** `renderWeeklyTrend()`: every bar between 3 and 100, the largest week at 100, and only the last bar current. */
  function WeeklyBars(weeks: seq<Week>): (bars: seq<Bar>)
    ensures |bars| == |weeks|
    ensures forall i :: 0 <= i < |bars| ==> 3.0 <= bars[i].height <= 100.0
    ensures forall i :: 0 <= i < |bars| ==> (bars[i].current <==> i == |bars| - 1)
    ensures forall i :: 0 <= i < |bars| && weeks[i].total == MaxTotal(weeks, MinScale) ==> bars[i].height == 100.0
  {
    var scale := MaxTotal(weeks, MinScale);
    seq(|weeks|, i requires 0 <= i < |weeks| => BarOf(weeks[i], scale, i == |weeks| - 1))
  }

  // ---------------------------------------------------------------- filter properties

  /** With every control on "all" and a blank search, the whole list is shown. */
  lemma NoFiltersKeepsAll(all: seq<Purchase>, f: Filters, starts: PeriodStarts)
    requires f.period == "all" && f.category == "all" && f.platform == "all" && Needle(f.search) == []
    ensures Filter(all, Stage(f, starts, 4)) == all
  {
    FilterAll(all, Stage(f, starts, 4));
  }

  /** A period the switch does not know leaves no start date, and no purchase passes. */
  lemma UnknownPeriodKeepsNothing(all: seq<Purchase>, f: Filters, starts: PeriodStarts)
    requires f.period != "all" && f.period != "weekly" && f.period != "monthly" && f.period != "yearly"
    ensures Filter(all, Stage(f, starts, 4)) == []
  {
    FilterNone(all, Stage(f, starts, 4));
  }
}
