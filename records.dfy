/**
 * The records both generations of the purchase store keep, and the pure
 * queries they share: the period filter and sum, the per-category grouping
 * and the four-week comparison. Amounts are integer cents; dates and
 * timestamps are milliseconds since the epoch.
 */
module Records {
  import opened Wrappers

  /**
   * One stored purchase. A missing string field is ""; a missing or
   * non-numeric amount, and a missing timestamp or date, is None.
   */
  datatype Purchase = Purchase(
    id: string,
    amount: Option<int>,
    description: string,
    category: string,
    platform: string,
    currency: string,
    url: string,
    pageTitle: string,
    timestamp: Option<int>,
    date: Option<int>)

  /** The settings record; the budget is in cents. */
  datatype Settings = Settings(
    budgetAmount: int,
    budgetPeriod: string,
    alertThreshold: int,
    notificationsEnabled: bool,
    currency: string,
    trackingEnabled: bool)

  const DefaultSettings := Settings(50000, "monthly", 80, true, "EUR", true)

  const DefaultCategories: seq<string> := [
    "Electronics", "Clothing", "Home & Garden", "Books", "Food & Grocery",
    "Health & Beauty", "Sports & Outdoors", "Toys & Games", "Auto & Parts", "Other"]

  /** `p.amount || 0` */
  function AmountOr0(p: Purchase): int {
    if p.amount.Some? then p.amount.value else 0
  }

  /** `p.category || "Other"` */
  function CategoryOf(p: Purchase): (c: string)
    ensures c != []
  {
    if p.category == [] then "Other" else p.category
  }

  // ---------------------------------------------------------------- sequences

  /** `s.filter(keep)`: the elements that pass, in their original order. */
  function Filter<T(!new)>(s: seq<T>, keep: T -> bool): (r: seq<T>)
    ensures |r| <= |s|
    ensures forall x :: x in r <==> x in s && keep(x)
  {
    if s == [] then []
    else Filter(s[..|s| - 1], keep) + (if keep(s[|s| - 1]) then [s[|s| - 1]] else [])
  }

  lemma {:induction false} FilterConcat<T(!new)>(a: seq<T>, b: seq<T>, keep: T -> bool)
    ensures Filter(a + b, keep) == Filter(a, keep) + Filter(b, keep)
  {
    if b == [] {
      assert a + b == a;
    } else {
      assert (a + b)[..|a + b| - 1] == a + b[..|b| - 1];
      FilterConcat(a, b[..|b| - 1], keep);
    }
  }

  /** Filtering twice is filtering once by the conjunction of the two tests. */
  lemma {:induction false} FilterTwice<T(!new)>(s: seq<T>, first: T -> bool, second: T -> bool, both: T -> bool)
    requires forall x :: both(x) == (first(x) && second(x))
    ensures Filter(Filter(s, first), second) == Filter(s, both)
  {
    if s != [] {
      var init, last := s[..|s| - 1], s[|s| - 1];
      FilterTwice(init, first, second, both);
      var tail := if first(last) then [last] else [];
      FilterConcat(Filter(init, first), tail, second);
      if first(last) {
        assert Filter(tail, second) == (if second(last) then [last] else []) by {
          assert tail[..0] == [];
        }
      }
    }
  }

  /** Two tests that agree on every value filter alike. */
  lemma {:induction false} FilterSame<T(!new)>(s: seq<T>, a: T -> bool, b: T -> bool)
    requires forall x :: a(x) == b(x)
    ensures Filter(s, a) == Filter(s, b)
  {
    if s != [] {
      FilterSame(s[..|s| - 1], a, b);
    }
  }

  /** Filtering out everything gives the empty list. */
  lemma {:induction false} FilterNone<T(!new)>(s: seq<T>, keep: T -> bool)
    requires forall x :: x in s ==> !keep(x)
    ensures Filter(s, keep) == []
  {
    if s != [] {
      FilterNone(s[..|s| - 1], keep);
    }
  }

  /** Filtering keeps everything exactly when everything passes. */
  lemma {:induction false} FilterAll<T(!new)>(s: seq<T>, keep: T -> bool)
    ensures Filter(s, keep) == s <==> forall i :: 0 <= i < |s| ==> keep(s[i])
  {
    if s != [] {
      var init, last := s[..|s| - 1], s[|s| - 1];
      FilterAll(init, keep);
      assert s == init + [last];
      if keep(last) {
        assert Filter(s, keep) == Filter(init, keep) + [last];
        assert (forall i :: 0 <= i < |s| ==> keep(s[i])) <==> (forall i :: 0 <= i < |init| ==> keep(init[i]));
        if Filter(s, keep) == s {
          assert Filter(init, keep) == s[..|s| - 1];
        }
      } else {
        assert Filter(s, keep) == Filter(init, keep);
        assert |Filter(s, keep)| < |s|;
      }
    }
  }

  /** The sum of `p.amount || 0`, as `reduce` computes it. */
  function Total(ps: seq<Purchase>): int {
    if ps == [] then 0 else Total(ps[..|ps| - 1]) + AmountOr0(ps[|ps| - 1])
  }

  lemma {:induction false} TotalConcat(a: seq<Purchase>, b: seq<Purchase>)
    ensures Total(a + b) == Total(a) + Total(b)
  {
    if b == [] {
      assert a + b == a;
    } else {
      assert (a + b)[..|a + b| - 1] == a + b[..|b| - 1];
      TotalConcat(a, b[..|b| - 1]);
    }
  }

  /** Amounts that are all present and non-negative have a non-negative sum. */
  lemma {:induction false} TotalNonNegative(ps: seq<Purchase>)
    requires forall i :: 0 <= i < |ps| ==> AmountOr0(ps[i]) >= 0
    ensures Total(ps) >= 0
  {
    if ps != [] {
      TotalNonNegative(ps[..|ps| - 1]);
    }
  }

  // ---------------------------------------------------------------- getSpendingForPeriod

  /** Local midnight at the start of the current week (Sunday), month and year. */
  datatype PeriodStarts = PeriodStarts(weekly: int, monthly: int, yearly: int)

  /** The switch in `getSpendingForPeriod`: an unknown period falls back to the month. */
  function StartOf(period: string, starts: PeriodStarts): (t: int)
    ensures period == "weekly" ==> t == starts.weekly
    ensures period == "yearly" ==> t == starts.yearly
    ensures period != "weekly" && period != "yearly" ==> t == starts.monthly
  {
    if period == "weekly" then starts.weekly
    else if period == "yearly" then starts.yearly
    else starts.monthly
  }

  /** `new Date(p.date) >= start`; a purchase without a date never passes. */
  predicate DatedFrom(p: Purchase, start: int) {
    p.date.Some? && p.date.value >= start
  }

  function Since(start: int): Purchase -> bool {
    p => DatedFrom(p, start)
  }

  datatype Spending = Spending(total: int, count: nat, purchases: seq<Purchase>)

  /** The result of `getSpendingForPeriod` for a given period start. */
  function SpendingSince(ps: seq<Purchase>, start: int): (r: Spending)
    ensures forall p :: p in r.purchases <==> p in ps && DatedFrom(p, start)
    ensures r.count == |r.purchases| <= |ps|
  {
    var kept := Filter(ps, Since(start));
    Spending(Total(kept), |kept|, kept)
  }

  /** A purchase prepended to the list and dated within the period adds its amount and one to the count; one dated before leaves the result unchanged. */
  lemma SpendingAfterPrepend(p: Purchase, ps: seq<Purchase>, start: int)
    ensures DatedFrom(p, start) ==>
      && SpendingSince([p] + ps, start).total == AmountOr0(p) + SpendingSince(ps, start).total
      && SpendingSince([p] + ps, start).count == 1 + SpendingSince(ps, start).count
    ensures !DatedFrom(p, start) ==> SpendingSince([p] + ps, start) == SpendingSince(ps, start)
  {
    FilterConcat([p], ps, Since(start));
    assert [p][..0] == [];
    TotalConcat(Filter([p], Since(start)), Filter(ps, Since(start)));
    assert Total([p]) == Total([]) + AmountOr0(p);
  }

  // ---------------------------------------------------------------- getSpendingByCategory

  /** One entry of the `byCategory` object. */
  datatype Bucket = Bucket(category: string, total: int, count: nat)

  function Categories(bs: seq<Bucket>): seq<string> {
    seq(|bs|, i requires 0 <= i < |bs| => bs[i].category)
  }

  predicate Distinct(xs: seq<string>) {
    forall i, j :: 0 <= i < j < |xs| ==> xs[i] != xs[j]
  }

  function SumTotals(bs: seq<Bucket>): int {
    if bs == [] then 0 else SumTotals(bs[..|bs| - 1]) + bs[|bs| - 1].total
  }

  function SumCounts(bs: seq<Bucket>): int {
    if bs == [] then 0 else SumCounts(bs[..|bs| - 1]) + bs[|bs| - 1].count
  }

  /** The index of the bucket for `cat`, if there is one. */
  function IndexOf(bs: seq<Bucket>, cat: string): (r: Option<nat>)
    ensures r.None? <==> forall i :: 0 <= i < |bs| ==> bs[i].category != cat
    ensures r.Some? ==> r.value < |bs| && bs[r.value].category == cat
  {
    if bs == [] then None
    else if bs[|bs| - 1].category == cat then Some(|bs| - 1)
    else IndexOf(bs[..|bs| - 1], cat)
  }

  /** In a list of distinct categories, the bucket found for a category is its only one. */
  lemma {:induction false} IndexOfUnique(bs: seq<Bucket>, cat: string, i: int)
    requires Distinct(Categories(bs))
    requires 0 <= i < |bs| && bs[i].category == cat
    ensures IndexOf(bs, cat) == Some(i)
  {
    if i < |bs| - 1 {
      assert Categories(bs)[i] != Categories(bs)[|bs| - 1];
      assert Categories(bs[..|bs| - 1]) == Categories(bs)[..|bs| - 1];
      IndexOfUnique(bs[..|bs| - 1], cat, i);
    }
  }

  /** One step of the `forEach`: create the bucket on first sight (at the end, as JS objects keep insertion order), then add. */
  function AddTo(bs: seq<Bucket>, cat: string, amount: int): (r: seq<Bucket>)
    ensures |r| == |bs| || |r| == |bs| + 1
  {
    var k := IndexOf(bs, cat);
    if k.None? then bs + [Bucket(cat, amount, 1)]
    else bs[k.value := Bucket(cat, bs[k.value].total + amount, bs[k.value].count + 1)]
  }

  /** The `byCategory` object after the whole `forEach`, entries in first-appearance order. */
  function Group(ps: seq<Purchase>): seq<Bucket> {
    if ps == [] then []
    else AddTo(Group(ps[..|ps| - 1]), CategoryOf(ps[|ps| - 1]), AmountOr0(ps[|ps| - 1]))
  }

  function InCategory(cat: string): Purchase -> bool {
    p => CategoryOf(p) == cat
  }

  lemma {:induction false} SumsUpdate(bs: seq<Bucket>, k: nat, b: Bucket)
    requires k < |bs|
    ensures SumTotals(bs[k := b]) == SumTotals(bs) - bs[k].total + b.total
    ensures SumCounts(bs[k := b]) == SumCounts(bs) - bs[k].count + b.count
  {
    if k < |bs| - 1 {
      assert bs[k := b][..|bs| - 1] == bs[..|bs| - 1][k := b];
      SumsUpdate(bs[..|bs| - 1], k, b);
    } else {
      assert bs[k := b][..|bs| - 1] == bs[..|bs| - 1];
    }
  }

  lemma AddToSums(bs: seq<Bucket>, cat: string, amount: int)
    ensures SumTotals(AddTo(bs, cat, amount)) == SumTotals(bs) + amount
    ensures SumCounts(AddTo(bs, cat, amount)) == SumCounts(bs) + 1
  {
    var k := IndexOf(bs, cat);
    if k.None? {
      assert (bs + [Bucket(cat, amount, 1)])[..|bs|] == bs;
    } else {
      SumsUpdate(bs, k.value, Bucket(cat, bs[k.value].total + amount, bs[k.value].count + 1));
    }
  }

  /** The category totals add up to the period total, and the counts to the number of purchases. */
  lemma {:induction false} GroupSums(ps: seq<Purchase>)
    ensures SumTotals(Group(ps)) == Total(ps)
    ensures SumCounts(Group(ps)) == |ps|
  {
    if ps != [] {
      GroupSums(ps[..|ps| - 1]);
      AddToSums(Group(ps[..|ps| - 1]), CategoryOf(ps[|ps| - 1]), AmountOr0(ps[|ps| - 1]));
    }
  }

  /** Each category has one entry. */
  lemma {:induction false} GroupDistinct(ps: seq<Purchase>)
    ensures Distinct(Categories(Group(ps)))
  {
    if ps != [] {
      var g := Group(ps[..|ps| - 1]);
      GroupDistinct(ps[..|ps| - 1]);
      var c := CategoryOf(ps[|ps| - 1]);
      var k := IndexOf(g, c);
      var g' := Group(ps);
      if k.None? {
        assert Categories(g') == Categories(g) + [c];
      } else {
        assert Categories(g') == Categories(g);
      }
    }
  }

  /** Bucket i holds exactly the total and the number of the purchases of its category. */
  predicate BucketExact(ps: seq<Purchase>, g: seq<Bucket>, i: int)
    requires 0 <= i < |g|
  {
    && g[i].total == Total(Filter(ps, InCategory(g[i].category)))
    && g[i].count == |Filter(ps, InCategory(g[i].category))|
  }

  /** Every purchase's category has a bucket. */
  predicate Complete(ps: seq<Purchase>, g: seq<Bucket>) {
    forall p :: p in ps ==> CategoryOf(p) in Categories(g)
  }

  lemma FilterSnoc(init: seq<Purchase>, last: Purchase, cat: string)
    ensures Filter(init + [last], InCategory(cat))
         == Filter(init, InCategory(cat)) + (if CategoryOf(last) == cat then [last] else [])
  {
    assert (init + [last])[..|init|] == init;
  }

  lemma TotalSnoc(f: seq<Purchase>, last: Purchase)
    ensures Total(f + [last]) == Total(f) + AmountOr0(last)
  {
    assert (f + [last])[..|f|] == f;
  }

  /** One step of the grouping keeps bucket i exact. */
  lemma AddToExact(init: seq<Purchase>, last: Purchase, g: seq<Bucket>, i: int)
    requires forall j :: 0 <= j < |g| ==> BucketExact(init, g, j)
    requires Complete(init, g) && Distinct(Categories(g))
    requires 0 <= i < |AddTo(g, CategoryOf(last), AmountOr0(last))|
    ensures BucketExact(init + [last], AddTo(g, CategoryOf(last), AmountOr0(last)), i)
  {
    var c, a := CategoryOf(last), AmountOr0(last);
    var k := IndexOf(g, c);
    var g' := AddTo(g, c, a);
    var cat := g'[i].category;
    var f := Filter(init, InCategory(cat));
    FilterSnoc(init, last, cat);
    if c != cat {
      assert i < |g| && g'[i] == g[i];
      assert f + [] == f;
      assert BucketExact(init, g, i);
    } else if k.None? {
      NewBucketExact(init, last, g);
    } else {
      if i < |g| {
        IndexOfUnique(g, c, i);
      }
      assert i == k.value;
      assert BucketExact(init, g, i);
      TotalSnoc(f, last);
    }
  }

  /** A category seen for the first time gets a bucket holding just that purchase. */
  lemma NewBucketExact(init: seq<Purchase>, last: Purchase, g: seq<Bucket>)
    requires Complete(init, g)
    requires IndexOf(g, CategoryOf(last)).None?
    ensures BucketExact(init + [last], AddTo(g, CategoryOf(last), AmountOr0(last)), |g|)
  {
    var c := CategoryOf(last);
    forall p | p in init
      ensures !InCategory(c)(p)
    {
      assert CategoryOf(p) in Categories(g);
    }
    FilterNone(init, InCategory(c));
    FilterSnoc(init, last, c);
    TotalSnoc([], last);
  }

  /** Every bucket holds exactly the total and the number of the purchases of its category, and every purchase's category has a bucket. */
  lemma {:induction false} GroupBuckets(ps: seq<Purchase>)
    ensures forall i :: 0 <= i < |Group(ps)| ==> BucketExact(ps, Group(ps), i)
    ensures Complete(ps, Group(ps))
  {
    if ps != [] {
      var init, last := ps[..|ps| - 1], ps[|ps| - 1];
      assert ps == init + [last];
      var g := Group(init);
      GroupBuckets(init);
      GroupDistinct(init);
      var c, a := CategoryOf(last), AmountOr0(last);
      var k := IndexOf(g, c);
      var g' := Group(ps);
      forall i | 0 <= i < |g'|
        ensures BucketExact(ps, g', i)
      {
        AddToExact(init, last, g, i);
      }
      forall p | p in ps
        ensures CategoryOf(p) in Categories(g')
      {
        if p in init {
          var j :| 0 <= j < |g| && Categories(g)[j] == CategoryOf(p);
          assert Categories(g')[j] == CategoryOf(p);
        } else {
          var j := if k.None? then |g| else k.value;
          assert Categories(g')[j] == c;
        }
      }
    }
  }

  // ---------------------------------------------------------------- getWeeklyComparison

  const Day := 86400000

  /** Midnight six days before the i-th week's last day. */
  function WeekStart(todayStart: int, i: int): int {
    todayStart - (7 * i + 6) * Day
  }

  /** 23:59:59.999 on the day 7·i days before today. */
  function WeekEnd(todayStart: int, i: int): int {
    todayStart - 7 * i * Day + Day - 1
  }

  predicate DatedWithin(p: Purchase, from: int, to: int) {
    p.date.Some? && from <= p.date.value <= to
  }

  function Within(from: int, to: int): Purchase -> bool {
    p => DatedWithin(p, from, to)
  }

  /** One entry of the comparison; the two bounds stand for the French date label. */
  datatype Week = Week(start: int, end: int, total: int, count: nat)

  /** The i-th week back from today. */
  function WeekBack(ps: seq<Purchase>, todayStart: int, i: int): (w: Week)
    ensures w.end - w.start + 1 == 7 * Day
    ensures w.count <= |ps|
  {
    var from, to := WeekStart(todayStart, i), WeekEnd(todayStart, i);
    var kept := Filter(ps, Within(from, to));
    Week(from, to, Total(kept), |kept|)
  }

  /** A purchase prepended to the list and dated inside the week adds its amount and one to the count; any other purchase leaves the week unchanged. */
  lemma WeekAfterPrepend(p: Purchase, ps: seq<Purchase>, todayStart: int, i: int)
    ensures var from, to := WeekStart(todayStart, i), WeekEnd(todayStart, i);
      DatedWithin(p, from, to) ==>
        && WeekBack([p] + ps, todayStart, i).total == AmountOr0(p) + WeekBack(ps, todayStart, i).total
        && WeekBack([p] + ps, todayStart, i).count == 1 + WeekBack(ps, todayStart, i).count
    ensures var from, to := WeekStart(todayStart, i), WeekEnd(todayStart, i);
      !DatedWithin(p, from, to) ==> WeekBack([p] + ps, todayStart, i) == WeekBack(ps, todayStart, i)
  {
    var keep := Within(WeekStart(todayStart, i), WeekEnd(todayStart, i));
    FilterConcat([p], ps, keep);
    assert [p][..0] == [];
    TotalConcat(Filter([p], keep), Filter(ps, keep));
    assert Total([p]) == Total([]) + AmountOr0(p);
  }

  /** A week with no purchase dated inside its window has a total and a count of 0. */
  lemma EmptyWeek(ps: seq<Purchase>, todayStart: int, i: int)
    requires forall p :: p in ps ==> !DatedWithin(p, WeekStart(todayStart, i), WeekEnd(todayStart, i))
    ensures WeekBack(ps, todayStart, i).total == 0 && WeekBack(ps, todayStart, i).count == 0
  {
    FilterNone(ps, Within(WeekStart(todayStart, i), WeekEnd(todayStart, i)));
  }

  /** The week windows tile time: each starts the millisecond after the previous (older) one ends, and the newest ends with today. */
  lemma WeeksAdjacent(todayStart: int, i: int)
    ensures WeekEnd(todayStart, i + 1) + 1 == WeekStart(todayStart, i)
    ensures WeekEnd(todayStart, 0) == todayStart + Day - 1
  {
  }

  /** No purchase is counted in two different weeks. */
  lemma WeeksDisjoint(p: Purchase, todayStart: int, i: int, j: int)
    requires i < j
    requires DatedWithin(p, WeekStart(todayStart, i), WeekEnd(todayStart, i))
    ensures !DatedWithin(p, WeekStart(todayStart, j), WeekEnd(todayStart, j))
  {
    assert WeekEnd(todayStart, j) <= WeekEnd(todayStart, i + 1) by {
      assert 7 * j * Day >= 7 * (i + 1) * Day;
    }
    WeeksAdjacent(todayStart, i);
  }

  // ---------------------------------------------------------------- shared list helpers

  /** `p.id !== id` */
  function OtherId(id: string): Purchase -> bool {
    (p: Purchase) => p.id != id
  }

  /** `weeks.reverse()` */
  function Reversed<T>(s: seq<T>): (r: seq<T>)
    ensures |r| == |s| && forall i :: 0 <= i < |s| ==> r[i] == s[|s| - 1 - i]
  {
    if s == [] then [] else Reversed(s[1..]) + [s[0]]
  }

  /** Deleting removes exactly the records with that id, and deleting again changes nothing. */
  lemma DeleteIdempotent(ps: seq<Purchase>, id: string)
    ensures forall p :: p in Filter(ps, OtherId(id)) <==> p in ps && p.id != id
    ensures Filter(Filter(ps, OtherId(id)), OtherId(id)) == Filter(ps, OtherId(id))
  {
    var f := Filter(ps, OtherId(id));
    assert forall i :: 0 <= i < |f| ==> f[i] in f;
    FilterAll(f, OtherId(id));
  }
}
