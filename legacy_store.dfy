/**
 * The older purchase store (storage.js at the repository root): the same
 * stored lists and period queries as the validating store, but records are
 * stored as they are given, with no amount check, no truncation and no
 * settings clamping; its default currency is "USD".
 */
module LegacyStore {
  import opened Wrappers
  import opened Records

  const LegacyDefaultSettings := Settings(50000, "monthly", 80, true, "USD", true)

  /** `addPurchase` sets the id, the timestamp and the date on the given record and keeps every other field. */
  function Stamp(p: Purchase, id: string, now: int): (r: Purchase)
    ensures r.id == id && r.timestamp == Some(now) && r.date == Some(now)
    ensures r.(id := p.id, timestamp := p.timestamp, date := p.date) == p
  {
    p.(id := id, timestamp := Some(now), date := Some(now))
  }

  /** The argument of `importData`; a falsy field is None. */
  datatype LegacyImport = LegacyImport(purchases: Option<seq<Purchase>>, settings: Option<Settings>)

  /** The object `exportData` returns. */
  datatype LegacyExport = LegacyExport(purchases: seq<Purchase>, settings: Settings, exportedAt: int)

  class LegacyStore {
    var purchases: seq<Purchase>
    var settings: Option<Settings>
    var categories: Option<seq<string>>

    constructor ()
      ensures purchases == [] && settings.None? && categories.None?
    {
      purchases := [];
      settings := None;
      categories := None;
    }

    /** `getSettings()`: the stored record or the "USD" defaults. */
    function CurrentSettings(): (s: Settings)
      reads this
      ensures settings.None? ==> s == LegacyDefaultSettings
      ensures settings.Some? ==> s == settings.value
    {
      if settings.Some? then settings.value else LegacyDefaultSettings
    }

    /** `addPurchase(purchase)`: stamps the record and prepends it; nothing is checked. */
    method AddPurchase(purchase: Purchase, id: string, now: int) returns (r: Purchase)
      modifies this
      ensures r == Stamp(purchase, id, now)
      ensures purchases == [r] + old(purchases)
      ensures settings == old(settings) && categories == old(categories)
    {
      r := purchase.(id := id, timestamp := Some(now), date := Some(now));
      purchases := [r] + purchases;
    }

    /** `deletePurchase(id)`: keeps every record with another id, in order. */
    method DeletePurchase(id: string) returns (filtered: seq<Purchase>)
      modifies this
      ensures purchases == Filter(old(purchases), OtherId(id)) && filtered == purchases
      ensures settings == old(settings) && categories == old(categories)
    {
      filtered := Filter(purchases, OtherId(id));
      purchases := filtered;
    }

    /** `saveSettings(settings)`: stores its argument as it is. */
    method SaveSettings(s: Settings)
      modifies this
      ensures settings == Some(s)
      ensures purchases == old(purchases) && categories == old(categories)
    {
      settings := Some(s);
    }

    /** `getSpendingForPeriod(period)`. */
    method GetSpendingForPeriod(period: string, starts: PeriodStarts) returns (r: Spending)
      ensures r == SpendingSince(purchases, StartOf(period, starts))
    {
      var kept := Filter(purchases, Since(StartOf(period, starts)));
      r := Spending(Total(kept), |kept|, kept);
    }

    /** `getSpendingByCategory(period)`: fills `byCategory` one purchase at a time. */
    method GetSpendingByCategory(period: string, starts: PeriodStarts) returns (byCategory: seq<Bucket>)
      ensures byCategory == Group(SpendingSince(purchases, StartOf(period, starts)).purchases)
    {
      var spending := GetSpendingForPeriod(period, starts);
      byCategory := [];
      for i := 0 to |spending.purchases|
        invariant byCategory == Group(spending.purchases[..i])
      {
        var p := spending.purchases[i];
        assert spending.purchases[..i + 1][..i] == spending.purchases[..i];
        byCategory := AddTo(byCategory, CategoryOf(p), AmountOr0(p));
      }
      assert spending.purchases[..|spending.purchases|] == spending.purchases;
    }

    /** `exportData()`. */
    method ExportData(now: int) returns (e: LegacyExport)
      ensures e == LegacyExport(purchases, CurrentSettings(), now)
    {
      e := LegacyExport(purchases, CurrentSettings(), now);
    }

    /** `importData(data)`: each truthy field replaces the stored value as it is; a null argument throws before anything is written. */
    method ImportData(data: Option<LegacyImport>)
      modifies this
      ensures data.Some? && data.value.purchases.Some? ==> purchases == data.value.purchases.value
      ensures data.None? || data.value.purchases.None? ==> purchases == old(purchases)
      ensures data.Some? && data.value.settings.Some? ==> settings == data.value.settings
      ensures data.None? || data.value.settings.None? ==> settings == old(settings)
      ensures categories == old(categories)
    {
      if data.None? {
        return;
      }
      if data.value.purchases.Some? {
        purchases := data.value.purchases.value;
      }
      if data.value.settings.Some? {
        settings := data.value.settings;
      }
    }
  }

  /** The exported object handed back to `importData`. */
  function Reimport(e: LegacyExport): LegacyImport {
    LegacyImport(Some(e.purchases), Some(e.settings))
  }

  /** Unlike the validating store, the older store accepts any amount: a record of -5 cents is stored and lowers the period total. */
  lemma NegativeAmountCounted(p: Purchase, ps: seq<Purchase>, id: string, now: int, start: int)
    requires p.amount == Some(-5) && now >= start
    ensures SpendingSince([Stamp(p, id, now)] + ps, start).total == SpendingSince(ps, start).total - 5
  {
    SpendingAfterPrepend(Stamp(p, id, now), ps, start);
  }
}
