/**
 * The validating purchase store of src/lib/storage.js: the stored purchase
 * list, settings record and category list, with the sanitising insert, the
 * clamping settings writer, the period queries and export/import.
 */
module Store {
  import opened Wrappers
  import opened Money
  import Text
  import opened Records

  /** What callers hand to `addPurchase`; `amount` is `parseFloat(purchase.amount)`, a missing string field is "". */
  datatype PurchaseInput = PurchaseInput(
    amount: Num,
    description: string,
    category: string,
    platform: string,
    currency: string,
    url: string,
    pageTitle: string)

  /** `String(field || fallback).substring(0, n)` */
  function FieldOr(field: string, fallback: string, n: nat): (r: string)
    ensures |r| <= n
    ensures field != [] ==> r == Text.Take(field, n)
    ensures field == [] ==> r == Text.Take(fallback, n)
  {
    Text.Take(if field == [] then fallback else field, n)
  }

  /** The accepted amount range of `addPurchase`: a number in (0, 999999]. */
  predicate AcceptedAmount(amount: Num) {
    amount.Finite? && IsPositive(amount.value) && AtMost(amount.value, 999999)
  }

  /** The record `addPurchase` stores, or None when it returns null. */
  function Sanitize(input: PurchaseInput, id: string, now: int): (r: Option<Purchase>)
    ensures r.None? <==> !AcceptedAmount(input.amount)
    ensures r.Some? ==>
      var p := r.value;
      var d := input.amount.value;
      && p.amount.Some?
      && -Pow10(d.scale) < 2 * (p.amount.value * Pow10(d.scale) - 100 * d.units) <= Pow10(d.scale)
      && 0 <= p.amount.value <= 99999900
      && p.description != [] && |p.description| <= 200
      && !Text.IsSpace(p.description[0]) && !Text.IsSpace(p.description[|p.description| - 1])
      && (Text.Trim(Text.Take(input.description, 200)) == [] ==> p.description == "Unnamed purchase")
      && (Text.Trim(Text.Take(input.description, 200)) != [] ==> p.description == Text.Trim(Text.Take(input.description, 200)))
      && p.category == FieldOr(input.category, "Other", 50)
      && p.platform == FieldOr(input.platform, "Manual", 50)
      && p.currency == FieldOr(input.currency, "EUR", 3)
      && p.url == Text.Take(input.url, 500)
      && p.pageTitle == Text.Take(input.pageTitle, 200)
      && p.id == id && p.timestamp == Some(now) && p.date == Some(now)
  {
    if !AcceptedAmount(input.amount) then None
    else
      var cents := RoundCents(input.amount.value);
      RoundCentsBounds(input.amount.value);
      var description := Text.Trim(Text.Take(input.description, 200));
      Some(Purchase(
        id,
        Some(cents),
        if description == [] then "Unnamed purchase" else description,
        FieldOr(input.category, "Other", 50),
        FieldOr(input.platform, "Manual", 50),
        FieldOr(input.currency, "EUR", 3),
        Text.Take(input.url, 500),
        Text.Take(input.pageTitle, 200),
        Some(now),
        Some(now)))
  }

  /** Whole cents pass through the amount rules unchanged. */
  lemma SanitizeKeepsCents(input: PurchaseInput, id: string, now: int, cents: int)
    requires input.amount == Finite(FromCents(cents)) && 0 < cents <= 99999900
    ensures Sanitize(input, id, now).Some?
    ensures Sanitize(input, id, now).value.amount == Some(cents)
  {
    assert Pow10(2) == 100;
    RoundCentsUnique(FromCents(cents), Sanitize(input, id, now).value.amount.value);
  }

  // ---------------------------------------------------------------- saveSettings

  /** What `saveSettings` reads: `parseFloat(budgetAmount)` in cents and `parseInt(alertThreshold, 10)`, None standing for NaN; booleans already coerced; a missing currency is "". */
  datatype SettingsInput = SettingsInput(
    budgetAmount: Option<int>,
    budgetPeriod: string,
    alertThreshold: Option<int>,
    notificationsEnabled: bool,
    currency: string,
    trackingEnabled: bool)

  const MaxBudget := 999999900

  predicate KnownPeriod(period: string) {
    period == "weekly" || period == "monthly" || period == "yearly"
  }

  /** A settings record `saveSettings` can produce. */
  predicate WellFormed(s: Settings) {
    && 0 <= s.budgetAmount <= MaxBudget
    && KnownPeriod(s.budgetPeriod)
    && 50 <= s.alertThreshold <= 100
    && s.currency != [] && |s.currency| <= 3
  }

  /** `Math.max(lo, Math.min(x, hi))` */
  function Clamp(lo: int, x: int, hi: int): (r: int)
    requires lo <= hi
    ensures lo <= r <= hi
    ensures lo <= x <= hi ==> r == x
    ensures x < lo ==> r == lo
    ensures x > hi ==> r == hi
  {
    if x < lo then lo else if x > hi then hi else x
  }

  /** `x || fallback` for a parsed number: NaN and 0 are falsy. */
  function NumberOr(x: Option<int>, fallback: int): (r: int)
    ensures x.None? || x == Some(0) ==> r == fallback
    ensures x.Some? && x.value != 0 ==> r == x.value
  {
    if x.None? || x.value == 0 then fallback else x.value
  }

  /** The `validated` record of `saveSettings`. */
  function ValidateSettings(input: SettingsInput): (s: Settings)
    ensures WellFormed(s)
    ensures input.budgetAmount.None? || input.budgetAmount == Some(0) ==> s.budgetAmount == 50000
    ensures input.budgetAmount.Some? && input.budgetAmount.value < 0 ==> s.budgetAmount == 0
    ensures input.budgetAmount.Some? && 0 < input.budgetAmount.value <= MaxBudget ==> s.budgetAmount == input.budgetAmount.value
    ensures input.budgetAmount.Some? && input.budgetAmount.value > MaxBudget ==> s.budgetAmount == MaxBudget
    ensures KnownPeriod(input.budgetPeriod) ==> s.budgetPeriod == input.budgetPeriod
    ensures !KnownPeriod(input.budgetPeriod) ==> s.budgetPeriod == "monthly"
    ensures input.alertThreshold.None? || input.alertThreshold == Some(0) ==> s.alertThreshold == 80
    ensures input.alertThreshold.Some? && input.alertThreshold.value != 0 ==>
              s.alertThreshold == Clamp(50, input.alertThreshold.value, 100)
    ensures s.notificationsEnabled == input.notificationsEnabled && s.trackingEnabled == input.trackingEnabled
    ensures s.currency == FieldOr(input.currency, "EUR", 3)
  {
    Settings(
      Clamp(0, NumberOr(input.budgetAmount, 50000), MaxBudget),
      if KnownPeriod(input.budgetPeriod) then input.budgetPeriod else "monthly",
      Clamp(50, NumberOr(input.alertThreshold, 80), 100),
      input.notificationsEnabled,
      FieldOr(input.currency, "EUR", 3),
      input.trackingEnabled)
  }

  /** A stored record read back as `saveSettings` input. */
  function AsInput(s: Settings): SettingsInput {
    SettingsInput(Some(s.budgetAmount), s.budgetPeriod, Some(s.alertThreshold), s.notificationsEnabled, s.currency, s.trackingEnabled)
  }

  /** Saving a record `saveSettings` produced gives it back, except that a budget of 0 comes back as 500. */
  lemma ValidateRoundTrip(s: Settings)
    requires WellFormed(s)
    ensures ValidateSettings(AsInput(s)) == s <==> s.budgetAmount != 0
  {

  }

  /** Validation is idempotent exactly when it did not clamp the budget to 0. */
  lemma ValidateIdempotent(input: SettingsInput)
    ensures ValidateSettings(AsInput(ValidateSettings(input))) == ValidateSettings(input)
            <==> ValidateSettings(input).budgetAmount != 0
  {
    ValidateRoundTrip(ValidateSettings(input));
  }

  // ---------------------------------------------------------------- import and export

  /** A record this store can hold: an amount that is a number of at least 0 cents, and a date. */
  predicate Stored(p: Purchase) {
    p.amount.Some? && p.amount.value >= 0 && p.date.Some?
  }

  /** The import filter: not null, a numeric amount above 0 and a date. */
  predicate Importable(p: Option<Purchase>) {
    p.Some? && p.value.amount.Some? && p.value.amount.value > 0 && p.value.date.Some?
  }

  /** The purchases `importData` keeps, in their original order. */
  function ImportedPurchases(ps: seq<Option<Purchase>>): (r: seq<Purchase>)
    ensures |r| <= |ps|
    ensures forall p :: p in r <==> Some(p) in ps && Importable(Some(p))
  {
    if ps == [] then []
    else
      var init := ImportedPurchases(ps[..|ps| - 1]);
      assert forall x :: x in ps <==> x in ps[..|ps| - 1] || x == ps[|ps| - 1];
      if Importable(ps[|ps| - 1]) then init + [ps[|ps| - 1].value] else init
  }

  function Wrap(ps: seq<Purchase>): (r: seq<Option<Purchase>>)
    ensures |r| == |ps| && forall i :: 0 <= i < |ps| ==> r[i] == Some(ps[i])
  {
    seq(|ps|, i requires 0 <= i < |ps| => Some(ps[i]))
  }

  lemma ImportedSnoc(ps: seq<Option<Purchase>>, x: Option<Purchase>)
    ensures ImportedPurchases(ps + [x]) == ImportedPurchases(ps) + (if Importable(x) then [x.value] else [])
  {
    assert (ps + [x])[..|ps|] == ps;
  }

  lemma WrapSnoc(ps: seq<Purchase>)
    requires ps != []
    ensures Wrap(ps) == Wrap(ps[..|ps| - 1]) + [Some(ps[|ps| - 1])]
  {
  }

  /** Re-importing one more stored record keeps it exactly when it is not 0 cents. */
  lemma ImportedLast(init: seq<Purchase>, last: Purchase)
    requires Stored(last)
    ensures ImportedPurchases(Wrap(init + [last]))
            == ImportedPurchases(Wrap(init)) + (if last.amount != Some(0) then [last] else [])
  {
    var ps := init + [last];
    assert ps[..|ps| - 1] == init;
    WrapSnoc(ps);
    ImportedSnoc(Wrap(init), Some(last));
  }

  /** Re-importing an exported list of stored records gives it back exactly when none of them is 0 cents. */
  lemma {:induction false} ImportExported(ps: seq<Purchase>)
    requires forall i :: 0 <= i < |ps| ==> Stored(ps[i])
    ensures ImportedPurchases(Wrap(ps)) == ps <==> forall i :: 0 <= i < |ps| ==> ps[i].amount != Some(0)
  {
    if ps != [] {
      var init, last := ps[..|ps| - 1], ps[|ps| - 1];
      assert ps == init + [last];
      ImportExported(init);
      ImportedLast(init, last);
      var j := ImportedPurchases(Wrap(init));
      assert |j| <= |init|;
      if last.amount != Some(0) {
        if j + [last] == ps {
          assert (j + [last])[..|j|] == j;
        }
      } else {
        assert |j| < |ps|;
      }
    }
  }

  /** The object `exportData` returns. */
  datatype Export = Export(purchases: seq<Purchase>, settings: Settings, exportedAt: int)

  /** The argument of `importData`; a field that is not an array (purchases) or not an object (settings) is None. */
  datatype ImportInput = ImportInput(purchases: Option<seq<Option<Purchase>>>, settings: Option<SettingsInput>)

  /** An exported object handed back to `importData`. */
  function Reimport(e: Export): ImportInput {
    ImportInput(Some(Wrap(e.purchases)), Some(AsInput(e.settings)))
  }

  class PurchaseStore {
    var purchases: seq<Purchase>
    var settings: Option<Settings>
    var categories: Option<seq<string>>

    /** What this store's own writers guarantee. Records another writer left under the same keys need not satisfy it. */
    ghost predicate Valid()
      reads this
    {
      && (forall i :: 0 <= i < |purchases| ==> Stored(purchases[i]))
      && (settings.Some? ==> WellFormed(settings.value))
    }

    /** An empty store. */
    constructor ()
      ensures purchases == [] && settings.None? && categories.None?
      ensures Valid()
    {
      purchases := [];
      settings := None;
      categories := None;
    }

    /** `getSettings()`: the stored record or the defaults. */
    function CurrentSettings(): (s: Settings)
      reads this
      ensures Valid() ==> WellFormed(s)
    {
      if settings.Some? then settings.value else DefaultSettings
    }

    method GetSettings() returns (s: Settings)
      ensures s == CurrentSettings()
    {
      s := if settings.Some? then settings.value else DefaultSettings;
    }

    /** `getCategories()`: the stored list or the defaults. */
    method GetCategories() returns (cs: seq<string>)
      ensures categories.Some? ==> cs == categories.value
      ensures categories.None? ==> cs == DefaultCategories
    {
      cs := if categories.Some? then categories.value else DefaultCategories;
    }

    /** `set(KEYS.CATEGORIES, list)`: the list replaces the stored one as given. */
    method SetCategories(cs: seq<string>)
      modifies this
      ensures categories == Some(cs)
      ensures purchases == old(purchases) && settings == old(settings)
      ensures old(Valid()) ==> Valid()
    {
      categories := Some(cs);
    }

    /** `addPurchase(purchase)`: None for a non-object or a rejected amount; otherwise the sanitised record, prepended. */
    method AddPurchase(input: Option<PurchaseInput>, id: string, now: int) returns (r: Option<Purchase>)
      modifies this
      ensures input.None? ==> r.None?
      ensures input.Some? ==> r == Sanitize(input.value, id, now)
      ensures r.None? ==> purchases == old(purchases)
      ensures r.Some? ==> purchases == [r.value] + old(purchases)
      ensures settings == old(settings) && categories == old(categories)
      ensures old(Valid()) ==> Valid()
    {
      if input.None? {
        return None;
      }
      r := Sanitize(input.value, id, now);
      if r.Some? {
        purchases := [r.value] + purchases;
      }
    }

    /** `deletePurchase(id)`: keeps every record with another id, in order, and returns the new list. */
    method DeletePurchase(id: string) returns (filtered: seq<Purchase>)
      modifies this
      ensures purchases == Filter(old(purchases), OtherId(id)) && filtered == purchases
      ensures settings == old(settings) && categories == old(categories)
      ensures old(Valid()) ==> Valid()
    {
      filtered := Filter(purchases, OtherId(id));
      purchases := filtered;
      assert forall i :: 0 <= i < |filtered| ==> filtered[i] in old(purchases);
    }

    /** `saveSettings(settings)`: a non-object changes nothing; otherwise the validated record replaces the stored one. */
    method SaveSettings(input: Option<SettingsInput>)
      modifies this
      ensures input.None? ==> settings == old(settings)
      ensures input.Some? ==> settings == Some(ValidateSettings(input.value))
      ensures purchases == old(purchases) && categories == old(categories)
      ensures old(Valid()) ==> Valid()
    {
      if input.Some? {
        settings := Some(ValidateSettings(input.value));
      }
    }

    /** `getSpendingForPeriod(period)`. */
    method GetSpendingForPeriod(period: string, starts: PeriodStarts) returns (r: Spending)
      ensures r == SpendingSince(purchases, StartOf(period, starts))
    {
      r := SpendingSince(purchases, StartOf(period, starts));
    }

    /** `getSpendingByCategory(period)`: fills `byCategory` one purchase at a time. */
    method GetSpendingByCategory(period: string, starts: PeriodStarts) returns (byCategory: seq<Bucket>)
      ensures byCategory == Group(SpendingSince(purchases, StartOf(period, starts)).purchases)
    {
      var spending := GetSpendingForPeriod(period, starts);
      var ps := spending.purchases;
      byCategory := [];
      var i := 0;
      while i < |ps|
        invariant 0 <= i <= |ps|
        invariant byCategory == Group(ps[..i])
      {
        assert ps[..i + 1][..i] == ps[..i];
        byCategory := AddTo(byCategory, CategoryOf(ps[i]), AmountOr0(ps[i]));
        i := i + 1;
      }
      assert ps[..i] == ps;
    }

    /** `getWeeklyComparison()`: four weeks back from today, pushed newest first, returned oldest first. */
    method GetWeeklyComparison(todayStart: int) returns (weeks: seq<Week>)
      ensures |weeks| == 4
      ensures forall k :: 0 <= k < 4 ==> weeks[k] == WeekBack(purchases, todayStart, 3 - k)
      ensures forall k :: 0 <= k < 3 ==> weeks[k].end + 1 == weeks[k + 1].start
      ensures weeks[3].end == todayStart + Day - 1
    {
      var pushed: seq<Week> := [];
      var i := 0;
      while i < 4
        invariant 0 <= i <= 4
        invariant |pushed| == i
        invariant forall k :: 0 <= k < i ==> pushed[k] == WeekBack(purchases, todayStart, k)
      {
        pushed := pushed + [WeekBack(purchases, todayStart, i)];
        i := i + 1;
      }
      weeks := Reversed(pushed);
      forall k | 0 <= k < 3
        ensures weeks[k].end + 1 == weeks[k + 1].start
      {
        WeeksAdjacent(todayStart, 2 - k);
      }
      WeeksAdjacent(todayStart, 0);
    }

    /** `exportData()`. */
    method ExportData(now: int) returns (e: Export)
      ensures e == Export(purchases, CurrentSettings(), now)
    {
      var s := GetSettings();
      e := Export(purchases, s, now);
    }

    /** `importData(data)`: a non-object changes nothing; an array of purchases is filtered and replaces the list; a settings object goes through `saveSettings`. */
    method ImportData(data: Option<ImportInput>)
      modifies this
      ensures data.None? || data.value.purchases.None? ==> purchases == old(purchases)
      ensures data.Some? && data.value.purchases.Some? ==> purchases == ImportedPurchases(data.value.purchases.value)
      ensures data.None? || data.value.settings.None? ==> settings == old(settings)
      ensures data.Some? && data.value.settings.Some? ==> settings == Some(ValidateSettings(data.value.settings.value))
      ensures categories == old(categories)
      ensures old(Valid()) ==> Valid()
    {
      if data.None? {
        return;
      }
      if data.value.purchases.Some? {
        purchases := ImportedPurchases(data.value.purchases.value);
        assert forall i :: 0 <= i < |purchases| ==> purchases[i] in purchases;
      }
      if data.value.settings.Some? {
        SaveSettings(data.value.settings);
      }
    }
  }

  /**
   * Export followed by import of the same object leaves the store's
   * purchases and effective settings as they were, exactly when no stored
   * purchase is 0 cents and the budget is not 0.
   */
  lemma ExportImportRoundTrip(ps: seq<Purchase>, s: Settings, now: int)
    requires forall i :: 0 <= i < |ps| ==> Stored(ps[i])
    requires WellFormed(s)
    ensures ImportedPurchases(Reimport(Export(ps, s, now)).purchases.value) == ps
            <==> forall i :: 0 <= i < |ps| ==> ps[i].amount != Some(0)
    ensures ValidateSettings(Reimport(Export(ps, s, now)).settings.value) == s <==> s.budgetAmount != 0
  {
    ImportExported(ps);
    ValidateRoundTrip(s);
  }

  /** A purchase of "0.004" is accepted and stored as 0 cents. */
  lemma SubCentStoredAsZero(id: string, now: int)
    ensures
      var r := Sanitize(PurchaseInput(Finite(Dec(4, 3)), "Pen", "", "", "", "", ""), id, now);
      r.Some? && r.value.amount == Some(0)
  {
    var input := PurchaseInput(Finite(Dec(4, 3)), "Pen", "", "", "", "", "");
    RoundsToZero();
    var r := Sanitize(input, id, now);
    RoundCentsUnique(Dec(4, 3), r.value.amount.value);
  }

  /** A purchase of "0.004" is accepted and stored as 0 cents, and re-importing the export drops it. */
  lemma SubCentPurchaseLostOnReimport(id: string, now: int)
    ensures
      var input := PurchaseInput(Finite(Dec(4, 3)), "Pen", "", "", "", "", "");
      var r := Sanitize(input, id, now);
      && r.Some? && r.value.amount == Some(0)
      && ImportedPurchases(Wrap([r.value])) == []
  {
    SubCentStoredAsZero(id, now);
    var r := Sanitize(PurchaseInput(Finite(Dec(4, 3)), "Pen", "", "", "", "", ""), id, now).value;
    assert Wrap([r]) == [Some(r)];
    assert Wrap([r])[..0] == [];
  }
}
