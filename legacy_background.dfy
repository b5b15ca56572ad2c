/**
 * The older background worker (background.js at the repository root): the
 * same duplicate guard and budget check over the unvalidating store, and no
 * "purchase tracked" notice.
 */
module LegacyBackground {
  import opened Wrappers
  import opened Records
  import opened Budget
  import opened LegacyStore
  import opened Background
  import Content

  /** The PURCHASE_DETECTED payload as the older `addPurchase` receives it: the record itself, not yet stamped. */
  function CandidatePurchase(c: Content.Candidate): (p: Purchase)
    ensures p.amount == Some(c.amount) && p.platform == c.platform && p.description == c.description
    ensures p.category == c.category && p.currency == c.currency && p.url == c.url && p.pageTitle == c.pageTitle
  {
    Purchase("", Some(c.amount), c.description, c.category, c.platform, c.currency, c.url, c.pageTitle, None, None)
  }

  /**
   * `handlePurchaseDetected(data)`: the same two refusals as the newer
   * worker; otherwise the record is stored as given and the budget check
   * follows, with no announcement.
   */
  method HandlePurchaseDetected(store: LegacyStore, data: Content.Candidate, id: string, now: int, starts: PeriodStarts)
    returns (response: Response, notices: seq<Notice>)
    modifies store
    ensures !old(store.CurrentSettings()).trackingEnabled ==>
              response == NotSaved("tracking_disabled") && notices == [] && store.purchases == old(store.purchases)
    ensures old(store.CurrentSettings()).trackingEnabled && IsDuplicate(old(store.purchases), data.amount, data.platform, now) ==>
              response == NotSaved("duplicate") && notices == [] && store.purchases == old(store.purchases)
    ensures old(store.CurrentSettings()).trackingEnabled && !IsDuplicate(old(store.purchases), data.amount, data.platform, now) ==>
              var r := Stamp(CandidatePurchase(data), id, now);
              && response == Saved(Some(r))
              && store.purchases == [r] + old(store.purchases)
              && notices == AlertList(CheckBudgetStatus(store.CurrentSettings(), store.purchases, starts))
    ensures store.settings == old(store.settings) && store.categories == old(store.categories)
  {
    var settings := store.CurrentSettings();
    if !settings.trackingEnabled {
      return NotSaved("tracking_disabled"), [];
    }
    if IsDuplicate(store.purchases, data.amount, data.platform, now) {
      return NotSaved("duplicate"), [];
    }
    var purchase := store.AddPurchase(CandidatePurchase(data), id, now);
    response := Saved(Some(purchase));
    notices := AlertList(CheckBudgetStatus(store.CurrentSettings(), store.purchases, starts));
  }

  /** `handleManualPurchase(data)`: stores the record as given, then the budget check. */
  method HandleManualPurchase(store: LegacyStore, data: Purchase, id: string, now: int, starts: PeriodStarts)
    returns (response: Response, notices: seq<Notice>)
    modifies store
    ensures response == Saved(Some(Stamp(data, id, now)))
    ensures store.purchases == [Stamp(data, id, now)] + old(store.purchases)
    ensures notices == AlertList(CheckBudgetStatus(store.CurrentSettings(), store.purchases, starts))
    ensures store.settings == old(store.settings) && store.categories == old(store.categories)
  {
    var purchase := store.AddPurchase(data, id, now);
    response := Saved(Some(purchase));
    notices := AlertList(CheckBudgetStatus(store.CurrentSettings(), store.purchases, starts));
  }

  /** `handleGetSpending(period)`: a missing period means "monthly". */
  method HandleGetSpending(store: LegacyStore, period: string, starts: PeriodStarts) returns (r: Spending)
    ensures r == SpendingSince(store.purchases, StartOf(if period == "" then "monthly" else period, starts))
  {
    r := store.GetSpendingForPeriod(if period == "" then "monthly" else period, starts);
  }

  /** With no sanitising, every candidate seen again within five minutes of being stored is a duplicate. */
  lemma ResubmissionIsDuplicate(data: Content.Candidate, ps: seq<Purchase>, id: string, stored: int, now: int)
    requires Abs(now - stored) < DedupWindow
    ensures IsDuplicate([Stamp(CandidatePurchase(data), id, stored)] + ps, data.amount, data.platform, now)
  {
    assert ([Stamp(CandidatePurchase(data), id, stored)] + ps)[0] == Stamp(CandidatePurchase(data), id, stored);
  }
}
