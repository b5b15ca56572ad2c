/**
 * The message handlers of the background worker (src/background/background.js)
 * over the validating store: the guarded insert of a detected purchase, the
 * manual insert, the spending query and the platform lookup.
 */
module Background {
  import opened Wrappers
  import opened Money
  import opened Records
  import opened Store
  import opened Budget
  import opened Platforms
  import Content

  /** The answer sent back for a purchase message. */
  datatype Response = Saved(purchase: Option<Purchase>) | NotSaved(reason: string)

  /** The PURCHASE_DETECTED payload as `addPurchase` reads it. */
  function CandidateInput(c: Content.Candidate): PurchaseInput {
    PurchaseInput(Finite(FromCents(c.amount)), c.description, c.category, c.platform, c.currency, c.url, c.pageTitle)
  }

  const DedupWindow := 300000

  function Abs(x: int): (r: nat)
    ensures r == x || r == -x
  {
    if x < 0 then -x else x
  }

  /** The test inside `purchases.some(...)`; a record without a timestamp gives NaN and never matches. */
  predicate SameRecent(p: Purchase, amount: int, platform: string, now: int) {
    && p.amount == Some(amount)
    && p.platform == platform
    && p.timestamp.Some? && Abs(now - p.timestamp.value) < DedupWindow
  }

  function IsDuplicate(ps: seq<Purchase>, amount: int, platform: string, now: int): (b: bool)
    ensures b <==> exists i :: 0 <= i < |ps| && SameRecent(ps[i], amount, platform, now)
  {
    if ps == [] then false
    else
      assert forall i :: 1 <= i < |ps| ==> ps[i] == ps[1..][i - 1];
      SameRecent(ps[0], amount, platform, now) || IsDuplicate(ps[1..], amount, platform, now)
  }

  /** The budget alert, if any, as a list of notices. */
  function AlertList(alert: Option<Notice>): seq<Notice> {
    if alert.Some? then [alert.value] else []
  }

  /**
   * `handlePurchaseDetected(data)`: tracking disabled, then duplicate, are
   * rejected with the store unchanged; otherwise `addPurchase` runs and the
   * answer is "saved" even when it returned null. A stored purchase is
   * announced and followed by the budget check; for a null one the
   * announcement throws and nothing more happens.
   */
  method HandlePurchaseDetected(store: PurchaseStore, data: Content.Candidate, id: string, now: int, starts: PeriodStarts)
    returns (response: Response, notices: seq<Notice>)
    modifies store
    ensures !old(store.CurrentSettings()).trackingEnabled ==>
              response == NotSaved("tracking_disabled") && notices == [] && store.purchases == old(store.purchases)
    ensures old(store.CurrentSettings()).trackingEnabled && IsDuplicate(old(store.purchases), data.amount, data.platform, now) ==>
              response == NotSaved("duplicate") && notices == [] && store.purchases == old(store.purchases)
    ensures old(store.CurrentSettings()).trackingEnabled && !IsDuplicate(old(store.purchases), data.amount, data.platform, now) ==>
              var r := Sanitize(CandidateInput(data), id, now);
              && response == Saved(r)
              && (r.None? ==> store.purchases == old(store.purchases) && notices == [])
              && (r.Some? ==> store.purchases == [r.value] + old(store.purchases)
                              && notices == [PurchaseLogged(id)] + AlertList(CheckBudgetStatus(store.CurrentSettings(), store.purchases, starts)))
    ensures store.settings == old(store.settings) && store.categories == old(store.categories)
    ensures old(store.Valid()) ==> store.Valid()
  {
    var settings := store.GetSettings();
    if !settings.trackingEnabled {
      return NotSaved("tracking_disabled"), [];
    }
    if IsDuplicate(store.purchases, data.amount, data.platform, now) {
      return NotSaved("duplicate"), [];
    }
    var purchase := store.AddPurchase(Some(CandidateInput(data)), id, now);
    response := Saved(purchase);
    if purchase.None? {
      return response, [];
    }
    var current := store.GetSettings();
    notices := [PurchaseLogged(purchase.value.id)] + AlertList(CheckBudgetStatus(current, store.purchases, starts));
  }

  /** `handleManualPurchase(data)`: no tracking check and no duplicate check; the budget check follows. */
  method HandleManualPurchase(store: PurchaseStore, data: Option<PurchaseInput>, id: string, now: int, starts: PeriodStarts)
    returns (response: Response, notices: seq<Notice>)
    modifies store
    ensures data.None? ==> response == Saved(None) && store.purchases == old(store.purchases)
    ensures data.Some? ==>
              var r := Sanitize(data.value, id, now);
              && response == Saved(r)
              && (r.None? ==> store.purchases == old(store.purchases))
              && (r.Some? ==> store.purchases == [r.value] + old(store.purchases))
    ensures notices == AlertList(CheckBudgetStatus(store.CurrentSettings(), store.purchases, starts))
    ensures store.settings == old(store.settings) && store.categories == old(store.categories)
    ensures old(store.Valid()) ==> store.Valid()
  {
    var purchase := store.AddPurchase(data, id, now);
    response := Saved(purchase);
    var settings := store.GetSettings();
    notices := AlertList(CheckBudgetStatus(settings, store.purchases, starts));
  }

  /** `handleGetSpending(period)`: a missing period ("") means "monthly". */
  method HandleGetSpending(store: PurchaseStore, period: string, starts: PeriodStarts) returns (r: Spending)
    ensures r == SpendingSince(store.purchases, StartOf(if period == "" then "monthly" else period, starts))
  {
    r := store.GetSpendingForPeriod(if period == "" then "monthly" else period, starts);
  }

  /** `handleGetPlatform(sender)`: no tab URL or no platform gives null; otherwise the serialisable copy of the platform. */
  function HandleGetPlatform(tabUrl: Option<Url>): (r: Option<PlatformInfo>)
    ensures tabUrl.None? ==> r.None?
    ensures tabUrl.Some? ==> r.None? == DetectPlatform(tabUrl.value).None?
    ensures r.Some? ==> r.value.key == DetectPlatform(tabUrl.value).value.key
  {
    if tabUrl.None? then None
    else
      var p := DetectPlatform(tabUrl.value);
      if p.None? then None else Some(Serialize(p.value))
  }

  /** The content script's order-page test on the answer agrees with `Platforms.isOrderPage` on the tab's URL. */
  lemma AnswerKeepsOrderPageTest(url: Url)
    ensures (HandleGetPlatform(Some(url)).Some? && AnyPathMatches(HandleGetPlatform(Some(url)).value.orderPagePatterns, url))
            <==> IsOrderPage(url)
  {
  }

  /** A candidate seen again within five minutes of being stored is a duplicate. */
  lemma ResubmissionIsDuplicate(data: Content.Candidate, ps: seq<Purchase>, id: string, stored: int, now: int)
    requires 0 < data.amount <= 99999900 && data.platform != [] && |data.platform| <= 50
    requires Abs(now - stored) < DedupWindow
    ensures Sanitize(CandidateInput(data), id, stored).Some?
    ensures IsDuplicate([Sanitize(CandidateInput(data), id, stored).value] + ps, data.amount, data.platform, now)
  {
    SanitizeKeepsCents(CandidateInput(data), id, stored, data.amount);
    var p := Sanitize(CandidateInput(data), id, stored).value;
    assert ([p] + ps)[0] == p;
  }

  /** The window is strict: a record exactly five minutes old does not block a candidate. */
  lemma WindowIsStrict(p: Purchase, amount: int, now: int)
    requires p.timestamp == Some(now - DedupWindow)
    ensures !IsDuplicate([p], amount, p.platform, now)
  {
  }
}
