/**
 * The toolbar popup (src/popup/popup.js): the budget ring, the recent list
 * and the quick-add form.
 */
module Popup {
  import opened Wrappers
  import opened Money
  import opened Text
  import opened Records
  import opened Store
  import opened Budget

  /** `Math.max(0, budget - spent)` */
  function Remaining(budget: int, spent: int): (r: int)
    ensures r >= 0 && r >= budget - spent
    ensures r == 0 || r == budget - spent
  {
    if budget - spent > 0 then budget - spent else 0
  }

  /** The ring's percentage: 0 without a positive budget, otherwise the rounded share capped at 100. */
  function PopupPercentage(budget: int, spent: int): (r: int)
    ensures r <= 100
    ensures budget <= 0 ==> r == 0
    ensures budget > 0 && RoundPercent(spent, budget) <= 100 ==> r == RoundPercent(spent, budget)
    ensures budget > 0 && RoundPercent(spent, budget) > 100 ==> r == 100
  {
    if budget > 0 then
      var p := RoundPercent(spent, budget);
      if p < 100 then p else 100
    else 0
  }

  datatype Ring = Plain | Warning | Danger

  /** The ring's colour class. */
  function RingClass(percentage: int, threshold: int): (r: Ring)
    ensures r == Danger <==> percentage >= 100
    ensures r == Warning <==> threshold <= percentage < 100
    ensures r == Plain <==> percentage < 100 && percentage < threshold
  {
    if percentage >= 100 then Danger
    else if percentage >= threshold then Warning
    else Plain
  }

  /** The currency symbol: the euro sign exactly for "EUR", the dollar sign for anything else. */
  function Symbol(currency: string): (r: string)
    ensures r == "€" <==> currency == "EUR"
    ensures r == "$" <==> currency != "EUR"
  {
    if currency == "EUR" then "€" else "$"
  }

  /** What `loadBudgetStatus()` shows; amounts in cents. */
  datatype BudgetView = BudgetView(
    symbol: string,
    spent: int,
    remaining: int,
    budget: int,
    percentage: int,
    ring: Ring,
    trackingActive: bool)

  function LoadBudgetStatus(settings: Settings, purchases: seq<Purchase>, starts: PeriodStarts): (v: BudgetView)
    ensures v.spent == SpendingSince(purchases, StartOf(settings.budgetPeriod, starts)).total
    ensures v.budget == settings.budgetAmount
    ensures v.remaining == Remaining(v.budget, v.spent)
    ensures v.percentage == PopupPercentage(v.budget, v.spent)
    ensures v.ring == RingClass(v.percentage, settings.alertThreshold)
    ensures v.symbol == Symbol(settings.currency)
    ensures v.trackingActive == settings.trackingEnabled
  {
    var spending := SpendingSince(purchases, StartOf(settings.budgetPeriod, starts));
    var budget := settings.budgetAmount;
    var percentage := PopupPercentage(budget, spending.total);
    BudgetView(
      Symbol(settings.currency),
      spending.total,
      Remaining(budget, spending.total),
      budget,
      percentage,
      RingClass(percentage, settings.alertThreshold),
      settings.trackingEnabled)
  }

  /** The popup and the background worker read the same numbers: the ring's percentage is the worker's capped at 100. */
  lemma PopupAgreesWithStatus(settings: Settings, purchases: seq<Purchase>, starts: PeriodStarts)
    ensures LoadBudgetStatus(settings, purchases, starts).spent == BudgetStatusOf(settings, purchases, starts).spent
    ensures LoadBudgetStatus(settings, purchases, starts).remaining == BudgetStatusOf(settings, purchases, starts).remaining
    ensures var p := BudgetStatusOf(settings, purchases, starts).percentage;
            LoadBudgetStatus(settings, purchases, starts).percentage == if p < 100 then p else 100
  {
  }

  /** With a threshold of at most 100, the ring is coloured exactly when the worker would warn or has exceeded its threshold. */
  lemma RingMatchesNearLimit(settings: Settings, purchases: seq<Purchase>, starts: PeriodStarts)
    requires settings.alertThreshold <= 100
    ensures LoadBudgetStatus(settings, purchases, starts).ring != Plain
            <==> BudgetStatusOf(settings, purchases, starts).isNearLimit
  {
  }

  /** Spending beyond a positive budget turns the ring to danger. */
  lemma OverBudgetShowsDanger(settings: Settings, purchases: seq<Purchase>, starts: PeriodStarts)
    requires settings.budgetAmount > 0 && settings.alertThreshold <= 100
    requires BudgetStatusOf(settings, purchases, starts).isOverBudget
    ensures LoadBudgetStatus(settings, purchases, starts).ring == Danger
  {
    OverBudgetIsNearLimit(settings, SpendingSince(purchases, StartOf(settings.budgetPeriod, starts)));
  }

  /** `purchases.slice(0, 5)`: the five newest records, or all of them. */
  function Recent(ps: seq<Purchase>): (r: seq<Purchase>)
    ensures |r| == if |ps| < 5 then |ps| else 5
    ensures r <= ps
  {
    if |ps| < 5 then ps else ps[..5]
  }

  /** The quick-add guard: nothing for a blank description or an amount that is not a positive number; otherwise the record handed to `addPurchase`. */
  function QuickAddInput(description: string, amount: Num, category: string): (r: Option<PurchaseInput>)
    ensures r.None? <==> Trim(description) == [] || !amount.Finite? || !IsPositive(amount.value)
    ensures r.Some? ==> r.value.amount == Finite(FromCents(RoundCents(amount.value)))
    ensures r.Some? ==> r.value.description == Trim(description) && r.value.category == category
    ensures r.Some? ==> r.value.platform == "Manual" && r.value.currency == "EUR"
    ensures r.Some? ==> r.value.url == [] && r.value.pageTitle == []
  {
    var d := Trim(description);
    if d == [] || !amount.Finite? || !IsPositive(amount.value) then None
    else Some(PurchaseInput(Finite(FromCents(RoundCents(amount.value))), d, category, "Manual", "EUR", "", ""))
  }

  /** The quick-add form's submit handler. */
  method QuickAdd(store: PurchaseStore, description: string, amount: Num, category: string, id: string, now: int)
    returns (added: Option<Purchase>)
    modifies store
    ensures QuickAddInput(description, amount, category).None? ==> added.None? && store.purchases == old(store.purchases)
    ensures QuickAddInput(description, amount, category).Some? ==>
              added == Sanitize(QuickAddInput(description, amount, category).value, id, now)
    ensures added.None? ==> store.purchases == old(store.purchases)
    ensures added.Some? ==> store.purchases == [added.value] + old(store.purchases)
    ensures store.settings == old(store.settings) && store.categories == old(store.categories)
    ensures old(store.Valid()) ==> store.Valid()
  {
    var input := QuickAddInput(description, amount, category);
    if input.None? {
      return None;
    }
    added := store.AddPurchase(input, id, now);
  }

  /**
   * A quick-added record keeps the amount the form rounded to, and an
   * amount that rounds to 0 cents (0.004, say) passes the form's guard but
   * is then refused by the store, so the form never stores 0.
   */
  lemma QuickAddStoresRoundedAmount(description: string, amount: Num, category: string, id: string, now: int)
    requires QuickAddInput(description, amount, category).Some?
    ensures var r := Sanitize(QuickAddInput(description, amount, category).value, id, now);
            && (r.Some? <==> 0 < RoundCents(amount.value) <= 99999900)
            && (r.Some? ==> r.value.amount == Some(RoundCents(amount.value)))
  {
    var input := QuickAddInput(description, amount, category).value;
    var cents := RoundCents(amount.value);
    assert Pow10(2) == 100;
    if 0 < cents <= 99999900 {
      SanitizeKeepsCents(input, id, now, cents);
    }
  }
}
