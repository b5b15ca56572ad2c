/**
 * The budget rules of the background worker (both copies compute them the
 * same way): the status record of `getBudgetStatus`, the alert choice of
 * `checkBudgetStatus` and the rule of `sendDailySummary`.
 */
module Budget {
  import opened Wrappers
  import opened Records
  import Money

  /** `Math.round(spent / budget * 100)` for a positive budget: the nearest whole percent, halves rounded up. */
  function RoundPercent(spent: int, budget: int): (r: int)
    requires budget > 0
    ensures -budget < 2 * (r * budget - 100 * spent) <= budget
  {
    var r := (200 * spent + budget) / (2 * budget);
    assert 2 * budget * r <= 200 * spent + budget < 2 * budget * r + 2 * budget;
    r
  }

  /** The object `getBudgetStatus` returns; amounts in cents. */
  datatype BudgetStatus = BudgetStatus(
    budget: int,
    spent: int,
    remaining: int,
    percentage: int,
    period: string,
    count: nat,
    isOverBudget: bool,
    isNearLimit: bool)

  function Status(settings: Settings, spending: Spending): (st: BudgetStatus)
    ensures st.budget == settings.budgetAmount && st.spent == spending.total && st.count == spending.count
    ensures st.period == settings.budgetPeriod
    ensures st.remaining >= 0 && st.remaining >= st.budget - st.spent
    ensures st.remaining == 0 || st.remaining == st.budget - st.spent
    ensures st.budget <= 0 ==> st.percentage == 0
    ensures st.budget > 0 ==> -st.budget < 2 * (st.percentage * st.budget - 100 * st.spent) <= st.budget
    ensures st.isOverBudget <==> st.spent > st.budget
    ensures st.isNearLimit <==> st.percentage >= settings.alertThreshold
  {
    var budget := settings.budgetAmount;
    var spent := spending.total;
    var percentage := if budget > 0 then RoundPercent(spent, budget) else 0;
    BudgetStatus(
      budget,
      spent,
      if budget - spent > 0 then budget - spent else 0,
      percentage,
      settings.budgetPeriod,
      spending.count,
      spent > budget,
      percentage >= settings.alertThreshold)
  }

  /** `getBudgetStatus()` over a purchase list, for the stored budget period. */
  function BudgetStatusOf(settings: Settings, purchases: seq<Purchase>, starts: PeriodStarts): BudgetStatus {
    Status(settings, SpendingSince(purchases, StartOf(settings.budgetPeriod, starts)))
  }

  /** Spending beyond a positive budget rounds to at least 100 percent, so it is also near any threshold up to 100. */
  lemma OverBudgetIsNearLimit(settings: Settings, spending: Spending)
    requires settings.budgetAmount > 0 && settings.alertThreshold <= 100
    requires Status(settings, spending).isOverBudget
    ensures Status(settings, spending).percentage >= 100
    ensures Status(settings, spending).isNearLimit
  {
    var st := Status(settings, spending);
    var b := settings.budgetAmount;
    assert (2 * st.percentage) * b > 199 * b;
    CancelFactor(2 * st.percentage, 199, b);
  }

  lemma CancelFactor(x: int, y: int, b: int)
    requires b > 0 && x * b > y * b
    ensures x > y
  {
    if x <= y {
      Money.MulMono(x, y, b);
    }
  }


  /** The notifications the background worker can create. */
  datatype Notice =
    | BudgetExceeded
    | BudgetWarning
    | PurchaseLogged(id: string)
    | DailySummary(count: nat, total: int)

  /** `checkBudgetStatus()`: nothing when notifications are off; "budget-exceeded" takes precedence over "budget-warning". */
  function ChooseAlert(settings: Settings, st: BudgetStatus): (r: Option<Notice>)
    ensures r.Some? ==> settings.notificationsEnabled
    ensures r == Some(BudgetExceeded) <==> settings.notificationsEnabled && st.isOverBudget
    ensures r == Some(BudgetWarning) <==> settings.notificationsEnabled && !st.isOverBudget && st.isNearLimit
    ensures r.None? <==> !settings.notificationsEnabled || (!st.isOverBudget && !st.isNearLimit)
  {
    if !settings.notificationsEnabled then None
    else if st.isOverBudget then Some(BudgetExceeded)
    else if st.isNearLimit then Some(BudgetWarning)
    else None
  }

  function CheckBudgetStatus(settings: Settings, purchases: seq<Purchase>, starts: PeriodStarts): Option<Notice> {
    ChooseAlert(settings, BudgetStatusOf(settings, purchases, starts))
  }

  /** Once over budget, a further purchase of a non-negative amount keeps the exceeded alert. */
  lemma ExceededStaysExceeded(settings: Settings, p: Purchase, purchases: seq<Purchase>, starts: PeriodStarts)
    requires CheckBudgetStatus(settings, purchases, starts) == Some(BudgetExceeded)
    requires AmountOr0(p) >= 0
    ensures CheckBudgetStatus(settings, [p] + purchases, starts) == Some(BudgetExceeded)
  {
    SpendingAfterPrepend(p, purchases, StartOf(settings.budgetPeriod, starts));
  }

  /** `sendDailySummary()`: with notifications on, the number and the sum of the purchases dated today or later, if there are any. */
  function DailySummaryOf(settings: Settings, purchases: seq<Purchase>, todayStart: int): (r: Option<Notice>)
    ensures r.Some? <==> settings.notificationsEnabled && exists p :: p in purchases && DatedFrom(p, todayStart)
    ensures r.Some? ==> r.value.DailySummary? && r.value.count >= 1
                        && r.value.count == SpendingSince(purchases, todayStart).count
                        && r.value.total == SpendingSince(purchases, todayStart).total
  {
    var today := SpendingSince(purchases, todayStart);
    if !settings.notificationsEnabled || today.count == 0 then None
    else
      assert today.purchases[0] in today.purchases;
      Some(DailySummary(today.count, today.total))
  }
}
