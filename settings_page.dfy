/**
 * The settings page (src/settings/settings.js): adding and removing
 * categories in the stored list, and the settings record the save button
 * hands to the store.
 */
module SettingsPage {
  import opened Wrappers
  import opened Text
  import opened Records
  import opened Store

  /** The list `getCategories()` returns for a stored value. */
  function Listed(stored: Option<seq<string>>): seq<string> {
    if stored.Some? then stored.value else DefaultCategories
  }

  /** The list after the add button: the trimmed name at the end, unless it is empty or already there. */
  function WithCategory(list: seq<string>, typed: string): (r: seq<string>)
    ensures Trim(typed) != [] ==> Trim(typed) in r
    ensures forall c :: c in r <==> c in list || (c == Trim(typed) && c != [])
    ensures list <= r
  {
    var name := Trim(typed);
    if name == [] || name in list then list else list + [name]
  }

  /** The list after a remove button: every entry equal to the name is gone, the others keep their order. */
  function Without(list: seq<string>, name: string): (r: seq<string>)
    ensures forall c :: c in r <==> c in list && c != name
  {
    Filter(list, (c: string) => c != name)
  }

  datatype AddOutcome = Ignored | AlreadyExists | Added

  /** The add-category button. */
  method AddCategory(store: PurchaseStore, typed: string) returns (outcome: AddOutcome)
    modifies store
    ensures Trim(typed) == [] ==> outcome == Ignored && store.categories == old(store.categories)
    ensures Trim(typed) != [] && Trim(typed) in Listed(old(store.categories)) ==>
              outcome == AlreadyExists && store.categories == old(store.categories)
    ensures Trim(typed) != [] && Trim(typed) !in Listed(old(store.categories)) ==>
              outcome == Added && store.categories == Some(WithCategory(Listed(old(store.categories)), typed))
    ensures store.purchases == old(store.purchases) && store.settings == old(store.settings)
    ensures old(store.Valid()) ==> store.Valid()
  {
    var name := Trim(typed);
    if name == [] {
      return Ignored;
    }
    var categories := store.GetCategories();
    if name in categories {
      return AlreadyExists;
    }
    categories := categories + [name];
    store.SetCategories(categories);
    outcome := Added;
  }

  /** A remove button. */
  method RemoveCategory(store: PurchaseStore, name: string)
    modifies store
    ensures store.categories == Some(Without(Listed(old(store.categories)), name))
    ensures store.purchases == old(store.purchases) && store.settings == old(store.settings)
    ensures old(store.Valid()) ==> store.Valid()
  {
    var categories := store.GetCategories();
    var filtered := Filter(categories, (c: string) => c != name);
    store.SetCategories(filtered);
  }

  /** Adding never creates a second copy of a name. */
  lemma AddKeepsDistinct(list: seq<string>, typed: string)
    requires Distinct(list)
    ensures Distinct(WithCategory(list, typed))
  {
  }

  /** Adding the same name twice is adding it once. */
  lemma AddIdempotent(list: seq<string>, typed: string)
    ensures WithCategory(WithCategory(list, typed), typed) == WithCategory(list, typed)
  {
  }

  /** Removing a name that was just added gives back the list as it was. */
  lemma {:induction false} RemoveUndoesAdd(list: seq<string>, typed: string)
    requires Trim(typed) !in list
    ensures Without(WithCategory(list, typed), Trim(typed)) == list
  {
    var name := Trim(typed);
    var keep := (c: string) => c != name;
    FilterAll(list, keep);
    if name != [] {
      FilterConcat(list, [name], keep);
      assert [name][..0] == [];
    }
  }

  /** The record the save button builds: `parseFloat(budget) || 500` in cents, `parseInt(threshold, 10)`, and always "EUR". */
  function SaveButtonInput(budget: Option<int>, period: string, threshold: Option<int>, notifications: bool, tracking: bool): SettingsInput {
    SettingsInput(Some(NumberOr(budget, 50000)), period, threshold, notifications, "EUR", tracking)
  }

  /** The save button. */
  method SaveButton(store: PurchaseStore, budget: Option<int>, period: string, threshold: Option<int>, notifications: bool, tracking: bool)
    modifies store
    ensures store.settings == Some(ValidateSettings(SaveButtonInput(budget, period, threshold, notifications, tracking)))
    ensures store.purchases == old(store.purchases) && store.categories == old(store.categories)
    ensures old(store.Valid()) ==> store.Valid()
  {
    store.SaveSettings(Some(SaveButtonInput(budget, period, threshold, notifications, tracking)));
  }

  /** What the save button stores: the currency is always "EUR", and the budget is 0 only when a negative amount was typed. */
  lemma SavedSettings(budget: Option<int>, period: string, threshold: Option<int>, notifications: bool, tracking: bool)
    ensures ValidateSettings(SaveButtonInput(budget, period, threshold, notifications, tracking)).currency == "EUR"
    ensures budget.None? || budget == Some(0) ==>
              ValidateSettings(SaveButtonInput(budget, period, threshold, notifications, tracking)).budgetAmount == 50000
    ensures ValidateSettings(SaveButtonInput(budget, period, threshold, notifications, tracking)).budgetAmount == 0
            <==> budget.Some? && budget.value < 0
  {
  }

  /** Loading the page and saving again without edits keeps the settings, unless the stored budget is 0. */
  lemma ResaveKeepsSettings(s: Settings)
    requires WellFormed(s) && s.currency == "EUR"
    ensures ValidateSettings(SaveButtonInput(Some(s.budgetAmount), s.budgetPeriod, Some(s.alertThreshold), s.notificationsEnabled, s.trackingEnabled)) == s
            <==> s.budgetAmount != 0
  {
    ValidateRoundTrip(s);
  }
}
