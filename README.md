# Shopping spending tracker: a verified model of the purchase-tracking core

The extension watches supported shops (Amazon, eBay, Walmart, Target, Best Buy,
Etsy, Shopify stores, AliExpress and Newegg). When an order-confirmation page
appears, the content script reads the order total and the item names. The
background worker stores the purchase, unless tracking is off or the same
amount on the same platform was stored less than five minutes earlier. The
store validates what it is given, and the popup, history and settings pages
read it back: budget status, filters, summaries and charts. The repository
also keeps an older, unvalidating store and background worker at its root.
This project models both generations.

Modules, one per file:

- `wrappers.dfy` (`Wrappers`): `Option`.
- `text.dfy` (`Text`): the string operations the source relies on.
  - `trim` with JavaScript's white-space set.
  - ASCII lower-casing.
  - `includes`, `substring(0, n)` and `join`.
- `money.dfy` (`Money`): numbers as exact decimals.
  - `parseFloat` on the cleaned text.
  - `Math.round(x * 100) / 100` as rounding to the nearest cent, with halves going up.
- `platforms.dfy` (`Platforms`): the platform registry of `platforms.js` and its lookups.
  - The host and order-page regular expressions are a small pattern language that matches them exactly.
  - `detectPlatform` and `isOrderPage`.
- `content.dfy` (`Content`): the content script `content.js`.
  - `parseCurrency`, `extractCurrencySymbol`, `queryFirst`, `queryAllText`, `detectOrderConfirmation` and `extractPurchaseData`, over a page given as selector matches plus body text.
  - The `hasScanned` latch, as the `Scanner` class.
- `records.dfy` (`Records`): the stored purchase and settings records, plus the list computations both stores share.
  - Period sums, grouping by category, and the four-week comparison.
- `store.dfy` (`Store`): the validating store of `src/lib/storage.js`, as the `PurchaseStore` class.
  - Its fields are the purchase list, the settings and the category list.
- `legacy_store.dfy` (`LegacyStore`): the older `storage.js`, which stores records as given.
- `budget.dfy` (`Budget`): the budget status, the choice of budget alert, and the daily summary of `src/background/background.js`.
- `background.dfy` (`Background`): the message handlers of `src/background/background.js`.
- `legacy_background.dfy` (`LegacyBackground`): the older handlers of `background.js`.
- `history.dfy` (`History`): the history page.
  - The filters, the summary cards and the platform options.
  - The category chart and the weekly trend.
- `settings_page.dfy` (`SettingsPage`): adding and removing categories, and the save button.
- `popup.dfy` (`Popup`): the popup.
  - The budget ring, the currency symbol and the recent list.
  - The quick-add form.

Amounts are whole cents (`int`), and timestamps and dates are milliseconds.
The start of the current week, month and year, and today's midnight, are
inputs. A missing string field is the empty string, since the source's
`x || default` treats both alike. A missing amount, timestamp or date is
`None`.

## Model

| member | source | states |
|---|---|---|
| Text.Trim | src/lib/storage.js:58 | the result is no longer than the text and has no white space at either end |
| Text.TrimSlice | src/lib/storage.js:58 | the trimmed text is a slice of the original with only white space before and after it, so nothing inside is removed |
| Text.TrimIdempotent | content.js:31 | trimming twice is trimming once |
| Text.Take | src/lib/storage.js:58-63 | `substring(0, n)` is the prefix of the text whose length is n, or the whole text when it is shorter |
| Text.NotContainsFirst | content.js:13-15 | a text without the first character of a pattern does not include the pattern |
| Money.RoundCents | content.js:74 | the result is the whole number of cents within half a cent of the value, with a half going up |
| Money.RoundCentsUnique | src/lib/storage.js:57 | no other whole number of cents lies within half a cent, so rounding is determined |
| Money.RoundCentsOfCents | src/lib/storage.js:57 | an amount that is already whole cents is unchanged |
| Money.RoundCentsBounds | src/lib/storage.js:54-57 | an accepted amount in (0, 999999] rounds to between 0 and 99999900 cents; 0 is possible |
| Money.RoundsToZero | src/lib/storage.js:54-57 | 0.004 is positive and rounds to 0 cents |
| Money.LeadingDigits | content.js:7 | the longest run of digits at the start of the text |
| Money.ParseFloat | content.js:7 | NaN (None) iff the text starts neither with a digit nor with a period followed by a digit; a number is never negative |
| Money.ParseFloatParts | content.js:7 | `parseFloat` of digits, a point and digits is their exact decimal value |
| Money.ParseFloatDecimal | content.js:7 | `parseFloat` of whole digits w, a point, fraction digits f and then a non-digit is exactly w + f / 10^(length of f) |
| Money.ParseFloatWhole | content.js:7 | digits followed by neither a digit nor a period parse to that whole number |
| Platforms.FirstHostMatch | platforms.js:251-261 | the first registry member, in order, whose host pattern matches; none iff no member matches |
| Platforms.DetectPlatform | platforms.js:251-261 | none iff no platform's host pattern matches the host name; otherwise a registry entry |
| Platforms.OrderPageIgnoresHost | platforms.js:263-269 | two URLs with the same platform and the same path and query are both order pages or neither |
| Platforms.IsOrderPage | platforms.js:263-269 | defined as: a platform is detected for the URL and one of its order-page patterns matches the path plus query; OrderPageIgnoresHost and AnswerKeepsOrderPageTest state its properties |
| Platforms.Serialize | src/background/background.js:58-65 | defined as the platform entry with its host pattern dropped; AnswerKeepsOrderPageTest shows the receiver's order-page test on it equals isOrderPage |
| Platforms.RegistryWellFormed | platforms.js:1-249 | every entry has non-empty selector lists, keys are distinct, and each entry has its default category |
| Platforms.AmazonOrderPage | platforms.js:2-33 | www.amazon.com is Amazon, and "/ORDER/123" is an order page there (case-insensitive `/order`) |
| Platforms.ShopifyThankYou | platforms.js:172-178 | `/checkouts/.+/thank_you` matches "/checkouts/c1/thank_you" but not "/checkouts//thank_you" |
| Content.KeepAmountChars | content.js:6 | only digits, points and commas remain |
| Content.DropCommas | content.js:6 | no comma remains |
| Content.KeepAmountCharsAppend | content.js:6 | the character filter distributes over concatenation |
| Content.DropCommasAppend | content.js:6 | comma removal distributes over concatenation |
| Content.KeepAmountCharsAll | content.js:6 | a text of digits, points and commas is kept whole |
| Content.KeepAmountCharsNone | content.js:6 | a text without digits, points or commas is removed entirely |
| Content.DropCommasNone | content.js:6 | a text without commas is unchanged |
| Content.ParseCurrency | content.js:4-9 | empty text gives null; a parsed amount is never negative; with ParseFloat's contract, null exactly when the cleaned text does not start a number (NoDigitNoAmount: any text without a digit) |
| Content.ParseCurrencyIgnores | content.js:4-9 | inserting any character other than a digit or a point (a comma, a letter, a currency sign) never changes the parsed amount |
| Content.ParseCurrencyExample | content.js:4-9 | "Total: $1,234.56" parses to 1234.56 |
| Content.NoDigitNoAmount | content.js:4-9 | a text without a digit (a lone period, a label, only separators) gives null |
| Content.ParseCurrencyWholeExample | content.js:4-9 | "Total: 1,234 EUR" parses to 1234 with no fraction |
| Content.ParseFloatSubCent | content.js:7 | "0.004" parses to 4 thousandths |
| Content.ExtractCurrencySymbol | content.js:11-17 | "€" iff the text has € or EUR; "£" iff not that and £ or GBP; "¥" iff neither and ¥; "$" otherwise, including empty text |
| Content.DollarsOnly | content.js:11-17 | "Total: $1,234.56" gives "$" |
| Content.FirstText | content.js:19-25 | the first match of the earliest selector that matches; none iff no selector matches |
| Content.QueryFirst | content.js:19-25 | the loop returns exactly the first match of the earliest matching selector |
| Content.NonEmptyTexts | content.js:30-33 | every kept text is non-empty and trimmed |
| Content.AllText | content.js:27-37 | the trimmed non-empty texts of exactly one selector, the first that yields any; empty iff none does |
| Content.TrimmedTexts | content.js:30-33 | the inner loop collects the trimmed non-empty texts in order |
| Content.QueryAllText | content.js:27-37 | the loop stops after the first selector that yields text and returns its texts |
| Content.AnyIndicator | content.js:40-42 | true iff some confirmation selector matches an element |
| Content.AnyPhrase | content.js:56 | true iff the text includes one of the phrases |
| Content.DetectOrderConfirmation | content.js:39-57 | true iff an indicator selector matches or the lower-cased body includes one of the eight phrases |
| Content.ConfirmationSurvivesMoreText | content.js:44-56 | more body text never withdraws a confirmation |
| Content.ExtractPurchaseData | content.js:59-82 | null iff there is no total or it does not parse to a positive number; otherwise the amount is the total rounded to cents, the currency comes from the trimmed total text, platform, category, url and title come from their sources, and the description is the first five item names (or "Purchase on <name>") cut to 200 characters |
| Content.TotalAmount | content.js:60-65 | defined as: none without a total element, otherwise parseCurrency of its trimmed text |
| Content.ItemDescription | content.js:68-71 | defined as: the first five item names joined with ", ", or "Purchase on <name>" when there are none |
| Content.AmazonPageTotal | content.js:60 | on the sample Amazon page the total selector chain finds "Total: $1,234.56" |
| Content.AmazonPageNoItems | content.js:67 | on the sample page no item selector yields text |
| Content.AmazonPageAmount | content.js:60-65 | the sample page's total parses to 123456 cents |
| Content.AmazonPageDescription | content.js:67-71 | with no item names the description is "Purchase on Amazon" |
| Content.AmazonPageCurrency | content.js:75 | the sample total gives "$" |
| Content.AmazonExtraction | content.js:59-82 | the sample Amazon confirmation yields 123456 cents, "$", "Purchase on Amazon" and category "Other" |
| Content.SubCentTotal | content.js:64-74 | a total of 0.004 passes the positivity test and is sent as 0 cents |
| Content.FirstSuccess | content.js:84-114 | at most one candidate: the one from the first scan that succeeds |
| Content.ScanOutcome | content.js:84-114 | defined as: none unless the platform answer exists, its order-page patterns match the path plus query, the page is a confirmation and the extraction succeeds; Scanner.Run is proved to send the first such outcome |
| Content.Scanner.constructor | content.js:2 | a fresh page has not scanned and has sent nothing |
| Content.Scanner.ScanPage | content.js:84-114 | once latched nothing happens; otherwise the latch is set and one candidate sent exactly when the platform answer, the order-page test, the confirmation and the extraction all succeed |
| Content.Scanner.Run | content.js:116-130 | repeated scans send at most one candidate, the first successful one |
| Records.CategoryOf | src/lib/storage.js:145 | `p.category \|\| "Other"` is never empty |
| Records.Filter | src/lib/storage.js:79 | the kept elements are exactly those of the list that pass, in order |
| Records.FilterConcat | src/lib/storage.js:132-134 | filtering distributes over concatenation |
| Records.FilterTwice | src/history/history.js:64-82 | filtering by one test and then another is filtering once by both |
| Records.FilterSame | src/history/history.js:46-82 | a filter that is skipped keeps the same list as a test that passes everything |
| Records.FilterNone | src/history/history.js:64 | when nothing passes, nothing is kept |
| Records.FilterAll | src/history/history.js:44 | the list is kept whole iff every element passes |
| Records.TotalConcat | src/lib/storage.js:135 | the sum of a concatenation is the sum of the sums |
| Records.Total | src/lib/storage.js:135 | defined as the sum of `p.amount \|\| 0`; TotalConcat and TotalNonNegative state its properties |
| Records.TotalNonNegative | src/lib/storage.js:135 | non-negative amounts have a non-negative sum |
| Records.StartOf | src/lib/storage.js:116-130 | weekly, yearly, and otherwise (unknown periods too) monthly start |
| Records.SpendingSince | src/lib/storage.js:111-138 | the period's purchases are exactly the stored ones dated from the start; count is their number |
| Records.SpendingAfterPrepend | src/lib/storage.js:72 | a new purchase dated in the period adds its amount and 1; one dated before changes nothing |
| Records.IndexOf | src/lib/storage.js:146 | the position of the category's bucket; none iff there is no bucket for it |
| Records.AddTo | src/lib/storage.js:145-150 | one more bucket or the same number; GroupBuckets proves the buckets it builds are exact |
| Records.Group | src/lib/storage.js:140-154 | defined as AddTo over the purchases in order; GroupSums, GroupDistinct and GroupBuckets state its properties |
| Records.GroupSums | src/lib/storage.js:140-154 | the category totals add up to the period total and the counts to the number of purchases |
| Records.GroupDistinct | src/lib/storage.js:140-154 | each category has one bucket |
| Records.GroupBuckets | src/lib/storage.js:140-154 | each bucket's total and count are those of the purchases of its category, and every purchase's category has a bucket |
| Records.WeekBack | src/lib/storage.js:161-183 | each week window is exactly seven days long and counts no more than the stored purchases; EmptyWeek and WeekAfterPrepend fix its total and count for every list |
| Records.EmptyWeek | src/lib/storage.js:170-180 | a week with no purchase dated inside its window has total 0 and count 0 |
| Records.WeekAfterPrepend | src/lib/storage.js:170-180 | a prepended purchase dated inside the week adds its amount to the total and 1 to the count; any other purchase leaves the week unchanged |
| Records.WeeksAdjacent | src/lib/storage.js:162-168 | each window starts the millisecond after the older one ends, and the newest ends with today |
| Records.WeeksDisjoint | src/lib/storage.js:170-173 | no purchase falls in two weeks |
| Records.Reversed | src/lib/storage.js:186 | the list in reverse order |
| Records.DeleteIdempotent | src/lib/storage.js:77-82 | deleting keeps exactly the records with another id, and deleting again changes nothing |
| Store.FieldOr | src/lib/storage.js:59-61 | the field, or the fallback when empty, cut to n characters |
| Store.Sanitize | src/lib/storage.js:50-75 | null iff the amount is NaN, ≤ 0 or > 999999; otherwise the amount rounded to cents in [0, 99999900], a trimmed description of at most 200 characters ("Unnamed purchase" when blank), defaulted and truncated fields, and the new id, timestamp and date |
| Store.SanitizeKeepsCents | src/lib/storage.js:53-57 | an amount of whole cents in range is stored unchanged |
| Store.Clamp | src/lib/storage.js:93 | the value held within the bounds |
| Store.NumberOr | src/lib/storage.js:93-97 | NaN and 0 give the fallback |
| Store.ValidateSettings | src/lib/storage.js:89-101 | a well-formed record: budget 500 for NaN or 0, else clamped to [0, 9999999]; an unknown period becomes monthly; threshold 80 for NaN or 0, else clamped to [50, 100]; currency defaulted and cut to 3 |
| Store.ValidateRoundTrip | src/lib/storage.js:89-101 | saving a well-formed record gives it back iff its budget is not 0 |
| Store.ValidateIdempotent | src/lib/storage.js:89-101 | validating twice equals validating once iff the budget did not clamp to 0 |
| Store.ImportedPurchases | src/lib/storage.js:198-201 | exactly the non-null entries with an amount above 0 and a date, in order |
| Store.ImportExported | src/lib/storage.js:189-201 | re-importing an exported list gives it back iff no record is 0 cents |
| Store.PurchaseStore.constructor | src/lib/storage.js:45-48 | an empty store |
| Store.PurchaseStore.CurrentSettings | src/lib/storage.js:84-87 | the stored record or the defaults; well formed in a valid store |
| Store.PurchaseStore.GetSettings | src/lib/storage.js:84-87 | returns the stored record or the defaults |
| Store.PurchaseStore.GetCategories | src/lib/storage.js:106-109 | returns the stored list or the ten default categories |
| Store.PurchaseStore.SetCategories | src/lib/storage.js:39-43 | the list replaces the stored one; nothing else changes |
| Store.PurchaseStore.AddPurchase | src/lib/storage.js:50-75 | null for a non-object or a rejected amount with the list unchanged; otherwise the sanitised record is prepended; validity is kept |
| Store.PurchaseStore.DeletePurchase | src/lib/storage.js:77-82 | the list keeps exactly the records with another id, and is returned |
| Store.PurchaseStore.SaveSettings | src/lib/storage.js:89-104 | a non-object changes nothing; otherwise the validated record is stored |
| Store.PurchaseStore.GetSpendingForPeriod | src/lib/storage.js:111-138 | the spending since the period's start |
| Store.PurchaseStore.GetSpendingByCategory | src/lib/storage.js:140-154 | the accumulation loop yields the category grouping of the period's purchases |
| Store.PurchaseStore.GetWeeklyComparison | src/lib/storage.js:156-187 | four weeks, oldest first, each the week i back, adjacent, the last ending today |
| Store.PurchaseStore.ExportData | src/lib/storage.js:189-193 | the stored list, the effective settings and the time |
| Store.PurchaseStore.ImportData | src/lib/storage.js:195-207 | a non-object changes nothing; an array of purchases is filtered and replaces the list; a settings object is validated and stored |
| Store.ExportImportRoundTrip | src/lib/storage.js:189-207 | export then import keeps the purchases iff none is 0 cents, and the settings iff the budget is not 0 |
| Store.SubCentPurchaseLostOnReimport | src/lib/storage.js:54-57 | a purchase of 0.004 is stored as 0 cents and is dropped by importing the export |
| LegacyStore.Stamp | storage.js:52-54 | the record gets the id, timestamp and date, and keeps every other field |
| LegacyStore.LegacyStore.constructor | storage.js:45-48 | an empty store |
| LegacyStore.LegacyStore.CurrentSettings | storage.js:67-70 | the stored record or the USD defaults |
| LegacyStore.LegacyStore.AddPurchase | storage.js:50-58 | the stamped record is prepended, unchecked |
| LegacyStore.LegacyStore.DeletePurchase | storage.js:60-65 | keeps exactly the records with another id |
| LegacyStore.LegacyStore.SaveSettings | storage.js:72-74 | the record is stored as given |
| LegacyStore.LegacyStore.GetSpendingForPeriod | storage.js:81-108 | the spending since the period's start |
| LegacyStore.LegacyStore.GetSpendingByCategory | storage.js:110-124 | the category grouping of the period's purchases |
| LegacyStore.LegacyStore.ExportData | storage.js:126-130 | the stored list, the effective settings and the time |
| LegacyStore.LegacyStore.ImportData | storage.js:132-139 | each present field replaces the stored one as given |
| LegacyStore.NegativeAmountCounted | storage.js:50-58 | a negative amount is stored and lowers the period total |
| Budget.RoundPercent | src/background/background.js:124 | the percentage is the nearest whole percent of spent over budget, halves up |
| Budget.Status | src/background/background.js:117-136 | budget, spent and count as given; remaining = max(0, budget − spent); percentage 0 without a positive budget; over budget iff spent > budget; near limit iff percentage ≥ threshold |
| Budget.BudgetStatusOf | src/background/background.js:117-136 | defined as Status of the settings over SpendingSince from the budget period's start |
| Budget.OverBudgetIsNearLimit | src/background/background.js:117-136 | spending beyond a positive budget gives at least 100 percent, so near limit for any threshold up to 100 |
| Budget.ChooseAlert | src/background/background.js:138-175 | nothing with notifications off; exceeded iff over budget; warning iff near limit and not over; at most one alert |
| Budget.CheckBudgetStatus | src/background/background.js:138-175 | defined as ChooseAlert over BudgetStatusOf; ExceededStaysExceeded states its property |
| Budget.ExceededStaysExceeded | src/background/background.js:138-175 | a further non-negative purchase keeps the exceeded alert |
| Budget.DailySummaryOf | src/background/background.js:192-216 | a summary iff notifications are on and some purchase is dated today or later (from today's midnight on); its count and total are those of the purchases dated from today's midnight |
| Background.IsDuplicate | src/background/background.js:80-87 | true iff some stored record has the same amount and platform and a timestamp less than 300000 ms away |
| Background.HandlePurchaseDetected | src/background/background.js:72-99 | tracking off or a duplicate refuses with the store unchanged; otherwise the sanitised record is stored, the answer is "saved" even for null, and a stored record is announced before the budget alert |
| Background.HandleManualPurchase | src/background/background.js:111-115 | stores with no tracking or duplicate check, answers "saved", then the budget alert |
| Background.HandleGetSpending | src/background/background.js:101-104 | a missing period means monthly |
| Background.HandleGetPlatform | src/background/background.js:50-70 | null without a tab URL or a platform; otherwise the detected platform's entry |
| Background.AnswerKeepsOrderPageTest | src/background/background.js:50-70 | the content script's order-page test on the answer agrees with `isOrderPage` on the tab URL |
| Background.ResubmissionIsDuplicate | src/background/background.js:80-92 | a candidate of 1 to 99999900 cents on a platform name of 1 to 50 characters, stored and seen again within five minutes, is refused as a duplicate |
| Background.WindowIsStrict | src/background/background.js:81-85 | a record exactly 300000 ms old does not block |
| LegacyBackground.CandidatePurchase | background.js:90 | the message data as the record the older store receives |
| LegacyBackground.HandlePurchaseDetected | background.js:68-94 | the same refusals; otherwise the record is stored as given, with no announcement, then the budget alert |
| LegacyBackground.HandleManualPurchase | background.js:106-110 | stores as given, then the budget alert |
| LegacyBackground.HandleGetSpending | background.js:96-99 | a missing period means monthly |
| LegacyBackground.ResubmissionIsDuplicate | background.js:75-84 | without sanitising every resubmission within five minutes is a duplicate, whatever the amount |
| History.PeriodStart | src/history/history.js:50-62 | weekly, monthly and yearly have a start; any other value has none |
| History.InPeriod | src/history/history.js:46-65 | defined as: the period has a start and the purchase is dated from it |
| History.Needle | src/history/history.js:42 | defined as the search text lower-cased and trimmed |
| History.MatchesSearch | src/history/history.js:75-82 | defined as: the lower-cased description, platform or category includes the needle |
| History.HistoryPage.constructor | src/history/history.js:8-9 | the page's copy is the stored list |
| History.HistoryPage.GetFilteredPurchases | src/history/history.js:38-85 | the result is the list filtered, in order, by every active filter at once: "all" disables a filter, category and platform by equality, the trimmed lower-cased search in description, platform or category |
| History.HistoryPage.DeleteRow | src/history/history.js:189-195 | the record is deleted from the store and the page copy is re-read |
| History.NoFiltersKeepsAll | src/history/history.js:44-84 | with every control on "all" and a blank search the whole list is shown |
| History.UnknownPeriodKeepsNothing | src/history/history.js:46-65 | a period outside the switch keeps no purchase |
| History.SumByCategory | src/history/history.js:99-103 | the loop yields the category grouping |
| History.TopCategory | src/history/history.js:105-112 | none iff no total is positive ("-"); otherwise the first bucket strictly above every earlier one, and at least every later one |
| History.Average | src/history/history.js:97 | the average is 0 with no purchases, and otherwise times the count gives back the total |
| History.RenderSummary | src/history/history.js:94-120 | total and count of the list, the average of the two, and the top category by the scan |
| History.TopCategoryIsLargest | src/history/history.js:99-112 | the top category's total is its purchases' sum and no category name has a larger sum |
| History.DistinctPlatforms | src/history/history.js:27 | each non-empty platform of the list once, and nothing else |
| History.DistinctPlatformsExtend | src/history/history.js:27 | later purchases only add options at the end: first-appearance order |
| History.Insert | src/history/history.js:132 | inserting keeps the order by descending total and adds exactly one entry |
| History.SortByTotal | src/history/history.js:132 | the rows sorted by descending total, a permutation of the buckets |
| History.ChartScaleIsLargest | src/history/history.js:132-141 | the chart rows are the category buckets, the scale is the largest total, and no bar exceeds 100 |
| History.ChartRows | src/history/history.js:122-131 | defined as the category buckets sorted by total, largest first |
| History.ChartScale | src/history/history.js:133 | defined as the first row's total, or 0 with no rows |
| History.BarWidth | src/history/history.js:141 | defined as amount / maxVal · 100, or 0 when maxVal is not positive |
| History.MaxTotal | src/history/history.js:227 | at least the floor and every total, and equal to one of them |
| History.BarOf | src/history/history.js:230-237 | the height is between 3 and 100, and 100 for the largest week |
| History.WeeklyBars | src/history/history.js:217-242 | one bar per week, heights in [3, 100], the largest at 100, and only the last bar current |
| SettingsPage.WithCategory | src/settings/settings.js:62-74 | the trimmed name is added at the end unless empty or already there; nothing else changes |
| SettingsPage.Without | src/settings/settings.js:36 | exactly the entries not equal to the name remain |
| SettingsPage.AddCategory | src/settings/settings.js:62-77 | an empty name is ignored; an existing one is refused; otherwise the name is appended and written back |
| SettingsPage.RemoveCategory | src/settings/settings.js:32-40 | the list without the name is written back |
| SettingsPage.AddKeepsDistinct | src/settings/settings.js:67-74 | adding never creates a duplicate |
| SettingsPage.AddIdempotent | src/settings/settings.js:67-74 | adding the same name twice is adding it once |
| SettingsPage.RemoveUndoesAdd | src/settings/settings.js:36-74 | removing a name just added restores the list |
| SettingsPage.SaveButton | src/settings/settings.js:48-60 | the validated form values are stored |
| SettingsPage.SaveButtonInput | src/settings/settings.js:48-56 | defined as the form values with `parseFloat(budget) \|\| 500` in cents and "EUR"; SavedSettings and ResaveKeepsSettings state its properties |
| SettingsPage.SavedSettings | src/settings/settings.js:49-56 | the currency is always EUR; a NaN or 0 budget saves 500; the budget saves as 0 iff a negative amount was typed |
| SettingsPage.ResaveKeepsSettings | src/settings/settings.js:7-56 | loading and saving again keeps the settings iff the budget is not 0 |
| Popup.Remaining | src/popup/popup.js:14 | max(0, budget − spent) |
| Popup.PopupPercentage | src/popup/popup.js:15 | never above 100; 0 without a positive budget; otherwise the rounded percentage capped at 100 |
| Popup.RingClass | src/popup/popup.js:32-37 | danger iff ≥ 100; warning iff threshold ≤ percentage < 100; plain otherwise |
| Popup.Symbol | src/popup/popup.js:17 | "€" iff the currency is EUR, "$" otherwise |
| Popup.LoadBudgetStatus | src/popup/popup.js:8-47 | the view of the period's spending against the budget |
| Popup.PopupAgreesWithStatus | src/popup/popup.js:12-15 | the popup shows the worker's spent and remaining, and its percentage capped at 100 |
| Popup.RingMatchesNearLimit | src/popup/popup.js:32-37 | with a threshold up to 100 the ring is coloured iff the worker counts the budget near its limit |
| Popup.OverBudgetShowsDanger | src/popup/popup.js:32-34 | spending beyond a positive budget shows danger |
| Popup.Recent | src/popup/popup.js:52 | the first five records, or all when fewer |
| Popup.QuickAddInput | src/popup/popup.js:106-120 | nothing for a blank description or an amount that is NaN or ≤ 0; otherwise the rounded amount, the trimmed description, platform "Manual" and currency "EUR" |
| Popup.QuickAdd | src/popup/popup.js:103-120 | the guard refuses without touching the store; otherwise the record goes through `addPurchase` |
| Popup.QuickAddStoresRoundedAmount | src/popup/popup.js:110-114 | a quick-added record keeps the rounded amount and is stored iff it is 1 to 99999900 cents, so 0 is never stored from the form |

## Left out

- Chrome APIs are not modelled: storage, messaging, alarms, notifications, tabs and `onInstalled`. The store is in-memory fields, and notifications are returned values.
- Notification texts and the `lastError` path are not modelled.
- DOM work is not modelled: markup, `escapeHtml`, element look-ups, event listeners and status messages.
  - A page is given as a map from selector to matched element texts, plus the body text.
- Date labels from `toLocaleDateString` are not modelled; a week carries its two bounds instead.
- Timers and observers are not modelled: the `MutationObserver` with its 1500 ms debounce, the 300 ms search debounce and the status timer. Scans happen one after another.
- Asynchronous interleavings are not modelled: overlapping scans before the latch is set, and lost updates between concurrent read-modify-write store calls.
- Floating point is not modelled. Amounts and budgets are whole cents, and `parseFloat` is an exact decimal. Percentages and bar sizes are exact (rounding halves up, or `real`); drift such as 0.1 + 0.2 is not captured.
- Store.ValidateSettings: budgets are whole cents. A budget with fractions of a cent is not represented.
- Store.ImportedPurchases: imported amounts are already in cents. `typeof amount === "number"` is a present amount; other field types are not modelled.
- Fields that are not strings are not modelled.
  - A missing string field is "", so `undefined !== ""` in the duplicate test is not distinguished.
- URL parsing is not modelled: a URL is its host name, path and query.
  - Content.ScanOutcome: a scan's location (read by the order-page test) and the page's `href` (copied into the candidate) are independent inputs. In the source both are `window.location.href` at the moment of the scan, so they always agree there.
- Calendar arithmetic, time zones and DST are not modelled: period starts and today's midnight are inputs.
- Dates that do not parse are not modelled: an unparseable date is a missing one.
- Id generation is not modelled: `Date.now()` and `Math.random()` become parameters.
  - The separate clock reads inside one call are one `now`.
- Text.Lower: only ASCII letters are lower-cased. Unicode case mapping and UTF-16 code-unit lengths are not modelled.
- Records.Group: a category named after a property every JavaScript object inherits (`constructor`, `toString`, `valueOf`, `hasOwnProperty`, `isPrototypeOf`, `propertyIsEnumerable`, `toLocaleString`, `__proto__` and the `__define…`/`__lookup…` accessors) is grouped as an ordinary category. In the source such a name finds the inherited property instead of a fresh key, so no bucket of its own is created and the write corrupts the inherited value or is dropped (`__proto__`).
- Store.PurchaseStore.GetSpendingByCategory: proved equal to Group, so an inherited-property category name gets an ordinary bucket here, while the store's `byCategory` object has no entry for it and `Object.total`/`Object.count` become NaN.
- LegacyStore.LegacyStore.GetSpendingByCategory: the same as the validating store: an inherited-property category name gets an ordinary bucket here, while the older store's object skips it.
- History.SumByCategory: proved equal to Group, so an inherited-property category name gets a numeric bucket here. In the page it becomes a string such as the function text followed by the amount (or is dropped for `__proto__`), the top-category scan never picks it, and the chart's `toFixed` call throws, so the chart and the table are not drawn.
- History.RenderSummary and History.ChartRows: built on Group, so they inherit the same difference for inherited-property category names.
- Object key order is not modelled for integer-like keys. JavaScript lists category keys that look like array indices first; the model keeps first appearance.
- History.SortByTotal: the sort is stable like `Array.prototype.sort`, but only the order and the permutation are proved, not the order among equal totals.
- Chart colours, bar widths as CSS, and the ring geometry are not modelled.
- Export file handling is not modelled: `JSON.parse`, `FileReader`, `Blob` and the download.
- `clearAll` and the older `getCategories` are not modelled; they are direct storage calls with nothing to prove.
- LegacyStore.LegacyStore.AddPurchase: a null or missing purchase makes the older store throw when it sets the id (storage.js:52); nothing is stored. The model takes a present record only.
- LegacyBackground.HandleManualPurchase: a manual purchase message without `data` reaches the older store as `undefined`, which throws; no answer is sent and no budget check runs (background.js:106-110). The model always receives a record and so always answers and checks the budget.
- LegacyStore.LegacyStore.AddPurchase: the older store mutates its argument object in place. The model returns the stamped copy, so aliasing with the caller is not captured.
- LegacyStore.LegacyStore.ImportData: a null argument throws in the older store. The model treats it as changing nothing, which is the same stored outcome.
