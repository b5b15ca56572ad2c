/**
 * The page scanner of content.js: currency parsing, the selector fallback
 * chains, the confirmation test, the purchase extractor and the one-shot scan
 * latch. The document is a map from selector to the text content of the
 * elements it matches, in document order, plus the page's visible body text.
 */
module Content {
  import opened Wrappers
  import opened Money
  import Text
  import opened Platforms

  datatype Page = Page(matches: map<string, seq<string>>, bodyText: string, href: string, title: string)

  /** The text content of every element `document.querySelectorAll(selector)` returns. */
  function Query(page: Page, selector: string): seq<string> {
    if selector in page.matches then page.matches[selector] else []
  }

  /** A purchase candidate as sent with PURCHASE_DETECTED; the amount is in cents. */
  datatype Candidate = Candidate(
    amount: int,
    currency: string,
    platform: string,
    description: string,
    category: string,
    url: string,
    pageTitle: string)

  // ---------------------------------------------------------------- parseCurrency

  /** `text.replace(/[^\d.,]/g, "")` */
  function KeepAmountChars(s: string): (r: string)
    ensures forall i :: 0 <= i < |r| ==> Text.IsDigit(r[i]) || r[i] == '.' || r[i] == ','
  {
    if s == [] then []
    else
      var c := s[|s| - 1];
      KeepAmountChars(s[..|s| - 1]) + (if Text.IsDigit(c) || c == '.' || c == ',' then [c] else [])
  }

  /** `.replace(/,/g, "")` */
  function DropCommas(s: string): (r: string)
    ensures forall i :: 0 <= i < |r| ==> r[i] != ','
  {
    if s == [] then []
    else DropCommas(s[..|s| - 1]) + (if s[|s| - 1] == ',' then [] else [s[|s| - 1]])
  }

  /** `parseCurrency(text)`: None stands for null. */
  function ParseCurrency(text: string): (r: Option<Dec>)
    ensures text == [] ==> r.None?
    ensures r.Some? ==> r.value.units >= 0
  {
    if text == [] then None else ParseFloat(DropCommas(KeepAmountChars(text)))
  }

  lemma {:induction false} KeepAmountCharsAppend(a: string, b: string)
    ensures KeepAmountChars(a + b) == KeepAmountChars(a) + KeepAmountChars(b)
  {
    if b != [] {
      assert (a + b)[..|a + b| - 1] == a + b[..|b| - 1];
      KeepAmountCharsAppend(a, b[..|b| - 1]);
    } else {
      assert a + b == a;
    }
  }

  lemma {:induction false} DropCommasAppend(a: string, b: string)
    ensures DropCommas(a + b) == DropCommas(a) + DropCommas(b)
  {
    if b != [] {
      assert (a + b)[..|a + b| - 1] == a + b[..|b| - 1];
      DropCommasAppend(a, b[..|b| - 1]);
    } else {
      assert a + b == a;
    }
  }

  lemma {:induction false} KeepAmountCharsAll(s: string)
    requires forall i :: 0 <= i < |s| ==> Text.IsDigit(s[i]) || s[i] == '.' || s[i] == ','
    ensures KeepAmountChars(s) == s
  {
    if s != [] {
      KeepAmountCharsAll(s[..|s| - 1]);
    }
  }

  lemma {:induction false} KeepAmountCharsNone(s: string)
    requires forall i :: 0 <= i < |s| ==> !Text.IsDigit(s[i]) && s[i] != '.' && s[i] != ','
    ensures KeepAmountChars(s) == []
  {
    if s != [] {
      KeepAmountCharsNone(s[..|s| - 1]);
    }
  }

  lemma {:induction false} DropCommasNone(s: string)
    requires forall i :: 0 <= i < |s| ==> s[i] != ','
    ensures DropCommas(s) == s
  {
    if s != [] {
      DropCommasNone(s[..|s| - 1]);
    }
  }

  /** "1234.56" is 123456 hundredths. */
  lemma ParseFloatExample()
    ensures ParseFloat("1234.56") == Some(Dec(123456, 2))
  {
    assert "1"[..0] == [];
    assert DigitsValue("1") == 1;
    assert "12"[..1] == "1";
    assert DigitsValue("12") == 12;
    assert "123"[..2] == "12";
    assert DigitsValue("123") == 123;
    assert "1234"[..3] == "123";
    assert DigitsValue("1234") == 1234;
    assert "5"[..0] == [];
    assert "56"[..1] == "5";
    assert DigitsValue("56") == 56;
    assert Pow10(2) == 100;
    assert "1234.56" == "1234" + "." + "56" + "";
    ParseFloatDecimal("1234", "56", "");
  }

  /** "0.004" is 4 thousandths. */
  lemma ParseFloatSubCent()
    ensures ParseFloat("0.004") == Some(Dec(4, 3))
  {
    assert "0.004" == "0" + "." + "004" + "";
    ParseFloatDecimal("0", "004", "");
    assert "0"[..0] == [];
    assert "004"[..2] == "00";
    assert "00"[..1] == "0";
    assert DigitsValue("0") == 0;
    assert DigitsValue("00") == 0;
    assert DigitsValue("004") == 4;
    assert Pow10(3) == 1000;
  }

  lemma KeepAmountCharsExample()
    ensures KeepAmountChars("Total: $1,234.56") == "1,234.56"
  {
    assert "Total: $1,234.56" == "Total: $" + "1,234.56";
    KeepAmountCharsAppend("Total: $", "1,234.56");
    KeepAmountCharsNone("Total: $");
    KeepAmountCharsAll("1,234.56");
  }

  lemma DropCommasExample()
    ensures DropCommas("1,234.56") == "1234.56"
  {
    assert "1,234.56" == "1" + "," + "234.56";
    DropCommasAppend("1" + ",", "234.56");
    DropCommasAppend("1", ",");
    DropCommasNone("1");
    DropCommasNone("234.56");
    assert DropCommas(",") == [];
  }

  /** A total with a currency label and a thousands separator. */
  lemma ParseCurrencyExample()
    ensures ParseCurrency("Total: $1,234.56") == Some(Dec(123456, 2))
  {
    KeepAmountCharsExample();
    DropCommasExample();
    ParseFloatExample();
  }

  predicate NoDigit(s: string) {
    forall i :: 0 <= i < |s| ==> !Text.IsDigit(s[i])
  }

  lemma {:induction false} KeepAmountCharsNoDigit(s: string)
    requires NoDigit(s)
    ensures NoDigit(KeepAmountChars(s))
  {
    if s != [] {
      KeepAmountCharsNoDigit(s[..|s| - 1]);
    }
  }

  lemma {:induction false} DropCommasNoDigit(s: string)
    requires NoDigit(s)
    ensures NoDigit(DropCommas(s))
  {
    if s != [] {
      DropCommasNoDigit(s[..|s| - 1]);
    }
  }

  /** A text without a digit has no amount: `parseFloat` gives NaN and parseCurrency null. */
  lemma NoDigitNoAmount(text: string)
    requires NoDigit(text)
    ensures ParseCurrency(text).None?
  {
    KeepAmountCharsNoDigit(text);
    DropCommasNoDigit(KeepAmountChars(text));
  }

  lemma WholeKeptExample()
    ensures KeepAmountChars("Total: 1,234 EUR") == "1,234"
  {
    assert "Total: 1,234 EUR" == "Total: " + "1,234" + " EUR";
    KeepAmountCharsAppend("Total: " + "1,234", " EUR");
    KeepAmountCharsAppend("Total: ", "1,234");
    KeepAmountCharsNone("Total: ");
    KeepAmountCharsNone(" EUR");
    KeepAmountCharsAll("1,234");
  }

  lemma WholeCleanedExample()
    ensures DropCommas(KeepAmountChars("Total: 1,234 EUR")) == "1234"
  {
    WholeKeptExample();
    assert "1,234" == "1" + "," + "234";
    DropCommasAppend("1" + ",", "234");
    DropCommasAppend("1", ",");
    DropCommasNone("1");
    DropCommasNone("234");
    assert DropCommas(",") == [];
  }

  /** A whole amount with a thousands separator and a label: "Total: 1,234 EUR" is 1234. */
  lemma ParseCurrencyWholeExample()
    ensures ParseCurrency("Total: 1,234 EUR") == Some(Dec(1234, 0))
  {
    WholeCleanedExample();
    assert "1234" == "1234" + "";
    ParseFloatWhole("1234", "");
    assert "1"[..0] == [];
    assert "12"[..1] == "1";
    assert "123"[..2] == "12";
    assert "1234"[..3] == "123";
    assert DigitsValue("1234") == 1234;
  }

  /** Deleting a character other than a digit or a period leaves the cleaned text as it was. */
  lemma CleanedIgnores(a: string, c: char, b: string)
    requires !Text.IsDigit(c) && c != '.'
    ensures DropCommas(KeepAmountChars(a + [c] + b)) == DropCommas(KeepAmountChars(a + b))
  {
    var ka, kc, kb := KeepAmountChars(a), KeepAmountChars([c]), KeepAmountChars(b);
    assert KeepAmountChars(a + [c] + b) == ka + kc + kb by {
      KeepAmountCharsAppend(a + [c], b);
      KeepAmountCharsAppend(a, [c]);
    }
    assert KeepAmountChars(a + b) == ka + kb by {
      KeepAmountCharsAppend(a, b);
    }
    assert DropCommas(kc) == [] by {
      assert [c][..0] == [];
      assert kc == KeepAmountChars([]) + (if c == ',' then [c] else []);
    }
    DropCommasAppend(ka, kc);
    DropCommasAppend(ka + kc, kb);
    DropCommasAppend(ka, kb);
  }

  /**
   * Every character other than a digit or a period is ignored, thousands
   * separators included: deleting one does not change the parsed amount.
   */
  lemma ParseCurrencyIgnores(a: string, c: char, b: string)
    requires !Text.IsDigit(c) && c != '.'
    ensures ParseCurrency(a + [c] + b) == ParseCurrency(a + b)
  {
    CleanedIgnores(a, c, b);
    if a + b == [] {
      assert DropCommas(KeepAmountChars(a + b)) == [];
      assert LeadingDigits([]) == [];
      assert ParseFloat([]) == None;
    }
  }

  // ---------------------------------------------------------------- extractCurrencySymbol

  predicate MentionsEuro(text: string) {
    Text.Contains(text, "€") || Text.Contains(text, "EUR")
  }

  predicate MentionsPound(text: string) {
    Text.Contains(text, "£") || Text.Contains(text, "GBP")
  }

  predicate MentionsYen(text: string) {
    Text.Contains(text, "¥")
  }

  /** `extractCurrencySymbol(text)`: the first symbol, in the order €, £, ¥, that the text mentions; "$" otherwise. */
  function ExtractCurrencySymbol(text: string): (r: string)
    ensures r == "€" <==> MentionsEuro(text)
    ensures r == "£" <==> !MentionsEuro(text) && MentionsPound(text)
    ensures r == "¥" <==> !MentionsEuro(text) && !MentionsPound(text) && MentionsYen(text)
    ensures r == "$" <==> !MentionsEuro(text) && !MentionsPound(text) && !MentionsYen(text)
  {
    if text == [] then "$"
    else if MentionsEuro(text) then "€"
    else if MentionsPound(text) then "£"
    else if MentionsYen(text) then "¥"
    else "$"
  }

  // ---------------------------------------------------------------- queryFirst / queryAllText

  /** The first match of the earliest selector, in list order, that matches anything. */
  function FirstText(page: Page, selectors: seq<string>): (r: Option<string>)
    ensures r.None? <==> forall k :: 0 <= k < |selectors| ==> Query(page, selectors[k]) == []
    ensures r.Some? ==> exists k :: 0 <= k < |selectors| && Query(page, selectors[k]) != []
                                    && r.value == Query(page, selectors[k])[0]
                                    && forall j :: 0 <= j < k ==> Query(page, selectors[j]) == []
  {
    if selectors == [] then None
    else if Query(page, selectors[0]) != [] then Some(Query(page, selectors[0])[0])
    else
      assert forall k :: 1 <= k < |selectors| ==> selectors[k] == selectors[1..][k - 1];
      FirstText(page, selectors[1..])
  }

  /** `queryFirst(selectors)`, returning the element's text content. */
  method QueryFirst(page: Page, selectors: seq<string>) returns (r: Option<string>)
    ensures r.None? <==> forall k :: 0 <= k < |selectors| ==> Query(page, selectors[k]) == []
    ensures r.Some? ==> exists k :: 0 <= k < |selectors| && Query(page, selectors[k]) != []
                                    && r.value == Query(page, selectors[k])[0]
                                    && forall j :: 0 <= j < k ==> Query(page, selectors[j]) == []
    ensures r == FirstText(page, selectors)
  {
    var i := 0;
    while i < |selectors|
      invariant 0 <= i <= |selectors|
      invariant forall j :: 0 <= j < i ==> Query(page, selectors[j]) == []
      invariant FirstText(page, selectors) == FirstText(page, selectors[i..])
    {
      var els := Query(page, selectors[i]);
      if els != [] {
        return Some(els[0]);
      }
      assert selectors[i..][1..] == selectors[i + 1..];
      i := i + 1;
    }
    return None;
  }

  /** The trimmed, non-empty texts of a list of elements, in order. */
  function NonEmptyTexts(els: seq<string>): (r: seq<string>)
    ensures |r| <= |els|
    ensures forall i :: 0 <= i < |r| ==> r[i] != [] && !Text.IsSpace(r[i][0]) && !Text.IsSpace(r[i][|r[i]| - 1])
  {
    if els == [] then []
    else
      var t := Text.Trim(els[|els| - 1]);
      NonEmptyTexts(els[..|els| - 1]) + (if t != [] then [t] else [])
  }

  /** The non-empty texts of the first selector, in list order, that yields any. */
  function AllText(page: Page, selectors: seq<string>): (r: seq<string>)
    ensures r == [] <==> forall k :: 0 <= k < |selectors| ==> NonEmptyTexts(Query(page, selectors[k])) == []
    ensures r != [] ==> exists k :: 0 <= k < |selectors| && r == NonEmptyTexts(Query(page, selectors[k]))
                                    && forall j :: 0 <= j < k ==> NonEmptyTexts(Query(page, selectors[j])) == []
  {
    if selectors == [] then []
    else if NonEmptyTexts(Query(page, selectors[0])) != [] then NonEmptyTexts(Query(page, selectors[0]))
    else
      var r := AllText(page, selectors[1..]);
      SkipEmptySelector(page, selectors, r);
      r
  }

  /** A first selector that yields nothing can be skipped: the search over the rest answers for the whole list. */
  lemma SkipEmptySelector(page: Page, selectors: seq<string>, r: seq<string>)
    requires selectors != [] && NonEmptyTexts(Query(page, selectors[0])) == []
    requires var rest := selectors[1..];
      r == [] <==> forall k :: 0 <= k < |rest| ==> NonEmptyTexts(Query(page, rest[k])) == []
    requires var rest := selectors[1..];
      r != [] ==> exists k :: 0 <= k < |rest| && r == NonEmptyTexts(Query(page, rest[k]))
                              && forall j :: 0 <= j < k ==> NonEmptyTexts(Query(page, rest[j])) == []
    ensures r == [] <==> forall k :: 0 <= k < |selectors| ==> NonEmptyTexts(Query(page, selectors[k])) == []
    ensures r != [] ==> exists k :: 0 <= k < |selectors| && r == NonEmptyTexts(Query(page, selectors[k]))
                                    && forall j :: 0 <= j < k ==> NonEmptyTexts(Query(page, selectors[j])) == []
  {
    var rest := selectors[1..];
    assert forall k :: 1 <= k < |selectors| ==> selectors[k] == rest[k - 1];
    if r != [] {
      var k :| 0 <= k < |rest| && r == NonEmptyTexts(Query(page, rest[k]))
               && forall j :: 0 <= j < k ==> NonEmptyTexts(Query(page, rest[j])) == [];
      assert r == NonEmptyTexts(Query(page, selectors[k + 1]));
      forall j | 0 <= j < k + 1
        ensures NonEmptyTexts(Query(page, selectors[j])) == []
      {
        if j > 0 {
          assert selectors[j] == rest[j - 1];
        }
      }
    }
  }

  /** The inner loop of `queryAllText`: the trimmed non-empty texts of one selector's elements. */
  method TrimmedTexts(els: seq<string>) returns (results: seq<string>)
    ensures results == NonEmptyTexts(els)
  {
    results := [];
    var k := 0;
    while k < |els|
      invariant 0 <= k <= |els|
      invariant results == NonEmptyTexts(els[..k])
    {
      assert els[..k + 1][..k] == els[..k];
      var text := Text.Trim(els[k]);
      if text != [] {
        results := results + [text];
      }
      k := k + 1;
    }
    assert els[..k] == els;
  }

  /** `queryAllText(selectors)`: collects under one selector and stops at the first that yields text. */
  method QueryAllText(page: Page, selectors: seq<string>) returns (results: seq<string>)
    ensures results == [] <==> forall k :: 0 <= k < |selectors| ==> NonEmptyTexts(Query(page, selectors[k])) == []
    ensures results != [] ==> exists k :: 0 <= k < |selectors| && results == NonEmptyTexts(Query(page, selectors[k]))
                                          && forall j :: 0 <= j < k ==> NonEmptyTexts(Query(page, selectors[j])) == []
    ensures results == AllText(page, selectors)
  {
    results := [];
    var i := 0;
    while i < |selectors|
      invariant 0 <= i <= |selectors|
      invariant results == []
      invariant forall j :: 0 <= j < i ==> NonEmptyTexts(Query(page, selectors[j])) == []
      invariant AllText(page, selectors) == AllText(page, selectors[i..])
    {
      results := TrimmedTexts(Query(page, selectors[i]));
      if |results| > 0 {
        return;
      }
      assert selectors[i..][1..] == selectors[i + 1..];
      i := i + 1;
    }
  }

  // ---------------------------------------------------------------- detectOrderConfirmation

  const ConfirmPhrases: seq<string> := [
    "order confirmed", "thank you for your order", "order has been placed", "purchase complete",
    "payment successful", "order number", "confirmation number", "order #"]

  function AnyIndicator(page: Page, selectors: seq<string>): (b: bool)
    ensures b <==> exists k :: 0 <= k < |selectors| && Query(page, selectors[k]) != []
  {
    if selectors == [] then false
    else
      assert forall k :: 1 <= k < |selectors| ==> selectors[k] == selectors[1..][k - 1];
      Query(page, selectors[0]) != [] || AnyIndicator(page, selectors[1..])
  }

  function AnyPhrase(text: string, phrases: seq<string>): (b: bool)
    ensures b <==> exists k :: 0 <= k < |phrases| && Text.Contains(text, phrases[k])
  {
    if phrases == [] then false
    else
      assert forall k :: 1 <= k < |phrases| ==> phrases[k] == phrases[1..][k - 1];
      Text.Contains(text, phrases[0]) || AnyPhrase(text, phrases[1..])
  }

  /** Structural OR textual: an indicator selector matches, or the lower-cased body mentions a confirmation phrase. */
  function DetectOrderConfirmation(page: Page, platform: PlatformInfo): (b: bool)
    ensures b <==> ((exists k :: 0 <= k < |platform.selectors.confirmationIndicators|
                                 && Query(page, platform.selectors.confirmationIndicators[k]) != [])
                    || (exists k :: 0 <= k < |ConfirmPhrases| && Text.Contains(Text.Lower(page.bodyText), ConfirmPhrases[k])))
  {
    AnyIndicator(page, platform.selectors.confirmationIndicators) || AnyPhrase(Text.Lower(page.bodyText), ConfirmPhrases)
  }

  /** More body text never withdraws a confirmation: the textual test only looks for phrases. */
  lemma ConfirmationSurvivesMoreText(page: Page, platform: PlatformInfo, more: string)
    requires DetectOrderConfirmation(page, platform)
    ensures DetectOrderConfirmation(page.(bodyText := page.bodyText + more), platform)
  {
    var page' := page.(bodyText := page.bodyText + more);
    assert forall s :: Query(page', s) == Query(page, s);
    assert Text.Lower(page'.bodyText) == Text.Lower(page.bodyText) + Text.Lower(more);
    if !AnyIndicator(page, platform.selectors.confirmationIndicators) {
      var k :| 0 <= k < |ConfirmPhrases| && Text.Contains(Text.Lower(page.bodyText), ConfirmPhrases[k]);
      Text.ContainsAppend(Text.Lower(page.bodyText), ConfirmPhrases[k], Text.Lower(more));
    }
  }

  // ---------------------------------------------------------------- extractPurchaseData

  /** The first five item names joined with ", ", or "Purchase on <name>" when there are none. */
  function ItemDescription(items: seq<string>, platformName: string): string {
    if items != [] then Text.Join(items[..if |items| < 5 then |items| else 5], ", ")
    else "Purchase on " + platformName
  }

  /** The parsed order total, when a total element exists and its trimmed text parses. */
  function TotalAmount(page: Page, platform: PlatformInfo): Option<Dec> {
    var el := FirstText(page, platform.selectors.orderTotal);
    if el.None? then None else ParseCurrency(Text.Trim(el.value))
  }

  /** `extractPurchaseData(platform)`. */
  function ExtractPurchaseData(page: Page, platform: PlatformInfo): (r: Option<Candidate>)
    ensures r.None? <==> TotalAmount(page, platform).None? || !IsPositive(TotalAmount(page, platform).value)
    ensures r.Some? ==>
      var d := TotalAmount(page, platform).value;
      && -Pow10(d.scale) < 2 * (r.value.amount * Pow10(d.scale) - 100 * d.units) <= Pow10(d.scale)
      && r.value.amount >= 0
      && r.value.currency == ExtractCurrencySymbol(Text.Trim(FirstText(page, platform.selectors.orderTotal).value))
      && r.value.platform == platform.name
      && r.value.category == platform.defaultCategory
      && |r.value.description| <= 200
      && r.value.description == Text.Take(ItemDescription(AllText(page, platform.selectors.itemName), platform.name), 200)
      && r.value.url == page.href && r.value.pageTitle == page.title
  {
    var amount := TotalAmount(page, platform);
    if amount.None? || !IsPositive(amount.value) then None
    else
      var totalText := Text.Trim(FirstText(page, platform.selectors.orderTotal).value);
      var description := ItemDescription(AllText(page, platform.selectors.itemName), platform.name);
      var cents := RoundCents(amount.value);
      assert cents >= 0 by {
        var p := Pow10(amount.value.scale);
        if cents < 0 { MulMono(cents, -1, p); }
      }
      Some(Candidate(cents, ExtractCurrencySymbol(totalText), platform.name, Text.Take(description, 200),
                     platform.defaultCategory, page.href, page.title))
  }

  /** An Amazon confirmation page whose only total element is a ".grand-total-price". */
  const AmazonPage := Page(map[".grand-total-price" := ["Total: $1,234.56"]], "", "https://www.amazon.com/gp/buy/thankyou", "Order")

  lemma AmazonPageTotal()
    ensures FirstText(AmazonPage, Amazon.selectors.orderTotal) == Some("Total: $1,234.56")
  {
    assert Query(AmazonPage, Amazon.selectors.orderTotal[0]) == [];
    assert Query(AmazonPage, Amazon.selectors.orderTotal[1]) == ["Total: $1,234.56"];
  }

  lemma AmazonPageNoItems()
    ensures AllText(AmazonPage, Amazon.selectors.itemName) == []
  {
    forall k | 0 <= k < |Amazon.selectors.itemName|
      ensures Query(AmazonPage, Amazon.selectors.itemName[k]) == []
    {
      assert Amazon.selectors.itemName[k] != ".grand-total-price";
    }
  }

  lemma DollarsOnly()
    ensures ExtractCurrencySymbol("Total: $1,234.56") == "$"
  {
    var text := "Total: $1,234.56";
    Text.NotContainsFirst(text, "€");
    Text.NotContainsFirst(text, "£");
    Text.NotContainsFirst(text, "¥");
    Text.NotContainsFirst(text, "EUR");
    Text.NotContainsFirst(text, "GBP");
  }

  lemma AmazonPageAmount(page: Page, info: PlatformInfo)
    requires page == AmazonPage && info == Serialize(Amazon)
    ensures TotalAmount(page, info) == Some(FromCents(123456))
  {
    AmazonPageTotal();
    Text.TrimUnpadded("Total: $1,234.56");
    ParseCurrencyExample();
  }

  lemma AmazonPageDescription(page: Page, info: PlatformInfo)
    requires page == AmazonPage && info == Serialize(Amazon)
    ensures Text.Take(ItemDescription(AllText(page, info.selectors.itemName), info.name), 200) == "Purchase on Amazon"
  {
    AmazonPageNoItems();
    assert Text.Take(ItemDescription([], "Amazon"), 200) == "Purchase on Amazon";
  }

  lemma AmazonPageCurrency(page: Page, info: PlatformInfo)
    requires page == AmazonPage && info == Serialize(Amazon)
    ensures ExtractCurrencySymbol(Text.Trim(FirstText(page, info.selectors.orderTotal).value)) == "$"
  {
    AmazonPageTotal();
    Text.TrimUnpadded("Total: $1,234.56");
    DollarsOnly();
  }

  /** Amazon's second total selector finds "Total: $1,234.56": the candidate is 123456 cents in dollars with the fallback description. */
  lemma AmazonExtraction(page: Page, info: PlatformInfo)
    requires page == AmazonPage && info == Serialize(Amazon)
    ensures ExtractPurchaseData(page, info).Some?
    ensures ExtractPurchaseData(page, info).value.amount == 123456
    ensures ExtractPurchaseData(page, info).value.currency == "$"
    ensures ExtractPurchaseData(page, info).value.description == "Purchase on Amazon"
    ensures ExtractPurchaseData(page, info).value.category == "Other"
  {
    AmazonPageAmount(page, info);
    var r := ExtractPurchaseData(page, info);
    RoundCentsUnique(FromCents(123456), r.value.amount);
    RoundCentsOfCents(123456);
    AmazonPageCurrency(page, info);
    AmazonPageDescription(page, info);
  }

  /** eBay's third total selector finds "0.004", which parses to 4 thousandths. */
  lemma SubCentAmount(page: Page, info: PlatformInfo)
    requires page == Page(map["#ppcTotal" := ["0.004"]], "", "", "") && info == Serialize(Ebay)
    ensures TotalAmount(page, info) == Some(Dec(4, 3))
  {
    assert Query(page, info.selectors.orderTotal[0]) == [];
    assert Query(page, info.selectors.orderTotal[1]) == [];
    assert Query(page, info.selectors.orderTotal[2]) == ["0.004"];
    assert FirstText(page, info.selectors.orderTotal) == Some("0.004");
    Text.TrimUnpadded("0.004");
    ParseCurrencySubCent();
  }

  lemma ParseCurrencySubCent()
    ensures ParseCurrency("0.004") == Some(Dec(4, 3))
  {
    KeepAmountCharsAll("0.004");
    DropCommasNone("0.004");
    ParseFloatSubCent();
  }

  /** A total of 0.004 passes the positivity test but is sent as 0 cents. */
  lemma SubCentTotal()
    ensures
      var page := Page(map["#ppcTotal" := ["0.004"]], "", "", "");
      var r := ExtractPurchaseData(page, Serialize(Ebay));
      r.Some? && r.value.amount == 0
  {
    var page := Page(map["#ppcTotal" := ["0.004"]], "", "", "");
    var info := Serialize(Ebay);
    SubCentAmount(page, info);
    RoundsToZero();
    RoundCentsUnique(Dec(4, 3), ExtractPurchaseData(page, info).value.amount);
  }

  // ---------------------------------------------------------------- scanPage and the latch

  /** What one scan would send: the platform answer, the order-page test, the confirmation test and the extraction must all succeed. */
  function ScanOutcome(response: Option<PlatformInfo>, location: Url, page: Page): Option<Candidate> {
    if response.None? then None
    else if !AnyPathMatches(response.value.orderPagePatterns, location) then None
    else if !DetectOrderConfirmation(page, response.value) then None
    else ExtractPurchaseData(page, response.value)
  }

  /** The state of the page and the GET_PLATFORM answer at the moment one scan runs. */
  datatype ScanInput = ScanInput(response: Option<PlatformInfo>, location: Url, page: Page)

  /** The outcome of the first scan, in order, that succeeds; empty if none does. */
  function FirstSuccess(scans: seq<ScanInput>): (r: seq<Candidate>)
    ensures |r| <= 1
  {
    if scans == [] then []
    else
      var o := ScanOutcome(scans[0].response, scans[0].location, scans[0].page);
      if o.Some? then [o.value] else FirstSuccess(scans[1..])
  }

  /** The content script of one page: the `hasScanned` latch and the PURCHASE_DETECTED messages sent so far. */
  class Scanner {
    var hasScanned: bool
    var sent: seq<Candidate>

    ghost predicate Valid()
      reads this
    {
      |sent| <= 1 && (hasScanned <==> sent != [])
    }

    constructor ()
      ensures Valid() && !hasScanned && sent == []
    {
      hasScanned := false;
      sent := [];
    }

    /** `scanPage()`: does nothing once latched; otherwise latches and sends exactly when the scan succeeds. */
    method ScanPage(scan: ScanInput)
      requires Valid()
      modifies this
      ensures Valid()
      ensures old(hasScanned) ==> hasScanned && sent == old(sent)
      ensures !old(hasScanned) ==>
        var o := ScanOutcome(scan.response, scan.location, scan.page);
        && (hasScanned <==> o.Some?)
        && sent == old(sent) + (if o.Some? then [o.value] else [])
    {
      if hasScanned {
        return;
      }
      if scan.response.None? {
        return;
      }
      var platform := scan.response.value;
      if !AnyPathMatches(platform.orderPagePatterns, scan.location) {
        return;
      }
      if !DetectOrderConfirmation(platform := platform, page := scan.page) {
        return;
      }
      var purchaseData := ExtractPurchaseData(scan.page, platform);
      if purchaseData.None? {
        return;
      }
      hasScanned := true;
      sent := sent + [purchaseData.value];
    }

    /** `init()` followed by mutation callbacks: each runs a scan unless the latch is set. */
    method Run(scans: seq<ScanInput>)
      requires Valid()
      modifies this
      ensures Valid()
      ensures old(hasScanned) ==> sent == old(sent)
      ensures !old(hasScanned) ==> sent == FirstSuccess(scans)
    {
      var i := 0;
      while i < |scans|
        invariant 0 <= i <= |scans|
        invariant Valid()
        invariant old(hasScanned) ==> sent == old(sent)
        invariant !old(hasScanned) ==> if hasScanned then sent == FirstSuccess(scans) else sent == [] && FirstSuccess(scans) == FirstSuccess(scans[i..])
      {
        if !hasScanned {
          ScanPage(scans[i]);
        }
        assert scans[i..][1..] == scans[i + 1..];
        i := i + 1;
      }
    }
  }
}
