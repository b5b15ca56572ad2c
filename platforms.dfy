/**
 * The merchant registry of platforms.js: an ordered table of platform
 * definitions, a first-match lookup by host name and the order-page test.
 * The regular expressions of the table are written in a small pattern language
 * that matches exactly the same strings as the source's expressions.
 */
module Platforms {
  import opened Wrappers
  import Text

  /** The parts of a page URL the registry looks at. */
  datatype Url = Url(hostname: string, pathname: string, search: string)

  function PathAndQuery(u: Url): string {
    u.pathname + u.search
  }

  /** An unanchored regular expression of the shapes the registry uses. */
  datatype Pattern =
    | Lit(text: string)                   // /text/
    | LitI(text: string)                  // /text/i, with text in lower case
    | AnyLit(alternatives: seq<string>)   // /a|b/ and /x(a|b)/, alternatives spelled out
    | Spread(head: string, tail: string)  // /head.+tail/

  /** `.` in a JavaScript regular expression matches every character but these. */
  predicate IsLineTerminator(c: char) {
    c == '\n' || c == '\r' || c == '\U{2028}' || c == '\U{2029}'
  }

  predicate NoLineTerminator(s: string) {
    forall i :: 0 <= i < |s| ==> !IsLineTerminator(s[i])
  }

  /** `/head.+tail/.test(s)`: head, then at least one character that is not a line terminator, then tail. */
  predicate SpreadMatches(head: string, tail: string, s: string) {
    exists i, j | 0 <= i <= |s| && 0 <= j <= |s| ::
      && Text.OccursAt(s, head, i) && Text.OccursAt(s, tail, j)
      && i + |head| < j && NoLineTerminator(s[i + |head|..j])
  }

  predicate AnyContained(alts: seq<string>, s: string) {
    exists k | 0 <= k < |alts| :: Text.Contains(s, alts[k])
  }

  /** `pattern.test(s)`. */
  predicate Test(p: Pattern, s: string) {
    match p
    case Lit(t) => Text.Contains(s, t)
    case LitI(t) => Text.Contains(Text.Lower(s), t)
    case AnyLit(alts) => AnyContained(alts, s)
    case Spread(h, t) => SpreadMatches(h, t, s)
  }

  datatype Selectors = Selectors(orderTotal: seq<string>, itemName: seq<string>, confirmationIndicators: seq<string>)

  datatype Platform = Platform(
    key: string,
    name: string,
    hostPattern: Pattern,
    orderPagePatterns: seq<Pattern>,
    selectors: Selectors,
    defaultCategory: string)

  const Amazon := Platform(
    "amazon", "Amazon",
    AnyLit(["amazon.com", "amazon.co.uk", "amazon.ca", "amazon.de", "amazon.fr", "amazon.es", "amazon.it", "amazon.co.jp"]),
    [Lit("/gp/buy/spc"), Lit("/gp/css/summary"), LitI("/order"), LitI("/thankyou"), Lit("buy/thankyou")],
    Selectors(
      ["#subtotals-marketplace-table .grand-total-price", ".grand-total-price", "#orderSummary .a-color-price",
       ".order-total .a-color-price", "#bottomRightGroup .a-color-price"],
      [".yo-giftcard-shipment-group .a-link-normal", "#productTitle", ".a-truncate-cut", ".sc-product-title"],
      ["#thank-you-message", ".a-alert-heading", "#orderDetails"]),
    "Other")

  const Ebay := Platform(
    "ebay", "eBay",
    Lit("ebay.com"),
    [Lit("/ord/show"), Lit("/chk/confirm"), LitI("/purchaseconfirm")],
    Selectors(
      [".cost-label + .cost-value", ".total-row .item-price", "#ppcTotal", ".order-total .text-display"],
      [".item-title a", ".purchase-title", "#itemTitle", ".vi-title"],
      [".purchase-confirmation", "#confirmation-page"]),
    "Other")

  const Walmart := Platform(
    "walmart", "Walmart",
    Lit("walmart.com"),
    [Lit("/checkout"), LitI("/order"), LitI("/thankyou")],
    Selectors(
      [".price-total .price-characteristic", "[data-testid=\"total-value\"]", ".order-summary-total .price"],
      [".product-title", "[data-testid=\"item-description\"]", ".cart-item-name"],
      [".thank-you-page", "[data-testid=\"order-confirmation\"]"]),
    "Other")

  const Target := Platform(
    "target", "Target",
    Lit("target.com"),
    [Lit("/co-review"), Lit("/co-thankyou"), LitI("/order")],
    Selectors(
      ["[data-test=\"orderSummary-total\"]", ".OrderSummary__Total", ".order-total-value"],
      ["[data-test=\"cartItem-title\"]", ".CartItemTitle", ".OrderItemTitle"],
      ["[data-test=\"order-confirmation\"]", ".ThankYouPage"]),
    "Other")

  const BestBuy := Platform(
    "bestbuy", "Best Buy",
    Lit("bestbuy.com"),
    [Lit("/checkout"), LitI("/order"), LitI("/thank-you")],
    Selectors(
      [".order-summary__total .cash-money", ".price-summary__total-value", ".order-total"],
      [".cart-item__title", ".sku-title a", ".line-item-name"],
      [".thank-you", ".order-confirmation"]),
    "Electronics")

  const Etsy := Platform(
    "etsy", "Etsy",
    Lit("etsy.com"),
    [Lit("/checkout"), LitI("/thankyou"), Lit("/your/purchases")],
    Selectors(
      [".order-total .currency-value", ".grand-total .money", "[data-order-total]"],
      [".listing-title", ".transaction-title", ".cart-listing-title"],
      [".thank-you-page", ".confirmation-page"]),
    "Other")

  const Shopify := Platform(
    "shopify", "Shopify Store",
    AnyLit(["shopify.com", "myshopify.com"]),
    [Spread("/checkouts/", "/thank_you"), Lit("/orders/")],
    Selectors(
      [".payment-due__price", ".total-line--total .payment-due__price", "[data-checkout-payment-due-target]"],
      [".product__description__name", ".order-summary__emphasis"],
      [".thank-you", ".os-header__title"]),
    "Other")

  const AliExpress := Platform(
    "aliexpress", "AliExpress",
    Lit("aliexpress.com"),
    [LitI("/order"), LitI("/confirm"), LitI("/thankyou")],
    Selectors(
      [".order-price .highlight", ".total-price", ".order-amount"],
      [".product-title a", ".order-item-title", ".item-title"],
      [".order-success", ".pay-success"]),
    "Other")

  const Newegg := Platform(
    "newegg", "Newegg",
    Lit("newegg.com"),
    [Lit("/secure/checkout"), LitI("/order"), LitI("/thankyou")],
    Selectors(
      [".summary-content-total strong", ".order-total .price", ".summary-total"],
      [".item-cell .item-title a", ".product-title", ".item-desc"],
      [".order-confirmation", ".thank-you-section"]),
    "Electronics")

  /** The platform entries in declaration order. */
  const Registry: seq<Platform> := [Amazon, Ebay, Walmart, Target, BestBuy, Etsy, Shopify, AliExpress, Newegg]

  /** A member of the registry object: a platform entry or one of its two lookup methods. */
  datatype Member = PlatformMember(platform: Platform) | MethodMember(methodName: string)

  /** `Object.entries(Platforms)`, in order. */
  const Members: seq<Member> := [
    PlatformMember(Amazon), PlatformMember(Ebay), PlatformMember(Walmart), PlatformMember(Target),
    PlatformMember(BestBuy), PlatformMember(Etsy), PlatformMember(Shopify), PlatformMember(AliExpress),
    PlatformMember(Newegg), MethodMember("detectPlatform"), MethodMember("isOrderPage")]

  /** Only members with a host pattern, that is platform entries, are candidates. */
  predicate HostMatches(m: Member, hostname: string) {
    m.PlatformMember? && Test(m.platform.hostPattern, hostname)
  }

  /** The first member, in order, whose host pattern matches. */
  function FirstHostMatch(ms: seq<Member>, hostname: string): (r: Option<Platform>)
    ensures r.None? <==> forall k :: 0 <= k < |ms| ==> !HostMatches(ms[k], hostname)
    ensures r.Some? ==> exists k :: 0 <= k < |ms| && HostMatches(ms[k], hostname) && ms[k] == PlatformMember(r.value)
                                    && forall j :: 0 <= j < k ==> !HostMatches(ms[j], hostname)
  {
    if ms == [] then None
    else if HostMatches(ms[0], hostname) then Some(ms[0].platform)
    else
      assert forall k :: 1 <= k < |ms| ==> ms[k] == ms[1..][k - 1];
      FirstHostMatch(ms[1..], hostname)
  }

  /** `Platforms.detectPlatform(url)`. */
  function DetectPlatform(url: Url): (r: Option<Platform>)
    ensures r.None? <==> forall k :: 0 <= k < |Registry| ==> !Test(Registry[k].hostPattern, url.hostname)
    ensures r.Some? ==> exists k :: 0 <= k < |Registry| && r.value == Registry[k]
                                    && Test(Registry[k].hostPattern, url.hostname)
                                    && forall j :: 0 <= j < k ==> !Test(Registry[j].hostPattern, url.hostname)
  {
    assert forall k :: 0 <= k < |Registry| ==> Members[k] == PlatformMember(Registry[k]);
    assert forall k :: |Registry| <= k < |Members| ==> Members[k].MethodMember?;
    FirstHostMatch(Members, url.hostname)
  }

  /** Some pattern of the list matches `pathname + search`. */
  predicate AnyPathMatches(patterns: seq<Pattern>, url: Url) {
    exists k | 0 <= k < |patterns| :: Test(patterns[k], PathAndQuery(url))
  }

  predicate OrderPathMatches(p: Platform, url: Url) {
    AnyPathMatches(p.orderPagePatterns, url)
  }

  /** `Platforms.isOrderPage(url)`. */
  predicate IsOrderPage(url: Url) {
    var p := DetectPlatform(url);
    p.Some? && OrderPathMatches(p.value, url)
  }

  /**
   * A platform as it crosses the message boundary: the host pattern is dropped
   * and the order-page patterns travel as source and flags, which the receiver
   * turns back into the same patterns.
   */
  datatype PlatformInfo = PlatformInfo(
    key: string,
    name: string,
    orderPagePatterns: seq<Pattern>,
    selectors: Selectors,
    defaultCategory: string)

  function Serialize(p: Platform): PlatformInfo {
    PlatformInfo(p.key, p.name, p.orderPagePatterns, p.selectors, p.defaultCategory)
  }

  /** The host name only selects the platform; the order-page patterns see the path and query alone. */
  lemma OrderPageIgnoresHost(u: Url, v: Url)
    requires DetectPlatform(u) == DetectPlatform(v)
    requires PathAndQuery(u) == PathAndQuery(v)
    ensures IsOrderPage(u) == IsOrderPage(v)
  {
  }

  /** Every entry has non-empty rule lists, keys are distinct, and the default category is fixed per entry. */
  lemma RegistryWellFormed()
    ensures forall k :: 0 <= k < |Registry| ==>
      && |Registry[k].orderPagePatterns| > 0
      && |Registry[k].selectors.orderTotal| > 0
      && |Registry[k].selectors.itemName| > 0
      && |Registry[k].selectors.confirmationIndicators| > 0
    ensures forall j, k :: 0 <= j < k < |Registry| ==> Registry[j].key != Registry[k].key
    ensures forall k :: 0 <= k < |Registry| ==>
      Registry[k].defaultCategory == (if Registry[k].key in {"bestbuy", "newegg"} then "Electronics" else "Other")
  {
  }

  /** An Amazon host is recognised, and `/ORDER/...` is an order page there because `/order` is case-insensitive. */
  lemma AmazonOrderPage()
    ensures DetectPlatform(Url("www.amazon.com", "/ORDER/123", "")) == Some(Amazon)
    ensures IsOrderPage(Url("www.amazon.com", "/ORDER/123", ""))
  {
    var host := "www.amazon.com";
    assert host[4..14] == "amazon.com";
    assert Text.OccursAt(host, "amazon.com", 4);
    assert Amazon.hostPattern.alternatives[0] == "amazon.com";
    assert Text.Contains(host, Amazon.hostPattern.alternatives[0]);
    assert Test(Amazon.hostPattern, host);
    var low := Text.Lower("/ORDER/123");
    assert low[..6] == "/order";
    assert Text.OccursAt(low, "/order", 0);
    assert Text.Contains(low, "/order");
    var u := Url("www.amazon.com", "/ORDER/123", "");
    assert PathAndQuery(u) == "/ORDER/123";
    assert Amazon.orderPagePatterns[2] == LitI("/order");
    assert Test(Amazon.orderPagePatterns[2], PathAndQuery(u));
    assert OrderPathMatches(Amazon, u);
  }

  /** A Shopify thank-you page: `/checkouts/.+/thank_you` needs at least one character between the parts. */
  lemma ShopifyThankYou()
    ensures Test(Spread("/checkouts/", "/thank_you"), "/checkouts/c1/thank_you")
    ensures !Test(Spread("/checkouts/", "/thank_you"), "/checkouts//thank_you")
  {
    var s := "/checkouts/c1/thank_you";
    assert s[0..11] == "/checkouts/";
    assert s[13..23] == "/thank_you";
    assert Text.OccursAt(s, "/checkouts/", 0) && Text.OccursAt(s, "/thank_you", 13);
    assert NoLineTerminator(s[11..13]);
    var t := "/checkouts//thank_you";
    forall i, j | 0 <= i <= |t| && 0 <= j <= |t| && Text.OccursAt(t, "/checkouts/", i) && Text.OccursAt(t, "/thank_you", j)
      ensures j <= i + 11
    {
      assert |t| == 21;
    }
  }
}
