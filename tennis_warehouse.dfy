/** The card loop of `scrape_tw` in scrapers/tw.py: one record per product card, non-product links skipped. */
module TennisWarehouse {
  import opened Wrappers
  import opened Text
  import opened Seqs
  import opened Dom
  import opened Price
  import opened Badge

  /** The links the loop skips: empty, a category page, a category video or a gear guide. */
  predicate IsExcludedUrl(url: string) {
    || url == ""
    || Contains(url, "/catpage-")
    || Contains(url, "/categoryvideo.html")
    || Contains(url, "/learning_center/gear_guides/")
  }

  predicate IsKept(c: Card) {
    !IsExcludedUrl(Href(c.link))
  }

  /** The discount is read from the raw badge text, not from the cleaned label. */
  function BadgeDiscount(badge: Option<string>): (d: string)
    ensures forall m :: 0 <= m < |d| ==> IsDigit(d[m])
  {
    if badge.Some? then Discount(badge.value) else ""
  }

  /**
   * The record the loop appends for a card it keeps: the prices are comma-free, the discount is
   * all digits and the label holds no `-`, digit or `%`.
   */
  function CardListing(c: Card): (l: Listing)
    ensures forall m :: 0 <= m < |l.price| ==> l.price[m] != ','
    ensures forall m :: 0 <= m < |l.oldPrice| ==> l.oldPrice[m] != ','
    ensures forall m :: 0 <= m < |l.discount| ==> IsDigit(l.discount[m])
    ensures forall m :: 0 <= m < |l.badge| ==> !IsCut(l.badge[m])
  {
    Listing(
      name := TextOf(c.name),
      badge := CleanBadge(TextOf(c.badge)),
      discount := BadgeDiscount(c.badge),
      oldPrice := if c.oldPrice.Some? then CleanPrice(c.oldPrice) else "",
      price := if c.price.Some? then CleanPrice(c.price) else "",
      productUrl := Href(c.link))
  }

  /** The records `scrape_tw` returns for a page whose cards are `cards`: at most one per card, each with a product URL. */
  function Listings(cards: seq<Card>): (ps: seq<Listing>)
    ensures |ps| <= |cards|
    ensures forall k :: 0 <= k < |ps| ==> !IsExcludedUrl(ps[k].productUrl)
  {
    var ps := FilterMap(cards, IsKept, CardListing);
    assert forall k :: 0 <= k < |ps| ==> !IsExcludedUrl(ps[k].productUrl) by {
      forall k | 0 <= k < |ps| ensures !IsExcludedUrl(ps[k].productUrl) {
        FilterMapMember(cards, IsKept, CardListing, ps[k]);
      }
    }
    ps
  }

  /** The `for card in cards` loop. */
  method ScrapeTw(cards: seq<Card>) returns (products: seq<Listing>)
    ensures products == Listings(cards)
  {
    products := [];
    for i := 0 to |cards|
      invariant products == Listings(cards[..i])
    {
      var card := cards[i];
      assert cards[..i + 1] == cards[..i] + [card];
      FilterMapSnoc(cards[..i], card, IsKept, CardListing);

      var name := TextOf(card.name);
      var badge := TextOf(card.badge);
      if badge != "" {
        badge := Strip(SplitHead(badge));
      }
      var discount := if card.badge.Some? then Discount(card.badge.value) else "";
      var price := if card.price.Some? then CleanPrice(card.price) else "";
      var oldPrice := if card.oldPrice.Some? then CleanPrice(card.oldPrice) else "";
      var productUrl := Href(card.link);

      if || productUrl == ""
         || Contains(productUrl, "/catpage-")
         || Contains(productUrl, "/categoryvideo.html")
         || Contains(productUrl, "/learning_center/gear_guides/")
      {
        continue;
      }

      products := products + [Listing(name, badge, discount, oldPrice, price, productUrl)];
    }
    assert cards[..|cards|] == cards;
  }

  /** Every record has a non-empty product URL that is none of the excluded kinds. */
  lemma ListingsHaveProductUrls(cards: seq<Card>, p: Listing)
    requires p in Listings(cards)
    ensures p.productUrl != ""
    ensures !Contains(p.productUrl, "/catpage-")
    ensures !Contains(p.productUrl, "/categoryvideo.html")
    ensures !Contains(p.productUrl, "/learning_center/gear_guides/")
  {
    FilterMapMember(cards, IsKept, CardListing, p);
  }

  /** Every card whose URL passes the filter has its record in the output. */
  lemma KeptCardsAreListed(cards: seq<Card>, i: nat)
    requires i < |cards| && !IsExcludedUrl(Href(cards[i].link))
    ensures CardListing(cards[i]) in Listings(cards)
  {
    FilterMapMember(cards, IsKept, CardListing, CardListing(cards[i]));
  }

  /** Records follow card order, one per kept card: the output of a concatenation is the concatenated output. */
  lemma ListingsInCardOrder(a: seq<Card>, b: seq<Card>)
    ensures Listings(a + b) == Listings(a) + Listings(b)
    ensures |Listings(a)| == CountKept(a, IsKept) <= |a|
  {
    FilterMapAppend(a, b, IsKept, CardListing);
    FilterMapLength(a, IsKept, CardListing);
  }

  /** A missing tag gives "" for its field instead of an error. */
  lemma MissingTagsGiveEmptyFields(c: Card)
    ensures c.name.None? ==> CardListing(c).name == ""
    ensures c.badge.None? ==> CardListing(c).badge == "" && CardListing(c).discount == ""
    ensures c.price.None? ==> CardListing(c).price == ""
    ensures c.oldPrice.None? ==> CardListing(c).oldPrice == ""
    ensures (c.link.None? || c.link.value.href.None?) ==> CardListing(c).productUrl == ""
  {
  }

  /** A worked badge: the label keeps "Sale". */
  lemma SaleBadgeLabel()
    ensures CleanBadge("Sale -20%") == "Sale"
  {
    var t := "Sale -20%";
    assert SkipToCut(t, 5) == 5;
    assert SkipToCut(t, 4) == 5;
    assert SkipToCut(t, 3) == 5;
    assert SkipToCut(t, 2) == 5;
    assert SkipToCut(t, 1) == 5;
    assert SkipToCut(t, 0) == 5;
    assert SplitHead(t) == "Sale ";
    assert SkipSpaces("Sale ", 0) == 0;
    assert SkipSpacesBack("Sale ", 4) == 4;
    assert SkipSpacesBack("Sale ", 5) == 4;
  }

  /** The same badge: the discount is its digits. */
  lemma SaleBadgeDiscount()
    ensures Discount("Sale -20%") == "20"
  {
    var t := "Sale -20%";
    assert Price.SkipDigits(t, 8) == 8;
    assert Price.SkipDigits(t, 6) == 8;
    assert t[5] == '-' && t[8] == '%' && t[6..8] == "20";
    assert SearchDiscount(t, 5) == Some("20");
    assert SearchDiscount(t, 4) == Some("20");
    assert SearchDiscount(t, 3) == Some("20");
    assert SearchDiscount(t, 2) == Some("20");
    assert SearchDiscount(t, 1) == Some("20");
    assert SearchDiscount(t, 0) == Some("20");
  }
}
