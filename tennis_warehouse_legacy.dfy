/**
 * The older card loop of `scrape_tw` in test.py: the price is the first direct child span of the
 * price block without a `class` attribute, the old price the block's `.is-crossout` element, and
 * the badge is kept as it is. The URL filter is the one of scrapers/tw.py.
 */
module TennisWarehouseLegacy {
  import opened Wrappers
  import opened Text
  import opened Seqs
  import opened Dom
  import opened Price
  import opened Badge
  import TennisWarehouse

  /** The index of the first span without a `class` attribute, if any. */
  function FirstUnclassed(spans: seq<Span>): (r: Option<nat>)
    ensures r.Some? ==> r.value < |spans| && !spans[r.value].hasClass
    ensures r.Some? ==> forall k :: 0 <= k < r.value ==> spans[k].hasClass
    ensures r.None? ==> forall k :: 0 <= k < |spans| ==> spans[k].hasClass
  {
    if spans == [] then None
    else if !spans[0].hasClass then Some(0)
    else match FirstUnclassed(spans[1..])
      case Some(k) => Some(k + 1)
      case None => None
  }

  /** The price read from the price block: comma-free, and "" without a block. */
  function BlockPrice(block: Option<PriceBlock>): (p: string)
    ensures block.None? ==> p == ""
    ensures forall m :: 0 <= m < |p| ==> p[m] != ','
  {
    if block.None? then ""
    else match FirstUnclassed(block.value.spans)
      case Some(k) => CleanPrice(Some(block.value.spans[k].text))
      case None => ""
  }

  /** The old price: the cleaned `.is-crossout` text, or "" without a block or crossout element; comma-free. */
  function BlockOldPrice(block: Option<PriceBlock>): (p: string)
    ensures forall m :: 0 <= m < |p| ==> p[m] != ','
  {
    if block.Some? && block.value.crossout.Some? then CleanPrice(block.value.crossout) else ""
  }

  /** The discount, searched only when the badge text is non-empty. */
  function BadgeDiscount(badge: string): (d: string)
    ensures forall m :: 0 <= m < |d| ==> IsDigit(d[m])
  {
    if badge != "" then Discount(badge) else ""
  }

  /**
   * The record the loop appends for a card it keeps: the badge is the raw badge text, the prices
   * are comma-free and the discount is all digits.
   */
  function CardListing(c: Card): (l: Listing)
    ensures l.badge == TextOf(c.badge)
    ensures forall m :: 0 <= m < |l.price| ==> l.price[m] != ','
    ensures forall m :: 0 <= m < |l.oldPrice| ==> l.oldPrice[m] != ','
    ensures forall m :: 0 <= m < |l.discount| ==> IsDigit(l.discount[m])
  {
    Listing(
      name := TextOf(c.name),
      badge := TextOf(c.badge),
      discount := BadgeDiscount(TextOf(c.badge)),
      oldPrice := BlockOldPrice(c.priceBlock),
      price := BlockPrice(c.priceBlock),
      productUrl := Href(c.link))
  }

  /** The records the loop returns: at most one per card, each with a product URL the filter accepts. */
  function Listings(cards: seq<Card>): (ps: seq<Listing>)
    ensures |ps| <= |cards|
    ensures forall k :: 0 <= k < |ps| ==> !TennisWarehouse.IsExcludedUrl(ps[k].productUrl)
  {
    var ps := FilterMap(cards, TennisWarehouse.IsKept, CardListing);
    assert forall k :: 0 <= k < |ps| ==> !TennisWarehouse.IsExcludedUrl(ps[k].productUrl) by {
      forall k | 0 <= k < |ps| ensures !TennisWarehouse.IsExcludedUrl(ps[k].productUrl) {
        FilterMapMember(cards, TennisWarehouse.IsKept, CardListing, ps[k]);
      }
    }
    ps
  }

  /** The `for card in cards` loop, with its inner `for span in ...: ... break`. */
  method ScrapeTwLegacy(cards: seq<Card>) returns (products: seq<Listing>)
    ensures products == Listings(cards)
  {
    products := [];
    for i := 0 to |cards|
      invariant products == Listings(cards[..i])
    {
      var card := cards[i];
      assert cards[..i + 1] == cards[..i] + [card];
      FilterMapSnoc(cards[..i], card, TennisWarehouse.IsKept, CardListing);

      var name := TextOf(card.name);
      var badge := TextOf(card.badge);
      var discount := "";
      if badge != "" {
        discount := Discount(badge);
      }

      var priceBlock := card.priceBlock;
      var price := ScanSpans(priceBlock);

      var oldPrice := "";
      var oldPriceTag := if priceBlock.Some? then priceBlock.value.crossout else None;
      if oldPriceTag.Some? {
        oldPrice := CleanPrice(oldPriceTag);
      }

      var productUrl := Href(card.link);
      if TennisWarehouse.IsExcludedUrl(productUrl) {
        continue;
      }
      products := products + [Listing(name, badge, discount, oldPrice, price, productUrl)];
    }
    assert cards[..|cards|] == cards;
  }

  /** The inner `for span in price_block.find_all('span', recursive=False)` loop with its `break`. */
  method ScanSpans(priceBlock: Option<PriceBlock>) returns (price: string)
    ensures price == BlockPrice(priceBlock)
  {
    price := "";
    if priceBlock.Some? {
      var spans := priceBlock.value.spans;
      var j := 0;
      while j < |spans|
        invariant 0 <= j <= |spans|
        invariant forall k :: 0 <= k < j ==> spans[k].hasClass
        invariant price == ""
      {
        if !spans[j].hasClass {
          price := CleanPrice(Some(spans[j].text));
          break;
        }
        j := j + 1;
      }
    }
  }

  /**
   * The price is "" without a price block or without an unclassed span; otherwise it is the cleaned
   * text of the first unclassed span, and spans after it do not matter.
   */
  lemma BlockPriceIsFirstUnclassedSpan(spans: seq<Span>, more: seq<Span>, crossout: Option<string>, k: nat)
    requires k < |spans| && !spans[k].hasClass
    requires forall m :: 0 <= m < k ==> spans[m].hasClass
    ensures BlockPrice(None) == ""
    ensures BlockPrice(Some(PriceBlock(spans + more, crossout))) == CleanPrice(Some(spans[k].text))
  {
    var s := spans + more;
    var r := FirstUnclassed(s);
    assert !s[k].hasClass;
    assert r.value == k;
  }

  /** Without an unclassed direct child span the price is "". */
  lemma NoUnclassedSpanGivesEmptyPrice(block: PriceBlock)
    requires forall m :: 0 <= m < |block.spans| ==> block.spans[m].hasClass
    ensures BlockPrice(Some(block)) == ""
  {
  }

  /** The old price is the cleaned crossout text of the price block, "" without a block or a crossout element. */
  lemma OldPriceIsCrossout(c: Card)
    ensures (c.priceBlock.None? || c.priceBlock.value.crossout.None?) ==> CardListing(c).oldPrice == ""
    ensures c.priceBlock.Some? && c.priceBlock.value.crossout.Some? ==> CardListing(c).oldPrice == CleanPrice(c.priceBlock.value.crossout)
  {
  }

  /** The non-empty-badge guard does not change the discount: it agrees with scrapers/tw.py's. */
  lemma DiscountAgreesWithCurrentScraper(c: Card)
    ensures CardListing(c).discount == TennisWarehouse.CardListing(c).discount
    ensures CardListing(c).discount == Discount(TextOf(c.badge))
  {
  }

  /** The badge is the raw badge text. */
  lemma BadgeIsRaw(c: Card)
    ensures CardListing(c).badge == TextOf(c.badge)
    ensures c.badge.None? ==> CardListing(c).badge == "" && CardListing(c).discount == ""
  {
  }

  /** The records have product URLs that pass the filter, follow card order, and number at most one per card. */
  lemma ListingsAreFilteredInOrder(a: seq<Card>, b: seq<Card>, p: Listing)
    ensures p in Listings(a) ==> p.productUrl != "" && !TennisWarehouse.IsExcludedUrl(p.productUrl)
    ensures Listings(a + b) == Listings(a) + Listings(b)
    ensures |Listings(a)| <= |a|
  {
    FilterMapMember(a, TennisWarehouse.IsKept, CardListing, p);
    FilterMapAppend(a, b, TennisWarehouse.IsKept, CardListing);
  }
}
