/**
 * What the scrapers read from a parsed page. HTML parsing and CSS-selector matching are not
 * modelled: a card is the result of each `card.select_one(...)` the scrapers make, as the text
 * `get_text(strip=True)` gives for the element found, or `None` when no element matched.
 */
module Dom {
  import opened Wrappers

  /** An `<a>` element; `href` is its `href` attribute when it has one. */
  datatype Anchor = Anchor(href: Option<string>)

  /** A direct child `<span>` of a price block: whether it carries a `class` attribute, and its text. */
  datatype Span = Span(hasClass: bool, text: string)

  /** The `.cattable-wrap-cell-info-price` element test.py reads: its direct child spans in order, and the text of its first `.is-crossout` element. */
  datatype PriceBlock = PriceBlock(spans: seq<Span>, crossout: Option<string>)

  /** One product card and what each selector found in it. */
  datatype Card = Card(
    name: Option<string>,
    badge: Option<string>,
    discount: Option<string>,
    price: Option<string>,
    oldPrice: Option<string>,
    priceBlock: Option<PriceBlock>,
    link: Option<Anchor>)

  /** One product record (a row of the scraper's DataFrame or CSV). */
  datatype Listing = Listing(
    name: string,
    badge: string,
    discount: string,
    oldPrice: string,
    price: string,
    productUrl: string)

  /** `tag.get_text(strip=True) if tag else ""`. */
  function TextOf(tag: Option<string>): string {
    if tag.Some? then tag.value else ""
  }

  /** `url_tag['href'] if url_tag and url_tag.has_attr("href") else ""`. */
  function Href(link: Option<Anchor>): string {
    if link.Some? && link.value.href.Some? then link.value.href.value else ""
  }
}
