/**
 * `scrape_pn_adidas_rackets` in scrapers/pn.py: starting from the Adidas rackets page, every card of
 * every page becomes one record, and the crawl follows the next-page link until there is none.
 * The site is a map from URL to page; a URL the map lacks stands for a request that raises.
 */
module PadelNuestro {
  import opened Wrappers
  import opened Dom
  import opened Price

  const BaseUrl: string := "https://www.padelnuestro.com"
  const StartUrl: string := BaseUrl + "/int/padel-rackets/adidas"

  /** A fetched page: its `li.item.product.product-item` cards and its next-page link, if any. */
  datatype Page = Page(cards: seq<Card>, next: Option<Anchor>)

  /** The URL the loop goes on with; "" when there is no next link or it has no `href` (both end `while category_url`). */
  function NextUrl(p: Page): string {
    Href(p.next)
  }

  /** The record the loop appends for each card. */
  function CardListing(c: Card): (r: Listing)
    ensures c.discount.None? ==> r.discount == "0"
    ensures c.discount.Some? ==> r.discount == CleanPrice(c.discount)
    ensures c.name.None? ==> r.name == ""
    ensures c.badge.None? ==> r.badge == ""
    ensures c.price.None? ==> r.price == ""
    ensures c.oldPrice.None? ==> r.oldPrice == ""
    ensures (c.link.None? || c.link.value.href.None?) ==> r.productUrl == ""
  {
    Listing(
      name := TextOf(c.name),
      badge := TextOf(c.badge),
      discount := if c.discount.Some? then CleanPrice(c.discount) else "0",
      oldPrice := if c.oldPrice.Some? then CleanPrice(c.oldPrice) else "",
      price := if c.price.Some? then CleanPrice(c.price) else "",
      productUrl := Href(c.link))
  }

  /** The records of one page: one per card, in card order. */
  function PageListings(p: Page): (r: seq<Listing>)
    ensures |r| == |p.cards|
    ensures forall k :: 0 <= k < |r| ==> r[k] == CardListing(p.cards[k])
  {
    seq(|p.cards|, k requires 0 <= k < |p.cards| => CardListing(p.cards[k]))
  }

  /** How a crawl ends: the URLs visited and the records gathered, a request that raised, or (in the specification only) fuel run out. */
  datatype Crawl = Finished(visited: seq<string>, products: seq<Listing>) | FetchFailed(url: string) | OutOfFuel

  /** Prefix a finished crawl with the pages already visited and the records already gathered; failures pass through. */
  function Resume(visited: seq<string>, products: seq<Listing>, rest: Crawl): Crawl {
    match rest
    case Finished(v, ps) => Finished(visited + v, products + ps)
    case _ => rest
  }

  /** The crawl from `url`, following at most `fuel` pages. */
  function CrawlFrom(web: map<string, Page>, url: string, fuel: nat): Crawl
    decreases fuel
  {
    if url == "" then Finished([], [])
    else if fuel == 0 then OutOfFuel
    else if url !in web then FetchFailed(url)
    else Resume([url], PageListings(web[url]), CrawlFrom(web, NextUrl(web[url]), fuel - 1))
  }

  lemma ResumeResume(v: seq<string>, ps: seq<Listing>, v': seq<string>, ps': seq<Listing>, rest: Crawl)
    ensures Resume(v, ps, Resume(v', ps', rest)) == Resume(v + v', ps + ps', rest)
  {
    if rest.Finished? {
      assert v + (v' + rest.visited) == (v + v') + rest.visited;
      assert ps + (ps' + rest.products) == (ps + ps') + rest.products;
    }
  }

  /**
   * The `while category_url` loop. `fuel` is a bound on the number of pages the chain of
   * next links visits before it ends; the loop itself does not know it.
   */
  method ScrapePn(web: map<string, Page>, ghost fuel: nat) returns (outcome: Crawl)
    requires !CrawlFrom(web, StartUrl, fuel).OutOfFuel?
    ensures outcome == CrawlFrom(web, StartUrl, fuel)
  {
    var categoryUrl := StartUrl;
    var visited: seq<string> := [];
    var products: seq<Listing> := [];
    ghost var left := fuel;
    assert Resume([], [], CrawlFrom(web, StartUrl, fuel)) == CrawlFrom(web, StartUrl, fuel);
    while categoryUrl != ""
      invariant !CrawlFrom(web, categoryUrl, left).OutOfFuel?
      invariant CrawlFrom(web, StartUrl, fuel) == Resume(visited, products, CrawlFrom(web, categoryUrl, left))
      decreases left
    {
      if categoryUrl !in web {
        return FetchFailed(categoryUrl);
      }
      var page := web[categoryUrl];
      CrawlStep(web, categoryUrl, left);
      ghost var before := products;
      products := AppendPage(products, page);
      ResumeResume(visited, before, [categoryUrl], PageListings(page), CrawlFrom(web, NextUrl(page), left - 1));
      visited := visited + [categoryUrl];
      categoryUrl := NextUrl(page);
      left := left - 1;
    }
    assert visited + [] == visited && products + [] == products;
    outcome := Finished(visited, products);
  }

  /** One page of the crawl: its records, then the crawl from its next link with one page less. */
  lemma CrawlStep(web: map<string, Page>, url: string, fuel: nat)
    requires url != "" && url in web && fuel > 0
    ensures CrawlFrom(web, url, fuel) == Resume([url], PageListings(web[url]), CrawlFrom(web, NextUrl(web[url]), fuel - 1))
  {
  }

  /** The inner `for card in cards` loop: the page's records appended in card order. */
  method AppendPage(products: seq<Listing>, page: Page) returns (r: seq<Listing>)
    ensures r == products + PageListings(page)
  {
    ghost var ls := PageListings(page);
    r := products;
    for k := 0 to |page.cards|
      invariant r == products + ls[..k]
    {
      var l := CardListing(page.cards[k]);
      assert l == ls[k];
      assert ls[..k + 1] == ls[..k] + [ls[k]];
      r := r + [l];
    }
    assert ls[..|page.cards|] == ls;
  }

  /** More fuel than a crawl needs changes nothing: the result does not depend on the bound. */
  lemma {:induction false} CrawlFuelIrrelevant(web: map<string, Page>, url: string, n: nat, m: nat)
    requires !CrawlFrom(web, url, n).OutOfFuel? && n <= m
    ensures CrawlFrom(web, url, m) == CrawlFrom(web, url, n)
    decreases n
  {
    if url != "" && url in web {
      CrawlFuelIrrelevant(web, NextUrl(web[url]), n - 1, m - 1);
    }
  }

  /** The visited URLs form the chain of next links from `url`: each page's link gives the next URL, and the last page has none. */
  ghost predicate IsNextChain(web: map<string, Page>, url: string, v: seq<string>) {
    && (v == [] <==> url == "")
    && (v != [] ==> v[0] == url)
    && (forall k :: 0 <= k < |v| ==> v[k] != "" && v[k] in web)
    && (forall k :: 0 <= k < |v| - 1 ==> NextUrl(web[v[k]]) == v[k + 1])
    && (v != [] ==> NextUrl(web[v[|v| - 1]]) == "")
  }

  /** The records of the pages `v`, in visiting order. */
  function ListingsOf(web: map<string, Page>, v: seq<string>): seq<Listing>
    requires forall k :: 0 <= k < |v| ==> v[k] in web
  {
    if v == [] then [] else PageListings(web[v[0]]) + ListingsOf(web, v[1..])
  }

  /** The number of cards on the pages `v`. */
  function CardCount(web: map<string, Page>, v: seq<string>): nat
    requires forall k :: 0 <= k < |v| ==> v[k] in web
  {
    if v == [] then 0 else |web[v[0]].cards| + CardCount(web, v[1..])
  }

  /**
   * A finished crawl visits the chain of next links from its start and stops exactly at the first
   * page whose next link is missing or has no `href`; its records are the pages' records in
   * visiting order, card order within a page.
   */
  lemma {:induction false} FinishedCrawlFollowsNextLinks(web: map<string, Page>, url: string, fuel: nat)
    requires CrawlFrom(web, url, fuel).Finished?
    ensures IsNextChain(web, url, CrawlFrom(web, url, fuel).visited)
    ensures CrawlFrom(web, url, fuel).products == ListingsOf(web, CrawlFrom(web, url, fuel).visited)
    decreases fuel
  {
    if url != "" {
      var next := NextUrl(web[url]);
      FinishedCrawlFollowsNextLinks(web, next, fuel - 1);
      var rest := CrawlFrom(web, next, fuel - 1);
      var v := [url] + rest.visited;
      assert v[1..] == rest.visited;
      assert forall k :: 0 <= k < |v| - 1 ==> v[k + 1] == rest.visited[k];
    }
  }

  /** The record count is the sum of the card counts of the visited pages. */
  lemma {:induction false} ListingsOfCount(web: map<string, Page>, v: seq<string>)
    requires forall k :: 0 <= k < |v| ==> v[k] in web
    ensures |ListingsOf(web, v)| == CardCount(web, v)
  {
    if v != [] {
      ListingsOfCount(web, v[1..]);
    }
  }

  /** A request that raises ends the whole crawl with no records. */
  lemma MissingPageFails(web: map<string, Page>, fuel: nat)
    requires StartUrl !in web && fuel > 0
    ensures CrawlFrom(web, StartUrl, fuel) == FetchFailed(StartUrl)
  {
  }
}
