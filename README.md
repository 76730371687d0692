# price-grabber, modelled in Dafny

price-grabber is a set of web scrapers and a small Streamlit front end for comparing a shop's
prices with its competitors'. This project models its core logic and proves properties of it:

- **Price text.** `clean_price` turns a price label into its first `digits[.digits]` token, after
  replacing commas with dots. scrapers/tw.py, scrapers/pn.py and test.py each hold an identical
  copy, modelled once as `Price.CleanPrice`.
- **Badge text** in the Tennis Warehouse scraper. The label is the stripped text before the first
  `-`, digit or `%`. The discount is the digit run of the leftmost `-NN%`.
- **Card loops** of the three scrapers, and the Padel Nuestro next-page crawl:
  - `TennisWarehouse` models scrapers/tw.py;
  - `TennisWarehouseLegacy` models the older variant in test.py;
  - `PadelNuestro` models scrapers/pn.py.

  A card is the record of what each CSS selector found in it. A page is a list of cards plus an
  optional next link. The site is a map from URL to page.
- **Configuration.** The selector lookup of core/selectors.py and the brand/URL tables of
  core/brands_urls.py.
- **Driver.** The category × brand loop of scrape_all_pn.py. It tags every row with its
  category and brand and concatenates the frames.
- **Session state** of app/main.py. `st.session_state` is a class `Session.SessionState` over a
  `map<string, Value>`. Each rule that mutates it is a method, proved equal to a pure function of
  the old state. What a widget returns (a toggle, a checkbox, the delete button pressed) is a
  parameter of that method. Lemmas then state what the function guarantees. Header validation
  and renaming of the uploaded CSV are in `Upload`.

Modules: `Wrappers` (Option, Result), `Text` (character classes, strip, prefix tests), `Seqs`
(filtered maps, list removal), `Price`, `Badge`, `Dom`, `TennisWarehouse`,
`TennisWarehouseLegacy`, `PadelNuestro`, `Selectors`, `BrandsUrls`, `ScrapeAllPn`, `Upload`,
`Session`.

## Model

| member | source | states |
|---|---|---|
| Price.CleanPrice | scrapers/tw.py:12-16 | `None` gives ""; the result never contains a comma |
| Price.CommasToDots | scrapers/tw.py:15 | the text keeps its length and every character except commas, and holds no comma |
| Price.ScanPrice | scrapers/tw.py:15-16 | the scanner gives "" exactly when the text has no digit; otherwise its result is in the language of `\d+[.,]?\d*` |
| Price.ScanPriceIsFirstMatch | scrapers/tw.py:15-16 | the scanner result is "" exactly when the text has no digit; otherwise it is the leftmost, longest match of `\d+[.,]?\d*` |
| Price.FirstTokenUnique | scrapers/tw.py:15-16 | the leftmost-longest match is unique, so "the first token" is well defined |
| Price.CleanPriceIsFirstMatch | scrapers/tw.py:12-16 | the cleaned price is "" exactly when the input has no digit; otherwise it is the first match in the comma-to-dot text: a substring starting at its first digit, maximal and without commas |
| Price.CleanPriceIdempotent | scrapers/tw.py:15-16 | cleaning a cleaned price returns it unchanged |
| Badge.SplitHead | scrapers/tw.py:74 | the first piece `re.split(r"[\-\d%]+", t)` returns: the prefix of `t` before its first `-`, digit or `%` |
| Badge.CleanBadge | scrapers/tw.py:72-74 | an empty badge stays ""; the label holds none of `-`, digits, `%` |
| Badge.CleanBadgeIsStrippedHead | scrapers/tw.py:72-74 | an empty badge stays ""; otherwise the label is the stripped text before the first cut character, holds none of `-`, digits, `%`, and neither starts nor ends with whitespace |
| Badge.SearchDiscount | scrapers/tw.py:78 | no result means no `-<digits>%` starts at or after `i`; a result is group 1 of the leftmost one at or after `i` |
| Badge.Discount | scrapers/tw.py:77-79 | the discount is "" exactly when the text has no `-<digits>%`, and it is all digits |
| Badge.DiscountIsLeftmostMatch | scrapers/tw.py:77-79 | the discount is "" exactly when the text has no `-<digits>%`; otherwise it is the digit run of the leftmost one, all digits |
| TennisWarehouse.BadgeDiscount | scrapers/tw.py:77-79 | the discount read from the raw badge text is all digits |
| TennisWarehouse.CardListing | scrapers/tw.py:66-91 | a card's record has comma-free prices, an all-digit discount and a label without `-`, digits or `%` |
| TennisWarehouse.Listings | scrapers/tw.py:64-109 | at most one record per card, and every record's URL passes the filter |
| TennisWarehouse.ScrapeTw | scrapers/tw.py:64-109 | the card loop with its `continue` returns the records of the kept cards, in card order |
| TennisWarehouse.ListingsHaveProductUrls | scrapers/tw.py:93-100 | every record has a non-empty URL containing none of `/catpage-`, `/categoryvideo.html`, `/learning_center/gear_guides/` |
| TennisWarehouse.KeptCardsAreListed | scrapers/tw.py:93-109 | every card whose URL passes the filter has its record in the output |
| TennisWarehouse.ListingsInCardOrder | scrapers/tw.py:64-109 | the records of two card lists in a row are the first list's then the second's; there is one record per kept card, hence at most one per card |
| TennisWarehouse.MissingTagsGiveEmptyFields | scrapers/tw.py:67-91 | a missing name, badge, price, old-price or link tag, or a link without `href`, gives "" for that field (and for the discount when the badge is missing) |
| TennisWarehouse.SaleBadgeLabel | scrapers/tw.py:72-74 | the badge "Sale -20%" has the label "Sale" |
| TennisWarehouse.SaleBadgeDiscount | scrapers/tw.py:77-79 | the badge "Sale -20%" has the discount "20" |
| TennisWarehouseLegacy.FirstUnclassed | test.py:76-79 | the index of the first span without a `class` attribute: every span before it has one; "none" means every span has one |
| TennisWarehouseLegacy.BlockPrice | test.py:72-79 | no price block gives ""; the price is comma-free |
| TennisWarehouseLegacy.BlockOldPrice | test.py:81-85 | the old price is comma-free |
| TennisWarehouseLegacy.BadgeDiscount | test.py:66-70 | the discount is all digits |
| TennisWarehouseLegacy.CardListing | test.py:58-89 | a card's record keeps the raw badge text, has comma-free prices and an all-digit discount |
| TennisWarehouseLegacy.Listings | test.py:56-107 | at most one record per card, and every record's URL passes the filter |
| TennisWarehouseLegacy.ScanSpans | test.py:74-79 | the inner span loop with its `break` yields the block price |
| TennisWarehouseLegacy.ScrapeTwLegacy | test.py:56-107 | the card loop returns the records of the kept cards, in card order |
| TennisWarehouseLegacy.BlockPriceIsFirstUnclassedSpan | test.py:73-79 | no block gives ""; otherwise the price is the cleaned text of the first unclassed span, whatever spans follow it |
| TennisWarehouseLegacy.NoUnclassedSpanGivesEmptyPrice | test.py:75-79 | a block whose spans all have a class gives the price "" |
| TennisWarehouseLegacy.OldPriceIsCrossout | test.py:82-85 | the old price is the cleaned crossout text, or "" without a block or a crossout element |
| TennisWarehouseLegacy.DiscountAgreesWithCurrentScraper | test.py:66-70 | the discount is the leftmost `-NN%` digit run of the badge, the same as in scrapers/tw.py |
| TennisWarehouseLegacy.BadgeIsRaw | test.py:63-64 | the badge field is the unmodified badge text; no badge gives "" badge and "" discount |
| TennisWarehouseLegacy.ListingsAreFilteredInOrder | test.py:91-107 | records have non-empty, non-excluded URLs, follow card order, and number at most one per card |
| PadelNuestro.CardListing | scrapers/pn.py:26-63 | no discount element gives "0", otherwise the cleaned discount text (possibly ""); each missing element gives "" for its field |
| PadelNuestro.PageListings | scrapers/pn.py:25-63 | one record per card of the page, in card order, without filtering |
| PadelNuestro.AppendPage | scrapers/pn.py:25-63 | the inner card loop appends the page's records after those already gathered, one per card in card order |
| PadelNuestro.ScrapePn | scrapers/pn.py:16-70 | the `while category_url` loop from the Adidas rackets URL returns the crawl outcome: the visited URLs and the records, or the URL whose request raised |
| PadelNuestro.CrawlFuelIrrelevant | scrapers/pn.py:21-70 | a crawl that ends within `n` pages gives the same outcome under any larger bound |
| PadelNuestro.FinishedCrawlFollowsNextLinks | scrapers/pn.py:65-70 | the visited URLs are the chain of next links from the start, and the last page has no next link with an `href`; the records are the pages' records in visit order, then card order |
| PadelNuestro.ListingsOfCount | scrapers/pn.py:25-63 | the record count is the sum of the card counts of the visited pages |
| PadelNuestro.MissingPageFails | scrapers/pn.py:21-24 | a start page whose request raises ends the crawl with that failure and no records |
| Selectors.LoadSelectors | core/selectors.py:8-11 | success exactly when the site is present and has the category, with `data[site][category]`; otherwise the `ValueError` message |
| Selectors.NotFoundMessageNamesBoth | core/selectors.py:11 | the error message contains both the site and the category |
| BrandsUrls.PadelNuestroShape | core/brands_urls.py:3-34 | exactly the categories `padel-rackets`, `padel-bags`, `padel-shoes`, each with the brands Babolat, Bullpadel, Head, Lok, Siux, Starvie, Wilson, Adidas in that order |
| BrandsUrls.PadelNuestroNamesDistinct | core/brands_urls.py:3-34 | the three categories are distinct, and so are the eight brand names |
| BrandsUrls.PadelNuestroUrls | core/brands_urls.py:5-32 | every Padel Nuestro URL is `https://www.padelnuestro.com/int/` + category + `/` + the lower-cased brand |
| BrandsUrls.TennisWarehouseShape | core/brands_urls.py:36-45 | only `tennis-racquets`, with six brands, each URL starting with `https://www.tenniswarehouse-europe.com/catpage-` and ending with `-EN.html` |
| BrandsUrls.TablesHaveDistinctEntries | core/brands_urls.py:3-45 | in every category of both tables the brands are distinct and the URLs are distinct; the Padel Nuestro categories are distinct |
| BrandsUrls.AdidasRacketsEntry | core/brands_urls.py:12 | the Adidas rackets entry is the page scrapers/pn.py starts from |
| ScrapeAllPn.ScrapeAll | scrape_all_pn.py:5-15 | the scraper calls are the table's entries in table order (categories outer, brands inner) with the table's URL; no call gives the `pd.concat` error; otherwise the result is the tagged frames concatenated in call order |
| ScrapeAllPn.TargetsMembers | scrape_all_pn.py:7-10 | a call is made exactly for the (category, brand, URL) entries of the table |
| ScrapeAllPn.TargetsLayout | scrape_all_pn.py:7-8 | brand `j` of category `i` is called right after the calls for the categories before `i` and the first `j` brands of `i` |
| ScrapeAllPn.PadelNuestroCalls | scrape_all_pn.py:7-10 | for the Padel Nuestro table there are 24 calls, call `8i+j` being brand `j` of category `i` with its URL |
| ScrapeAllPn.PadelNuestroEntriesDistinct | scrape_all_pn.py:7-8 | the 24 Padel Nuestro entries carry 24 distinct (category, brand) pairs |
| ScrapeAllPn.RowsAreTagged | scrape_all_pn.py:10-13 | a row is in the output exactly when some call returned its record, tagged with that call's category and brand |
| ScrapeAllPn.RowsOfAppend | scrape_all_pn.py:13-15 | the rows of two call lists in a row are the first list's rows then the second's |
| ScrapeAllPn.RowCountIsSum | scrape_all_pn.py:15 | the row count is the sum of the per-call record counts |
| Upload.MissingColumns | app/main.py:133 | at most ten headers are missing, each an expected header the CSV lacks |
| Upload.RenameColumn | app/main.py:138 | a header that is not expected is kept; an expected one becomes one of the English names |
| Upload.LoadColumns | app/main.py:132-138 | a failure reports a non-empty list of expected headers the CSV lacks; a success has as many columns as the CSV |
| Upload.MissingColumnsExact | app/main.py:133 | a header is reported missing exactly when it is expected and absent from the CSV |
| Upload.MissingColumnsInOrder | app/main.py:133 | the missing headers are listed in `column_map` order |
| Upload.LoadHaltsIffColumnMissing | app/main.py:132-137 | the app stops exactly when some expected header is absent, and reports the missing list |
| Upload.LoadRenamesExpected | app/main.py:138 | after a successful load each expected header carries its English name in place and other headers are kept |
| Upload.ColumnMapDistinct | app/main.py:120-131 | the ten Greek headers are distinct and so are their English names |
| Upload.RenameExpected | app/main.py:138 | each expected header is renamed to its own English name |
| Upload.RenameInjective | app/main.py:138 | two expected headers get the same name only if they are the same header |
| Session.SessionState.EnsureDefaults | app/main.py:82-88 | the start-up loop and assignments give the state `WithDefaults(old state)` |
| Session.FlagDefaultsFacts | app/main.py:82-84 | the flag loop adds exactly the listed keys, keeps every existing value and sets each new key to False |
| Session.WithDefaultsFacts | app/main.py:82-88 | the defaults add the five keys, keep existing values and give `False`, `False`, `False`, `85`, `[]` to the keys that were missing |
| Session.WithDefaultsStable | app/main.py:82-88 | the defaults keep the structured entries well typed, and running them twice is running them once |
| Session.SessionState.PopWhere | app/main.py:142-151 | one pass over a snapshot of the keys pops exactly the keys the test accepts and nothing else changes |
| Session.SessionState.Reset | app/main.py:141-158 | `Reset All` gives the state `AfterReset(old state)` |
| Session.BrandTogglesAreToggles | app/main.py:144-145 | a `toggle_brand_` key is already a `toggle_` key |
| Session.FixedKeysSurviveReset | app/main.py:143-158 | `brands_all_selected`, `cat_all_selected`, `selected_websites_by_cat` and `enabled_categories` are popped by neither pass |
| Session.ResetRemovesExactly | app/main.py:142-151 | apart from the three keys set after the first pass, a key survives reset exactly when it is not a reset key, with its value unchanged |
| Session.ResetSetsFlags | app/main.py:152-155 | after reset both select-all flags are False; the site map is `{}` only if it existed; `enabled_categories` is kept |
| Session.ResetKeepsWellTyped | app/main.py:141-158 | reset keeps the structured entries well typed |
| Session.ResetIdempotent | app/main.py:141-158 | resetting twice is resetting once |
| Session.SessionState.SelectAllBrands | app/main.py:166-176 | the brand select-all button gives `SelectAllBrandsState(old state)` |
| Session.SetBrandTogglesFacts | app/main.py:173-174 | the listed brands' toggles are set to the new value; no other key is added or changed |
| Session.SelectAllBrandsKeepsWellTyped | app/main.py:166-187 | the brand select-all button and the recording of `brands_all_selected` keep the structured entries well typed |
| Session.SelectAllBrandsFlips | app/main.py:166-176 | every toggle and `brands_all_selected` become `not (all on and at least one brand)`; afterwards all are checked exactly when that value is true and there is a brand, and the enabled brands are all or none |
| Session.SessionState.RecordBrandsAllSelected | app/main.py:186-187 | `brands_all_selected` is set to whether all toggles are on and there is a brand |
| Session.EnabledBrandsNonEmpty | app/main.py:189 | some brand is enabled exactly when some brand's toggle is on |
| Session.SessionState.InitCategoryKeys | app/main.py:197-204 | the per-category loop gives `InitCategories(old state, enabled, cats)` |
| Session.SessionState.InitOneCategory | app/main.py:198-204 | one iteration of that loop gives `InitCategory(old state, enabled, cat)` |
| Session.SiteDefaultsFacts | app/main.py:200-202 | the site loop adds exactly the missing `{cat}_{site}_scrape` keys, sets each of them to False and keeps existing values |
| Session.InitCategoryFacts | app/main.py:198-204 | one category's defaults keep existing values, add its toggle, site and select-all keys, and add nothing else; a new toggle is `cat in enabled_categories`, new scrape and select-all flags are False |
| Session.InitCategoriesFacts | app/main.py:197-204 | every category of the list gets its toggle, site and select-all keys, existing values are kept and nothing else is added |
| Session.InitCategoriesValues | app/main.py:197-204 | when no two categories share a default key, each category's missing toggle becomes `cat in enabled_categories` and its missing scrape and select-all flags become False |
| Session.InitCategoriesKeepsWellTyped | app/main.py:197-204 | the per-category defaults keep the structured entries well typed |
| Session.SessionState.SelectAllCategories | app/main.py:209-223 | the category select-all button gives `SelectAllCategoriesState(old state)` |
| Session.SetCategoryTogglesFacts | app/main.py:216-221 | the listed categories' toggles are set to the new value; no other key is added or changed |
| Session.SelectAllCategoriesFacts | app/main.py:209-223 | `enabled_categories` becomes all categories or `[]`, every toggle and `cat_all_selected` take the new value, each toggle agrees with membership in the enabled list, and well-typedness is kept |
| Session.SessionState.SyncCategoryToggle | app/main.py:264-270 | `enabled_categories` is brought into step with the toggle |
| Session.ToggleFacts | app/main.py:264-270 | the list never gains a duplicate; the category is in it exactly when toggled on; other members are unchanged; nothing changes when toggle and membership agree |
| Session.ToggleKeepsWellTyped | app/main.py:264-270 | the toggle rule keeps `enabled_categories` duplicate-free |
| Session.DefaultBand | app/main.py:295-297 | a default band runs from the category minimum to its maximum, with strategy "None" and margin 20.0 |
| Session.SessionState.EnsureBands | app/main.py:293-297 | a missing band list starts as the one default band; an existing one is kept |
| Session.SessionState.DeleteBand | app/main.py:332-334 | no delete leaves the state unchanged; otherwise only the chosen band is removed |
| Session.SessionState.AddBand | app/main.py:337-338 | the add button appends one default band |
| Session.BandsKeepWellTyped | app/main.py:293-338 | writing a `bands_` key keeps the structured entries well typed |
| Session.WithSiteList | app/main.py:351-354 | afterwards the site map exists and has a list for the category: the old list when there was one, `[]` otherwise; every other category's list and every other key are unchanged, nothing changes when the list existed, and well-typedness is kept |
| Session.SessionState.EnsureSiteList | app/main.py:351-354 | the state becomes `WithSiteList(old state, cat)` |
| Session.SessionState.SyncSiteCheckboxes | app/main.py:356-370 | the checkbox loop returns the ticked sites and updates only this category's list, to `SyncSites` of the old list |
| Session.SyncSitesFacts | app/main.py:356-370 | the list stays duplicate-free and within `all_websites`; a site handled so far is in it exactly when its box is ticked; the others keep their membership |
| Session.SyncSitesKeepsWellTyped | app/main.py:356-370 | the checkbox loop keeps the site map well typed |
| Session.AllWebsitesDistinct | app/main.py:6 | the six site codes are distinct |
| Session.AllCheckedMeansEverySite | app/main.py:372 | for a duplicate-free list of sites, length six means every site is selected |
| Session.SessionState.SelectAllWebsites | app/main.py:372-380 | the button replaces this category's list by `SelectAllSites` of it |
| Session.SelectAllSitesFacts | app/main.py:372-380 | select-all gives `[]` when every site is already selected and all six otherwise, keeping the list duplicate-free |
| Session.SelectAllSitesKeepsWellTyped | app/main.py:372-380 | the select-all-websites button keeps the site map well typed |
| Session.RequirementsMetIff | app/main.py:389-393 | Start is enabled exactly when some brand is enabled, some current category is enabled and some enabled category has a non-empty site list; it fails only on a missing key that the evaluation reaches |

## Left out

- Browser and network: the Selenium session, cookie and language clicks, fixed sleeps and
  `requests` fetches. A card is what the selectors found; a page of the Padel Nuestro site is an
  entry of a map. A URL the map lacks stands for a request that raises.
- HTML parsing and CSS-selector matching. `get_text(strip=True)` is taken as already applied to
  the texts a card holds.
- CSV and YAML file I/O. The DataFrame construction and `to_csv` are left out; frames are lists
  of records. `load_selectors` starts from the parsed configuration.
- The scrapers' own `load_selectors` calls. The card loops are stated directly in terms of the
  fields the selectors find, so they do not depend on the selector strings.
- core/http.py and core/scrapers/base.py: network retries, random sleeps and an abstract
  interface with no logic.
- Price.CleanPrice, Price.ScanPrice, Badge.SplitHead, Badge.CleanBadge, Badge.SearchDiscount,
  Badge.Discount and the lemmas built on them (`TennisWarehouse.SaleBadgeLabel`,
  `TennisWarehouse.SaleBadgeDiscount`, the discount and price lemmas of both Tennis Warehouse
  scrapers): `\d` is ASCII digits only. Python's `re` also matches other Unicode decimal digits, in
  `\d+[.,]?\d*`, `[\-\d%]+` and `-(\d+)%` alike.
- ScrapeAllPn.ScrapeAll: the scraper is a parameter. scrape_all_pn.py imports `scrape_pn`, which
  scrapers/pn.py does not define (it defines `scrape_pn_adidas_rackets`). Its progress `print`
  is left out.
- PadelNuestro.ScrapePn: a ghost bound on the number of pages stands in for termination. The code
  does not terminate on a cycle of next links, and the model does not claim that it does.
- Floating point: band bounds and margins are reals that are only stored. The `Retail` min/max
  computation is left out.
- The band-editing inputs inside the band loop (app/main.py:301-330), which overwrite a band's
  fields with widget values, are left out. The model covers creating, adding and deleting bands.
- The `cat_blocks` separators (app/main.py:233-246, 384-386), `store_name_map`, the CSS and all
  widget rendering. Streamlit reruns are left out; each rule is one method call.
- Matching and pricing: `strategy_options` are only labels, and "Start Scraping" only shows a
  message.
- Session.RequirementsMet requires the structured entries to be well typed (`enabled_categories`
  a duplicate-free list, `selected_websites_by_cat` a map of site lists). Every rule that writes
  the session keeps this: see the `…KeepsWellTyped` lemmas, `WithDefaultsStable`,
  `SelectAllCategoriesFacts` and `WithSiteList`.
- Session.InitCategoriesValues is stated for category lists in which no two categories share a
  default key. With categories such as `toggle` and `PN_scrape`, the key `toggle_PN_scrape` is
  both a scrape flag and a toggle, and the first category to reach it decides its value.
- Session.SessionState.InitCategoryKeys reads `enabled_categories` once, before the loop. The
  loop reads it on every iteration, but none of the keys the loop sets can be that key.
- Session.SessionState.SyncSiteCheckboxes takes all six checkbox values at once. In the app they
  arrive one per iteration.
- ScrapeAllPn.PadelNuestroEntriesDistinct is stated on the table entries rather than on the call
  list. `ScrapeAllPn.PadelNuestroCalls` links the two positions.
