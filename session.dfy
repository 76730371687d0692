/**
 * The session-state rules of app/main.py. `st.session_state` is a map from key to value; the
 * widgets that render it are left out, and what a widget returns is a parameter of the operation
 * that reads it.
 */
module Session {
  import opened Wrappers
  import opened Text
  import opened Seqs

  /** `all_websites`. */
  const AllWebsites: seq<string> := ["PN", "TTP", "TW", "ET", "TP", "TPR"]

  /** `strategy_options`: labels only, nothing evaluates them. */
  const StrategyOptions: seq<string> := ["None", "Match cheapest competitor", "Undercut cheapest by %", "Fixed margin above cost"]

  /** One price band; the bounds come from the float `Retail` column and are stored and never computed. */
  datatype Band = Band(min: real, max: real, strategy: string, margin: real)

  /** The kinds of value the app keeps in the session. */
  datatype Value =
    | Flag(flag: bool)
    | Int(number: int)
    | Names(names: seq<string>)
    | SitesByCategory(sites: map<string, seq<string>>)
    | BandList(bands: seq<Band>)

  type State = map<string, Value>

  const BrandsAllSelectedKey: string := "brands_all_selected"
  const CatAllSelectedKey: string := "cat_all_selected"
  const ResetFlagKey: string := "reset"
  const FuzzyThresholdKey: string := "fuzzy_threshold"
  const EnabledCategoriesKey: string := "enabled_categories"
  const SitesByCategoryKey: string := "selected_websites_by_cat"

  function BrandKey(brand: string): string { "toggle_brand_" + brand }
  function CategoryKey(cat: string): string { "toggle_" + cat }
  function BandsKey(cat: string): string { "bands_" + cat }
  function SiteScrapeKey(cat: string, site: string): string { cat + "_" + site + "_scrape" }
  function SelectAllSitesKey(cat: string): string { "website_select_all_" + cat }

  /** Python truthiness of a stored value. */
  predicate Truthy(v: Value) {
    match v
    case Flag(b) => b
    case Int(i) => i != 0
    case Names(ns) => ns != []
    case SitesByCategory(m) => m != map[]
    case BandList(bs) => bs != []
  }

  /** `st.session_state.get(key, False)` used as a condition. */
  predicate On(s: State, key: string) {
    key in s && Truthy(s[key])
  }

  /** A list of sites for one category: no site twice, and only sites of `all_websites`. */
  predicate IsSiteList(l: seq<string>) {
    NoDup(l) && forall x :: x in l ==> x in AllWebsites
  }

  /** What the app relies on about the two structured entries whenever they are present. */
  predicate WellTyped(s: State) {
    && (EnabledCategoriesKey in s ==> s[EnabledCategoriesKey].Names? && NoDup(s[EnabledCategoriesKey].names))
    && (SitesByCategoryKey in s ==>
          s[SitesByCategoryKey].SitesByCategory?
          && forall c :: c in s[SitesByCategoryKey].sites ==> IsSiteList(s[SitesByCategoryKey].sites[c]))
  }

  /** `if key not in st.session_state: st.session_state[key] = v`. */
  function SetDefault(s: State, key: string, v: Value): (r: State)
    ensures r.Keys == s.Keys + {key}
    ensures forall k :: k in s ==> r[k] == s[k]
    ensures key !in s ==> r[key] == v
  {
    if key in s then s else s[key := v]
  }

  // ---------------------------------------------------------------------------------------------
  // Initialisation (app/main.py:82-88)

  /** The three flags the start-up loop defaults to False. */
  const DefaultFlags: seq<string> := [BrandsAllSelectedKey, CatAllSelectedKey, ResetFlagKey]

  /** Each of `keys` defaulted to False, in order. */
  function FlagDefaults(s: State, keys: seq<string>): State {
    if keys == [] then s else SetDefault(FlagDefaults(s, keys[..|keys| - 1]), keys[|keys| - 1], Flag(false))
  }

  lemma {:induction false} FlagDefaultsFacts(s: State, keys: seq<string>)
    ensures FlagDefaults(s, keys).Keys == s.Keys + set k | k in keys
    ensures forall k :: k in s ==> FlagDefaults(s, keys)[k] == s[k]
    ensures forall k :: k in keys && k !in s ==> FlagDefaults(s, keys)[k] == Flag(false)
  {
    if keys != [] {
      var init := keys[..|keys| - 1];
      FlagDefaultsFacts(s, init);
      assert (set k | k in keys) == (set k | k in init) + {keys[|keys| - 1]};
    }
  }

  /** The state after the start-up defaults. */
  function WithDefaults(s: State): State {
    SetDefault(SetDefault(FlagDefaults(s, DefaultFlags), FuzzyThresholdKey, Int(85)), EnabledCategoriesKey, Names([]))
  }

  /** The defaults add the five keys and keep every value already there. */
  lemma WithDefaultsFacts(s: State)
    ensures WithDefaults(s).Keys == s.Keys + {BrandsAllSelectedKey, CatAllSelectedKey, ResetFlagKey, FuzzyThresholdKey, EnabledCategoriesKey}
    ensures forall k :: k in s ==> WithDefaults(s)[k] == s[k]
    ensures BrandsAllSelectedKey !in s ==> WithDefaults(s)[BrandsAllSelectedKey] == Flag(false)
    ensures CatAllSelectedKey !in s ==> WithDefaults(s)[CatAllSelectedKey] == Flag(false)
    ensures ResetFlagKey !in s ==> WithDefaults(s)[ResetFlagKey] == Flag(false)
    ensures FuzzyThresholdKey !in s ==> WithDefaults(s)[FuzzyThresholdKey] == Int(85)
    ensures EnabledCategoriesKey !in s ==> WithDefaults(s)[EnabledCategoriesKey] == Names([])
  {
    FlagDefaultsFacts(s, DefaultFlags);
    assert (set k | k in DefaultFlags) == {BrandsAllSelectedKey, CatAllSelectedKey, ResetFlagKey};
    assert BrandsAllSelectedKey != CatAllSelectedKey && BrandsAllSelectedKey != ResetFlagKey && CatAllSelectedKey != ResetFlagKey;
    assert FuzzyThresholdKey != EnabledCategoriesKey;
    assert FuzzyThresholdKey !in {BrandsAllSelectedKey, CatAllSelectedKey, ResetFlagKey};
    assert EnabledCategoriesKey !in {BrandsAllSelectedKey, CatAllSelectedKey, ResetFlagKey};
  }

  /** The defaults keep the structured entries well typed, and running them again changes nothing. */
  lemma WithDefaultsStable(s: State)
    ensures WellTyped(s) ==> WellTyped(WithDefaults(s))
    ensures WithDefaults(WithDefaults(s)) == WithDefaults(s)
  {
    WithDefaultsFacts(s);
    WithDefaultsFacts(WithDefaults(s));
    assert SitesByCategoryKey !in {BrandsAllSelectedKey, CatAllSelectedKey, ResetFlagKey, FuzzyThresholdKey, EnabledCategoriesKey};
  }

  // ---------------------------------------------------------------------------------------------
  // Reset (app/main.py:141-159)

  /** The keys the first loop of the reset pops. */
  predicate IsResetKey(k: string) {
    || StartsWith(k, "toggle_brand_")
    || StartsWith(k, "toggle_")
    || EndsWith(k, "_scrape")
    || StartsWith(k, "website_select_all_")
    || StartsWith(k, "bands_")
    || k == FuzzyThresholdKey
  }

  function Without(s: State, drop: string -> bool): (r: State)
    ensures forall k :: k in r <==> k in s && !drop(k)
    ensures forall k :: k in r ==> r[k] == s[k]
  {
    map k | k in s && !drop(k) :: s[k]
  }

  /** Both passes over the keys, popping what `first` and then what `second` accept, and the three assignments between them. */
  function ResetWith(s: State, first: string -> bool, second: string -> bool): State {
    var kept := Without(s, first);
    var flags := kept[BrandsAllSelectedKey := Flag(false)][CatAllSelectedKey := Flag(false)];
    var sites := if SitesByCategoryKey in flags then flags[SitesByCategoryKey := SitesByCategory(map[])] else flags;
    Without(sites, second)
  }

  /** The state after `Reset All`. */
  function AfterReset(s: State): State {
    ResetWith(s, IsResetKey, IsBandsKey)
  }

  /** The keys the second loop of the reset pops. */
  predicate IsBandsKey(k: string) {
    StartsWith(k, "bands_")
  }

  /** `toggle_brand_` keys are already `toggle_` keys: the first test of the reset adds nothing. */
  lemma BrandTogglesAreToggles(k: string)
    ensures StartsWith(k, "toggle_brand_") ==> StartsWith(k, "toggle_")
  {
    if StartsWith(k, "toggle_brand_") {
      assert k[..7] == k[..13][..7];
    }
  }

  lemma NotPrefixAt(k: string, p: string, i: nat)
    requires i < |p| && i < |k| && k[i] != p[i]
    ensures !StartsWith(k, p)
  {
  }

  /**
   * Reset removes exactly the reset keys; every other key keeps its value, except that the two
   * select-all flags become False and the per-category site map, if there is one, becomes empty.
   */
  lemma ResetRemovesExactly(s: State, k: string)
    requires k != BrandsAllSelectedKey && k != CatAllSelectedKey && k != SitesByCategoryKey
    ensures k in AfterReset(s) <==> k in s && !IsResetKey(k)
    ensures k in AfterReset(s) ==> AfterReset(s)[k] == s[k]
  {
    BrandTogglesAreToggles(k);
  }

  /** A key whose first letters and last letter rule out every pattern of the reset survives it. */
  lemma SurvivesReset(k: string)
    requires |k| > 1 && k[0] != 't' && k[0] != 'w' && k[0] != 'f' && (k[0] == 'b' ==> k[1] != 'a') && k[|k| - 1] != 'e'
    ensures !IsResetKey(k) && !IsBandsKey(k)
  {
    NotPrefixAt(k, "toggle_brand_", 0);
    NotPrefixAt(k, "toggle_", 0);
    NotPrefixAt(k, "website_select_all_", 0);
    NotPrefixAt(k, FuzzyThresholdKey, 0);
    if k[0] == 'b' {
      NotPrefixAt(k, "bands_", 1);
    } else {
      NotPrefixAt(k, "bands_", 0);
    }
    assert "_scrape"[6] == 'e';
  }

  /** The four fixed keys the reset treats specially are neither popped by the first loop nor by the second. */
  lemma FixedKeysSurviveReset()
    ensures !IsResetKey(BrandsAllSelectedKey) && !IsBandsKey(BrandsAllSelectedKey)
    ensures !IsResetKey(CatAllSelectedKey) && !IsBandsKey(CatAllSelectedKey)
    ensures !IsResetKey(SitesByCategoryKey) && !IsBandsKey(SitesByCategoryKey)
    ensures !IsResetKey(EnabledCategoriesKey) && !IsBandsKey(EnabledCategoriesKey)
  {
    SurvivesReset(BrandsAllSelectedKey);
    SurvivesReset(CatAllSelectedKey);
    SurvivesReset(SitesByCategoryKey);
    SurvivesReset(EnabledCategoriesKey);
  }

  /** What reset sets: both select-all flags False, the site map emptied only if it existed, categories kept. */
  lemma ResetSetsFlags(s: State)
    ensures BrandsAllSelectedKey in AfterReset(s) && AfterReset(s)[BrandsAllSelectedKey] == Flag(false)
    ensures CatAllSelectedKey in AfterReset(s) && AfterReset(s)[CatAllSelectedKey] == Flag(false)
    ensures SitesByCategoryKey in AfterReset(s) <==> SitesByCategoryKey in s
    ensures SitesByCategoryKey in s ==> AfterReset(s)[SitesByCategoryKey] == SitesByCategory(map[])
    ensures EnabledCategoriesKey in s ==> EnabledCategoriesKey in AfterReset(s) && AfterReset(s)[EnabledCategoriesKey] == s[EnabledCategoriesKey]
  {
    FixedKeysSurviveReset();
  }

  /** Reset keeps the structured entries well typed. */
  lemma ResetKeepsWellTyped(s: State)
    requires WellTyped(s)
    ensures WellTyped(AfterReset(s))
  {
    ResetSetsFlags(s);
  }

  lemma WithoutNothing(s: State, drop: string -> bool)
    requires forall k :: k in s ==> !drop(k)
    ensures Without(s, drop) == s
  {
  }

  /**
   * Whatever the two key tests, as long as everything the second pops the first pops too and neither
   * touches the three keys set in between, the two passes are idempotent.
   */
  lemma ResetWithIdempotent(s: State, first: string -> bool, second: string -> bool)
    requires forall k :: second(k) ==> first(k)
    requires !first(BrandsAllSelectedKey) && !first(CatAllSelectedKey) && !first(SitesByCategoryKey)
    requires !second(BrandsAllSelectedKey) && !second(CatAllSelectedKey) && !second(SitesByCategoryKey)
    ensures ResetWith(ResetWith(s, first, second), first, second) == ResetWith(s, first, second)
  {
    var r := ResetWith(s, first, second);
    WithoutNothing(r, first);
    assert r[BrandsAllSelectedKey := Flag(false)][CatAllSelectedKey := Flag(false)] == r;
    if SitesByCategoryKey in r {
      assert r[SitesByCategoryKey := SitesByCategory(map[])] == r;
    }
    WithoutNothing(r, second);
  }

  /** Reset twice is reset once. */
  lemma ResetIdempotent(s: State)
    ensures AfterReset(AfterReset(s)) == AfterReset(s)
  {
    FixedKeysSurviveReset();
    ResetWithIdempotent(s, IsResetKey, IsBandsKey);
  }

  // ---------------------------------------------------------------------------------------------
  // Brand select-all (app/main.py:166-189)

  /** `all(brand_states) and len(brands) > 0`. */
  predicate AllBrandsChecked(s: State, brands: seq<string>) {
    (forall b :: b in brands ==> On(s, BrandKey(b))) && |brands| > 0
  }

  /** Every brand toggle set to `v`. */
  function SetBrandToggles(s: State, brands: seq<string>, v: bool): State {
    if brands == [] then s else SetBrandToggles(s, brands[..|brands| - 1], v)[BrandKey(brands[|brands| - 1]) := Flag(v)]
  }

  /** The toggles of the listed brands are set to `v`; no other key is added or changed. */
  lemma {:induction false} SetBrandTogglesFacts(s: State, brands: seq<string>, v: bool)
    ensures var r := SetBrandToggles(s, brands, v);
      && (forall b :: b in brands ==> BrandKey(b) in r && r[BrandKey(b)] == Flag(v))
      && (forall k :: k in r <==> k in s || exists b :: b in brands && k == BrandKey(b))
      && (forall k :: k in s && (forall b :: b in brands ==> k != BrandKey(b)) ==> r[k] == s[k])
  {
    if brands != [] {
      var init, last := brands[..|brands| - 1], brands[|brands| - 1];
      SetBrandTogglesFacts(s, init, v);
      var r0 := SetBrandToggles(s, init, v);
      var r := r0[BrandKey(last) := Flag(v)];
      assert SetBrandToggles(s, brands, v) == r;
      assert brands == init + [last];
      forall k | k in r
        ensures k in s || exists b :: b in brands && k == BrandKey(b)
      {
        if k !in r0 {
          assert k == BrandKey(last);
        }
      }
    }
  }

  /** The state after the select-all button. */
  function SelectAllBrandsState(s: State, brands: seq<string>): State {
    var v := !AllBrandsChecked(s, brands);
    SetBrandToggles(s, brands, v)[BrandsAllSelectedKey := Flag(v)]
  }

  /** `enabled_brands`. */
  function EnabledBrands(s: State, brands: seq<string>): set<string> {
    set b | b in brands && On(s, BrandKey(b))
  }

  lemma BrandKeyIsNotFlag(b: string)
    ensures BrandKey(b) != BrandsAllSelectedKey
  {
    assert BrandKey(b)[0] != BrandsAllSelectedKey[0];
  }

  /**
   * Select-all sets every brand toggle to `not (all on and at least one brand)` and records that value;
   * afterwards all brands are checked exactly when that value is true and there is a brand, and then
   * every brand is enabled.
   */
  lemma SelectAllBrandsFlips(s: State, brands: seq<string>)
    ensures var v := !AllBrandsChecked(s, brands);
      && (forall b :: b in brands ==> BrandKey(b) in SelectAllBrandsState(s, brands) && SelectAllBrandsState(s, brands)[BrandKey(b)] == Flag(v))
      && SelectAllBrandsState(s, brands)[BrandsAllSelectedKey] == Flag(v)
      && (AllBrandsChecked(SelectAllBrandsState(s, brands), brands) <==> v && |brands| > 0)
      && EnabledBrands(SelectAllBrandsState(s, brands), brands) == (if v then set b | b in brands else {})
  {
    var v := !AllBrandsChecked(s, brands);
    var r := SelectAllBrandsState(s, brands);
    SetBrandTogglesFacts(s, brands, v);
    forall b | b in brands
      ensures r[BrandKey(b)] == Flag(v)
    {
      BrandKeyIsNotFlag(b);
    }
  }

  /** Some brand is enabled exactly when some brand's toggle is on. */
  lemma EnabledBrandsNonEmpty(s: State, brands: seq<string>)
    ensures |EnabledBrands(s, brands)| > 0 <==> exists b :: b in brands && On(s, BrandKey(b))
  {
    if exists b :: b in brands && On(s, BrandKey(b)) {
      var b :| b in brands && On(s, BrandKey(b));
      assert b in EnabledBrands(s, brands);
    }
  }

  // ---------------------------------------------------------------------------------------------
  // Lists kept in step with a toggle (app/main.py:264-270 and 365-368)

  /** Make membership of `x` equal `on`: append when it is turned on, remove it when it is turned off. */
  function Toggle(l: seq<string>, x: string, on: bool): seq<string> {
    if on == (x in l) then l
    else if on then l + [x]
    else RemoveFirst(l, x)
  }

  /** After a toggle `x` is in the list exactly when `on`; other elements keep their membership; no duplicate is created. */
  lemma ToggleFacts(l: seq<string>, x: string, on: bool, y: string)
    requires NoDup(l)
    ensures NoDup(Toggle(l, x, on))
    ensures x in Toggle(l, x, on) <==> on
    ensures y != x ==> (y in Toggle(l, x, on) <==> y in l)
    ensures on == (x in l) ==> Toggle(l, x, on) == l
  {
    if on != (x in l) {
      if !on {
        RemoveFirstMembers(l, x, y);
      }
    }
  }

  // ---------------------------------------------------------------------------------------------
  // Category toggles (app/main.py:197-223)

  /** The defaults one category gets: its toggle from membership, six scrape flags, a select-all flag. */
  function InitCategory(s: State, enabled: seq<string>, cat: string): State {
    SetDefault(SiteDefaults(SetDefault(s, CategoryKey(cat), Flag(cat in enabled)), cat, |AllWebsites|), SelectAllSitesKey(cat), Flag(false))
  }

  function SiteDefaults(s: State, cat: string, n: nat): State
    requires n <= |AllWebsites|
  {
    if n == 0 then s else SetDefault(SiteDefaults(s, cat, n - 1), SiteScrapeKey(cat, AllWebsites[n - 1]), Flag(false))
  }

  lemma {:induction false} SiteDefaultsFacts(s: State, cat: string, n: nat)
    requires n <= |AllWebsites|
    ensures forall k :: k in s ==> k in SiteDefaults(s, cat, n) && SiteDefaults(s, cat, n)[k] == s[k]
    ensures forall i :: 0 <= i < n ==> SiteScrapeKey(cat, AllWebsites[i]) in SiteDefaults(s, cat, n)
    ensures forall k :: k in SiteDefaults(s, cat, n) ==> k in s || exists i :: 0 <= i < n && k == SiteScrapeKey(cat, AllWebsites[i])
    ensures forall i :: 0 <= i < n && SiteScrapeKey(cat, AllWebsites[i]) !in s ==> SiteDefaults(s, cat, n)[SiteScrapeKey(cat, AllWebsites[i])] == Flag(false)
  {
    if n > 0 {
      SiteDefaultsFacts(s, cat, n - 1);
    }
  }

  function InitCategories(s: State, enabled: seq<string>, cats: seq<string>): State {
    if cats == [] then s else InitCategory(InitCategories(s, enabled, cats[..|cats| - 1]), enabled, cats[|cats| - 1])
  }

  /** A key one category's defaults may add. */
  predicate IsCategoryDefaultKey(k: string, cat: string) {
    k == CategoryKey(cat) || k == SelectAllSitesKey(cat) || exists i :: 0 <= i < |AllWebsites| && k == SiteScrapeKey(cat, AllWebsites[i])
  }

  /** A category's toggle, scrape and select-all keys are three different kinds of key: their lengths differ. */
  lemma CategoryKeysDiffer(cat: string, site: string)
    requires site in AllWebsites
    ensures CategoryKey(cat) != SiteScrapeKey(cat, site)
    ensures CategoryKey(cat) != SelectAllSitesKey(cat)
    ensures SelectAllSitesKey(cat) != SiteScrapeKey(cat, site)
  {
    assert |SiteScrapeKey(cat, site)| == |cat| + |site| + 8;
    assert |site| == 2 || |site| == 3;
  }

  /**
   * One category's defaults keep every entry and add only that category's keys, all of them: a new
   * toggle is on exactly when the category is enabled, new scrape and select-all flags are off.
   */
  lemma InitCategoryFacts(s: State, enabled: seq<string>, cat: string)
    ensures forall k :: k in s ==> k in InitCategory(s, enabled, cat) && InitCategory(s, enabled, cat)[k] == s[k]
    ensures CategoryKey(cat) in InitCategory(s, enabled, cat) && SelectAllSitesKey(cat) in InitCategory(s, enabled, cat)
    ensures forall i :: 0 <= i < |AllWebsites| ==> SiteScrapeKey(cat, AllWebsites[i]) in InitCategory(s, enabled, cat)
    ensures forall k :: k in InitCategory(s, enabled, cat) ==> k in s || IsCategoryDefaultKey(k, cat)
    ensures CategoryKey(cat) !in s ==> InitCategory(s, enabled, cat)[CategoryKey(cat)] == Flag(cat in enabled)
    ensures SelectAllSitesKey(cat) !in s ==> InitCategory(s, enabled, cat)[SelectAllSitesKey(cat)] == Flag(false)
    ensures forall i :: 0 <= i < |AllWebsites| && SiteScrapeKey(cat, AllWebsites[i]) !in s ==>
      InitCategory(s, enabled, cat)[SiteScrapeKey(cat, AllWebsites[i])] == Flag(false)
  {
    var s1 := SetDefault(s, CategoryKey(cat), Flag(cat in enabled));
    var s2 := SiteDefaults(s1, cat, |AllWebsites|);
    SiteDefaultsFacts(s1, cat, |AllWebsites|);
    forall i | 0 <= i < |AllWebsites|
      ensures CategoryKey(cat) != SiteScrapeKey(cat, AllWebsites[i]) && SelectAllSitesKey(cat) != SiteScrapeKey(cat, AllWebsites[i])
    {
      CategoryKeysDiffer(cat, AllWebsites[i]);
    }
    CategoryKeysDiffer(cat, AllWebsites[0]);
    assert SelectAllSitesKey(cat) !in s ==> SelectAllSitesKey(cat) !in s2;
  }

  /** The value a category's defaults give one of its keys when the key was missing. */
  function CategoryDefault(k: string, cat: string, enabled: seq<string>): Value {
    if k == CategoryKey(cat) then Flag(cat in enabled) else Flag(false)
  }

  /** No default key of one category of the list is a default key of another. */
  ghost predicate KeysApart(cats: seq<string>) {
    forall c, c', k :: c in cats && c' in cats && IsCategoryDefaultKey(k, c) && IsCategoryDefaultKey(k, c') ==> c == c'
  }

  lemma {:induction false} InitCategoriesDefaults(s: State, enabled: seq<string>, cats: seq<string>)
    requires KeysApart(cats)
    ensures forall c, k :: c in cats && IsCategoryDefaultKey(k, c) && k !in s ==>
      k in InitCategories(s, enabled, cats) && InitCategories(s, enabled, cats)[k] == CategoryDefault(k, c, enabled)
  {
    if cats != [] {
      var init := cats[..|cats| - 1];
      var last := cats[|cats| - 1];
      assert forall c :: c in init ==> c in cats;
      InitCategoriesDefaults(s, enabled, init);
      InitCategoriesFacts(s, enabled, init);
      var before := InitCategories(s, enabled, init);
      InitCategoryFacts(before, enabled, last);
      forall c, k | c in cats && IsCategoryDefaultKey(k, c) && k !in s
        ensures k in InitCategories(s, enabled, cats) && InitCategories(s, enabled, cats)[k] == CategoryDefault(k, c, enabled)
      {
        if c != last {
          assert c in init;
        } else if k in before {
          var c' :| c' in init && IsCategoryDefaultKey(k, c');
          assert c' in cats;
        } else {
          if k != CategoryKey(c) && k != SelectAllSitesKey(c) {
            var i :| 0 <= i < |AllWebsites| && k == SiteScrapeKey(c, AllWebsites[i]);
          }
        }
      }
    }
  }

  /**
   * When no two categories share a default key, every category's missing keys get their defaults:
   * the toggle is on exactly when the category is enabled, the scrape and select-all flags are off.
   */
  lemma InitCategoriesValues(s: State, enabled: seq<string>, cats: seq<string>, c: string)
    requires KeysApart(cats) && c in cats
    ensures CategoryKey(c) !in s ==>
      CategoryKey(c) in InitCategories(s, enabled, cats) && InitCategories(s, enabled, cats)[CategoryKey(c)] == Flag(c in enabled)
    ensures SelectAllSitesKey(c) !in s ==>
      SelectAllSitesKey(c) in InitCategories(s, enabled, cats) && InitCategories(s, enabled, cats)[SelectAllSitesKey(c)] == Flag(false)
    ensures forall i :: 0 <= i < |AllWebsites| && SiteScrapeKey(c, AllWebsites[i]) !in s ==>
      SiteScrapeKey(c, AllWebsites[i]) in InitCategories(s, enabled, cats) && InitCategories(s, enabled, cats)[SiteScrapeKey(c, AllWebsites[i])] == Flag(false)
  {
    InitCategoriesDefaults(s, enabled, cats);
    CategoryKeysDiffer(c, AllWebsites[0]);
    assert IsCategoryDefaultKey(CategoryKey(c), c) && IsCategoryDefaultKey(SelectAllSitesKey(c), c);
    forall i | 0 <= i < |AllWebsites|
      ensures IsCategoryDefaultKey(SiteScrapeKey(c, AllWebsites[i]), c)
      ensures CategoryKey(c) != SiteScrapeKey(c, AllWebsites[i])
    {
      CategoryKeysDiffer(c, AllWebsites[i]);
    }
  }

  /** Category defaults keep every existing entry and give every category its toggle, select-all and scrape keys. */
  lemma {:induction false} InitCategoriesFacts(s: State, enabled: seq<string>, cats: seq<string>)
    ensures forall k :: k in s ==> k in InitCategories(s, enabled, cats) && InitCategories(s, enabled, cats)[k] == s[k]
    ensures forall c :: c in cats ==> CategoryKey(c) in InitCategories(s, enabled, cats) && SelectAllSitesKey(c) in InitCategories(s, enabled, cats)
    ensures forall c, i :: c in cats && 0 <= i < |AllWebsites| ==> SiteScrapeKey(c, AllWebsites[i]) in InitCategories(s, enabled, cats)
    ensures forall k :: k in InitCategories(s, enabled, cats) ==> k in s || exists c :: c in cats && IsCategoryDefaultKey(k, c)
  {
    if cats != [] {
      var init := cats[..|cats| - 1];
      var last := cats[|cats| - 1];
      InitCategoriesFacts(s, enabled, init);
      var before := InitCategories(s, enabled, init);
      var r := InitCategories(s, enabled, cats);
      assert r == InitCategory(before, enabled, last);
      InitCategoryFacts(before, enabled, last);
      forall c | c in cats
        ensures CategoryKey(c) in r && SelectAllSitesKey(c) in r
        ensures forall i :: 0 <= i < |AllWebsites| ==> SiteScrapeKey(c, AllWebsites[i]) in r
      {
        if c != last {
          assert c in init;
        }
      }
      forall k | k in r
        ensures k in s || exists c :: c in cats && IsCategoryDefaultKey(k, c)
      {
        if k in before && k !in s {
          var c :| c in init && IsCategoryDefaultKey(k, c);
          assert c in cats;
        }
      }
    }
  }

  /** `all(category_states) and len(categories) > 0`. */
  predicate AllCategoriesChecked(s: State, cats: seq<string>) {
    (forall c :: c in cats ==> On(s, CategoryKey(c))) && |cats| > 0
  }

  function SetCategoryToggles(s: State, cats: seq<string>, v: bool): State {
    if cats == [] then s else SetCategoryToggles(s, cats[..|cats| - 1], v)[CategoryKey(cats[|cats| - 1]) := Flag(v)]
  }

  /** The toggles of the listed categories are set to `v`; no other key is added or changed. */
  lemma {:induction false} SetCategoryTogglesFacts(s: State, cats: seq<string>, v: bool)
    ensures var r := SetCategoryToggles(s, cats, v);
      && (forall c :: c in cats ==> CategoryKey(c) in r && r[CategoryKey(c)] == Flag(v))
      && (forall k :: k in r <==> k in s || exists c :: c in cats && k == CategoryKey(c))
      && (forall k :: k in s && (forall c :: c in cats ==> k != CategoryKey(c)) ==> r[k] == s[k])
  {
    if cats != [] {
      var init, last := cats[..|cats| - 1], cats[|cats| - 1];
      SetCategoryTogglesFacts(s, init, v);
      var r0 := SetCategoryToggles(s, init, v);
      var r := r0[CategoryKey(last) := Flag(v)];
      assert SetCategoryToggles(s, cats, v) == r;
      assert cats == init + [last];
      forall k | k in r
        ensures k in s || exists c :: c in cats && k == CategoryKey(c)
      {
        if k !in r0 {
          assert k == CategoryKey(last);
        }
      }
    }
  }

  /** The state after the category select-all button. */
  function SelectAllCategoriesState(s: State, cats: seq<string>): State {
    var v := !AllCategoriesChecked(s, cats);
    var s1 := s[EnabledCategoriesKey := Names(if v then cats else [])];
    SetCategoryToggles(s1, cats, v)[CatAllSelectedKey := Flag(v)]
  }

  lemma CategoryKeyIsNotFixed(c: string)
    ensures CategoryKey(c) != EnabledCategoriesKey && CategoryKey(c) != CatAllSelectedKey && CategoryKey(c) != SitesByCategoryKey
  {
    assert CategoryKey(c)[0] == 't';
  }

  /**
   * Category select-all: every toggle and the recorded flag become `not (all on and at least one category)`,
   * the enabled list becomes the whole category list or empty accordingly, so each toggle agrees with
   * membership in the enabled list.
   */
  lemma SelectAllCategoriesFacts(s: State, cats: seq<string>)
    requires NoDup(cats)
    ensures var v := !AllCategoriesChecked(s, cats);
      var r := SelectAllCategoriesState(s, cats);
      && EnabledCategoriesKey in r && r[EnabledCategoriesKey] == Names(if v then cats else [])
      && r[CatAllSelectedKey] == Flag(v)
      && (forall c :: c in cats ==> CategoryKey(c) in r && r[CategoryKey(c)] == Flag(v) && (On(r, CategoryKey(c)) <==> c in r[EnabledCategoriesKey].names))
      && (WellTyped(s) ==> WellTyped(r))
  {
    var v := !AllCategoriesChecked(s, cats);
    var s1 := s[EnabledCategoriesKey := Names(if v then cats else [])];
    SetCategoryTogglesFacts(s1, cats, v);
    forall c | c in cats
      ensures SetCategoryToggles(s1, cats, v)[CatAllSelectedKey := Flag(v)][CategoryKey(c)] == Flag(v)
    {
      CategoryKeyIsNotFixed(c);
    }
    forall c | c in cats
      ensures CategoryKey(c) != EnabledCategoriesKey && CategoryKey(c) != SitesByCategoryKey
    {
      CategoryKeyIsNotFixed(c);
    }
  }

  // ---------------------------------------------------------------------------------------------
  // Price bands (app/main.py:293-298, 332-339)

  /** The band a new category or the add button starts with. */
  function DefaultBand(lo: real, hi: real): (b: Band)
    ensures b.strategy == StrategyOptions[0] && b.margin == 20.0
    ensures b.min == lo && b.max == hi
  {
    Band(lo, hi, "None", 20.0)
  }

  // ---------------------------------------------------------------------------------------------
  // Site selection (app/main.py:351-380)

  /** The site list after the first `n` checkboxes; `ticked[i]` is what box `i` returns. */
  function SyncSites(l: seq<string>, ticked: seq<bool>, n: nat): seq<string>
    requires |ticked| == |AllWebsites| && n <= |AllWebsites|
  {
    if n == 0 then l else Toggle(SyncSites(l, ticked, n - 1), AllWebsites[n - 1], ticked[n - 1])
  }

  /** `cat_selected_sites` after the first `n` boxes. */
  function TickedSites(ticked: seq<bool>, n: nat): seq<string>
    requires |ticked| == |AllWebsites| && n <= |AllWebsites|
  {
    if n == 0 then [] else TickedSites(ticked, n - 1) + (if ticked[n - 1] then [AllWebsites[n - 1]] else [])
  }

  lemma AllWebsitesDistinct()
    ensures NoDup(AllWebsites)
  {
  }

  /**
   * After the checkbox loop, a site is in the list exactly when its box is ticked, the list has no
   * duplicates and holds only sites, and the returned sites are exactly the ticked ones.
   */
  lemma {:induction false} SyncSitesFacts(l: seq<string>, ticked: seq<bool>, n: nat)
    requires |ticked| == |AllWebsites| && n <= |AllWebsites|
    requires IsSiteList(l)
    ensures IsSiteList(SyncSites(l, ticked, n))
    ensures forall i :: 0 <= i < n ==> (AllWebsites[i] in SyncSites(l, ticked, n) <==> ticked[i])
    ensures forall i :: n <= i < |AllWebsites| ==> (AllWebsites[i] in SyncSites(l, ticked, n) <==> AllWebsites[i] in l)
    ensures forall x :: x in TickedSites(ticked, n) <==> exists i :: 0 <= i < n && ticked[i] && x == AllWebsites[i]
  {
    if n > 0 {
      SyncSitesFacts(l, ticked, n - 1);
      var before := SyncSites(l, ticked, n - 1);
      var site := AllWebsites[n - 1];
      AllWebsitesDistinct();
      forall y
        ensures y != site ==> (y in SyncSites(l, ticked, n) <==> y in before)
        ensures site in SyncSites(l, ticked, n) <==> ticked[n - 1]
        ensures NoDup(SyncSites(l, ticked, n))
      {
        ToggleFacts(before, site, ticked[n - 1], y);
      }
      forall i | 0 <= i < |AllWebsites| && i != n - 1
        ensures AllWebsites[i] != site
      {
      }
    }
  }

  /** A site list holding every site. */
  lemma {:induction false} SetOfNoDup<T>(l: seq<T>)
    requires NoDup(l)
    ensures |set x | x in l| == |l|
  {
    if l != [] {
      var init := l[..|l| - 1];
      assert forall i, j :: 0 <= i < j < |init| ==> init[i] == l[i] && init[j] == l[j];
      SetOfNoDup(init);
      assert (set x | x in l) == (set x | x in init) + {l[|l| - 1]};
      assert l[|l| - 1] !in init;
    }
  }

  lemma SubsetCard<T>(a: set<T>, b: set<T>)
    requires a <= b
    ensures |a| <= |b|
    ensures |a| == |b| ==> a == b
  {
    var d := b - a;
    assert a * b == a && a + b == b && a - b == {};
    assert |d| + |a - b| + |a * b| == |a + b|;
    if a != b {
      var x :| x in b && x !in a;
      assert x in d;
    }
  }

  /** For a site list, "as many sites as `all_websites`" (the select-all test) means "every site selected". */
  lemma AllCheckedMeansEverySite(l: seq<string>)
    requires IsSiteList(l)
    ensures |l| == |AllWebsites| <==> forall site :: site in AllWebsites ==> site in l
  {
    AllWebsitesDistinct();
    SetOfNoDup(l);
    SetOfNoDup(AllWebsites);
    var a := set x | x in l;
    var b := set x | x in AllWebsites;
    assert a <= b;
    SubsetCard(a, b);
    if forall site :: site in AllWebsites ==> site in l {
      assert b <= a;
      assert a == b;
    }
    if |l| == |AllWebsites| {
      assert a == b;
      forall site | site in AllWebsites ensures site in l {
        assert site in b;
      }
    }
  }

  /** The site list the select-all button leaves: empty when all six were selected, all six otherwise. */
  function SelectAllSites(l: seq<string>): seq<string> {
    if |l| == |AllWebsites| then [] else AllWebsites
  }

  /** Select-all clears a site list that holds every site and otherwise selects all six, so the result is again a site list. */
  lemma SelectAllSitesFacts(l: seq<string>)
    requires IsSiteList(l)
    ensures IsSiteList(SelectAllSites(l))
    ensures SelectAllSites(l) == (if forall site :: site in AllWebsites ==> site in l then [] else AllWebsites)
  {
    AllWebsitesDistinct();
    AllCheckedMeansEverySite(l);
  }

  // ---------------------------------------------------------------------------------------------
  // The rules that write the structured entries keep them well typed

  /** Bringing `enabled_categories` into step with a toggle keeps it duplicate-free. */
  lemma ToggleKeepsWellTyped(s: State, cat: string, on: bool)
    requires WellTyped(s) && EnabledCategoriesKey in s
    ensures WellTyped(s[EnabledCategoriesKey := Names(Toggle(s[EnabledCategoriesKey].names, cat, on))])
  {
    ToggleFacts(s[EnabledCategoriesKey].names, cat, on, cat);
  }

  /** Replacing one category's site list by a site list keeps the site map well typed. */
  lemma SetSiteListKeepsWellTyped(s: State, cat: string, l: seq<string>)
    requires WellTyped(s) && SitesByCategoryKey in s && IsSiteList(l)
    ensures WellTyped(s[SitesByCategoryKey := SitesByCategory(s[SitesByCategoryKey].sites[cat := l])])
  {
  }

  /** The checkbox loop keeps the site map well typed. */
  lemma SyncSitesKeepsWellTyped(s: State, cat: string, ticked: seq<bool>)
    requires |ticked| == |AllWebsites|
    requires WellTyped(s) && SitesByCategoryKey in s && cat in s[SitesByCategoryKey].sites
    ensures WellTyped(s[SitesByCategoryKey := SitesByCategory(s[SitesByCategoryKey].sites[cat :=
      SyncSites(s[SitesByCategoryKey].sites[cat], ticked, |AllWebsites|)])])
  {
    var l := s[SitesByCategoryKey].sites[cat];
    SyncSitesFacts(l, ticked, |AllWebsites|);
    SetSiteListKeepsWellTyped(s, cat, SyncSites(l, ticked, |AllWebsites|));
  }

  /** The select-all-websites button keeps the site map well typed. */
  lemma SelectAllSitesKeepsWellTyped(s: State, cat: string)
    requires WellTyped(s) && SitesByCategoryKey in s && cat in s[SitesByCategoryKey].sites
    ensures WellTyped(s[SitesByCategoryKey := SitesByCategory(s[SitesByCategoryKey].sites[cat :=
      SelectAllSites(s[SitesByCategoryKey].sites[cat])])])
  {
    var l := s[SitesByCategoryKey].sites[cat];
    SelectAllSitesFacts(l);
    SetSiteListKeepsWellTyped(s, cat, SelectAllSites(l));
  }

  /** No default key of a category is a structured entry. */
  lemma CategoryDefaultKeyIsNotStructured(k: string, c: string)
    requires IsCategoryDefaultKey(k, c)
    ensures k != EnabledCategoriesKey && k != SitesByCategoryKey
  {
    if k == CategoryKey(c) {
      assert k[0] == 't';
    } else if k == SelectAllSitesKey(c) {
      assert k[0] == 'w';
    } else {
      var i :| 0 <= i < |AllWebsites| && k == SiteScrapeKey(c, AllWebsites[i]);
      assert k[|k| - 1] == 'e';
    }
  }

  /** The per-category defaults keep the structured entries well typed. */
  lemma InitCategoriesKeepsWellTyped(s: State, enabled: seq<string>, cats: seq<string>)
    requires WellTyped(s)
    ensures WellTyped(InitCategories(s, enabled, cats))
  {
    var r := InitCategories(s, enabled, cats);
    InitCategoriesFacts(s, enabled, cats);
    forall k | k in r && (k == EnabledCategoriesKey || k == SitesByCategoryKey)
      ensures k in s
    {
      if k !in s {
        var c :| c in cats && IsCategoryDefaultKey(k, c);
        CategoryDefaultKeyIsNotStructured(k, c);
      }
    }
  }

  /** The brand select-all button, and recording `brands_all_selected`, keep the structured entries well typed. */
  lemma SelectAllBrandsKeepsWellTyped(s: State, brands: seq<string>)
    requires WellTyped(s)
    ensures WellTyped(SelectAllBrandsState(s, brands))
    ensures WellTyped(s[BrandsAllSelectedKey := Flag(AllBrandsChecked(s, brands))])
  {
    var v := !AllBrandsChecked(s, brands);
    var r := SetBrandToggles(s, brands, v);
    SetBrandTogglesFacts(s, brands, v);
    forall k | k in r && (k == EnabledCategoriesKey || k == SitesByCategoryKey)
      ensures k in s && r[k] == s[k]
    {
      forall b | b in brands ensures k != BrandKey(b) {
        assert BrandKey(b)[0] == 't';
      }
    }
  }

  /** Creating, adding to or deleting from a band list keeps the structured entries well typed. */
  lemma BandsKeepWellTyped(s: State, cat: string, v: Value)
    requires WellTyped(s)
    ensures WellTyped(s[BandsKey(cat) := v])
  {
    assert BandsKey(cat)[0] == 'b';
  }

  // ---------------------------------------------------------------------------------------------
  // The start button (app/main.py:389-393)

  const MissingSitesByCategory: string := "KeyError: 'selected_websites_by_cat'"
  const MissingEnabledCategories: string := "KeyError: 'enabled_categories'"

  /**
   * `requirements_met`, evaluated left to right with short-circuit; a missing key raises, but only
   * when the comprehension or generator that reads it has an element to run on.
   */
  function RequirementsMet(s: State, brands: seq<string>, cats: seq<string>): Result<bool, string>
    requires WellTyped(s)
  {
    if |EnabledBrands(s, brands)| == 0 || cats == [] then Success(false)
    else if EnabledCategoriesKey !in s then Failure(MissingEnabledCategories)
    else
      var enabled := s[EnabledCategoriesKey].names;
      if !exists c :: c in cats && c in enabled then Success(false)
      else if SitesByCategoryKey !in s then Failure(MissingSitesByCategory)
      else
        var sites := s[SitesByCategoryKey].sites;
        Success(exists c :: c in enabled && c in sites && sites[c] != [])
  }

  /**
   * Start is enabled exactly when some brand is enabled, some current category is enabled and some
   * enabled category has a non-empty site list; the check fails only on a missing key.
   */
  lemma RequirementsMetIff(s: State, brands: seq<string>, cats: seq<string>)
    requires WellTyped(s)
    ensures RequirementsMet(s, brands, cats) == Success(true) <==>
      && (exists b :: b in brands && On(s, BrandKey(b)))
      && EnabledCategoriesKey in s
      && (exists c :: c in cats && c in s[EnabledCategoriesKey].names)
      && SitesByCategoryKey in s
      && (exists c :: c in s[EnabledCategoriesKey].names && c in s[SitesByCategoryKey].sites && s[SitesByCategoryKey].sites[c] != [])
    ensures RequirementsMet(s, brands, cats).Failure? ==>
      && (exists b :: b in brands && On(s, BrandKey(b)))
      && cats != []
      && (EnabledCategoriesKey !in s || SitesByCategoryKey !in s)
  {
    EnabledBrandsNonEmpty(s, brands);
  }

  // ---------------------------------------------------------------------------------------------
  // The session object

  /** The site list of `cat` in `s`, `[]` when there is no site map or no list for `cat`. */
  function SiteListOf(s: State, cat: string): seq<string>
    requires SitesByCategoryKey in s ==> s[SitesByCategoryKey].SitesByCategory?
  {
    if SitesByCategoryKey in s && cat in s[SitesByCategoryKey].sites then s[SitesByCategoryKey].sites[cat] else []
  }

  /**
   * The site map with an empty list for `cat` added if missing, the map itself added first if missing:
   * an existing list is kept, every other category's list and every other key are unchanged, and
   * well-typedness is kept.
   */
  function WithSiteList(s: State, cat: string): (r: State)
    requires SitesByCategoryKey in s ==> s[SitesByCategoryKey].SitesByCategory?
    ensures SitesByCategoryKey in r && r[SitesByCategoryKey].SitesByCategory? && cat in r[SitesByCategoryKey].sites
    ensures r[SitesByCategoryKey].sites[cat] == SiteListOf(s, cat)
    ensures forall c :: c != cat ==> (c in r[SitesByCategoryKey].sites <==> SitesByCategoryKey in s && c in s[SitesByCategoryKey].sites)
    ensures forall c :: c != cat && c in r[SitesByCategoryKey].sites ==> r[SitesByCategoryKey].sites[c] == s[SitesByCategoryKey].sites[c]
    ensures r.Keys == s.Keys + {SitesByCategoryKey}
    ensures forall k :: k in s && k != SitesByCategoryKey ==> r[k] == s[k]
    ensures SitesByCategoryKey in s && cat in s[SitesByCategoryKey].sites ==> r == s
    ensures WellTyped(s) ==> WellTyped(r)
  {
    var s1 := SetDefault(s, SitesByCategoryKey, SitesByCategory(map[]));
    var m := s1[SitesByCategoryKey].sites;
    if cat in m then s1 else s1[SitesByCategoryKey := SitesByCategory(m[cat := []])]
  }

  /** `st.session_state`, updated in place by the app's rules. */
  class SessionState {
    var state: State

    constructor ()
      ensures state == map[]
    {
      state := map[];
    }

    /** The start-up defaults (app/main.py:82-88). */
    method EnsureDefaults()
      modifies this
      ensures state == WithDefaults(old(state))
    {
      var flags := DefaultFlags;
      for i := 0 to |flags|
        invariant state == FlagDefaults(old(state), flags[..i])
      {
        var k := flags[i];
        if k !in state {
          state := state[k := Flag(false)];
        }
        assert flags[..i + 1][..i] == flags[..i];
      }
      assert flags[..|flags|] == flags;
      if FuzzyThresholdKey !in state {
        state := state[FuzzyThresholdKey := Int(85)];
      }
      if EnabledCategoriesKey !in state {
        state := state[EnabledCategoriesKey := Names([])];
      }
    }

    /** One `for key in list(st.session_state.keys())` pass that pops the keys `drop` accepts. */
    method PopWhere(drop: string -> bool)
      modifies this
      ensures state == Without(old(state), drop)
    {
      var keys := state.Keys;
      while keys != {}
        invariant keys <= old(state).Keys
        invariant state == map k | k in old(state) && (k in keys || !drop(k)) :: old(state)[k]
        decreases keys
      {
        var key :| key in keys;
        if drop(key) {
          state := state - {key};
        }
        keys := keys - {key};
      }
    }

    /** `Reset All` (app/main.py:141-158): pop the reset keys, clear the flags and the site map, pop the `bands_` keys. */
    method Reset()
      modifies this
      ensures state == AfterReset(old(state))
    {
      PopWhere(IsResetKey);
      state := state[BrandsAllSelectedKey := Flag(false)];
      state := state[CatAllSelectedKey := Flag(false)];
      if SitesByCategoryKey in state {
        state := state[SitesByCategoryKey := SitesByCategory(map[])];
      }
      PopWhere(IsBandsKey);
    }

    /** The brand select-all button (app/main.py:166-176). */
    method SelectAllBrands(brands: seq<string>)
      modifies this
      ensures state == SelectAllBrandsState(old(state), brands)
    {
      var newState := !AllBrandsChecked(state, brands);
      for i := 0 to |brands|
        invariant state == SetBrandToggles(old(state), brands[..i], newState)
      {
        state := state[BrandKey(brands[i]) := Flag(newState)];
        assert brands[..i + 1][..i] == brands[..i];
      }
      assert brands[..|brands|] == brands;
      state := state[BrandsAllSelectedKey := Flag(newState)];
    }

    /** `brands_all_selected` recomputed after the checkboxes (app/main.py:186-187). */
    method RecordBrandsAllSelected(brands: seq<string>)
      modifies this
      ensures state == old(state)[BrandsAllSelectedKey := Flag(AllBrandsChecked(old(state), brands))]
    {
      state := state[BrandsAllSelectedKey := Flag(AllBrandsChecked(state, brands))];
    }

    /** The per-category defaults (app/main.py:197-204); the enabled list is read once, as no default touches it. */
    method InitCategoryKeys(cats: seq<string>)
      requires EnabledCategoriesKey in state && state[EnabledCategoriesKey].Names?
      modifies this
      ensures state == InitCategories(old(state), old(state)[EnabledCategoriesKey].names, cats)
    {
      var enabled := state[EnabledCategoriesKey].names;
      for i := 0 to |cats|
        invariant state == InitCategories(old(state), enabled, cats[..i])
      {
        InitOneCategory(cats[i], enabled);
        assert cats[..i + 1][..i] == cats[..i];
      }
      assert cats[..|cats|] == cats;
    }

    /** The body of that loop for one category. */
    method InitOneCategory(cat: string, enabled: seq<string>)
      modifies this
      ensures state == InitCategory(old(state), enabled, cat)
    {
      if CategoryKey(cat) !in state {
        state := state[CategoryKey(cat) := Flag(cat in enabled)];
      }
      ghost var toggled := state;
      for j := 0 to |AllWebsites|
        invariant state == SiteDefaults(toggled, cat, j)
      {
        var key := SiteScrapeKey(cat, AllWebsites[j]);
        if key !in state {
          state := state[key := Flag(false)];
        }
      }
      if SelectAllSitesKey(cat) !in state {
        state := state[SelectAllSitesKey(cat) := Flag(false)];
      }
    }

    /** The category select-all button (app/main.py:209-223). */
    method SelectAllCategories(cats: seq<string>)
      modifies this
      ensures state == SelectAllCategoriesState(old(state), cats)
    {
      var newState := !AllCategoriesChecked(state, cats);
      state := state[EnabledCategoriesKey := Names(if newState then cats else [])];
      ghost var s1 := state;
      for i := 0 to |cats|
        invariant state == SetCategoryToggles(s1, cats[..i], newState)
      {
        state := state[CategoryKey(cats[i]) := Flag(newState)];
        assert cats[..i + 1][..i] == cats[..i];
      }
      assert cats[..|cats|] == cats;
      state := state[CatAllSelectedKey := Flag(newState)];
    }

    /** One category toggle brought into step with `enabled_categories` (app/main.py:264-270). */
    method SyncCategoryToggle(cat: string, toggled: bool)
      requires EnabledCategoriesKey in state && state[EnabledCategoriesKey].Names?
      modifies this
      ensures state == old(state)[EnabledCategoriesKey := Names(Toggle(old(state)[EnabledCategoriesKey].names, cat, toggled))]
    {
      var enabled := state[EnabledCategoriesKey].names;
      if toggled != (cat in enabled) {
        if toggled {
          enabled := enabled + [cat];
        } else {
          enabled := RemoveFirst(enabled, cat);
        }
      }
      state := state[EnabledCategoriesKey := Names(enabled)];
    }

    /** A category's band list starts as one default band (app/main.py:293-297). */
    method EnsureBands(cat: string, lo: real, hi: real)
      modifies this
      ensures state == SetDefault(old(state), BandsKey(cat), BandList([DefaultBand(lo, hi)]))
    {
      if BandsKey(cat) !in state {
        state := state[BandsKey(cat) := BandList([DefaultBand(lo, hi)])];
      }
    }

    /** The delete buttons: the chosen band, if any, is popped (app/main.py:332-334). */
    method DeleteBand(cat: string, toDelete: Option<nat>)
      requires BandsKey(cat) in state && state[BandsKey(cat)].BandList?
      requires toDelete.Some? ==> toDelete.value < |state[BandsKey(cat)].bands|
      modifies this
      ensures toDelete.None? ==> state == old(state)
      ensures toDelete.Some? ==> state == old(state)[BandsKey(cat) := BandList(RemoveAt(old(state)[BandsKey(cat)].bands, toDelete.value))]
    {
      if toDelete.Some? {
        var bands := state[BandsKey(cat)].bands;
        state := state[BandsKey(cat) := BandList(RemoveAt(bands, toDelete.value))];
      }
    }

    /** The add button appends a default band (app/main.py:337-338). */
    method AddBand(cat: string, lo: real, hi: real)
      requires BandsKey(cat) in state && state[BandsKey(cat)].BandList?
      modifies this
      ensures state == old(state)[BandsKey(cat) := BandList(old(state)[BandsKey(cat)].bands + [DefaultBand(lo, hi)])]
    {
      var bands := state[BandsKey(cat)].bands;
      state := state[BandsKey(cat) := BandList(bands + [DefaultBand(lo, hi)])];
    }

    /** The site map and this category's list are created when missing (app/main.py:351-354). */
    method EnsureSiteList(cat: string)
      requires SitesByCategoryKey in state ==> state[SitesByCategoryKey].SitesByCategory?
      modifies this
      ensures state == WithSiteList(old(state), cat)
    {
      if SitesByCategoryKey !in state {
        state := state[SitesByCategoryKey := SitesByCategory(map[])];
      }
      var m := state[SitesByCategoryKey].sites;
      if cat !in m {
        state := state[SitesByCategoryKey := SitesByCategory(m[cat := []])];
      }
    }

    /** The six site checkboxes of one category; `ticked[i]` is what box `i` returns (app/main.py:356-370). */
    method SyncSiteCheckboxes(cat: string, ticked: seq<bool>) returns (selected: seq<string>)
      requires |ticked| == |AllWebsites|
      requires SitesByCategoryKey in state && state[SitesByCategoryKey].SitesByCategory? && cat in state[SitesByCategoryKey].sites
      modifies this
      ensures selected == TickedSites(ticked, |AllWebsites|)
      ensures state == old(state)[SitesByCategoryKey := SitesByCategory(old(state)[SitesByCategoryKey].sites[cat :=
        SyncSites(old(state)[SitesByCategoryKey].sites[cat], ticked, |AllWebsites|)])]
    {
      ghost var m0 := state[SitesByCategoryKey].sites;
      assert m0[cat := SyncSites(m0[cat], ticked, 0)] == m0;
      assert old(state)[SitesByCategoryKey := SitesByCategory(m0)] == old(state);
      selected := [];
      for i := 0 to |AllWebsites|
        invariant state == old(state)[SitesByCategoryKey := SitesByCategory(m0[cat := SyncSites(m0[cat], ticked, i)])]
        invariant selected == TickedSites(ticked, i)
      {
        var site := AllWebsites[i];
        var m := state[SitesByCategoryKey].sites;
        var l := m[cat];
        assert l == SyncSites(m0[cat], ticked, i);
        if ticked[i] && site !in l {
          state := state[SitesByCategoryKey := SitesByCategory(m[cat := l + [site]])];
        } else if !ticked[i] && site in l {
          state := state[SitesByCategoryKey := SitesByCategory(m[cat := RemoveFirst(l, site)])];
        }
        assert m[cat := Toggle(l, site, ticked[i])] == m0[cat := SyncSites(m0[cat], ticked, i + 1)];
        if ticked[i] {
          selected := selected + [site];
        }
      }
    }

    /** The select-all-websites button of one category (app/main.py:372-379). */
    method SelectAllWebsites(cat: string)
      requires SitesByCategoryKey in state && state[SitesByCategoryKey].SitesByCategory? && cat in state[SitesByCategoryKey].sites
      modifies this
      ensures state == old(state)[SitesByCategoryKey := SitesByCategory(old(state)[SitesByCategoryKey].sites[cat :=
        SelectAllSites(old(state)[SitesByCategoryKey].sites[cat])])]
    {
      var m := state[SitesByCategoryKey].sites;
      var allChecked := |m[cat]| == |AllWebsites|;
      if allChecked {
        state := state[SitesByCategoryKey := SitesByCategory(m[cat := []])];
      } else {
        state := state[SitesByCategoryKey := SitesByCategory(m[cat := AllWebsites])];
      }
    }
  }
}
