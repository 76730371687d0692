/** `load_selectors` in core/selectors.py, from the point where the YAML file has been read into a nested map. */
module Selectors {
  import opened Wrappers
  import opened Text

  /** The CSS selectors of one site and category, by field name. */
  type SelectorSet = map<string, string>

  /** The parsed configuration: site to category to selector set. */
  type Config = map<string, map<string, SelectorSet>>

  /** The text of the `ValueError` raised on a missing entry. */
  function NotFoundMessage(site: string, category: string): string {
    "Selectors for " + site + " - " + category + " not found in selectors.yaml"
  }

  /** `data[site][category]`, or the `ValueError` the `KeyError` is turned into. */
  function LoadSelectors(data: Config, site: string, category: string): (r: Result<SelectorSet, string>)
    ensures r.Success? <==> site in data && category in data[site]
    ensures r.Success? ==> r.value == data[site][category]
    ensures r.Failure? ==> r.error == NotFoundMessage(site, category)
  {
    if site in data && category in data[site] then Success(data[site][category])
    else Failure(NotFoundMessage(site, category))
  }

  /** The error message names both the site and the category requested. */
  lemma NotFoundMessageNamesBoth(site: string, category: string)
    ensures Contains(NotFoundMessage(site, category), site)
    ensures Contains(NotFoundMessage(site, category), category)
  {
    var msg := NotFoundMessage(site, category);
    var p := "Selectors for ";
    assert msg == p + site + (" - " + category + " not found in selectors.yaml");
    assert OccursAt(msg, site, |p|);
    assert msg == (p + site + " - ") + category + " not found in selectors.yaml";
    assert OccursAt(msg, category, |p + site + " - "|);
  }
}
