/** The crawl-target tables of core/brands_urls.py, as ordered lists of pairs (Python dicts keep insertion order). */
module BrandsUrls {
  import opened Wrappers
  import opened Text
  import opened Seqs
  import PadelNuestro

  /** Brand name to crawl-root URL, in table order. */
  type BrandUrls = seq<(string, string)>

  /** Category to its brand table, in table order. */
  type BrandTable = seq<(string, BrandUrls)>

  const PadelNuestroBrands: BrandTable := [
    ("padel-rackets", PadelNuestroRackets),
    ("padel-bags", PadelNuestroBags),
    ("padel-shoes", PadelNuestroShoes)
  ]

  const PadelNuestroRackets: BrandUrls := [
    ("Babolat", "https://www.padelnuestro.com/int/padel-rackets/babolat"),
    ("Bullpadel", "https://www.padelnuestro.com/int/padel-rackets/bullpadel"),
    ("Head", "https://www.padelnuestro.com/int/padel-rackets/head"),
    ("Lok", "https://www.padelnuestro.com/int/padel-rackets/lok"),
    ("Siux", "https://www.padelnuestro.com/int/padel-rackets/siux"),
    ("Starvie", "https://www.padelnuestro.com/int/padel-rackets/starvie"),
    ("Wilson", "https://www.padelnuestro.com/int/padel-rackets/wilson"),
    ("Adidas", "https://www.padelnuestro.com/int/padel-rackets/adidas")
  ]

  const PadelNuestroBags: BrandUrls := [
    ("Babolat", "https://www.padelnuestro.com/int/padel-bags/babolat"),
    ("Bullpadel", "https://www.padelnuestro.com/int/padel-bags/bullpadel"),
    ("Head", "https://www.padelnuestro.com/int/padel-bags/head"),
    ("Lok", "https://www.padelnuestro.com/int/padel-bags/lok"),
    ("Siux", "https://www.padelnuestro.com/int/padel-bags/siux"),
    ("Starvie", "https://www.padelnuestro.com/int/padel-bags/starvie"),
    ("Wilson", "https://www.padelnuestro.com/int/padel-bags/wilson"),
    ("Adidas", "https://www.padelnuestro.com/int/padel-bags/adidas")
  ]

  const PadelNuestroShoes: BrandUrls := [
    ("Babolat", "https://www.padelnuestro.com/int/padel-shoes/babolat"),
    ("Bullpadel", "https://www.padelnuestro.com/int/padel-shoes/bullpadel"),
    ("Head", "https://www.padelnuestro.com/int/padel-shoes/head"),
    ("Lok", "https://www.padelnuestro.com/int/padel-shoes/lok"),
    ("Siux", "https://www.padelnuestro.com/int/padel-shoes/siux"),
    ("Starvie", "https://www.padelnuestro.com/int/padel-shoes/starvie"),
    ("Wilson", "https://www.padelnuestro.com/int/padel-shoes/wilson"),
    ("Adidas", "https://www.padelnuestro.com/int/padel-shoes/adidas")
  ]

  const TennisWarehouseBrands: BrandTable := [
    ("tennis-racquets", [
      ("Babolat", "https://www.tenniswarehouse-europe.com/catpage-BABOLATRAC-EN.html"),
      ("Wilson", "https://www.tenniswarehouse-europe.com/catpage-WILSONRACS-EN.html"),
      ("Head", "https://www.tenniswarehouse-europe.com/catpage-HEADRAC-EN.html"),
      ("Tecnifibre", "https://www.tenniswarehouse-europe.com/catpage-TECRAC-EN.html"),
      ("Yonex", "https://www.tenniswarehouse-europe.com/catpage-YONEXRAC-EN.html"),
      ("Lacoste", "https://www.tenniswarehouse-europe.com/catpage-LRAC-EN.html")])
  ]

  const PadelNuestroBrandNames: seq<string> := ["Babolat", "Bullpadel", "Head", "Lok", "Siux", "Starvie", "Wilson", "Adidas"]

  function Keys<V>(t: seq<(string, V)>): (ks: seq<string>)
    ensures |ks| == |t| && forall i :: 0 <= i < |t| ==> ks[i] == t[i].0
  {
    seq(|t|, i requires 0 <= i < |t| => t[i].0)
  }

  function Values<K>(t: seq<(K, string)>): (vs: seq<string>)
    ensures |vs| == |t| && forall i :: 0 <= i < |t| ==> vs[i] == t[i].1
  {
    seq(|t|, i requires 0 <= i < |t| => t[i].1)
  }

  /** `table[category][brand]`, or `None` for a missing key. */
  function Lookup(table: BrandTable, category: string, brand: string): Option<string> {
    if table == [] then None
    else if table[0].0 == category then LookupBrand(table[0].1, brand)
    else Lookup(table[1..], category, brand)
  }

  function LookupBrand(brands: BrandUrls, brand: string): Option<string> {
    if brands == [] then None
    else if brands[0].0 == brand then Some(brands[0].1)
    else LookupBrand(brands[1..], brand)
  }

  const PadelNuestroPrefix: string := "https://www.padelnuestro.com/int/"

  /** The Padel Nuestro table has exactly the three categories, in this order, each with the same eight brands. */
  lemma PadelNuestroShape()
    ensures Keys(PadelNuestroBrands) == ["padel-rackets", "padel-bags", "padel-shoes"]
    ensures forall i :: 0 <= i < |PadelNuestroBrands| ==> Keys(PadelNuestroBrands[i].1) == PadelNuestroBrandNames
  {
  }

  /** The three Padel Nuestro categories are distinct, and so are the eight brand names. */
  lemma PadelNuestroNamesDistinct()
    ensures NoDup(Keys(PadelNuestroBrands)) && NoDup(PadelNuestroBrandNames)
  {
    PadelNuestroShape();
  }

  /** A Padel Nuestro URL is the site prefix, the category, a slash and the lower-cased brand. */
  lemma {:induction false} PadelNuestroUrls(i: nat, j: nat)
    requires i < |PadelNuestroBrands| && j < |PadelNuestroBrands[i].1|
    ensures PadelNuestroBrands[i].1[j].1 == PadelNuestroPrefix + PadelNuestroBrands[i].0 + "/" + Lower(PadelNuestroBrands[i].1[j].0)
  {
    if i == 0 {
      RacketsUrls(j);
    } else if i == 1 {
      BagsUrls(j);
    } else {
      ShoesUrls(j);
    }
  }

  lemma {:induction false} RacketsUrls(j: nat)
    requires j < 8
    ensures PadelNuestroRackets[j].1 == PadelNuestroPrefix + "padel-rackets" + "/" + Lower(PadelNuestroRackets[j].0)
  {
    if j == 0 {
      RacketsUrl0();
    } else if j == 1 {
      RacketsUrl1();
    } else if j == 2 {
      RacketsUrl2();
    } else if j == 3 {
      RacketsUrl3();
    } else if j == 4 {
      RacketsUrl4();
    } else if j == 5 {
      RacketsUrl5();
    } else if j == 6 {
      RacketsUrl6();
    } else {
      RacketsUrl7();
    }
  }

  lemma RacketsUrl0()
    ensures PadelNuestroRackets[0].1 == PadelNuestroPrefix + "padel-rackets" + "/" + Lower(PadelNuestroRackets[0].0)
  {
    assert Lower("Babolat") == "babolat";
  }

  lemma RacketsUrl1()
    ensures PadelNuestroRackets[1].1 == PadelNuestroPrefix + "padel-rackets" + "/" + Lower(PadelNuestroRackets[1].0)
  {
    assert Lower("Bullpadel") == "bullpadel";
  }

  lemma RacketsUrl2()
    ensures PadelNuestroRackets[2].1 == PadelNuestroPrefix + "padel-rackets" + "/" + Lower(PadelNuestroRackets[2].0)
  {
    assert Lower("Head") == "head";
  }

  lemma RacketsUrl3()
    ensures PadelNuestroRackets[3].1 == PadelNuestroPrefix + "padel-rackets" + "/" + Lower(PadelNuestroRackets[3].0)
  {
    assert Lower("Lok") == "lok";
  }

  lemma RacketsUrl4()
    ensures PadelNuestroRackets[4].1 == PadelNuestroPrefix + "padel-rackets" + "/" + Lower(PadelNuestroRackets[4].0)
  {
    assert Lower("Siux") == "siux";
  }

  lemma RacketsUrl5()
    ensures PadelNuestroRackets[5].1 == PadelNuestroPrefix + "padel-rackets" + "/" + Lower(PadelNuestroRackets[5].0)
  {
    assert Lower("Starvie") == "starvie";
  }

  lemma RacketsUrl6()
    ensures PadelNuestroRackets[6].1 == PadelNuestroPrefix + "padel-rackets" + "/" + Lower(PadelNuestroRackets[6].0)
  {
    assert Lower("Wilson") == "wilson";
  }

  lemma RacketsUrl7()
    ensures PadelNuestroRackets[7].1 == PadelNuestroPrefix + "padel-rackets" + "/" + Lower(PadelNuestroRackets[7].0)
  {
    assert Lower("Adidas") == "adidas";
  }

  lemma {:induction false} BagsUrls(j: nat)
    requires j < 8
    ensures PadelNuestroBags[j].1 == PadelNuestroPrefix + "padel-bags" + "/" + Lower(PadelNuestroBags[j].0)
  {
    if j == 0 {
      BagsUrl0();
    } else if j == 1 {
      BagsUrl1();
    } else if j == 2 {
      BagsUrl2();
    } else if j == 3 {
      BagsUrl3();
    } else if j == 4 {
      BagsUrl4();
    } else if j == 5 {
      BagsUrl5();
    } else if j == 6 {
      BagsUrl6();
    } else {
      BagsUrl7();
    }
  }

  lemma BagsUrl0()
    ensures PadelNuestroBags[0].1 == PadelNuestroPrefix + "padel-bags" + "/" + Lower(PadelNuestroBags[0].0)
  {
    assert Lower("Babolat") == "babolat";
  }

  lemma BagsUrl1()
    ensures PadelNuestroBags[1].1 == PadelNuestroPrefix + "padel-bags" + "/" + Lower(PadelNuestroBags[1].0)
  {
    assert Lower("Bullpadel") == "bullpadel";
  }

  lemma BagsUrl2()
    ensures PadelNuestroBags[2].1 == PadelNuestroPrefix + "padel-bags" + "/" + Lower(PadelNuestroBags[2].0)
  {
    assert Lower("Head") == "head";
  }

  lemma BagsUrl3()
    ensures PadelNuestroBags[3].1 == PadelNuestroPrefix + "padel-bags" + "/" + Lower(PadelNuestroBags[3].0)
  {
    assert Lower("Lok") == "lok";
  }

  lemma BagsUrl4()
    ensures PadelNuestroBags[4].1 == PadelNuestroPrefix + "padel-bags" + "/" + Lower(PadelNuestroBags[4].0)
  {
    assert Lower("Siux") == "siux";
  }

  lemma BagsUrl5()
    ensures PadelNuestroBags[5].1 == PadelNuestroPrefix + "padel-bags" + "/" + Lower(PadelNuestroBags[5].0)
  {
    assert Lower("Starvie") == "starvie";
  }

  lemma BagsUrl6()
    ensures PadelNuestroBags[6].1 == PadelNuestroPrefix + "padel-bags" + "/" + Lower(PadelNuestroBags[6].0)
  {
    assert Lower("Wilson") == "wilson";
  }

  lemma BagsUrl7()
    ensures PadelNuestroBags[7].1 == PadelNuestroPrefix + "padel-bags" + "/" + Lower(PadelNuestroBags[7].0)
  {
    assert Lower("Adidas") == "adidas";
  }

  lemma {:induction false} ShoesUrls(j: nat)
    requires j < 8
    ensures PadelNuestroShoes[j].1 == PadelNuestroPrefix + "padel-shoes" + "/" + Lower(PadelNuestroShoes[j].0)
  {
    if j == 0 {
      ShoesUrl0();
    } else if j == 1 {
      ShoesUrl1();
    } else if j == 2 {
      ShoesUrl2();
    } else if j == 3 {
      ShoesUrl3();
    } else if j == 4 {
      ShoesUrl4();
    } else if j == 5 {
      ShoesUrl5();
    } else if j == 6 {
      ShoesUrl6();
    } else {
      ShoesUrl7();
    }
  }

  lemma ShoesUrl0()
    ensures PadelNuestroShoes[0].1 == PadelNuestroPrefix + "padel-shoes" + "/" + Lower(PadelNuestroShoes[0].0)
  {
    assert Lower("Babolat") == "babolat";
  }

  lemma ShoesUrl1()
    ensures PadelNuestroShoes[1].1 == PadelNuestroPrefix + "padel-shoes" + "/" + Lower(PadelNuestroShoes[1].0)
  {
    assert Lower("Bullpadel") == "bullpadel";
  }

  lemma ShoesUrl2()
    ensures PadelNuestroShoes[2].1 == PadelNuestroPrefix + "padel-shoes" + "/" + Lower(PadelNuestroShoes[2].0)
  {
    assert Lower("Head") == "head";
  }

  lemma ShoesUrl3()
    ensures PadelNuestroShoes[3].1 == PadelNuestroPrefix + "padel-shoes" + "/" + Lower(PadelNuestroShoes[3].0)
  {
    assert Lower("Lok") == "lok";
  }

  lemma ShoesUrl4()
    ensures PadelNuestroShoes[4].1 == PadelNuestroPrefix + "padel-shoes" + "/" + Lower(PadelNuestroShoes[4].0)
  {
    assert Lower("Siux") == "siux";
  }

  lemma ShoesUrl5()
    ensures PadelNuestroShoes[5].1 == PadelNuestroPrefix + "padel-shoes" + "/" + Lower(PadelNuestroShoes[5].0)
  {
    assert Lower("Starvie") == "starvie";
  }

  lemma ShoesUrl6()
    ensures PadelNuestroShoes[6].1 == PadelNuestroPrefix + "padel-shoes" + "/" + Lower(PadelNuestroShoes[6].0)
  {
    assert Lower("Wilson") == "wilson";
  }

  lemma ShoesUrl7()
    ensures PadelNuestroShoes[7].1 == PadelNuestroPrefix + "padel-shoes" + "/" + Lower(PadelNuestroShoes[7].0)
  {
    assert Lower("Adidas") == "adidas";
  }

  /** The Tennis Warehouse table has one category with six brands, every URL a `catpage-...-EN.html` page. */
  lemma TennisWarehouseShape()
    ensures Keys(TennisWarehouseBrands) == ["tennis-racquets"]
    ensures |TennisWarehouseBrands[0].1| == 6
    ensures forall j :: 0 <= j < 6 ==> IsCatpageUrl(TennisWarehouseBrands[0].1[j].1)
  {
    forall j | 0 <= j < 6
      ensures IsCatpageUrl(TennisWarehouseBrands[0].1[j].1)
    {
      CatpageUrl(j);
    }
  }

  /** A Tennis Warehouse Europe category page in English. */
  predicate IsCatpageUrl(u: string) {
    StartsWith(u, "https://www.tenniswarehouse-europe.com/catpage-") && EndsWith(u, "-EN.html")
  }

  lemma {:induction false} CatpageUrl(j: nat)
    requires j < 6
    ensures IsCatpageUrl(TennisWarehouseBrands[0].1[j].1)
  {
    if j == 0 {
      CatpageUrl0();
    } else if j == 1 {
      CatpageUrl1();
    } else if j == 2 {
      CatpageUrl2();
    } else if j == 3 {
      CatpageUrl3();
    } else if j == 4 {
      CatpageUrl4();
    } else if j == 5 {
      CatpageUrl5();
    }
  }

  lemma CatpageUrl0()
    ensures IsCatpageUrl(TennisWarehouseBrands[0].1[0].1)
  {
  }

  lemma CatpageUrl1()
    ensures IsCatpageUrl(TennisWarehouseBrands[0].1[1].1)
  {
  }

  lemma CatpageUrl2()
    ensures IsCatpageUrl(TennisWarehouseBrands[0].1[2].1)
  {
  }

  lemma CatpageUrl3()
    ensures IsCatpageUrl(TennisWarehouseBrands[0].1[3].1)
  {
  }

  lemma CatpageUrl4()
    ensures IsCatpageUrl(TennisWarehouseBrands[0].1[4].1)
  {
  }

  lemma CatpageUrl5()
    ensures IsCatpageUrl(TennisWarehouseBrands[0].1[5].1)
  {
  }

  /** Within each category of either table, the brands and the URLs are pairwise distinct. */
  lemma TablesHaveDistinctEntries()
    ensures forall i :: 0 <= i < |PadelNuestroBrands| ==>
      NoDup(Keys(PadelNuestroBrands[i].1)) && NoDup(Values(PadelNuestroBrands[i].1))
    ensures NoDup(Keys(PadelNuestroBrands))
    ensures NoDup(Keys(TennisWarehouseBrands[0].1)) && NoDup(Values(TennisWarehouseBrands[0].1))
  {
    PadelNuestroShape();
    PadelNuestroNamesDistinct();
    RacketsUrlsDistinct();
    BagsUrlsDistinct();
    ShoesUrlsDistinct();
    TennisWarehouseDistinct();
  }

  lemma RacketsUrlsDistinct()
    ensures NoDup(Values(PadelNuestroRackets))
  {
  }

  lemma BagsUrlsDistinct()
    ensures NoDup(Values(PadelNuestroBags))
  {
  }

  lemma ShoesUrlsDistinct()
    ensures NoDup(Values(PadelNuestroShoes))
  {
  }

  lemma TennisWarehouseDistinct()
    ensures NoDup(Keys(TennisWarehouseBrands[0].1)) && NoDup(Values(TennisWarehouseBrands[0].1))
  {
  }

  /** The Adidas rackets entry is the page scrapers/pn.py starts from. */
  lemma AdidasRacketsEntry()
    ensures Lookup(PadelNuestroBrands, "padel-rackets", "Adidas") == Some(PadelNuestro.StartUrl)
  {
    assert PadelNuestro.StartUrl == "https://www.padelnuestro.com/int/padel-rackets/adidas";
  }
}
