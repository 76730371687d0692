/**
 * The driver of scrape_all_pn.py: one scraper call per (category, brand) entry of the Padel Nuestro
 * table, categories outer and brands inner, each call's rows tagged with its category and brand,
 * and all the tagged frames concatenated in call order. The scraper is a parameter.
 */
module ScrapeAllPn {
  import opened Wrappers
  import opened Seqs
  import opened Dom
  import opened BrandsUrls

  /** One (category, brand) entry of a table with the URL the table holds for it. */
  datatype Target = Target(category: string, brand: string, url: string)

  /** A scraped record with the `category` and `brand` columns the driver adds. */
  datatype Row = Row(listing: Listing, category: string, brand: string)

  /** The message `pd.concat` raises with when the list of frames is empty. */
  const NoObjectsMessage: string := "No objects to concatenate"

  /** The targets of one category, in brand order. */
  function CategoryTargets(category: string, brands: BrandUrls): (ts: seq<Target>)
    ensures |ts| == |brands|
    ensures forall j :: 0 <= j < |ts| ==> ts[j] == Target(category, brands[j].0, brands[j].1)
  {
    seq(|brands|, j requires 0 <= j < |brands| => Target(category, brands[j].0, brands[j].1))
  }

  /** Every entry of the table, categories outer and brands inner. */
  function Targets(table: BrandTable): seq<Target> {
    if table == [] then []
    else Targets(table[..|table| - 1]) + CategoryTargets(table[|table| - 1].0, table[|table| - 1].1)
  }

  /** One frame with the two tag columns set on every row. */
  function Tagged(listings: seq<Listing>, category: string, brand: string): (rows: seq<Row>)
    ensures |rows| == |listings|
    ensures forall k :: 0 <= k < |rows| ==> rows[k] == Row(listings[k], category, brand)
  {
    seq(|listings|, k requires 0 <= k < |listings| => Row(listings[k], category, brand))
  }

  /** The tagged result of scraping `t`. */
  function Frame(t: Target, scrape: (string, string) -> seq<Listing>): seq<Row> {
    Tagged(scrape(t.brand, t.url), t.category, t.brand)
  }

  /** The frames of the calls `ts`, concatenated in call order. */
  function RowsOf(ts: seq<Target>, scrape: (string, string) -> seq<Listing>): seq<Row> {
    if ts == [] then [] else RowsOf(ts[..|ts| - 1], scrape) + Frame(ts[|ts| - 1], scrape)
  }

  /** The concatenation of a list of frames. */
  function Concat(frames: seq<seq<Row>>): seq<Row> {
    if frames == [] then [] else Concat(frames[..|frames| - 1]) + frames[|frames| - 1]
  }

  /** The total number of rows the scraper returns for the calls `ts`. */
  function CallRowCount(ts: seq<Target>, scrape: (string, string) -> seq<Listing>): nat {
    if ts == [] then 0 else CallRowCount(ts[..|ts| - 1], scrape) + |scrape(ts[|ts| - 1].brand, ts[|ts| - 1].url)|
  }

  /**
   * The two `for` loops and the final `pd.concat`. `calls` lists the arguments of the scraper
   * calls in the order they are made; `pd.concat` of no frames raises.
   */
  method ScrapeAll(table: BrandTable, scrape: (string, string) -> seq<Listing>)
    returns (calls: seq<Target>, result: Result<seq<Row>, string>)
    ensures calls == Targets(table)
    ensures calls == [] ==> result == Failure(NoObjectsMessage)
    ensures calls != [] ==> result == Success(RowsOf(calls, scrape))
  {
    var allDfs: seq<seq<Row>> := [];
    calls := [];
    for i := 0 to |table|
      invariant calls == Targets(table[..i])
      invariant |allDfs| == |calls|
      invariant Concat(allDfs) == RowsOf(calls, scrape)
    {
      var category := table[i].0;
      var brands := table[i].1;
      ghost var before := calls;
      for j := 0 to |brands|
        invariant calls == before + CategoryTargets(category, brands[..j])
        invariant |allDfs| == |calls|
        invariant Concat(allDfs) == RowsOf(calls, scrape)
      {
        var brand := brands[j].0;
        var url := brands[j].1;
        var df := scrape(brand, url);
        var tagged := Tagged(df, category, brand);
        assert CategoryTargets(category, brands[..j + 1]) == CategoryTargets(category, brands[..j]) + [Target(category, brand, url)];
        ghost var prev := allDfs;
        allDfs := allDfs + [tagged];
        calls := calls + [Target(category, brand, url)];
        assert allDfs[..|allDfs| - 1] == prev;
        assert calls[..|calls| - 1] == before + CategoryTargets(category, brands[..j]);
      }
      assert brands[..|brands|] == brands;
      assert table[..i + 1][..i] == table[..i];
    }
    assert table[..|table|] == table;
    if allDfs == [] {
      result := Failure(NoObjectsMessage);
    } else {
      result := Success(Concat(allDfs));
    }
  }

  /** Running the calls `a` then the calls `b` gives `a`'s rows followed by `b`'s. */
  lemma {:induction false} RowsOfAppend(a: seq<Target>, b: seq<Target>, scrape: (string, string) -> seq<Listing>)
    ensures RowsOf(a + b, scrape) == RowsOf(a, scrape) + RowsOf(b, scrape)
    decreases |b|
  {
    if b == [] {
      assert a + b == a;
    } else {
      var b' := b[..|b| - 1];
      assert (a + b)[..|a + b| - 1] == a + b';
      assert (a + b)[|a + b| - 1] == b[|b| - 1];
      RowsOfAppend(a, b', scrape);
      assert RowsOf(a + b, scrape) == RowsOf(a + b', scrape) + Frame(b[|b| - 1], scrape);
    }
  }

  /** The row count is the sum of the per-call counts. */
  lemma {:induction false} RowCountIsSum(ts: seq<Target>, scrape: (string, string) -> seq<Listing>)
    ensures |RowsOf(ts, scrape)| == CallRowCount(ts, scrape)
  {
    if ts != [] {
      RowCountIsSum(ts[..|ts| - 1], scrape);
    }
  }

  /** A row comes out exactly when some call returned its record, and it carries that call's category and brand. */
  lemma {:induction false} RowsAreTagged(ts: seq<Target>, scrape: (string, string) -> seq<Listing>, r: Row)
    ensures r in RowsOf(ts, scrape) <==>
      exists m :: 0 <= m < |ts| && r.category == ts[m].category && r.brand == ts[m].brand
        && r.listing in scrape(ts[m].brand, ts[m].url)
  {
    if ts != [] {
      var init := ts[..|ts| - 1];
      var last := ts[|ts| - 1];
      RowsAreTagged(init, scrape, r);
      var f := Frame(last, scrape);
      assert r in RowsOf(ts, scrape) <==> r in RowsOf(init, scrape) || r in f;
      if r.category == last.category && r.brand == last.brand && r.listing in scrape(last.brand, last.url) {
        var k :| 0 <= k < |scrape(last.brand, last.url)| && scrape(last.brand, last.url)[k] == r.listing;
        assert f[k] == r;
      }
      if r in f {
        var k :| 0 <= k < |f| && f[k] == r;
        assert scrape(last.brand, last.url)[k] == r.listing;
      }
      forall m | 0 <= m < |init|
        ensures init[m] == ts[m]
      {
      }
    }
  }

  /** A target is listed exactly when its category and brand are an entry of the table with that URL. */
  lemma {:induction false} TargetsMembers(table: BrandTable, t: Target)
    ensures t in Targets(table) <==>
      exists i, j :: 0 <= i < |table| && 0 <= j < |table[i].1|
        && t == Target(table[i].0, table[i].1[j].0, table[i].1[j].1)
  {
    if table != [] {
      var init := table[..|table| - 1];
      var n := |table| - 1;
      TargetsMembers(init, t);
      var last := CategoryTargets(table[n].0, table[n].1);
      if t in last {
        var j :| 0 <= j < |last| && last[j] == t;
        assert t == Target(table[n].0, table[n].1[j].0, table[n].1[j].1);
      }
      if exists i, j :: 0 <= i < |table| && 0 <= j < |table[i].1| && t == Target(table[i].0, table[i].1[j].0, table[i].1[j].1) {
        var i, j :| 0 <= i < |table| && 0 <= j < |table[i].1| && t == Target(table[i].0, table[i].1[j].0, table[i].1[j].1);
        if i == n {
          assert last[j] == t;
        } else {
          assert init[i] == table[i];
        }
      }
      forall i | 0 <= i < n
        ensures init[i] == table[i]
      {
      }
    }
  }

  /** The calls for two tables one after the other are the first's calls then the second's. */
  lemma {:induction false} TargetsAppend(a: BrandTable, b: BrandTable)
    ensures Targets(a + b) == Targets(a) + Targets(b)
    decreases |b|
  {
    if b == [] {
      assert a + b == a;
    } else {
      var b', last := b[..|b| - 1], b[|b| - 1];
      var tail := CategoryTargets(last.0, last.1);
      assert (a + b)[..|a + b| - 1] == a + b';
      assert (a + b)[|a + b| - 1] == last;
      assert Targets(a + b) == Targets(a + b') + tail;
      TargetsAppend(a, b');
      assert Targets(b) == Targets(b') + tail;
      SeqAssoc(Targets(a), Targets(b'), tail);
    }
  }

  lemma SeqAssoc<T>(x: seq<T>, y: seq<T>, z: seq<T>)
    ensures (x + y) + z == x + (y + z)
  {
  }

  /** Brand `j` of category `i` is the call right after the `j` calls that follow those of the categories before `i`. */
  lemma TargetsLayout(table: BrandTable, i: nat, j: nat)
    requires i < |table| && j < |table[i].1|
    ensures |Targets(table[..i])| + j < |Targets(table)|
    ensures Targets(table)[|Targets(table[..i])| + j] == Target(table[i].0, table[i].1[j].0, table[i].1[j].1)
  {
    var rest := table[i + 1..];
    assert table == table[..i] + ([table[i]] + rest);
    TargetsAppend(table[..i], [table[i]] + rest);
    TargetsAppend([table[i]], rest);
    assert [table[i]][..0] == [];
    assert Targets([table[i]]) == CategoryTargets(table[i].0, table[i].1);
  }

  /** A table whose every category has `width` brands makes `width` calls per category. */
  lemma {:induction false} UniformCount(table: BrandTable, width: nat)
    requires forall i :: 0 <= i < |table| ==> |table[i].1| == width
    ensures |Targets(table)| == width * |table|
  {
    if table != [] {
      UniformCount(table[..|table| - 1], width);
      assert width * |table| == width * (|table| - 1) + width;
    }
  }

  /** With distinct category names and, within each category, distinct brand names, distinct entries have distinct tags. */
  lemma EntriesDistinct(table: BrandTable)
    requires NoDup(Keys(table)) && forall i :: 0 <= i < |table| ==> NoDup(Keys(table[i].1))
    ensures forall i, j, i', j' :: 0 <= i < |table| && 0 <= j < |table[i].1| && 0 <= i' < |table| && 0 <= j' < |table[i'].1| && (i, j) != (i', j') ==>
      (table[i].0, table[i].1[j].0) != (table[i'].0, table[i'].1[j'].0)
  {
    forall i, j, i', j' | 0 <= i < |table| && 0 <= j < |table[i].1| && 0 <= i' < |table| && 0 <= j' < |table[i'].1| && (i, j) != (i', j')
      ensures (table[i].0, table[i].1[j].0) != (table[i'].0, table[i'].1[j'].0)
    {
      if i != i' {
        if i < i' { assert Keys(table)[i] != Keys(table)[i']; } else { assert Keys(table)[i'] != Keys(table)[i]; }
      } else if j < j' {
        assert Keys(table[i].1)[j] != Keys(table[i].1)[j'];
      } else {
        assert Keys(table[i].1)[j'] != Keys(table[i].1)[j];
      }
    }
  }

  /** For the Padel Nuestro table the driver makes 24 calls: call `8 * i + j` is brand `j` of category `i` with the URL the table holds. */
  lemma PadelNuestroCalls()
    ensures |Targets(PadelNuestroBrands)| == 24
    ensures forall i, j :: 0 <= i < 3 && 0 <= j < 8 ==>
      Targets(PadelNuestroBrands)[8 * i + j] == Target(PadelNuestroBrands[i].0, PadelNuestroBrands[i].1[j].0, PadelNuestroBrands[i].1[j].1)
  {
    PadelNuestroShape();
    assert forall i :: 0 <= i < |PadelNuestroBrands| ==> |PadelNuestroBrands[i].1| == |Keys(PadelNuestroBrands[i].1)| == 8;
    UniformCount(PadelNuestroBrands, 8);
    forall i, j | 0 <= i < 3 && 0 <= j < 8
      ensures Targets(PadelNuestroBrands)[8 * i + j] == Target(PadelNuestroBrands[i].0, PadelNuestroBrands[i].1[j].0, PadelNuestroBrands[i].1[j].1)
    {
      EightWideLayout(PadelNuestroBrands, i, j);
    }
  }

  /** In a table of eight brands per category, call `8 * i + j` is brand `j` of category `i`. */
  lemma EightWideLayout(table: BrandTable, i: nat, j: nat)
    requires forall k :: 0 <= k < |table| ==> |table[k].1| == 8
    requires i < |table| && j < 8
    ensures 8 * i + j < |Targets(table)|
    ensures Targets(table)[8 * i + j] == Target(table[i].0, table[i].1[j].0, table[i].1[j].1)
  {
    var before := table[..i];
    assert forall k :: 0 <= k < |before| ==> before[k] == table[k];
    UniformCount(before, 8);
    TargetsLayout(table, i, j);
  }

  /** The 24 entries of the Padel Nuestro table are 24 distinct (category, brand) pairs, so no pair is called twice. */
  lemma PadelNuestroEntriesDistinct()
    ensures forall i, j, i', j' :: 0 <= i < 3 && 0 <= j < 8 && 0 <= i' < 3 && 0 <= j' < 8 && (i, j) != (i', j') ==>
      (PadelNuestroBrands[i].0, PadelNuestroBrands[i].1[j].0) != (PadelNuestroBrands[i'].0, PadelNuestroBrands[i'].1[j'].0)
  {
    PadelNuestroShape();
    PadelNuestroNamesDistinct();
    assert forall i :: 0 <= i < |PadelNuestroBrands| ==> |PadelNuestroBrands[i].1| == |Keys(PadelNuestroBrands[i].1)| == 8;
    EntriesDistinct(PadelNuestroBrands);
  }
}
