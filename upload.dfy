/**
 * The upload check of app/main.py: the ten expected (Greek) ERP headers, the list of those the
 * CSV lacks, the halt when that list is non-empty, and the rename to English column names.
 */
module Upload {
  import opened Wrappers
  import opened Seqs

  /** `column_map`: expected header to English column name, in dictionary order. */
  const ColumnMap: seq<(string, string)> := [
    ("Κατασκευαστής", "Brand"),
    ("Κωδικός Κατασκευαστή", "Sku"),
    ("Κατηγορία", "Category"),
    ("Περιγραφή", "Name"),
    ("Κόστος", "Cost"),
    ("Λιανική", "Retail"),
    ("Εκπτωση", "Disc"),
    ("Τελική", "Final"),
    ("No Vat", "No Vat"),
    ("Μεικτό", "Margin")
  ]

  /** `column_map.keys()`. */
  function ExpectedColumns(): (ks: seq<string>)
    ensures |ks| == |ColumnMap|
    ensures forall m :: 0 <= m < |ks| ==> ks[m] == ColumnMap[m].0
  {
    seq(|ColumnMap|, m requires 0 <= m < |ColumnMap| => ColumnMap[m].0)
  }

  /** `column_map.values()`. */
  function EnglishColumns(): (vs: seq<string>)
    ensures |vs| == |ColumnMap|
    ensures forall m :: 0 <= m < |vs| ==> vs[m] == ColumnMap[m].1
  {
    seq(|ColumnMap|, m requires 0 <= m < |ColumnMap| => ColumnMap[m].1)
  }

  /** `missing_cols`: the expected headers the CSV does not have, in `column_map` order. */
  function MissingColumns(columns: seq<string>): (missing: seq<string>)
    ensures |missing| <= |ColumnMap|
    ensures forall k :: 0 <= k < |missing| ==> missing[k] in ExpectedColumns() && missing[k] !in columns
  {
    var missing := FilterMap(ExpectedColumns(), c => c !in columns, c => c);
    assert forall k :: 0 <= k < |missing| ==> missing[k] in ExpectedColumns() && missing[k] !in columns by {
      forall k | 0 <= k < |missing| ensures missing[k] in ExpectedColumns() && missing[k] !in columns {
        FilterMapMember(ExpectedColumns(), c => c !in columns, c => c, missing[k]);
      }
    }
    missing
  }

  /** What `df.rename(columns=column_map)` does to one header: mapped if it is a key, kept otherwise. */
  function RenameColumn(c: string): (r: string)
    ensures c !in ExpectedColumns() ==> r == c
    ensures c in ExpectedColumns() ==> r in EnglishColumns()
  {
    var r := RenameWith(ColumnMap, c);
    assert c in ExpectedColumns() ==> r in EnglishColumns() by {
      if c in ExpectedColumns() {
        var m :| 0 <= m < |ColumnMap| && ExpectedColumns()[m] == c;
        var m0 := FirstKeyIndex(c, m);
        assert r == EnglishColumns()[m0];
      }
    }
    r
  }

  /** The first position of `c` among the expected headers, given some position `m` of it. */
  function FirstKeyIndex(c: string, m: nat): (m0: nat)
    requires m < |ColumnMap| && ColumnMap[m].0 == c
    ensures m0 <= m && ColumnMap[m0].0 == c
    ensures forall m' :: 0 <= m' < m0 ==> ColumnMap[m'].0 != c
  {
    if exists m' :: 0 <= m' < m && ColumnMap[m'].0 == c then
      var m' :| 0 <= m' < m && ColumnMap[m'].0 == c;
      FirstKeyIndex(c, m')
    else m
  }

  function RenameWith(table: seq<(string, string)>, c: string): (r: string)
    ensures forall m :: 0 <= m < |table| && table[m].0 == c && (forall m' :: 0 <= m' < m ==> table[m'].0 != c) ==> r == table[m].1
    ensures (forall m :: 0 <= m < |table| ==> table[m].0 != c) ==> r == c
  {
    if table == [] then c
    else if table[0].0 == c then table[0].1
    else RenameWith(table[1..], c)
  }

  /** The CSV header after validation: the missing headers when any is absent (the app stops), otherwise the renamed header. */
  function LoadColumns(columns: seq<string>): (r: Result<seq<string>, seq<string>>)
    ensures r.Failure? ==> r.error != [] && forall k :: 0 <= k < |r.error| ==> r.error[k] in ExpectedColumns() && r.error[k] !in columns
    ensures r.Success? ==> |r.value| == |columns|
  {
    var missing := MissingColumns(columns);
    if missing != [] then Failure(missing)
    else Success(seq(|columns|, k requires 0 <= k < |columns| => RenameColumn(columns[k])))
  }

  /** A header is reported missing exactly when it is expected and the CSV lacks it. */
  lemma MissingColumnsExact(columns: seq<string>, c: string)
    ensures c in MissingColumns(columns) <==> c in ExpectedColumns() && c !in columns
  {
    FilterMapMember(ExpectedColumns(), c => c !in columns, c => c, c);
  }

  /** The missing headers are listed in `column_map` order. */
  lemma MissingColumnsInOrder(columns: seq<string>)
    ensures var ks := KeptIndices(ExpectedColumns(), c => c !in columns);
      |MissingColumns(columns)| == |ks|
      && forall k :: 0 <= k < |ks| ==> MissingColumns(columns)[k] == ColumnMap[ks[k]].0
  {
    FilterMapAtKeptIndices(ExpectedColumns(), c => c !in columns, c => c);
  }

  /** The app stops exactly when some expected header is absent, and then reports the missing ones. */
  lemma LoadHaltsIffColumnMissing(columns: seq<string>)
    ensures LoadColumns(columns).Failure? <==> exists m :: 0 <= m < |ColumnMap| && ColumnMap[m].0 !in columns
    ensures LoadColumns(columns).Failure? ==> LoadColumns(columns).error == MissingColumns(columns)
  {
    var missing := MissingColumns(columns);
    if exists m :: 0 <= m < |ColumnMap| && ColumnMap[m].0 !in columns {
      var m :| 0 <= m < |ColumnMap| && ColumnMap[m].0 !in columns;
      MissingColumnsExact(columns, ColumnMap[m].0);
      assert ExpectedColumns()[m] == ColumnMap[m].0;
    }
    if missing != [] {
      MissingColumnsExact(columns, missing[0]);
    }
  }

  /** After a successful load the ten expected headers carry their English names, in place; other headers are kept. */
  lemma LoadRenamesExpected(columns: seq<string>)
    requires LoadColumns(columns).Success?
    ensures var r := LoadColumns(columns).value;
      |r| == |columns|
      && (forall k, m :: 0 <= k < |columns| && 0 <= m < |ColumnMap| && columns[k] == ColumnMap[m].0 ==> r[k] == ColumnMap[m].1)
      && (forall k :: 0 <= k < |columns| && columns[k] !in ExpectedColumns() ==> r[k] == columns[k])
      && (forall m :: 0 <= m < |ColumnMap| ==> ColumnMap[m].1 in r)
  {
    var r := LoadColumns(columns).value;
    forall k, m | 0 <= k < |columns| && 0 <= m < |ColumnMap| && columns[k] == ColumnMap[m].0
      ensures r[k] == ColumnMap[m].1
    {
      RenameExpected(m);
    }
    forall m | 0 <= m < |ColumnMap|
      ensures ColumnMap[m].1 in r
    {
      MissingColumnsExact(columns, ColumnMap[m].0);
      assert ExpectedColumns()[m] == ColumnMap[m].0;
      var k :| 0 <= k < |columns| && columns[k] == ColumnMap[m].0;
      RenameExpected(m);
      assert r[k] == ColumnMap[m].1;
    }
    forall k | 0 <= k < |columns| && columns[k] !in ExpectedColumns()
      ensures r[k] == columns[k]
    {
      forall m | 0 <= m < |ColumnMap| ensures ColumnMap[m].0 != columns[k] {
        assert ExpectedColumns()[m] == ColumnMap[m].0;
      }
    }
  }

  /** The expected headers are pairwise distinct, and so are their English names. */
  lemma ColumnMapDistinct()
    ensures NoDup(ExpectedColumns()) && NoDup(EnglishColumns())
  {
  }

  /** Each expected header is renamed to its own English name. */
  lemma RenameExpected(m: nat)
    requires m < |ColumnMap|
    ensures RenameColumn(ColumnMap[m].0) == ColumnMap[m].1
  {
    ColumnMapDistinct();
    forall m' | 0 <= m' < m ensures ColumnMap[m'].0 != ColumnMap[m].0 {
      assert ExpectedColumns()[m'] != ExpectedColumns()[m];
    }
  }

  /** Renaming is one-to-one on the expected headers. */
  lemma RenameInjective(m: nat, m': nat)
    requires m < |ColumnMap| && m' < |ColumnMap|
    ensures RenameColumn(ColumnMap[m].0) == RenameColumn(ColumnMap[m'].0) <==> m == m'
  {
    RenameExpected(m);
    RenameExpected(m');
    ColumnMapDistinct();
    if m != m' {
      assert EnglishColumns()[m] != EnglishColumns()[m'];
    }
  }
}
