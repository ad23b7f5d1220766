/** `SchemaRetriever`: turns vector matches into seed tables and columns,
    merges the key columns and the vector-matched columns of those tables
    with provenance tags, adds foreign keys as joins and assembles the
    retrieval result. The graph database is a parameter that maps the seed
    tables to the rows its queries return. */
module SchemaRetriever {
  import opened Common
  import opened Records
  import opened TextBuilder
  import opened VectorIndex

  // ---------------------------------------------------------------------------
  // Seeds from the vector matches
  // ---------------------------------------------------------------------------

  /** The table a match names: `table_name` for Table and Column matches,
      `base_table` for Metric matches, and nothing ("") otherwise. */
  function SeedName(h: SearchHit): string
  {
    if h.kind == "Table" || h.kind == "Column" then Field(h.props, "table_name")
    else if h.kind == "Metric" then Field(h.props, "base_table")
    else ""
  }

  /** The non-empty table names the matches contribute. */
  function SeedTables(matches: seq<SearchHit>): (r: set<string>)
    ensures "" !in r
  {
    set h | h in matches && SeedName(h) != "" :: SeedName(h)
  }

  /** `_extract_relevant_tables`. */
  method ExtractRelevantTables(matches: seq<SearchHit>) returns (tables: set<string>)
    ensures tables == SeedTables(matches)
  {
    var all: set<string> := {};
    var i := 0;
    while i < |matches|
      invariant 0 <= i <= |matches|
      invariant all - {""} == SeedTables(matches[..i])
    {
      var h := matches[i];
      SeedTablesStep(matches, i);
      ghost var before := all;
      if h.kind == "Table" {
        all := all + {Field(h.props, "table_name")};
      } else if h.kind == "Column" {
        all := all + {Field(h.props, "table_name")};
      } else if h.kind == "Metric" {
        all := all + {Field(h.props, "base_table")};
      }
      assert all - {""} == (before - {""}) + (if SeedName(h) == "" then {} else {SeedName(h)});
      i := i + 1;
    }
    assert matches[..i] == matches;
    tables := set t | t in all && t != "";
  }

  lemma SeedTablesStep(matches: seq<SearchHit>, i: nat)
    requires i < |matches|
    ensures SeedTables(matches[..i + 1])
         == SeedTables(matches[..i]) + (if SeedName(matches[i]) == "" then {} else {SeedName(matches[i])})
  {
    assert matches[..i + 1] == matches[..i] + [matches[i]];
    SeedTablesAppend(matches[..i], [matches[i]]);
    assert SeedTables([matches[i]]) == if SeedName(matches[i]) == "" then {} else {SeedName(matches[i])};
  }

  lemma SeedTablesAppend(a: seq<SearchHit>, b: seq<SearchHit>)
    ensures SeedTables(a + b) == SeedTables(a) + SeedTables(b)
  {
    assert forall h :: h in a + b <==> h in a || h in b;
  }

  /** A match adds its named table, unless the name is empty; a Concept
      match (or any other label) adds nothing. */
  lemma SeedTablesOfMatch(matches: seq<SearchHit>, h: SearchHit)
    ensures h.kind != "Table" && h.kind != "Column" && h.kind != "Metric" ==>
              SeedTables(matches + [h]) == SeedTables(matches)
    ensures (h.kind == "Table" || h.kind == "Column") && Field(h.props, "table_name") != "" ==>
              SeedTables(matches + [h]) == SeedTables(matches) + {Field(h.props, "table_name")}
    ensures h.kind == "Metric" && Field(h.props, "base_table") != "" ==>
              SeedTables(matches + [h]) == SeedTables(matches) + {Field(h.props, "base_table")}
  {
    SeedTablesAppend(matches, [h]);
    assert SeedTables([h]) == if SeedName(h) == "" then {} else {SeedName(h)};
  }

  type ColumnKey = (string, string)

  /** The column a match names, when it is a Column match with both a
      table and a column name. */
  predicate IsSeedColumn(h: SearchHit)
  {
    h.kind == "Column" && Field(h.props, "table_name") != "" && Field(h.props, "column_name") != ""
  }

  function SeedColumns(matches: seq<SearchHit>): set<ColumnKey>
  {
    set h | h in matches && IsSeedColumn(h) :: (Field(h.props, "table_name"), Field(h.props, "column_name"))
  }

  /** `_extract_relevant_columns`. */
  method ExtractRelevantColumns(matches: seq<SearchHit>) returns (columns: set<ColumnKey>)
    ensures columns == SeedColumns(matches)
    ensures forall k :: k in columns ==> k.0 != "" && k.1 != ""
  {
    columns := {};
    var i := 0;
    while i < |matches|
      invariant 0 <= i <= |matches|
      invariant columns == SeedColumns(matches[..i])
    {
      var h := matches[i];
      SeedColumnsStep(matches, i);
      if h.kind == "Column" {
        var table := Field(h.props, "table_name");
        var column := Field(h.props, "column_name");
        if table != "" && column != "" {
          columns := columns + {(table, column)};
        }
      }
      i := i + 1;
    }
    assert matches[..i] == matches;
  }

  lemma SeedColumnsStep(matches: seq<SearchHit>, i: nat)
    requires i < |matches|
    ensures var h := matches[i];
            SeedColumns(matches[..i + 1]) == SeedColumns(matches[..i])
              + (if IsSeedColumn(h) then {(Field(h.props, "table_name"), Field(h.props, "column_name"))} else {})
  {
    assert matches[..i + 1] == matches[..i] + [matches[i]];
    assert forall x :: x in matches[..i + 1] <==> x in matches[..i] || x == matches[i];
  }

  /** Exactly the Column matches with both names non-empty contribute their
      pair. */
  lemma SeedColumnsExactly(matches: seq<SearchHit>, k: ColumnKey)
    ensures k in SeedColumns(matches) <==>
              exists h :: h in matches && h.kind == "Column" && k == (Field(h.props, "table_name"), Field(h.props, "column_name")) && k.0 != "" && k.1 != ""
  {
  }

  // ---------------------------------------------------------------------------
  // Merging key columns and vector-matched columns
  // ---------------------------------------------------------------------------

  /** A column row is identified by its table and column names. */
  function KeyOf(row: Node): ColumnKey
  {
    (Field(row, "table_name"), Field(row, "column_name"))
  }

  /** The provenance tag of a merged column row. */
  function SourceOf(row: Node): Value
  {
    GetOr(row, "source", Null)
  }

  /** `row['source'] = tag`, which leaves the row's key alone. */
  function Tagged(row: Node, tag: string): (r: Node)
    ensures KeyOf(r) == KeyOf(row)
    ensures SourceOf(r) == Str(tag)
  {
    Put(row, "source", Str(tag))
  }

  /** How many rows carry the key `k`. */
  function KeyCount(rows: seq<Node>, k: ColumnKey): nat
  {
    if rows == [] then 0
    else KeyCount(rows[..|rows| - 1], k) + (if KeyOf(rows[|rows| - 1]) == k then 1 else 0)
  }

  /** The last of the rows that carry the key `k`. */
  function LastWithKey(rows: seq<Node>, k: ColumnKey): (r: Node)
    requires KeyCount(rows, k) > 0
    ensures r in rows && KeyOf(r) == k
  {
    var last := rows[|rows| - 1];
    if KeyOf(last) == k then last else LastWithKey(rows[..|rows| - 1], k)
  }

  /** The first of the rows that carry the key `k`. */
  function FirstWithKey(rows: seq<Node>, k: ColumnKey): (r: Node)
    requires KeyCount(rows, k) > 0
    ensures r in rows && KeyOf(r) == k
  {
    var prefix := rows[..|rows| - 1];
    if KeyCount(prefix, k) > 0 then FirstWithKey(prefix, k) else rows[|rows| - 1]
  }

  /** Re-tagging a row overwrites the earlier tag and nothing else. */
  lemma TaggedTwice(row: Node, first: string, second: string)
    ensures Tagged(Tagged(row, first), second) == Tagged(row, second)
  {
    AssocPutTwice(row, "source", Str(first), Str(second));
  }

  /** `columns_dict`: merged rows by key, in insertion order. */
  type ColumnsDict = Assoc<ColumnKey, Node>

  /** Keys are distinct and every row is filed under its own key. */
  predicate WellKeyed(m: ColumnsDict)
  {
    NoDuplicates(AssocKeys(m)) && forall i :: 0 <= i < |m| ==> KeyOf(m[i].1) == m[i].0
  }

  lemma WellKeyedPut(m: ColumnsDict, k: ColumnKey, row: Node)
    requires WellKeyed(m) && KeyOf(row) == k
    ensures WellKeyed(AssocPut(m, k, row))
  {
    var r := AssocPut(m, k, row);
    AssocPutNoDuplicates(m, k, row);
    AssocPutIn(m, k, row);
    forall i | 0 <= i < |r| ensures KeyOf(r[i].1) == r[i].0 {
      assert r[i] in r;
      if r[i] != (k, row) {
        var j :| 0 <= j < |m| && m[j] == r[i];
      }
    }
  }

  /** The first loop: every key row is filed under its key tagged `key`, a
      later row replacing an earlier one with the same key. */
  function AddKeyRows(m: ColumnsDict, rows: seq<Node>): ColumnsDict
  {
    if rows == [] then m
    else
      var last := rows[|rows| - 1];
      AssocPut(AddKeyRows(m, rows[..|rows| - 1]), KeyOf(last), Tagged(last, "key"))
  }

  /** One step of the second loop: a new key is filed tagged `vector`; a key
      already present has its stored row re-tagged `key+vector`. */
  function AddVectorRow(m: ColumnsDict, row: Node): ColumnsDict
  {
    var k := KeyOf(row);
    match AssocGet(m, k)
    case None => AssocPut(m, k, Tagged(row, "vector"))
    case Some(stored) => AssocPut(m, k, Tagged(stored, "key+vector"))
  }

  function AddVectorRows(m: ColumnsDict, rows: seq<Node>): ColumnsDict
  {
    if rows == [] then m else AddVectorRow(AddVectorRows(m, rows[..|rows| - 1]), rows[|rows| - 1])
  }

  lemma {:induction false} AddKeyRowsWellKeyed(m: ColumnsDict, rows: seq<Node>)
    requires WellKeyed(m)
    ensures WellKeyed(AddKeyRows(m, rows))
  {
    if rows != [] {
      var last := rows[|rows| - 1];
      AddKeyRowsWellKeyed(m, rows[..|rows| - 1]);
      WellKeyedPut(AddKeyRows(m, rows[..|rows| - 1]), KeyOf(last), Tagged(last, "key"));
    }
  }

  lemma {:induction false} AddVectorRowsWellKeyed(m: ColumnsDict, rows: seq<Node>)
    requires WellKeyed(m)
    ensures WellKeyed(AddVectorRows(m, rows))
  {
    if rows != [] {
      var m' := AddVectorRows(m, rows[..|rows| - 1]);
      var row := rows[|rows| - 1];
      AddVectorRowsWellKeyed(m, rows[..|rows| - 1]);
      match AssocGet(m', KeyOf(row))
      case None => WellKeyedPut(m', KeyOf(row), Tagged(row, "vector"));
      case Some(stored) =>
        AssocGetIn(m', KeyOf(row));
        var j :| 0 <= j < |m'| && m'[j] == (KeyOf(row), stored);
        WellKeyedPut(m', KeyOf(row), Tagged(stored, "key+vector"));
    }
  }

  /** After the key rows, a key maps to its last key row tagged `key`; keys
      without key rows keep what they had. */
  lemma {:induction false} AddKeyRowsGet(m: ColumnsDict, rows: seq<Node>, k: ColumnKey)
    ensures KeyCount(rows, k) == 0 ==> AssocGet(AddKeyRows(m, rows), k) == AssocGet(m, k)
    ensures KeyCount(rows, k) > 0 ==> AssocGet(AddKeyRows(m, rows), k) == Some(Tagged(LastWithKey(rows, k), "key"))
  {
    if rows != [] {
      var prefix, last := rows[..|rows| - 1], rows[|rows| - 1];
      AddKeyRowsGet(m, prefix, k);
      assert AddKeyRows(m, rows) == AssocPut(AddKeyRows(m, prefix), KeyOf(last), Tagged(last, "key"));
      if KeyOf(last) != k {
        assert KeyCount(rows, k) == KeyCount(prefix, k);
        assert KeyCount(prefix, k) > 0 ==> LastWithKey(rows, k) == LastWithKey(prefix, k);
      }
    }
  }

  /** After the vector rows, the tag of a key depends on whether it was
      present before and on how many vector rows carry it. */
  lemma {:induction false} AddVectorRowsGet(m: ColumnsDict, rows: seq<Node>, k: ColumnKey)
    ensures KeyCount(rows, k) == 0 ==> AssocGet(AddVectorRows(m, rows), k) == AssocGet(m, k)
    ensures KeyCount(rows, k) > 0 ==> AssocGet(AddVectorRows(m, rows), k).Some?
    ensures KeyCount(rows, k) > 0 && AssocGet(m, k).Some? ==>
              SourceOf(AssocGet(AddVectorRows(m, rows), k).value) == Str("key+vector")
    ensures KeyCount(rows, k) == 1 && AssocGet(m, k).None? ==>
              SourceOf(AssocGet(AddVectorRows(m, rows), k).value) == Str("vector")
    ensures KeyCount(rows, k) >= 2 && AssocGet(m, k).None? ==>
              SourceOf(AssocGet(AddVectorRows(m, rows), k).value) == Str("key+vector")
    ensures KeyCount(rows, k) > 0 && AssocGet(m, k).Some? ==>
              AssocGet(AddVectorRows(m, rows), k) == Some(Tagged(AssocGet(m, k).value, "key+vector"))
    ensures KeyCount(rows, k) > 0 && AssocGet(m, k).None? ==>
              AssocGet(AddVectorRows(m, rows), k) == Some(Tagged(FirstWithKey(rows, k), Tag(0, KeyCount(rows, k))))
  {
    if rows != [] {
      AddVectorRowsGet(m, rows[..|rows| - 1], k);
      AddVectorRowsStep(m, rows, k);
    }
  }

  /** The clauses of `AddVectorRowsGet` for one key. */
  predicate VectorTagged(m: ColumnsDict, rows: seq<Node>, k: ColumnKey)
  {
    var got := AssocGet(AddVectorRows(m, rows), k);
    && (KeyCount(rows, k) == 0 ==> got == AssocGet(m, k))
    && (KeyCount(rows, k) > 0 ==> got.Some?)
    && (KeyCount(rows, k) > 0 && AssocGet(m, k).Some? ==> SourceOf(got.value) == Str("key+vector"))
    && (KeyCount(rows, k) == 1 && AssocGet(m, k).None? ==> SourceOf(got.value) == Str("vector"))
    && (KeyCount(rows, k) >= 2 && AssocGet(m, k).None? ==> SourceOf(got.value) == Str("key+vector"))
    && (KeyCount(rows, k) > 0 && AssocGet(m, k).Some? ==> got == Some(Tagged(AssocGet(m, k).value, "key+vector")))
    && (KeyCount(rows, k) > 0 && AssocGet(m, k).None? ==>
          got == Some(Tagged(FirstWithKey(rows, k), Tag(0, KeyCount(rows, k)))))
  }

  lemma AddVectorRowsStep(m: ColumnsDict, rows: seq<Node>, k: ColumnKey)
    requires rows != [] && VectorTagged(m, rows[..|rows| - 1], k)
    ensures VectorTagged(m, rows, k)
  {
    var prefix, row := rows[..|rows| - 1], rows[|rows| - 1];
    var before := AddVectorRows(m, prefix);
    assert AddVectorRows(m, rows) == AddVectorRow(before, row);
    assert KeyCount(rows, k) == KeyCount(prefix, k) + (if KeyOf(row) == k then 1 else 0);
    AddVectorRowGet(before, row, k);
    if KeyOf(row) == k && AssocGet(before, k).Some? {
      var x := AssocGet(before, k).value;
      if AssocGet(m, k).Some? && KeyCount(prefix, k) > 0 {
        TaggedTwice(AssocGet(m, k).value, "key+vector", "key+vector");
      } else if AssocGet(m, k).None? {
        TaggedTwice(FirstWithKey(prefix, k), Tag(0, KeyCount(prefix, k)), "key+vector");
      }
    }
  }

  /** One vector row changes only its own key's entry. */
  lemma AddVectorRowGet(m: ColumnsDict, row: Node, k: ColumnKey)
    ensures KeyOf(row) != k ==> AssocGet(AddVectorRow(m, row), k) == AssocGet(m, k)
    ensures KeyOf(row) == k && AssocGet(m, k).None? ==> AssocGet(AddVectorRow(m, row), k) == Some(Tagged(row, "vector"))
    ensures KeyOf(row) == k && AssocGet(m, k).Some? ==>
              AssocGet(AddVectorRow(m, row), k) == Some(Tagged(AssocGet(m, k).value, "key+vector"))
  {
  }

  /** The merged dictionary of the two loops, starting empty. */
  function MergedDict(keyRows: seq<Node>, vectorRows: seq<Node>): ColumnsDict
  {
    AddVectorRows(AddKeyRows([], keyRows), vectorRows)
  }

  /** `list(columns_dict.values())` sorted by `(table_name, column_name)`. */
  function MergedColumns(keyRows: seq<Node>, vectorRows: seq<Node>): seq<Node>
  {
    SortBy(AssocValues(MergedDict(keyRows, vectorRows)), KeyOf, PairLeq)
  }

  /** Which keys are in the merged dictionary, and with which tag. */
  lemma MergedDictGet(keyRows: seq<Node>, vectorRows: seq<Node>, k: ColumnKey)
    ensures var got := AssocGet(MergedDict(keyRows, vectorRows), k);
            got.Some? <==> KeyCount(keyRows, k) > 0 || KeyCount(vectorRows, k) > 0
    ensures var got := AssocGet(MergedDict(keyRows, vectorRows), k);
            KeyCount(keyRows, k) > 0 && KeyCount(vectorRows, k) == 0 ==> got == Some(Tagged(LastWithKey(keyRows, k), "key"))
    ensures var got := AssocGet(MergedDict(keyRows, vectorRows), k);
            got.Some? ==> SourceOf(got.value) == Str(Tag(KeyCount(keyRows, k), KeyCount(vectorRows, k)))
    ensures var got := AssocGet(MergedDict(keyRows, vectorRows), k);
            KeyCount(keyRows, k) > 0 && KeyCount(vectorRows, k) > 0 ==>
              got == Some(Tagged(LastWithKey(keyRows, k), "key+vector"))
    ensures var got := AssocGet(MergedDict(keyRows, vectorRows), k);
            KeyCount(keyRows, k) == 0 && KeyCount(vectorRows, k) > 0 ==>
              got == Some(Tagged(FirstWithKey(vectorRows, k), Tag(0, KeyCount(vectorRows, k))))
  {
    AddKeyRowsGet([], keyRows, k);
    AddVectorRowsGet(AddKeyRows([], keyRows), vectorRows, k);
    if KeyCount(keyRows, k) > 0 {
      TaggedTwice(LastWithKey(keyRows, k), "key", "key+vector");
    }
  }

  /** The tag of a column with `keys` key rows and `vectors` vector rows:
      `key`, `vector` or `key+vector`. Two vector rows of one key and no
      key row also give `key+vector`, as the second finds the first. */
  function Tag(keys: nat, vectors: nat): string
  {
    if vectors == 0 then "key"
    else if keys == 0 && vectors == 1 then "vector"
    else "key+vector"
  }

  /** The values of a well-keyed dictionary sorted by key: strictly
      increasing keys, and each one the value stored under its key. */
  lemma SortedValues(m: ColumnsDict)
    requires WellKeyed(m)
    ensures var out := SortBy(AssocValues(m), KeyOf, PairLeq);
            forall i, j :: 0 <= i < j < |out| ==> PairLeq(KeyOf(out[i]), KeyOf(out[j])) && KeyOf(out[i]) != KeyOf(out[j])
    ensures var out := SortBy(AssocValues(m), KeyOf, PairLeq);
            forall n :: n in out ==> AssocGet(m, KeyOf(n)) == Some(n)
    ensures var out := SortBy(AssocValues(m), KeyOf, PairLeq);
            forall k :: AssocGet(m, k).Some? ==> AssocGet(m, k).value in out && KeyOf(AssocGet(m, k).value) == k
  {
    var values := AssocValues(m);
    var out := SortBy(values, KeyOf, PairLeq);
    PairLeqIsTotalPreorder();
    SortSorted(values, KeyOf, PairLeq);
    ValuesFiled(m, out);
    ValuesCovered(m, out);
    forall i, j | 0 <= i < j < |out| ensures KeyOf(out[i]) != KeyOf(out[j]) {
      ValuesDistinct(m, out);
      assert out[i] in out && out[j] in out;
    }
  }

  /** Every value of a permutation of the values is what its key finds. */
  lemma ValuesFiled(m: ColumnsDict, out: seq<Node>)
    requires WellKeyed(m) && multiset(out) == multiset(AssocValues(m))
    ensures forall n :: n in out ==> AssocGet(m, KeyOf(n)) == Some(n)
  {
    var values := AssocValues(m);
    forall n | n in out ensures AssocGet(m, KeyOf(n)) == Some(n) {
      assert n in multiset(values);
      var i :| 0 <= i < |values| && values[i] == n;
      AssocGetAt(m, i);
    }
  }

  /** Every stored value is in a permutation of the values. */
  lemma ValuesCovered(m: ColumnsDict, out: seq<Node>)
    requires WellKeyed(m) && multiset(out) == multiset(AssocValues(m))
    ensures forall k :: AssocGet(m, k).Some? ==> AssocGet(m, k).value in out && KeyOf(AssocGet(m, k).value) == k
  {
    var values := AssocValues(m);
    forall k | AssocGet(m, k).Some? ensures AssocGet(m, k).value in out && KeyOf(AssocGet(m, k).value) == k {
      var n := AssocGet(m, k).value;
      AssocGetIn(m, k);
      var i :| 0 <= i < |m| && m[i] == (k, n);
      assert values[i] == n;
      assert n in multiset(out);
    }
  }

  /** A permutation of the values of a well-keyed dictionary has no
      repeated element. */
  lemma ValuesDistinct(m: ColumnsDict, out: seq<Node>)
    requires WellKeyed(m) && multiset(out) == multiset(AssocValues(m))
    ensures NoDuplicates(out)
  {
    var values := AssocValues(m);
    assert NoDuplicates(values) by {
      forall i, j | 0 <= i < j < |values| ensures values[i] != values[j] {
        assert AssocKeys(m)[i] != AssocKeys(m)[j];
      }
    }
    NoDuplicatesPermutation(values, out);
  }

  /** The merged columns are sorted strictly by `(table_name, column_name)`,
      so no key occurs twice; they are exactly the keys of the key rows and
      of the vector rows; each carries the tag its provenance gives it. */
  lemma MergedColumnsProperties(keyRows: seq<Node>, vectorRows: seq<Node>)
    ensures var out := MergedColumns(keyRows, vectorRows);
            forall i, j :: 0 <= i < j < |out| ==> PairLeq(KeyOf(out[i]), KeyOf(out[j])) && KeyOf(out[i]) != KeyOf(out[j])
    ensures var out := MergedColumns(keyRows, vectorRows);
            forall k :: (exists n :: n in out && KeyOf(n) == k) <==> KeyCount(keyRows, k) > 0 || KeyCount(vectorRows, k) > 0
    ensures var out := MergedColumns(keyRows, vectorRows);
            forall n :: n in out ==> SourceOf(n) == Str(Tag(KeyCount(keyRows, KeyOf(n)), KeyCount(vectorRows, KeyOf(n))))
  {
    var m := MergedDict(keyRows, vectorRows);
    var out := MergedColumns(keyRows, vectorRows);
    AddKeyRowsWellKeyed([], keyRows);
    AddVectorRowsWellKeyed(AddKeyRows([], keyRows), vectorRows);
    SortedValues(m);
    forall k ensures (exists n :: n in out && KeyOf(n) == k) <==> KeyCount(keyRows, k) > 0 || KeyCount(vectorRows, k) > 0 {
      MergedDictGet(keyRows, vectorRows, k);
      if AssocGet(m, k).Some? {
        var n := AssocGet(m, k).value;
        assert n in out && KeyOf(n) == k;
      }
    }
    forall n | n in out ensures SourceOf(n) == Str(Tag(KeyCount(keyRows, KeyOf(n)), KeyCount(vectorRows, KeyOf(n)))) {
      MergedDictGet(keyRows, vectorRows, KeyOf(n));
    }
  }

  /** The fetched table columns whose key is among the seed columns; with
      no seed columns the query is not run and there are none. */
  function VectorRows(rows: seq<Node>, relevant: set<ColumnKey>): (r: seq<Node>)
    ensures relevant == {} ==> r == []
  {
    if rows == [] || relevant == {} then []
    else
      var last := rows[|rows| - 1];
      VectorRows(rows[..|rows| - 1], relevant) + (if KeyOf(last) in relevant then [last] else [])
  }

  /** A relevant key keeps all of its rows; any other key loses them all. */
  lemma {:induction false} VectorRowsCount(rows: seq<Node>, relevant: set<ColumnKey>, k: ColumnKey)
    ensures KeyCount(VectorRows(rows, relevant), k) == if k in relevant then KeyCount(rows, k) else 0
  {
    if rows != [] && relevant != {} {
      var prefix, last := rows[..|rows| - 1], rows[|rows| - 1];
      var tail := if KeyOf(last) in relevant then [last] else [];
      VectorRowsCount(prefix, relevant, k);
      KeyCountAppend(VectorRows(prefix, relevant), tail, k);
      assert KeyCount(tail, k) == if KeyOf(last) in relevant && KeyOf(last) == k then 1 else 0 by {
        if tail != [] { assert tail[..0] == []; }
      }
    }
  }

  lemma {:induction false} KeyCountAppend(a: seq<Node>, b: seq<Node>, k: ColumnKey)
    ensures KeyCount(a + b, k) == KeyCount(a, k) + KeyCount(b, k)
    decreases |b|
  {
    if b == [] {
      assert a + b == a;
    } else {
      assert (a + b)[..|a + b| - 1] == a + b[..|b| - 1];
      KeyCountAppend(a, b[..|b| - 1], k);
    }
  }

  /** With no seed columns every merged column is tagged `key`; a seed
      column found among the fetched table columns is in the result tagged
      `vector` or `key+vector`. */
  lemma SeedColumnsTagged(keyRows: seq<Node>, tableColumns: seq<Node>, relevant: set<ColumnKey>)
    ensures relevant == {} ==>
              forall n :: n in MergedColumns(keyRows, VectorRows(tableColumns, relevant)) ==> SourceOf(n) == Str("key")
    ensures forall k :: k in relevant && KeyCount(tableColumns, k) > 0 ==>
              exists n :: n in MergedColumns(keyRows, VectorRows(tableColumns, relevant)) && KeyOf(n) == k
                          && SourceOf(n) in {Str("vector"), Str("key+vector")}
  {
    var vectorRows := VectorRows(tableColumns, relevant);
    var out := MergedColumns(keyRows, vectorRows);
    MergedColumnsProperties(keyRows, vectorRows);
    forall k | k in relevant && KeyCount(tableColumns, k) > 0
      ensures exists n :: n in out && KeyOf(n) == k && SourceOf(n) in {Str("vector"), Str("key+vector")}
    {
      VectorRowsCount(tableColumns, relevant, k);
      var n :| n in out && KeyOf(n) == k;
    }
  }

  /** The merge of `_expand_context`: the two loops over the key rows and
      the vector rows, then the sort by key. */
  method MergeColumns(keyRows: seq<Node>, vectorRows: seq<Node>) returns (columns: seq<Node>)
    ensures columns == MergedColumns(keyRows, vectorRows)
  {
    var dict := FileKeyRows(keyRows);
    ghost var base := dict;
    var j := 0;
    while j < |vectorRows|
      invariant 0 <= j <= |vectorRows|
      invariant dict == AddVectorRows(base, vectorRows[..j])
    {
      var row := vectorRows[j];
      dict := FileVectorRow(dict, row);
      AddVectorRowsSnoc(base, vectorRows, j);
      j := j + 1;
    }
    assert vectorRows[..j] == vectorRows;
    columns := SortBy(AssocValues(dict), KeyOf, PairLeq);
  }

  lemma AddVectorRowsSnoc(m: ColumnsDict, rows: seq<Node>, j: nat)
    requires j < |rows|
    ensures AddVectorRows(m, rows[..j + 1]) == AddVectorRow(AddVectorRows(m, rows[..j]), rows[j])
  {
    assert rows[..j + 1][..j] == rows[..j];
  }

  /** The key loop: each key row filed under its key, tagged `key`. */
  method FileKeyRows(keyRows: seq<Node>) returns (dict: ColumnsDict)
    ensures dict == AddKeyRows([], keyRows)
  {
    dict := [];
    var i := 0;
    while i < |keyRows|
      invariant 0 <= i <= |keyRows|
      invariant dict == AddKeyRows([], keyRows[..i])
    {
      var row := keyRows[i];
      var next := AssocPut(dict, KeyOf(row), Tagged(row, "key"));
      AddKeyRowsStep(keyRows, i, dict, next);
      dict := next;
      i := i + 1;
    }
    assert keyRows[..i] == keyRows;
  }

  lemma AddKeyRowsStep(rows: seq<Node>, i: nat, before: ColumnsDict, after: ColumnsDict)
    requires i < |rows| && before == AddKeyRows([], rows[..i])
    requires after == AssocPut(before, KeyOf(rows[i]), Tagged(rows[i], "key"))
    ensures after == AddKeyRows([], rows[..i + 1])
  {
    var p := rows[..i + 1];
    assert p[..|p| - 1] == rows[..i];
    assert p[|p| - 1] == rows[i];
    AddKeyRowsLast(p);
  }

  /** `AddKeyRows` unfolded once. */
  lemma AddKeyRowsLast(rows: seq<Node>)
    requires rows != []
    ensures AddKeyRows([], rows)
         == AssocPut(AddKeyRows([], rows[..|rows| - 1]), KeyOf(rows[|rows| - 1]), Tagged(rows[|rows| - 1], "key"))
  {
  }

  /** One pass of the vector loop: a new key is filed tagged `vector`, a
      known one has its stored row re-tagged `key+vector`. */
  method FileVectorRow(dict: ColumnsDict, row: Node) returns (d: ColumnsDict)
    ensures d == AddVectorRow(dict, row)
  {
    var k := KeyOf(row);
    match AssocGet(dict, k)
    case None =>
      d := AssocPut(dict, k, Tagged(row, "vector"));
    case Some(stored) =>
      d := AssocPut(dict, k, Tagged(stored, "key+vector"));
  }

  /** The vector filter of `_expand_context`. */
  method FilterVectorRows(tableColumns: seq<Node>, relevant: set<ColumnKey>) returns (rows: seq<Node>)
    ensures rows == VectorRows(tableColumns, relevant)
  {
    rows := [];
    if relevant != {} {
      var i := 0;
      while i < |tableColumns|
        invariant 0 <= i <= |tableColumns|
        invariant rows == VectorRows(tableColumns[..i], relevant)
      {
        VectorRowsStep(tableColumns, i, relevant);
        if KeyOf(tableColumns[i]) in relevant {
          rows := rows + [tableColumns[i]];
        }
        i := i + 1;
      }
      assert tableColumns[..i] == tableColumns;
    }
  }

  lemma VectorRowsStep(rows: seq<Node>, i: nat, relevant: set<ColumnKey>)
    requires i < |rows| && relevant != {}
    ensures VectorRows(rows[..i + 1], relevant)
         == VectorRows(rows[..i], relevant) + (if KeyOf(rows[i]) in relevant then [rows[i]] else [])
  {
    assert rows[..i + 1][..i] == rows[..i];
  }

  // ---------------------------------------------------------------------------
  // Foreign keys as joins, and the expanded context
  // ---------------------------------------------------------------------------

  /** A row of the join query: the two tables, `join_type`, `on` (a list of
      conditions or a single one) and `description`, each possibly null. */
  datatype JoinRow = JoinRow(fromTable: Value, toTable: Value, joinType: Value, onClause: Value, description: Value)

  /** A row of the foreign-key query. */
  datatype FkRow = FkRow(fromTable: Value, toTable: Value, column: Value, referencesColumn: Value, description: Value)

  /** The join clause of a foreign key: `from.column = to.references_column`. */
  function FkOnClause(fk: FkRow): string
  {
    Format(fk.fromTable) + "." + Format(fk.column) + " = " + Format(fk.toTable) + "." + Format(fk.referencesColumn)
  }

  /** The join a foreign key becomes: same tables, a left join with its one
      clause, and its description. */
  function FkJoin(fk: FkRow): (r: JoinRow)
    ensures r.fromTable == fk.fromTable && r.toTable == fk.toTable
    ensures r.joinType == Str("left")
    ensures r.onClause == List([FkOnClause(fk)])
    ensures r.description == fk.description
  {
    JoinRow(fk.fromTable, fk.toTable, Str("left"), List([FkOnClause(fk)]), fk.description)
  }

  function FkJoins(fks: seq<FkRow>): (r: seq<JoinRow>)
    ensures |r| == |fks|
    ensures forall i :: 0 <= i < |fks| ==> r[i] == FkJoin(fks[i])
  {
    seq(|fks|, i requires 0 <= i < |fks| => FkJoin(fks[i]))
  }

  lemma FkJoinsStep(fks: seq<FkRow>, i: int)
    requires 0 <= i < |fks|
    ensures FkJoins(fks[..i + 1]) == FkJoins(fks[..i]) + [FkJoin(fks[i])]
  {
    assert fks[..i + 1][i] == fks[i];
  }

  /** The foreign-key loop of `_expand_context`: one join per foreign key,
      appended after the explicit joins, in order and without removing
      duplicates. */
  method AddForeignKeyJoins(joins: seq<JoinRow>, fks: seq<FkRow>) returns (all: seq<JoinRow>)
    ensures all == joins + FkJoins(fks)
  {
    all := joins;
    var i := 0;
    while i < |fks|
      invariant 0 <= i <= |fks|
      invariant all == joins + FkJoins(fks[..i])
    {
      FkJoinsStep(fks, i);
      all := all + [FkJoin(fks[i])];
      i := i + 1;
    }
    assert fks[..i] == fks;
  }

  /** What the graph queries of `_expand_context` return for the seed tables. */
  datatype GraphRows = GraphRows(tables: seq<Node>, keyColumns: seq<Node>, tableColumns: seq<Node>,
                                 joins: seq<JoinRow>, fks: seq<FkRow>, metrics: seq<Node>)

  /** The graph database: the rows its queries return for a set of tables. */
  type Graph = set<string> -> GraphRows

  datatype Context = Context(tables: seq<Node>, columns: seq<Node>, joins: seq<JoinRow>, metrics: seq<Node>)

  /** `_expand_context` over the rows the graph returned for `tableNames`. */
  method ExpandContext(tableNames: set<string>, relevant: set<ColumnKey>, rows: GraphRows) returns (c: Context)
    ensures tableNames == {} ==> c == Context([], [], [], [])
    ensures tableNames != {} ==> c.tables == rows.tables && c.metrics == rows.metrics
    ensures tableNames != {} ==> c.columns == MergedColumns(rows.keyColumns, VectorRows(rows.tableColumns, relevant))
    ensures tableNames != {} ==> c.joins == rows.joins + FkJoins(rows.fks)
  {
    if tableNames == {} {
      return Context([], [], [], []);
    }
    var vectorRows := FilterVectorRows(rows.tableColumns, relevant);
    var columns := MergeColumns(rows.keyColumns, vectorRows);
    var joins := AddForeignKeyJoins(rows.joins, rows.fks);
    c := Context(rows.tables, columns, joins, rows.metrics);
  }

  /** `_get_sample_queries`: sample queries are not kept in the graph. */
  function SampleQueries(tableNames: set<string>, limit: int): seq<Node>
  {
    []
  }

  datatype Retrieval = Retrieval(question: string, vectorMatches: seq<SearchHit>, tables: seq<Node>, columns: seq<Node>,
                                 joins: seq<JoinRow>, metrics: seq<Node>, sampleQueries: seq<Node>)

  /** `retrieve`: a search over all indexed labels, seeds drawn from its
      matches, the context expanded from the graph rows of the seed tables,
      and no sample queries. */
  method Retrieve(store: Store, prefix: string, defaultTopK: int, graph: Graph, question: string, topK: int)
    returns (r: Retrieval)
    ensures r.question == question
    ensures r.vectorMatches == SearchAll(store, prefix, EffectiveTopK(Some(topK), defaultTopK))
    ensures var seeds := SeedTables(r.vectorMatches);
            seeds == {} ==> r.tables == [] && r.columns == [] && r.joins == [] && r.metrics == []
    ensures var seeds := SeedTables(r.vectorMatches);
            var rows := graph(seeds);
            seeds != {} ==>
              && r.tables == rows.tables && r.metrics == rows.metrics
              && r.columns == MergedColumns(rows.keyColumns, VectorRows(rows.tableColumns, SeedColumns(r.vectorMatches)))
              && r.joins == rows.joins + FkJoins(rows.fks)
    ensures r.sampleQueries == []
  {
    var found := VectorSearch(store, prefix, defaultTopK, None, Some(topK));
    var matches := found.value;
    var tables := ExtractRelevantTables(matches);
    var columns := ExtractRelevantColumns(matches);
    var context := ExpandContext(tables, columns, graph(tables));
    r := Retrieval(question, matches, context.tables, context.columns, context.joins, context.metrics,
                   SampleQueries(tables, 3));
  }
}
