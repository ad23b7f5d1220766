// The cache-backed schema loader: pick the tables a question needs, take
// their schemas from the cache or the database, and format them for the
// prompt.

module SchemaLoader {
  import opened Common
  import opened SchemaCache
  import TableSelector

  // ---------------------------------------------------------------------------
  // The database, as the rows its two metadata queries return
  // ---------------------------------------------------------------------------

  /** A row of the `information_schema.columns` query: column name, data
      type, `is_nullable` and `column_key` ("PRI" for a primary-key column). */
  datatype ColumnRow = ColumnRow(name: string, dataType: string, isNullable: string, columnKey: string)

  /** A row of the `information_schema.key_column_usage` query: the local
      column and the table and column it references. */
  datatype ForeignKeyRow = ForeignKeyRow(column: string, referencedTable: string, referencedColumn: string)

  /** The outcome of one query: `Err` when it raises, `Ok(None)` when it
      returns no result set, otherwise the rows. */
  type Rows<R> = Result<Option<seq<R>>, string>

  /** The connection, as the answer of each query for a table name. The
      sample query's rows are never used; only whether it raises matters. */
  datatype Database = Database(
    columnRows: string -> Rows<ColumnRow>,
    foreignKeyRows: string -> Rows<ForeignKeyRow>,
    sampleRows: string -> Rows<seq<string>>)

  // ---------------------------------------------------------------------------
  // Turning rows into a TableSchema
  // ---------------------------------------------------------------------------

  function ColumnOf(row: ColumnRow): ColumnInfo
  {
    ColumnInfo(row.name, row.dataType, row.isNullable)
  }

  function ForeignKeyOf(row: ForeignKeyRow): ForeignKey
  {
    ForeignKey(row.column, row.referencedTable + "." + row.referencedColumn)
  }

  /** The name of the last row marked "PRI": each such row overwrites the
      primary key seen so far. */
  function LastPrimaryKey(rows: seq<ColumnRow>): Option<string>
  {
    if rows == [] then None
    else if rows[|rows| - 1].columnKey == "PRI" then Some(rows[|rows| - 1].name)
    else LastPrimaryKey(rows[..|rows| - 1])
  }

  /** `fk_result or []`: a missing result set counts as no foreign keys. */
  function RowsOrEmpty<R>(rows: Option<seq<R>>): seq<R>
  {
    if rows.Some? then rows.value else []
  }

  /** `_load_from_db`: None when the column query raises or returns no rows,
      or when a later query raises; otherwise the schema converted from the
      rows, with no sample data, stamped with the clock reading `now`. */
  function Load(db: Database, name: string, includeSamples: bool, now: int): Option<TableSchema>
  {
    var columnResult := db.columnRows(name);
    if columnResult.Err? || columnResult.value.None? || columnResult.value.value == [] then None
    else
      var rows := columnResult.value.value;
      var fkResult := db.foreignKeyRows(name);
      if fkResult.Err? then None
      else if includeSamples && db.sampleRows(name).Err? then None
      else
        Some(TableSchema(name, MapSeq(rows, ColumnOf), LastPrimaryKey(rows),
                         MapSeq(RowsOrEmpty(fkResult.value), ForeignKeyOf), [], now))
  }

  /** With no rows there is no primary key; otherwise the primary key is the
      name of the last "PRI" row. */
  lemma {:induction false} LastPrimaryKeyNone(rows: seq<ColumnRow>)
    ensures LastPrimaryKey(rows) == None <==> forall i :: 0 <= i < |rows| ==> rows[i].columnKey != "PRI"
  {
    if rows != [] {
      var init := rows[..|rows| - 1];
      LastPrimaryKeyNone(init);
      assert forall i :: 0 <= i < |init| ==> init[i] == rows[i];
    }
  }

  /** A "PRI" row with no "PRI" row after it names the primary key. */
  lemma {:induction false} LastPrimaryKeyAt(rows: seq<ColumnRow>, i: nat)
    requires i < |rows| && rows[i].columnKey == "PRI"
    requires forall j :: i < j < |rows| ==> rows[j].columnKey != "PRI"
    ensures LastPrimaryKey(rows) == Some(rows[i].name)
  {
    if i < |rows| - 1 {
      var init := rows[..|rows| - 1];
      assert init[i] == rows[i];
      assert forall j :: i < j < |init| ==> init[j] == rows[j];
      LastPrimaryKeyAt(init, i);
    }
  }

  /** A primary key found is the name of a "PRI" row that no later "PRI"
      row overrides. */
  lemma {:induction false} LastPrimaryKeyFound(rows: seq<ColumnRow>)
    requires LastPrimaryKey(rows).Some?
    ensures exists i :: 0 <= i < |rows| && rows[i].columnKey == "PRI" && rows[i].name == LastPrimaryKey(rows).value
                        && forall j :: i < j < |rows| ==> rows[j].columnKey != "PRI"
  {
    var n := |rows| - 1;
    if rows[n].columnKey != "PRI" {
      var init := rows[..n];
      assert LastPrimaryKey(rows) == LastPrimaryKey(init);
      LastPrimaryKeyFound(init);
      var i :| 0 <= i < |init| && init[i].columnKey == "PRI" && init[i].name == LastPrimaryKey(init).value
               && forall j :: i < j < |init| ==> init[j].columnKey != "PRI";
      assert rows[i] == init[i];
      assert forall j :: i < j < n ==> rows[j] == init[j];
      assert forall j :: i < j < |rows| ==> rows[j].columnKey != "PRI";
    } else {
      assert rows[n].name == LastPrimaryKey(rows).value;
    }
  }

  /** The error cases of `_load_from_db`: a raising column query, no result
      set, an empty result set, a raising foreign-key query and a raising
      sample query all yield None. */
  lemma LoadNone(db: Database, name: string, includeSamples: bool, now: int)
    ensures db.columnRows(name).Err? ==> Load(db, name, includeSamples, now) == None
    ensures db.columnRows(name) == Ok(None) ==> Load(db, name, includeSamples, now) == None
    ensures db.columnRows(name) == Ok(Some([])) ==> Load(db, name, includeSamples, now) == None
    ensures db.foreignKeyRows(name).Err? ==> Load(db, name, includeSamples, now) == None
    ensures includeSamples && db.sampleRows(name).Err? ==> Load(db, name, includeSamples, now) == None
  {
  }

  /** A loaded schema carries the table's name, one column per row in row
      order, one foreign key `table.column` per foreign-key row in row order,
      no sample data and the load time. */
  lemma LoadedShape(db: Database, name: string, includeSamples: bool, now: int)
    requires Load(db, name, includeSamples, now).Some?
    ensures var s := Load(db, name, includeSamples, now).value;
            var rows := db.columnRows(name).value.value;
            var fks := RowsOrEmpty(db.foreignKeyRows(name).value);
            && rows != []
            && s.name == name && s.sampleData == [] && s.loadedAt == now
            && |s.columns| == |rows|
            && (forall i :: 0 <= i < |rows| ==>
                  s.columns[i] == ColumnInfo(rows[i].name, rows[i].dataType, rows[i].isNullable))
            && s.primaryKey == LastPrimaryKey(rows)
            && |s.foreignKeys| == |fks|
            && (forall i :: 0 <= i < |fks| ==>
                  s.foreignKeys[i] == ForeignKey(fks[i].column, fks[i].referencedTable + "." + fks[i].referencedColumn))
  {
  }

  // ---------------------------------------------------------------------------
  // `_load_schemas`: the cache pass and the database pass
  // ---------------------------------------------------------------------------

  /** A cache lookup of `k` at time `now` is a hit. */
  predicate Fresh(st: CacheState, ttl: int, now: int, k: string)
  {
    k in st.entries && !Expired(st.entries[k], ttl, now)
  }

  /** The names, in order and duplicates included, whose lookup misses. */
  function Misses(st: CacheState, ttl: int, now: int, names: seq<string>): seq<string>
  {
    if names == [] then []
    else (if Fresh(st, ttl, now, names[0]) then [] else [names[0]]) + Misses(st, ttl, now, names[1..])
  }

  /** A name is listed as a miss exactly when it is requested and its lookup
      misses. */
  lemma {:induction false} MissesMembers(st: CacheState, ttl: int, now: int, names: seq<string>, k: string)
    ensures k in Misses(st, ttl, now, names) <==> k in names && !Fresh(st, ttl, now, k)
  {
    if names != [] {
      MissesMembers(st, ttl, now, names[1..], k);
      assert k in names <==> k == names[0] || k in names[1..] by {
        assert names == [names[0]] + names[1..];
      }
    }
  }

  /** The cache pass: look each name up in turn, collecting the hits and,
      in order, the names to load. */
  function CachePass(st: CacheState, ttl: int, names: seq<string>, now: int,
                     hits: map<string, TableSchema>, misses: seq<string>)
    : (CacheState, map<string, TableSchema>, seq<string>)
    decreases |names|
  {
    if names == [] then (st, hits, misses)
    else
      var (st', r) := GetStep(st, ttl, names[0], now);
      if r.Some? then CachePass(st', ttl, names[1..], now, hits[names[0] := r.value], misses)
      else CachePass(st', ttl, names[1..], now, hits, misses + [names[0]])
  }

  /** The database pass: load each name in turn; every schema loaded is
      stored in the result and written to the cache. */
  function DatabasePass(st: CacheState, maxTables: int, db: Database, includeSamples: bool, now: int,
                        names: seq<string>, schemas: map<string, TableSchema>)
    : (CacheState, map<string, TableSchema>)
    decreases |names|
  {
    if names == [] then (st, schemas)
    else
      match Load(db, names[0], includeSamples, now)
      case Some(s) => DatabasePass(SetStep(st, maxTables, names[0], s), maxTables, db, includeSamples, now,
                                   names[1..], schemas[names[0] := s])
      case None => DatabasePass(st, maxTables, db, includeSamples, now, names[1..], schemas)
  }

  /** One name of the database pass. */
  lemma DatabasePassStep(st: CacheState, maxTables: int, db: Database, includeSamples: bool, now: int,
                         names: seq<string>, schemas: map<string, TableSchema>)
    requires names != []
    ensures var l := Load(db, names[0], includeSamples, now);
            DatabasePass(st, maxTables, db, includeSamples, now, names, schemas)
            == if l.Some?
               then DatabasePass(SetStep(st, maxTables, names[0], l.value), maxTables, db, includeSamples, now,
                                 names[1..], schemas[names[0] := l.value])
               else DatabasePass(st, maxTables, db, includeSamples, now, names[1..], schemas)
  {
  }

  /** `_load_schemas`: the cache pass, then the database pass over its
      misses starting from its hits. */
  function LoadSchemasStep(st: CacheState, ttl: int, maxTables: int, db: Database, includeSamples: bool,
                           names: seq<string>, now: int)
    : (CacheState, map<string, TableSchema>)
  {
    var (st1, hits, misses) := CachePass(st, ttl, names, now, map[], []);
    DatabasePass(st1, maxTables, db, includeSamples, now, misses, hits)
  }

  /** A lookup changes no other name's hit or miss, nor the schema a hit
      returns. */
  lemma GetStepKeepsFresh(st: CacheState, ttl: int, name: string, now: int, k: string)
    ensures var st' := GetStep(st, ttl, name, now).0;
            && (Fresh(st', ttl, now, k) <==> Fresh(st, ttl, now, k))
            && (Fresh(st, ttl, now, k) ==> st'.entries[k] == st.entries[k])
  {
  }

  /** The cache pass collects the same hits, and leaves the cache in the
      same state, as `get_multiple`. */
  lemma {:induction false} CachePassHits(st: CacheState, ttl: int, names: seq<string>, now: int,
                                         hits: map<string, TableSchema>, misses: seq<string>)
    ensures var (st', hits', _) := CachePass(st, ttl, names, now, hits, misses);
            (st', hits') == GetMultipleStep(st, ttl, names, now, hits)
    decreases |names|
  {
    if names != [] {
      var (st1, r) := GetStep(st, ttl, names[0], now);
      if r.Some? {
        CachePassHits(st1, ttl, names[1..], now, hits[names[0] := r.value], misses);
      } else {
        CachePassHits(st1, ttl, names[1..], now, hits, misses + [names[0]]);
      }
    }
  }

  /** The names to load are exactly the names whose lookup misses in the
      cache as it was before the pass, in order, duplicates included. */
  lemma {:induction false} CachePassMisses(st: CacheState, ttl: int, names: seq<string>, now: int,
                                           hits: map<string, TableSchema>, misses: seq<string>)
    ensures CachePass(st, ttl, names, now, hits, misses).2 == misses + Misses(st, ttl, now, names)
    decreases |names|
  {
    if names != [] {
      var n := names[0];
      var (st1, r) := GetStep(st, ttl, n, now);
      GetStepKeepsFresh(st, ttl, n, now, n);
      var m := if r.Some? then misses else misses + [n];
      var h := if r.Some? then hits[n := r.value] else hits;
      CachePassMisses(st1, ttl, names[1..], now, h, m);
      MissesSame(names[1..], st, st1, ttl, n, now);
      var rest := Misses(st, ttl, now, names[1..]);
      if r.Some? {
        assert Misses(st, ttl, now, names) == [] + rest;
        assert [] + rest == rest;
      } else {
        assert Misses(st, ttl, now, names) == [n] + rest;
        assert (misses + [n]) + rest == misses + ([n] + rest);
      }
    }
  }

  /** A lookup of `name` leaves every hit and miss as it was, so the misses
      among the remaining names are the same before and after it. */
  lemma {:induction false} MissesSame(xs: seq<string>, st: CacheState, st1: CacheState, ttl: int, name: string, now: int)
    requires st1 == GetStep(st, ttl, name, now).0
    ensures Misses(st1, ttl, now, xs) == Misses(st, ttl, now, xs)
  {
    if xs != [] {
      GetStepKeepsFresh(st, ttl, name, now, xs[0]);
      MissesSame(xs[1..], st, st1, ttl, name, now);
    }
  }

  /** A lookup only ever drops an entry; the entries it keeps are unchanged. */
  lemma {:induction false} CachePassEntries(st: CacheState, ttl: int, names: seq<string>, now: int,
                                            hits: map<string, TableSchema>, misses: seq<string>, k: string)
    ensures var st' := CachePass(st, ttl, names, now, hits, misses).0;
            k in st'.entries ==> k in st.entries && st'.entries[k] == st.entries[k]
    decreases |names|
  {
    if names != [] {
      var (st1, r) := GetStep(st, ttl, names[0], now);
      if r.Some? {
        CachePassEntries(st1, ttl, names[1..], now, hits[names[0] := r.value], misses, k);
      } else {
        CachePassEntries(st1, ttl, names[1..], now, hits, misses + [names[0]], k);
      }
    }
  }

  /** The schemas the database pass returns: those it started with, with
      every name that loads replaced by what it loaded. */
  lemma {:induction false} DatabasePassResult(st: CacheState, maxTables: int, db: Database, includeSamples: bool, now: int,
                                              names: seq<string>, schemas: map<string, TableSchema>, k: string)
    ensures var r := DatabasePass(st, maxTables, db, includeSamples, now, names, schemas).1;
            var loaded := Load(db, k, includeSamples, now);
            && (k in r <==> k in schemas || (k in names && loaded.Some?))
            && (k in r ==> r[k] == if k in names && loaded.Some? then loaded.value else schemas[k])
    decreases |names|
  {
    if names != [] {
      var n := names[0];
      assert k in names <==> k == n || k in names[1..] by {
        assert names == [n] + names[1..];
      }
      match Load(db, n, includeSamples, now)
      case Some(s) => DatabasePassResult(SetStep(st, maxTables, n, s), maxTables, db, includeSamples, now, names[1..], schemas[n := s], k);
      case None => DatabasePassResult(st, maxTables, db, includeSamples, now, names[1..], schemas, k);
    }
  }

  /** The database pass keeps the cache valid, and afterwards every cached
      entry is one that was cached before or a schema loaded for one of the
      names. */
  lemma {:induction false} DatabasePassCache(st: CacheState, maxTables: int, db: Database, includeSamples: bool, now: int,
                                             names: seq<string>, schemas: map<string, TableSchema>, k: string)
    requires ValidState(st)
    ensures var st' := DatabasePass(st, maxTables, db, includeSamples, now, names, schemas).0;
            && ValidState(st')
            && (k in st'.entries ==>
                  (k in st.entries && st'.entries[k] == st.entries[k])
                  || (k in names && Load(db, k, includeSamples, now) == Some(st'.entries[k])))
    decreases |names|
  {
    if names != [] {
      var n := names[0];
      assert k in names <==> k == n || k in names[1..] by {
        assert names == [n] + names[1..];
      }
      match Load(db, n, includeSamples, now)
      case Some(s) =>
        SetStepValid(st, maxTables, n, s);
        DatabasePassCache(SetStep(st, maxTables, n, s), maxTables, db, includeSamples, now, names[1..], schemas[n := s], k);
      case None =>
        DatabasePassCache(st, maxTables, db, includeSamples, now, names[1..], schemas, k);
    }
  }

  /** The schema loaded for the last name is in the cache afterwards. */
  lemma {:induction false} DatabasePassLast(st: CacheState, maxTables: int, db: Database, includeSamples: bool, now: int,
                                            names: seq<string>, schemas: map<string, TableSchema>)
    requires ValidState(st)
    requires names != [] && Load(db, names[|names| - 1], includeSamples, now).Some?
    ensures var st' := DatabasePass(st, maxTables, db, includeSamples, now, names, schemas).0;
            var last := names[|names| - 1];
            last in st'.entries && st'.entries[last] == Load(db, last, includeSamples, now).value
    decreases |names|
  {
    var n := names[0];
    match Load(db, n, includeSamples, now)
    case Some(s) =>
      SetStepValid(st, maxTables, n, s);
      if |names| > 1 {
        DatabasePassLast(SetStep(st, maxTables, n, s), maxTables, db, includeSamples, now, names[1..], schemas[n := s]);
      }
    case None =>
      DatabasePassLast(st, maxTables, db, includeSamples, now, names[1..], schemas);
  }

  /** What `_load_schemas` returns and leaves in the cache, name by name:
      - the names to load are exactly the requested names that miss in the
        cache, in order, so a hit is never reloaded from the database;
      - a requested name is in the result exactly when it hits or loads, a
        hit with the cached schema and a miss with the loaded one, and no
        other name is in the result;
      - the cache stays valid and holds only schemas it held before or
        schemas loaded for missed names. */
  lemma LoadSchemasProperties(st: CacheState, ttl: int, maxTables: int, db: Database, includeSamples: bool,
                              names: seq<string>, now: int, k: string)
    requires ValidState(st)
    ensures CachePass(st, ttl, names, now, map[], []).2 == Misses(st, ttl, now, names)
    ensures Fresh(st, ttl, now, k) ==> k !in CachePass(st, ttl, names, now, map[], []).2
    ensures var (st', r) := LoadSchemasStep(st, ttl, maxTables, db, includeSamples, names, now);
            var loaded := Load(db, k, includeSamples, now);
            && ValidState(st')
            && (k in r <==> k in names && (Fresh(st, ttl, now, k) || loaded.Some?))
            && (k in r && Fresh(st, ttl, now, k) ==> r[k] == st.entries[k])
            && (k in r && !Fresh(st, ttl, now, k) ==> loaded == Some(r[k]))
            && (k in st'.entries ==>
                  (k in st.entries && st'.entries[k] == st.entries[k])
                  || (k in names && !Fresh(st, ttl, now, k) && loaded == Some(st'.entries[k])))
  {
    LoadSchemasMisses(st, ttl, names, now, k);
    LoadSchemasResult(st, ttl, maxTables, db, includeSamples, names, now, k);
  }

  lemma LoadSchemasMisses(st: CacheState, ttl: int, names: seq<string>, now: int, k: string)
    requires ValidState(st)
    ensures CachePass(st, ttl, names, now, map[], []).2 == Misses(st, ttl, now, names)
    ensures Fresh(st, ttl, now, k) ==> k !in CachePass(st, ttl, names, now, map[], []).2
  {
    CachePassMisses(st, ttl, names, now, map[], []);
    assert [] + Misses(st, ttl, now, names) == Misses(st, ttl, now, names);
    MissesMembers(st, ttl, now, names, k);
  }

  lemma LoadSchemasResult(st: CacheState, ttl: int, maxTables: int, db: Database, includeSamples: bool,
                          names: seq<string>, now: int, k: string)
    requires ValidState(st)
    ensures var (st', r) := LoadSchemasStep(st, ttl, maxTables, db, includeSamples, names, now);
            var loaded := Load(db, k, includeSamples, now);
            && ValidState(st')
            && (k in r <==> k in names && (Fresh(st, ttl, now, k) || loaded.Some?))
            && (k in r && Fresh(st, ttl, now, k) ==> r[k] == st.entries[k])
            && (k in r && !Fresh(st, ttl, now, k) ==> loaded == Some(r[k]))
            && (k in st'.entries ==>
                  (k in st.entries && st'.entries[k] == st.entries[k])
                  || (k in names && !Fresh(st, ttl, now, k) && loaded == Some(st'.entries[k])))
  {
    var (st1, hits, misses) := CachePass(st, ttl, names, now, map[], []);
    CachePassHits(st, ttl, names, now, map[], []);
    GetMultipleSpec(st, ttl, names, now, map[]);
    LoadSchemasMisses(st, ttl, names, now, k);
    MissesMembers(st, ttl, now, names, k);
    CachePassEntries(st, ttl, names, now, map[], [], k);
    DatabasePassResult(st1, maxTables, db, includeSamples, now, misses, hits, k);
    DatabasePassCache(st1, maxTables, db, includeSamples, now, misses, hits, k);
  }

  // ---------------------------------------------------------------------------
  // `_format_schemas`
  // ---------------------------------------------------------------------------

  const Title: string := "Database Schema:"

  /** `"=" * 40`, written out; `RuleIsForty` relates it to `Repeat`. */
  const Rule: string := "========================================"

  lemma RuleIsForty()
    ensures Rule == Repeat('=', 40)
  {
  }

  /** `TableSchema.to_prompt_string()`. */
  function Render(t: TableSchema): string
  {
    Join("\n", PromptLines(t))
  }

  /** The lines a name contributes: an empty line and its rendered schema
      when it has one, nothing otherwise. */
  function BlockOf(schemas: map<string, TableSchema>): string -> seq<string>
  {
    n => if n in schemas then ["", Render(schemas[n])] else []
  }

  function FormatLines(schemas: map<string, TableSchema>, order: seq<string>): seq<string>
  {
    [Title, Rule] + ConcatMap(order, BlockOf(schemas)) + ["", Rule]
  }

  /** The text `_format_schemas` returns. */
  function Formatted(schemas: map<string, TableSchema>, order: seq<string>): string
  {
    Join("\n", FormatLines(schemas, order))
  }

  /** The names of `order` that have a schema, in order, duplicates
      included. */
  function Present(schemas: map<string, TableSchema>, order: seq<string>): seq<string>
  {
    if order == [] then []
    else
      var last := order[|order| - 1];
      Present(schemas, order[..|order| - 1]) + (if last in schemas then [last] else [])
  }

  lemma {:induction false} PresentMembers(schemas: map<string, TableSchema>, order: seq<string>, k: string)
    ensures k in Present(schemas, order) <==> k in order && k in schemas
  {
    if order != [] {
      var init := order[..|order| - 1];
      PresentMembers(schemas, init, k);
      assert order == init + [order[|order| - 1]];
    }
  }

  /** The blocks are the present names' schemas in order: the i-th present
      name gives an empty line followed by its rendered schema. */
  lemma {:induction false} PresentBlocks(schemas: map<string, TableSchema>, order: seq<string>)
    ensures var blocks := ConcatMap(order, BlockOf(schemas));
            var present := Present(schemas, order);
            && |blocks| == 2 * |present|
            && forall i :: 0 <= i < |present| ==>
                 present[i] in schemas && blocks[2 * i] == "" && blocks[2 * i + 1] == Render(schemas[present[i]])
  {
    if order != [] {
      var init := order[..|order| - 1];
      var last := order[|order| - 1];
      PresentBlocks(schemas, init);
      PresentBlocksStep(schemas, ConcatMap(init, BlockOf(schemas)), Present(schemas, init), last);
    }
  }

  /** Blocks that hold, pair by pair, the rendered schemas of `present`. */
  ghost predicate BlocksOfPresent(schemas: map<string, TableSchema>, blocks: seq<string>, present: seq<string>)
  {
    && |blocks| == 2 * |present|
    && forall i :: 0 <= i < |present| ==>
         present[i] in schemas && blocks[2 * i] == "" && blocks[2 * i + 1] == Render(schemas[present[i]])
  }

  lemma PresentBlocksStep(schemas: map<string, TableSchema>, blocks: seq<string>, present: seq<string>, last: string)
    requires BlocksOfPresent(schemas, blocks, present)
    ensures BlocksOfPresent(schemas, blocks + BlockOf(schemas)(last), present + (if last in schemas then [last] else []))
  {
    if last in schemas {
      var b := blocks + ["", Render(schemas[last])];
      var p := present + [last];
      assert forall i :: 0 <= i < |present| ==> p[i] == present[i] && b[2 * i] == blocks[2 * i] && b[2 * i + 1] == blocks[2 * i + 1];
    } else {
      assert blocks + [] == blocks && present + [] == present;
    }
  }

  /** The loop of `_format_schemas` over the names: an empty line and the
      rendered schema for each name that has one. */
  method BlocksLoop(lines0: seq<string>, schemas: map<string, TableSchema>, order: seq<string>) returns (lines: seq<string>)
    ensures lines == lines0 + ConcatMap(order, BlockOf(schemas))
  {
    lines := lines0;
    var i := 0;
    while i < |order|
      invariant 0 <= i <= |order|
      invariant lines == lines0 + ConcatMap(order[..i], BlockOf(schemas))
    {
      var name := order[i];
      ghost var before := lines;
      if name in schemas {
        lines := lines + [""];
        var text := RenderSchema(schemas[name]);
        lines := lines + [text];
        assert lines == before + ["", text];
      }
      BlocksStep(lines0, before, lines, schemas, order, i);
      i := i + 1;
    }
    assert order[..i] == order;
  }

  /** `to_prompt_string()` of one schema. */
  method RenderSchema(t: TableSchema) returns (text: string)
    ensures text == Render(t)
  {
    text := ToPromptString(t);
  }

  lemma BlocksStep(lines0: seq<string>, before: seq<string>, after: seq<string>,
                   schemas: map<string, TableSchema>, order: seq<string>, i: nat)
    requires i < |order|
    requires before == lines0 + ConcatMap(order[..i], BlockOf(schemas))
    requires after == if order[i] in schemas then before + ["", Render(schemas[order[i]])] else before
    ensures after == lines0 + ConcatMap(order[..i + 1], BlockOf(schemas))
  {
    FormatStep(schemas, order, i);
  }

  /** One more name adds its block, if it has a schema. */
  lemma FormatStep(schemas: map<string, TableSchema>, order: seq<string>, i: nat)
    requires i < |order|
    ensures ConcatMap(order[..i + 1], BlockOf(schemas))
         == ConcatMap(order[..i], BlockOf(schemas)) + (if order[i] in schemas then ["", Render(schemas[order[i]])] else [])
  {
    ConcatMapAppend(order[..i], order[i], BlockOf(schemas));
    assert order[..i + 1] == order[..i] + [order[i]];
  }

  /** The text is the title, the rule, the blocks, an empty line and the
      rule, one per line; so it starts with the title line and the rule and
      ends with an empty line followed by the rule. */
  lemma FormattedShape(schemas: map<string, TableSchema>, order: seq<string>)
    ensures var blocks := ConcatMap(order, BlockOf(schemas));
            Formatted(schemas, order)
              == Title + "\n" + Rule + "\n" + (if blocks == [] then "" else Join("\n", blocks) + "\n") + "\n" + Rule
    ensures StartsWith(Formatted(schemas, order), Title + "\n" + Rule)
    ensures EndsWith(Formatted(schemas, order), "\n\n" + Rule)
    ensures Rule == Repeat('=', 40)
  {
    RuleIsForty();
    FramedShape(Title, Rule, ConcatMap(order, BlockOf(schemas)));
  }

  /** The text of `[a, b] + blocks + ["", b]` joined by newlines. */
  lemma FramedShape(a: string, b: string, blocks: seq<string>)
    ensures var s := Join("\n", [a, b] + blocks + ["", b]);
      && s == a + "\n" + b + "\n" + (if blocks == [] then "" else Join("\n", blocks) + "\n") + "\n" + b
      && StartsWith(s, a + "\n" + b)
      && EndsWith(s, "\n\n" + b)
  {
    var head := a + "\n" + b;
    var body := if blocks == [] then "" else Join("\n", blocks) + "\n";
    JoinShape(a, b, blocks);
    ConcatEnds(head, "\n" + body, "\n" + b);
    var s := Join("\n", [a, b] + blocks + ["", b]);
    assert s == head + ("\n" + body) + ("\n" + b);
    assert s[|s| - |"\n\n" + b|..] == "\n\n" + b;
  }

  /** The join of `[a, b] + blocks + ["", b]`, written out. */
  lemma JoinShape(a: string, b: string, blocks: seq<string>)
    ensures Join("\n", [a, b] + blocks + ["", b])
         == a + "\n" + b + "\n" + (if blocks == [] then "" else Join("\n", blocks) + "\n") + "\n" + b
  {
    JoinConcat("\n", [a, b], blocks + ["", b]);
    assert [a, b] + blocks + ["", b] == [a, b] + (blocks + ["", b]);
    if blocks == [] {
      assert blocks + ["", b] == ["", b];
    } else {
      JoinConcat("\n", blocks, ["", b]);
    }
  }

  // ---------------------------------------------------------------------------
  // The loader
  // ---------------------------------------------------------------------------

  /** `["film", "actor", "customer"]`: the tables used when the selector
      picks none. */
  const FallbackTables: seq<string> := ["film", "actor", "customer"]

  /** `OptimizedSchemaLoader`: a database connection and the shared schema
      cache. The table selector is the `TableSelector` module. */
  class Loader {
    const db: Database
    const cache: Cache

    constructor (db: Database, cache: Cache)
      ensures this.db == db && this.cache == cache
    {
      this.db := db;
      this.cache := cache;
    }

    /** `_load_from_db`: run the column query, convert its rows, run the
      foreign-key query and convert its rows; `now` is the clock reading
      stamped on the schema. */
    method LoadFromDb(name: string, includeSamples: bool, now: int) returns (r: Option<TableSchema>)
      ensures r == Load(db, name, includeSamples, now)
    {
      var columnResult := db.columnRows(name);
      if columnResult.Err? || columnResult.value.None? || columnResult.value.value == [] {
        return None;
      }
      var rows := columnResult.value.value;
      var columns: seq<ColumnInfo> := [];
      var primaryKey: Option<string> := None;
      var i := 0;
      while i < |rows|
        invariant 0 <= i <= |rows|
        invariant |columns| == i && forall j :: 0 <= j < i ==> columns[j] == ColumnOf(rows[j])
        invariant primaryKey == LastPrimaryKey(rows[..i])
      {
        var row := rows[i];
        columns := columns + [ColumnInfo(row.name, row.dataType, row.isNullable)];
        if row.columnKey == "PRI" {
          primaryKey := Some(row.name);
        }
        assert rows[..i + 1][..i] == rows[..i];
        i := i + 1;
      }
      assert rows[..i] == rows;
      var fkResult := db.foreignKeyRows(name);
      if fkResult.Err? {
        return None;
      }
      var fkRows := if fkResult.value.Some? then fkResult.value.value else [];
      var foreignKeys: seq<ForeignKey> := [];
      var j := 0;
      while j < |fkRows|
        invariant 0 <= j <= |fkRows|
        invariant |foreignKeys| == j && forall k :: 0 <= k < j ==> foreignKeys[k] == ForeignKeyOf(fkRows[k])
      {
        foreignKeys := foreignKeys + [ForeignKey(fkRows[j].column, fkRows[j].referencedTable + "." + fkRows[j].referencedColumn)];
        j := j + 1;
      }
      assert columns == MapSeq(rows, ColumnOf);
      assert foreignKeys == MapSeq(RowsOrEmpty(fkResult.value), ForeignKeyOf);
      if includeSamples {
        var sampleResult := db.sampleRows(name);
        if sampleResult.Err? {
          return None;
        }
      }
      r := Some(TableSchema(name, columns, primaryKey, foreignKeys, [], now));
    }

    /** `_load_schemas`: look every name up in the cache, then load the
      misses from the database, storing each schema loaded in the cache. */
    method LoadSchemas(names: seq<string>, includeSamples: bool, now: int) returns (schemas: map<string, TableSchema>)
      requires cache.Valid()
      modifies cache
      ensures cache.Valid()
      ensures (cache.State(), schemas)
           == LoadSchemasStep(old(cache.State()), cache.ttl, cache.maxTables, db, includeSamples, names, now)
    {
      var hits, toLoad := LookUpAll(names, now);
      schemas := LoadAll(toLoad, includeSamples, now, hits);
    }

    /** The first loop of `_load_schemas`: the cache hits, and the names to
      load in order. */
    method LookUpAll(names: seq<string>, now: int) returns (schemas: map<string, TableSchema>, toLoad: seq<string>)
      requires cache.Valid()
      modifies cache
      ensures cache.Valid()
      ensures (cache.State(), schemas, toLoad) == CachePass(old(cache.State()), cache.ttl, names, now, map[], [])
    {
      schemas := map[];
      toLoad := [];
      var i := 0;
      while i < |names|
        invariant 0 <= i <= |names|
        invariant cache.Valid()
        invariant CachePass(cache.State(), cache.ttl, names[i..], now, schemas, toLoad)
               == CachePass(old(cache.State()), cache.ttl, names, now, map[], [])
      {
        assert names[i..][1..] == names[i + 1..];
        var cached := cache.Get(names[i], now);
        if cached.Some? {
          schemas := schemas[names[i] := cached.value];
        } else {
          toLoad := toLoad + [names[i]];
        }
        i := i + 1;
      }
    }

    /** The second loop of `_load_schemas`: load each name, adding every
      schema loaded to the result and to the cache. */
    method LoadAll(toLoad: seq<string>, includeSamples: bool, now: int, hits: map<string, TableSchema>)
      returns (schemas: map<string, TableSchema>)
      requires cache.Valid()
      modifies cache
      ensures cache.Valid()
      ensures (cache.State(), schemas)
           == DatabasePass(old(cache.State()), cache.maxTables, db, includeSamples, now, toLoad, hits)
    {
      schemas := hits;
      var j := 0;
      while j < |toLoad|
        invariant 0 <= j <= |toLoad|
        invariant cache.Valid()
        invariant DatabasePass(cache.State(), cache.maxTables, db, includeSamples, now, toLoad[j..], schemas)
               == DatabasePass(old(cache.State()), cache.maxTables, db, includeSamples, now, toLoad, hits)
      {
        assert toLoad[j..][1..] == toLoad[j + 1..];
        DatabasePassStep(cache.State(), cache.maxTables, db, includeSamples, now, toLoad[j..], schemas);
        var schema := LoadFromDb(toLoad[j], includeSamples, now);
        if schema.Some? {
          schemas := schemas[toLoad[j] := schema.value];
          cache.Set(toLoad[j], schema.value);
        }
        j := j + 1;
      }
    }

    /** `_format_schemas`: the title and the rule, then an empty line and the
      rendered schema of each name of `order` that has one, then an empty
      line and the rule, joined by newlines. */
    method FormatSchemas(schemas: map<string, TableSchema>, order: seq<string>) returns (s: string)
      ensures s == Formatted(schemas, order)
    {
      var lines := BlocksLoop([Title, Rule], schemas, order);
      lines := lines + ["", Rule];
      s := Join("\n", lines);
    }

    /** `get_relevant_schema`: select the tables for the question (falling
      back to film, actor and customer when none is selected), load their
      schemas and format them in selection order. */
    method GetRelevantSchema(question: string, maxTables: int, includeSamples: bool, now: int)
      returns (s: string, ghost selected: seq<string>)
      requires cache.Valid()
      modifies cache
      ensures cache.Valid()
      ensures TableSelector.TopSelection(selected, TableSelector.FinalTables(question),
                                         t => TableSelector.FinalKey(question, t), maxTables)
      ensures var tables := if selected == [] then FallbackTables else selected;
              var (st', schemas) := LoadSchemasStep(old(cache.State()), cache.ttl, cache.maxTables, db, includeSamples, tables, now);
              cache.State() == st' && s == Formatted(schemas, tables)
    {
      var relevant := TableSelector.SelectTables(question, maxTables);
      selected := relevant;
      if relevant == [] {
        relevant := FallbackTables;
      }
      var schemas := LoadSchemas(relevant, includeSamples, now);
      s := FormatSchemas(schemas, relevant);
    }

    /** `get_minimal_schema`: at most three tables, no samples. */
    method GetMinimalSchema(question: string, now: int) returns (s: string, ghost selected: seq<string>)
      requires cache.Valid()
      modifies cache
      ensures cache.Valid()
      ensures TableSelector.TopSelection(selected, TableSelector.FinalTables(question),
                                         t => TableSelector.FinalKey(question, t), 3)
      ensures var tables := if selected == [] then FallbackTables else selected;
              var (st', schemas) := LoadSchemasStep(old(cache.State()), cache.ttl, cache.maxTables, db, false, tables, now);
              cache.State() == st' && s == Formatted(schemas, tables)
    {
      s, selected := GetRelevantSchema(question, 3, false, now);
    }

    /** `get_full_schema`: at most seven tables, with the sample query. */
    method GetFullSchema(question: string, now: int) returns (s: string, ghost selected: seq<string>)
      requires cache.Valid()
      modifies cache
      ensures cache.Valid()
      ensures TableSelector.TopSelection(selected, TableSelector.FinalTables(question),
                                         t => TableSelector.FinalKey(question, t), 7)
      ensures var tables := if selected == [] then FallbackTables else selected;
              var (st', schemas) := LoadSchemasStep(old(cache.State()), cache.ttl, cache.maxTables, db, true, tables, now);
              cache.State() == st' && s == Formatted(schemas, tables)
    {
      s, selected := GetRelevantSchema(question, 7, true, now);
    }
  }
}
