// Table-schema records and the TTL + LRU schema cache.

module SchemaCache {
  import opened Common

  /** One column as the schema loader stores it: name, SQL type and the
      `is_nullable` flag ("YES" or "NO"). */
  datatype ColumnInfo = ColumnInfo(name: string, typ: string, nullable: string)

  /** A foreign key: the local column and the `table.column` it references. */
  datatype ForeignKey = ForeignKey(column: string, references: string)

  /** The cached metadata of one table. `loadedAt` is the clock reading, in
      seconds, when the record was made. */
  datatype TableSchema = TableSchema(
    name: string,
    columns: seq<ColumnInfo>,
    primaryKey: Option<string>,
    foreignKeys: seq<ForeignKey>,
    sampleData: seq<seq<string>>,
    loadedAt: int)

  // ---------------------------------------------------------------------------
  // Prompt rendering of one table
  // ---------------------------------------------------------------------------

  const NotNullSuffix: string := " NOT NULL"
  const PrimaryKeySuffix: string := " PRIMARY KEY"

  function ColumnHead(c: ColumnInfo): string
  {
    "  - " + c.name + " (" + c.typ + ")"
  }

  /** The line of one column: its head, then the NOT NULL and PRIMARY KEY
      markers when they apply, in that order. */
  function ColumnLine(c: ColumnInfo, pk: Option<string>): string
  {
    ColumnHead(c)
      + (if c.nullable == "NO" then NotNullSuffix else "")
      + (if pk == Some(c.name) then PrimaryKeySuffix else "")
  }

  function ForeignKeyLine(fk: ForeignKey): string
  {
    "  - " + fk.column + " -> " + fk.references
  }

  function ColumnLines(cs: seq<ColumnInfo>, pk: Option<string>): (r: seq<string>)
    ensures |r| == |cs|
  {
    if cs == [] then [] else [ColumnLine(cs[0], pk)] + ColumnLines(cs[1..], pk)
  }

  function ForeignKeyLines(fks: seq<ForeignKey>): (r: seq<string>)
    ensures |r| == |fks|
  {
    if fks == [] then [] else [ForeignKeyLine(fks[0])] + ForeignKeyLines(fks[1..])
  }

  /** The lines `to_prompt_string` joins with newlines. */
  function PromptLines(t: TableSchema): seq<string>
  {
    ["Table: " + t.name, "Columns:"]
      + ColumnLines(t.columns, t.primaryKey)
      + (if t.foreignKeys != [] then ["Foreign Keys:"] + ForeignKeyLines(t.foreignKeys) else [])
  }

  /** Renders a table for the prompt, building the line list step by step. */
  method ToPromptString(t: TableSchema) returns (s: string)
    ensures s == Join("\n", PromptLines(t))
  {
    var lines := ["Table: " + t.name];
    lines := lines + ["Columns:"];
    ghost var header := lines;
    assert header == ["Table: " + t.name, "Columns:"];
    var i := 0;
    while i < |t.columns|
      invariant 0 <= i <= |t.columns|
      invariant lines == header + ColumnLines(t.columns[..i], t.primaryKey)
    {
      var colStr := ColumnString(t.columns[i], t.primaryKey);
      ColumnLinesAppend(t.columns[..i], t.columns[i], t.primaryKey);
      assert t.columns[..i + 1] == t.columns[..i] + [t.columns[i]];
      lines := lines + [colStr];
      i := i + 1;
    }
    assert t.columns[..i] == t.columns;
    if t.foreignKeys != [] {
      lines := lines + ["Foreign Keys:"];
      var j := 0;
      ghost var head := lines;
      while j < |t.foreignKeys|
        invariant 0 <= j <= |t.foreignKeys|
        invariant lines == head + ForeignKeyLines(t.foreignKeys[..j])
      {
        var fk := t.foreignKeys[j];
        ForeignKeyLinesAppend(t.foreignKeys[..j], fk);
        assert t.foreignKeys[..j + 1] == t.foreignKeys[..j] + [fk];
        lines := lines + ["  - " + fk.column + " -> " + fk.references];
        j := j + 1;
      }
      assert t.foreignKeys[..j] == t.foreignKeys;
      assert lines == header + ColumnLines(t.columns, t.primaryKey) + (["Foreign Keys:"] + ForeignKeyLines(t.foreignKeys));
    } else {
      assert lines == header + ColumnLines(t.columns, t.primaryKey) + [];
    }
    assert lines == PromptLines(t);
    s := Join("\n", lines);
  }

  /** The text of one column line, marker by marker. */
  method ColumnString(col: ColumnInfo, pk: Option<string>) returns (colStr: string)
    ensures colStr == ColumnLine(col, pk)
  {
    colStr := "  - " + col.name + " (" + col.typ + ")";
    if col.nullable == "NO" {
      colStr := colStr + " NOT NULL";
    }
    if Some(col.name) == pk {
      colStr := colStr + " PRIMARY KEY";
    }
  }

  lemma {:induction false} ColumnLinesAt(cs: seq<ColumnInfo>, pk: Option<string>)
    ensures forall i :: 0 <= i < |cs| ==> ColumnLines(cs, pk)[i] == ColumnLine(cs[i], pk)
  {
    if cs != [] {
      ColumnLinesAt(cs[1..], pk);
    }
  }

  lemma {:induction false} ColumnLinesAppend(cs: seq<ColumnInfo>, c: ColumnInfo, pk: Option<string>)
    ensures ColumnLines(cs + [c], pk) == ColumnLines(cs, pk) + [ColumnLine(c, pk)]
  {
    if cs == [] {
      assert [c][1..] == [];
    } else {
      assert (cs + [c])[1..] == cs[1..] + [c];
      ColumnLinesAppend(cs[1..], c, pk);
    }
  }

  lemma {:induction false} ForeignKeyLinesAppend(fks: seq<ForeignKey>, fk: ForeignKey)
    ensures ForeignKeyLines(fks + [fk]) == ForeignKeyLines(fks) + [ForeignKeyLine(fk)]
  {
    if fks == [] {
      assert [fk][1..] == [];
    } else {
      assert (fks + [fk])[1..] == fks[1..] + [fk];
      ForeignKeyLinesAppend(fks[1..], fk);
    }
  }

  /** The rendering starts with the `Table:` line and has one line per column
      after the `Columns:` header. */
  lemma PromptLinesShape(t: TableSchema)
    ensures |PromptLines(t)| == 2 + |t.columns| + (if t.foreignKeys == [] then 0 else 1 + |t.foreignKeys|)
    ensures PromptLines(t)[0] == "Table: " + t.name && PromptLines(t)[1] == "Columns:"
    ensures forall i :: 0 <= i < |t.columns| ==> PromptLines(t)[2 + i] == ColumnLine(t.columns[i], t.primaryKey)
    ensures StartsWith(Join("\n", PromptLines(t)), "Table: " + t.name)
  {
    ColumnLinesAt(t.columns, t.primaryKey);
    JoinFirst("\n", PromptLines(t));
  }

  /** A column line ends with the PRIMARY KEY marker exactly when the column
      is the table's primary key. */
  lemma PrimaryKeyMarker(c: ColumnInfo, pk: Option<string>)
    ensures EndsWith(ColumnLine(c, pk), PrimaryKeySuffix) <==> pk == Some(c.name)
  {
    var line := ColumnLine(c, pk);
    if pk != Some(c.name) {
      assert line[|line| - 1] == (if c.nullable == "NO" then 'L' else ')');
    }
  }

  /** With the PRIMARY KEY marker taken off, a column line ends with the
      NOT NULL marker exactly when the column is declared non-nullable. */
  lemma NotNullMarker(c: ColumnInfo, pk: Option<string>)
    ensures var line := ColumnLine(c, pk);
            var base := if pk == Some(c.name) then line[..|line| - |PrimaryKeySuffix|] else line;
            EndsWith(base, NotNullSuffix) <==> c.nullable == "NO"
  {
    var line := ColumnLine(c, pk);
    var base := if pk == Some(c.name) then line[..|line| - |PrimaryKeySuffix|] else line;
    assert base == ColumnHead(c) + (if c.nullable == "NO" then NotNullSuffix else "");
    if c.nullable != "NO" {
      assert base[|base| - 1] == ')';
    }
  }

  /** The "Foreign Keys:" header is present exactly when the table has
      foreign keys (no other line can equal it). */
  lemma ForeignKeyHeader(t: TableSchema)
    ensures "Foreign Keys:" in PromptLines(t) <==> t.foreignKeys != []
  {
    var lines := PromptLines(t);
    ColumnLinesAt(t.columns, t.primaryKey);
    if t.foreignKeys == [] {
      forall i | 0 <= i < |lines| ensures lines[i] != "Foreign Keys:" {
        if i >= 2 {
          assert lines[i] == ColumnLine(t.columns[i - 2], t.primaryKey);
          assert lines[i][0] == ' ';
        } else if i == 0 {
          assert lines[i][0] == 'T';
        }
      }
    } else {
      assert lines[2 + |t.columns|] == "Foreign Keys:";
    }
  }

  // ---------------------------------------------------------------------------
  // The cache: a dictionary plus an LRU access-order list
  // ---------------------------------------------------------------------------

  /** The cache's abstract state: the entries and the order of access, least
      recently used first. */
  datatype CacheState = CacheState(entries: map<string, TableSchema>, order: seq<string>)

  /** The representation invariant: the keys are exactly the listed names and
      no name is listed twice. */
  predicate ValidState(st: CacheState)
  {
    st.entries.Keys == Elements(st.order) && NoDuplicates(st.order)
  }

  /** An entry is stale once strictly more than `ttl` has passed. */
  predicate Expired(s: TableSchema, ttl: int, now: int)
  {
    now - s.loadedAt > ttl
  }

  /** `get`: a miss changes nothing; a stale hit drops the entry; a fresh hit
      moves the name to the back of the order. */
  function GetStep(st: CacheState, ttl: int, name: string, now: int): (CacheState, Option<TableSchema>)
  {
    if name !in st.entries then (st, None)
    else if Expired(st.entries[name], ttl, now) then
      (CacheState(st.entries - {name}, RemoveFirst(st.order, name)), None)
    else
      (CacheState(st.entries, RemoveFirst(st.order, name) + [name]), Some(st.entries[name]))
  }

  /** The eviction loop of `set`: pop the front of the order while the map
      holds at least `maxTables` entries and the order is non-empty. */
  function Evict(entries: map<string, TableSchema>, order: seq<string>, maxTables: int): CacheState
    decreases |order|
  {
    if |entries| >= maxTables && order != [] then
      Evict(entries - {order[0]}, order[1..], maxTables)
    else
      CacheState(entries, order)
  }

  /** `set`: evict, store, and make the name the most recently used. */
  function SetStep(st: CacheState, maxTables: int, name: string, schema: TableSchema): CacheState
  {
    var ev := Evict(st.entries, st.order, maxTables);
    CacheState(ev.entries[name := schema], RemoveFirst(ev.order, name) + [name])
  }

  function InvalidateStep(st: CacheState, name: string): CacheState
  {
    CacheState(st.entries - {name}, RemoveFirst(st.order, name))
  }

  /** The number of names eviction keeps out of `n` in a valid state. */
  function Kept(n: nat, maxTables: int): (k: nat)
    ensures k <= n
    ensures maxTables >= 1 ==> k < maxTables
  {
    if maxTables <= 0 then 0 else if n >= maxTables then maxTables - 1 else n
  }

  lemma ValidTail(st: CacheState)
    requires ValidState(st) && st.order != []
    ensures ValidState(CacheState(st.entries - {st.order[0]}, st.order[1..]))
  {
    var o := st.order;
    assert NoDuplicates(o[1..]) by {
      forall i, j | 0 <= i < j < |o[1..]| ensures o[1..][i] != o[1..][j] {
        assert o[1..][i] == o[i + 1] && o[1..][j] == o[j + 1];
      }
    }
    assert o[0] !in o[1..];
    assert o == [o[0]] + o[1..];
    assert Elements(o) == Elements(o[1..]) + {o[0]};
  }

  lemma ValidSize(st: CacheState)
    requires ValidState(st)
    ensures |st.entries| == |st.order|
  {
    ElementsCard(st.order);
    assert |st.entries.Keys| == |st.entries|;
  }

  /** In a valid state eviction pops exactly the least recently used names
      beyond the `Kept` count and keeps the state valid. */
  lemma EvictLru(st: CacheState, maxTables: int)
    requires ValidState(st)
    ensures ValidState(Evict(st.entries, st.order, maxTables))
    ensures Evict(st.entries, st.order, maxTables).order == st.order[|st.order| - Kept(|st.order|, maxTables)..]
  {
    EvictValid(st, maxTables);
    EvictOrder(st, maxTables);
  }

  lemma {:induction false} EvictValid(st: CacheState, maxTables: int)
    requires ValidState(st)
    ensures ValidState(Evict(st.entries, st.order, maxTables))
    decreases |st.order|
  {
    if |st.entries| >= maxTables && st.order != [] {
      ValidTail(st);
      EvictValid(CacheState(st.entries - {st.order[0]}, st.order[1..]), maxTables);
    }
  }

  lemma EvictOrder(st: CacheState, maxTables: int)
    requires ValidState(st)
    ensures Evict(st.entries, st.order, maxTables).order == st.order[|st.order| - Kept(|st.order|, maxTables)..]
  {
    FitsOfValid(st);
    EvictOrderFits(st.entries, st.order, maxTables);
  }

  /** Each name of `order` in turn is an entry, and popping them from the
      front keeps as many entries as names. */
  ghost predicate Fits(entries: map<string, TableSchema>, order: seq<string>)
    decreases |order|
  {
    |entries| == |order| && (order != [] ==> order[0] in entries && Fits(entries - {order[0]}, order[1..]))
  }

  lemma {:induction false} FitsOfValid(st: CacheState)
    requires ValidState(st)
    ensures Fits(st.entries, st.order)
    decreases |st.order|
  {
    ValidSize(st);
    if st.order != [] {
      ValidTail(st);
      FitsOfValid(CacheState(st.entries - {st.order[0]}, st.order[1..]));
      assert st.order[0] in Elements(st.order);
    }
  }

  lemma {:induction false} EvictOrderFits(entries: map<string, TableSchema>, order: seq<string>, maxTables: int)
    requires Fits(entries, order)
    ensures Evict(entries, order, maxTables).order == order[|order| - Kept(|order|, maxTables)..]
    decreases |order|
  {
    if |entries| >= maxTables && order != [] {
      EvictOrderFits(entries - {order[0]}, order[1..], maxTables);
      EvictOrderStep(entries, order, maxTables);
    } else {
      EvictOrderStop(entries, order, maxTables);
    }
  }

  /** One pop: the eviction of a state is the eviction of its tail. */
  lemma EvictOrderStep(entries: map<string, TableSchema>, order: seq<string>, maxTables: int)
    requires |entries| == |order| && order != [] && |entries| >= maxTables
    requires Evict(entries - {order[0]}, order[1..], maxTables).order
      == order[1..][|order| - 1 - Kept(|order| - 1, maxTables)..]
    ensures Evict(entries, order, maxTables).order == order[|order| - Kept(|order|, maxTables)..]
  {
    var n := |order|;
    assert Kept(n - 1, maxTables) == Kept(n, maxTables);
    assert order[1..][n - 1 - Kept(n, maxTables)..] == order[n - Kept(n, maxTables)..];
  }

  /** No pop: eviction keeps the whole order. */
  lemma EvictOrderStop(entries: map<string, TableSchema>, order: seq<string>, maxTables: int)
    requires |entries| == |order| && !(|entries| >= maxTables && order != [])
    ensures Evict(entries, order, maxTables).order == order[|order| - Kept(|order|, maxTables)..]
  {
    var n := |order|;
    assert Kept(n, maxTables) == n;
    assert order[n - n..] == order;
  }

  /** Eviction only removes entries; the ones it keeps are unchanged. */
  lemma {:induction false} EvictKeeps(entries: map<string, TableSchema>, order: seq<string>, maxTables: int)
    ensures forall k :: k in Evict(entries, order, maxTables).entries ==>
              k in entries && Evict(entries, order, maxTables).entries[k] == entries[k]
    decreases |order|
  {
    if |entries| >= maxTables && order != [] {
      EvictKeeps(entries - {order[0]}, order[1..], maxTables);
    }
  }

  /** Moving (or adding) a name to the back of a duplicate-free order. */
  lemma MoveToBack(order: seq<string>, name: string)
    requires NoDuplicates(order)
    ensures NoDuplicates(RemoveFirst(order, name) + [name])
    ensures Elements(RemoveFirst(order, name) + [name]) == Elements(order) + {name}
    ensures |RemoveFirst(order, name) + [name]| <= |order| + 1
  {
    RemoveFirstNoDuplicates(order, name);
    var r := RemoveFirst(order, name);
    var o := r + [name];
    assert Elements(r) == Elements(order) - {name};
    forall i, j | 0 <= i < j < |o| ensures o[i] != o[j] {
      if j == |r| {
        assert r[i] in r;
      } else {
        assert o[i] == r[i] && o[j] == r[j];
      }
    }
  }

  lemma GetStepValid(st: CacheState, ttl: int, name: string, now: int)
    requires ValidState(st)
    ensures ValidState(GetStep(st, ttl, name, now).0)
  {
    if name in st.entries {
      RemoveFirstNoDuplicates(st.order, name);
      assert Elements(RemoveFirst(st.order, name)) == Elements(st.order) - {name};
      MoveToBack(st.order, name);
    }
  }

  /** After `set(name, schema)` the state is valid, `name` is the most
      recently used entry and maps to `schema`, the other entries are ones
      that were cached before, and with a positive capacity the size is at
      most `maxTables`. */
  lemma SetStepValid(st: CacheState, maxTables: int, name: string, schema: TableSchema)
    requires ValidState(st)
    ensures var st' := SetStep(st, maxTables, name, schema);
            && ValidState(st')
            && st'.order[|st'.order| - 1] == name
            && st'.entries[name] == schema
            && (forall k :: k in st'.entries && k != name ==> k in st.entries && st'.entries[k] == st.entries[k])
            && (maxTables >= 1 ==> |st'.entries| <= maxTables)
  {
    SetStepShape(st, maxTables, name, schema);
    SetStepKeeps(st, maxTables, name, schema);
    SetStepBound(st, maxTables, name, schema);
  }

  lemma SetStepShape(st: CacheState, maxTables: int, name: string, schema: TableSchema)
    requires ValidState(st)
    ensures var st' := SetStep(st, maxTables, name, schema);
            ValidState(st') && st'.order[|st'.order| - 1] == name && st'.entries[name] == schema
  {
    var ev := Evict(st.entries, st.order, maxTables);
    EvictValid(st, maxTables);
    StoreLast(ev, name, schema);
  }

  /** Storing a name and moving it to the back keeps a state valid. */
  lemma StoreLast(st: CacheState, name: string, schema: TableSchema)
    requires ValidState(st)
    ensures var st' := CacheState(st.entries[name := schema], RemoveFirst(st.order, name) + [name]);
            ValidState(st') && st'.order[|st'.order| - 1] == name && st'.entries[name] == schema
  {
    MoveToBack(st.order, name);
    assert st.entries[name := schema].Keys == st.entries.Keys + {name};
  }

  lemma SetStepKeeps(st: CacheState, maxTables: int, name: string, schema: TableSchema)
    ensures var st' := SetStep(st, maxTables, name, schema);
            forall k :: k in st'.entries && k != name ==> k in st.entries && st'.entries[k] == st.entries[k]
  {
    EvictKeeps(st.entries, st.order, maxTables);
  }

  lemma SetStepBound(st: CacheState, maxTables: int, name: string, schema: TableSchema)
    requires ValidState(st)
    ensures maxTables >= 1 ==> |SetStep(st, maxTables, name, schema).entries| <= maxTables
  {
    var st' := SetStep(st, maxTables, name, schema);
    EvictLru(st, maxTables);
    MoveToBack(Evict(st.entries, st.order, maxTables).order, name);
    assert |st'.entries| == |st'.order| by { SetStepShape(st, maxTables, name, schema); ValidSize(st'); }
  }

  lemma InvalidateStepValid(st: CacheState, name: string)
    requires ValidState(st)
    ensures ValidState(InvalidateStep(st, name))
    ensures InvalidateStep(st, name).entries.Keys == st.entries.Keys - {name}
    ensures forall k :: k in InvalidateStep(st, name).entries ==> InvalidateStep(st, name).entries[k] == st.entries[k]
    ensures name !in st.entries ==> InvalidateStep(st, name) == st
  {
    RemoveFirstNoDuplicates(st.order, name);
    assert Elements(RemoveFirst(st.order, name)) == Elements(st.order) - {name};
  }

  /** A miss leaves everything as it was; an expired entry is removed from
      both structures; a fresh hit returns the stored schema and makes the
      name the most recently used. An entry aged exactly `ttl` is a hit. */
  lemma GetStepCases(st: CacheState, ttl: int, name: string, now: int)
    requires ValidState(st)
    ensures name !in st.entries ==> GetStep(st, ttl, name, now) == (st, None)
    ensures name in st.entries && now - st.entries[name].loadedAt > ttl ==>
              var (st', r) := GetStep(st, ttl, name, now);
              r == None && name !in st'.entries && name !in st'.order
              && st'.entries.Keys == st.entries.Keys - {name}
              && st'.entries == st.entries - {name}
    ensures name in st.entries && now - st.entries[name].loadedAt <= ttl ==>
              var (st', r) := GetStep(st, ttl, name, now);
              r == Some(st.entries[name]) && st'.entries == st.entries
              && st'.order[|st'.order| - 1] == name
              && Elements(st'.order) == Elements(st.order)
  {
    GetStepValid(st, ttl, name, now);
    RemoveFirstNoDuplicates(st.order, name);
  }

  /** The other names keep their relative order: an expired entry's name
      leaves a gap that closes, and a fresh hit's name moves from its
      position to the back. This is the order eviction reads. */
  lemma GetStepOrder(st: CacheState, ttl: int, name: string, now: int, i: nat)
    requires ValidState(st) && i < |st.order| && st.order[i] == name
    ensures Expired(st.entries[name], ttl, now) ==>
              GetStep(st, ttl, name, now).0.order == st.order[..i] + st.order[i + 1..]
    ensures !Expired(st.entries[name], ttl, now) ==>
              GetStep(st, ttl, name, now).0.order == st.order[..i] + st.order[i + 1..] + [name]
  {
    assert name in Elements(st.order);
    RemoveFirstUnique(st.order, i);
  }

  /** A `set` followed by a `get` of the same name at the same time returns
      the stored schema unless it is already stale. */
  lemma SetThenGet(st: CacheState, maxTables: int, ttl: int, name: string, schema: TableSchema, now: int)
    requires ValidState(st)
    ensures GetStep(SetStep(st, maxTables, name, schema), ttl, name, now).1
         == if Expired(schema, ttl, now) then None else Some(schema)
  {
    SetStepValid(st, maxTables, name, schema);
  }

  /** `set` evicts from the front even when the name is already cached:
      with capacity 2 and order [a, b], storing b again drops a. */
  lemma SetEvictsWhenPresent(sa: TableSchema, sb: TableSchema)
    ensures var st := CacheState(map["a" := sa, "b" := sb], ["a", "b"]);
            var st' := SetStep(st, 2, "b", sb);
            ValidState(st) && st'.entries == map["b" := sb] && st'.order == ["b"]
  {
    PairValid(sa, sb);
    EvictFullPair(sa, sb);
    StoreAgain(sb);
  }

  lemma PairValid(sa: TableSchema, sb: TableSchema)
    ensures ValidState(CacheState(map["a" := sa, "b" := sb], ["a", "b"]))
  {
    assert Elements(["a", "b"]) == {"a", "b"};
  }

  /** Storing `b` again in the state holding only `b` leaves it as it is. */
  lemma StoreAgain(sb: TableSchema)
    ensures var ev := CacheState(map["b" := sb], ["b"]);
            CacheState(ev.entries["b" := sb], RemoveFirst(ev.order, "b") + ["b"]) == ev
  {
    assert RemoveFirst(["b"], "b") == [];
    assert map["b" := sb]["b" := sb] == map["b" := sb];
  }

  /** At capacity 2, eviction from `[a, b]` drops `a` and stops. */
  lemma EvictFullPair(sa: TableSchema, sb: TableSchema)
    ensures Evict(map["a" := sa, "b" := sb], ["a", "b"], 2) == CacheState(map["b" := sb], ["b"])
  {
    var m := map["a" := sa, "b" := sb];
    assert |m| == 2 by {
      assert m.Keys == {"a", "b"};
    }
    var e1 := m - {"a"};
    assert e1 == map["b" := sb] && |e1| == 1;
    assert ["a", "b"][1..] == ["b"];
  }

  /** One round of the eviction loop, whether or not the oldest name is
      still cached. */
  lemma EvictPop(entries: map<string, TableSchema>, order: seq<string>, maxTables: int)
    requires |entries| >= maxTables && order != []
    ensures Evict(entries, order, maxTables)
         == Evict(if order[0] in entries then entries - {order[0]} else entries, order[1..], maxTables)
  {
    if order[0] !in entries {
      assert entries - {order[0]} == entries;
    }
  }

  /** The `get_multiple` fold: each name is looked up in turn and the hits are
      collected, later duplicates overwriting earlier ones. */
  function GetMultipleStep(st: CacheState, ttl: int, names: seq<string>, now: int, acc: map<string, TableSchema>)
    : (CacheState, map<string, TableSchema>)
    decreases |names|
  {
    if names == [] then (st, acc)
    else
      var (st', r) := GetStep(st, ttl, names[0], now);
      GetMultipleStep(st', ttl, names[1..], now, if r.Some? then acc[names[0] := r.value] else acc)
  }

  /** `get_multiple` returns exactly the requested names that hold a fresh
      entry, each with its stored schema, and keeps the state valid. */
  lemma {:induction false} GetMultipleSpec(st: CacheState, ttl: int, names: seq<string>, now: int, acc: map<string, TableSchema>)
    requires ValidState(st)
    requires forall k :: k in acc ==> k in st.entries && acc[k] == st.entries[k] && !Expired(acc[k], ttl, now)
    ensures var (st', r) := GetMultipleStep(st, ttl, names, now, acc);
            && ValidState(st')
            && (forall k :: k in r <==> k in acc || (k in names && k in st.entries && !Expired(st.entries[k], ttl, now)))
            && (forall k :: k in r ==> k in st.entries && r[k] == st.entries[k])
    decreases |names|
  {
    if names != [] {
      var n := names[0];
      GetStepValid(st, ttl, n, now);
      GetStepCases(st, ttl, n, now);
      var (st1, r1) := GetStep(st, ttl, n, now);
      var acc1 := if r1.Some? then acc[n := r1.value] else acc;
      GetMultipleSpec(st1, ttl, names[1..], now, acc1);
      assert forall k :: k in names <==> k == n || k in names[1..] by {
        assert names == [n] + names[1..];
      }
    }
  }

  datatype CacheStats = CacheStats(cachedTables: nat, maxTables: int, tables: set<string>)

  /** A cache whose entries expire `ttl` seconds after loading and whose
      capacity is `maxTables`. Each method is one atomic step. */
  class Cache {
    var entries: map<string, TableSchema>
    var accessOrder: seq<string>
    const ttl: int
    const maxTables: int

    function State(): CacheState
      reads this
    {
      CacheState(entries, accessOrder)
    }

    predicate Valid()
      reads this
    {
      ValidState(State())
    }

    /** `SchemaCache(ttl_minutes, max_cached_tables)`, defaults 30 and 20. */
    constructor (ttlMinutes: int, maxCachedTables: int)
      ensures Valid() && entries == map[] && accessOrder == []
      ensures ttl == ttlMinutes * 60 && maxTables == maxCachedTables
    {
      entries := map[];
      accessOrder := [];
      ttl := ttlMinutes * 60;
      maxTables := maxCachedTables;
    }

    method Get(name: string, now: int) returns (r: Option<TableSchema>)
      requires Valid()
      modifies this
      ensures Valid()
      ensures (State(), r) == GetStep(old(State()), ttl, name, now)
    {
      GetStepValid(State(), ttl, name, now);
      if name !in entries {
        return None;
      }
      var schema := entries[name];
      if now - schema.loadedAt > ttl {
        entries := entries - {name};
        accessOrder := RemoveFirst(accessOrder, name);
        return None;
      }
      if name in accessOrder {
        accessOrder := RemoveFirst(accessOrder, name);
      }
      accessOrder := accessOrder + [name];
      return Some(schema);
    }

    /** The eviction loop of `set`: drop the least recently used entry
        while the cache is full. */
    method EvictOldest()
      modifies this
      ensures State() == Evict(old(entries), old(accessOrder), maxTables)
    {
      ghost var ev := Evict(entries, accessOrder, maxTables);
      while |entries| >= maxTables && accessOrder != []
        invariant Evict(entries, accessOrder, maxTables) == ev
        decreases |accessOrder|
      {
        var oldest := accessOrder[0];
        EvictPop(entries, accessOrder, maxTables);
        accessOrder := accessOrder[1..];
        if oldest in entries {
          entries := entries - {oldest};
        }
      }
    }

    method Set(name: string, schema: TableSchema)
      requires Valid()
      modifies this
      ensures Valid()
      ensures State() == SetStep(old(State()), maxTables, name, schema)
    {
      ghost var start := State();
      EvictOldest();
      entries := entries[name := schema];
      if name in accessOrder {
        accessOrder := RemoveFirst(accessOrder, name);
      } else {
        assert RemoveFirst(accessOrder, name) == accessOrder;
      }
      accessOrder := accessOrder + [name];
      SetStepShape(start, maxTables, name, schema);
    }

    method GetMultiple(names: seq<string>, now: int) returns (result: map<string, TableSchema>)
      requires Valid()
      modifies this
      ensures Valid()
      ensures (State(), result) == GetMultipleStep(old(State()), ttl, names, now, map[])
    {
      GetMultipleSpec(State(), ttl, names, now, map[]);
      result := map[];
      var i := 0;
      while i < |names|
        invariant 0 <= i <= |names|
        invariant Valid()
        invariant GetMultipleStep(State(), ttl, names[i..], now, result)
               == GetMultipleStep(old(State()), ttl, names, now, map[])
      {
        assert names[i..][1..] == names[i + 1..];
        var schema := Get(names[i], now);
        if schema.Some? {
          result := result[names[i] := schema.value];
        }
        i := i + 1;
      }
    }

    method Invalidate(name: string)
      requires Valid()
      modifies this
      ensures Valid()
      ensures State() == InvalidateStep(old(State()), name)
    {
      InvalidateStepValid(State(), name);
      if name in entries {
        entries := entries - {name};
      }
      if name in accessOrder {
        accessOrder := RemoveFirst(accessOrder, name);
      }
    }

    method Clear()
      modifies this
      ensures Valid() && entries == map[] && accessOrder == []
    {
      entries := map[];
      accessOrder := [];
    }

    /** The statistics: the number of cached tables, the capacity and the
        cached names. The count equals the length of the access order. */
    method GetStats() returns (stats: CacheStats)
      requires Valid()
      ensures stats.tables == entries.Keys && stats.maxTables == maxTables
      ensures stats.cachedTables == |accessOrder| == |stats.tables|
    {
      ElementsCard(accessOrder);
      stats := CacheStats(|entries|, maxTables, entries.Keys);
    }
  }
}
