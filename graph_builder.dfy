// The pure part of building the knowledge graph: the domain metadata, the
// concepts gathered from it, and the row lists handed to each batched write.

module GraphBuilder {
  import opened Common
  import opened Records

  // ---------------------------------------------------------------------------
  // Domain metadata
  // ---------------------------------------------------------------------------

  datatype ForeignKey = ForeignKey(column: string, referencesTable: string, referencesColumn: string,
                                   relation: string, description: string)

  /** A business concept and its synonyms. */
  datatype Concept = Concept(name: string, synonyms: seq<string>)

  /** A column; a missing business name or unit is None. */
  datatype Column = Column(tableName: string, columnName: string, dataType: string,
                           businessName: Option<string>, description: string, semantics: seq<string>,
                           unit: Option<string>, pii: bool, sensitive: bool)

  datatype Table = Table(catalog: string, schemaName: string, tableName: string, domain: string,
                         tableType: string, businessName: string, grain: string, description: string,
                         tags: seq<string>, primaryKey: seq<string>, foreignKeys: seq<ForeignKey>,
                         timeColumns: seq<string>, recommendedFilters: seq<string>,
                         concepts: seq<Concept>, columns: seq<Column>, sampleQuestions: seq<string>)

  /** A join between two tables, with the values the joins file gives (a
      `type` given as null stays null). */
  datatype TableJoin = TableJoin(fromTable: Value, toTable: Value, joinType: Value, on: Value, description: Value)

  datatype Metric = Metric(name: string, businessName: string, description: string, expression: string,
                           baseTable: string, grain: string, unit: Option<string>, tags: seq<string>)

  /** Everything loaded for a domain; `concepts` is keyed by concept name in
      insertion order. */
  datatype DomainMetadata = DomainMetadata(domain: string, tables: seq<Table>, joins: seq<TableJoin>,
                                           metrics: seq<Metric>, concepts: Assoc<string, Concept>)

  // ---------------------------------------------------------------------------
  // First-wins insertion into an ordered dictionary
  // ---------------------------------------------------------------------------

  /** `if k not in d: d[k] = v`. */
  function PutNew<K(!new,==), V>(m: Assoc<K, V>, k: K, v: V): Assoc<K, V>
  {
    if k in AssocKeys(m) then m else AssocPut(m, k, v)
  }

  /** `if key(x) not in d: d[key(x)] = val(x)` for each element in turn. */
  function AddNew<T, K(!new,==), V>(m: Assoc<K, V>, xs: seq<T>, key: T -> K, val: T -> V): Assoc<K, V>
  {
    if xs == [] then m
    else PutNew(AddNew(m, xs[..|xs| - 1], key, val), key(xs[|xs| - 1]), val(xs[|xs| - 1]))
  }

  /** The keys afterwards are the keys before and the keys of the elements. */
  lemma {:induction false} AddNewKeys<T, K(!new), V>(m: Assoc<K, V>, xs: seq<T>, key: T -> K, val: T -> V, k: K)
    ensures k in AssocKeys(AddNew(m, xs, key, val)) <==> k in AssocKeys(m) || KeyClass(xs, key, k) != []
  {
    if xs != [] {
      AddNewKeys(m, xs[..|xs| - 1], key, val, k);
      KeyClassLast(xs, key, k);
    }
  }

  /** A key already present keeps its value; a new key gets the value of the
      first element with that key. */
  lemma {:induction false} AddNewGet<T, K(!new), V>(m: Assoc<K, V>, xs: seq<T>, key: T -> K, val: T -> V, k: K)
    ensures AssocGet(AddNew(m, xs, key, val), k)
         == if k in AssocKeys(m) then AssocGet(m, k)
            else if KeyClass(xs, key, k) == [] then None
            else Some(val(KeyClass(xs, key, k)[0]))
  {
    if xs != [] {
      var init := xs[..|xs| - 1];
      var x := xs[|xs| - 1];
      AddNewGet(m, init, key, val, k);
      AddNewKeys(m, init, key, val, key(x));
      KeyClassLast(xs, key, k);
      if key(x) == k {
        KeyClassLast(xs, key, key(x));
      }
    }
  }

  /** No key is ever added twice. */
  lemma {:induction false} AddNewNoDuplicates<T, K(!new), V>(m: Assoc<K, V>, xs: seq<T>, key: T -> K, val: T -> V)
    requires NoDuplicates(AssocKeys(m))
    ensures NoDuplicates(AssocKeys(AddNew(m, xs, key, val)))
  {
    if xs != [] {
      var p := AddNew(m, xs[..|xs| - 1], key, val);
      AddNewNoDuplicates(m, xs[..|xs| - 1], key, val);
      AssocPutNoDuplicates(p, key(xs[|xs| - 1]), val(xs[|xs| - 1]));
    }
  }

  /** Adding the elements of `xs + ys` is adding those of `xs`, then `ys`. */
  lemma {:induction false} AddNewAppend<T, K(!new), V>(m: Assoc<K, V>, xs: seq<T>, ys: seq<T>, key: T -> K, val: T -> V)
    ensures AddNew(m, xs + ys, key, val) == AddNew(AddNew(m, xs, key, val), ys, key, val)
  {
    if ys == [] {
      assert xs + ys == xs;
    } else {
      var zs := xs + ys;
      var init := ys[..|ys| - 1];
      var y := ys[|ys| - 1];
      assert zs[..|zs| - 1] == xs + init;
      assert zs[|zs| - 1] == y;
      assert AddNew(m, zs, key, val) == PutNew(AddNew(m, xs + init, key, val), key(y), val(y));
      AddNewAppend(m, xs, init, key, val);
    }
  }

  // ---------------------------------------------------------------------------
  // Concept extraction in `MetadataLoader.load`
  // ---------------------------------------------------------------------------

  function ConceptName(c: Concept): string { c.name }

  function TableConcepts(t: Table): seq<Concept> { t.concepts }

  function SameConcept(c: Concept): Concept { c }

  function ColumnSemantics(c: Column): seq<string> { c.semantics }

  function TableSemantics(t: Table): seq<string> { ConcatMap(t.columns, ColumnSemantics) }

  function SemanticKey(s: string): string { s }

  /** The concept made for a semantic tag that has no explicit concept. */
  function SemanticConcept(s: string): Concept { Concept(s, []) }

  /** The concepts of all tables, table by table. */
  function AllConcepts(tables: seq<Table>): seq<Concept>
  {
    ConcatMap(tables, TableConcepts)
  }

  /** The semantic tags of all columns, table by table, column by column. */
  function AllSemantics(tables: seq<Table>): seq<string>
  {
    ConcatMap(tables, TableSemantics)
  }

  /** `metadata.concepts` after `load`: the table concepts, first one per
      name, then a synonym-free concept for each new semantic tag. */
  function ConceptsOf(tables: seq<Table>): Assoc<string, Concept>
  {
    AddNew(AddNew([], AllConcepts(tables), ConceptName, SameConcept), AllSemantics(tables), SemanticKey, SemanticConcept)
  }

  /** A name declared as a table concept maps to the first concept declared
      with that name; later duplicates do not overwrite it. */
  lemma ConceptFirstWins(tables: seq<Table>, n: string)
    requires KeyClass(AllConcepts(tables), ConceptName, n) != []
    ensures AssocGet(ConceptsOf(tables), n) == Some(KeyClass(AllConcepts(tables), ConceptName, n)[0])
  {
    var m := AddNew([], AllConcepts(tables), ConceptName, SameConcept);
    AddNewKeys([], AllConcepts(tables), ConceptName, SameConcept, n);
    AddNewGet([], AllConcepts(tables), ConceptName, SameConcept, n);
    AddNewGet(m, AllSemantics(tables), SemanticKey, SemanticConcept, n);
  }

  /** Every semantic tag of every column is a concept name afterwards; a tag
      that no table declares as a concept gets a concept with no synonyms. */
  lemma SemanticsAreConcepts(tables: seq<Table>, i: nat, j: nat, s: string)
    requires i < |tables| && j < |tables[i].columns| && s in tables[i].columns[j].semantics
    ensures s in AssocKeys(ConceptsOf(tables))
    ensures KeyClass(AllConcepts(tables), ConceptName, s) == [] ==> AssocGet(ConceptsOf(tables), s) == Some(Concept(s, []))
  {
    SemanticListed(tables, i, j, s);
    var m := AddNew([], AllConcepts(tables), ConceptName, SameConcept);
    SemanticAdded(m, AllSemantics(tables), s);
    AddNewKeys([], AllConcepts(tables), ConceptName, SameConcept, s);
  }

  /** A listed tag is a key afterwards, with a synonym-free concept if it
      was not a key before. */
  lemma SemanticAdded(m: Assoc<string, Concept>, sems: seq<string>, s: string)
    requires s in sems
    ensures s in AssocKeys(AddNew(m, sems, SemanticKey, SemanticConcept))
    ensures s !in AssocKeys(m) ==> AssocGet(AddNew(m, sems, SemanticKey, SemanticConcept), s) == Some(Concept(s, []))
  {
    KeyClassHas(sems, SemanticKey, s);
    AddNewKeys(m, sems, SemanticKey, SemanticConcept, s);
    AddNewGet(m, sems, SemanticKey, SemanticConcept, s);
    KeyClassAllSame(sems, s);
    var first := KeyClass(sems, SemanticKey, s)[0];
    assert first in KeyClass(sems, SemanticKey, s);
    assert SemanticConcept(first) == Concept(s, []);
  }

  lemma SemanticListed(tables: seq<Table>, i: nat, j: nat, s: string)
    requires i < |tables| && j < |tables[i].columns| && s in tables[i].columns[j].semantics
    ensures s in AllSemantics(tables)
  {
    var t := tables[i];
    ConcatMapMember(t.columns, ColumnSemantics, s);
    assert s in TableSemantics(t);
    ConcatMapMember(tables, TableSemantics, s);
  }

  /** An element's key selects at least that element. */
  lemma {:induction false} KeyClassHas<T, K>(xs: seq<T>, key: T -> K, x: T)
    requires x in xs
    ensures KeyClass(xs, key, key(x)) != []
  {
    if xs[0] != x {
      KeyClassHas(xs[1..], key, x);
    }
  }

  /** Every tag the identity key selects is the tag itself. */
  lemma {:induction false} KeyClassAllSame(xs: seq<string>, s: string)
    ensures forall x :: x in KeyClass(xs, SemanticKey, s) ==> x == s
  {
    if xs != [] {
      KeyClassAllSame(xs[1..], s);
    }
  }

  /** The concept names are distinct, and each entry's concept carries its
      own key as name, so each concept row is a distinct `MERGE` key. */
  lemma ConceptsNamed(tables: seq<Table>)
    ensures NoDuplicates(AssocKeys(ConceptsOf(tables)))
    ensures forall e :: e in ConceptsOf(tables) ==> e.1.name == e.0
  {
    var m := AddNew([], AllConcepts(tables), ConceptName, SameConcept);
    AddNewNoDuplicates([], AllConcepts(tables), ConceptName, SameConcept);
    AddNewNoDuplicates(m, AllSemantics(tables), SemanticKey, SemanticConcept);
    AddNewNamed([], AllConcepts(tables), ConceptName, SameConcept);
    AddNewNamed(m, AllSemantics(tables), SemanticKey, SemanticConcept);
  }

  /** When every value is named by its key, so is every entry added. */
  lemma {:induction false} AddNewNamed<T>(m: Assoc<string, Concept>, xs: seq<T>, key: T -> string, val: T -> Concept)
    requires forall e :: e in m ==> e.1.name == e.0
    requires forall x :: val(x).name == key(x)
    ensures forall e :: e in AddNew(m, xs, key, val) ==> e.1.name == e.0
  {
    if xs != [] {
      var p := AddNew(m, xs[..|xs| - 1], key, val);
      AddNewNamed(m, xs[..|xs| - 1], key, val);
      AssocPutIn(p, key(xs[|xs| - 1]), val(xs[|xs| - 1]));
    }
  }

  /** `for x in xs: if key(x) not in d: d[key(x)] = val(x)`. */
  method AddNewLoop<T, K(!new,==), V>(m: Assoc<K, V>, xs: seq<T>, key: T -> K, val: T -> V) returns (r: Assoc<K, V>)
    ensures r == AddNew(m, xs, key, val)
  {
    r := m;
    var i := 0;
    while i < |xs|
      invariant 0 <= i <= |xs|
      invariant r == AddNew(m, xs[..i], key, val)
    {
      assert xs[..i + 1][..i] == xs[..i];
      var x := xs[i];
      if key(x) !in AssocKeys(r) {
        r := AssocPut(r, key(x), val(x));
      }
      i := i + 1;
    }
    assert xs[..i] == xs;
  }

  /** The concept-extraction loops of `load`: first every table's concepts,
      then every column's semantic tags. */
  method ExtractConcepts(tables: seq<Table>) returns (concepts: Assoc<string, Concept>)
    ensures concepts == ConceptsOf(tables)
  {
    var explicit := AddTableConcepts(tables);
    concepts := AddSemanticConcepts(explicit, tables);
  }

  /** The first loop of `load`: each table's concepts, first one per name. */
  method AddTableConcepts(tables: seq<Table>) returns (concepts: Assoc<string, Concept>)
    ensures concepts == AddNew([], AllConcepts(tables), ConceptName, SameConcept)
  {
    concepts := [];
    var i := 0;
    while i < |tables|
      invariant 0 <= i <= |tables|
      invariant concepts == AddNew([], AllConcepts(tables[..i]), ConceptName, SameConcept)
    {
      ConceptsStep(tables, i);
      concepts := AddNewLoop(concepts, tables[i].concepts, ConceptName, SameConcept);
      i := i + 1;
    }
    assert tables[..i] == tables;
  }

  /** The second loop of `load`: a concept for each new semantic tag. */
  method AddSemanticConcepts(explicit: Assoc<string, Concept>, tables: seq<Table>) returns (concepts: Assoc<string, Concept>)
    ensures concepts == AddNew(explicit, AllSemantics(tables), SemanticKey, SemanticConcept)
  {
    concepts := explicit;
    var i := 0;
    while i < |tables|
      invariant 0 <= i <= |tables|
      invariant concepts == AddNew(explicit, AllSemantics(tables[..i]), SemanticKey, SemanticConcept)
    {
      SemanticsStep(explicit, tables, i);
      concepts := AddTableSemantics(concepts, tables[i]);
      i := i + 1;
    }
    assert tables[..i] == tables;
  }

  /** One table more in the first loop adds that table's concepts. */
  lemma ConceptsStep(tables: seq<Table>, i: nat)
    requires i < |tables|
    ensures AddNew([], AllConcepts(tables[..i + 1]), ConceptName, SameConcept)
         == AddNew(AddNew([], AllConcepts(tables[..i]), ConceptName, SameConcept), tables[i].concepts, ConceptName, SameConcept)
  {
    AddNewConcatStep([], tables, i, TableConcepts, ConceptName, SameConcept);
  }

  /** One table more in the second loop adds that table's tags. */
  lemma SemanticsStep(m: Assoc<string, Concept>, tables: seq<Table>, i: nat)
    requires i < |tables|
    ensures AddNew(m, AllSemantics(tables[..i + 1]), SemanticKey, SemanticConcept)
         == AddNew(AddNew(m, AllSemantics(tables[..i]), SemanticKey, SemanticConcept), TableSemantics(tables[i]), SemanticKey, SemanticConcept)
  {
    AddNewConcatStep(m, tables, i, TableSemantics, SemanticKey, SemanticConcept);
  }

  /** Adding the parts of one element more of `xs`. */
  lemma AddNewConcatStep<T, C, K(!new), V>(m: Assoc<K, V>, xs: seq<T>, i: nat, f: T -> seq<C>, key: C -> K, val: C -> V)
    requires i < |xs|
    ensures AddNew(m, ConcatMap(xs[..i + 1], f), key, val) == AddNew(AddNew(m, ConcatMap(xs[..i], f), key, val), f(xs[i]), key, val)
  {
    ConcatMapAppend(xs[..i], xs[i], f);
    assert xs[..i + 1] == xs[..i] + [xs[i]];
    AddNewAppend(m, ConcatMap(xs[..i], f), f(xs[i]), key, val);
  }

  /** The column loop of the semantic pass, for one table. */
  method AddTableSemantics(m: Assoc<string, Concept>, t: Table) returns (concepts: Assoc<string, Concept>)
    ensures concepts == AddNew(m, TableSemantics(t), SemanticKey, SemanticConcept)
  {
    concepts := m;
    var j := 0;
    while j < |t.columns|
      invariant 0 <= j <= |t.columns|
      invariant concepts == AddNew(m, ConcatMap(t.columns[..j], ColumnSemantics), SemanticKey, SemanticConcept)
    {
      var c := t.columns[j];
      AddNewAppend(m, ConcatMap(t.columns[..j], ColumnSemantics), c.semantics, SemanticKey, SemanticConcept);
      ConcatMapAppend(t.columns[..j], c, ColumnSemantics);
      assert t.columns[..j + 1] == t.columns[..j] + [c];
      concepts := AddNewLoop(concepts, c.semantics, SemanticKey, SemanticConcept);
      j := j + 1;
    }
    assert t.columns[..j] == t.columns;
  }

  // ---------------------------------------------------------------------------
  // `_load_joins`
  // ---------------------------------------------------------------------------

  /** One entry of the joins file: `from`, `to` and `description` default to
      "", `type` to "inner", and a missing or falsy `on` becomes `[]`. */
  function JoinOf(d: Node): TableJoin
  {
    var on := GetOr(d, "on", List([]));
    TableJoin(GetOr(d, "from", Str("")), GetOr(d, "to", Str("")), GetOr(d, "type", Str("inner")),
              if Truthy(on) then on else List([]), GetOr(d, "description", Str("")))
  }

  /** A missing `type` is "inner"; `on` is the given value when that is
      truthy and the empty list otherwise, so it is never null. */
  lemma JoinDefaults(d: Node)
    ensures "type" !in AssocKeys(d) ==> JoinOf(d).joinType == Str("inner")
    ensures "type" in AssocKeys(d) ==> Some(JoinOf(d).joinType) == AssocGet(d, "type")
    ensures Truthy(Get(d, "on")) ==> JoinOf(d).on == Get(d, "on")
    ensures !Truthy(Get(d, "on")) ==> JoinOf(d).on == List([])
    ensures JoinOf(d).on != Null
  {
  }

  /** `MetadataLoader.load` once the files are read: the tables, the joins
      parsed from the joins file's entries, the metrics, and the extracted
      concepts. */
  method LoadDomain(domain: string, tables: seq<Table>, joinEntries: seq<Node>, metrics: seq<Metric>)
    returns (md: DomainMetadata)
    ensures md == DomainMetadata(domain, tables, MapSeq(joinEntries, JoinOf), metrics, ConceptsOf(tables))
  {
    var concepts := ExtractConcepts(tables);
    var joins := MapLoop([], joinEntries, JoinOf);
    assert [] + MapSeq(joinEntries, JoinOf) == MapSeq(joinEntries, JoinOf);
    md := DomainMetadata(domain, tables, joins, metrics, concepts);
  }

  // ---------------------------------------------------------------------------
  // Batched writes
  // ---------------------------------------------------------------------------

  /** `GraphBuilder.BATCH_SIZE`. */
  const BatchSize := 100

  /** The batches cover the rows in order; each holds between one and
      `BatchSize` rows, and every batch but the last holds exactly
      `BatchSize`. */
  ghost predicate Batched<T>(batches: seq<seq<T>>, rows: seq<T>)
  {
    && Flatten(batches) == rows
    && (forall k :: 0 <= k < |batches| ==> 1 <= |batches[k]| <= BatchSize)
    && (forall k :: 0 <= k < |batches| - 1 ==> |batches[k]| == BatchSize)
  }

  /** `for i in range(0, len(rows), BATCH_SIZE): rows[i:i + BATCH_SIZE]`. */
  method Batches<T>(rows: seq<T>) returns (batches: seq<seq<T>>)
    ensures Batched(batches, rows)
    ensures batches == [] <==> rows == []
    ensures |batches| == (|rows| + BatchSize - 1) / BatchSize
  {
    batches := SliceBatches(rows, BatchSize);
    assert forall k :: 0 <= k < |batches| ==> batches[k] in batches;
    BatchCount(batches, rows);
  }

  /** Full batches and a last non-empty one fix the number of batches. */
  lemma {:induction false} BatchCount<T>(batches: seq<seq<T>>, rows: seq<T>)
    requires Batched(batches, rows)
    ensures |batches| == (|rows| + BatchSize - 1) / BatchSize
  {
    if batches != [] {
      var rest := batches[1..];
      assert Batched(rest, Flatten(rest));
      BatchCount(rest, Flatten(rest));
      if rest != [] {
        assert |batches[0]| == BatchSize;
      }
    }
  }

  // ---------------------------------------------------------------------------
  // Table, concept, metric and join rows
  // ---------------------------------------------------------------------------

  datatype TableRow = TableRow(catalog: string, schemaName: string, tableName: string, domain: string,
                               tableType: string, businessName: string, grain: string, description: string,
                               tags: seq<string>)

  function TableRowOf(t: Table): TableRow
  {
    TableRow(t.catalog, t.schemaName, t.tableName, t.domain, t.tableType, t.businessName, t.grain,
             t.description, t.tags)
  }

  /** The rows of `_create_table_nodes`: one per table, in order, each with
      the fields the `MERGE` and `SET` use. */
  method CreateTableRows(md: DomainMetadata) returns (batches: seq<seq<TableRow>>)
    ensures Batched(batches, MapSeq(md.tables, TableRowOf))
  {
    var rows := MapLoop([], md.tables, TableRowOf);
    assert rows == MapSeq(md.tables, TableRowOf);
    batches := Batches(rows);
  }

  /** The name and synonyms of a concept node. */
  datatype ConceptRow = ConceptRow(name: string, synonyms: seq<string>)

  function ConceptRowOf(c: Concept): ConceptRow
  {
    ConceptRow(c.name, c.synonyms)
  }

  /** The rows of `_create_concept_nodes`: one per value of `concepts`, in
      insertion order. */
  method CreateConceptRows(md: DomainMetadata) returns (batches: seq<seq<ConceptRow>>)
    ensures Batched(batches, MapSeq(AssocValues(md.concepts), ConceptRowOf))
  {
    var rows := MapLoop([], AssocValues(md.concepts), ConceptRowOf);
    assert rows == MapSeq(AssocValues(md.concepts), ConceptRowOf);
    batches := Batches(rows);
  }

  /** After `load`, the concept rows are named by the concept keys, in order,
      so no two rows `MERGE` the same concept node. */
  lemma ConceptRowsDistinct(tables: seq<Table>)
    ensures MapSeq(MapSeq(AssocValues(ConceptsOf(tables)), ConceptRowOf), RowName) == AssocKeys(ConceptsOf(tables))
    ensures NoDuplicates(MapSeq(MapSeq(AssocValues(ConceptsOf(tables)), ConceptRowOf), RowName))
  {
    ConceptsNamed(tables);
    var m := ConceptsOf(tables);
    assert forall i :: 0 <= i < |m| ==> m[i] in m;
  }

  function RowName(r: ConceptRow): string { r.name }

  datatype MetricNodeRow = MetricNodeRow(name: string, businessName: string, description: string,
                                         expression: string, baseTable: string, grain: string,
                                         unit: string, tags: seq<string>)

  /** `x or ""` for an optional string: a missing value and an empty one
      both become the empty string. */
  function OrEmpty(s: Option<string>): string
  {
    if s.Some? then s.value else ""
  }

  function MetricNodeRowOf(m: Metric): MetricNodeRow
  {
    MetricNodeRow(m.name, m.businessName, m.description, m.expression, m.baseTable, m.grain,
                  OrEmpty(m.unit), m.tags)
  }

  /** The rows of `_create_metric_nodes`: one per metric, in order, a
      missing unit written as the empty string. */
  method CreateMetricNodeRows(md: DomainMetadata) returns (batches: seq<seq<MetricNodeRow>>)
    ensures Batched(batches, MapSeq(md.metrics, MetricNodeRowOf))
    ensures forall k :: 0 <= k < |md.metrics| ==>
              (md.metrics[k].unit.None? ==> Flatten(batches)[k].unit == "")
  {
    var rows := MapLoop([], md.metrics, MetricNodeRowOf);
    assert rows == MapSeq(md.metrics, MetricNodeRowOf);
    batches := Batches(rows);
  }

  /** The rows of `_create_join_relationships`: the joins as loaded, in
      order (each row copies the five fields of its join). */
  method CreateJoinRows(md: DomainMetadata) returns (batches: seq<seq<TableJoin>>)
    ensures Batched(batches, md.joins)
  {
    batches := Batches(md.joins);
  }

  // ---------------------------------------------------------------------------
  // Column rows (`_create_column_nodes`)
  // ---------------------------------------------------------------------------

  datatype ColumnRow = ColumnRow(tableName: string, columnName: string, dataType: string, businessName: string,
                                 description: string, semantics: seq<string>, unit: string, pii: bool,
                                 sensitive: bool, domain: string, isPrimaryKey: bool, isTimeColumn: bool)

  /** The row of column `c` of table `t`. */
  function ColumnRowOf(t: Table, c: Column): ColumnRow
  {
    ColumnRow(c.tableName, c.columnName, c.dataType, OrEmpty(c.businessName), c.description, c.semantics,
              OrEmpty(c.unit), c.pii, c.sensitive, t.domain, c.columnName in t.primaryKey,
              c.columnName in t.timeColumns)
  }

  function TableColumnRows(t: Table): seq<ColumnRow>
  {
    MapWith(t, t.columns, ColumnRowOf)
  }

  /** All column rows: table by table, column by column. */
  function ColumnRows(tables: seq<Table>): seq<ColumnRow>
  {
    ConcatMap(tables, TableColumnRows)
  }

  /** What a column row says about its column: the column's names and type,
      its table's domain, a missing business name or unit as "", and the
      two flags true exactly for key and time columns of the table. */
  predicate DescribesColumn(r: ColumnRow, t: Table, c: Column)
  {
    && r.tableName == c.tableName && r.columnName == c.columnName && r.dataType == c.dataType
    && r.description == c.description && r.semantics == c.semantics
    && r.pii == c.pii && r.sensitive == c.sensitive && r.domain == t.domain
    && (c.businessName.None? ==> r.businessName == "")
    && (c.businessName.Some? ==> r.businessName == c.businessName.value)
    && (c.unit.None? ==> r.unit == "")
    && (c.unit.Some? ==> r.unit == c.unit.value)
    && (r.isPrimaryKey <==> c.columnName in t.primaryKey)
    && (r.isTimeColumn <==> c.columnName in t.timeColumns)
  }

  /** Every column row describes a column of a table, and every column of
      every table has its row. */
  lemma ColumnRowsMembers(tables: seq<Table>, r: ColumnRow)
    ensures r in ColumnRows(tables) <==>
              exists i, j :: 0 <= i < |tables| && 0 <= j < |tables[i].columns|
                             && r == ColumnRowOf(tables[i], tables[i].columns[j])
    ensures r in ColumnRows(tables) ==>
              exists i, j :: 0 <= i < |tables| && 0 <= j < |tables[i].columns|
                             && DescribesColumn(r, tables[i], tables[i].columns[j])
  {
    ConcatMapMember(tables, TableColumnRows, r);
  }

  /** The rows of one table are its columns' rows, in column order. */
  method AppendColumnRows(rows: seq<ColumnRow>, t: Table) returns (r: seq<ColumnRow>)
    ensures r == rows + TableColumnRows(t)
  {
    var pkSet := Elements(t.primaryKey);
    var timeSet := Elements(t.timeColumns);
    r := rows;
    var j := 0;
    while j < |t.columns|
      invariant 0 <= j <= |t.columns|
      invariant r == rows + MapWith(t, t.columns[..j], ColumnRowOf)
    {
      var c := t.columns[j];
      MapWithAppend(t, t.columns[..j], c, ColumnRowOf);
      assert t.columns[..j + 1] == t.columns[..j] + [c];
      r := r + [ColumnRow(c.tableName, c.columnName, c.dataType, OrEmpty(c.businessName), c.description,
                          c.semantics, OrEmpty(c.unit), c.pii, c.sensitive, t.domain,
                          c.columnName in pkSet, c.columnName in timeSet)];
      j := j + 1;
    }
    assert t.columns[..j] == t.columns;
  }

  /** `_create_column_nodes`: the column rows of all tables, in batches. */
  method CreateColumnRows(md: DomainMetadata) returns (batches: seq<seq<ColumnRow>>)
    ensures Batched(batches, ColumnRows(md.tables))
  {
    var rows: seq<ColumnRow> := [];
    var i := 0;
    while i < |md.tables|
      invariant 0 <= i <= |md.tables|
      invariant rows == ColumnRows(md.tables[..i])
    {
      ConcatMapAppend(md.tables[..i], md.tables[i], TableColumnRows);
      assert md.tables[..i + 1] == md.tables[..i] + [md.tables[i]];
      rows := AppendColumnRows(rows, md.tables[i]);
      i := i + 1;
    }
    assert md.tables[..i] == md.tables;
    batches := Batches(rows);
  }

  // ---------------------------------------------------------------------------
  // Foreign-key rows (`_create_fk_relationships`)
  // ---------------------------------------------------------------------------

  /** `s.split(".")[-1]`: the text after the last dot, or all of `s` when it
      has none. */
  function AfterLastDot(s: string): (r: string)
    ensures '.' !in r
    ensures EndsWith(s, r)
    ensures |r| < |s| ==> s[|s| - |r| - 1] == '.'
    ensures '.' !in s ==> r == s
  {
    if s == [] then []
    else if s[|s| - 1] == '.' then []
    else AfterLastDot(s[..|s| - 1]) + [s[|s| - 1]]
  }

  /** The table an FK points at: a dotted reference is cut to its last
      segment, any other is kept. */
  function RefTable(s: string): (r: string)
  {
    if '.' in s then AfterLastDot(s) else s
  }

  /** The cut is the identity on undotted names, so `RefTable` always is the
      last segment: the longest dot-free suffix. */
  lemma RefTableLastSegment(s: string)
    ensures RefTable(s) == AfterLastDot(s)
    ensures '.' !in RefTable(s) && EndsWith(s, RefTable(s))
    ensures '.' in s ==> |RefTable(s)| < |s| && s[|s| - |RefTable(s)| - 1] == '.'
  {
  }

  datatype FkRow = FkRow(fromTable: string, toTable: string, column: string, referencesColumn: string,
                         relation: string, description: string, domain: string)

  function FkRowOf(t: Table, fk: ForeignKey): FkRow
  {
    FkRow(t.tableName, RefTable(fk.referencesTable), fk.column, fk.referencesColumn, fk.relation,
          fk.description, t.domain)
  }

  function TableFkRows(t: Table): seq<FkRow>
  {
    MapWith(t, t.foreignKeys, FkRowOf)
  }

  /** All FK rows: table by table, one per foreign key in declaration order. */
  function FkRows(tables: seq<Table>): seq<FkRow>
  {
    ConcatMap(tables, TableFkRows)
  }

  /** There is one FK row per foreign key, and the rows of a table follow
      the rows of the tables before it, in the order of its foreign keys. */
  lemma {:induction false} FkRowsOrder(tables: seq<Table>, i: nat, k: nat)
    requires i < |tables| && k < |tables[i].foreignKeys|
    ensures |FkRows(tables[..i])| + k < |FkRows(tables)|
    ensures FkRows(tables)[|FkRows(tables[..i])| + k] == FkRowOf(tables[i], tables[i].foreignKeys[k])
  {
    var n := |tables|;
    if i < n - 1 {
      var init := tables[..n - 1];
      assert init[..i] == tables[..i];
      assert init[i] == tables[i];
      FkRowsOrder(init, i, k);
    } else {
      assert tables[..i] == tables[..n - 1];
    }
  }

  /** Every FK row comes from a foreign key of a table: it starts at that
      table, in its domain, and points at the last segment of the
      reference. */
  lemma FkRowsMembers(tables: seq<Table>, r: FkRow)
    ensures r in FkRows(tables) <==>
              exists i, k :: 0 <= i < |tables| && 0 <= k < |tables[i].foreignKeys|
                             && r == FkRowOf(tables[i], tables[i].foreignKeys[k])
    ensures r in FkRows(tables) ==> '.' !in r.toTable
  {
    ConcatMapMember(tables, TableFkRows, r);
    if r in FkRows(tables) {
      var i, k :| 0 <= i < |tables| && 0 <= k < |tables[i].foreignKeys|
                  && r == FkRowOf(tables[i], tables[i].foreignKeys[k]);
      RefTableLastSegment(tables[i].foreignKeys[k].referencesTable);
    }
  }

  /** The rows of one table's foreign keys. */
  method AppendFkRows(rows: seq<FkRow>, t: Table) returns (r: seq<FkRow>)
    ensures r == rows + TableFkRows(t)
  {
    r := rows;
    var k := 0;
    while k < |t.foreignKeys|
      invariant 0 <= k <= |t.foreignKeys|
      invariant r == rows + MapWith(t, t.foreignKeys[..k], FkRowOf)
    {
      var fk := t.foreignKeys[k];
      MapWithAppend(t, t.foreignKeys[..k], fk, FkRowOf);
      assert t.foreignKeys[..k + 1] == t.foreignKeys[..k] + [fk];
      var refTable := fk.referencesTable;
      if '.' in refTable {
        refTable := AfterLastDot(refTable);
      }
      r := r + [FkRow(t.tableName, refTable, fk.column, fk.referencesColumn, fk.relation,
                      fk.description, t.domain)];
      k := k + 1;
    }
    assert t.foreignKeys[..k] == t.foreignKeys;
  }

  /** `_create_fk_relationships`: the FK rows of all tables, in batches. */
  method CreateFkRows(md: DomainMetadata) returns (batches: seq<seq<FkRow>>)
    ensures Batched(batches, FkRows(md.tables))
  {
    var rows: seq<FkRow> := [];
    var i := 0;
    while i < |md.tables|
      invariant 0 <= i <= |md.tables|
      invariant rows == FkRows(md.tables[..i])
    {
      ConcatMapAppend(md.tables[..i], md.tables[i], TableFkRows);
      assert md.tables[..i + 1] == md.tables[..i] + [md.tables[i]];
      rows := AppendFkRows(rows, md.tables[i]);
      i := i + 1;
    }
    assert md.tables[..i] == md.tables;
    batches := Batches(rows);
  }

  // ---------------------------------------------------------------------------
  // Table-concept rows (`_create_table_concept_relationships`)
  // ---------------------------------------------------------------------------

  datatype ConceptLink = ConceptLink(tableName: string, domain: string, conceptName: string)

  function ConceptLinkOf(t: Table, c: Concept): ConceptLink
  {
    ConceptLink(t.tableName, t.domain, c.name)
  }

  function TableConceptLinks(t: Table): seq<ConceptLink>
  {
    MapWith(t, t.concepts, ConceptLinkOf)
  }

  /** One `HAS_CONCEPT` row per concept of each table, table by table. */
  function ConceptLinks(tables: seq<Table>): seq<ConceptLink>
  {
    ConcatMap(tables, TableConceptLinks)
  }

  /** Every row comes from a table's concept, and after `load` it names a
      concept node, so the `MATCH` on the concept finds one. */
  lemma ConceptLinksMembers(tables: seq<Table>, r: ConceptLink)
    ensures r in ConceptLinks(tables) <==>
              exists i, k :: 0 <= i < |tables| && 0 <= k < |tables[i].concepts|
                             && r == ConceptLinkOf(tables[i], tables[i].concepts[k])
    ensures r in ConceptLinks(tables) ==> r.conceptName in AssocKeys(ConceptsOf(tables))
  {
    ConcatMapMember(tables, TableConceptLinks, r);
    if r in ConceptLinks(tables) {
      var i, k :| 0 <= i < |tables| && 0 <= k < |tables[i].concepts|
                  && r == ConceptLinkOf(tables[i], tables[i].concepts[k]);
      var c := tables[i].concepts[k];
      ConcatMapMember(tables, TableConcepts, c);
      KeyClassHas(AllConcepts(tables), ConceptName, c);
      AddNewKeys([], AllConcepts(tables), ConceptName, SameConcept, c.name);
      var m := AddNew([], AllConcepts(tables), ConceptName, SameConcept);
      AddNewKeys(m, AllSemantics(tables), SemanticKey, SemanticConcept, c.name);
    }
  }

  method AppendConceptLinks(rows: seq<ConceptLink>, t: Table) returns (r: seq<ConceptLink>)
    ensures r == rows + TableConceptLinks(t)
  {
    r := rows;
    var k := 0;
    while k < |t.concepts|
      invariant 0 <= k <= |t.concepts|
      invariant r == rows + MapWith(t, t.concepts[..k], ConceptLinkOf)
    {
      var c := t.concepts[k];
      MapWithAppend(t, t.concepts[..k], c, ConceptLinkOf);
      assert t.concepts[..k + 1] == t.concepts[..k] + [c];
      r := r + [ConceptLink(t.tableName, t.domain, c.name)];
      k := k + 1;
    }
    assert t.concepts[..k] == t.concepts;
  }

  /** `_create_table_concept_relationships`: the rows of all tables, in
      batches. */
  method CreateConceptLinkRows(md: DomainMetadata) returns (batches: seq<seq<ConceptLink>>)
    ensures Batched(batches, ConceptLinks(md.tables))
  {
    var rows: seq<ConceptLink> := [];
    var i := 0;
    while i < |md.tables|
      invariant 0 <= i <= |md.tables|
      invariant rows == ConceptLinks(md.tables[..i])
    {
      ConcatMapAppend(md.tables[..i], md.tables[i], TableConceptLinks);
      assert md.tables[..i + 1] == md.tables[..i] + [md.tables[i]];
      rows := AppendConceptLinks(rows, md.tables[i]);
      i := i + 1;
    }
    assert md.tables[..i] == md.tables;
    batches := Batches(rows);
  }

  // ---------------------------------------------------------------------------
  // Column-semantic rows (`_create_column_semantic_relationships`)
  // ---------------------------------------------------------------------------

  datatype SemanticRow = SemanticRow(tableName: string, columnName: string, conceptName: string)

  function RowConcept(r: SemanticRow): string { r.conceptName }

  /** The rows of column `c` for the tags `sems` that are concept names, in
      tag order. */
  function KeptSemantics(names: set<string>, c: Column, sems: seq<string>): seq<SemanticRow>
  {
    if sems == [] then []
    else KeptSemantics(names, c, sems[..|sems| - 1])
         + (if sems[|sems| - 1] in names then [SemanticRow(c.tableName, c.columnName, sems[|sems| - 1])] else [])
  }

  function ColumnSemanticRows(names: set<string>, c: Column): seq<SemanticRow>
  {
    KeptSemantics(names, c, c.semantics)
  }

  function TableSemanticRows(names: set<string>, t: Table): seq<SemanticRow>
  {
    ConcatWith(names, t.columns, ColumnSemanticRows)
  }

  /** All `HAS_SEMANTIC` rows for the concept names `names`: table by table,
      column by column, tag by tag. */
  function SemanticRows(names: set<string>, tables: seq<Table>): seq<SemanticRow>
  {
    ConcatWith(names, tables, TableSemanticRows)
  }

  /** A row is kept exactly for a tag of the column that is a concept name. */
  lemma {:induction false} KeptSemanticsMember(names: set<string>, c: Column, sems: seq<string>, r: SemanticRow)
    ensures r in KeptSemantics(names, c, sems) <==>
              r.conceptName in sems && r.conceptName in names
              && r == SemanticRow(c.tableName, c.columnName, r.conceptName)
  {
    if sems != [] {
      var init := sems[..|sems| - 1];
      KeptSemanticsMember(names, c, init, r);
      assert sems == init + [sems[|sems| - 1]];
    }
  }

  /** Each row names a column of a table and one of its tags that is a
      concept name; each such pair has its row. */
  lemma SemanticRowsMembers(names: set<string>, tables: seq<Table>, r: SemanticRow)
    ensures r in SemanticRows(names, tables) <==>
              exists i, j :: 0 <= i < |tables| && 0 <= j < |tables[i].columns|
                             && r.conceptName in tables[i].columns[j].semantics && r.conceptName in names
                             && r == SemanticRow(tables[i].columns[j].tableName, tables[i].columns[j].columnName, r.conceptName)
  {
    ConcatWithMember(names, tables, TableSemanticRows, r);
    forall i | 0 <= i < |tables|
      ensures r in TableSemanticRows(names, tables[i]) <==>
                exists j :: 0 <= j < |tables[i].columns|
                            && r.conceptName in tables[i].columns[j].semantics && r.conceptName in names
                            && r == SemanticRow(tables[i].columns[j].tableName, tables[i].columns[j].columnName, r.conceptName)
    {
      var t := tables[i];
      ConcatWithMember(names, t.columns, ColumnSemanticRows, r);
      forall j | 0 <= j < |t.columns| {
        KeptSemanticsMember(names, t.columns[j], t.columns[j].semantics, r);
      }
    }
  }

  /** With every tag a concept name, a column keeps all its tags in order. */
  lemma {:induction false} KeptAll(names: set<string>, c: Column, sems: seq<string>)
    requires forall s :: s in sems ==> s in names
    ensures MapSeq(KeptSemantics(names, c, sems), RowConcept) == sems
  {
    if sems != [] {
      var init := sems[..|sems| - 1];
      var s := sems[|sems| - 1];
      KeptAll(names, c, init);
      MapSeqAppend(KeptSemantics(names, c, init), [SemanticRow(c.tableName, c.columnName, s)], RowConcept);
      assert sems == init + [s];
    }
  }

  lemma {:induction false} ColumnsKeptAll(names: set<string>, cols: seq<Column>)
    requires forall j, s :: 0 <= j < |cols| && s in cols[j].semantics ==> s in names
    ensures MapSeq(ConcatWith(names, cols, ColumnSemanticRows), RowConcept) == ConcatMap(cols, ColumnSemantics)
  {
    if cols != [] {
      var init := cols[..|cols| - 1];
      var c := cols[|cols| - 1];
      assert forall j :: 0 <= j < |init| ==> init[j] == cols[j];
      ColumnsKeptAll(names, init);
      KeptAll(names, c, c.semantics);
      MapSeqAppend(ConcatWith(names, init, ColumnSemanticRows), ColumnSemanticRows(names, c), RowConcept);
    }
  }

  lemma {:induction false} TablesKeptAll(names: set<string>, tables: seq<Table>)
    requires forall i, j, s :: 0 <= i < |tables| && 0 <= j < |tables[i].columns| && s in tables[i].columns[j].semantics ==> s in names
    ensures MapSeq(SemanticRows(names, tables), RowConcept) == AllSemantics(tables)
  {
    if tables != [] {
      var init := tables[..|tables| - 1];
      var t := tables[|tables| - 1];
      assert forall i :: 0 <= i < |init| ==> init[i] == tables[i];
      TablesKeptAll(names, init);
      ColumnsKeptAll(names, t.columns);
      MapSeqAppend(SemanticRows(names, init), TableSemanticRows(names, t), RowConcept);
    }
  }

  /** After `load`, the concept-name filter drops nothing: the rows list
      every tag of every column, in order, and every (column, tag) pair has
      its row. */
  lemma SemanticFilterKeepsAll(tables: seq<Table>)
    ensures MapSeq(SemanticRows(Elements(AssocKeys(ConceptsOf(tables))), tables), RowConcept) == AllSemantics(tables)
    ensures forall i, j, s :: 0 <= i < |tables| && 0 <= j < |tables[i].columns| && s in tables[i].columns[j].semantics ==>
              SemanticRow(tables[i].columns[j].tableName, tables[i].columns[j].columnName, s)
                in SemanticRows(Elements(AssocKeys(ConceptsOf(tables))), tables)
  {
    var names := Elements(AssocKeys(ConceptsOf(tables)));
    forall i, j, s | 0 <= i < |tables| && 0 <= j < |tables[i].columns| && s in tables[i].columns[j].semantics
      ensures s in names
    {
      SemanticsAreConcepts(tables, i, j, s);
    }
    TablesKeptAll(names, tables);
    forall i, j, s | 0 <= i < |tables| && 0 <= j < |tables[i].columns| && s in tables[i].columns[j].semantics
      ensures SemanticRow(tables[i].columns[j].tableName, tables[i].columns[j].columnName, s) in SemanticRows(names, tables)
    {
      SemanticRowsMembers(names, tables, SemanticRow(tables[i].columns[j].tableName, tables[i].columns[j].columnName, s));
    }
  }

  method AppendColumnSemantics(rows: seq<SemanticRow>, names: set<string>, c: Column) returns (r: seq<SemanticRow>)
    ensures r == rows + ColumnSemanticRows(names, c)
  {
    r := rows;
    var k := 0;
    while k < |c.semantics|
      invariant 0 <= k <= |c.semantics|
      invariant r == rows + KeptSemantics(names, c, c.semantics[..k])
    {
      var s := c.semantics[k];
      assert c.semantics[..k + 1][..k] == c.semantics[..k];
      if s in names {
        r := r + [SemanticRow(c.tableName, c.columnName, s)];
      }
      k := k + 1;
    }
    assert c.semantics[..k] == c.semantics;
  }

  method AppendTableSemanticRows(rows: seq<SemanticRow>, names: set<string>, t: Table) returns (r: seq<SemanticRow>)
    ensures r == rows + TableSemanticRows(names, t)
  {
    r := rows;
    var j := 0;
    while j < |t.columns|
      invariant 0 <= j <= |t.columns|
      invariant r == rows + ConcatWith(names, t.columns[..j], ColumnSemanticRows)
    {
      ConcatWithAppend(names, t.columns[..j], t.columns[j], ColumnSemanticRows);
      assert t.columns[..j + 1] == t.columns[..j] + [t.columns[j]];
      r := AppendColumnSemantics(r, names, t.columns[j]);
      j := j + 1;
    }
    assert t.columns[..j] == t.columns;
  }

  /** `_create_column_semantic_relationships`: the rows for the tags that
      are keys of `concepts`, in batches. */
  method CreateSemanticRows(md: DomainMetadata) returns (batches: seq<seq<SemanticRow>>)
    ensures Batched(batches, SemanticRows(Elements(AssocKeys(md.concepts)), md.tables))
  {
    var conceptNames := Elements(AssocKeys(md.concepts));
    var rows: seq<SemanticRow> := [];
    var i := 0;
    while i < |md.tables|
      invariant 0 <= i <= |md.tables|
      invariant rows == SemanticRows(conceptNames, md.tables[..i])
    {
      ConcatWithAppend(conceptNames, md.tables[..i], md.tables[i], TableSemanticRows);
      assert md.tables[..i + 1] == md.tables[..i] + [md.tables[i]];
      rows := AppendTableSemanticRows(rows, conceptNames, md.tables[i]);
      i := i + 1;
    }
    assert md.tables[..i] == md.tables;
    batches := Batches(rows);
  }

  // ---------------------------------------------------------------------------
  // Metric rows (`_create_metric_relationships`)
  // ---------------------------------------------------------------------------

  datatype MetricRow = MetricRow(metricName: string, baseTable: string, domain: string)

  /** `{t.table_name for t in tables}`. */
  function TableNames(tables: seq<Table>): (r: set<string>)
    ensures forall n :: n in r <==> exists i :: 0 <= i < |tables| && tables[i].tableName == n
  {
    set t | t in tables :: t.tableName
  }

  /** `next((t.domain for t in tables if t.table_name == name), default)`. */
  function FirstDomain(tables: seq<Table>, name: string, default: string): string
  {
    if tables == [] then default
    else if tables[0].tableName == name then tables[0].domain
    else FirstDomain(tables[1..], name, default)
  }

  /** The domain found is that of the first table with the name. */
  lemma {:induction false} FirstDomainFound(tables: seq<Table>, name: string, default: string, i: nat)
    requires i < |tables| && tables[i].tableName == name
    ensures exists i' :: 0 <= i' <= i && tables[i'].tableName == name
                         && FirstDomain(tables, name, default) == tables[i'].domain
                         && forall k :: 0 <= k < i' ==> tables[k].tableName != name
  {
    if tables[0].tableName == name {
      assert FirstDomain(tables, name, default) == tables[0].domain;
    } else {
      var rest := tables[1..];
      FirstDomainFound(rest, name, default, i - 1);
      var j :| 0 <= j <= i - 1 && rest[j].tableName == name
               && FirstDomain(rest, name, default) == rest[j].domain
               && forall k :: 0 <= k < j ==> rest[k].tableName != name;
      assert forall k :: 1 <= k <= j ==> tables[k] == rest[k - 1];
      assert tables[j + 1] == rest[j];
    }
  }

  /** With no table of that name, the default is used. */
  lemma {:induction false} FirstDomainMissing(tables: seq<Table>, name: string, default: string)
    requires forall i :: 0 <= i < |tables| ==> tables[i].tableName != name
    ensures FirstDomain(tables, name, default) == default
  {
    if tables != [] {
      assert forall i :: 0 <= i < |tables[1..]| ==> tables[1..][i] == tables[i + 1];
      FirstDomainMissing(tables[1..], name, default);
    }
  }

  /** A metric's row, when its base table is one of the tables. */
  function MetricRowsOf(ctx: (seq<Table>, string), m: Metric): seq<MetricRow>
  {
    if m.baseTable in TableNames(ctx.0) then [MetricRow(m.name, m.baseTable, FirstDomain(ctx.0, m.baseTable, ctx.1))]
    else []
  }

  /** The metric rows of a domain, in metric order. */
  function MetricRows(md: DomainMetadata): seq<MetricRow>
  {
    ConcatWith((md.tables, md.domain), md.metrics, MetricRowsOf)
  }

  /** Exactly the metrics whose base table is a loaded table have a row, and
      a row's domain is that of the first table with the base table's name. */
  lemma MetricRowsMembers(md: DomainMetadata, r: MetricRow)
    ensures r in MetricRows(md) <==>
              exists k :: 0 <= k < |md.metrics| && md.metrics[k].baseTable in TableNames(md.tables)
                          && r == MetricRow(md.metrics[k].name, md.metrics[k].baseTable,
                                            FirstDomain(md.tables, md.metrics[k].baseTable, md.domain))
    ensures r in MetricRows(md) ==>
              exists i :: 0 <= i < |md.tables| && md.tables[i].tableName == r.baseTable
                          && r.domain == md.tables[i].domain
                          && forall k :: 0 <= k < i ==> md.tables[k].tableName != r.baseTable
  {
    ConcatWithMember((md.tables, md.domain), md.metrics, MetricRowsOf, r);
    if r in MetricRows(md) {
      var k :| 0 <= k < |md.metrics| && md.metrics[k].baseTable in TableNames(md.tables)
               && r == MetricRow(md.metrics[k].name, md.metrics[k].baseTable,
                                 FirstDomain(md.tables, md.metrics[k].baseTable, md.domain));
      var i :| 0 <= i < |md.tables| && md.tables[i].tableName == r.baseTable;
      FirstDomainFound(md.tables, r.baseTable, md.domain, i);
    }
  }

  /** `_create_metric_relationships`: the rows of the metrics whose base
      table is loaded, in batches. */
  method CreateMetricRows(md: DomainMetadata) returns (batches: seq<seq<MetricRow>>)
    ensures Batched(batches, MetricRows(md))
  {
    var tableNames := TableNames(md.tables);
    var rows: seq<MetricRow> := [];
    var k := 0;
    while k < |md.metrics|
      invariant 0 <= k <= |md.metrics|
      invariant rows == ConcatWith((md.tables, md.domain), md.metrics[..k], MetricRowsOf)
    {
      var metric := md.metrics[k];
      ghost var before := rows;
      if metric.baseTable in tableNames {
        var domain := FirstDomain(md.tables, metric.baseTable, md.domain);
        rows := rows + [MetricRow(metric.name, metric.baseTable, domain)];
      }
      assert rows == before + MetricRowsOf((md.tables, md.domain), metric);
      MetricRowsStep((md.tables, md.domain), md.metrics, k);
      k := k + 1;
    }
    assert md.metrics[..k] == md.metrics;
    batches := Batches(rows);
  }

  lemma MetricRowsStep(ctx: (seq<Table>, string), metrics: seq<Metric>, k: nat)
    requires k < |metrics|
    ensures ConcatWith(ctx, metrics[..k + 1], MetricRowsOf)
         == ConcatWith(ctx, metrics[..k], MetricRowsOf) + MetricRowsOf(ctx, metrics[k])
  {
    ConcatWithAppend(ctx, metrics[..k], metrics[k], MetricRowsOf);
    assert metrics[..k + 1] == metrics[..k] + [metrics[k]];
  }
}
