/** `PromptBuilder`: the schema context, the few-shot examples, the user
    prompt and the chat messages sent to the model. Records are the
    dictionaries the retriever produces; the current date is a parameter. */
module PromptBuilder {
  import opened Common
  import opened Records

  /** The parts of the retrieval result the prompt is built from; a missing
      list is the empty list. */
  datatype PromptContext = PromptContext(tables: seq<Node>, columns: seq<Node>, joins: seq<Node>,
                                         metrics: seq<Node>, sampleQueries: seq<Node>)

  // ---------------------------------------------------------------------------
  // Full table names
  // ---------------------------------------------------------------------------

  /** The table name, `unknown` when it is missing. */
  function TableKey(r: Node): Value
  {
    GetOr(r, "table_name", Str("unknown"))
  }

  /** The name parts: catalog and schema when truthy, then the table name. */
  function NameParts(t: Node): seq<string>
  {
    (if Truthy(Get(t, "catalog")) then [Text(Get(t, "catalog"))] else [])
    + (if Truthy(Get(t, "schema")) then [Text(Get(t, "schema"))] else [])
    + [Text(TableKey(t))]
  }

  /** `_get_full_table_name`: `catalog.schema.table_name`. */
  function FullTableName(t: Node): string
  {
    Join(".", NameParts(t))
  }

  /** The full name always ends with the table name; it is the bare name
      without catalog and schema, and `catalog.schema.name` with both. */
  lemma FullTableNameCases(t: Node)
    ensures EndsWith(FullTableName(t), Text(TableKey(t)))
    ensures !Truthy(Get(t, "catalog")) && !Truthy(Get(t, "schema")) ==> FullTableName(t) == Text(TableKey(t))
    ensures Truthy(Get(t, "catalog")) && Truthy(Get(t, "schema")) ==>
              FullTableName(t) == Text(Get(t, "catalog")) + "." + Text(Get(t, "schema")) + "." + Text(TableKey(t))
    ensures !Truthy(Get(t, "catalog")) && Truthy(Get(t, "schema")) ==>
              FullTableName(t) == Text(Get(t, "schema")) + "." + Text(TableKey(t))
    ensures Truthy(Get(t, "catalog")) && !Truthy(Get(t, "schema")) ==>
              FullTableName(t) == Text(Get(t, "catalog")) + "." + Text(TableKey(t))
    ensures "table_name" !in AssocKeys(t) && !Truthy(Get(t, "catalog")) && !Truthy(Get(t, "schema")) ==>
              FullTableName(t) == "unknown"
  {
    DottedName(Truthy(Get(t, "catalog")), Truthy(Get(t, "schema")),
               Text(Get(t, "catalog")), Text(Get(t, "schema")), Text(TableKey(t)));
  }

  /** The dotted join of an optional catalog, an optional schema and a name. */
  lemma DottedName(hasCatalog: bool, hasSchema: bool, c: string, s: string, name: string)
    ensures var parts := (if hasCatalog then [c] else []) + (if hasSchema then [s] else []) + [name];
      var full := Join(".", parts);
      && EndsWith(full, name)
      && (!hasCatalog && !hasSchema ==> full == name)
      && (hasCatalog && hasSchema ==> full == c + "." + s + "." + name)
      && (!hasCatalog && hasSchema ==> full == s + "." + name)
      && (hasCatalog && !hasSchema ==> full == c + "." + name)
  {
    var parts := (if hasCatalog then [c] else []) + (if hasSchema then [s] else []) + [name];
    JoinLast(".", parts);
    if hasCatalog && hasSchema {
      assert parts == [c, s] + [name];
      JoinAppend(".", [c, s], name);
      assert Join(".", [c, s]) == c + "." + s by { JoinAppend(".", [c], s); }
    } else if hasSchema {
      assert parts == [s] + [name];
      JoinAppend(".", [s], name);
    } else if hasCatalog {
      assert parts == [c] + [name];
      JoinAppend(".", [c], name);
    } else {
      assert parts == [name];
    }
  }

  /** `table_full_names`: table name to full name, in first-seen order, a
      later table of the same name replacing the full name. */
  type FullNames = Assoc<Value, string>

  function FullNamesOf(tables: seq<Node>): FullNames
  {
    PutAll(tables, TableKey, FullTableName)
  }

  /** Every listed table name is remembered once, in order of first
      appearance, with the full name of its last table. */
  lemma FullNamesLookup(tables: seq<Node>, key: Value)
    ensures AssocKeys(FullNamesOf(tables)) == FirstSeen(MapSeq(tables, TableKey))
    ensures KeyClass(tables, TableKey, key) == [] ==> AssocGet(FullNamesOf(tables), key) == None
    ensures KeyClass(tables, TableKey, key) != [] ==>
              AssocGet(FullNamesOf(tables), key) ==
              Some(FullTableName(KeyClass(tables, TableKey, key)[|KeyClass(tables, TableKey, key)| - 1]))
  {
    PutAllKeys(tables, TableKey, FullTableName);
    PutAllGet(tables, TableKey, FullTableName, key);
  }

  lemma FullNamesEmpty(tables: seq<Node>)
    ensures FullNamesOf(tables) == [] <==> tables == []
  {
    if tables != [] {
      var last := tables[|tables| - 1];
      assert AssocGet(FullNamesOf(tables), TableKey(last)).Some?;
    }
  }

  /** A name as the sections show it: the full name when the table is
      listed, otherwise the value itself. */
  function Display(names: FullNames, v: Value): string
  {
    match AssocGet(names, v)
    case Some(full) => full
    case None => Format(v)
  }

  // ---------------------------------------------------------------------------
  // The tables section
  // ---------------------------------------------------------------------------

  /** `**full** (type)`, then ` - business name` when it is truthy. */
  function TableInfo(t: Node): string
  {
    "**" + FullTableName(t) + "** (" + Format(GetOr(t, "table_type", Str("unknown"))) + ")"
    + (if Truthy(Get(t, "business_name")) then " - " + Format(Get(t, "business_name")) else "")
  }

  function DescriptionLine(t: Node): string
  {
    "  - Description: " + Take(Text(Get(t, "description")), 200)
  }

  /** The lines of one table: its info, its grain and its description when
      they are truthy, and a blank line. */
  function TableBlock(t: Node): seq<string>
  {
    [TableInfo(t)]
    + (if Truthy(Get(t, "grain")) then ["  - Grain: " + Format(Get(t, "grain"))] else [])
    + (if Truthy(Get(t, "description")) then [DescriptionLine(t)] else [])
    + [""]
  }

  /** A table block opens with the info line and closes with a blank line;
      it has a grain line and a description line exactly when those fields
      are truthy, and the description is cut to 200 characters. */
  lemma TableBlockShape(t: Node)
    ensures TableBlock(t)[0] == TableInfo(t) && TableBlock(t)[|TableBlock(t)| - 1] == ""
    ensures |TableBlock(t)| == 2 + (if Truthy(Get(t, "grain")) then 1 else 0) + (if Truthy(Get(t, "description")) then 1 else 0)
    ensures Truthy(Get(t, "grain")) ==> TableBlock(t)[1] == "  - Grain: " + Format(Get(t, "grain"))
    ensures |DescriptionLine(t)| <= |"  - Description: "| + 200
    ensures |Text(Get(t, "description"))| <= 200 ==> DescriptionLine(t) == "  - Description: " + Text(Get(t, "description"))
  {
    var grain := if Truthy(Get(t, "grain")) then ["  - Grain: " + Format(Get(t, "grain"))] else [];
    var description := if Truthy(Get(t, "description")) then [DescriptionLine(t)] else [];
    BlockShape(TableInfo(t), grain, description);
    DescriptionCut(Text(Get(t, "description")));
  }

  /** An info line, at most one line each of two optional kinds, and a
      closing blank line. */
  lemma BlockShape(info: string, grain: seq<string>, description: seq<string>)
    requires |grain| <= 1 && |description| <= 1
    ensures var b := [info] + grain + description + [""];
      && b[0] == info && b[|b| - 1] == "" && |b| == 2 + |grain| + |description|
      && (grain != [] ==> b[1] == grain[0])
  {
  }

  lemma DescriptionCut(d: string)
    ensures |"  - Description: " + Take(d, 200)| <= |"  - Description: "| + 200
    ensures |d| <= 200 ==> "  - Description: " + Take(d, 200) == "  - Description: " + d
  {
  }

  function TableSection(tables: seq<Node>): seq<string>
  {
    if tables == [] then [] else ["### Tables\n"] + ConcatMap(tables, TableBlock)
  }

  // ---------------------------------------------------------------------------
  // The columns section
  // ---------------------------------------------------------------------------

  /** `columns_by_table`: the columns of each table name. */
  type ColumnGroups = Groups<Value, Node>

  function GroupsOf(columns: seq<Node>): ColumnGroups
  {
    GroupBy(columns, TableKey)
  }

  /** Columns are grouped under their table names, names in order of first
      appearance, each group holding exactly that table's columns in their
      original order. */
  lemma ColumnGrouping(columns: seq<Node>, key: Value)
    ensures AssocKeys(GroupsOf(columns)) == FirstSeen(MapSeq(columns, TableKey))
    ensures AssocGet(GroupsOf(columns), key) ==
              if KeyClass(columns, TableKey, key) == [] then None else Some(KeyClass(columns, TableKey, key))
  {
    GroupByKeys(columns, TableKey);
    GroupByGet(columns, TableKey, key);
  }

  /** The flags of a column: `PK`, then `TIME`, each only when set. */
  function Flags(c: Node): seq<string>
  {
    (if Truthy(Get(c, "is_primary_key")) then ["PK"] else [])
    + (if Truthy(Get(c, "is_time_column")) then ["TIME"] else [])
  }

  function FlagSuffix(c: Node): string
  {
    if Flags(c) == [] then "" else " [" + Join(", ", Flags(c)) + "]"
  }

  function ColumnDescription(c: Node): string
  {
    if Truthy(Get(c, "description")) then " -- " + Take(Text(Get(c, "description")), 100) else ""
  }

  /** `  - `name` (type)`, the flags, then ` -- description`. */
  function ColumnLine(c: Node): string
  {
    "  - `" + Format(Get(c, "column_name")) + "` (" + Format(GetOr(c, "data_type", Str("unknown"))) + ")"
    + FlagSuffix(c) + ColumnDescription(c)
  }

  /** The flag suffix lists `PK` and `TIME` exactly when they are set, and
      a column description is cut to 100 characters. */
  lemma ColumnLineParts(c: Node)
    ensures FlagSuffix(c) == "" <==> !Truthy(Get(c, "is_primary_key")) && !Truthy(Get(c, "is_time_column"))
    ensures Truthy(Get(c, "is_primary_key")) && !Truthy(Get(c, "is_time_column")) ==> FlagSuffix(c) == " [PK]"
    ensures !Truthy(Get(c, "is_primary_key")) && Truthy(Get(c, "is_time_column")) ==> FlagSuffix(c) == " [TIME]"
    ensures Truthy(Get(c, "is_primary_key")) && Truthy(Get(c, "is_time_column")) ==> FlagSuffix(c) == " [PK, TIME]"
    ensures ColumnDescription(c) == "" <==> !Truthy(Get(c, "description"))
    ensures |ColumnDescription(c)| <= |" -- "| + 100
  {
    FlagSuffixOf(Truthy(Get(c, "is_primary_key")), Truthy(Get(c, "is_time_column")));
    assert |Take(Text(Get(c, "description")), 100)| <= 100;
  }

  /** The suffix for the flags `pk` and `time`. */
  lemma FlagSuffixOf(pk: bool, time: bool)
    ensures var f := (if pk then ["PK"] else []) + (if time then ["TIME"] else []);
      var suffix := if f == [] then "" else " [" + Join(", ", f) + "]";
      && (suffix == "" <==> !pk && !time)
      && (pk && !time ==> suffix == " [PK]")
      && (!pk && time ==> suffix == " [TIME]")
      && (pk && time ==> suffix == " [PK, TIME]")
  {
    if pk && time {
      assert ["PK"] + ["TIME"] == ["PK", "TIME"];
      JoinAppend(", ", ["PK"], "TIME");
    }
  }

  function GroupHeader(names: FullNames, key: Value): string
  {
    "**" + Display(names, key) + "**:"
  }

  function HeaderOf(names: FullNames): Value -> string
  {
    (key: Value) => GroupHeader(names, key)
  }

  /** One table's columns: its header, a line per column, a blank line. */
  function GroupBlock(header: string, lines: seq<string>): seq<string>
  {
    [header] + lines + [""]
  }

  function GroupBlocks(groups: ColumnGroups, header: Value -> string, line: Node -> string): seq<string>
  {
    if groups == [] then []
    else
      var last := groups[|groups| - 1];
      GroupBlocks(groups[..|groups| - 1], header, line) + GroupBlock(header(last.0), MapSeq(last.1, line))
  }

  function ColumnSection(names: FullNames, columns: seq<Node>): seq<string>
  {
    if columns == [] then [] else ["### Columns\n"] + GroupBlocks(GroupsOf(columns), HeaderOf(names), ColumnLine)
  }

  // ---------------------------------------------------------------------------
  // Joins, metrics and the name reference
  // ---------------------------------------------------------------------------

  /** The join type, `LEFT` when it is missing. */
  function JoinType(j: Node): string
  {
    Format(GetOr(j, "join_type", Str("LEFT")))
  }

  /** A list of conditions joined by ` AND `; any other value as text. */
  function OnText(j: Node): string
  {
    match GetOr(j, "on_clause", List([]))
    case List(items) => Join(" AND ", items)
    case v => Format(v)
  }

  function JoinLine(names: FullNames, j: Node): string
  {
    "- " + Display(names, GetOr(j, "from_table", Str(""))) + " " + JoinType(j) + " JOIN "
    + Display(names, GetOr(j, "to_table", Str(""))) + " ON " + OnText(j)
  }

  /** A missing join type reads `LEFT`, a missing condition is empty, and a
      list of conditions is joined by ` AND `. */
  lemma JoinLineDefaults(j: Node)
    ensures "join_type" !in AssocKeys(j) ==> JoinType(j) == "LEFT"
    ensures "on_clause" !in AssocKeys(j) ==> OnText(j) == ""
    ensures forall items :: Get(j, "on_clause") == List(items) ==> OnText(j) == Join(" AND ", items)
    ensures forall s :: Get(j, "on_clause") == Str(s) ==> OnText(j) == s
  {
  }

  function JoinLineOf(names: FullNames): Node -> string
  {
    (j: Node) => JoinLine(names, j)
  }

  function JoinSection(names: FullNames, joins: seq<Node>): seq<string>
  {
    if joins == [] then [] else ["### Join Relationships\n"] + MapSeq(joins, JoinLineOf(names)) + [""]
  }

  function MetricLine(m: Node): string
  {
    "- **" + Format(Get(m, "name")) + "**: " + Format(GetOr(m, "business_name", Str(""))) + " = `"
    + Format(GetOr(m, "expression", Str(""))) + "`"
  }

  function MetricSection(metrics: seq<Node>): seq<string>
  {
    if metrics == [] then [] else ["### Pre-defined Metrics\n"] + MapSeq(metrics, MetricLine) + [""]
  }

  function ReferenceLine(entry: (Value, string)): string
  {
    "- `" + Format(entry.0) + "` \U{2192} `" + entry.1 + "`"
  }

  const ReferenceHeader: seq<string> := ["### Table Name Reference\n", "**Use these exact table names in your SQL:**"]

  function ReferenceSection(names: FullNames): seq<string>
  {
    if names == [] then [] else ReferenceHeader + MapSeq(names, ReferenceLine) + [""]
  }

  /** The reference lists each table name once, in order of first
      appearance, with the full name of its last table. */
  lemma ReferenceEntries(tables: seq<Node>)
    ensures tables != [] ==> |ReferenceSection(FullNamesOf(tables))| == |FirstSeen(MapSeq(tables, TableKey))| + 3
    ensures forall i :: 0 <= i < |FullNamesOf(tables)| ==>
              FullNamesOf(tables)[i].0 == FirstSeen(MapSeq(tables, TableKey))[i] &&
              ReferenceSection(FullNamesOf(tables))[i + 2] == ReferenceLine(FullNamesOf(tables)[i])
  {
    var names := FullNamesOf(tables);
    PutAllKeys(tables, TableKey, FullTableName);
    FullNamesEmpty(tables);
    ReferenceSectionLines(names);
    assert |AssocKeys(names)| == |names|;
    forall i | 0 <= i < |names|
      ensures names[i].0 == FirstSeen(MapSeq(tables, TableKey))[i]
    {
      assert AssocKeys(names)[i] == names[i].0;
    }
  }

  /** A non-empty reference has the two heading lines, one line per entry
      and the trailer. */
  lemma ReferenceSectionLines(names: FullNames)
    ensures names != [] ==> |ReferenceSection(names)| == |names| + 3
    ensures forall i :: 0 <= i < |names| ==> ReferenceSection(names)[i + 2] == ReferenceLine(names[i])
  {
    if names != [] {
      var lines := MapSeq(names, ReferenceLine);
      assert ReferenceSection(names) == ReferenceHeader + lines + [""];
      forall i | 0 <= i < |names|
        ensures ReferenceSection(names)[i + 2] == ReferenceLine(names[i])
      {
        assert (ReferenceHeader + lines + [""])[i + 2] == lines[i];
      }
    }
  }

  // ---------------------------------------------------------------------------
  // The schema context
  // ---------------------------------------------------------------------------

  const SchemaHeader: string := "## Available Schema\n"

  function SchemaParts(ctx: PromptContext): seq<string>
  {
    var names := FullNamesOf(ctx.tables);
    [SchemaHeader] + TableSection(ctx.tables) + ColumnSection(names, ctx.columns)
    + JoinSection(names, ctx.joins) + MetricSection(ctx.metrics) + ReferenceSection(names)
  }

  /** `build_schema_context`. */
  function SchemaContext(ctx: PromptContext): string
  {
    Join("\n", SchemaParts(ctx))
  }

  /** The context opens with its header; each section is there exactly when
      its list is non-empty and then opens with its own heading; the name
      reference is there exactly when there are tables. */
  lemma SchemaSections(ctx: PromptContext)
    ensures StartsWith(SchemaContext(ctx), SchemaHeader)
    ensures TableSection(ctx.tables) == [] <==> ctx.tables == []
    ensures ctx.tables != [] ==> TableSection(ctx.tables)[0] == "### Tables\n"
    ensures ColumnSection(FullNamesOf(ctx.tables), ctx.columns) == [] <==> ctx.columns == []
    ensures ctx.columns != [] ==> ColumnSection(FullNamesOf(ctx.tables), ctx.columns)[0] == "### Columns\n"
    ensures JoinSection(FullNamesOf(ctx.tables), ctx.joins) == [] <==> ctx.joins == []
    ensures MetricSection(ctx.metrics) == [] <==> ctx.metrics == []
    ensures ReferenceSection(FullNamesOf(ctx.tables)) == [] <==> ctx.tables == []
    ensures ctx.tables == [] && ctx.columns == [] && ctx.joins == [] && ctx.metrics == [] ==> SchemaContext(ctx) == SchemaHeader
  {
    JoinFirst("\n", SchemaParts(ctx));
    FullNamesEmpty(ctx.tables);
  }

  /** The tables loop: the lines of each table, and the full names. */
  method TablesLoop(tables: seq<Node>, block: Node -> seq<string>, full: Node -> string)
    returns (lines: seq<string>, names: FullNames)
    ensures lines == ConcatMap(tables, block)
    ensures names == PutAll(tables, TableKey, full)
  {
    lines, names := [], [];
    var i := 0;
    while i < |tables|
      invariant 0 <= i <= |tables|
      invariant lines == ConcatMap(tables[..i], block)
      invariant names == PutAll(tables[..i], TableKey, full)
    {
      var t := tables[i];
      TablesStep(tables, i, block, full);
      names := AssocPut(names, TableKey(t), full(t));
      lines := lines + block(t);
      i := i + 1;
    }
    assert tables[..i] == tables;
  }

  lemma TablesStep(tables: seq<Node>, i: nat, block: Node -> seq<string>, full: Node -> string)
    requires i < |tables|
    ensures ConcatMap(tables[..i + 1], block) == ConcatMap(tables[..i], block) + block(tables[i])
    ensures PutAll(tables[..i + 1], TableKey, full) == AssocPut(PutAll(tables[..i], TableKey, full), TableKey(tables[i]), full(tables[i]))
  {
    assert tables[..i + 1][..i] == tables[..i];
  }

  /** The loop over the groups, each with its loop over its columns. */
  method GroupsLoop(groups: ColumnGroups, header: Value -> string, line: Node -> string) returns (lines: seq<string>)
    ensures lines == GroupBlocks(groups, header, line)
  {
    lines := [];
    var i := 0;
    while i < |groups|
      invariant 0 <= i <= |groups|
      invariant lines == GroupBlocks(groups[..i], header, line)
    {
      var (key, cols) := groups[i];
      var block := MapLoop([header(key)], cols, line);
      lines := lines + block + [""];
      assert groups[..i + 1][..i] == groups[..i];
      i := i + 1;
    }
    assert groups[..i] == groups;
  }

  /** `build_schema_context`, built line by line. */
  method BuildSchemaContext(ctx: PromptContext) returns (s: string)
    ensures s == SchemaContext(ctx)
  {
    var parts := [SchemaHeader];
    var tableLines, names := TableLines(ctx.tables);
    parts := parts + tableLines;
    var columnLines := ColumnLines(names, ctx.columns);
    parts := parts + columnLines;
    var joinLines := JoinLines(names, ctx.joins);
    parts := parts + joinLines;
    var metricLines := MetricLines(ctx.metrics);
    parts := parts + metricLines;
    var referenceLines := ReferenceLines(names);
    parts := parts + referenceLines;
    s := Join("\n", parts);
  }

  /** The tables section, and the full names it remembers. */
  method TableLines(tables: seq<Node>) returns (lines: seq<string>, names: FullNames)
    ensures lines == TableSection(tables)
    ensures names == FullNamesOf(tables)
  {
    var blocks;
    blocks, names := TablesLoop(tables, TableBlock, FullTableName);
    lines := if tables != [] then ["### Tables\n"] + blocks else [];
  }

  method ColumnLines(names: FullNames, columns: seq<Node>) returns (lines: seq<string>)
    ensures lines == ColumnSection(names, columns)
  {
    lines := [];
    if columns != [] {
      var groups := GroupLoop(columns, TableKey);
      var groupLines := GroupsLoop(groups, HeaderOf(names), ColumnLine);
      lines := ["### Columns\n"] + groupLines;
    }
  }

  method JoinLines(names: FullNames, joins: seq<Node>) returns (lines: seq<string>)
    ensures lines == JoinSection(names, joins)
  {
    lines := [];
    if joins != [] {
      var section := MapLoop(["### Join Relationships\n"], joins, JoinLineOf(names));
      lines := section + [""];
    }
  }

  method MetricLines(metrics: seq<Node>) returns (lines: seq<string>)
    ensures lines == MetricSection(metrics)
  {
    lines := [];
    if metrics != [] {
      var section := MapLoop(["### Pre-defined Metrics\n"], metrics, MetricLine);
      lines := section + [""];
    }
  }

  method ReferenceLines(names: FullNames) returns (lines: seq<string>)
    ensures lines == ReferenceSection(names)
  {
    lines := [];
    if names != [] {
      var section := MapLoop(ReferenceHeader, names, ReferenceLine);
      lines := section + [""];
    }
  }

  // ---------------------------------------------------------------------------
  // Few-shot examples
  // ---------------------------------------------------------------------------

  /** The three lines of the example numbered `n`. */
  function ExampleBlock(n: nat, q: Node): (r: seq<string>)
    ensures |r| == 3
  {
    ["**Example " + NatToString(n) + ":** " + Format(GetOr(q, "description", Str(""))),
     "```sql\n" + Format(GetOr(q, "sql", Str(""))) + "\n```",
     ""]
  }

  const ExamplesHeader: string := "## Examples\n"

  /** `build_examples_section`: empty without examples. */
  function ExamplesSection(queries: seq<Node>): string
  {
    if queries == [] then "" else Join("\n", [ExamplesHeader] + Numbered(queries, ExampleBlock))
  }

  /** Example `i` (from 0) takes lines `3i` to `3i + 2` after the heading
      and is numbered `i + 1`. */
  lemma ExampleNumbering(queries: seq<Node>)
    ensures |Numbered(queries, ExampleBlock)| == 3 * |queries|
    ensures forall i :: 0 <= i < |queries| ==>
              Numbered(queries, ExampleBlock)[3 * i..3 * i + 3] == ExampleBlock(i + 1, queries[i])
  {
    NumberedThree(queries, ExampleBlock);
  }

  /** `build_examples_section`, numbering from 1. */
  method BuildExamplesSection(queries: seq<Node>) returns (s: string)
    ensures s == ExamplesSection(queries)
  {
    if queries == [] {
      return "";
    }
    var parts := NumberedLoop([ExamplesHeader], queries, ExampleBlock);
    s := Join("\n", parts);
  }

  // ---------------------------------------------------------------------------
  // The user prompt, the system prompt and the messages
  // ---------------------------------------------------------------------------

  const QuestionHeader: string := "## Question\n"
  const SqlHeader: string := "\n## SQL Query\n"

  /** The question under its heading, then the SQL heading. */
  function QuestionBlock(question: string): string
  {
    QuestionHeader + "\n" + (question + "\n" + SqlHeader)
  }

  lemma QuestionBlockJoin(question: string)
    ensures Join("\n", [QuestionHeader, question, SqlHeader]) == QuestionBlock(question)
  {
    var tail := [QuestionHeader, question, SqlHeader];
    assert tail[1..] == [question, SqlHeader];
    assert [question, SqlHeader][1..] == [SqlHeader];
    assert Join("\n", [SqlHeader]) == SqlHeader;
  }

  function UserPromptParts(question: string, ctx: PromptContext): seq<string>
  {
    [SchemaContext(ctx)]
    + (if ctx.sampleQueries != [] then [ExamplesSection(ctx.sampleQueries)] else [])
    + [QuestionHeader, question, SqlHeader]
  }

  /** `build_user_prompt`. */
  function UserPrompt(question: string, ctx: PromptContext): string
  {
    Join("\n", UserPromptParts(question, ctx))
  }

  /** Joining the schema, the examples section when there is one, and the
      question lines, for any schema text. */
  lemma PromptJoin(schema: string, examples: seq<string>, question: string)
    requires |examples| <= 1
    ensures Join("\n", [schema] + examples + [QuestionHeader, question, SqlHeader]) ==
              schema + (if examples == [] then "\n" else "\n" + examples[0] + "\n") + QuestionBlock(question)
  {
    var tail := [QuestionHeader, question, SqlHeader];
    var head := [schema] + examples;
    JoinConcat("\n", head, tail);
    QuestionBlockJoin(question);
    if examples != [] {
      var e := examples[0];
      assert head == [schema, e];
      assert Join("\n", head) == schema + "\n" + e by { assert head[1..] == [e]; }
      assert schema + "\n" + e + "\n" == schema + ("\n" + e + "\n");
    }
  }

  /** The user prompt is the schema context, then the examples when there
      are any, then the question block, one newline between each. */
  lemma UserPromptShape(question: string, ctx: PromptContext)
    ensures ctx.sampleQueries == [] ==>
              UserPrompt(question, ctx) == SchemaContext(ctx) + "\n" + QuestionBlock(question)
    ensures ctx.sampleQueries != [] ==>
              UserPrompt(question, ctx) == SchemaContext(ctx) + "\n" + ExamplesSection(ctx.sampleQueries) + "\n" + QuestionBlock(question)
    ensures StartsWith(UserPrompt(question, ctx), SchemaContext(ctx))
    ensures EndsWith(UserPrompt(question, ctx), QuestionBlock(question))
  {
    var examples := if ctx.sampleQueries != [] then [ExamplesSection(ctx.sampleQueries)] else [];
    PromptShapeOf(SchemaContext(ctx), examples, question);
    assert UserPromptParts(question, ctx) == [SchemaContext(ctx)] + examples + [QuestionHeader, question, SqlHeader];
  }

  /** The shape of the joined prompt, for any schema text. */
  lemma PromptShapeOf(schema: string, examples: seq<string>, question: string)
    requires |examples| <= 1
    ensures var p := Join("\n", [schema] + examples + [QuestionHeader, question, SqlHeader]);
      && (examples == [] ==> p == schema + "\n" + QuestionBlock(question))
      && (examples != [] ==> p == schema + "\n" + examples[0] + "\n" + QuestionBlock(question))
      && StartsWith(p, schema)
      && EndsWith(p, QuestionBlock(question))
  {
    var q := QuestionBlock(question);
    var middle := if examples == [] then "\n" else "\n" + examples[0] + "\n";
    PromptJoin(schema, examples, question);
    assert Join("\n", [schema] + examples + [QuestionHeader, question, SqlHeader]) == schema + middle + q;
    FramedEnds(schema, middle, q);
    if examples != [] {
      Regroup(schema, "\n", examples[0], "\n", q);
    }
  }

  /** Concatenation regrouped. */
  lemma Regroup(a: string, b: string, c: string, d: string, e: string)
    ensures a + (b + c + d) + e == a + b + c + d + e
  {
  }

  /** Text framed by a head and a tail starts with the one and ends with
      the other. */
  lemma FramedEnds(head: string, middle: string, tail: string)
    ensures StartsWith(head + middle + tail, head)
    ensures EndsWith(head + middle + tail, tail)
  {
    ConcatEnds(head, middle, tail);
  }

  /** `build_user_prompt`, assembling the parts. */
  method BuildUserPrompt(question: string, ctx: PromptContext) returns (s: string)
    ensures s == UserPrompt(question, ctx)
  {
    var schema := BuildSchemaContext(ctx);
    var parts := [schema];
    if ctx.sampleQueries != [] {
      var examples := BuildExamplesSection(ctx.sampleQueries);
      parts := parts + [examples];
    }
    parts := parts + [QuestionHeader, question, SqlHeader];
    s := Join("\n", parts);
  }

  /** The clock reading the system prompt shows. */
  datatype Date = Date(year: nat, month: nat, day: nat)

  /** Two digits, zero-padded below ten. */
  function Pad2(n: nat): string
  {
    if n < 10 then ['0', DigitChar(n)]
    else if n < 100 then [DigitChar(n / 10), DigitChar(n % 10)]
    else NatToString(n)
  }

  /** Below 100 the padded form has two digits and reads back as `n`. */
  lemma Pad2Digits(n: nat)
    requires n < 100
    ensures |Pad2(n)| == 2 && ParseNat(Pad2(n)) == n
  {
    var r := Pad2(n);
    assert r[..1][..0] == [];
    assert ParseNat(r[..1]) == ParseNat(r[..1][..0]) * 10 + (r[0] as int - '0' as int);
  }

  /** `strftime("%Y-%m-%d")`. */
  function DateText(d: Date): string
  {
    NatToString(d.year) + "-" + Pad2(d.month) + "-" + Pad2(d.day)
  }

  /** A valid month and day take two characters each. */
  lemma DateTextLength(d: Date)
    requires 1 <= d.month <= 12 && 1 <= d.day <= 31
    ensures |DateText(d)| == |NatToString(d.year)| + 6
  {
    Pad2Digits(d.month);
    Pad2Digits(d.day);
  }

  const SystemIntro: string :=
    "You are an expert SQL analyst. Your task is to convert natural language questions into accurate SQL queries.\n\n"
    + "## Current Date Information:\n"

  const SystemRules: string :=
    "\n\n## Guidelines:\n"
    + "1. Use only the tables and columns provided in the schema context\n"
    + "2. **IMPORTANT: Always use the FULL TABLE NAME with catalog.schema.table_name format as provided**\n"
    + "3. Follow the join paths specified - do not invent new joins\n"
    + "4. Use appropriate aggregation functions (SUM, COUNT, AVG, etc.)\n"
    + "5. Include proper date filtering when time periods are mentioned\n"
    + "6. Use table aliases for clarity\n"
    + "7. Return only the SQL query without explanation unless asked\n"
    + "8. When user mentions relative dates (e.g., \"this month\", \"last year\", \"yesterday\"), use the current date information above to calculate the correct date range\n\n"
    + "## Important:\n"
    + "- The database is a data lakehouse using Spark SQL / Trino SQL dialect\n"
    + "- **Always use fully qualified table names (catalog.schema.table_name) in FROM and JOIN clauses**\n"
    + "- Use DATE, TIMESTAMP functions appropriately\n"
    + "- Handle NULL values properly\n"
    + "- Respect the grain of each table"

  /** The introduction up to and including today's date. */
  function DatePrefix(today: Date): string
  {
    SystemIntro + "- Today's date: " + DateText(today)
  }

  function YearMonthLines(today: Date): string
  {
    "\n- Current year: " + NatToString(today.year) + "\n- Current month: " + NatToString(today.month)
  }

  /** `get_system_prompt`, with the clock reading as a parameter. */
  function SystemPrompt(today: Date): string
  {
    DatePrefix(today) + YearMonthLines(today) + SystemRules
  }

  /** The system prompt carries the date between the fixed introduction and
      the fixed rules. */
  lemma SystemPromptDate(today: Date)
    ensures StartsWith(SystemPrompt(today), DatePrefix(today))
    ensures EndsWith(SystemPrompt(today), SystemRules)
  {
    ConcatEnds(DatePrefix(today), YearMonthLines(today), SystemRules);
  }

  datatype Message = Message(role: string, content: string)

  /** `build_messages`: the system prompt, then the user prompt. */
  function BuildMessages(question: string, ctx: PromptContext, today: Date): (r: seq<Message>)
    ensures |r| == 2 && r[0].role == "system" && r[1].role == "user"
  {
    [Message("system", SystemPrompt(today)), Message("user", UserPrompt(question, ctx))]
  }

  /** The messages end with the question under its heading, after the
      schema context, and the system message carries today's date. */
  lemma MessagesCarryQuestion(question: string, ctx: PromptContext, today: Date)
    ensures StartsWith(BuildMessages(question, ctx, today)[1].content, SchemaContext(ctx))
    ensures EndsWith(BuildMessages(question, ctx, today)[1].content, QuestionBlock(question))
    ensures StartsWith(BuildMessages(question, ctx, today)[0].content, DatePrefix(today))
  {
    UserPromptShape(question, ctx);
    SystemPromptDate(today);
  }
}
