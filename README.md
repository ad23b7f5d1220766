# Text-to-SQL schema context, modelled in Dafny

The system answers a natural-language question (Vietnamese or English) about a
Sakila-style database by handing an SQL-writing language model a small,
structured description of the relevant part of the schema. This project
models the deterministic core of that pipeline and proves properties of it:

- `SchemaCache` (`schema_cache.dfy`): the TTL + LRU cache of table schemas.
  It is a class whose map and access-order list the methods update in place,
  proved against pure transition functions on a `CacheState`. It also holds
  `TableSchema.to_prompt_string`.
- `TableSelector` (`table_selector.dfy`): keyword-driven table selection
  with the fixed keyword dictionary, relationship map, priority map, bridge
  lookup and dependency map. It scores in loops and sorts by
  `(score*10 + priority, priority)`, keeping the first `max_tables`.
- `SchemaLoader` (`schema_loader.dfy`): the cache-backed loader. It selects
  with a fallback list, looks up the cache first, loads the misses from the
  database and stores them, converts rows to `TableSchema`, and formats the
  result in order.
- `TextBuilder` (`text_builder.dfy`): the embeddable texts for Table,
  Column, Concept and Metric nodes, and the fallback for other labels.
- `VectorIndex` (`vector_index.dfy`): index naming, the single- and
  all-label search dispatch, the merge-sort-truncate of the all-label
  search, and the text filter and batching of embedding preparation.
- `SchemaRetriever` (`schema_retriever.dfy`): the seed tables and seed
  columns of the vector matches, the merge of key and vector columns with
  provenance tags, the foreign keys re-written as `left` joins, and the
  whole `retrieve`.
- `PromptBuilder` (`prompt_builder.dfy`): qualified table names, the schema
  context sections, the few-shot examples, and the user and system prompts
  and messages.
- `LlmGenerator` (`llm_generator.dfy`): the SQL extraction from a model
  reply (first fenced block, else prefix stripping) and the retry loop.
- `GraphBuilder` (`graph_builder.dfy`): the pure part of building the
  knowledge graph. This covers concept extraction (first wins, plus concepts
  made from column semantics), the `_load_joins` defaults, and the rows
  written for tables, columns, concepts, metrics, joins, foreign keys,
  HAS_CONCEPT, HAS_SEMANTIC and metric links, in batches of 100.
- `Common` (`common.dfy`) and `Records` (`records.dfy`) hold the shared
  vocabulary:
  - ASCII `lower`/`strip`, `join` and substring tests;
  - association lists standing for insertion-ordered dicts;
  - a stable insertion sort with its sortedness, permutation and stability
    lemmas;
  - `FirstSeen`/`PutAll`/`GroupBy` for dict-building loops;
  - loop methods for map and concatenation;
  - batching;
  - a small dynamic value type for the dictionary records the Python code
    passes around.

A Python dict is modelled as an association list (`Assoc`) when its
insertion order is observable (it is iterated, or its values are listed),
and as a Dafny `map` when it is only looked up. Database, graph, vector and
chat queries are function parameters that return their rows. The clock and
today's date are parameters.

`SchemaCache.Set` evicts while the cache is full even when the key being
set is already present: the eviction loop at schema_cache.py:74-77 runs
before the key is looked at. Unlike an ordinary LRU update, updating one of
two entries of a full cache of size two therefore leaves one entry, as
`SchemaCache.SetEvictsWhenPresent` shows.

## Model

| member | source | states |
|---|---|---|
| SchemaCache.ToPromptString | schema_cache.py:20-37 | the loop builds exactly the `"\n"`-join of the prompt lines: header, `Columns:`, one line per column, then the foreign-key section |
| SchemaCache.ColumnString | schema_cache.py:25-29 | the column line built by appending markers equals the one-column line of the model |
| SchemaCache.PromptLinesShape | schema_cache.py:20-37 | the line count is 2 + columns (+ 1 + foreign keys when there are any); line 0 is `Table: <name>`, line 1 `Columns:`, line 2+i is column i's line; the text starts with `Table: <name>` |
| SchemaCache.PrimaryKeyMarker | schema_cache.py:28-29 | a column line ends in ` PRIMARY KEY` exactly when the column's name is the primary key |
| SchemaCache.NotNullMarker | schema_cache.py:26-27 | before any primary-key marker, a column line ends in ` NOT NULL` exactly when `nullable` is `"NO"` |
| SchemaCache.ForeignKeyHeader | schema_cache.py:32-35 | `Foreign Keys:` is a line exactly when the table has foreign keys |
| SchemaCache.ColumnLinesAppend | schema_cache.py:24-30 | one more column appends exactly that column's line |
| SchemaCache.ForeignKeyLinesAppend | schema_cache.py:34-35 | one more foreign key appends exactly its `  - col -> ref` line |
| SchemaCache.GetStepCases | schema_cache.py:50-69 | a missing key returns None and changes nothing; an entry older than the TTL (strict `>`) is removed from the map, the other entries unchanged, and from the order, and None is returned; otherwise the stored schema is returned, the map is unchanged and the key moves to the end of the order |
| SchemaCache.GetStepOrder | schema_cache.py:59-67 | the other keys keep their relative order: with the key at position `i`, an expiry leaves the order with position `i` cut out, and a fresh hit leaves it cut out and the key appended |
| SchemaCache.GetStepValid | schema_cache.py:50-69 | `get` keeps the invariant: map keys equal the order's elements, no duplicates in the order |
| SchemaCache.EvictLru | schema_cache.py:75-78 | eviction keeps the invariant and leaves exactly the most recent suffix of the order, of length below `max_tables` when that is at least 1 |
| SchemaCache.EvictKeeps | schema_cache.py:75-78 | eviction only removes entries; every kept entry is unchanged |
| SchemaCache.SetStepValid | schema_cache.py:71-83 | after `set` the invariant holds, the key is last in the order and maps to the new schema, every other entry is an unchanged old one, and with `max_tables >= 1` the size is at most `max_tables` |
| SchemaCache.SetThenGet | schema_cache.py:50-83 | a `get` right after `set` returns the schema just stored unless it is already expired at that clock |
| SchemaCache.SetEvictsWhenPresent | schema_cache.py:75-78 | in a full two-entry cache, setting the second key again evicts the first one: the loop evicts even when the key is present |
| SchemaCache.InvalidateStepValid | schema_cache.py:94-100 | `invalidate` keeps the invariant, removes exactly that key, leaves the other entries unchanged and is a no-op for an absent key |
| SchemaCache.GetMultipleSpec | schema_cache.py:85-92 | `get_multiple` keeps the invariant; the result holds exactly the requested keys whose entries are present and fresh, each with the cached schema |
| SchemaCache.Cache.constructor | schema_cache.py:43-48 | a new cache is empty, valid, with TTL `ttl_minutes * 60` seconds and the given maximum |
| SchemaCache.Cache.Get | schema_cache.py:50-69 | the in-place `get` keeps `Valid()` and produces the state and result of the `get` transition |
| SchemaCache.Cache.EvictOldest | schema_cache.py:75-78 | the eviction loop pops the front of the order, deleting it from the map when present, while the map holds at least `max_tables` entries and the order is non-empty |
| SchemaCache.Cache.Set | schema_cache.py:71-83 | the in-place `set`, with its eviction loop popping the front of the order, produces the state of the `set` transition |
| SchemaCache.Cache.GetMultiple | schema_cache.py:85-92 | the loop of `get` calls produces the state and result of the `get_multiple` transition |
| SchemaCache.Cache.Invalidate | schema_cache.py:94-100 | the in-place `invalidate` produces the state of the `invalidate` transition |
| SchemaCache.Cache.Clear | schema_cache.py:102-106 | afterwards map and order are both empty |
| SchemaCache.Cache.GetStats | schema_cache.py:108-115 | the statistics report the number of cached tables (also the order's length), the maximum and the cached table names |
| TableSelector.GetTableDependencies | table_selector.py:451-466 | the dependencies of a listed table are its fixed set, of any other table the empty set |
| TableSelector.DependenciesAcyclic | table_selector.py:452-466 | every dependency is a known table of strictly lower rank, so no table depends on itself, directly or transitively |
| TableSelector.AddToTables | table_selector.py:400-402 | adding a keyword's tables selects them and adds the bonus to exactly their scores |
| TableSelector.KeywordPass | table_selector.py:397-402 | the keyword loop selects exactly the tables of the keywords contained in the lower-cased question, gives each 2 points per such keyword, and leaves unselected tables at 0 |
| TableSelector.RelationshipPass | table_selector.py:404-417 | the relationship pass adds no table and changes no score: a related table whose keyword matches was already selected by the keyword pass |
| TableSelector.FindBridgeSpec | table_selector.py:438-448 | the bridge lookup is symmetric, None for equal tables, defined for exactly the four unordered pairs, and returns one of the four bridge tables |
| TableSelector.AllPairBridges | table_selector.py:419-426 | the `i < j` loop over a duplicate-free list finds exactly the bridges of all unordered pairs of its distinct tables |
| TableSelector.PairBridgesComplete | table_selector.py:421-423 | the bridge of any pair at positions `p < q` is found |
| TableSelector.AddBridgesWith | table_selector.py:422-426 | the inner loop adds the bridges of `t1` with the later tables, each new one with +1 and an already selected one unchanged |
| TableSelector.BridgePass | table_selector.py:419-426 | the bridge pass selects the keyword tables plus the bridges of their pairs, adding 1 point exactly to newly added bridges |
| TableSelector.KeyAtLeastIsTotalPreorder | table_selector.py:428-434 | "key at least" on `(score*10+priority, priority)` pairs, compared lexicographically, is a total preorder, so the descending sort is well defined up to ties |
| TableSelector.ScoreTables | table_selector.py:394-426 | the three passes yield the selection and scores of the selection functions |
| TableSelector.RankTables | table_selector.py:428-436 | the result is duplicate-free, drawn from the selection, of length `min(|selection|, max_tables)` (all of it when it fits), in non-increasing key order, and no left-out table has a greater key than a kept one |
| TableSelector.SelectTablesWith | table_selector.py:382-436 | `select_tables` for any symmetric bridge lookup returns a top selection of the final tables by the final key |
| TableSelector.SelectTables | table_selector.py:382-436 | `select_tables` with the source's dictionaries returns a top selection of the keyword and bridge tables by `(score*10+priority, priority)` |
| TableSelector.NoKeywordNoTables | table_selector.py:397-436 | a question that contains no keyword selects no table |
| TableSelector.KeywordTableSelected | table_selector.py:397-402 | every table of a matching keyword is selected with a score of at least 2 |
| TableSelector.KeywordSetSelected | table_selector.py:397-426 | all tables of a matching keyword, and the bridges of their pairs, are selected |
| TableSelector.BridgeOfSelectedPair | table_selector.py:419-426 | the bridge of two selected keyword tables ends up selected, with score 1 when it was not a keyword table itself |
| TableSelector.RevenueSelectsPaymentAndRental | table_selector.py:167-180 | a question containing `doanh thu` selects both `payment` and `rental` |
| TableSelector.RankingSelectsFilmActor | table_selector.py:332-343 | a question containing `xep hang` selects film, actor, customer and the bridge film_actor |
| TableSelector.DuplicateKeywordsKeepLastValue | table_selector.py:38-343 | `xếp hạng` and `xep hang` are listed twice (lines 38, 51, 332, 343) and, as in a Python dict literal, keep their last value: `{film, actor, customer}`, not `{film}` |
| TableSelector.PriorityBounds | table_selector.py:364-380 | every priority, including the default 0 for unlisted tables, lies in 0..10 |
| TableSelector.BridgePriority | table_selector.py:364-380 | every bridge table has priority 1 to 4 |
| TableSelector.KeywordOutranksBridgeFor | table_selector.py:428-432 | a keyword table's primary key is at least 20 and a bridge-only table's is `10 + priority`, so the keyword table outranks it |
| TableSelector.KeywordOutranksBridge | table_selector.py:428-434 | with the source's maps, keyword tables have primary key at least 20 and bridge-only tables at most 14 |
| TableSelector.KeywordTablesFirst | table_selector.py:428-436 | in any key-sorted list of selected tables, every keyword table precedes every bridge-only table |
| SchemaLoader.LastPrimaryKeyNone | optimized_schema_loader.py:93-102 | the primary key is None exactly when no row has key `PRI` |
| SchemaLoader.LastPrimaryKeyAt | optimized_schema_loader.py:93-102 | the last row with key `PRI` gives the primary key |
| SchemaLoader.LastPrimaryKeyFound | optimized_schema_loader.py:93-102 | a found primary key is the name of a `PRI` row after which no row is `PRI` |
| SchemaLoader.LoadNone | optimized_schema_loader.py:87-90 | a failing column query, no column rows, a failing foreign-key query, or a failing sample query all give None |
| SchemaLoader.LoadedShape | optimized_schema_loader.py:92-134 | a loaded schema has the table's name, one column per row in order (name, type, nullable), the last `PRI` column as primary key, one `table.column` foreign key per row in order, no sample data, and the load clock as timestamp |
| SchemaLoader.Loader.LoadFromDb | optimized_schema_loader.py:73-138 | the loop conversion with its error paths returns the loaded schema of the model |
| SchemaLoader.MissesMembers | optimized_schema_loader.py:57-62 | a name is queued for loading exactly when it was asked for and is not a fresh cache entry |
| SchemaLoader.CachePassHits | optimized_schema_loader.py:57-60 | the cache pass leaves the cache and hits of `get_multiple` over the same names |
| SchemaLoader.CachePassMisses | optimized_schema_loader.py:61-62 | the cache pass queues exactly the misses, in order |
| SchemaLoader.CachePassEntries | optimized_schema_loader.py:57-62 | the cache pass only drops entries; a kept entry is unchanged |
| SchemaLoader.DatabasePassResult | optimized_schema_loader.py:65-69 | after the load loop, a name is in the result exactly when it was a hit or a queued name that loads; a loaded schema replaces the earlier value |
| SchemaLoader.DatabasePassCache | optimized_schema_loader.py:65-69 | the load loop keeps the cache invariant, and every cached entry is an old one or a schema it just loaded |
| SchemaLoader.DatabasePassLast | optimized_schema_loader.py:65-69 | the last loaded schema is in the cache after the loop |
| SchemaLoader.LoadSchemasProperties | optimized_schema_loader.py:47-71 | fresh hits are never reloaded; a name is in the result exactly when requested and fresh or loadable; a hit has the cached schema and a reloaded name its loaded one; every cache entry is old or freshly loaded for a requested miss |
| SchemaLoader.Loader.LookUpAll | optimized_schema_loader.py:57-62 | the hit-and-miss loop over the cache is the cache pass |
| SchemaLoader.Loader.LoadAll | optimized_schema_loader.py:65-69 | the loop that loads and caches misses is the database pass |
| SchemaLoader.Loader.LoadSchemas | optimized_schema_loader.py:47-71 | `_load_schemas` keeps the cache valid and produces the cache state and result of the two passes |
| SchemaLoader.PresentMembers | optimized_schema_loader.py:148-149 | a name is rendered exactly when it is both in the order and in the schemas |
| SchemaLoader.PresentBlocks | optimized_schema_loader.py:148-151 | every rendered table contributes an empty line then its prompt string, in the given order |
| SchemaLoader.FormattedShape | optimized_schema_loader.py:140-155 | the text is `Database Schema:`, a rule of 40 `=`, the blocks, an empty line and the rule again |
| SchemaLoader.RuleIsForty | optimized_schema_loader.py:146 | the rule is 40 `=` characters |
| SchemaLoader.Loader.FormatSchemas | optimized_schema_loader.py:140-155 | the appending loop builds the formatted text |
| SchemaLoader.Loader.GetRelevantSchema | optimized_schema_loader.py:17-45 | the selected tables are a top selection of the selector, replaced by `film, actor, customer` when empty; that list is loaded through the cache and formatted in its order |
| SchemaLoader.Loader.GetMinimalSchema | optimized_schema_loader.py:157-162 | the relevant schema with at most 3 tables and no samples |
| SchemaLoader.Loader.GetFullSchema | optimized_schema_loader.py:164-169 | the relevant schema with at most 7 tables and samples |
| TextBuilder.ListPart | src/embeddings/text_builder.py:32-34 | a list field gives one `prefix + ' '.join(items)` part when truthy and none otherwise |
| TextBuilder.StringValues | src/embeddings/text_builder.py:124-128 | every value kept is a non-empty string of the node, and every non-empty string value is kept |
| TextBuilder.StringValuesFilter | src/embeddings/text_builder.py:124-128 | the kept values are exactly the dict's values in insertion order, filtered by `isinstance(v, str) and v`, none repeated or dropped |
| TextBuilder.StringValuesAppend | src/embeddings/text_builder.py:125-128 | the values of two runs of entries are those of the first, then those of the second |
| TextBuilder.StringValuesSingle | src/embeddings/text_builder.py:127 | one entry contributes its value exactly when it is a non-empty string |
| TextBuilder.PartsNonEmpty | src/embeddings/text_builder.py:102-128 | no part is empty, so no text has an empty segment between separators; the text is empty exactly when there are no parts |
| TextBuilder.NonEmptyWithOptional | src/embeddings/text_builder.py:25-36 | filtering the fixed fields and the appended optional parts is filtering each separately; a non-empty optional part always survives |
| TextBuilder.TableTags | src/embeddings/text_builder.py:19-36 | table parts are the non-empty name, business name, description and grain, then `tags:` only when there are tags |
| TextBuilder.TableTextStartsWithName | src/embeddings/text_builder.py:25-36 | a table with a name has text starting with that name |
| TextBuilder.ColumnFullNameCases | src/embeddings/text_builder.py:45-47 | the full name is `table.column` when the table name is set, else just the column name |
| TextBuilder.ColumnOptionalParts | src/embeddings/text_builder.py:49-63 | column parts are the non-empty full name, business name and description, then `semantics:` and `unit:` each only when set |
| TextBuilder.MetricTextNeverEmpty | src/embeddings/text_builder.py:81-99 | the `expression:` and `base_table:` parts are always present, so metric text is never empty |
| TextBuilder.ConceptText | src/embeddings/text_builder.py:66-78 | a named concept's text is its name, then the separator and the `synonyms:` part only when it has synonyms |
| TextBuilder.FallbackText | src/embeddings/text_builder.py:120-128 | an unknown label gives `" \| ".join` over the node's values in insertion order, filtered to the non-empty strings |
| VectorIndex.IndexName | src/graph/vector_index.py:211 | the index name is the configured prefix, `_`, then the lower-cased label |
| VectorIndex.IndexNameInjective | src/graph/vector_index.py:211 | two labels share an index name exactly when they agree after lower-casing |
| VectorIndex.IndexNamesDistinct | src/graph/vector_index.py:26 | the four indexed labels have four distinct index names |
| VectorIndex.MergedLabel | src/graph/vector_index.py:239-246 | the merged list is, label by label, each label's results in order; a failing label contributes nothing and the others are kept |
| VectorIndex.CollectHits | src/graph/vector_index.py:236-246 | the extend loop over the labels builds the merged list |
| VectorIndex.SearchAllProperties | src/graph/vector_index.py:248-255 | the all-label result has exactly `min(top_k, number of merged hits)` hits, is a sub-multiset of the merged hits, is sorted by descending score, beats every hit it leaves out, and the stable sort keeps label order among equal scores |
| VectorIndex.SearchAllLabels | src/graph/vector_index.py:230-255 | `_search_all_labels` returns the merged, sorted, truncated hits |
| VectorIndex.EffectiveTopK | src/graph/vector_index.py:192 | a given non-zero `top_k` is used, and a missing or zero one falls back to the default |
| VectorIndex.VectorSearch | src/graph/vector_index.py:175-202 | with a label, only that label's index is queried; without one, all labels are merged |
| VectorIndex.EmbeddableSingle | src/graph/vector_index.py:114-117 | a node is kept with its text exactly when the text is not blank after stripping |
| VectorIndex.CollectEmbeddable | src/graph/vector_index.py:107-117 | the loop builds aligned id and text lists equal to the non-blank nodes in order |
| VectorIndex.PrepareEmbeddings | src/graph/vector_index.py:78-133 | no nodes gives 0; otherwise the count is the number of non-blank nodes, and the storage batches partition them in order, all of size `batch_size` except a shorter last one |
| SchemaRetriever.SeedTablesOfMatch | src/graph/schema_retriever.py:154-165 | Table and Column matches add their `table_name`, Metric matches their `base_table`, other labels nothing, and empty names are dropped |
| SchemaRetriever.SeedTablesAppend | src/graph/schema_retriever.py:154-165 | the seed tables of a concatenation are the union of the seed tables of its parts |
| SchemaRetriever.ExtractRelevantTables | src/graph/schema_retriever.py:147-165 | the loop collects exactly the seed tables |
| SchemaRetriever.SeedColumnsExactly | src/graph/schema_retriever.py:174-184 | a pair is a seed column exactly when some Column match has it with both parts non-empty |
| SchemaRetriever.ExtractRelevantColumns | src/graph/schema_retriever.py:167-184 | the loop collects exactly the seed columns, all with non-empty parts |
| SchemaRetriever.AddKeyRowsGet | src/graph/schema_retriever.py:272-276 | after filing the key rows, a key holds its last key row tagged `key`, and other keys are untouched |
| SchemaRetriever.AddVectorRowsGet | src/graph/schema_retriever.py:278-285 | after filing the vector rows, an existing key keeps its stored row with only `source` set to `key+vector`; a new key stores its first vector row, tagged `vector`, or `key+vector` once a second row with that key re-tags it; keys without vector rows are untouched |
| SchemaRetriever.AddKeyRowsWellKeyed | src/graph/schema_retriever.py:272-276 | filing key rows keeps every dict entry keyed by its own row's `(table_name, column_name)` |
| SchemaRetriever.MergedDictGet | src/graph/schema_retriever.py:271-285 | a key is in the merged dict exactly when it occurs in the key or vector rows; its source tag is determined by how often it occurs in each; the stored row is the last key row, or else the first vector row, with only its tag changed |
| SchemaRetriever.SortedValues | src/graph/schema_retriever.py:287-288 | the sorted values are strictly increasing by `(table_name, column_name)` and are exactly the dict's entries |
| SchemaRetriever.MergedColumnsProperties | src/graph/schema_retriever.py:271-288 | the output is unique and ascending by key, holds exactly the keys of the key and vector rows, and tags each with `key`, `vector` or `key+vector` as it occurred |
| SchemaRetriever.VectorRowsCount | src/graph/schema_retriever.py:266-269 | the vector-row filter keeps every occurrence of a relevant key and none other |
| SchemaRetriever.SeedColumnsTagged | src/graph/schema_retriever.py:246-285 | with no relevant columns everything is tagged `key`; every relevant column among the fetched ones appears tagged `vector` or `key+vector` |
| SchemaRetriever.MergeColumns | src/graph/schema_retriever.py:271-288 | the dict-filling loops and the sort produce the merged columns |
| SchemaRetriever.FileKeyRows | src/graph/schema_retriever.py:272-276 | the key-row loop fills the dict as the model's filing function |
| SchemaRetriever.FileVectorRow | src/graph/schema_retriever.py:279-285 | one vector row is filed as new `vector` or re-tags to `key+vector` |
| SchemaRetriever.FilterVectorRows | src/graph/schema_retriever.py:247-269 | the filtered vector rows are the fetched rows of relevant keys in order, none when there are no relevant columns |
| SchemaRetriever.FkJoin | src/graph/schema_retriever.py:316-322 | a foreign key becomes a `left` join between the same tables with the single clause `from.column = to.references_column` and its description |
| SchemaRetriever.FkJoins | src/graph/schema_retriever.py:315-322 | one join per foreign key, in order |
| SchemaRetriever.AddForeignKeyJoins | src/graph/schema_retriever.py:315-322 | the foreign-key joins are appended after the explicit joins, with no deduplication |
| SchemaRetriever.ExpandContext | src/graph/schema_retriever.py:186-343 | no seed tables gives four empty lists; otherwise the graph's tables and metrics, the merged columns and the explicit plus foreign-key joins |
| SchemaRetriever.Retrieve | src/graph/schema_retriever.py:34-145 | the result echoes the question and the all-label vector matches, expands their seed tables and columns as above, and has no sample queries |
| PromptBuilder.FullTableNameCases | src/sql_generator/prompt_builder.py:20-36 | the full name is the truthy catalog and schema, then the table name (`unknown` when missing), joined by `.` |
| PromptBuilder.FullNamesLookup | src/sql_generator/prompt_builder.py:89-92 | the full-name dict has the tables' names in first-seen order, and each maps to the full name of its last table |
| PromptBuilder.FullNamesEmpty | src/sql_generator/prompt_builder.py:175 | the full-name dict is empty exactly when there are no tables |
| PromptBuilder.TableBlockShape | src/sql_generator/prompt_builder.py:94-103 | a table block is its info line, an optional grain line, an optional description line cut to 200 characters, and an empty line |
| PromptBuilder.ColumnGrouping | src/sql_generator/prompt_builder.py:111-116 | columns are grouped by table in first-appearance order, each group holding that table's columns in order |
| PromptBuilder.ColumnLineParts | src/sql_generator/prompt_builder.py:123-134 | the flag suffix is `[PK]`, `[TIME]` or `[PK, TIME]` exactly as the flags are set; the description is absent when empty and cut to 100 characters |
| PromptBuilder.JoinLineDefaults | src/sql_generator/prompt_builder.py:144-160 | a missing join type is `LEFT`, a missing clause empty; a list clause is joined with ` AND `, a string clause kept |
| PromptBuilder.ReferenceEntries | src/sql_generator/prompt_builder.py:175-180 | the reference section lists each table's full name once, in first-seen order, between its heading and trailer |
| PromptBuilder.SchemaSections | src/sql_generator/prompt_builder.py:70-182 | the context starts with `## Available Schema`; each section appears exactly when its list is non-empty |
| PromptBuilder.TablesLoop | src/sql_generator/prompt_builder.py:89-103 | the table loop builds the table blocks and the full-name dict |
| PromptBuilder.GroupsLoop | src/sql_generator/prompt_builder.py:118-137 | the group loop builds a header then the column lines for each group |
| PromptBuilder.BuildSchemaContext | src/sql_generator/prompt_builder.py:70-182 | `build_schema_context` builds the sectioned schema context |
| PromptBuilder.ExampleNumbering | src/sql_generator/prompt_builder.py:200-203 | example i (from 0) takes three lines numbered `i + 1` |
| PromptBuilder.BuildExamplesSection | src/sql_generator/prompt_builder.py:185-205 | no examples gives `""`; otherwise the heading then the numbered examples |
| PromptBuilder.PromptJoin | src/sql_generator/prompt_builder.py:219-234 | joining the schema, optional examples and question block with newlines is their concatenation with one separator each |
| PromptBuilder.UserPromptShape | src/sql_generator/prompt_builder.py:208-234 | the user prompt is the schema context, the examples when there are any, and the question block; it starts with the context and ends with the question then `\n## SQL Query\n` |
| PromptBuilder.BuildUserPrompt | src/sql_generator/prompt_builder.py:208-234 | the appending builder gives the user prompt |
| PromptBuilder.Pad2Digits | src/sql_generator/prompt_builder.py:41 | a two-digit padding of `n < 100` is two characters that read back as `n` |
| PromptBuilder.DateTextLength | src/sql_generator/prompt_builder.py:41 | the `YYYY-MM-DD` text has the year's digits plus six characters |
| PromptBuilder.SystemPromptDate | src/sql_generator/prompt_builder.py:39-67 | the system prompt starts with today's date line and ends with the fixed rules |
| PromptBuilder.BuildMessages | src/sql_generator/prompt_builder.py:237-255 | exactly two messages, system then user |
| PromptBuilder.MessagesCarryQuestion | src/sql_generator/prompt_builder.py:237-255 | the user message starts with the schema context and ends with the question block; the system message starts with the date |
| LlmGenerator.FindFrom | src/sql_generator/llm_generator.py:95-96 | the search returns the first occurrence of the pattern at or after the start, or none when there is none |
| LlmGenerator.SkipSpace | src/sql_generator/llm_generator.py:95 | `\s*` skips a blank stretch up to the first non-space character |
| LlmGenerator.TagLength | src/sql_generator/llm_generator.py:95 | the optional `sql` tag takes 0 or 3 characters |
| LlmGenerator.DropPrefixes | src/sql_generator/llm_generator.py:103-106 | the prefix loop never lengthens the text and keeps it free of edge whitespace |
| LlmGenerator.SqlOfStripped | src/sql_generator/llm_generator.py:85-108 | the extracted SQL never has leading or trailing whitespace, and empty or None content gives `""` |
| LlmGenerator.FirstBlockAt | src/sql_generator/llm_generator.py:95-99 | with the first fence at `p` and the next fence after it at `f`, the block is the text between the tag and whitespace and `f`, whatever the body holds (backtick-quoted identifiers included) |
| LlmGenerator.FencedBlock | src/sql_generator/llm_generator.py:94-99 | a reply with a fenced block yields the stripped body of the first block up to the next fence, after the optional `sql` tag, for any body (single backticks included) |
| LlmGenerator.DropNone | src/sql_generator/llm_generator.py:104-106 | text that starts with none of the prefixes (case-insensitively) is left unchanged |
| LlmGenerator.DropFirst | src/sql_generator/llm_generator.py:104-106 | a matching first prefix is removed once and the rest stripped |
| LlmGenerator.PlainReply | src/sql_generator/llm_generator.py:101-108 | a reply without fence or prefix yields the stripped reply |
| LlmGenerator.LabelledReply | src/sql_generator/llm_generator.py:104-106 | a reply starting `SQL:` in any case yields the stripped rest |
| LlmGenerator.ExtractSql | src/sql_generator/llm_generator.py:85-108 | `_extract_sql` yields the extraction of the model |
| LlmGenerator.DropOnePrefix | src/sql_generator/llm_generator.py:105-106 | one turn of the prefix loop: a prefix matching the start, ignoring case, is cut off and the rest stripped; otherwise the text is unchanged |
| LlmGenerator.DropPrefixLoop | src/sql_generator/llm_generator.py:103-106 | the prefix loop removes each prefix, in order, at most once, case-insensitively, stripping after each removal |
| LlmGenerator.AttemptMessagesShape | src/sql_generator/llm_generator.py:131-137 | with feedback, attempt k sends the original messages plus k retry messages; without it, the original messages |
| LlmGenerator.Attempts | src/sql_generator/llm_generator.py:129-145 | no attempt is made exactly when the attempt count is 0 |
| LlmGenerator.AttemptsChar | src/sql_generator/llm_generator.py:127-145 | SQL is returned exactly when some attempt succeeds, and it is the first success's; an error raised is the last attempt's |
| LlmGenerator.AttemptsDone | src/sql_generator/llm_generator.py:139 | once an attempt succeeds, more allowed attempts change nothing |
| LlmGenerator.GenerateWithRetry | src/sql_generator/llm_generator.py:110-145 | the loop makes at most `max_retries + 1` attempts and returns the first success or raises the last error |
| LlmGenerator.GenerateSql | src/sql_generator/llm_generator.py:34-83 | retrying `generate` on a chat completion gives the attempt outcome, and any SQL has no edge whitespace |
| GraphBuilder.ConceptFirstWins | build_neo4j_graph.py:148-151 | among table concepts, the first with a given name is kept and later ones do not overwrite it |
| GraphBuilder.SemanticsAreConcepts | build_neo4j_graph.py:154-159 | every column semantic becomes a concept key; one without an explicit concept gets empty synonyms |
| GraphBuilder.ConceptsNamed | build_neo4j_graph.py:148-159 | the concepts dict has no duplicate keys and maps every name to a concept of that name |
| GraphBuilder.AddNewGet | build_neo4j_graph.py:148-159 | "add if absent": an existing key keeps its value, a new key gets the value of its first occurrence |
| GraphBuilder.AddNewKeys | build_neo4j_graph.py:148-159 | the keys afterwards are the old keys and the keys of the added items |
| GraphBuilder.AddNewNoDuplicates | build_neo4j_graph.py:148-159 | "add if absent" keeps the keys duplicate-free |
| GraphBuilder.AddNewAppend | build_neo4j_graph.py:148-159 | adding two lists one after the other is adding their concatenation |
| GraphBuilder.AddNewLoop | build_neo4j_graph.py:148-151 | the "if not in, insert" loop computes "add if absent" |
| GraphBuilder.AddTableConcepts | build_neo4j_graph.py:148-151 | the nested concept loop adds the tables' concepts, first wins |
| GraphBuilder.AddTableSemantics | build_neo4j_graph.py:155-159 | the column and semantic loops of one table add its semantics as concepts when absent |
| GraphBuilder.AddSemanticConcepts | build_neo4j_graph.py:154-159 | the semantic loops add every table's semantics as concepts when absent |
| GraphBuilder.ExtractConcepts | build_neo4j_graph.py:147-159 | `load`'s two concept loops compute the concepts of the tables |
| GraphBuilder.JoinDefaults | build_neo4j_graph.py:260-267 | a missing join type is `inner`; a missing, None or empty `on` is `[]` and never None |
| GraphBuilder.LoadDomain | build_neo4j_graph.py:132-175 | the domain's metadata holds the tables, the joins with defaults, the metrics and the extracted concepts |
| GraphBuilder.Batches | build_neo4j_graph.py:471-473 | the batches partition the rows in order, all of 100 rows except a shorter last one, `ceil(n / 100)` of them and none for no rows |
| GraphBuilder.BatchCount | build_neo4j_graph.py:471-473 | any such partition has `ceil(n / 100)` batches |
| GraphBuilder.CreateTableRows | build_neo4j_graph.py:437-475 | one table row per table, in order, in batches |
| GraphBuilder.CreateConceptRows | build_neo4j_graph.py:528-548 | one concept row per concept, in order, in batches |
| GraphBuilder.ConceptRowsDistinct | build_neo4j_graph.py:540-542 | the concept rows carry the concept names, once each |
| GraphBuilder.CreateMetricNodeRows | build_neo4j_graph.py:567-584 | one metric row per metric, in order, in batches; a missing unit becomes `""` |
| GraphBuilder.CreateJoinRows | build_neo4j_graph.py:602-616 | the join rows are the joins, in order, in batches |
| GraphBuilder.ColumnRowsMembers | build_neo4j_graph.py:481-498 | a column row exists exactly for each column of each table; its primary-key and time flags hold exactly when the column is listed, a missing business name or unit is `""`, and the domain is the table's |
| GraphBuilder.AppendColumnRows | build_neo4j_graph.py:481-498 | the loop over one table's columns appends its column rows |
| GraphBuilder.CreateColumnRows | build_neo4j_graph.py:477-526 | all column rows, table by table, in batches |
| GraphBuilder.AfterLastDot | build_neo4j_graph.py:628-629 | `split(".")[-1]` has no dot, ends the string, is preceded by a dot when shorter, and is the whole string when there is no dot |
| GraphBuilder.RefTableLastSegment | build_neo4j_graph.py:626-629 | the referenced table is reduced to its last dotted segment |
| GraphBuilder.FkRowsOrder | build_neo4j_graph.py:623-639 | foreign key k of table i is at position k after the earlier tables' rows: one row per foreign key, in table order |
| GraphBuilder.FkRowsMembers | build_neo4j_graph.py:623-639 | a foreign-key row exists exactly for each foreign key of each table, and its target table has no dot |
| GraphBuilder.AppendFkRows | build_neo4j_graph.py:624-639 | the loop over one table's foreign keys appends its rows |
| GraphBuilder.CreateFkRows | build_neo4j_graph.py:619-657 | all foreign-key rows, in batches |
| GraphBuilder.ConceptLinksMembers | build_neo4j_graph.py:665-671 | a HAS_CONCEPT row exists exactly for each concept of each table and names a known concept |
| GraphBuilder.AppendConceptLinks | build_neo4j_graph.py:666-671 | the loop over one table's concepts appends its rows |
| GraphBuilder.CreateConceptLinkRows | build_neo4j_graph.py:661-688 | all HAS_CONCEPT rows, in batches |
| GraphBuilder.KeptSemanticsMember | build_neo4j_graph.py:699-705 | a column's kept semantic rows are exactly its semantics that are concept names |
| GraphBuilder.SemanticRowsMembers | build_neo4j_graph.py:695-705 | a HAS_SEMANTIC row exists exactly for a column semantic that is a concept name |
| GraphBuilder.SemanticFilterKeepsAll | build_neo4j_graph.py:695-705 | with the concepts `load` extracted, the filter keeps every column semantic, in order |
| GraphBuilder.AppendColumnSemantics | build_neo4j_graph.py:699-705 | the loop over one column's semantics appends its kept rows |
| GraphBuilder.AppendTableSemanticRows | build_neo4j_graph.py:698-705 | the loop over one table's columns appends their kept rows |
| GraphBuilder.CreateSemanticRows | build_neo4j_graph.py:690-721 | all HAS_SEMANTIC rows, in batches |
| GraphBuilder.TableNames | build_neo4j_graph.py:728 | the name set holds exactly the tables' names |
| GraphBuilder.FirstDomainFound | build_neo4j_graph.py:733-736 | when a table has the name, the domain is that of the first such table |
| GraphBuilder.FirstDomainMissing | build_neo4j_graph.py:733-736 | when no table has the name, the domain is the default |
| GraphBuilder.MetricRowsMembers | build_neo4j_graph.py:728-741 | a metric row exists exactly for each metric whose base table is loaded, and its domain is that of the first table with that name |
| GraphBuilder.CreateMetricRows | build_neo4j_graph.py:723-756 | all metric rows, in batches |

## Left out

- Concurrency: the cache's `RLock` and the singletons. Every operation is one atomic step.
- The clock: `datetime.now()` is the `now` parameter in seconds, and `loaded_at` is that number. The system prompt's date is a `Date` parameter.
- I/O: logging, file reading and the YAML parsing in `_load_tables`, `_parse_table_file` and `_load_metrics`. `LoadDomain` takes the parsed tables, join entries and metrics.
- The command-line `main` and the Streamlit app are not part of this model.
- Neo4j queries and writes: `vector_search`'s per-label query, the retriever's Cypher queries, and the graph builder's `session.run` writes, `_clear_domain` and `_create_constraints`.
  - Each query is a function parameter that returns its rows.
  - The `WHERE ... IN $table_names` filtering of those queries is part of the given rows.
  - Each write is modelled by the batched rows it would send.
- `create_vector_index`, `create_all_indexes`, `drop_vector_index` and `index_all_nodes` are Cypher administration, apart from the index name they build.
- Embeddings: `embed_texts` and the vectors are opaque. `PrepareEmbeddings` returns the texts' batches in place of storing vectors. The score of a hit is a `real` that is only compared.
- `results_by_label` in `_search_all_labels` is only logged, so it is not modelled.
- The chat-completion call is a parameter, `Completion`, that returns the reply content or an error.
- `LlmGenerator.GenerateWithRetry`: Python's `raise None` after zero attempts (a negative `max_retries`) is the outcome `NoAttempt`.
- The database of `_load_from_db` is three query functions. Each returns rows or an error, and the error stands for the exception caught at line 136.
- `SchemaLoader.Loader.LoadFromDb`: the rows of the sample query are not converted, as in the source, so `sample_data` is always empty.
- `SchemaLoader.Loader.GetRelevantSchema`: the fallback to `film, actor, customer` is stated. The selected list is a ghost out-parameter, because the method returns only the text.
- `SchemaCache.Cache.GetStats`: the table names are a set (`entries.Keys`), not the list in the dict's insertion order.
- Strings:
  - `lower()`, `strip()` and `\s` are ASCII-only: Unicode case mapping and Unicode whitespace are not modelled.
  - Vietnamese keywords match only by exact substring, as in the source once the question is lower-cased.
- Dynamic values: a record field is a `Value`: a string, a list of strings, a boolean or `Null`. `Get` gives `Null` for a missing key, as `dict.get` gives `None`.
  - `Format` is a concrete `str()`: a string as it is, a list as `['a', 'b']`, a boolean as `True` or `False`, `Null` as `None`.
  - `Format` does not model Python's repr escaping: list items are always wrapped in plain single quotes. Python writes `str(["b'c"])` as `["b'c"]`, the model as `['b'c']`.
  - `Text` reads a field as a string and gives `""` for any other value. A truthy non-string field is therefore dropped from the text builder's parts and from the prompt's description lines.
  - In that case Python raises `TypeError` in `" | ".join(...)` (src/embeddings/text_builder.py:36 and the other builders), or renders the sliced list in a description line. Those paths are not modelled.
  - A `table_name` present as `None` makes `".".join(parts)` raise `TypeError` (src/sql_generator/prompt_builder.py:34-35). `PromptBuilder.FullTableName` reads it through `Text` as `""` instead, giving for example `cat.sch.`. That path is not modelled.
  - `KeyError` is not modelled. A subscript read of a missing key reads `Null` through `Get` instead: `Format` renders it as `None`, and `Text` (and `Field`) as `""`.
  - Those subscript reads are `col['column_name']` (src/sql_generator/prompt_builder.py:123), `metric['name']` (src/sql_generator/prompt_builder.py:169) and the column and foreign-key keys of src/graph/schema_retriever.py:268-320.
- `TableSelector.SelectTables`: `sorted` over a set orders tied keys by set iteration order, which is not defined. The result is therefore stated up to ties: sorted by key, and no left-out table outranks a kept one.
- The `lru_cache` on `get_table_dependencies` only memoises, so it is not modelled.
- The `expand_depth` parameter of `retrieve` is unused by the source and left out.
- `get_full_schema` in the retriever is not part of this model; it is another set of Cypher reads.
- `_get_sample_queries` always returns an empty list, so the model's `SampleQueries` is that empty list.
- The confidence average of the engine is float arithmetic and not part of this model.
