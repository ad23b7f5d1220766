/** `NodeTextBuilder`: the text embedded for each kind of graph node. Every
    builder lists its parts, drops the empty ones and joins the rest with
    " | ". */
module TextBuilder {
  import opened Common
  import opened Records

  const Separator: string := " | "

  /** `node.get(k, "")` read as text. */
  function Field(node: Node, k: string): string
  {
    Text(GetOr(node, k, Str("")))
  }

  /** The optional `"<prefix><words>"` part for a list-valued property,
      present only when the property is truthy. */
  function ListPart(node: Node, k: string, prefix: string): (r: seq<string>)
    ensures Truthy(GetOr(node, k, List([]))) ==> r == [prefix + Join(" ", Words(GetOr(node, k, List([]))))]
    ensures !Truthy(GetOr(node, k, List([]))) ==> r == []
  {
    var v := GetOr(node, k, List([]));
    if Truthy(v) then [prefix + Join(" ", Words(v))] else []
  }

  // ---------------------------------------------------------------------------
  // The parts of each kind of node
  // ---------------------------------------------------------------------------

  /** name, business name, description, grain, then `tags: ...`. */
  function TableParts(node: Node): seq<string>
  {
    NonEmpty([Field(node, "table_name"), Field(node, "business_name"), Field(node, "description"), Field(node, "grain")]
             + ListPart(node, "tags", "tags: "))
  }

  /** `table.column`, or just the column when the table name is falsy. */
  function ColumnFullName(node: Node): string
  {
    var table := GetOr(node, "table_name", Str(""));
    var column := GetOr(node, "column_name", Str(""));
    if Truthy(table) then Format(table) + "." + Format(column) else Text(column)
  }

  /** full name, business name, description, `semantics: ...`, `unit: ...`. */
  function ColumnParts(node: Node): seq<string>
  {
    var unit := GetOr(node, "unit", Str(""));
    NonEmpty([ColumnFullName(node), Field(node, "business_name"), Field(node, "description")]
             + ListPart(node, "semantics", "semantics: ")
             + (if Truthy(unit) then ["unit: " + Format(unit)] else []))
  }

  /** name, then `synonyms: ...`. */
  function ConceptParts(node: Node): seq<string>
  {
    NonEmpty([Field(node, "name")] + ListPart(node, "synonyms", "synonyms: "))
  }

  function ExpressionPart(node: Node): string
  {
    "expression: " + Format(GetOr(node, "expression", Str("")))
  }

  function BaseTablePart(node: Node): string
  {
    "base_table: " + Format(GetOr(node, "base_table", Str("")))
  }

  /** name, business name, description, expression, base table, tags. */
  function MetricParts(node: Node): seq<string>
  {
    NonEmpty([Field(node, "name"), Field(node, "business_name"), Field(node, "description"),
              ExpressionPart(node), BaseTablePart(node)]
             + ListPart(node, "tags", "tags: "))
  }

  /** The non-empty string values of the node, in insertion order. */
  function StringValues(node: Assoc<string, Value>): (r: seq<string>)
    ensures forall i :: 0 <= i < |r| ==> r[i] != ""
    ensures forall i :: 0 <= i < |node| && node[i].1.Str? && node[i].1.s != "" ==> node[i].1.s in r
    ensures forall x :: x in r ==> exists i :: 0 <= i < |node| && node[i].1 == Str(x)
  {
    if node == [] then []
    else
      var rest := StringValues(node[1..]);
      assert forall i :: 1 <= i < |node| ==> node[i] == node[1..][i - 1];
      if node[0].1.Str? && node[0].1.s != "" then [node[0].1.s] + rest else rest
  }

  /** `isinstance(v, str) and v`. */
  predicate IsNonEmptyStr(v: Value)
  {
    v.Str? && v.s != ""
  }

  /** The string values are `[v for v in node.values() if isinstance(v, str)
      and v]`: the dict's values in insertion order, filtered, none
      repeated or dropped. */
  lemma {:induction false} StringValuesFilter(node: Assoc<string, Value>)
    ensures StringValues(node) == MapSeq(Filter(AssocValues(node), IsNonEmptyStr), Text)
  {
    if node != [] {
      StringValuesFilter(node[1..]);
      var vs := AssocValues(node);
      assert vs[1..] == AssocValues(node[1..]);
      var head := if IsNonEmptyStr(vs[0]) then [vs[0]] else [];
      assert Filter(vs, IsNonEmptyStr) == head + Filter(vs[1..], IsNonEmptyStr);
      MapSeqAppend(head, Filter(vs[1..], IsNonEmptyStr), Text);
    }
  }

  /** The values of a concatenation are those of the first part, then those
      of the second. */
  lemma {:induction false} StringValuesAppend(a: Assoc<string, Value>, b: Assoc<string, Value>)
    ensures StringValues(a + b) == StringValues(a) + StringValues(b)
  {
    if a == [] {
      assert a + b == b;
    } else {
      assert (a + b)[1..] == a[1..] + b;
      StringValuesAppend(a[1..], b);
    }
  }

  /** One entry contributes its value exactly when it is a non-empty string. */
  lemma StringValuesSingle(k: string, v: Value)
    ensures StringValues([(k, v)]) == if IsNonEmptyStr(v) then [v.s] else []
  {
    assert [(k, v)][1..] == [];
  }

  /** The parts for a node kind; an unknown kind joins its string values. */
  function Parts(node: Node, kind: string): seq<string>
  {
    if kind == "Table" then TableParts(node)
    else if kind == "Column" then ColumnParts(node)
    else if kind == "Concept" then ConceptParts(node)
    else if kind == "Metric" then MetricParts(node)
    else StringValues(node)
  }

  /** `build_text(node, kind)`. */
  function BuildText(node: Node, kind: string): string
  {
    Join(Separator, Parts(node, kind))
  }

  // ---------------------------------------------------------------------------
  // Properties
  // ---------------------------------------------------------------------------

  /** No part is empty, so the text never has an empty segment between two
      separators, and it is empty exactly when there are no parts. */
  lemma PartsNonEmpty(node: Node, kind: string)
    ensures forall i :: 0 <= i < |Parts(node, kind)| ==> Parts(node, kind)[i] != ""
    ensures BuildText(node, kind) == "" <==> Parts(node, kind) == []
  {
    JoinEmpty(Separator, Parts(node, kind));
  }

  /** `filter(None, ...)` on a list with a trailing optional part: the kept
      leading fields, then the optional part when it is non-empty. */
  lemma NonEmptyWithOptional(fields: seq<string>, optional: seq<string>)
    ensures NonEmpty(fields + optional) == NonEmpty(fields) + NonEmpty(optional)
    ensures forall x :: x in optional && x != "" ==> x in NonEmpty(fields + optional)
  {
    NonEmptyAppend(fields, optional);
  }

  /** The table parts are the non-empty leading fields, then the `tags:`
      part exactly when the tags are truthy. */
  lemma TableTags(node: Node)
    ensures var fields := [Field(node, "table_name"), Field(node, "business_name"), Field(node, "description"), Field(node, "grain")];
            var tags := GetOr(node, "tags", List([]));
            Parts(node, "Table") == NonEmpty(fields) + (if Truthy(tags) then ["tags: " + Join(" ", Words(tags))] else [])
  {
    var fields := [Field(node, "table_name"), Field(node, "business_name"), Field(node, "description"), Field(node, "grain")];
    var optional := ListPart(node, "tags", "tags: ");
    NonEmptyAppend(fields, optional);
    assert NonEmpty(optional) == optional;
  }

  /** The first part of a table's text is its name when that is non-empty. */
  lemma TableTextStartsWithName(node: Node)
    requires Field(node, "table_name") != ""
    ensures StartsWith(BuildText(node, "Table"), Field(node, "table_name"))
  {
    var fields := [Field(node, "table_name"), Field(node, "business_name"), Field(node, "description"), Field(node, "grain")];
    NonEmptyAppend(fields, ListPart(node, "tags", "tags: "));
    assert Parts(node, "Table")[0] == Field(node, "table_name");
    JoinFirst(Separator, Parts(node, "Table"));
  }

  /** The column's full name is `table.column` when the table name is a
      non-empty string, and the column name alone when it is falsy. */
  lemma ColumnFullNameCases(node: Node)
    ensures Field(node, "table_name") != "" ==>
              ColumnFullName(node) == Field(node, "table_name") + "." + Format(GetOr(node, "column_name", Str("")))
    ensures !Truthy(GetOr(node, "table_name", Str(""))) ==> ColumnFullName(node) == Field(node, "column_name")
  {
  }

  /** The column parts are the non-empty leading fields, then the
      `semantics:` part when the semantics are truthy, then the `unit:` part
      when the unit is truthy. */
  lemma ColumnOptionalParts(node: Node)
    ensures var fields := [ColumnFullName(node), Field(node, "business_name"), Field(node, "description")];
            var sem := GetOr(node, "semantics", List([]));
            var unit := GetOr(node, "unit", Str(""));
            Parts(node, "Column") == NonEmpty(fields)
                                     + (if Truthy(sem) then ["semantics: " + Join(" ", Words(sem))] else [])
                                     + (if Truthy(unit) then ["unit: " + Format(unit)] else [])
  {
    var unit := GetOr(node, "unit", Str(""));
    var fields := [ColumnFullName(node), Field(node, "business_name"), Field(node, "description")];
    var sem := ListPart(node, "semantics", "semantics: ");
    var un := if Truthy(unit) then ["unit: " + Format(unit)] else [];
    TwoOptionalParts(fields, sem, un);
  }

  /** Two optional parts, each at most one non-empty string, are kept as
      they are after the filtered leading fields. */
  lemma TwoOptionalParts(fields: seq<string>, a: seq<string>, b: seq<string>)
    requires |a| <= 1 && |b| <= 1
    requires forall i :: 0 <= i < |a| ==> a[i] != ""
    requires forall i :: 0 <= i < |b| ==> b[i] != ""
    ensures NonEmpty(fields + a + b) == NonEmpty(fields) + a + b
  {
    OptionalKept(a);
    OptionalKept(b);
    calc {
      NonEmpty(fields + a + b);
      { assert fields + a + b == fields + (a + b); }
      NonEmpty(fields + (a + b));
      { NonEmptyAppend(fields, a + b); }
      NonEmpty(fields) + NonEmpty(a + b);
      { NonEmptyAppend(a, b); }
      NonEmpty(fields) + (a + b);
    }
  }

  /** An optional part of at most one non-empty string is kept. */
  lemma OptionalKept(a: seq<string>)
    requires |a| <= 1
    requires forall i :: 0 <= i < |a| ==> a[i] != ""
    ensures NonEmpty(a) == a
  {
    if a != [] {
      assert a[1..] == [];
    }
  }

  /** A metric's text always has its `expression:` and `base_table:` parts,
      so it is never empty. */
  lemma MetricTextNeverEmpty(node: Node)
    ensures ExpressionPart(node) in Parts(node, "Metric")
    ensures BaseTablePart(node) in Parts(node, "Metric")
    ensures BuildText(node, "Metric") != ""
  {
    var xs := [Field(node, "name"), Field(node, "business_name"), Field(node, "description"),
               ExpressionPart(node), BaseTablePart(node)] + ListPart(node, "tags", "tags: ");
    assert Parts(node, "Metric") == NonEmpty(xs);
    assert xs[3] == ExpressionPart(node) != "" && xs[4] == BaseTablePart(node) != "";
    PartsNonEmpty(node, "Metric");
  }

  /** A concept's text is its name, then its synonyms when there are any. */
  lemma ConceptText(node: Node)
    requires Field(node, "name") != ""
    ensures !Truthy(GetOr(node, "synonyms", List([]))) ==> BuildText(node, "Concept") == Field(node, "name")
    ensures Truthy(GetOr(node, "synonyms", List([]))) ==>
              BuildText(node, "Concept") == Field(node, "name") + Separator + "synonyms: " + Join(" ", Words(GetOr(node, "synonyms", List([]))))
  {
    var syn := ListPart(node, "synonyms", "synonyms: ");
    NameThenPart(Field(node, "name"), syn, Separator);
    assert Parts(node, "Concept") == NonEmpty([Field(node, "name")] + syn);
  }

  /** A non-empty name followed by at most one non-empty part. */
  lemma NameThenPart(name: string, part: seq<string>, sep: string)
    requires name != "" && |part| <= 1
    requires forall i :: 0 <= i < |part| ==> part[i] != ""
    ensures part == [] ==> Join(sep, NonEmpty([name] + part)) == name
    ensures part != [] ==> Join(sep, NonEmpty([name] + part)) == name + sep + part[0]
  {
    NonEmptyAppend([name], part);
    assert NonEmpty([name]) == [name];
    assert NonEmpty(part) == part;
    if part != [] {
      assert [name] + part == [name, part[0]];
      JoinAppend(sep, [name], part[0]);
    }
  }

  /** An unknown kind joins the node's non-empty string values in
      insertion order; non-string values are skipped. */
  lemma FallbackText(node: Node, kind: string)
    requires kind !in {"Table", "Column", "Concept", "Metric"}
    ensures BuildText(node, kind) == Join(Separator, StringValues(node))
    ensures BuildText(node, kind) == Join(Separator, MapSeq(Filter(AssocValues(node), IsNonEmptyStr), Text))
  {
    StringValuesFilter(node);
  }
}
