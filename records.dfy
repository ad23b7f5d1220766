/** Python dictionaries with dynamic values, as the graph, the vector index
    and the prompt builder pass them around: an insertion-ordered list of
    keys with values that are strings, lists of strings, booleans or null. */
module Records {
  import opened Common

  datatype Value = Str(s: string) | List(items: seq<string>) | Bool(b: bool) | Null

  /** A dictionary: its entries in insertion order, no key twice. */
  type Node = d: Assoc<string, Value> | NoDuplicates(AssocKeys(d))

  /** `d[k] = v`: an existing key keeps its place, a new key goes last. */
  function Put(d: Node, k: string, v: Value): (r: Node)
    ensures k in AssocKeys(d) ==> AssocKeys(r) == AssocKeys(d)
    ensures k !in AssocKeys(d) ==> AssocKeys(r) == AssocKeys(d) + [k]
    ensures AssocGet(r, k) == Some(v)
    ensures forall k' :: k' != k ==> AssocGet(r, k') == AssocGet(d, k')
  {
    AssocPutNoDuplicates(d, k, v);
    AssocPut(d, k, v)
  }

  /** Python truthiness. */
  predicate Truthy(v: Value)
  {
    match v
    case Str(s) => s != ""
    case List(items) => items != []
    case Bool(b) => b
    case Null => false
  }

  /** `d.get(k, default)`: the default only when the key is missing. */
  function GetOr(d: Node, k: string, default: Value): (r: Value)
    ensures k !in AssocKeys(d) ==> r == default
    ensures k in AssocKeys(d) ==> Some(r) == AssocGet(d, k)
  {
    match AssocGet(d, k)
    case Some(v) => v
    case None => default
  }

  /** `d.get(k)`: null when the key is missing. */
  function Get(d: Node, k: string): Value
  {
    GetOr(d, k, Null)
  }

  /** A value used where a string is expected: the string itself, or the
      empty string for a value that is not one. */
  function Text(v: Value): (r: string)
    ensures v.Str? ==> r == v.s
    ensures !v.Str? ==> r == ""
  {
    if v.Str? then v.s else ""
  }

  /** `str(v)`, as an f-string renders a value. */
  function Format(v: Value): string
  {
    match v
    case Str(s) => s
    case List(items) => "[" + Join(", ", QuoteAll(items)) + "]"
    case Bool(b) => if b then "True" else "False"
    case Null => "None"
  }

  function QuoteAll(items: seq<string>): (r: seq<string>)
    ensures |r| == |items|
    ensures forall i :: 0 <= i < |items| ==> r[i] == "'" + items[i] + "'"
  {
    if items == [] then [] else ["'" + items[0] + "'"] + QuoteAll(items[1..])
  }

  /** The strings a `' '.join(v)` iterates over: the items of a list, the
      characters of a string. */
  function Words(v: Value): seq<string>
  {
    match v
    case List(items) => items
    case Str(s) => Chars(s)
    case _ => []
  }

  function Chars(s: string): (r: seq<string>)
    ensures |r| == |s|
    ensures forall i :: 0 <= i < |s| ==> r[i] == [s[i]]
  {
    if s == [] then [] else [[s[0]]] + Chars(s[1..])
  }
}
