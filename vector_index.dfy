/** `Neo4jVectorIndex`: naming of the per-label vector indexes, the search
    over one label or over all indexed labels, and the preparation of node
    texts for embedding. The database query is a parameter `store` that maps
    an index name and a result count to the hits or to an error; the query
    embedding is fixed for one search and is not modelled. */
module VectorIndex {
  import opened Common
  import opened Records
  import opened TextBuilder

  /** One row of a vector query: node id, first label, properties, score. */
  datatype SearchHit = SearchHit(nodeId: string, kind: string, props: Node, score: real)

  /** The vector query against a named index, asked for `topK` hits. */
  type Store = (string, int) -> Result<seq<SearchHit>, string>

  const IndexedLabels: seq<string> := ["Table", "Column", "Concept", "Metric"]

  /** The index of a label: the configured prefix, `_`, the lower-cased label. */
  function IndexName(prefix: string, kind: string): (r: string)
    ensures |r| == |prefix| + 1 + |kind|
    ensures StartsWith(r, prefix + "_")
  {
    prefix + "_" + Lower(kind)
  }

  /** Two labels share an index exactly when they agree up to case. */
  lemma IndexNameInjective(prefix: string, a: string, b: string)
    ensures IndexName(prefix, a) == IndexName(prefix, b) <==> Lower(a) == Lower(b)
  {
    if IndexName(prefix, a) == IndexName(prefix, b) {
      assert Lower(a) == IndexName(prefix, a)[|prefix| + 1..];
      assert Lower(b) == IndexName(prefix, b)[|prefix| + 1..];
    }
  }

  /** The four indexed labels have four different indexes. */
  lemma IndexNamesDistinct(prefix: string)
    ensures forall i, j :: 0 <= i < j < |IndexedLabels| ==>
              IndexName(prefix, IndexedLabels[i]) != IndexName(prefix, IndexedLabels[j])
  {
    var ls := IndexedLabels;
    assert ls[0][2] == 'b' && ls[1][2] == 'l' && ls[2][2] == 'n' && ls[3][2] == 't';
    DistinctAt(prefix, ls, 2);
  }

  /** Labels whose lower-cased characters at `k` are pairwise different
      have pairwise different indexes. */
  lemma DistinctAt(prefix: string, ls: seq<string>, k: nat)
    requires forall i :: 0 <= i < |ls| ==> k < |ls[i]|
    requires forall i, j :: 0 <= i < j < |ls| ==> LowerChar(ls[i][k]) != LowerChar(ls[j][k])
    ensures forall i, j :: 0 <= i < j < |ls| ==> IndexName(prefix, ls[i]) != IndexName(prefix, ls[j])
  {
    forall i, j | 0 <= i < j < |ls| ensures IndexName(prefix, ls[i]) != IndexName(prefix, ls[j]) {
      IndexNameInjective(prefix, ls[i], ls[j]);
      LowerDiffers(ls[i], ls[j], k);
    }
  }

  /** Strings whose lower-cased characters differ at `k` differ in lower case. */
  lemma LowerDiffers(a: string, b: string, k: nat)
    requires k < |a| && k < |b| && LowerChar(a[k]) != LowerChar(b[k])
    ensures Lower(a) != Lower(b)
  {
    assert Lower(a)[k] != Lower(b)[k];
  }

  // ---------------------------------------------------------------------------
  // Search
  // ---------------------------------------------------------------------------

  /** `_search_single_label`: the query against the label's own index; an
      error of the query is the caller's. */
  function SearchSingleLabel(store: Store, prefix: string, kind: string, topK: int): Result<seq<SearchHit>, string>
  {
    store(IndexName(prefix, kind), topK)
  }

  /** The hits a label contributes to the merged search: its results, or
      none when its query fails. */
  function Contribution(store: Store, prefix: string, kind: string, topK: int): seq<SearchHit>
  {
    match SearchSingleLabel(store, prefix, kind, topK)
    case Ok(hits) => hits
    case Err(_) => []
  }

  /** The per-label results of `kinds`, concatenated in label order. */
  function Merged(store: Store, prefix: string, kinds: seq<string>, topK: int): seq<SearchHit>
  {
    if kinds == [] then []
    else Merged(store, prefix, kinds[..|kinds| - 1], topK) + Contribution(store, prefix, kinds[|kinds| - 1], topK)
  }

  lemma {:induction false} MergedAppend(store: Store, prefix: string, a: seq<string>, b: seq<string>, topK: int)
    ensures Merged(store, prefix, a + b, topK) == Merged(store, prefix, a, topK) + Merged(store, prefix, b, topK)
    decreases |b|
  {
    if b == [] {
      assert a + b == a;
    } else {
      var b' := b[..|b| - 1];
      assert (a + b)[..|a + b| - 1] == a + b';
      MergedAppend(store, prefix, a, b', topK);
    }
  }

  /** Each label adds its own contribution, in label order, between the
      hits of the labels before it and those of the labels after it. */
  lemma MergedLabel(store: Store, prefix: string, kinds: seq<string>, j: int, topK: int)
    requires 0 <= j < |kinds|
    ensures Merged(store, prefix, kinds, topK)
            == Merged(store, prefix, kinds[..j], topK) + Contribution(store, prefix, kinds[j], topK) + Merged(store, prefix, kinds[j + 1..], topK)
  {
    var a, b := kinds[..j + 1], kinds[j + 1..];
    assert kinds == a + b;
    MergedAppend(store, prefix, a, b, topK);
    assert a[..|a| - 1] == kinds[..j];
  }

  function HitScore(h: SearchHit): real
  {
    h.score
  }

  /** `reverse=True`: a higher score may stand before a lower one. */
  predicate ScoreDescending(a: real, b: real)
  {
    a >= b
  }

  lemma ScoreDescendingIsTotalPreorder()
    ensures IsTotalPreorder(ScoreDescending)
  {
  }

  /** What `_search_all_labels` returns: the merged hits, stably sorted by
      score from high to low, cut to `topK`. */
  function SearchAll(store: Store, prefix: string, topK: int): seq<SearchHit>
  {
    PyPrefix(SortBy(Merged(store, prefix, IndexedLabels, topK), HitScore, ScoreDescending), topK)
  }

  /** The merged search returns `topK` hits, or all of them when there are
      fewer, drawn from the per-label results and sorted by descending
      score; every hit left out scores no higher than every hit returned;
      and hits of equal score keep the order in which the labels produced
      them. */
  lemma SearchAllProperties(store: Store, prefix: string, topK: int)
    ensures var r := SearchAll(store, prefix, topK);
            topK >= 0 ==> |r| <= topK
    ensures var r := SearchAll(store, prefix, topK);
            var n := |Merged(store, prefix, IndexedLabels, topK)|;
            topK >= 0 ==> |r| == (if topK < n then topK else n)
    ensures multiset(SearchAll(store, prefix, topK)) <= multiset(Merged(store, prefix, IndexedLabels, topK))
    ensures SortedBy(SearchAll(store, prefix, topK), HitScore, ScoreDescending)
    ensures var r := SearchAll(store, prefix, topK);
            forall i, h :: 0 <= i < |r| && h in Merged(store, prefix, IndexedLabels, topK) && h !in r ==> r[i].score >= h.score
    ensures forall v :: KeyClass(SortBy(Merged(store, prefix, IndexedLabels, topK), HitScore, ScoreDescending), HitScore, v)
                        == KeyClass(Merged(store, prefix, IndexedLabels, topK), HitScore, v)
  {
    var all := Merged(store, prefix, IndexedLabels, topK);
    assert SearchAll(store, prefix, topK) == PyPrefix(SortBy(all, HitScore, ScoreDescending), topK);
    TopHits(all, topK);
    StableHits(all);
  }

  /** Sorting by descending score keeps hits of equal score in order. */
  lemma StableHits(all: seq<SearchHit>)
    ensures forall v :: KeyClass(SortBy(all, HitScore, ScoreDescending), HitScore, v) == KeyClass(all, HitScore, v)
  {
    ScoreDescendingIsTotalPreorder();
    forall v ensures KeyClass(SortBy(all, HitScore, ScoreDescending), HitScore, v) == KeyClass(all, HitScore, v) {
      SortStable(all, HitScore, ScoreDescending, v);
    }
  }

  /** The properties of `SearchAll` for any merged list of hits. */
  lemma TopHits(all: seq<SearchHit>, topK: int)
    ensures var r := PyPrefix(SortBy(all, HitScore, ScoreDescending), topK);
            topK >= 0 ==> |r| == (if topK < |all| then topK else |all|)
    ensures multiset(PyPrefix(SortBy(all, HitScore, ScoreDescending), topK)) <= multiset(all)
    ensures SortedBy(PyPrefix(SortBy(all, HitScore, ScoreDescending), topK), HitScore, ScoreDescending)
    ensures var r := PyPrefix(SortBy(all, HitScore, ScoreDescending), topK);
            forall i, h :: 0 <= i < |r| && h in all && h !in r ==> r[i].score >= h.score
  {
    var sorted := SortBy(all, HitScore, ScoreDescending);
    var r := PyPrefix(sorted, topK);
    ScoreDescendingIsTotalPreorder();
    SortSorted(all, HitScore, ScoreDescending);
    TopPrefix(sorted, topK, HitScore, ScoreDescending);
    PrefixSubMultiset(sorted, |r|);
    forall h | h in all ensures h in sorted {
      assert h in multiset(all);
    }
  }

  /** The label loop of `_search_all_labels`: each label of `kinds` is
      searched in turn and a failing label is skipped. */
  method CollectHits(store: Store, prefix: string, kinds: seq<string>, topK: int) returns (all: seq<SearchHit>)
    ensures all == Merged(store, prefix, kinds, topK)
  {
    all := [];
    var i := 0;
    while i < |kinds|
      invariant 0 <= i <= |kinds|
      invariant all == Merged(store, prefix, kinds[..i], topK)
    {
      var outcome := SearchSingleLabel(store, prefix, kinds[i], topK);
      if outcome.Ok? {
        all := all + outcome.value;
      }
      assert kinds[..i + 1][..i] == kinds[..i];
      i := i + 1;
    }
    assert kinds[..i] == kinds;
  }

  /** `_search_all_labels`: the hits of all indexed labels, sorted and cut. */
  method SearchAllLabels(store: Store, prefix: string, topK: int) returns (results: seq<SearchHit>)
    ensures results == SearchAll(store, prefix, topK)
  {
    var all := CollectHits(store, prefix, IndexedLabels, topK);
    all := SortBy(all, HitScore, ScoreDescending);
    results := PyPrefix(all, topK);
  }

  /** `top_k or default`: a missing or zero count means the default. */
  function EffectiveTopK(topK: Option<int>, defaultTopK: int): (k: int)
    ensures topK.Some? && topK.value != 0 ==> k == topK.value
    ensures topK.None? || topK.value == 0 ==> k == defaultTopK
  {
    if topK.Some? && topK.value != 0 then topK.value else defaultTopK
  }

  /** `vector_search`: a non-empty label searches that label's index alone
      and passes on its error; no label, or the empty one, searches all
      indexed labels, which never fails. */
  method VectorSearch(store: Store, prefix: string, defaultTopK: int, kind: Option<string>, topK: Option<int>)
    returns (r: Result<seq<SearchHit>, string>)
    ensures kind.Some? && kind.value != "" ==>
              r == store(IndexName(prefix, kind.value), EffectiveTopK(topK, defaultTopK))
    ensures kind.None? || kind.value == "" ==>
              r.Ok? && r.value == SearchAll(store, prefix, EffectiveTopK(topK, defaultTopK))
  {
    var k := EffectiveTopK(topK, defaultTopK);
    if kind.Some? && kind.value != "" {
      r := SearchSingleLabel(store, prefix, kind.value, k);
    } else {
      var hits := SearchAllLabels(store, prefix, k);
      r := Ok(hits);
    }
  }

  // ---------------------------------------------------------------------------
  // Preparing embeddings
  // ---------------------------------------------------------------------------

  /** A fetched node: its element id and its properties. */
  datatype NodeRecord = NodeRecord(nodeId: string, props: Node)

  /** The text `build_text` makes of a node of the given label. */
  function TextOf(kind: string): Node -> string
  {
    (n: Node) => BuildText(n, kind)
  }

  /** The (id, text) pairs worth embedding: nodes whose text does not strip
      to nothing, in fetch order. */
  function Embeddable(records: seq<NodeRecord>, text: Node -> string): seq<(string, string)>
  {
    if records == [] then []
    else Embeddable(records[..|records| - 1], text) + EmbedOne(records[|records| - 1], text)
  }

  /** The pair one node contributes: none when its text strips to nothing. */
  function EmbedOne(x: NodeRecord, text: Node -> string): seq<(string, string)>
  {
    if Strip(text(x.props)) != "" then [(x.nodeId, text(x.props))] else []
  }

  /** At most one pair per node, and no kept text strips to nothing. */
  lemma {:induction false} EmbeddableNonBlank(records: seq<NodeRecord>, text: Node -> string)
    ensures |Embeddable(records, text)| <= |records|
    ensures forall i :: 0 <= i < |Embeddable(records, text)| ==> Strip(Embeddable(records, text)[i].1) != ""
  {
    if records != [] {
      var init := records[..|records| - 1];
      EmbeddableNonBlank(init, text);
      var a, b := Embeddable(init, text), EmbedOne(records[|records| - 1], text);
      assert forall i :: 0 <= i < |a + b| ==> (a + b)[i] == if i < |a| then a[i] else b[i - |a|];
    }
  }

  lemma EmbeddableLast(records: seq<NodeRecord>, text: Node -> string)
    requires records != []
    ensures Embeddable(records, text) == Embeddable(records[..|records| - 1], text) + EmbedOne(records[|records| - 1], text)
  {
  }

  lemma {:induction false} EmbeddableAppend(a: seq<NodeRecord>, b: seq<NodeRecord>, text: Node -> string)
    ensures Embeddable(a + b, text) == Embeddable(a, text) + Embeddable(b, text)
    decreases |b|
  {
    if b == [] {
      assert a + b == a;
    } else {
      EmbeddableAppend(a, b[..|b| - 1], text);
      EmbeddableAppendStep(a, b, text);
    }
  }

  lemma EmbeddableAppendStep(a: seq<NodeRecord>, b: seq<NodeRecord>, text: Node -> string)
    requires b != []
    requires Embeddable(a + b[..|b| - 1], text) == Embeddable(a, text) + Embeddable(b[..|b| - 1], text)
    ensures Embeddable(a + b, text) == Embeddable(a, text) + Embeddable(b, text)
  {
    AppendLast(a, b, text);
    EmbeddableLast(b, text);
    RegroupLast(Embeddable(a + b, text), Embeddable(a, text), Embeddable(b[..|b| - 1], text),
                Embeddable(b, text), EmbedOne(b[|b| - 1], text));
  }

  /** `(x + y) + z` regrouped, for whole sequences named as they are. */
  lemma RegroupLast<U>(whole: seq<U>, x: seq<U>, y: seq<U>, yz: seq<U>, z: seq<U>)
    requires whole == x + y + z && yz == y + z
    ensures whole == x + yz
  {
  }

  /** Dropping the last record of `a + b`, with `b` non-empty. */
  lemma AppendLast(a: seq<NodeRecord>, b: seq<NodeRecord>, text: Node -> string)
    requires b != []
    ensures Embeddable(a + b, text) == Embeddable(a + b[..|b| - 1], text) + EmbedOne(b[|b| - 1], text)
  {
    var ab := a + b;
    assert ab[|ab| - 1] == b[|b| - 1];
    assert ab[..|ab| - 1] == a + b[..|b| - 1];
    EmbeddableLast(ab, text);
  }

  /** One record more adds its pair, if any. */
  lemma EmbeddableStep(records: seq<NodeRecord>, i: nat, text: Node -> string)
    requires i < |records|
    ensures Embeddable(records[..i + 1], text) == Embeddable(records[..i], text) + EmbedOne(records[i], text)
  {
    EmbeddableLast(records[..i + 1], text);
    assert records[..i + 1][..i] == records[..i];
  }

  /** A node is embedded exactly when its text is not blank, with that
      text; by `EmbeddableAppend` the nodes keep their relative order. */
  lemma EmbeddableSingle(x: NodeRecord, text: Node -> string)
    ensures !Blank(text(x.props)) ==> Embeddable([x], text) == [(x.nodeId, text(x.props))]
    ensures Blank(text(x.props)) ==> Embeddable([x], text) == []
  {
    assert [x][..0] == [];
    StripEmpty(text(x.props));
  }

  /** The outcome of `generate_and_store_embeddings`: the number of nodes
      embedded and the batches of (id, text) handed to storage. */
  datatype EmbedOutcome = EmbedOutcome(count: int, batches: seq<seq<(string, string)>>)

  /** `generate_and_store_embeddings` for the fetched `records`: no nodes
      gives 0; otherwise the non-blank texts are collected and stored in
      slices of `batchSize`, a zero size being an error of `range` and a
      negative one storing nothing. */
  method PrepareEmbeddings(records: seq<NodeRecord>, kind: string, batchSize: int)
    returns (r: Result<EmbedOutcome, string>)
    ensures records == [] ==> r == Ok(EmbedOutcome(0, []))
    ensures records != [] && batchSize == 0 ==> r.Err?
    ensures records != [] && batchSize != 0 ==> r.Ok? && r.value.count == |Embeddable(records, TextOf(kind))|
    ensures records != [] && batchSize < 0 ==> r.Ok? && r.value.batches == []
    ensures records != [] && batchSize > 0 ==>
              r.Ok? && Flatten(r.value.batches) == Embeddable(records, TextOf(kind))
              && (forall b :: b in r.value.batches ==> 1 <= |b| <= batchSize)
              && (forall k :: 0 <= k < |r.value.batches| - 1 ==> |r.value.batches[k]| == batchSize)
  {
    if records == [] {
      return Ok(EmbedOutcome(0, []));
    }
    var nodeIds, texts := CollectEmbeddable(records, TextOf(kind));
    if batchSize == 0 {
      return Err("range() arg 3 must not be zero");
    }
    var items := Zip(nodeIds, texts);
    var batches := SliceBatches(items, batchSize);
    r := Ok(EmbedOutcome(|nodeIds|, batches));
  }

  /** The loop of `generate_and_store_embeddings` that builds each node's
      text and keeps the ids and texts of the non-blank ones. */
  method CollectEmbeddable(records: seq<NodeRecord>, text: Node -> string)
    returns (nodeIds: seq<string>, texts: seq<string>)
    ensures |nodeIds| == |texts|
    ensures Zip(nodeIds, texts) == Embeddable(records, text)
  {
    nodeIds, texts := [], [];
    var i := 0;
    while i < |records|
      invariant 0 <= i <= |records|
      invariant |nodeIds| == |texts|
      invariant Zip(nodeIds, texts) == Embeddable(records[..i], text)
    {
      var t := text(records[i].props);
      EmbeddableStep(records, i, text);
      if Strip(t) != "" {
        assert EmbedOne(records[i], text) == [(records[i].nodeId, t)];
        ZipAppend(nodeIds, texts, records[i].nodeId, t);
        nodeIds := nodeIds + [records[i].nodeId];
        texts := texts + [t];
      } else {
        assert EmbedOne(records[i], text) == [];
      }
      i := i + 1;
    }
    assert records[..i] == records;
  }

  lemma ZipAppend(xs: seq<string>, ys: seq<string>, x: string, y: string)
    requires |xs| == |ys|
    ensures Zip(xs + [x], ys + [y]) == Zip(xs, ys) + [(x, y)]
  {
  }

  function Zip(xs: seq<string>, ys: seq<string>): (r: seq<(string, string)>)
    requires |xs| == |ys|
    ensures |r| == |xs|
    ensures forall k :: 0 <= k < |r| ==> r[k] == (xs[k], ys[k])
  {
    if xs == [] then [] else [(xs[0], ys[0])] + Zip(xs[1..], ys[1..])
  }
}
