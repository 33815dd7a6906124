/** The encrypted index: layer-0 nodes as fixed-size blocks behind a block store, upper
    layers and directional hints cached in the clear, and the search over them. The store
    returns what was last admitted under an id. */
module Index {
  import opened Sums
  import opened Beam
  import opened Hnsw
  import opened Codec
  import Hints

  type Embedding = seq<word>

  type Hint = seq<nat>

  datatype UpperNode = UpperNode(embedding: Embedding, neighbours: seq<nat>)

  /** Distances, hints and scores are whatever the embeddings make them. */
  datatype Metric = Metric(
    cosine: (Embedding, Embedding) -> real,
    hint: (Embedding, Embedding) -> Hint,
    score: (Hint, Embedding, Embedding) -> real)

  datatype IndexParams = IndexParams(dim: nat, hnsw: Params, blockBytes: nat, efSearch: nat, efN: nat)

  function CorpusDist(corpus: seq<Embedding>, m: Metric): Dist {
    (a: nat, b: nat) => if a < |corpus| && b < |corpus| then m.cosine(corpus[a], corpus[b]) else 0.0
  }

  ghost predicate GoodCorpus(corpus: seq<Embedding>, dim: nat) {
    0 < |corpus| < WORDS && forall e :: e in corpus ==> |e| == dim
  }

  /** Every neighbour list is short enough for a block and names existing nodes. */
  ghost predicate BoundedLists(g: Graph, n: nat, bound: nat) {
    |g.layer0| == n && forall id {:trigger g.layer0[id]} | 0 <= id < n ::
      |g.layer0[id]| <= bound && Distinct(g.layer0[id]) && forall v :: v in g.layer0[id] ==> v < n && v != id
  }

  lemma {:induction false} DistinctFits(s: seq<nat>, n: nat)
    requires Distinct(s) && forall v :: v in s ==> v < n
    ensures |s| <= n
  {
    MembersSize(s);
    RangeSize(n);
    SubsetSize(Members(s), Range(n));
  }

  // ─── what is stored ───

  function AsWords(ns: seq<nat>): (r: seq<word>)
    requires forall v :: v in ns ==> v < WORDS
    ensures r == ns
  {
    seq<word>(|ns|, i requires 0 <= i < |ns| =>
      assert ns[i] in ns;
      var w: word := ns[i];
      w)
  }

  /** The block of `id` holds its embedding and its neighbour list. */
  ghost predicate BlockOk(blocks: map<nat, seq<byte>>, corpus: seq<Embedding>, g: Graph, p: IndexParams, id: nat)
    requires id < |corpus| && id < |g.layer0|
  {
    && id in blocks && |blocks[id]| >= SerialisedSize(p.dim, p.hnsw.maxL0)
    && (forall v :: v in g.layer0[id] ==> v < WORDS)
    && Holds(blocks[id], NodeBlock(corpus[id], AsWords(g.layer0[id])), p.dim)
  }

  ghost predicate BlocksOk(blocks: map<nat, seq<byte>>, corpus: seq<Embedding>, g: Graph, p: IndexParams, n: nat)
    requires n <= |corpus| && n <= |g.layer0|
  {
    forall id: nat {:trigger g.layer0[id]} | id < n :: BlockOk(blocks, corpus, g, p, id)
  }

  /** One hint per neighbour, in list order. */
  function HintsOf(corpus: seq<Embedding>, ns: seq<nat>, x: nat, m: Metric): seq<Hint>
    requires x < |corpus| && forall v :: v in ns ==> v < |corpus|
  {
    seq(|ns|, i requires 0 <= i < |ns| =>
      assert ns[i] in ns; m.hint(corpus[x], corpus[ns[i]]))
  }

  /** The cleartext cache mirrors the graph's upper layers. */
  ghost predicate CacheOk(cache: seq<map<nat, UpperNode>>, corpus: seq<Embedding>, g: Graph) {
    && |cache| == |g.upper|
    && forall k {:trigger cache[k]} | 0 <= k < |cache| ::
         && cache[k].Keys == g.upper[k].Keys
         && forall id :: id in cache[k] ==>
              && id < |corpus| && cache[k][id].embedding == corpus[id] && cache[k][id].neighbours == g.upper[k][id]
              && forall v :: v in cache[k][id].neighbours ==> v in cache[k]
  }

  /** A node of one layer is on every layer below. */
  ghost predicate Nested(cache: seq<map<nat, UpperNode>>) {
    forall k {:trigger cache[k]} | 0 < k < |cache| :: cache[k].Keys <= cache[k - 1].Keys
  }

  // ─── directional filtering ───

  datatype Scored = Scored(score: real, id: nat)

  /** Stable, highest score first. */
  function InsertScored(s: seq<Scored>, x: Scored): (r: seq<Scored>)
    ensures |r| == |s| + 1
    ensures forall y :: y in r <==> y in s || y == x
  {
    if s == [] then [x]
    else if s[|s| - 1].score < x.score then
      var last := s[|s| - 1];
      assert s == s[..|s| - 1] + [last];
      InsertScored(s[..|s| - 1], x) + [last]
    else s + [x]
  }

  function SortScored(s: seq<Scored>): (r: seq<Scored>)
    ensures |r| == |s|
    ensures forall y :: y in r <==> y in s
  {
    if s == [] then []
    else
      assert s == s[..|s| - 1] + [s[|s| - 1]];
      InsertScored(SortScored(s[..|s| - 1]), s[|s| - 1])
  }

  function ScoredList(ns: seq<nat>, hints: seq<Hint>, query: Embedding, at: Embedding, m: Metric): (r: seq<Scored>)
    requires |ns| == |hints|
    ensures |r| == |ns| && forall i :: 0 <= i < |ns| ==> r[i] == Scored(m.score(hints[i], query, at), ns[i])
  {
    seq(|ns|, i requires 0 <= i < |ns| => Scored(m.score(hints[i], query, at), ns[i]))
  }

  function Ids(s: seq<Scored>): (r: seq<nat>)
    ensures |r| == |s| && forall i :: 0 <= i < |s| ==> r[i] == s[i].id
  {
    seq(|s|, i requires 0 <= i < |s| => s[i].id)
  }

  /** The neighbours fetched from a node: all of them, or the `efN` best aligned with the query. */
  function Fetched(ns: seq<nat>, hints: seq<Hint>, query: Embedding, at: Embedding, efN: nat, m: Metric): (r: seq<nat>)
    requires |ns| == |hints|
    ensures efN >= |ns| ==> r == ns
    ensures efN < |ns| ==> |r| == efN
    ensures forall v :: v in r ==> v in ns
  {
    if efN >= |ns| then ns
    else
      var sorted := SortScored(ScoredList(ns, hints, query, at, m));
      var best := sorted[..efN];
      assert forall i :: 0 <= i < efN ==> best[i] in sorted;
      Ids(best)
  }

  ghost predicate ByScore(s: seq<Scored>) {
    forall i, j :: 0 <= i < j < |s| ==> s[i].score >= s[j].score
  }

  lemma {:induction false} InsertScoredSorted(s: seq<Scored>, x: Scored)
    requires ByScore(s)
    ensures ByScore(InsertScored(s, x))
  {
    if s != [] && s[|s| - 1].score < x.score {
      var rest, last := s[..|s| - 1], s[|s| - 1];
      InsertScoredSorted(rest, x);
      var r := InsertScored(rest, x);
      forall y | y in r
        ensures y.score >= last.score
      {
        if y in rest {
          var i :| 0 <= i < |rest| && rest[i] == y;
          assert s[i].score >= s[|s| - 1].score;
        }
      }
      forall i | 0 <= i < |r|
        ensures r[i].score >= last.score
      {
        assert r[i] in r;
      }
    }
  }

  lemma {:induction false} SortScoredSorted(s: seq<Scored>)
    ensures ByScore(SortScored(s))
  {
    if s != [] {
      SortScoredSorted(s[..|s| - 1]);
      InsertScoredSorted(SortScored(s[..|s| - 1]), s[|s| - 1]);
    }
  }

  /** A neighbour that is not fetched scores no better than any that is. */
  lemma {:induction false} FetchedBest(ns: seq<nat>, hints: seq<Hint>, query: Embedding, at: Embedding, efN: nat,
                                       m: Metric, i: nat, v: nat)
    requires |ns| == |hints| && Distinct(ns) && i < |ns|
    requires ns[i] !in Fetched(ns, hints, query, at, efN, m) && v in Fetched(ns, hints, query, at, efN, m)
    ensures exists j :: 0 <= j < |ns| && ns[j] == v && m.score(hints[j], query, at) >= m.score(hints[i], query, at)
  {
    var list := ScoredList(ns, hints, query, at, m);
    var sorted := SortScored(list);
    SortScoredSorted(list);
    assert list[i] in sorted;
    var a :| 0 <= a < |sorted| && sorted[a] == list[i];
    var best := Ids(sorted[..efN]);
    assert forall c :: 0 <= c < |best| ==> best[c] in best;
    assert a >= efN;
    var b :| 0 <= b < |best| && best[b] == v;
    assert sorted[b] in list;
    var j :| 0 <= j < |list| && list[j] == sorted[b];
    assert sorted[b].score >= sorted[a].score;
  }

  /** Where a neighbour stands in the list it came from. */
  ghost predicate IsRank(rank: nat -> nat, ns: seq<nat>) {
    forall i: nat {:trigger ns[i]} | i < |ns| :: rank(ns[i]) == i
  }

  ghost predicate Ahead(rank: nat -> nat, a: Scored, b: Scored) {
    a.score > b.score || (a.score == b.score && rank(a.id) < rank(b.id))
  }

  ghost predicate InRank(rank: nat -> nat, s: seq<Scored>) {
    forall i, j :: 0 <= i < j < |s| ==> Ahead(rank, s[i], s[j])
  }

  lemma {:induction false} InsertStable(rank: nat -> nat, s: seq<Scored>, x: Scored)
    requires InRank(rank, s) && forall y :: y in s ==> rank(y.id) < rank(x.id)
    ensures InRank(rank, InsertScored(s, x))
  {
    if s != [] && s[|s| - 1].score < x.score {
      var rest, last := s[..|s| - 1], s[|s| - 1];
      assert forall y :: y in rest ==> y in s;
      InsertStable(rank, rest, x);
      var r := InsertScored(rest, x);
      forall i | 0 <= i < |r|
        ensures Ahead(rank, r[i], last)
      {
        assert r[i] in r;
        if r[i] in rest {
          var k :| 0 <= k < |rest| && rest[k] == r[i];
          assert Ahead(rank, s[k], s[|s| - 1]);
        }
      }
    } else if s != [] {
      assert forall i :: 0 <= i < |s| ==> s[i] in s && s[i].score >= s[|s| - 1].score;
    }
  }

  lemma {:induction false} SortStable(rank: nat -> nat, s: seq<Scored>)
    requires forall i, j :: 0 <= i < j < |s| ==> rank(s[i].id) < rank(s[j].id)
    ensures InRank(rank, SortScored(s))
  {
    if s != [] {
      var rest, last := s[..|s| - 1], s[|s| - 1];
      SortStable(rank, rest);
      forall y | y in SortScored(rest)
        ensures rank(y.id) < rank(last.id)
      {
        assert y in rest;
        var k :| 0 <= k < |rest| && rest[k] == y;
        assert rank(s[k].id) < rank(s[|s| - 1].id);
      }
      InsertStable(rank, SortScored(rest), last);
    }
  }

  lemma {:induction false} AheadFirst(rank: nat -> nat, s: seq<Scored>, a: nat, b: nat)
    requires InRank(rank, s) && a < |s| && b < |s| && Ahead(rank, s[a], s[b])
    ensures a < b
  {
  }

  /** Fetched in order of score, equal scores in the order of the list: a neighbour that scores at least
      as well as a later one is fetched if that one is, and before it. */
  lemma {:induction false} FetchedInOrder(ns: seq<nat>, hints: seq<Hint>, query: Embedding, at: Embedding, efN: nat,
                                          m: Metric, rank: nat -> nat, i: nat, j: nat, b: nat)
    returns (a: nat)
    requires |ns| == |hints| && IsRank(rank, ns) && i < j < |ns| && efN < |ns|
    requires m.score(hints[i], query, at) >= m.score(hints[j], query, at)
    requires b < efN && Fetched(ns, hints, query, at, efN, m)[b] == ns[j]
    ensures a < b && Fetched(ns, hints, query, at, efN, m)[a] == ns[i]
  {
    var list := ScoredList(ns, hints, query, at, m);
    var sorted := SortScored(list);
    SortStable(rank, list);
    var x, y := list[i], list[j];
    assert x in sorted && sorted[b] in sorted;
    a :| 0 <= a < |sorted| && sorted[a] == x;
    var k :| 0 <= k < |list| && list[k] == sorted[b];
    assert rank(ns[k]) == k && rank(ns[j]) == j;
    assert sorted[b] == y && Ahead(rank, x, y);
    AheadFirst(rank, sorted, a, b);
  }

  /** Hint `j` packs direction `dirs[j]`, and a score is the packed dot product with `q`. */
  ghost predicate PackedHints(hints: seq<Hint>, dirs: seq<seq<real>>, scales: seq<real>, q: seq<real>, query: Embedding,
                              at: Embedding, m: Metric) {
    && |hints| == |dirs| == |scales|
    && forall j {:trigger hints[j]} | 0 <= j < |hints| ::
         && Hints.IsScale(scales[j], dirs[j]) && Hints.Packs(hints[j], dirs[j], scales[j]) && |dirs[j]| == |q|
         && m.score(hints[j], query, at) == Hints.Score(hints[j], q)
  }

  /** Quantisation loses little: by exact scores, a neighbour that is not fetched leads one that is by at
      most `2·‖q‖₁ / 15`. */
  lemma {:induction false} FetchedNearlyBest(ns: seq<nat>, hints: seq<Hint>, query: Embedding, at: Embedding, efN: nat,
                                             m: Metric, i: nat, v: nat, dirs: seq<seq<real>>, scales: seq<real>,
                                             q: seq<real>)
    requires |ns| == |hints| && Distinct(ns) && i < |ns| && PackedHints(hints, dirs, scales, q, query, at, m)
    requires ns[i] !in Fetched(ns, hints, query, at, efN, m) && v in Fetched(ns, hints, query, at, efN, m)
    ensures exists j {:trigger ns[j]} :: 0 <= j < |ns| && ns[j] == v
              && Hints.Exact(dirs[i], scales[i], q) <= Hints.Exact(dirs[j], scales[j], q)
                 + 2.0 * Hints.OneNorm(q) / 15.0
  {
    FetchedBest(ns, hints, query, at, efN, m, i, v);
    var j :| 0 <= j < |ns| && ns[j] == v && m.score(hints[j], query, at) >= m.score(hints[i], query, at);
    hide Fetched, Distinct, Hints.Score, Hints.Exact, Hints.OneNorm, Hints.IsScale, Hints.Packs;
    if Hints.Exact(dirs[i], scales[i], q) - Hints.Exact(dirs[j], scales[j], q) > 2.0 * Hints.OneNorm(q) / 15.0 {
      Hints.RankKept(hints[i], dirs[i], scales[i], hints[j], dirs[j], scales[j], q);
      assert false;
    }
  }

  // ─── the index ───

  /** Blocks, caches and hints all describe one corpus and one graph over it. */
  ghost predicate IndexOk(p: IndexParams, m: Metric, oram: map<nat, seq<byte>>, entry: nat,
                          cache: seq<map<nat, UpperNode>>, hints: seq<seq<Hint>>, corpus: seq<Embedding>, g: Graph) {
    && GoodCorpus(corpus, p.dim)
    && BoundedLists(g, |corpus|, p.hnsw.maxL0)
    && BlocksOk(oram, corpus, g, p, |corpus|)
    && CacheOk(cache, corpus, g) && Nested(cache)
    && |hints| == |corpus|
    && (forall id {:trigger hints[id]} | 0 <= id < |corpus| ::
          (forall v :: v in g.layer0[id] ==> v < |corpus|) && hints[id] == HintsOf(corpus, g.layer0[id], id, m))
    && entry < |corpus| && (|cache| > 0 ==> entry in cache[|cache| - 1])
  }

  class CompassIndex {
    const p: IndexParams
    const m: Metric
    var oram: map<nat, seq<byte>>
    var entry: nat
    var topLayer: nat
    var upperLayers: seq<map<nat, UpperNode>>
    var layer0Hints: seq<seq<Hint>>
    var readCount: nat
    ghost var corpus: seq<Embedding>
    ghost var graph: Graph

    ghost predicate Valid()
      reads `oram, `entry, `topLayer, `upperLayers, `layer0Hints, `corpus, `graph
    {
      topLayer == |upperLayers| && IndexOk(p, m, oram, entry, upperLayers, layer0Hints, corpus, graph)
    }

    constructor (p: IndexParams, m: Metric, oram: map<nat, seq<byte>>, entry: nat,
                 upperLayers: seq<map<nat, UpperNode>>, hints: seq<seq<Hint>>, ghost corpus: seq<Embedding>,
                 ghost graph: Graph)
      ensures this.p == p && this.m == m && this.oram == oram && this.entry == entry && this.upperLayers == upperLayers
      ensures topLayer == |upperLayers| && layer0Hints == hints && readCount == 0
      ensures this.corpus == corpus && this.graph == graph
    {
      this.p := p;
      this.m := m;
      this.oram := oram;
      this.entry := entry;
      this.topLayer := |upperLayers|;
      this.upperLayers := upperLayers;
      this.layer0Hints := hints;
      this.readCount := 0;
      this.corpus := corpus;
      this.graph := graph;
    }

    /** A stored block comes back as exactly the node that was built. */
    method ReadLayer0Node(id: nat) returns (node: NodeBlock)
      requires Valid() && id < |corpus|
      modifies this`readCount
      ensures Valid() && node.embedding == corpus[id] && node.neighbors == graph.layer0[id]
      ensures readCount == old(readCount) + 1
    {
      assert BlockOk(oram, corpus, graph, p, id) by {
        assert graph.layer0[id] == graph.layer0[id];
      }
      StoredNode(oram, corpus, graph, p, id);
      hide Holds, CacheOk, HintsOf, Decoded, Nested;
      var bytes := oram[id];
      var r := DeserialiseNode(bytes, p.dim, p.hnsw.maxL0);
      node := r.value;
      readCount := readCount + 1;
    }
  }

  lemma {:induction false} StoredNode(blocks: map<nat, seq<byte>>, corpus: seq<Embedding>, g: Graph, p: IndexParams,
                                      id: nat)
    requires GoodCorpus(corpus, p.dim) && BoundedLists(g, |corpus|, p.hnsw.maxL0) && id < |corpus|
    requires BlockOk(blocks, corpus, g, p, id)
    ensures Decoded(blocks[id], p.dim, p.hnsw.maxL0).embedding == corpus[id]
    ensures Decoded(blocks[id], p.dim, p.hnsw.maxL0).neighbors == g.layer0[id]
  {
    var ns := g.layer0[id];
    DistinctFits(ns, |corpus|);
    DecodesBack(blocks[id], NodeBlock(corpus[id], AsWords(ns)), p.dim, p.hnsw.maxL0);
  }

  /** Hint `i` of a node belongs to neighbour `i` of its list. */
  lemma {:induction false} HintsAligned(index: CompassIndex, id: nat, i: nat)
    requires index.Valid() && id < |index.corpus| && id < |index.graph.layer0| && i < |index.graph.layer0[id]|
    ensures id < |index.layer0Hints| && |index.layer0Hints[id]| == |index.graph.layer0[id]|
    ensures index.graph.layer0[id][i] < |index.corpus|
    ensures index.layer0Hints[id][i] == index.m.hint(index.corpus[id], index.corpus[index.graph.layer0[id][i]])
  {
    assert index.layer0Hints[id] == HintsOf(index.corpus, index.graph.layer0[id], id, index.m);
    assert index.graph.layer0[id][i] in index.graph.layer0[id];
    hide BlockOk, CacheOk, Nested;
  }

  // ─── building ───

  method CacheUpperLayers(corpus: seq<Embedding>, g: Graph) returns (cache: seq<map<nat, UpperNode>>)
    requires forall k {:trigger g.upper[k]} | 0 <= k < |g.upper| :: forall id :: id in g.upper[k] ==> id < |corpus|
    requires forall k {:trigger g.upper[k]} | 0 <= k < |g.upper| ::
               forall id, v :: id in g.upper[k] && v in g.upper[k][id] ==> v in g.upper[k]
    ensures CacheOk(cache, corpus, g)
  {
    cache := [];
    for k := 0 to |g.upper|
      invariant |cache| == k
      invariant forall j {:trigger cache[j]} | 0 <= j < k ::
                  && cache[j].Keys == g.upper[j].Keys
                  && forall id :: id in cache[j] ==>
                       && id < |corpus| && cache[j][id].embedding == corpus[id]
                          && cache[j][id].neighbours == g.upper[j][id]
                       && forall v :: v in cache[j][id].neighbours ==> v in cache[j]
    {
      var adj := g.upper[k];
      cache := cache + [map id | id in adj :: UpperNode(corpus[id], adj[id])];
    }
  }

  method DirectionalHints(corpus: seq<Embedding>, g: Graph, m: Metric) returns (hints: seq<seq<Hint>>)
    requires |g.layer0| == |corpus|
    requires forall id {:trigger g.layer0[id]} | 0 <= id < |corpus| :: forall v :: v in g.layer0[id] ==> v < |corpus|
    ensures |hints| == |corpus|
    ensures forall id {:trigger hints[id]} | 0 <= id < |corpus| ::
              (forall v :: v in g.layer0[id] ==> v < |corpus|) && hints[id] == HintsOf(corpus, g.layer0[id], id, m)
    ensures forall id, i {:trigger hints[id][i]} | 0 <= id < |corpus| && 0 <= i < |g.layer0[id]| ::
              |hints[id]| == |g.layer0[id]| && g.layer0[id][i] < |corpus|
              && hints[id][i] == m.hint(corpus[id], corpus[g.layer0[id][i]])
  {
    hints := [];
    for x := 0 to |corpus|
      invariant |hints| == x
      invariant forall id {:trigger hints[id]} | 0 <= id < x ::
                  (forall v :: v in g.layer0[id] ==> v < |corpus|) && hints[id] == HintsOf(corpus, g.layer0[id], id, m)
    {
      hints := hints + [HintsOf(corpus, g.layer0[x], x, m)];
    }
    forall id, i | 0 <= id < |corpus| && 0 <= i < |g.layer0[id]|
      ensures |hints[id]| == |g.layer0[id]| && g.layer0[id][i] < |corpus|
              && hints[id][i] == m.hint(corpus[id], corpus[g.layer0[id][i]])
    {
      assert hints[id] == HintsOf(corpus, g.layer0[id], id, m);
      assert g.layer0[id][i] in g.layer0[id];
    }
  }

  function Truncated(ns: seq<nat>, max: nat): seq<nat> {
    if |ns| > max then ns[..max] else ns
  }

  /** Every node serialised and admitted, in id order. The degree bound of the graph makes the
      truncation a no-op and rules out every codec error but a block that is too small. */
  method AdmitAll(corpus: seq<Embedding>, g: Graph, p: IndexParams) returns (r: Result<map<nat, seq<byte>>>)
    requires GoodCorpus(corpus, p.dim) && BoundedLists(g, |corpus|, p.hnsw.maxL0)
    ensures r == Err(BlockTooSmall(SerialisedSize(p.dim, p.hnsw.maxL0), p.blockBytes))
            <==> p.blockBytes < SerialisedSize(p.dim, p.hnsw.maxL0)
    ensures p.blockBytes >= SerialisedSize(p.dim, p.hnsw.maxL0) ==> r.Ok? && BlocksOk(r.value, corpus, g, p, |corpus|)
  {
    var oram: map<nat, seq<byte>> := map[];
    hide Holds, Distinct;
    for id := 0 to |corpus|
      invariant id > 0 ==> p.blockBytes >= SerialisedSize(p.dim, p.hnsw.maxL0)
      invariant BlocksOk(oram, corpus, g, p, id)
    {
      var ns := g.layer0[id];
      var kept := Truncated(ns, p.hnsw.maxL0);
      assert kept == ns;
      assert corpus[id] in corpus;
      var bytes := SerialiseNode(NodeBlock(corpus[id], AsWords(kept)), p.dim, p.hnsw.maxL0, p.blockBytes);
      if bytes.Err? {
        return Err(bytes.error);
      }
      ghost var was := oram;
      oram := oram[id := bytes.value];
      forall k: nat | k < id
        ensures BlockOk(oram, corpus, g, p, k)
      {
        assert BlockOk(was, corpus, g, p, k) by {
          assert g.layer0[k] == g.layer0[k];
        }
      }
    }
    return Ok(oram);
  }

  datatype Built = Built(index: CompassIndex) | BuildError(error: CodecError) | Panic

  /** The number of node ids: the corpus length as a 32-bit word. */
  function NodeCount(corpus: seq<Embedding>): (n: nat)
    ensures n <= |corpus| && (n == |corpus| <==> |corpus| < WORDS)
  {
    |corpus| % WORDS
  }

  /** The dimension assertion of every embedding. */
  method DimensionsMatch(corpus: seq<Embedding>, dim: nat) returns (ok: bool)
    ensures ok <==> forall e :: e in corpus ==> |e| == dim
  {
    for i := 0 to |corpus|
      invariant forall j :: 0 <= j < i ==> |corpus[j]| == dim
    {
      if |corpus[i]| != dim {
        assert corpus[i] in corpus;
        return false;
      }
    }
    return true;
  }

  /** Two nodes are as far apart as the cosine distance of their embeddings says. */
  ghost predicate Measures(dist: Dist, corpus: seq<Embedding>, m: Metric) {
    forall a: nat, b: nat {:trigger dist(a, b)} | a < |corpus| && b < |corpus| ::
      dist(a, b) == m.cosine(corpus[a], corpus[b])
  }

  ghost predicate BuiltFrom(g: Graph, entry: nat, top: nat, levels: seq<nat>, p: Params, corpus: seq<Embedding>,
                            m: Metric) {
    exists dist: Dist :: Measures(dist, corpus, m) && IsBuild(g, entry, top, levels, p, dist)
  }

  lemma {:induction false} CosineBuild(g: Graph, entry: nat, top: nat, levels: seq<nat>, p: Params,
                                       corpus: seq<Embedding>, m: Metric)
    requires IsBuild(g, entry, top, levels, p, CorpusDist(corpus, m))
    ensures BuiltFrom(g, entry, top, levels, p, corpus, m)
  {
    assert Measures(CorpusDist(corpus, m), corpus, m);
    hide IsBuild, Measures, CorpusDist;
  }

  /** Graph, caches and blocks from any corpus; one level is drawn per node id, and ids are 32 bits wide.
      An empty corpus, an embedding of another dimension and a corpus of `2^32` nodes or more panic;
      otherwise it fails only when blocks are too small. */
  method FromPlaintextCorpus(corpus: seq<Embedding>, levels: seq<nat>, p: IndexParams, m: Metric) returns (r: Built)
    requires |levels| == NodeCount(corpus)
    ensures r.Panic? <==> !GoodCorpus(corpus, p.dim)
    ensures r.BuildError? <==> GoodCorpus(corpus, p.dim) && p.blockBytes < SerialisedSize(p.dim, p.hnsw.maxL0)
    ensures r.BuildError? ==> r.error == BlockTooSmall(SerialisedSize(p.dim, p.hnsw.maxL0), p.blockBytes)
    ensures r.Built? ==>
              && |levels| == |corpus| && fresh(r.index) && r.index.Valid()
              && r.index.corpus == corpus && r.index.p == p && r.index.m == m
    ensures r.Built? ==> IsTop(levels, r.index.topLayer) && levels[r.index.entry] == r.index.topLayer
    ensures r.Built? ==> BuiltFrom(r.index.graph, r.index.entry, r.index.topLayer, levels, p.hnsw, corpus, m)
  {
    var n := NodeCount(corpus);
    hide NodeCount;
    if n == 0 {
      return Panic;
    }
    var sameDim := DimensionsMatch(corpus, p.dim);
    if !sameDim {
      return Panic;
    }
    var g, entry, top, order, steps, trails := Build(levels, p.hnsw, CorpusDist(corpus, m));
    CosineBuild(g, entry, top, levels, p.hnsw, corpus, m);
    GraphFits(g, levels, top, order, steps, p);
    if n < |corpus| {
      // The hints index the adjacency of every embedding, and only `n` nodes have one.
      return Panic;
    }
    var cache := CacheUpperLayers(corpus, g);
    ListsInRange(g, |corpus|, p.hnsw.maxL0);
    var hints := DirectionalHints(corpus, g, m);
    CacheReady(cache, corpus, g, levels, top, entry);
    assert |cache| == top;
    hide *;
    var stored := AdmitAll(corpus, g, p);
    match stored
    case Err(e) => return BuildError(e);
    case Ok(oram) =>
      AllReady(p, m, oram, entry, cache, hints, corpus, g);
      var index := new CompassIndex(p, m, oram, entry, cache, hints, corpus, g);
      IndexReady(index);
      return Built(index);
  }

  /** The two ways a build fails, in numbers: a corpus without embeddings, with `2^32` of them or with
      one of another dimension, and a block without room for the floats, the count and every slot. */
  lemma {:induction false} FailuresAre(corpus: seq<Embedding>, p: IndexParams)
    ensures !GoodCorpus(corpus, p.dim)
       <==> corpus == [] || |corpus| >= 4_294_967_296 || exists e :: e in corpus && |e| != p.dim
    ensures p.blockBytes < SerialisedSize(p.dim, p.hnsw.maxL0)
       <==> p.blockBytes < 4 * (p.dim + p.hnsw.maxL0) + 4
    ensures NodeCount(corpus) == |corpus| % 4_294_967_296
  {
  }

  lemma {:induction false} IndexReady(index: CompassIndex)
    requires index.topLayer == |index.upperLayers|
    requires IndexOk(index.p, index.m, index.oram, index.entry, index.upperLayers, index.layer0Hints, index.corpus,
                     index.graph)
    ensures index.Valid()
  {
  }

  lemma {:induction false} AllReady(p: IndexParams, m: Metric, oram: map<nat, seq<byte>>, entry: nat,
                                    cache: seq<map<nat, UpperNode>>, hints: seq<seq<Hint>>, corpus: seq<Embedding>,
                                    g: Graph)
    requires GoodCorpus(corpus, p.dim) && BoundedLists(g, |corpus|, p.hnsw.maxL0)
             && BlocksOk(oram, corpus, g, p, |corpus|)
    requires CacheOk(cache, corpus, g) && Nested(cache) && |hints| == |corpus|
    requires forall id {:trigger hints[id]} | 0 <= id < |corpus| ::
               (forall v :: v in g.layer0[id] ==> v < |corpus|) && hints[id] == HintsOf(corpus, g.layer0[id], id, m)
    requires entry < |corpus| && (|cache| > 0 ==> entry in cache[|cache| - 1])
    ensures IndexOk(p, m, oram, entry, cache, hints, corpus, g)
  {
  }

  lemma {:induction false} CacheReady(cache: seq<map<nat, UpperNode>>, corpus: seq<Embedding>, g: Graph,
                                      levels: seq<nat>, top: nat, entry: nat)
    requires CacheOk(cache, corpus, g) && |g.upper| == top && entry < |levels| && levels[entry] == top
    requires forall k {:trigger g.upper[k]} | 0 <= k < |g.upper| ::
               forall id: nat :: id in g.upper[k] <==> id < |levels| && levels[id] >= k + 1
    ensures Nested(cache) && |cache| == top && (|cache| > 0 ==> entry in cache[|cache| - 1])
  {
    CacheNested(cache, corpus, g, levels);
    if top > 0 {
      assert entry in g.upper[top - 1];
      assert cache[top - 1].Keys == g.upper[top - 1].Keys;
    }
  }

  lemma {:induction false} CacheNested(cache: seq<map<nat, UpperNode>>, corpus: seq<Embedding>, g: Graph,
                                       levels: seq<nat>)
    requires CacheOk(cache, corpus, g)
    requires forall k {:trigger g.upper[k]} | 0 <= k < |g.upper| ::
               forall id: nat :: id in g.upper[k] <==> id < |levels| && levels[id] >= k + 1
    ensures Nested(cache)
  {
    forall k | 0 < k < |cache|
      ensures cache[k].Keys <= cache[k - 1].Keys
    {
      assert cache[k].Keys == g.upper[k].Keys && cache[k - 1].Keys == g.upper[k - 1].Keys;
    }
  }

  lemma {:induction false} ListsInRange(g: Graph, n: nat, bound: nat)
    requires BoundedLists(g, n, bound)
    ensures |g.layer0| == n
    ensures forall id {:trigger g.layer0[id]} | 0 <= id < n :: forall v :: v in g.layer0[id] ==> v < n
  {
  }

  /** What the builder's invariant says, in the form the index needs it. */
  lemma {:induction false} GraphFits(g: Graph, levels: seq<nat>, top: nat, order: seq<nat>, steps: seq<Graph>,
                                     p: IndexParams)
    requires IsOrder(order, levels) && EveryStepOk(steps, levels, top, order, p.hnsw, |levels|)
    requires |levels| > 0 && g == steps[|levels| - 1]
    ensures BoundedLists(g, |levels|, p.hnsw.maxL0) && |g.upper| == top
    ensures forall k {:trigger g.upper[k]} | 0 <= k < top :: forall id: nat ::
              id in g.upper[k] <==> id < |levels| && levels[id] >= k + 1
    ensures forall k {:trigger g.upper[k]} | 0 <= k < top :: forall id, v ::
              id in g.upper[k] && v in g.upper[k][id] ==> v in g.upper[k]
  {
    hide GraphOk, Linked, IsOrder, EveryStepOk;
    BuiltGraph(g, levels, top, order, steps, p.hnsw, 0);
    forall id: nat | id < |levels|
      ensures |g.layer0[id]| <= p.hnsw.maxL0 && Distinct(g.layer0[id]) && forall v :: v in g.layer0[id] ==>
                v < |levels| && v != id
    {
      BuiltGraph(g, levels, top, order, steps, p.hnsw, id);
    }
    forall k: nat | k < top
      ensures forall id: nat :: id in g.upper[k] <==> id < |levels| && levels[id] >= k + 1
      ensures forall id, v :: id in g.upper[k] && v in g.upper[k][id] ==> v in g.upper[k]
    {
      UpperFits(g, levels, top, order, steps, p, k);
    }
  }

  lemma {:induction false} UpperFits(g: Graph, levels: seq<nat>, top: nat, order: seq<nat>, steps: seq<Graph>,
                                     p: IndexParams, k: nat)
    requires IsOrder(order, levels) && EveryStepOk(steps, levels, top, order, p.hnsw, |levels|)
    requires |levels| > 0 && g == steps[|levels| - 1] && k < top && |g.upper| == top
    ensures forall id: nat :: id in g.upper[k] <==> id < |levels| && levels[id] >= k + 1
    ensures forall id, v :: id in g.upper[k] && v in g.upper[k][id] ==> v in g.upper[k]
  {
    UpperKeys(g, levels, top, order, steps, p.hnsw, k);
    hide GraphOk, Linked, IsOrder, EveryStepOk;
    forall id, v | id in g.upper[k] && v in g.upper[k][id]
      ensures v in g.upper[k]
    {
      BuiltGraph(g, levels, top, order, steps, p.hnsw, id);
      assert GoodList(g.upper[k][id], id, k + 1, levels, Range(|levels|), p.hnsw.maxUpper);
    }
  }

  lemma {:induction false} UpperKeys(g: Graph, levels: seq<nat>, top: nat, order: seq<nat>, steps: seq<Graph>,
                                     p: Params, k: nat)
    requires IsOrder(order, levels) && EveryStepOk(steps, levels, top, order, p, |levels|)
    requires |levels| > 0 && g == steps[|levels| - 1] && k < top
    ensures |g.upper| == top && forall id: nat :: id in g.upper[k] <==> id < |levels| && levels[id] >= k + 1
  {
    var n := |levels|;
    AllMembers(order, levels);
    assert order[..(n - 1) + 1] == order;
    assert GraphOk(g, levels, top, Range(n), p);
    assert LayerOk(g, levels, Range(n), k + 1, p);
    assert forall id: nat :: id in g.upper[k].Keys <==> id in AtLevel(levels, Range(n), k + 1);
  }
}
