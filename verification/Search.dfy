/** Layered search over the encrypted index: greedy descent through the cached upper layers,
    then a bounded best-first search whose every step reads one stored block. */
module Search {
  import opened Sums
  import opened Beam
  import opened Hnsw
  import opened Codec
  import opened Index

  /** Distance of the query to a node, as its stored block gives it. */
  function DistanceFrom(blocks: map<nat, seq<byte>>, p: IndexParams, m: Metric, query: Embedding): nat -> real {
    (id: nat) => if id in blocks then m.cosine(query, Decoded(blocks[id], p.dim, p.hnsw.maxL0).embedding) else 0.0
  }

  /** The neighbours of a node that are fetched for this query. */
  function FetchFrom(blocks: map<nat, seq<byte>>, hints: seq<seq<Hint>>, p: IndexParams, m: Metric,
                     query: Embedding): nat -> seq<nat> {
    (id: nat) =>
      if id in blocks && id < |hints| then
        var node := Decoded(blocks[id], p.dim, p.hnsw.maxL0);
        if |node.neighbors| == |hints[id]| then Fetched(node.neighbors, hints[id], query, node.embedding, p.efN, m)
            else []
      else []
  }

  /** Those readings agree with the corpus and the graph the index was built from. */
  lemma {:induction false} ReadsTrue(index: CompassIndex, query: Embedding, id: nat)
    requires index.Valid() && id < |index.corpus|
    ensures DistanceFrom(index.oram, index.p, index.m, query)(id) == index.m.cosine(query, index.corpus[id])
    ensures |index.graph.layer0[id]| == |index.layer0Hints[id]|
    ensures FetchFrom(index.oram, index.layer0Hints, index.p, index.m, query)(id)
         == Fetched(index.graph.layer0[id], index.layer0Hints[id], query, index.corpus[id], index.p.efN, index.m)
    ensures forall v :: v in FetchFrom(index.oram, index.layer0Hints, index.p, index.m, query)(id) ==>
              v < |index.corpus|
  {
    assert BlockOk(index.oram, index.corpus, index.graph, index.p, id) by {
      assert index.graph.layer0[id] == index.graph.layer0[id];
    }
    StoredNode(index.oram, index.corpus, index.graph, index.p, id);
    assert index.layer0Hints[id] == HintsOf(index.corpus, index.graph.layer0[id], id, index.m);
  }

  /** What the filter drops is aligned with the query no better than what it keeps: the hints compared are
      those of the two neighbours themselves. */
  lemma {:induction false} UnfetchedNoBetter(index: CompassIndex, query: Embedding, c: nat, u: nat, v: nat)
    requires index.Valid() && c < |index.corpus| && c < |index.graph.layer0| && u in index.graph.layer0[c]
    requires u !in FetchFrom(index.oram, index.layer0Hints, index.p, index.m, query)(c)
    requires v in FetchFrom(index.oram, index.layer0Hints, index.p, index.m, query)(c)
    ensures u < |index.corpus| && v < |index.corpus|
    ensures index.m.score(index.m.hint(index.corpus[c], index.corpus[u]), query, index.corpus[c])
         <= index.m.score(index.m.hint(index.corpus[c], index.corpus[v]), query, index.corpus[c])
  {
    ReadsTrue(index, query, c);
    DistinctList(index, c);
    var ns, hints := index.graph.layer0[c], index.layer0Hints[c];
    var i :| 0 <= i < |ns| && ns[i] == u;
    HintsAligned(index, c, i);
    assert forall j: nat | j < |ns| :: ns[j] < |index.corpus| && hints[j] == index.m.hint(index.corpus[c],
        index.corpus[ns[j]]) by {
      forall j: nat | j < |ns|
        ensures ns[j] < |index.corpus| && hints[j] == index.m.hint(index.corpus[c], index.corpus[ns[j]])
      {
        HintsAligned(index, c, j);
      }
    }
    hide *;
    FetchedBest(ns, hints, query, index.corpus[c], index.p.efN, index.m, i, v);
  }

  lemma {:induction false} DistinctList(index: CompassIndex, c: nat)
    requires index.Valid() && c < |index.corpus|
    ensures c < |index.graph.layer0| && Distinct(index.graph.layer0[c])
  {
    hide BlocksOk, CacheOk, Nested, HintsOf, GoodCorpus, Distinct;
  }

  // ─── descent ───

  function CachedKey(layer: map<nat, UpperNode>, toQuery: Embedding -> real): nat -> real {
    (id: nat) => if id in layer then toQuery(layer[id].embedding) else 0.0
  }

  ghost predicate LayerClosed(layer: map<nat, UpperNode>) {
    forall id, v :: id in layer && v in layer[id].neighbours ==> v in layer
  }

  /** A local minimum of a cached layer. */
  ghost predicate NoneCloser(layer: map<nat, UpperNode>, toQuery: Embedding -> real, current: nat) {
    current in layer && forall n :: n in layer[current].neighbours ==>
          CachedKey(layer, toQuery)(n) >= CachedKey(layer, toQuery)(current)
  }

  /** Greedy moves inside one cached layer, until no listed neighbour is closer. */
  method DescendLayer(layer: map<nat, UpperNode>, toQuery: Embedding -> real, start: nat, startDist: real)
    returns (current: nat, curDist: real)
    requires start in layer && LayerClosed(layer) && startDist == CachedKey(layer, toQuery)(start)
    ensures current in layer && curDist == CachedKey(layer, toQuery)(current) <= startDist
    ensures NoneCloser(layer, toQuery, current)
  {
    ghost var key := CachedKey(layer, toQuery);
    current, curDist := start, startDist;
    while true
      invariant current in layer && curDist == key(current) <= startDist
      decreases Closer(key, layer.Keys, curDist)
    {
      var nbrs := layer[current].neighbours;
      var improved := false;
      ghost var before, from := curDist, current;
      for i := 0 to |nbrs|
        invariant current in layer && curDist == key(current) <= before
        invariant improved <==> curDist < before
        invariant !improved ==> current == from && forall j :: 0 <= j < i ==> key(nbrs[j]) >= curDist
      {
        var n := nbrs[i];
        assert n in layer[from].neighbours;
        if n in layer {
          var d := toQuery(layer[n].embedding);
          if d < curDist {
            current, curDist := n, d;
            improved := true;
          }
        }
      }
      if !improved {
        return;
      }
      assert current in Closer(key, layer.Keys, before) && current !in Closer(key, layer.Keys, curDist);
    }
  }

  function ToQuery(m: Metric, query: Embedding): Embedding -> real {
    e => m.cosine(query, e)
  }

  /** The cache holds the corpus embeddings, and every neighbour it lists. */
  lemma {:induction false} CachedNodes(index: CompassIndex, query: Embedding, l: nat)
    requires index.Valid() && l < |index.upperLayers|
    ensures LayerClosed(index.upperLayers[l])
    ensures forall id :: id in index.upperLayers[l] ==>
              && id < |index.corpus|
              && CachedKey(index.upperLayers[l], ToQuery(index.m, query))(id) == index.m.cosine(query, index.corpus[id])
  {
    forall id | id in index.upperLayers[l]
      ensures id < |index.corpus| && index.upperLayers[l][id].embedding == index.corpus[id]
      ensures forall v :: v in index.upperLayers[l][id].neighbours ==> v in index.upperLayers[l]
    {
      assert index.upperLayers[l].Keys == index.graph.upper[l].Keys;
    }
  }

  /** A node of layer `l + 1` is on every layer below. */
  lemma {:induction false} LowerLayerHas(index: CompassIndex, l: nat, id: nat)
    requires index.Valid() && l + 1 < |index.upperLayers| && id in index.upperLayers[l + 1]
    ensures id in index.upperLayers[l]
  {
    assert index.upperLayers[l + 1].Keys <= index.upperLayers[l].Keys;
  }

  lemma {:induction false} EntryCached(index: CompassIndex)
    requires index.Valid()
    ensures |index.upperLayers| == index.topLayer && index.entry < |index.corpus| == |index.layer0Hints|
    ensures index.topLayer > 0 ==> index.entry in index.upperLayers[index.topLayer - 1]
    ensures |index.graph.layer0| == |index.corpus|
  {
  }

  lemma {:induction false} CachedIs(layer: map<nat, UpperNode>, toQuery: Embedding -> real, id: nat)
    requires id in layer
    ensures CachedKey(layer, toQuery)(id) == toQuery(layer[id].embedding)
  {
  }

  /** On cached layer `l`, at the distance recorded, no farther than the entry. */
  ghost predicate OnLayer(index: CompassIndex, query: Embedding, l: nat, current: nat, curDist: real)
    reads index
  {
    && l < |index.upperLayers| && current in index.upperLayers[l]
    && current < |index.corpus| && index.entry < |index.corpus|
    && curDist == index.m.cosine(query, index.corpus[current]) <= index.m.cosine(query, index.corpus[index.entry])
  }

  ghost predicate Minimum(index: CompassIndex, query: Embedding, l: nat, current: nat)
    reads index`upperLayers
  {
    l < |index.upperLayers| && NoneCloser(index.upperLayers[l], ToQuery(index.m, query), current)
  }

  method DescendOne(index: CompassIndex, query: Embedding, l: nat, start: nat, startDist: real)
    returns (current: nat, curDist: real)
    requires index.Valid() && OnLayer(index, query, l, start, startDist)
    ensures OnLayer(index, query, l, current, curDist) && Minimum(index, query, l, current)
  {
    CachedNodes(index, query, l);
    ghost var m, corpus, layer := index.m, index.corpus, index.upperLayers[l];
    hide LayerClosed, CachedKey, NoneCloser, CompassIndex.Valid;
    current, curDist := DescendLayer(index.upperLayers[l], ToQuery(index.m, query), start, startDist);
  }

  lemma {:induction false} NextLayer(index: CompassIndex, query: Embedding, l: nat, current: nat, curDist: real)
    requires index.Valid() && OnLayer(index, query, l + 1, current, curDist)
    ensures OnLayer(index, query, l, current, curDist)
  {
    LowerLayerHas(index, l, current);
  }

  method StartAtTop(index: CompassIndex, query: Embedding) returns (curDist: real)
    requires index.Valid() && index.topLayer > 0
    ensures OnLayer(index, query, index.topLayer - 1, index.entry, curDist)
  {
    EntryCached(index);
    var l := index.topLayer - 1;
    CachedNodes(index, query, l);
    CachedIs(index.upperLayers[l], ToQuery(index.m, query), index.entry);
    hide CompassIndex.Valid, CachedKey;
    curDist := index.m.cosine(query, index.upperLayers[l][index.entry].embedding);
  }

  /** Through every cached layer, top down: each endpoint starts the layer below. */
  method DescendUpper(index: CompassIndex, query: Embedding) returns (current: nat, curDist: real)
    requires index.Valid() && index.topLayer > 0
    ensures OnLayer(index, query, 0, current, curDist) && Minimum(index, query, 0, current)
  {
    hide *;
    current := index.entry;
    curDist := StartAtTop(index, query);
    var l := index.topLayer - 1;
    current, curDist := DescendOne(index, query, l, current, curDist);
    while l > 0
      invariant l >= 0 && OnLayer(index, query, l, current, curDist) && Minimum(index, query, l, current)
    {
      l := l - 1;
      NextLayer(index, query, l, current, curDist);
      current, curDist := DescendOne(index, query, l, current, curDist);
    }
  }

  lemma {:induction false} AtNode(index: CompassIndex, query: Embedding, current: nat, curDist: real)
    requires OnLayer(index, query, 0, current, curDist)
    ensures current < |index.corpus| && index.entry < |index.corpus|
    ensures curDist == index.m.cosine(query, index.corpus[current]) <= index.m.cosine(query, index.corpus[index.entry])
  {
  }

  /** The entry point of the encrypted layer: the end of the descent, or the entry itself, read once. */
  method Descend(index: CompassIndex, query: Embedding) returns (current: nat, curDist: real)
    requires index.Valid()
    modifies index`readCount
    ensures index.Valid() && index.entry < |index.corpus| && current < |index.corpus|
    ensures curDist == index.m.cosine(query, index.corpus[current]) <= index.m.cosine(query, index.corpus[index.entry])
    ensures if index.topLayer == 0 then current == index.entry else Minimum(index, query, 0, current)
    ensures index.readCount == old(index.readCount) + if index.topLayer == 0 then 1 else 0
  {
    hide *;
    EntryCached(index);
    if index.topLayer == 0 {
      current := index.entry;
      var node := index.ReadLayer0Node(current);
      curDist := index.m.cosine(query, node.embedding);
    } else {
      current, curDist := DescendUpper(index, query);
      AtNode(index, query, current, curDist);
    }
  }

  // ─── the search at layer 0 ───

  /** Between two states of the search: whatever is newly waiting was newly seen, and whatever is
      newly a result is waiting. */
  ghost predicate Grown(visited: set<nat>, candidates: set<nat>, top: set<nat>, visited': set<nat>,
                        candidates': set<nat>, top': set<nat>) {
    && visited <= visited' && candidates <= candidates' <= candidates + (visited' - visited)
    && top' <= top + candidates'
  }

  lemma {:induction false} NotGrown(visited: set<nat>, candidates: set<nat>, top: set<nat>)
    ensures Grown(visited, candidates, top, visited, candidates, top)
  {
  }

  lemma {:induction false} GrownByOne(visited: set<nat>, candidates: set<nat>, top: set<nat>, n: nat,
                                      candidates': set<nat>, top': set<nat>)
    requires n !in visited && candidates <= candidates' <= candidates + {n} && top' <= top + candidates'
    ensures Grown(visited, candidates, top, visited + {n}, candidates', top')
  {
  }

  lemma {:induction false} GrownTwice(v0: set<nat>, c0: set<nat>, t0: set<nat>, v1: set<nat>, c1: set<nat>,
                                      t1: set<nat>, v2: set<nat>, c2: set<nat>, t2: set<nat>)
    requires Grown(v0, c0, t0, v1, c1, t1) && Grown(v1, c1, t1, v2, c2, t2)
    ensures Grown(v0, c0, t0, v2, c2, t2)
  {
  }

  /** One fetched neighbour: skipped if seen, otherwise read and offered to the heaps. */
  method VisitOne(index: CompassIndex, query: Embedding, key: nat -> real, ghost nbr: nat -> seq<nat>, n: nat,
                  ghost all: set<nat>, ghost starts: set<nat>, ef: nat, ghost c: nat, visited: set<nat>,
                  candidates: set<nat>, top: set<nat>)
    returns (visited': set<nat>, candidates': set<nat>, top': set<nat>)
    requires index.Valid() && n < |index.corpus| && n in all && n in nbr(c)
    requires key(n) == index.m.cosine(query, index.corpus[n])
    requires Searching(key, nbr, all, starts, ef, visited, candidates, top) && c in visited && top != {}
    requires Pending(nbr, all, visited, candidates, top, c)
    modifies index`readCount
    ensures Searching(key, nbr, all, starts, ef, visited', candidates', top') && top' != {}
    ensures Pending(nbr, all, visited', candidates', top', c)
    ensures visited' == visited + {n} && (n in visited ==> candidates' == candidates)
    ensures Grown(visited, candidates, top, visited', candidates', top')
    ensures index.readCount == old(index.readCount) + |visited'| - |visited|
  {
    hide *;
    if n in visited {
      assert visited + {n} == visited;
      NotGrown(visited, candidates, top);
      return visited, candidates, top;
    }
    var node := index.ReadLayer0Node(n);
    assert index.m.cosine(query, node.embedding) == key(n);
    ReachNeighbour(key, nbr, all, starts, ef, visited, candidates, top, c, n);
    candidates', top' := Offer(key, nbr, all, starts, ef, visited, candidates, top, n, c);
    visited' := visited + {n};
    GrownByOne(visited, candidates, top, n, candidates', top');
  }

  lemma {:induction false} MembersOfNone(s: seq<nat>)
    ensures Members(s[..0]) == {}
  {
  }

  lemma {:induction false} OneMoreMember(s: seq<nat>, i: nat)
    requires i < |s|
    ensures Members(s[..i + 1]) == Members(s[..i]) + {s[i]}
  {
  }

  lemma {:induction false} AllMembersSeen(s: seq<nat>, visited: set<nat>, visited': set<nat>)
    requires visited' == visited + Members(s)
    ensures forall j :: 0 <= j < |s| ==> s[j] in visited'
  {
  }

  /** Every fetched neighbour of an expanded node. */
  method VisitNeighbours(index: CompassIndex, query: Embedding, key: nat -> real, ghost nbr: nat -> seq<nat>,
                         fetched: seq<nat>, ghost all: set<nat>, ghost starts: set<nat>, ef: nat, c: nat,
                         visited: set<nat>, candidates: set<nat>, top: set<nat>)
    returns (visited': set<nat>, candidates': set<nat>, top': set<nat>)
    requires index.Valid() && fetched == nbr(c)
    requires forall v :: v in fetched ==>
               v < |index.corpus| && v in all && key(v) == index.m.cosine(query, index.corpus[v])
    requires Searching(key, nbr, all, starts, ef, visited, candidates, top) && c in visited && top != {}
    requires Pending(nbr, all, visited, candidates, top, c)
    modifies index`readCount
    ensures Searching(key, nbr, all, starts, ef, visited', candidates', top') && top' != {}
    ensures visited <= visited' && (visited' == visited ==> candidates' == candidates)
    ensures forall u :: u in top' ==> u in candidates' || Expanded(nbr, all, visited', u)
    ensures visited' == visited + Members(nbr(c)) && Grown(visited, candidates, top, visited', candidates', top')
    ensures index.readCount == old(index.readCount) + |visited'| - |visited|
  {
    visited', candidates', top' := visited, candidates, top;
    hide *;
    NotGrown(visited, candidates, top);
    MembersOfNone(fetched);
    for i := 0 to |fetched|
      invariant Searching(key, nbr, all, starts, ef, visited', candidates', top') && top' != {}
      invariant Pending(nbr, all, visited', candidates', top', c)
      invariant visited <= visited' && (visited' == visited ==> candidates' == candidates)
      invariant visited' == visited + Members(fetched[..i])
      invariant Grown(visited, candidates, top, visited', candidates', top')
      invariant index.readCount == old(index.readCount) + |visited'| - |visited|
    {
      var n := fetched[i];
      assert n in fetched;
      ghost var v0, c0, t0 := visited', candidates', top';
      visited', candidates',
          top' := VisitOne(index, query, key, nbr, n, all, starts, ef, c, visited', candidates', top');
      GrownTwice(visited, candidates, top, v0, c0, t0, visited', candidates', top');
      OneMoreMember(fetched, i);
    }
    assert fetched[..|fetched|] == fetched;
    AllMembersSeen(fetched, visited, visited');
    ExpandedNow(nbr, all, visited', candidates', top', c);
  }

  // ─── the answer ───

  ghost predicate Nearest(key: nat -> real, ids: seq<nat>, pool: set<nat>, k: nat) {
    && Distinct(ids) && |ids| == Least(k, |pool|)
    && (forall v :: v in ids ==> v in pool)
    && (forall i, j :: 0 <= i < j < |ids| ==> Before(key, ids[i], ids[j]))
    && forall v, t :: v in pool && v !in ids && t in ids ==> key(t) <= key(v)
  }

  /** The first `k` of a result heap in order of distance, ties by id. */
  method TakeNearest(key: nat -> real, top: set<nat>, k: nat) returns (ids: seq<nat>)
    ensures Nearest(key, ids, top, k)
  {
    ids := [];
    var rest := top;
    while rest != {} && |ids| < k
      invariant rest <= top && |ids| <= k && |rest| + |ids| == |top|
      invariant forall v :: v in top <==> v in rest || v in ids
      invariant forall v :: v in ids ==> v !in rest
      invariant Distinct(ids)
      invariant forall i, j :: 0 <= i < j < |ids| ==> Before(key, ids[i], ids[j])
      invariant forall v, i :: v in rest && 0 <= i < |ids| ==> Before(key, ids[i], v)
      decreases |rest|
    {
      var x := PeekMin(key, rest);
      ids := ids + [x];
      rest := rest - {x};
    }
    forall v, t | v in top && v !in ids && t in ids
      ensures key(t) <= key(v)
    {
      var i :| 0 <= i < |ids| && ids[i] == t;
      assert Before(key, ids[i], v);
    }
  }

  /** The nearest of a best-so-far heap are the nearest of everything seen. */
  lemma {:induction false} NearestSeen(key: nat -> real, ids: seq<nat>, top: set<nat>, visited: set<nat>, k: nat,
                                       ef: nat)
    requires Nearest(key, ids, top, k) && BestOf(key, top, visited)
    requires |top| == Least(|visited|, Greatest(ef, 1)) && ef >= k
    ensures Nearest(key, ids, visited, k)
  {
  }

  /** Replacing neighbour lists by equal ones does not change what is reachable. */
  lemma {:induction false} SameReach(f: nat -> seq<nat>, g: nat -> seq<nat>, all: set<nat>, starts: set<nat>, v: nat,
                                     steps: nat)
    requires starts <= all && forall u :: u in all ==> f(u) == g(u)
    requires Reach(f, all, starts, v, steps)
    ensures v in all && Reach(g, all, starts, v, steps)
    decreases steps
  {
    if steps > 0 {
      var u :| Reach(f, all, starts, u, steps - 1) && v in f(u) && v in all;
      SameReach(f, g, all, starts, u, steps - 1);
    }
  }

  /** With a beam for every node and no filtering, everything reachable has been seen. */
  lemma {:induction false} SeesAll(key: nat -> real, nbr: nat -> seq<nat>, full: nat -> seq<nat>, n: nat, start: nat,
                                   ef: nat, visited: set<nat>, top: set<nat>)
    requires SearchResult(key, nbr, Range(n), {start}, ef, visited, top) && ef >= n
    requires start < n && forall u :: u in Range(n) ==> nbr(u) == full(u)
    ensures forall v :: v in visited <==> Reachable(full, Range(n), {start}, v)
  {
    RangeSize(n);
    WideSearch(key, nbr, Range(n), {start}, ef, visited, top);
    forall v | v in visited
      ensures Reachable(full, Range(n), {start}, v)
    {
      var steps: nat :| Reach(nbr, Range(n), {start}, v, steps);
      SameReach(nbr, full, Range(n), {start}, v, steps);
    }
    forall v | Reachable(full, Range(n), {start}, v)
      ensures v in visited
    {
      var steps: nat :| Reach(full, Range(n), {start}, v, steps);
      SameReach(full, nbr, Range(n), {start}, v, steps);
    }
  }

  /** Both heaps and the visited set start with the descent's endpoint. */
  lemma {:induction false} OneStart(key: nat -> real, nbr: nat -> seq<nat>, all: set<nat>, start: nat, ef: nat)
    requires exists n :: all == Range(n) && start < n
    ensures Searching(key, nbr, all, {start}, ef, {start}, {start}, {start})
  {
    Seeded(key, nbr, all, {start}, ef);
  }

  /** Reads a node and picks the neighbours to fetch. */
  method NeighboursToFetch(index: CompassIndex, query: Embedding, c: nat) returns (fetched: seq<nat>)
    requires index.Valid() && c < |index.corpus|
    modifies index`readCount
    ensures fetched == FetchFrom(index.oram, index.layer0Hints, index.p, index.m, query)(c)
    ensures index.readCount == old(index.readCount) + 1
  {
    EntryCached(index);
    ReadsTrue(index, query, c);
    hide *;
    var node := index.ReadLayer0Node(c);
    fetched := Fetched(node.neighbors, index.layer0Hints[c], query, node.embedding, index.p.efN, index.m);
  }

  lemma {:induction false} FetchedInRange(index: CompassIndex, query: Embedding, key: nat -> real, nbr: nat -> seq<nat>,
                                          c: nat)
    requires index.Valid() && c < |index.corpus|
    requires key == DistanceFrom(index.oram, index.p, index.m, query)
    requires nbr == FetchFrom(index.oram, index.layer0Hints, index.p, index.m, query)
    ensures forall v :: v in nbr(c) ==>
              v < |index.corpus| && v in Range(|index.corpus|) && key(v) == index.m.cosine(query, index.corpus[v])
  {
    ReadsTrue(index, query, c);
    forall v | v in nbr(c)
      ensures v < |index.corpus| && v in Range(|index.corpus|) && key(v) == index.m.cosine(query, index.corpus[v])
    {
      ReadsTrue(index, query, v);
    }
  }

  /** Every neighbour fetched from an expanded node has been seen. */
  ghost predicate FetchedAll(nbr: nat -> seq<nat>, expanded: set<nat>, visited: set<nat>) {
    forall u, v {:trigger v in nbr(u)} :: u in expanded && v in nbr(u) ==> v in visited
  }

  ghost predicate FetchedFrom(nbr: nat -> seq<nat>, expanded: set<nat>, v: nat) {
    exists u :: u in expanded && v in nbr(u)
  }

  /** The nodes expanded so far, each once. What has been seen is the start and every neighbour
      fetched from one of them, and every result has been expanded or is waiting. */
  ghost predicate ExpandedOf(nbr: nat -> seq<nat>, start: nat, visited: set<nat>, candidates: set<nat>, top: set<nat>,
                           expanded: set<nat>) {
    && expanded <= visited && expanded !! candidates && top <= expanded + candidates
    && FetchedAll(nbr, expanded, visited)
    && start in visited
    && (forall v {:trigger v in visited} | v in visited :: v == start || FetchedFrom(nbr, expanded, v))
    && (start in expanded || candidates == top == {start})
  }

  lemma {:induction false} NoneExpanded(nbr: nat -> seq<nat>, start: nat)
    ensures ExpandedOf(nbr, start, {start}, {start}, {start}, {})
  {
  }

  /** Nothing that still waits behind the farthest result is a result. */
  lemma {:induction false} NoneWaiting(key: nat -> real, nbr: nat -> seq<nat>, start: nat, visited: set<nat>,
                                       candidates: set<nat>, top: set<nat>, expanded: set<nat>, c: nat, farthest: nat)
    requires ExpandedOf(nbr, start, visited, candidates, top, expanded)
    requires IsMin(key, candidates, c) && IsMax(key, top, farthest) && key(c) > key(farthest)
    ensures ExpandedOf(nbr, start, visited, {}, top, expanded)
  {
    forall t | t in top
      ensures t !in candidates
    {
    }
  }

  /** The popped node was waiting, so it had not been expanded before. */
  lemma {:induction false} ExpandOne(key: nat -> real, nbr: nat -> seq<nat>, start: nat, visited: set<nat>,
                                   candidates: set<nat>, top: set<nat>, expanded: set<nat>, c: nat, visited': set<nat>,
                                   candidates': set<nat>, top': set<nat>)
    requires ExpandedOf(nbr, start, visited, candidates, top, expanded) && c in candidates && c in visited
    requires visited' == visited + Members(nbr(c))
    requires Grown(visited, candidates - {c}, top, visited', candidates', top')
    ensures ExpandedOf(nbr, start, visited', candidates', top', expanded + {c})
    ensures |expanded + {c}| == |expanded| + 1
  {
    var now := expanded + {c};
    forall v | v in visited'
      ensures v == start || FetchedFrom(nbr, now, v)
    {
      if v in visited && v != start {
        var u :| u in expanded && v in nbr(u);
        assert u in now && v in nbr(u);
      } else if v !in visited {
        assert c in now && v in nbr(c);
      }
    }
  }

  /** The bounded best-first search from one node, every node and neighbour read from its block. */
  method SearchLayer0(index: CompassIndex, query: Embedding, start: nat, ef: nat)
    returns (top: set<nat>, ghost visited: set<nat>, ghost expanded: set<nat>)
    requires index.Valid() && start < |index.corpus|
    modifies index`readCount
    ensures SearchResult(DistanceFrom(index.oram, index.p, index.m, query),
                         FetchFrom(index.oram, index.layer0Hints, index.p, index.m, query),
                         Range(|index.corpus|), {start}, ef, visited, top)
    ensures ExpandedOf(FetchFrom(index.oram, index.layer0Hints, index.p, index.m, query), start, visited, {}, top,
                       expanded)
    ensures index.readCount == old(index.readCount) + |expanded| + |visited| - 1
  {
    hide *;
    var key := DistanceFrom(index.oram, index.p, index.m, query);
    top, visited, expanded := Layer0Loop(index, query, start, ef, key,
                               FetchFrom(index.oram, index.layer0Hints, index.p, index.m, query),
                                   Range(|index.corpus|));
  }

  method Layer0Loop(index: CompassIndex, query: Embedding, start: nat, ef: nat, key: nat -> real,
                    ghost nbr: nat -> seq<nat>, ghost all: set<nat>)
    returns (top: set<nat>, ghost visited: set<nat>, ghost expanded: set<nat>)
    requires index.Valid() && start < |index.corpus| && all == Range(|index.corpus|)
    requires key == DistanceFrom(index.oram, index.p, index.m, query)
    requires nbr == FetchFrom(index.oram, index.layer0Hints, index.p, index.m, query)
    modifies index`readCount
    ensures SearchResult(key, nbr, all, {start}, ef, visited, top)
    ensures ExpandedOf(nbr, start, visited, {}, top, expanded)
    ensures index.readCount == old(index.readCount) + |expanded| + |visited| - 1
  {
    hide *;
    var seen, candidates := {start}, {start};
    top, expanded := {start}, {};
    LoopStarts(key, nbr, all, start, ef);
    while candidates != {}
      invariant InLoop(key, nbr, all, start, ef, seen, candidates, top, expanded)
      invariant index.readCount == old(index.readCount) + |expanded| + |seen| - 1
      decreases all - seen, |candidates|
    {
      var c := PeekMin(key, candidates);
      if |top| >= ef {
        ResultsKept(key, nbr, all, start, ef, seen, candidates, top, expanded);
        var farthest := PeekMax(key, top);
        if key(c) > key(farthest) {
          LoopBroken(key, nbr, all, start, ef, seen, candidates, top, expanded, c, farthest);
          return top, seen, expanded;
        }
      }
      seen, candidates, top, expanded := LoopTurn(index, query, start, ef, key, nbr, all, c, seen, candidates, top,
                                                  expanded);
    }
    visited := seen;
    LoopEnds(key, nbr, all, start, ef, seen, top, expanded);
  }

  /** What holds whenever the loop looks at its candidates. */
  ghost predicate InLoop(key: nat -> real, nbr: nat -> seq<nat>, all: set<nat>, start: nat, ef: nat, seen: set<nat>,
                         candidates: set<nat>, top: set<nat>, expanded: set<nat>) {
    && Searching(key, nbr, all, {start}, ef, seen, candidates, top) && top != {}
    && (forall u :: u in top ==> u in candidates || Expanded(nbr, all, seen, u))
    && ExpandedOf(nbr, start, seen, candidates, top, expanded)
  }

  lemma {:induction false} LoopStarts(key: nat -> real, nbr: nat -> seq<nat>, all: set<nat>, start: nat, ef: nat)
    requires exists n :: all == Range(n) && start < n
    ensures InLoop(key, nbr, all, start, ef, {start}, {start}, {start}, {})
  {
    OneStart(key, nbr, all, start, ef);
    NoneExpanded(nbr, start);
  }

  lemma {:induction false} ResultsKept(key: nat -> real, nbr: nat -> seq<nat>, all: set<nat>, start: nat, ef: nat,
                                       seen: set<nat>, candidates: set<nat>, top: set<nat>, expanded: set<nat>)
    requires InLoop(key, nbr, all, start, ef, seen, candidates, top, expanded)
    ensures top != {}
  {
  }

  lemma {:induction false} LoopBroken(key: nat -> real, nbr: nat -> seq<nat>, all: set<nat>, start: nat, ef: nat,
                                      seen: set<nat>, candidates: set<nat>, top: set<nat>, expanded: set<nat>, c: nat,
                                      farthest: nat)
    requires InLoop(key, nbr, all, start, ef, seen, candidates, top, expanded)
    requires IsMin(key, candidates, c) && IsMax(key, top, farthest) && key(c) > key(farthest)
    ensures SearchResult(key, nbr, all, {start}, ef, seen, top) && ExpandedOf(nbr, start, seen, {}, top, expanded)
  {
    hide Searching, ExpandedOf, Expanded, IsMin, IsMax;
    NothingCloser(key, nbr, all, seen, candidates, top, c, farthest);
    NoneWaiting(key, nbr, start, seen, candidates, top, expanded, c, farthest);
    Finished(key, nbr, all, {start}, ef, seen, candidates, top);
  }

  lemma {:induction false} LoopEnds(key: nat -> real, nbr: nat -> seq<nat>, all: set<nat>, start: nat, ef: nat,
                                    seen: set<nat>, top: set<nat>, expanded: set<nat>)
    requires InLoop(key, nbr, all, start, ef, seen, {}, top, expanded)
    ensures SearchResult(key, nbr, all, {start}, ef, seen, top) && ExpandedOf(nbr, start, seen, {}, top, expanded)
  {
    hide Searching, ExpandedOf, Expanded;
    Finished(key, nbr, all, {start}, ef, seen, {}, top);
  }

  /** One turn: the closest candidate leaves the heap and is expanded. */
  method LoopTurn(index: CompassIndex, query: Embedding, ghost start: nat, ef: nat, key: nat -> real,
                  ghost nbr: nat -> seq<nat>, ghost all: set<nat>, c: nat, seen: set<nat>, candidates: set<nat>,
                  top: set<nat>, ghost expanded: set<nat>)
    returns (seen': set<nat>, candidates': set<nat>, top': set<nat>, ghost expanded': set<nat>)
    requires index.Valid() && all == Range(|index.corpus|)
    requires key == DistanceFrom(index.oram, index.p, index.m, query)
    requires nbr == FetchFrom(index.oram, index.layer0Hints, index.p, index.m, query)
    requires InLoop(key, nbr, all, start, ef, seen, candidates, top, expanded) && IsMin(key, candidates, c)
    modifies index`readCount
    ensures InLoop(key, nbr, all, start, ef, seen', candidates', top', expanded') && expanded' == expanded + {c}
    ensures index.readCount - old(index.readCount) == |expanded'| - |expanded| + |seen'| - |seen|
    ensures all - seen' < all - seen || (seen' == seen && |candidates'| < |candidates|)
  {
    hide *;
    ghost var starts := {start};
    LoopPops(key, nbr, |index.corpus|, start, ef, seen, candidates, top, expanded, c);
    FetchedInRange(index, query, key, nbr, c);
    seen', candidates', top' := ExpandNode(index, query, key, nbr, all, starts, ef, c, seen, candidates - {c}, top);
    expanded' := expanded + {c};
    LoopGoesOn(key, nbr, all, start, ef, seen, candidates, top, expanded, c, seen', candidates', top');
  }

  lemma {:induction false} LoopPops(key: nat -> real, nbr: nat -> seq<nat>, n: nat, start: nat, ef: nat,
                                    seen: set<nat>, candidates: set<nat>, top: set<nat>, expanded: set<nat>, c: nat)
    requires InLoop(key, nbr, Range(n), start, ef, seen, candidates, top, expanded) && IsMin(key, candidates, c)
    ensures c < n && c in seen && top != {}
    ensures Searching(key, nbr, Range(n), {start}, ef, seen, candidates - {c}, top)
    ensures Pending(nbr, Range(n), seen, candidates - {c}, top, c)
  {
    hide Searching, ExpandedOf, Expanded, IsMin;
    Popped(key, nbr, Range(n), {start}, ef, seen, candidates, top, c);
    SeenInRange(key, nbr, n, {start}, ef, seen, candidates, top, c);
  }

  lemma {:induction false} LoopGoesOn(key: nat -> real, nbr: nat -> seq<nat>, all: set<nat>, start: nat, ef: nat,
                                      seen: set<nat>, candidates: set<nat>, top: set<nat>, expanded: set<nat>, c: nat,
                                      seen': set<nat>, candidates': set<nat>, top': set<nat>)
    requires InLoop(key, nbr, all, start, ef, seen, candidates, top, expanded) && IsMin(key, candidates, c)
    requires c in seen && seen' == seen + Members(nbr(c)) && (seen' == seen ==> candidates' == candidates - {c})
    requires Searching(key, nbr, all, {start}, ef, seen', candidates', top') && top' != {}
    requires forall u :: u in top' ==> u in candidates' || Expanded(nbr, all, seen', u)
    requires Grown(seen, candidates - {c}, top, seen', candidates', top')
    ensures InLoop(key, nbr, all, start, ef, seen', candidates', top', expanded + {c})
    ensures |expanded + {c}| == |expanded| + 1
    ensures all - seen' < all - seen || (seen' == seen && |candidates'| < |candidates|)
  {
    assert c in candidates;
    hide Searching, ExpandedOf, Expanded, IsMin, Grown;
    ExpandOne(key, nbr, start, seen, candidates, top, expanded, c, seen', candidates', top');
    Shrinks(key, nbr, all, {start}, ef, seen, seen', candidates', top');
  }

  /** One popped candidate: read it, pick its neighbours, read and offer the new ones. */
  method ExpandNode(index: CompassIndex, query: Embedding, key: nat -> real, ghost nbr: nat -> seq<nat>,
                    ghost all: set<nat>, ghost starts: set<nat>, ef: nat, c: nat, visited: set<nat>,
                    candidates: set<nat>, top: set<nat>)
    returns (visited': set<nat>, candidates': set<nat>, top': set<nat>)
    requires index.Valid() && c < |index.corpus|
    requires nbr == FetchFrom(index.oram, index.layer0Hints, index.p, index.m, query)
    requires forall v :: v in nbr(c) ==>
               v < |index.corpus| && v in all && key(v) == index.m.cosine(query, index.corpus[v])
    requires Searching(key, nbr, all, starts, ef, visited, candidates, top) && c in visited && top != {}
    requires Pending(nbr, all, visited, candidates, top, c)
    modifies index`readCount
    ensures Searching(key, nbr, all, starts, ef, visited', candidates', top') && top' != {}
    ensures visited <= visited' && (visited' == visited ==> candidates' == candidates)
    ensures forall u :: u in top' ==> u in candidates' || Expanded(nbr, all, visited', u)
    ensures visited' == visited + Members(nbr(c)) && Grown(visited, candidates, top, visited', candidates', top')
    ensures index.readCount == old(index.readCount) + 1 + |visited'| - |visited|
  {
    hide *;
    var fetched := NeighboursToFetch(index, query, c);
    visited', candidates',
        top' := VisitNeighbours(index, query, key, nbr, fetched, all, starts, ef, c, visited, candidates, top);
  }

  lemma {:induction false} SeenInRange(key: nat -> real, nbr: nat -> seq<nat>, n: nat, starts: set<nat>, ef: nat,
                                       visited: set<nat>, candidates: set<nat>, top: set<nat>, c: nat)
    requires Searching(key, nbr, Range(n), starts, ef, visited, candidates, top) && IsMin(key, candidates, c)
    ensures c < n
  {
  }

  // ─── how many blocks are read ───

  /** Between one and two reads for every node seen: the results at least are expanded, and every
      node seen when the results have room for all of them. */
  lemma {:induction false} ReadBounds(key: nat -> real, nbr: nat -> seq<nat>, all: set<nat>, start: nat, ef: nat,
                                      visited: set<nat>, top: set<nat>, expanded: set<nat>)
    requires SearchResult(key, nbr, all, {start}, ef, visited, top)
    requires ExpandedOf(nbr, start, visited, {}, top, expanded)
    ensures 1 <= |top| <= |expanded| <= |visited|
    ensures |visited| <= Greatest(ef, 1) ==> expanded == visited
  {
    SubsetSize({start}, visited);
    SubsetSize(top, expanded);
    SubsetSize(expanded, visited);
    if |visited| <= Greatest(ef, 1) {
      AllSeen(top, visited);
    }
  }

  lemma {:induction false} MembersBound(s: seq<nat>)
    ensures |Members(s)| <= |s|
  {
    if s != [] {
      var rest := s[..|s| - 1];
      MembersBound(rest);
      assert Members(s) == Members(rest) + {s[|s| - 1]};
    }
  }

  /** The nodes that are not in one list are in the others. */
  lemma {:induction false} OtherLists(nbr: nat -> seq<nat>, lists: set<nat>, u: nat, vs: set<nat>)
    requires u in lists && forall v {:trigger v in vs} | v in vs :: FetchedFrom(nbr, lists, v)
    ensures forall v {:trigger v in vs - Members(nbr(u))} | v in vs - Members(nbr(u)) ::
              FetchedFrom(nbr, lists - {u}, v)
  {
    forall v | v in vs - Members(nbr(u))
      ensures FetchedFrom(nbr, lists - {u}, v)
    {
      assert v in vs;
      var w :| w in lists && v in nbr(w);
      assert w in lists - {u} && v in nbr(w);
    }
  }

  lemma {:induction false} OneList(s: seq<nat>, vs: set<nat>)
    ensures |vs| <= |vs - Members(s)| + |s|
  {
    var here := vs * Members(s);
    MembersBound(s);
    SubsetSize(here, Members(s));
    assert vs == (vs - Members(s)) + here;
  }

  lemma {:induction false} NoLists(nbr: nat -> seq<nat>, vs: set<nat>)
    requires forall v {:trigger v in vs} | v in vs :: FetchedFrom(nbr, {}, v)
    ensures vs == {}
  {
  }

  /** Nodes each of which is in one of some lists of at most `b` entries. */
  lemma {:induction false} ListsBound(nbr: nat -> seq<nat>, lists: set<nat>, b: nat, vs: set<nat>)
    requires forall u {:trigger nbr(u)} :: u in lists ==> |nbr(u)| <= b
    requires forall v {:trigger v in vs} | v in vs :: FetchedFrom(nbr, lists, v)
    ensures |vs| <= b * |lists|
  {
    hide *;
    if lists == {} {
      NoLists(nbr, vs);
    } else {
      var u :| u in lists;
      var rest := lists - {u};
      OtherLists(nbr, lists, u, vs);
      OneList(nbr(u), vs);
      ListsBound(nbr, rest, b, vs - Members(nbr(u)));
      OneListMore(b, |rest|, |lists|);
    }
  }

  lemma {:induction false} OneListMore(b: nat, x: nat, y: nat)
    requires y == x + 1
    ensures b * y == b * x + b
  {
  }

  lemma {:induction false} FetchBudget(index: CompassIndex, query: Embedding, u: nat)
    requires index.Valid() && u in Range(|index.corpus|)
    ensures |FetchFrom(index.oram, index.layer0Hints, index.p, index.m, query)(u)| <= index.p.efN
  {
    assert u < |index.corpus|;
    ReadsTrue(index, query, u);
    hide *;
  }

  lemma {:induction false} ExpansionCost(nbr: nat -> seq<nat>, start: nat, visited: set<nat>, top: set<nat>,
                                         expanded: set<nat>, b: nat)
    requires ExpandedOf(nbr, start, visited, {}, top, expanded)
    requires forall u {:trigger nbr(u)} :: u in expanded ==> |nbr(u)| <= b
    ensures |expanded| + |visited| - 1 <= (1 + b) * |expanded|
  {
    var fetched := visited - {start};
    assert visited == fetched + {start};
    assert forall v {:trigger v in fetched} | v in fetched :: v in visited && FetchedFrom(nbr, expanded, v);
    hide *;
    ListsBound(nbr, expanded, b, fetched);
    ReadsPerNode(b, |expanded|, |fetched|, |visited|);
  }

  lemma {:induction false} FetchBudgets(index: CompassIndex, query: Embedding, us: set<nat>)
    requires index.Valid() && us <= Range(|index.corpus|)
    ensures var nbr := FetchFrom(index.oram, index.layer0Hints, index.p, index.m, query);
            forall u {:trigger nbr(u)} :: u in us ==> |nbr(u)| <= index.p.efN
  {
    hide *;
    forall u | u in us
      ensures |FetchFrom(index.oram, index.layer0Hints, index.p, index.m, query)(u)| <= index.p.efN
    {
      FetchBudget(index, query, u);
    }
  }

  lemma {:induction false} ExpandedSeen(nbr: nat -> seq<nat>, start: nat, visited: set<nat>, top: set<nat>,
                                        expanded: set<nat>)
    requires ExpandedOf(nbr, start, visited, {}, top, expanded)
    ensures expanded <= visited
  {
  }

  /** What the directional filter is for: a node expanded costs at most `1 + ef_n` reads. */
  lemma {:induction false} FilteredReads(index: CompassIndex, query: Embedding, start: nat, visited: set<nat>,
                                         top: set<nat>, expanded: set<nat>)
    requires index.Valid() && visited <= Range(|index.corpus|)
    requires ExpandedOf(FetchFrom(index.oram, index.layer0Hints, index.p, index.m, query), start, visited, {}, top,
                        expanded)
    ensures |expanded| + |visited| - 1 <= (1 + index.p.efN) * |expanded|
  {
    hide *;
    var nbr := FetchFrom(index.oram, index.layer0Hints, index.p, index.m, query);
    ExpandedSeen(nbr, start, visited, top, expanded);
    FetchBudgets(index, query, expanded);
    ExpansionCost(nbr, start, visited, top, expanded, index.p.efN);
  }

  lemma {:induction false} ReadsPerNode(b: nat, x: nat, y: nat, z: nat)
    requires y <= b * x && z == y + 1
    ensures x + z - 1 <= (1 + b) * x
  {
  }

  lemma {:induction false} AnsweredBy(key: nat -> real, nbr: nat -> seq<nat>, n: nat, start: nat, k: nat, efSearch: nat,
                                      visited: set<nat>, top: set<nat>, ids: seq<nat>)
    requires SearchResult(key, nbr, Range(n), {start}, Greatest(efSearch, k), visited, top) && Nearest(key, ids, top, k)
    ensures Nearest(key, ids, visited, k) && start in visited
    ensures forall v :: v in visited ==> v in Range(n) && Reachable(nbr, Range(n), {start}, v)
  {
    hide Nearest, Reachable;
    NearestSeen(key, ids, top, visited, k, Greatest(efSearch, k));
  }

  /** With room for every neighbour in the fetch budget, the whole list is fetched. */
  lemma {:induction false} Unfiltered(index: CompassIndex, query: Embedding)
    requires index.Valid() && index.p.efN >= index.p.hnsw.maxL0
    ensures forall u :: u in Range(|index.corpus|) ==>
              FetchFrom(index.oram, index.layer0Hints, index.p, index.m, query)(u) == LayerNeighbours(index.graph, 0)(u)
  {
    forall u | u in Range(|index.corpus|)
      ensures FetchFrom(index.oram, index.layer0Hints, index.p, index.m, query)(u) == LayerNeighbours(index.graph, 0)(u)
    {
      ReadsTrue(index, query, u);
      assert |index.graph.layer0[u]| <= index.p.hnsw.maxL0;
    }
  }

  /** What a query returns: the `k` nearest of the nodes visited, in order; all of them reachable
      over the fetched neighbours, and everything reachable over the `full` lists when the
      beam is `wide` enough for every node. */
  ghost predicate Answer(key: nat -> real, nbr: nat -> seq<nat>, full: nat -> seq<nat>, n: nat, k: nat, wide: bool,
                         ids: seq<nat>, start: nat, visited: set<nat>) {
    && Nearest(key, ids, visited, k)
    && start in visited
    && (forall v :: v in visited ==> v in Range(n) && Reachable(nbr, Range(n), {start}, v))
    && (wide ==> forall v :: v in visited <==> Reachable(full, Range(n), {start}, v))
  }

  lemma {:induction false} Answered(key: nat -> real, nbr: nat -> seq<nat>, full: nat -> seq<nat>, n: nat, k: nat,
                                    efSearch: nat, wide: bool, ids: seq<nat>, start: nat, visited: set<nat>,
                                    top: set<nat>)
    requires start < n && SearchResult(key, nbr, Range(n), {start}, Greatest(efSearch, k), visited, top)
             && Nearest(key, ids, top, k)
    requires wide ==> Greatest(efSearch, k) >= n && forall u :: u in Range(n) ==> nbr(u) == full(u)
    ensures Answer(key, nbr, full, n, k, wide, ids, start, visited)
  {
    AnsweredBy(key, nbr, n, start, k, efSearch, visited, top, ids);
    if wide {
      SeesAll(key, nbr, full, n, start, Greatest(efSearch, k), visited, top);
    }
    hide Nearest, Reachable, SearchResult;
  }

  /** The beam has room for every node and the fetch budget for every neighbour. */
  predicate Wide(p: IndexParams, k: nat, n: nat) {
    Greatest(p.efSearch, k) >= n && p.efN >= p.hnsw.maxL0
  }

  lemma {:induction false} WideIs(p: IndexParams, k: nat, n: nat)
    ensures Wide(p, k, n) <==> (p.efSearch >= n || k >= n) && p.efN >= p.hnsw.maxL0
  {
  }

  lemma {:induction false} WideFetches(index: CompassIndex, query: Embedding, k: nat)
    requires index.Valid() && Wide(index.p, k, |index.corpus|)
    ensures Greatest(index.p.efSearch, k) >= |index.corpus|
    ensures forall u :: u in Range(|index.corpus|) ==>
              FetchFrom(index.oram, index.layer0Hints, index.p, index.m, query)(u) == LayerNeighbours(index.graph, 0)(u)
  {
    Unfiltered(index, query);
  }

  /** The first `k` of the nodes seen, by distance from the query to the corpus vectors and then by id. */
  ghost predicate NearestInCorpus(m: Metric, query: Embedding, corpus: seq<Embedding>, k: nat, ids: seq<nat>,
                                  visited: set<nat>) {
    && (forall v :: v in visited ==> v < |corpus|)
    && (forall i :: 0 <= i < |ids| ==> ids[i] in visited && ids[i] < |corpus|)
    && (|ids| <= k && (|ids| < k ==> forall v :: v in visited ==> v in ids))
    && (forall i, j :: 0 <= i < j < |ids| ==>
          var x, y := m.cosine(query, corpus[ids[i]]), m.cosine(query, corpus[ids[j]]);
          x < y || (x == y && ids[i] < ids[j]))
    && forall v, t :: v in visited && v !in ids && t in ids ==>
         m.cosine(query, corpus[t]) <= m.cosine(query, corpus[v])
  }

  lemma {:induction false} NoneLeft(ids: seq<nat>, visited: set<nat>, k: nat)
    requires Distinct(ids) && |ids| == Least(k, |visited|) && forall v :: v in ids ==> v in visited
    ensures |ids| <= k && (|ids| < k ==> forall v :: v in visited ==> v in ids)
  {
    MembersSize(ids);
    var rest := visited - Members(ids);
    assert visited == rest + Members(ids) && rest !! Members(ids);
    assert |ids| < k ==> |rest| == 0;
  }

  lemma {:induction false} KeysAre(index: CompassIndex, query: Embedding, visited: set<nat>)
    requires index.Valid() && forall v :: v in visited ==> v in Range(|index.corpus|)
    ensures forall v :: v in visited ==>
              && v < |index.corpus|
              && DistanceFrom(index.oram, index.p, index.m, query)(v) == index.m.cosine(query, index.corpus[v])
  {
    forall v | v in visited
      ensures v < |index.corpus|
      ensures DistanceFrom(index.oram, index.p, index.m, query)(v) == index.m.cosine(query, index.corpus[v])
    {
      assert v in Range(|index.corpus|);
      ReadsTrue(index, query, v);
    }
  }

  /** What a search answers, in distances between the query and the corpus. */
  lemma {:induction false} AnswerInDistances(index: CompassIndex, query: Embedding, k: nat, ids: seq<nat>,
                                             visited: set<nat>)
    requires index.Valid() && Nearest(DistanceFrom(index.oram, index.p, index.m, query), ids, visited, k)
    requires forall v :: v in visited ==> v in Range(|index.corpus|)
    ensures NearestInCorpus(index.m, query, index.corpus, k, ids, visited)
  {
    KeysAre(index, query, visited);
    hide *;
    KeyedAnswer(DistanceFrom(index.oram, index.p, index.m, query), index.m, query, index.corpus, k, ids, visited);
  }

  lemma {:induction false} KeyedAnswer(key: nat -> real, m: Metric, query: Embedding, corpus: seq<Embedding>, k: nat,
                                       ids: seq<nat>, visited: set<nat>)
    requires Nearest(key, ids, visited, k)
    requires forall v :: v in visited ==> v < |corpus| && key(v) == m.cosine(query, corpus[v])
    ensures NearestInCorpus(m, query, corpus, k, ids, visited)
  {
    NoneLeft(ids, visited, k);
    assert forall i :: 0 <= i < |ids| ==> ids[i] in ids;
    forall i, j | 0 <= i < j < |ids|
      ensures var x, y := m.cosine(query, corpus[ids[i]]), m.cosine(query, corpus[ids[j]]);
              x < y || (x == y && ids[i] < ids[j])
    {
      assert Before(key, ids[i], ids[j]) && ids[i] != ids[j];
    }
  }

  /** Where the descent ends: no neighbour listed above layer 0 is closer to the query. */
  ghost predicate NoneListedCloser(m: Metric, query: Embedding, corpus: seq<Embedding>, layer: map<nat, seq<nat>>,
                                   start: nat) {
    && start in layer && start < |corpus|
    && forall n :: n in layer[start] ==> n < |corpus| && m.cosine(query, corpus[start]) <= m.cosine(query, corpus[n])
  }

  lemma {:induction false} MinimumIs(index: CompassIndex, query: Embedding, l: nat, current: nat)
    requires index.Valid() && Minimum(index, query, l, current)
    ensures l < |index.graph.upper|
    ensures NoneListedCloser(index.m, query, index.corpus, index.graph.upper[l], current)
  {
    CachedNodes(index, query, l);
    var layer := index.upperLayers[l];
    assert layer[current].neighbours == index.graph.upper[l][current];
    hide CachedKey;
    forall n | n in index.graph.upper[l][current]
      ensures n < |index.corpus|
      ensures index.m.cosine(query, index.corpus[current]) <= index.m.cosine(query, index.corpus[n])
    {
      assert n in layer[current].neighbours && n in layer;
    }
  }

  /** A search on a built index never fails. It starts no farther than the entry and answers
      with the nearest nodes it visited. */
  method LayeredSearch(index: CompassIndex, query: Embedding, k: nat)
    returns (ids: seq<nat>, ghost start: nat, ghost visited: set<nat>, ghost top: set<nat>, ghost expanded: set<nat>)
    requires index.Valid()
    modifies index`readCount
    ensures index.Valid() && start < |index.corpus| && index.entry < |index.corpus|
    ensures index.m.cosine(query, index.corpus[start]) <= index.m.cosine(query, index.corpus[index.entry])
    ensures if index.topLayer == 0 then start == index.entry else Minimum(index, query, 0, start)
    ensures index.topLayer > 0 ==>
              index.graph.upper != [] && NoneListedCloser(index.m, query, index.corpus, index.graph.upper[0], start)
    ensures NearestInCorpus(index.m, query, index.corpus, k, ids, visited)
    ensures SearchResult(DistanceFrom(index.oram, index.p, index.m, query),
                         FetchFrom(index.oram, index.layer0Hints, index.p, index.m, query),
                         Range(|index.corpus|), {start}, Greatest(index.p.efSearch, k), visited, top)
    ensures Nearest(DistanceFrom(index.oram, index.p, index.m, query), ids, top, k)
    ensures Answer(DistanceFrom(index.oram, index.p, index.m, query),
                   FetchFrom(index.oram, index.layer0Hints, index.p, index.m, query),
                   LayerNeighbours(index.graph, 0), |index.corpus|, k, Wide(index.p, k, |index.corpus|), ids, start,
                       visited)
    ensures (index.p.efSearch >= |index.corpus| || k >= |index.corpus|) && index.p.efN >= index.p.hnsw.maxL0 ==>
              forall v :: v in visited <==>
                Reachable(LayerNeighbours(index.graph, 0), Range(|index.corpus|), {start}, v)
    ensures ExpandedOf(FetchFrom(index.oram, index.layer0Hints, index.p, index.m, query), start, visited, {}, top,
                       expanded)
    ensures index.readCount
         == old(index.readCount) + (if index.topLayer == 0 then 1 else 0) + |expanded| + |visited| - 1
  {
    hide *;
    var current, curDist := Descend(index, query);
    var ef := Greatest(index.p.efSearch, k);
    var results;
    ghost var seen;
    results, seen, expanded := SearchLayer0(index, query, current, ef);
    var key := DistanceFrom(index.oram, index.p, index.m, query);
    ids := TakeNearest(key, results, k);
    start, visited, top := current, seen, results;
    ghost var wide := Wide(index.p, k, |index.corpus|);
    if wide {
      WideFetches(index, query, k);
    }
    Answered(key, FetchFrom(index.oram, index.layer0Hints, index.p, index.m, query), LayerNeighbours(index.graph, 0),
             |index.corpus|, k, index.p.efSearch, wide, ids, start, visited, top);
    AnswerParts(key, FetchFrom(index.oram, index.layer0Hints, index.p, index.m, query),
                LayerNeighbours(index.graph, 0), |index.corpus|, k, wide, ids, start, visited);
    WideIs(index.p, k, |index.corpus|);
    AnswerInDistances(index, query, k, ids, visited);
    if index.topLayer > 0 {
      MinimumIs(index, query, 0, start);
    }
  }

  lemma {:induction false} AnswerParts(key: nat -> real, nbr: nat -> seq<nat>, full: nat -> seq<nat>, n: nat, k: nat,
                                       wide: bool, ids: seq<nat>, start: nat, visited: set<nat>)
    requires Answer(key, nbr, full, n, k, wide, ids, start, visited)
    ensures Nearest(key, ids, visited, k) && forall v :: v in visited ==> v in Range(n)
    ensures wide ==> forall v :: v in visited <==> Reachable(full, Range(n), {start}, v)
  {
    hide Nearest, Reachable;
  }
}
