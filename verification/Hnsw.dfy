/** The layered graph builder: greedy descent, beam search and neighbour selection on every
    layer, two-way links with pruning. Distances are an arbitrary function of two node ids. */
module Hnsw {
  import opened Sums
  import opened Beam

  type Dist = (nat, nat) -> real

  datatype Heuristic = Algorithm4 | Simple

  datatype Params = Params(maxL0: nat, maxUpper: nat, efConstruction: nat, heuristic: Heuristic)

  /** Layer 0 is dense; `upper[l − 1]` maps the nodes of layer `l` to their lists. */
  datatype Graph = Graph(layer0: seq<seq<nat>>, upper: seq<map<nat, seq<nat>>>)

  function Bound(p: Params, l: nat): nat {
    if l == 0 then p.maxL0 else p.maxUpper
  }

  function NeighboursOf(g: Graph, l: nat, id: nat): seq<nat> {
    if l == 0 then
      if id < |g.layer0| then g.layer0[id] else []
    else if l - 1 < |g.upper| && id in g.upper[l - 1] then g.upper[l - 1][id]
    else []
  }

  function SetNeighbours(g: Graph, l: nat, id: nat, ns: seq<nat>): (r: Graph)
    requires if l == 0 then id < |g.layer0| else l - 1 < |g.upper|
    ensures |r.layer0| == |g.layer0| && |r.upper| == |g.upper|
    ensures NeighboursOf(r, l, id) == ns
    ensures forall l', id' {:trigger NeighboursOf(r, l', id')} | l' != l
            || id' != id :: NeighboursOf(r, l', id') == NeighboursOf(g, l', id')
  {
    if l == 0 then g.(layer0 := g.layer0[id := ns])
    else
      var layer: map<nat, seq<nat>> := g.upper[l - 1][id := ns];
      g.(upper := g.upper[l - 1 := layer])
  }

  function KeyFrom(dist: Dist, x: nat): nat -> real {
    (v: nat) => dist(x, v)
  }

  function LayerNeighbours(g: Graph, l: nat): nat -> seq<nat> {
    (id: nat) => NeighboursOf(g, l, id)
  }

  // ─── greedy descent ───

  ghost predicate ClosedWithin(nbr: nat -> seq<nat>, allowed: set<nat>) {
    forall u, v :: u in allowed && v in nbr(u) ==> v in allowed
  }

  ghost function Closer(key: nat -> real, allowed: set<nat>, d: real): set<nat> {
    set v | v in allowed && key(v) < d
  }

  /** Moves to a closer neighbour until none is closer: a local minimum, never farther than the start. */
  method GreedyOneHop(key: nat -> real, nbr: nat -> seq<nat>, start: nat, startDist: real, ghost allowed: set<nat>)
    returns (best: nat, bestDist: real)
    requires startDist == key(start) && start in allowed && ClosedWithin(nbr, allowed)
    ensures best in allowed && bestDist == key(best) <= startDist
    ensures forall v :: v in nbr(best) ==> key(v) >= bestDist
    ensures best == start || bestDist < startDist
  {
    best, bestDist := start, startDist;
    while true
      invariant best in allowed && bestDist == key(best) <= startDist
      invariant best == start || bestDist < startDist
      decreases Closer(key, allowed, bestDist)
    {
      var nbrs := nbr(best);
      var improved := false;
      ghost var before, from := bestDist, best;
      for i := 0 to |nbrs|
        invariant best in allowed && bestDist == key(best) <= before
        invariant improved <==> bestDist < before
        invariant !improved ==> best == from && forall j :: 0 <= j < i ==> key(nbrs[j]) >= bestDist
      {
        var n := nbrs[i];
        var d := key(n);
        if d < bestDist {
          best, bestDist := n, d;
          improved := true;
        }
      }
      if !improved {
        return;
      }
      assert best in Closer(key, allowed, before) && best !in Closer(key, allowed, bestDist);
    }
  }

  // ─── sorting and selection ───

  method InsertSorted(key: nat -> real, s: seq<nat>, x: nat) returns (r: seq<nat>)
    requires SortedBy(key, s)
    ensures SortedBy(key, r) && Members(r) == Members(s) + {x} && |r| == |s| + 1
    ensures Distinct(s) && x !in s ==> Distinct(r)
  {
    var at := |s|;
    while at > 0 && key(s[at - 1]) > key(x)
      invariant 0 <= at <= |s|
      invariant forall j :: at <= j < |s| ==> key(s[j]) > key(x)
    {
      at := at - 1;
    }
    r := s[..at] + [x] + s[at..];
    InsertedMembers(s, x, at);
    InsertedInOrder(key, s, x, at);
    InsertedDistinct(s, x, at);
    hide *;
  }

  lemma {:induction false} InsertedInOrder(key: nat -> real, s: seq<nat>, x: nat, at: nat)
    requires SortedBy(key, s) && at <= |s| && (at > 0 ==> key(s[at - 1]) <= key(x))
    requires forall j :: at <= j < |s| ==> key(s[j]) > key(x)
    ensures SortedBy(key, s[..at] + [x] + s[at..])
  {
    var r := s[..at] + [x] + s[at..];
    forall i, j | 0 <= i < j < |r|
      ensures key(r[i]) <= key(r[j])
    {
      assert r[i] == if i < at then s[i] else if i == at then x else s[i - 1];
      assert r[j] == if j < at then s[j] else if j == at then x else s[j - 1];
    }
  }

  lemma {:induction false} InsertedDistinct(s: seq<nat>, x: nat, at: nat)
    requires at <= |s|
    ensures Distinct(s) && x !in s ==> Distinct(s[..at] + [x] + s[at..])
  {
    var r := s[..at] + [x] + s[at..];
    if Distinct(s) && x !in s {
      forall i, j | 0 <= i < j < |r|
        ensures r[i] != r[j]
      {
        assert r[i] == if i < at then s[i] else if i == at then x else s[i - 1];
        assert r[j] == if j < at then s[j] else if j == at then x else s[j - 1];
      }
    }
  }

  lemma {:induction false} InsertedMembers(s: seq<nat>, x: nat, at: nat)
    requires at <= |s|
    ensures Members(s[..at] + [x] + s[at..]) == Members(s) + {x}
  {
    assert s == s[..at] + s[at..];
  }

  /** Stable sort by distance. */
  method SortByDistance(key: nat -> real, s: seq<nat>) returns (r: seq<nat>)
    ensures SortedBy(key, r) && Members(r) == Members(s) && |r| == |s|
    ensures Distinct(s) ==> Distinct(r)
  {
    r := [];
    for i := 0 to |s|
      invariant SortedBy(key, r) && Members(r) == Members(s[..i]) && |r| == i
      invariant Distinct(s) ==> Distinct(r)
    {
      assert Members(s[..i + 1]) == Members(s[..i]) + {s[i]};
      if Distinct(s) {
        assert s[i] !in Members(s[..i]);
      }
      r := InsertSorted(key, r, s[i]);
    }
    assert s[..|s|] == s;
  }

  /** The entries of a result heap by distance; nothing is said about the order of ties. */
  method Drain(key: nat -> real, top: set<nat>) returns (r: seq<nat>)
    ensures SortedBy(key, r) && Members(r) == top && Distinct(r)
  {
    r := [];
    var rest := top;
    while rest != {}
      invariant rest <= top && SortedBy(key, r) && Members(r) == top - rest && Distinct(r)
      decreases |rest|
    {
      var x :| x in rest;
      assert x !in Members(r);
      r := InsertSorted(key, r, x);
      rest := rest - {x};
    }
  }

  /** What either rule guarantees: at most `m` distinct candidates, never the node itself,
      and at least one if there is one to take. */
  ghost predicate Selected(sel: seq<nat>, q: nat, candidates: seq<nat>, m: nat) {
    && |sel| <= m && Distinct(sel)
    && (forall v :: v in sel ==> v in candidates && v != q)
    && (m > 0 && (exists c :: c in candidates && c != q) ==> sel != [])
  }

  /** A later pick is no closer to an earlier one than to the node itself. */
  ghost predicate Diverse(sel: seq<nat>, key: nat -> real, dist: Dist) {
    forall i, j :: 0 <= i < j < |sel| ==> dist(sel[j], sel[i]) >= key(sel[j])
  }

  /** A candidate left out while there was room is closer to a pick that precedes it. */
  ghost predicate Covered(sel: seq<nat>, c: nat, key: nat -> real, dist: Dist) {
    exists i :: 0 <= i < |sel| && key(sel[i]) <= key(c) && dist(c, sel[i]) < key(c)
  }

  /** Why a candidate was left out: covered by a pick, or none closer to the node than the picks
      of a full list. */
  ghost predicate Omitted(sel: seq<nat>, c: nat, m: nat, key: nat -> real, dist: Dist) {
    Covered(sel, c, key, dist) || (|sel| == m && forall s :: s in sel ==> key(s) <= key(c))
  }

  /** What the diversity heuristic returns. */
  ghost predicate DiversePick(sel: seq<nat>, q: nat, candidates: seq<nat>, m: nat, key: nat -> real, dist: Dist) {
    && Selected(sel, q, candidates, m) && SortedBy(key, sel) && Diverse(sel, key, dist)
    && forall c :: c in candidates && c != q && c !in sel ==> Omitted(sel, c, m, key, dist)
  }

  /** What the nearest-first heuristic returns. */
  ghost predicate NearestPick(sel: seq<nat>, q: nat, candidates: seq<nat>, m: nat, key: nat -> real) {
    && Selected(sel, q, candidates, m) && SortedBy(key, sel) && |sel| == Least(m, |candidates|)
    && forall v, s :: v in candidates && v !in sel && s in sel ==> key(v) >= key(s)
  }

  ghost predicate Picked(heuristic: Heuristic, sel: seq<nat>, q: nat, candidates: seq<nat>, m: nat, dist: Dist) {
    match heuristic
    case Algorithm4 => DiversePick(sel, q, candidates, m, KeyFrom(dist, q), dist)
    case Simple => NearestPick(sel, q, candidates, m, KeyFrom(dist, q))
  }

  method IsDiverse(sel: seq<nat>, c: nat, key: nat -> real, dist: Dist) returns (diverse: bool)
    ensures diverse <==> forall i :: 0 <= i < |sel| ==> dist(c, sel[i]) >= key(c)
  {
    for i := 0 to |sel|
      invariant forall j :: 0 <= j < i ==> dist(c, sel[j]) >= key(c)
    {
      if dist(c, sel[i]) < key(c) {
        return false;
      }
    }
    return true;
  }

  lemma {:induction false} CoveredGrows(sel: seq<nat>, x: nat, key: nat -> real, dist: Dist)
    ensures forall c :: Covered(sel, c, key, dist) ==> Covered(sel + [x], c, key, dist)
  {
    forall c | Covered(sel, c, key, dist)
      ensures Covered(sel + [x], c, key, dist)
    {
      var i :| 0 <= i < |sel| && key(sel[i]) <= key(c) && dist(c, sel[i]) < key(c);
      assert (sel + [x])[i] == sel[i];
    }
  }

  /** Closest first, keeping a candidate only if it is closer to `q` than to every pick so far. */
  method Algorithm4Select(q: nat, candidates: seq<nat>, m: nat, key: nat -> real, dist: Dist) returns (sel: seq<nat>)
    requires Distinct(candidates)
    ensures DiversePick(sel, q, candidates, m, key, dist)
  {
    var sorted := SortByDistance(key, candidates);
    sel := [];
    for i := 0 to |sorted|
      invariant Picks(sel, q, sorted, i, m, key, dist)
    {
      var c := sorted[i];
      if c == q {
        PickSkip(sel, q, sorted, i, m, key, dist);
        continue;
      }
      if |sel| >= m {
        PickFull(sel, q, sorted, i, m, key, dist);
        break;
      }
      var diverse := IsDiverse(sel, c, key, dist);
      if diverse {
        PickAdd(sel, q, sorted, i, m, key, dist);
        sel := sel + [c];
      } else {
        PickReject(sel, q, sorted, i, m, key, dist);
      }
    }
    PickDone(sel, q, candidates, sorted, m, key, dist);
  }

  /** The state after `i` of the sorted candidates. */
  ghost predicate Picks(sel: seq<nat>, q: nat, sorted: seq<nat>, i: nat, m: nat, key: nat -> real, dist: Dist) {
    && i <= |sorted|
    && |sel| <= m && Distinct(sel) && SortedBy(key, sel) && Diverse(sel, key, dist)
    && (forall v :: v in sel ==> v != q && exists j :: 0 <= j < i && sorted[j] == v)
    && (m > 0 && (exists j :: 0 <= j < i && sorted[j] != q) ==> sel != [])
    && (forall j :: 0 <= j < i && sorted[j] != q && sorted[j] !in sel ==> Omitted(sel, sorted[j], m, key, dist))
  }

  lemma {:induction false} PickSkip(sel: seq<nat>, q: nat, sorted: seq<nat>, i: nat, m: nat, key: nat -> real,
                                    dist: Dist)
    requires Picks(sel, q, sorted, i, m, key, dist) && i < |sorted| && sorted[i] == q
    ensures Picks(sel, q, sorted, i + 1, m, key, dist)
  {
    hide Omitted, Diverse, Distinct, SortedBy;
  }

  lemma {:induction false} PickFull(sel: seq<nat>, q: nat, sorted: seq<nat>, i: nat, m: nat, key: nat -> real,
                                    dist: Dist)
    requires Picks(sel, q, sorted, i, m, key, dist) && i < |sorted| && |sel| >= m && SortedBy(key, sorted)
    ensures Picks(sel, q, sorted, |sorted|, m, key, dist)
  {
    forall j | i <= j < |sorted|
      ensures Omitted(sel, sorted[j], m, key, dist)
    {
      forall s | s in sel
        ensures key(s) <= key(sorted[j])
      {
        var j' :| 0 <= j' < i && sorted[j'] == s;
      }
    }
    hide Omitted, Diverse, Distinct, SortedBy;
  }

  lemma {:induction false} PickReject(sel: seq<nat>, q: nat, sorted: seq<nat>, i: nat, m: nat, key: nat -> real,
                                      dist: Dist)
    requires Picks(sel, q, sorted, i, m, key, dist) && i < |sorted| && SortedBy(key, sorted)
    requires exists k :: 0 <= k < |sel| && dist(sorted[i], sel[k]) < key(sorted[i])
    ensures Picks(sel, q, sorted, i + 1, m, key, dist)
  {
    hide Diverse, Distinct;
    var k :| 0 <= k < |sel| && dist(sorted[i], sel[k]) < key(sorted[i]);
    assert sel[k] in sel;
    assert key(sel[k]) <= key(sorted[i]);
    assert Covered(sel, sorted[i], key, dist);
    assert Omitted(sel, sorted[i], m, key, dist);
    hide Covered, Omitted;
  }

  lemma {:induction false} PickAdd(sel: seq<nat>, q: nat, sorted: seq<nat>, i: nat, m: nat, key: nat -> real,
                                   dist: Dist)
    requires Picks(sel, q, sorted, i, m, key, dist) && i < |sorted| && SortedBy(key, sorted) && Distinct(sorted)
    requires sorted[i] != q && |sel| < m
    requires forall k :: 0 <= k < |sel| ==> dist(sorted[i], sel[k]) >= key(sorted[i])
    ensures Picks(sel + [sorted[i]], q, sorted, i + 1, m, key, dist)
  {
    var c := sorted[i];
    var more := sel + [c];
    CoveredGrows(sel, c, key, dist);
    forall j | 0 <= j < i && sorted[j] != q && sorted[j] !in more
      ensures Omitted(more, sorted[j], m, key, dist)
    {
      assert Omitted(sel, sorted[j], m, key, dist);
    }
    hide Covered, Omitted;
    forall k | 0 <= k < |sel|
      ensures sel[k] != c && key(sel[k]) <= key(c)
    {
      assert sel[k] in sel;
    }
    assert Distinct(more) && SortedBy(key, more) && Diverse(more, key, dist);
    hide Distinct, SortedBy, Diverse;
    forall v | v in more
      ensures v != q && exists j :: 0 <= j < i + 1 && sorted[j] == v
    {
      if v !in sel {
        assert sorted[i] == v;
      }
    }
  }

  lemma {:induction false} PickDone(sel: seq<nat>, q: nat, candidates: seq<nat>, sorted: seq<nat>, m: nat,
                                    key: nat -> real, dist: Dist)
    requires Picks(sel, q, sorted, |sorted|, m, key, dist) && Members(sorted) == Members(candidates)
    ensures DiversePick(sel, q, candidates, m, key, dist)
  {
    hide Omitted, Diverse, Distinct, SortedBy;
    assert forall c :: c in candidates <==> c in Members(candidates);
    assert forall c :: c in sorted <==> c in Members(sorted);
  }

  /** The `m` nearest. */
  method SimpleSelect(q: nat, candidates: seq<nat>, m: nat, key: nat -> real) returns (sel: seq<nat>)
    requires Distinct(candidates) && q !in candidates
    ensures NearestPick(sel, q, candidates, m, key)
  {
    var sorted := SortByDistance(key, candidates);
    assert forall c :: c in candidates <==> c in Members(candidates);
    assert forall c :: c in sorted <==> c in Members(sorted);
    sel := sorted[..Least(m, |sorted|)];
    assert sel != [] ==> sel[0] in sel;
  }

  method Select(heuristic: Heuristic, q: nat, candidates: seq<nat>, m: nat, dist: Dist) returns (sel: seq<nat>)
    requires Distinct(candidates) && q !in candidates
    ensures Selected(sel, q, candidates, m) && Picked(heuristic, sel, q, candidates, m, dist)
  {
    match heuristic
    case Algorithm4 => sel := Algorithm4Select(q, candidates, m, KeyFrom(dist, q), dist);
    case Simple => sel := SimpleSelect(q, candidates, m, KeyFrom(dist, q));
  }

  // ─── the invariant of the graph ───

  /** A neighbour list of `id` at layer `l`: in bounds, distinct, nodes of that layer, never `id`. */
  ghost predicate GoodList(ns: seq<nat>, id: nat, l: nat, levels: seq<nat>, members: set<nat>, bound: nat) {
    && |ns| <= bound && Distinct(ns)
    && forall v :: v in ns ==> v in members && v < |levels| && levels[v] >= l && v != id
  }

  /** The nodes that live on layer `l`. */
  ghost function AtLevel(levels: seq<nat>, ins: set<nat>, l: nat): set<nat> {
    set v | v in ins && v < |levels| && levels[v] >= l
  }

  ghost predicate ListsOk(g: Graph, levels: seq<nat>, ins: set<nat>, l: nat, bound: nat) {
    && (forall id {:trigger NeighboursOf(g, l, id)} :: GoodList(NeighboursOf(g, l, id), id, l, levels, ins, bound))
    && (forall id {:trigger NeighboursOf(g, l, id)} :: NeighboursOf(g, l, id) != [] ==> id in AtLevel(levels, ins, l))
  }

  /** Layer `l` after the nodes `ins`: exactly the nodes of that level have lists, all good. */
  ghost predicate LayerOk(g: Graph, levels: seq<nat>, ins: set<nat>, l: nat, p: Params) {
    && (l > 0 ==> l - 1 < |g.upper| && g.upper[l - 1].Keys == AtLevel(levels, ins, l))
    && ListsOk(g, levels, ins, l, Bound(p, l))
  }

  ghost predicate GraphOk(g: Graph, levels: seq<nat>, top: nat, ins: set<nat>, p: Params) {
    && |g.layer0| == |levels| && |g.upper| == top
    && (forall v :: v in ins ==> v < |levels|)
    && forall l: nat {:trigger LayerOk(g, levels, ins, l, p)} | l <= top :: LayerOk(g, levels, ins, l, p)
  }

  /** With two nodes or more, no list at layer 0 is empty. */
  ghost predicate Linked(g: Graph, ins: set<nat>, p: Params) {
    p.maxL0 > 0 && |ins| >= 2 ==> forall v :: v in ins ==> NeighboursOf(g, 0, v) != []
  }

  /** Only layer `l` differs. */
  ghost predicate OnlyLayer(g: Graph, h: Graph, l: nat) {
    && |h.layer0| == |g.layer0| && |h.upper| == |g.upper|
    && (l > 0 ==> h.layer0 == g.layer0)
    && forall k: nat {:trigger h.upper[k]} | k < |g.upper| && k + 1 != l :: h.upper[k] == g.upper[k]
  }

  lemma {:induction false} OtherLayer(g: Graph, h: Graph, levels: seq<nat>, ins: set<nat>, l: nat, other: nat,
                                      p: Params)
    requires OnlyLayer(g, h, l) && other != l && LayerOk(g, levels, ins, other, p)
    ensures LayerOk(h, levels, ins, other, p)
  {
    forall id
      ensures NeighboursOf(h, other, id) == NeighboursOf(g, other, id)
    {
    }
    hide GoodList;
  }

  lemma {:induction false} OnlyTwice(g: Graph, h: Graph, r: Graph, l: nat)
    requires OnlyLayer(g, h, l) && OnlyLayer(h, r, l)
    ensures OnlyLayer(g, r, l)
  {
  }

  lemma {:induction false} SetOnly(g: Graph, l: nat, id: nat, ns: seq<nat>)
    requires if l == 0 then id < |g.layer0| else l - 1 < |g.upper|
    ensures OnlyLayer(g, SetNeighbours(g, l, id, ns), l)
    ensures l > 0 ==> SetNeighbours(g, l, id, ns).upper[l - 1].Keys == g.upper[l - 1].Keys + {id}
  {
  }

  /** A new node changes nothing on the layers above its own. */
  lemma {:induction false} AboveUnchanged(g: Graph, levels: seq<nat>, ins: set<nat>, x: nat, l: nat, p: Params)
    requires x < |levels| && levels[x] < l && LayerOk(g, levels, ins, l, p)
    ensures LayerOk(g, levels, ins + {x}, l, p)
  {
    assert AtLevel(levels, ins + {x}, l) == AtLevel(levels, ins, l);
    ListsGrow(g, levels, ins, ins + {x}, l, Bound(p, l));
  }

  lemma {:induction false} ListsGrow(g: Graph, levels: seq<nat>, ins: set<nat>, more: set<nat>, l: nat, bound: nat)
    requires ListsOk(g, levels, ins, l, bound) && ins <= more
    ensures ListsOk(g, levels, more, l, bound)
  {
    hide NeighboursOf;
    assert AtLevel(levels, ins, l) <= AtLevel(levels, more, l);
  }

  // ─── linking one layer ───

  /** Midway through linking `x` back from its picks: those from `i` on do not list `x` yet. */
  ghost predicate Linking(g: Graph, levels: seq<nat>, ins: set<nat>, x: nat, l: nat, p: Params, selected: seq<nat>,
                          i: nat) {
    && (l == 0 ==> |g.layer0| == |levels|)
    && (l > 0 ==> l - 1 < |g.upper| && g.upper[l - 1].Keys == AtLevel(levels, ins + {x}, l))
    && ListsOk(g, levels, ins + {x}, l, Bound(p, l))
    && (forall j :: i <= j < |selected| ==> x !in NeighboursOf(g, l, selected[j]))
    && Distinct(selected) && forall j :: 0 <= j < |selected| ==> selected[j] in AtLevel(levels, ins, l)
  }

  /** The list of `s` after `x` was added to it: appended, or re-selected if that overflows. */
  ghost predicate Relinked(p: Params, l: nat, s: nat, x: nat, was: seq<nat>, now: seq<nat>, dist: Dist) {
    if |was| + 1 > Bound(p, l) then Picked(p.heuristic, now, s, was + [x], Bound(p, l), dist) else now == was + [x]
  }

  /** Adds `x` to the list of one pick, re-selecting when it overflows. */
  method LinkOne(g: Graph, levels: seq<nat>, ghost ins: set<nat>, x: nat, l: nat, p: Params, selected: seq<nat>, i: nat,
                 dist: Dist)
    returns (r: Graph)
    requires Linking(g, levels, ins, x, l, p, selected, i) && i < |selected|
    requires x < |levels| && levels[x] >= l && x !in ins
    ensures Linking(r, levels, ins, x, l, p, selected, i + 1) && OnlyLayer(g, r, l)
    ensures forall v :: NeighboursOf(g, l, v) != [] && Bound(p, l) > 0 ==> NeighboursOf(r, l, v) != []
    ensures Bound(p, l) > 0 ==> NeighboursOf(r, l, selected[i]) != []
    ensures Relinked(p, l, selected[i], x, NeighboursOf(g, l, selected[i]), NeighboursOf(r, l, selected[i]), dist)
    ensures forall v :: v != selected[i] ==> NeighboursOf(r, l, v) == NeighboursOf(g, l, v)
  {
    var s := selected[i];
    assert s in AtLevel(levels, ins, l);
    var old_n := NeighboursOf(g, l, s);
    var ns := old_n + [x];
    assert GoodList(old_n, s, l, levels, ins + {x}, Bound(p, l));
    Appended(old_n, x, s, l, levels, ins + {x});
    var kept := ns;
    if |ns| > Bound(p, l) {
      kept := Select(p.heuristic, s, ns, Bound(p, l), dist);
      assert ns[|ns| - 1] == x && x in ns && x != s;
      Pruned(kept, ns, s, l, levels, ins + {x}, Bound(p, l));
    }
    r := SetNeighbours(g, l, s, kept);
    SetOnly(g, l, s, kept);
    LinkedOne(g, r, levels, ins, x, l, p, selected, i, kept);
  }

  lemma {:induction false} Appended(ns: seq<nat>, x: nat, s: nat, l: nat, levels: seq<nat>, members: set<nat>)
    requires GoodList(ns, s, l, levels, members, |ns|) && x !in ns && x != s && x in members && x < |levels|
             && levels[x] >= l
    ensures GoodList(ns + [x], s, l, levels, members, |ns| + 1) && s !in ns + [x]
  {
  }

  lemma {:induction false} Pruned(kept: seq<nat>, ns: seq<nat>, s: nat, l: nat, levels: seq<nat>, members: set<nat>,
                                  bound: nat)
    requires GoodList(ns, s, l, levels, members, |ns|) && Selected(kept, s, ns, bound)
    ensures GoodList(kept, s, l, levels, members, bound)
  {
  }

  lemma {:induction false} LinkedOne(g: Graph, r: Graph, levels: seq<nat>, ins: set<nat>, x: nat, l: nat, p: Params,
                                     selected: seq<nat>, i: nat, kept: seq<nat>)
    requires Linking(g, levels, ins, x, l, p, selected, i) && i < |selected| && x !in ins
    requires if l == 0 then selected[i] < |g.layer0| else l - 1 < |g.upper|
    requires r == SetNeighbours(g, l, selected[i], kept)
    requires GoodList(kept, selected[i], l, levels, ins + {x}, Bound(p, l))
    ensures Linking(r, levels, ins, x, l, p, selected, i + 1)
  {
    var s := selected[i];
    SetOnly(g, l, s, kept);
    hide SetNeighbours, GoodList, NeighboursOf;
    assert s in AtLevel(levels, ins, l) && AtLevel(levels, ins, l) <= AtLevel(levels, ins + {x}, l);
    if l > 0 {
      assert r.upper[l - 1].Keys == g.upper[l - 1].Keys;
    }
  }

  lemma {:induction false} ReachableOnLayer(g: Graph, levels: seq<nat>, ins: set<nat>, l: nat, p: Params,
                                            starts: set<nat>, v: nat)
    requires LayerOk(g, levels, ins, l, p) && starts <= AtLevel(levels, ins, l)
    requires Reachable(LayerNeighbours(g, l), ins, starts, v)
    ensures v in AtLevel(levels, ins, l)
  {
    var nbr, here := LayerNeighbours(g, l), AtLevel(levels, ins, l);
    forall u, w | u in here && w in nbr(u) && w in ins
      ensures w in here
    {
      assert GoodList(NeighboursOf(g, l, u), u, l, levels, ins, Bound(p, l));
    }
    var steps: nat :| Reach(nbr, ins, starts, v, steps);
    ClosedHoldsAll(here, nbr, ins, starts, v, steps);
  }

  /** `candidates` is what a best-first search of layer `l` from `entries` returned, nearest first. */
  ghost predicate Found(g: Graph, inserted: set<nat>, x: nat, l: nat, p: Params, entries: seq<nat>, dist: Dist,
                        candidates: seq<nat>, visited: set<nat>)
  {
    && SearchResult(KeyFrom(dist, x), LayerNeighbours(g, l), inserted, Members(entries) * inserted, p.efConstruction,
                    visited,
                    Members(candidates))
    && SortedBy(KeyFrom(dist, x), candidates) && Distinct(candidates)
  }

  /** The candidates a layer search hands to selection. */
  method SearchLayer(g: Graph, levels: seq<nat>, inserted: set<nat>, x: nat, l: nat, p: Params, entries: seq<nat>,
                     dist: Dist)
    returns (candidates: seq<nat>, ghost visited: set<nat>)
    requires LayerOk(g, levels, inserted, l, p)
    requires entries != [] && forall e :: e in entries ==> e in AtLevel(levels, inserted, l)
    ensures candidates != [] && Distinct(candidates) && Found(g, inserted, x, l, p, entries, dist, candidates, visited)
    ensures forall c :: c in candidates ==> c in AtLevel(levels, inserted, l)
  {
    hide LayerOk;
    assert entries[0] in entries && entries[0] in AtLevel(levels, inserted, l);
    assert entries[0] in Members(entries) * inserted;
    var key, nbr := KeyFrom(dist, x), LayerNeighbours(g, l);
    var top;
    top, visited := BeamSearch(key, nbr, entries, p.efConstruction, inserted);
    candidates := Drain(key, top);
    assert forall c :: c in candidates <==> c in Members(candidates);
    ghost var starts := Members(entries) * inserted;
    forall c | c in top
      ensures c in AtLevel(levels, inserted, l)
    {
      assert c in visited;
      ReachableOnLayer(g, levels, inserted, l, p, starts, c);
    }
    var t :| t in top;
    assert t in candidates;
  }

  /** The new node's own list written: every pick may now be linked back. */
  lemma {:induction false} StartLinking(g: Graph, r: Graph, levels: seq<nat>, ins: set<nat>, x: nat, l: nat, p: Params,
                                        candidates: seq<nat>, selected: seq<nat>)
    requires LayerOk(g, levels, ins, l, p) && x < |levels| && levels[x] >= l && x !in ins
             && (l == 0 ==> |g.layer0| == |levels|)
    requires if l == 0 then x < |g.layer0| else l - 1 < |g.upper|
    requires forall c :: c in candidates ==> c in AtLevel(levels, ins, l)
    requires Selected(selected, x, candidates, Bound(p, l))
    requires r == SetNeighbours(g, l, x, selected)
    ensures Linking(r, levels, ins, x, l, p, selected, 0)
  {
    SetOnly(g, l, x, selected);
    ListsGrow(g, levels, ins, ins + {x}, l, Bound(p, l));
    assert AtLevel(levels, ins + {x}, l) == AtLevel(levels, ins, l) + {x};
    forall j | 0 <= j < |selected|
      ensures selected[j] in AtLevel(levels, ins, l) && selected[j] != x
    {
      assert selected[j] in selected;
    }
    assert GoodList(selected, x, l, levels, ins + {x}, Bound(p, l));
    forall id
      ensures id != x ==> x !in NeighboursOf(r, l, id)
    {
      assert GoodList(NeighboursOf(g, l, id), id, l, levels, ins, Bound(p, l));
    }
    hide SetNeighbours, NeighboursOf, GoodList;
  }

  /** Candidates of a layer search, narrowed to the new node's neighbours. */
  method ChooseNeighbours(g: Graph, levels: seq<nat>, inserted: set<nat>, x: nat, l: nat, p: Params, entries: seq<nat>,
                          dist: Dist)
    returns (selected: seq<nat>, ghost candidates: seq<nat>)
    requires LayerOk(g, levels, inserted, l, p) && x !in inserted
    requires entries != [] && forall e :: e in entries ==> e in AtLevel(levels, inserted, l)
    ensures forall c :: c in candidates ==> c in AtLevel(levels, inserted, l)
    ensures Selected(selected, x, candidates, Bound(p, l)) && Chosen(g, inserted, x, l, p, entries, dist, selected)
    ensures Bound(p, l) > 0 ==> selected != []
  {
    hide LayerOk, Found, Picked;
    var found;
    ghost var visited;
    found, visited := SearchLayer(g, levels, inserted, x, l, p, entries, dist);
    candidates := found;
    assert found[0] in found;
    selected := Select(p.heuristic, x, found, Bound(p, l), dist);
  }

  /** `selected` are the picks among what a search of the layer found. */
  ghost predicate Chosen(g: Graph, inserted: set<nat>, x: nat, l: nat, p: Params, entries: seq<nat>, dist: Dist,
                         selected: seq<nat>) {
    exists candidates, visited ::
      && Found(g, inserted, x, l, p, entries, dist, candidates, visited)
      && Picked(p.heuristic, selected, x, candidates, Bound(p, l), dist)
  }

  /** The first `i` picks list `x` again or were re-selected; every other list is as before. */
  ghost predicate BackLinked(g: Graph, r: Graph, x: nat, l: nat, p: Params, selected: seq<nat>, i: nat, dist: Dist) {
    && i <= |selected|
    && (forall v :: v !in selected[..i] ==> NeighboursOf(r, l, v) == NeighboursOf(g, l, v))
    && forall j {:trigger selected[j]} | 0 <= j < i ::
         Relinked(p, l, selected[j], x, NeighboursOf(g, l, selected[j]), NeighboursOf(r, l, selected[j]), dist)
  }

  lemma {:induction false} BackStep(g: Graph, r: Graph, next: Graph, x: nat, l: nat, p: Params, selected: seq<nat>,
                                    i: nat, dist: Dist)
    requires BackLinked(g, r, x, l, p, selected, i, dist) && i < |selected| && Distinct(selected)
    requires Relinked(p, l, selected[i], x, NeighboursOf(r, l, selected[i]), NeighboursOf(next, l, selected[i]), dist)
    requires forall v :: v != selected[i] ==> NeighboursOf(next, l, v) == NeighboursOf(r, l, v)
    ensures BackLinked(g, next, x, l, p, selected, i + 1, dist)
  {
    hide NeighboursOf, Relinked;
    assert selected[..i + 1] == selected[..i] + [selected[i]];
    assert selected[i] !in selected[..i];
    forall v | v !in selected[..i + 1]
      ensures NeighboursOf(next, l, v) == NeighboursOf(g, l, v)
    {
      assert v !in selected[..i] && v != selected[i];
    }
    forall j | 0 <= j < i
      ensures NeighboursOf(next, l, selected[j]) == NeighboursOf(r, l, selected[j])
    {
      assert selected[j] != selected[i];
    }
  }

  lemma {:induction false} BackDone(g: Graph, r: Graph, x: nat, l: nat, p: Params, selected: seq<nat>, dist: Dist)
    requires BackLinked(g, r, x, l, p, selected, |selected|, dist)
    ensures forall v :: v !in selected ==> NeighboursOf(r, l, v) == NeighboursOf(g, l, v)
    ensures forall v :: v in selected ==> Relinked(p, l, v, x, NeighboursOf(g, l, v), NeighboursOf(r, l, v), dist)
  {
    hide NeighboursOf, Relinked;
    assert selected[..|selected|] == selected;
  }

  /** Adds `x` to the list of every pick. */
  method LinkBack(g: Graph, levels: seq<nat>, ghost ins: set<nat>, x: nat, l: nat, p: Params, selected: seq<nat>,
                  dist: Dist)
    returns (r: Graph)
    requires Linking(g, levels, ins, x, l, p, selected, 0) && x < |levels| && levels[x] >= l && x !in ins
    ensures Linking(r, levels, ins, x, l, p, selected, |selected|) && OnlyLayer(g, r, l)
    ensures forall v :: v !in selected ==> NeighboursOf(r, l, v) == NeighboursOf(g, l, v)
    ensures forall v :: v in selected ==> Relinked(p, l, v, x, NeighboursOf(g, l, v), NeighboursOf(r, l, v), dist)
    ensures Bound(p, l) > 0 ==> forall v :: NeighboursOf(g, l, v) != [] ==> NeighboursOf(r, l, v) != []
    ensures Bound(p, l) > 0 ==> forall v :: v in selected ==> NeighboursOf(r, l, v) != []
  {
    r := g;
    assert OnlyLayer(g, g, l);
    assert Distinct(selected) && BackLinked(g, g, x, l, p, selected, 0, dist);
    hide NeighboursOf, OnlyLayer, Linking, Relinked, BackLinked, Distinct;
    for i := 0 to |selected|
      invariant Linking(r, levels, ins, x, l, p, selected, i) && OnlyLayer(g, r, l)
      invariant BackLinked(g, r, x, l, p, selected, i, dist)
      invariant Bound(p, l) > 0 ==> forall v :: NeighboursOf(g, l, v) != [] ==> NeighboursOf(r, l, v) != []
      invariant Bound(p, l) > 0 ==> forall j :: 0 <= j < i ==> NeighboursOf(r, l, selected[j]) != []
    {
      var next := LinkOne(r, levels, ins, x, l, p, selected, i, dist);
      OnlyTwice(g, r, next, l);
      BackStep(g, r, next, x, l, p, selected, i, dist);
      r := next;
    }
    BackDone(g, r, x, l, p, selected, dist);
  }

  /** One layer of an insertion, in full: the list of `x` is chosen by search and selection, its
      picks are linked back, and no other list of the layer changes. */
  ghost predicate LayerInserted(g: Graph, r: Graph, inserted: set<nat>, x: nat, l: nat, p: Params, entries: seq<nat>,
                                dist: Dist, selected: seq<nat>)
  {
    && Chosen(g, inserted, x, l, p, entries, dist, selected)
    && NeighboursOf(r, l, x) == selected
    && (forall v :: v in selected ==> Relinked(p, l, v, x, NeighboursOf(g, l, v), NeighboursOf(r, l, v), dist))
    && (forall v :: v != x && v !in selected ==> NeighboursOf(r, l, v) == NeighboursOf(g, l, v))
    && OnlyLayer(g, r, l)
  }

  /** Searches layer `l`, writes the list of `x` and links its picks back. */
  method LinkLayer(g: Graph, levels: seq<nat>, inserted: set<nat>, x: nat, l: nat, p: Params, entries: seq<nat>,
                   dist: Dist)
    returns (r: Graph, selected: seq<nat>)
    requires LayerOk(g, levels, inserted, l, p) && (l == 0 ==> |g.layer0| == |levels|)
    requires x < |levels| && levels[x] >= l && x !in inserted
    requires entries != [] && forall e :: e in entries ==> e in AtLevel(levels, inserted, l)
    ensures LayerOk(r, levels, inserted + {x}, l, p) && OnlyLayer(g, r, l)
    ensures LayerInserted(g, r, inserted, x, l, p, entries, dist, selected)
    ensures AllAt(selected, levels, inserted, l)
    ensures NoneEmptied(g, r, x, l, p, selected)
  {
    ghost var candidates;
    selected, candidates := ChooseNeighbours(g, levels, inserted, x, l, p, entries, dist);
    if l > 0 {
      LayerExists(g, levels, inserted, l, p);
    }
    var own := SetNeighbours(g, l, x, selected);
    SetOnly(g, l, x, selected);
    StartLinking(g, own, levels, inserted, x, l, p, candidates, selected);
    assert x !in selected;
    hide *;
    r := LinkBack(own, levels, inserted, x, l, p, selected, dist);
    OnlyTwice(g, own, r, l);
    DoneLinking(r, levels, inserted, x, l, p, selected);
    LayerDone(g, own, r, inserted, x, l, p, entries, dist, selected);
    NotEmptied(g, own, r, x, l, p, selected);
  }

  lemma {:induction false} NotEmptied(g: Graph, own: Graph, r: Graph, x: nat, l: nat, p: Params, selected: seq<nat>)
    requires Bound(p, l) > 0 ==> selected != [] && NeighboursOf(r, l, x) != []
    requires forall v :: v != x ==> NeighboursOf(own, l, v) == NeighboursOf(g, l, v)
    requires Bound(p, l) > 0 ==> forall v :: NeighboursOf(own, l, v) != [] ==> NeighboursOf(r, l, v) != []
    requires Bound(p, l) > 0 ==> forall v :: v in selected ==> NeighboursOf(r, l, v) != []
    ensures NoneEmptied(g, r, x, l, p, selected)
  {
    hide NeighboursOf;
  }

  lemma {:induction false} LayerDone(g: Graph, own: Graph, r: Graph, inserted: set<nat>, x: nat, l: nat, p: Params,
                                     entries: seq<nat>, dist: Dist, selected: seq<nat>)
    requires Chosen(g, inserted, x, l, p, entries, dist, selected) && OnlyLayer(g, r, l) && x !in selected
    requires NeighboursOf(own, l, x) == selected
    requires forall v :: v != x ==> NeighboursOf(own, l, v) == NeighboursOf(g, l, v)
    requires forall v :: v !in selected ==> NeighboursOf(r, l, v) == NeighboursOf(own, l, v)
    requires forall v :: v in selected ==> Relinked(p, l, v, x, NeighboursOf(own, l, v), NeighboursOf(r, l, v), dist)
    ensures LayerInserted(g, r, inserted, x, l, p, entries, dist, selected)
  {
    hide Chosen, OnlyLayer, Relinked, NeighboursOf;
  }

  lemma {:induction false} LayerExists(g: Graph, levels: seq<nat>, ins: set<nat>, l: nat, p: Params)
    requires LayerOk(g, levels, ins, l, p) && l > 0
    ensures l - 1 < |g.upper|
  {
  }

  lemma {:induction false} DoneLinking(g: Graph, levels: seq<nat>, ins: set<nat>, x: nat, l: nat, p: Params,
                                       selected: seq<nat>)
    requires Linking(g, levels, ins, x, l, p, selected, |selected|)
    ensures LayerOk(g, levels, ins + {x}, l, p)
    ensures AllAt(selected, levels, ins, l)
  {
  }

  // ─── inserting a node ───

  /** The layers from `l` up already include `x`, those below do not yet. */
  ghost predicate Inserting(g: Graph, levels: seq<nat>, top: nat, ins: set<nat>, x: nat, l: nat, p: Params) {
    && |g.layer0| == |levels| && |g.upper| == top
    && (forall k: nat {:trigger LayerOk(g, levels, ins, k, p)} | k < l && k <= top :: LayerOk(g, levels, ins, k, p))
    && (forall k: nat {:trigger LayerOk(g, levels, ins + {x}, k, p)} | l <= k <= top ::
        LayerOk(g, levels, ins + {x}, k, p))
  }

  lemma {:induction false} InsertingStart(g: Graph, levels: seq<nat>, top: nat, ins: set<nat>, x: nat, p: Params)
    requires GraphOk(g, levels, top, ins, p) && x < |levels| && levels[x] <= top
    ensures Inserting(g, levels, top, ins, x, levels[x] + 1, p)
  {
    hide LayerOk;
    forall k: nat | levels[x] + 1 <= k <= top
      ensures LayerOk(g, levels, ins + {x}, k, p)
    {
      assert LayerOk(g, levels, ins, k, p);
      AboveUnchanged(g, levels, ins, x, k, p);
    }
  }

  lemma {:induction false} InsertingStep(g: Graph, r: Graph, levels: seq<nat>, top: nat, ins: set<nat>, x: nat, l: nat,
                                         p: Params)
    requires Inserting(g, levels, top, ins, x, l + 1, p) && OnlyLayer(g, r, l) && LayerOk(r, levels, ins + {x}, l, p)
    ensures Inserting(r, levels, top, ins, x, l, p)
  {
    hide LayerOk;
    forall k: nat | k < l && k <= top
      ensures LayerOk(r, levels, ins, k, p)
    {
      assert LayerOk(g, levels, ins, k, p);
      OtherLayer(g, r, levels, ins, l, k, p);
    }
    forall k: nat | l <= k <= top
      ensures LayerOk(r, levels, ins + {x}, k, p)
    {
      if k > l {
        assert LayerOk(g, levels, ins + {x}, k, p);
        OtherLayer(g, r, levels, ins + {x}, l, k, p);
      }
    }
  }

  /** The end of the descent: no farther than the entry, and a local minimum of the last layer walked. */
  ghost predicate Descended(g: Graph, levels: seq<nat>, top: nat, x: nat, entry: nat, current: nat, dist: Dist)
    requires x < |levels|
  {
    && KeyFrom(dist, x)(current) <= KeyFrom(dist, x)(entry)
    && if levels[x] >= top then current == entry else LocalMinimum(g, levels[x] + 1, KeyFrom(dist, x), current)
  }

  /** No listed neighbour is closer. */
  ghost predicate LocalMinimum(g: Graph, l: nat, key: nat -> real, current: nat) {
    forall v :: v in LayerNeighbours(g, l)(current) ==> key(v) >= key(current)
  }

  /** Where the descent stands before it walks layer `l`. */
  ghost predicate Descending(g: Graph, levels: seq<nat>, ins: set<nat>, top: nat, l: nat, entry: nat, current: nat,
                             key: nat -> real) {
    && current in AtLevel(levels, ins, l) && key(current) <= key(entry)
    && if l == top then current == entry else LocalMinimum(g, l + 1, key, current)
  }

  /** Lists of a layer stay in it, and its nodes are on the layer below. */
  lemma {:induction false} WalkLayer(g: Graph, levels: seq<nat>, top: nat, ins: set<nat>, l: nat, p: Params)
    requires GraphOk(g, levels, top, ins, p) && 0 < l <= top
    ensures ClosedWithin(LayerNeighbours(g, l), AtLevel(levels, ins, l))
    ensures AtLevel(levels, ins, l) <= AtLevel(levels, ins, l - 1)
  {
    hide LayerOk, LayerNeighbours;
    assert LayerOk(g, levels, ins, l, p);
    LayerClosed(g, levels, ins, l, p);
  }

  /** One layer of the descent. */
  method WalkDown(g: Graph, levels: seq<nat>, top: nat, ghost ins: set<nat>, p: Params, l: nat, ghost entry: nat,
                  from: nat, fromDist: real, key: nat -> real)
    returns (current: nat, curDist: real)
    requires GraphOk(g, levels, top, ins, p) && 0 < l <= top && fromDist == key(from)
    requires Descending(g, levels, ins, top, l, entry, from, key)
    ensures Descending(g, levels, ins, top, l - 1, entry, current, key) && curDist == key(current)
  {
    hide GraphOk, LayerOk, AtLevel, NeighboursOf;
    WalkLayer(g, levels, top, ins, l, p);
    current, curDist := GreedyOneHop(key, LayerNeighbours(g, l), from, fromDist, AtLevel(levels, ins, l));
  }

  /** Greedy moves from the top layer down to just above the new node's level. */
  method Descend(g: Graph, levels: seq<nat>, top: nat, ghost ins: set<nat>, x: nat, p: Params, entry: nat, dist: Dist)
    returns (current: nat)
    requires GraphOk(g, levels, top, ins, p) && x < |levels| && levels[x] <= top
    requires entry in ins && entry < |levels| && levels[entry] == top
    ensures current in AtLevel(levels, ins, levels[x])
    ensures Descended(g, levels, top, x, entry, current, dist)
  {
    current := entry;
    var key := KeyFrom(dist, x);
    var curDist := key(current);
    assert Descending(g, levels, ins, top, top, entry, current, key);
    hide GraphOk, AtLevel, KeyFrom, LocalMinimum, Descending;
    var l := top;
    while l > levels[x]
      invariant levels[x] <= l <= top && Descending(g, levels, ins, top, l, entry, current, key)
                && curDist == key(current)
    {
      current, curDist := WalkDown(g, levels, top, ins, p, l, entry, current, curDist, key);
      l := l - 1;
    }
    Landed(g, levels, ins, top, x, entry, current, dist);
  }

  lemma {:induction false} Landed(g: Graph, levels: seq<nat>, ins: set<nat>, top: nat, x: nat, entry: nat, current: nat,
                                  dist: Dist)
    requires x < |levels| && levels[x] <= top
    requires Descending(g, levels, ins, top, levels[x], entry, current, KeyFrom(dist, x))
    ensures current in AtLevel(levels, ins, levels[x])
    ensures Descended(g, levels, top, x, entry, current, dist)
  {
    hide AtLevel, LocalMinimum;
  }

  lemma {:induction false} LayerClosed(g: Graph, levels: seq<nat>, ins: set<nat>, l: nat, p: Params)
    requires LayerOk(g, levels, ins, l, p)
    ensures ClosedWithin(LayerNeighbours(g, l), AtLevel(levels, ins, l))
  {
    forall u, v | u in AtLevel(levels, ins, l) && v in LayerNeighbours(g, l)(u)
      ensures v in AtLevel(levels, ins, l)
    {
      assert GoodList(NeighboursOf(g, l, u), u, l, levels, ins, Bound(p, l));
    }
  }

  /** How one insertion went: where the descent ended, and, from the node's own layer down, the
      graph after each layer and the neighbours picked there. */
  datatype Trail = Trail(current: nat, graphs: seq<Graph>, picks: seq<seq<nat>>)

  /** The nodes the search of the next layer starts from: the last picks, or the end of the descent. */
  function EntriesAfter(t: Trail, i: nat): seq<nat>
    requires i <= |t.picks|
  {
    if i == 0 || t.picks[i - 1] == [] then [t.current] else t.picks[i - 1]
  }

  /** The first `n` layers of an insertion, layer `levels[x]` first. */
  ghost predicate LayersInserted(g: Graph, r: Graph, levels: seq<nat>, inserted: set<nat>, x: nat, p: Params,
                                 dist: Dist, t: Trail, n: nat)
    requires x < |levels| && n <= levels[x] + 1
  {
    && |t.picks| == n && |t.graphs| == n + 1 && t.graphs[0] == g && t.graphs[n] == r
    && forall i: nat {:trigger t.picks[i]} | i < n ::
         LayerInserted(t.graphs[i], t.graphs[i + 1], inserted, x, levels[x] - i, p, EntriesAfter(t, i), dist,
                       t.picks[i])
  }

  /** One insertion in full. */
  ghost predicate NodeInserted(g: Graph, r: Graph, levels: seq<nat>, top: nat, inserted: set<nat>, x: nat, p: Params,
                               entry: nat, dist: Dist, t: Trail)
    requires x < |levels|
  {
    && Descended(g, levels, top, x, entry, t.current, dist)
    && LayersInserted(g, r, levels, inserted, x, p, dist, t, levels[x] + 1)
  }

  lemma {:induction false} LayerAdded(g: Graph, r: Graph, next: Graph, levels: seq<nat>, inserted: set<nat>, x: nat,
                                      p: Params, dist: Dist, t: Trail, n: nat, selected: seq<nat>)
    requires x < |levels| && n <= levels[x] && LayersInserted(g, r, levels, inserted, x, p, dist, t, n)
    requires LayerInserted(r, next, inserted, x, levels[x] - n, p, EntriesAfter(t, n), dist, selected)
    ensures var more := Trail(t.current, t.graphs + [next], t.picks + [selected]);
            && LayersInserted(g, next, levels, inserted, x, p, dist, more, n + 1)
            && |more.picks| == n + 1
            && EntriesAfter(more, n + 1) == if selected == [] then [t.current] else selected
  {
    hide LayerInserted;
    var more := Trail(t.current, t.graphs + [next], t.picks + [selected]);
    forall i: nat | i < n + 1
      ensures LayerInserted(more.graphs[i], more.graphs[i + 1], inserted, x, levels[x] - i, p, EntriesAfter(more, i),
                            dist, more.picks[i])
    {
      EntriesKept(t, next, selected, i);
      if i < n {
        assert more.picks[i] == t.picks[i];
        assert more.graphs[i] == t.graphs[i] && more.graphs[i + 1] == t.graphs[i + 1];
      }
    }
  }

  lemma {:induction false} EntriesKept(t: Trail, next: Graph, selected: seq<nat>, i: nat)
    requires i <= |t.picks|
    ensures EntriesAfter(Trail(t.current, t.graphs + [next], t.picks + [selected]), i) == EntriesAfter(t, i)
  {
  }

  /** Partway through an insertion: the layers from `l` up are done. */
  ghost predicate InsertState(g: Graph, r: Graph, levels: seq<nat>, top: nat, ins: set<nat>, x: nat, l: nat, p: Params,
                              dist: Dist, t: Trail, entries: seq<nat>)
    requires x < |levels| && l <= levels[x] + 1
  {
    && Inserting(r, levels, top, ins, x, l, p)
    && (l > 0 ==> r.layer0 == g.layer0)
    && (l == 0 ==> Linked(r, ins + {x}, p))
    && LayersInserted(g, r, levels, ins, x, p, dist, t, levels[x] + 1 - l)
    && |t.picks| == levels[x] + 1 - l && entries == EntriesAfter(t, levels[x] + 1 - l)
    && entries != [] && AllAt(entries, levels, ins, if l == 0 then 0 else l - 1)
  }

  ghost predicate AllAt(entries: seq<nat>, levels: seq<nat>, ins: set<nat>, l: nat) {
    forall e :: e in entries ==> e in AtLevel(levels, ins, l)
  }

  lemma {:induction false} InsertStateStart(g: Graph, levels: seq<nat>, top: nat, ins: set<nat>, x: nat, p: Params,
                                            dist: Dist, current: nat)
    requires GraphOk(g, levels, top, ins, p) && x < |levels| && levels[x] <= top
             && current in AtLevel(levels, ins, levels[x])
    ensures InsertState(g, g, levels, top, ins, x, levels[x] + 1, p, dist, Trail(current, [g], []), [current])
  {
    InsertingStart(g, levels, top, ins, x, p);
  }

  /** The layer below, once it has been linked. */
  lemma {:induction false} InsertStateStep(g: Graph, r: Graph, next: Graph, levels: seq<nat>, top: nat, ins: set<nat>,
                                           x: nat, l: nat, p: Params, dist: Dist, t: Trail, entries: seq<nat>,
                                           selected: seq<nat>)
    requires x < |levels| && l <= levels[x] <= top && x !in ins && ins != {} && Linked(g, ins, p)
    requires InsertState(g, r, levels, top, ins, x, l + 1, p, dist, t, entries)
    requires t.current in AtLevel(levels, ins, levels[x])
    requires LayerOk(next, levels, ins + {x}, l, p) && OnlyLayer(r, next, l)
    requires LayerInserted(r, next, ins, x, l, p, entries, dist, selected)
    requires AllAt(selected, levels, ins, l)
    requires NoneEmptied(r, next, x, l, p, selected)
    ensures InsertState(g, next, levels, top, ins, x, l, p, dist,
                        Trail(t.current, t.graphs + [next], t.picks + [selected]),
                        if selected == [] then [t.current] else selected)
  {
    hide *;
    var t', entries' := Trail(t.current, t.graphs + [next], t.picks + [selected]), if selected == [] then [t.current]
        else selected;
    StateParts(g, r, levels, top, ins, x, l + 1, p, dist, t, entries);
    EntriesBelow(levels, ins, levels[x], l, t.current, selected);
    InsertingStep(r, next, levels, top, ins, x, l, p);
    LayerAdded(g, r, next, levels, ins, x, p, dist, t, levels[x] - l, selected);
    LayerZeroKept(r, next, l);
    if l == 0 {
      StaysLinked(g, r, next, levels, ins, x, p, selected);
    }
    StateMade(g, next, levels, top, ins, x, l, p, dist, t', entries');
  }

  lemma {:induction false} StateParts(g: Graph, r: Graph, levels: seq<nat>, top: nat, ins: set<nat>, x: nat, l: nat,
                                      p: Params, dist: Dist, t: Trail, entries: seq<nat>)
    requires x < |levels| && 0 < l <= levels[x] + 1 && InsertState(g, r, levels, top, ins, x, l, p, dist, t, entries)
    ensures Inserting(r, levels, top, ins, x, l, p) && r.layer0 == g.layer0
    ensures LayersInserted(g, r, levels, ins, x, p, dist, t, levels[x] + 1 - l)
    ensures |t.picks| == levels[x] + 1 - l && entries == EntriesAfter(t, levels[x] + 1 - l)
  {
  }

  lemma {:induction false} StateMade(g: Graph, r: Graph, levels: seq<nat>, top: nat, ins: set<nat>, x: nat, l: nat,
                                     p: Params, dist: Dist, t: Trail, entries: seq<nat>)
    requires x < |levels| && l <= levels[x]
    requires Inserting(r, levels, top, ins, x, l, p) && (l > 0 ==> r.layer0 == g.layer0)
             && (l == 0 ==> Linked(r, ins + {x}, p))
    requires LayersInserted(g, r, levels, ins, x, p, dist, t, levels[x] + 1 - l)
    requires |t.picks| == levels[x] + 1 - l && entries == EntriesAfter(t, levels[x] + 1 - l)
    requires entries != [] && AllAt(entries, levels, ins, if l == 0 then 0 else l - 1)
    ensures InsertState(g, r, levels, top, ins, x, l, p, dist, t, entries)
  {
  }

  /** With room for a neighbour, linking a layer leaves no list of it empty that was not, nor the new ones. */
  ghost predicate NoneEmptied(g: Graph, r: Graph, x: nat, l: nat, p: Params, selected: seq<nat>) {
    Bound(p, l) > 0 ==>
      && selected != [] && NeighboursOf(r, l, x) != []
      && forall v :: v in selected || (v != x && NeighboursOf(g, l, v) != []) ==> NeighboursOf(r, l, v) != []
  }

  /** The picks of a layer are on every layer below; without picks, so is the end of the descent. */
  lemma {:induction false} EntriesBelow(levels: seq<nat>, ins: set<nat>, high: nat, l: nat, current: nat,
                                        selected: seq<nat>)
    requires l <= high && current in AtLevel(levels, ins, high)
    requires AllAt(selected, levels, ins, l)
    ensures forall v :: v in selected ==> v in ins
    ensures AllAt(if selected == [] then [current] else selected, levels, ins, if l == 0 then 0 else l - 1)
  {
  }

  lemma {:induction false} InsertStateLayer(g: Graph, r: Graph, levels: seq<nat>, top: nat, ins: set<nat>, x: nat,
                                            l: nat, p: Params, dist: Dist, t: Trail, entries: seq<nat>)
    requires x < |levels| && l <= levels[x] <= top && InsertState(g, r, levels, top, ins, x, l + 1, p, dist, t, entries)
    ensures LayerOk(r, levels, ins, l, p) && |r.layer0| == |levels|
    ensures entries != [] && forall e :: e in entries ==> e in AtLevel(levels, ins, l)
  {
  }

  lemma {:induction false} InsertStateDone(g: Graph, r: Graph, levels: seq<nat>, top: nat, ins: set<nat>, x: nat,
                                           p: Params, entry: nat, dist: Dist, t: Trail, entries: seq<nat>)
    requires x < |levels| && InsertState(g, r, levels, top, ins, x, 0, p, dist, t, entries)
    requires GraphOk(g, levels, top, ins, p) && Descended(g, levels, top, x, entry, t.current, dist)
    ensures GraphOk(r, levels, top, ins + {x}, p) && Linked(r, ins + {x}, p)
    ensures NodeInserted(g, r, levels, top, ins, x, p, entry, dist, t)
  {
    hide LayerOk, Linked, LayersInserted, Descended;
  }

  /** One insertion after the first: every layer keeps its invariant, and no node is left without links. */
  method InsertNode(g: Graph, levels: seq<nat>, top: nat, inserted: set<nat>, x: nat, p: Params, entry: nat, dist: Dist)
    returns (r: Graph, ghost trail: Trail)
    requires GraphOk(g, levels, top, inserted, p) && Linked(g, inserted, p)
    requires x < |levels| && levels[x] <= top && x !in inserted
    requires entry in inserted && entry < |levels| && levels[entry] == top
    ensures GraphOk(r, levels, top, inserted + {x}, p) && Linked(r, inserted + {x}, p)
    ensures NodeInserted(g, r, levels, top, inserted, x, p, entry, dist, trail)
  {
    hide *;
    var current := Descend(g, levels, top, inserted, x, p, entry, dist);
    InsertStateStart(g, levels, top, inserted, x, p, dist, current);
    r := g;
    var entries := [current];
    var l := levels[x] + 1;
    trail := Trail(current, [g], []);
    while l > 0
      invariant 0 <= l <= levels[x] + 1 && trail.current == current
      invariant InsertState(g, r, levels, top, inserted, x, l, p, dist, trail, entries)
    {
      l := l - 1;
      InsertStateLayer(g, r, levels, top, inserted, x, l, p, dist, trail, entries);
      var next, selected := LinkLayer(r, levels, inserted, x, l, p, entries, dist);
      InsertStateStep(g, r, next, levels, top, inserted, x, l, p, dist, trail, entries, selected);
      trail := Trail(current, trail.graphs + [next], trail.picks + [selected]);
      r := next;
      entries := selected;
      if entries == [] {
        entries := [current];
      }
    }
    InsertStateDone(g, r, levels, top, inserted, x, p, entry, dist, trail, entries);
  }

  lemma {:induction false} LayerZeroKept(g: Graph, h: Graph, l: nat)
    requires OnlyLayer(g, h, l)
    ensures l > 0 ==> h.layer0 == g.layer0
  {
  }

  lemma {:induction false} StaysLinked(g: Graph, before: Graph, after: Graph, levels: seq<nat>, ins: set<nat>, x: nat,
                                       p: Params, selected: seq<nat>)
    requires Linked(g, ins, p) && before.layer0 == g.layer0 && x !in ins && ins != {}
    requires forall v :: v in selected ==> v in ins
    requires NoneEmptied(before, after, x, 0, p, selected)
    ensures Linked(after, ins + {x}, p)
  {
    if p.maxL0 > 0 {
      forall v | v in ins
        ensures NeighboursOf(after, 0, v) != []
      {
        assert NeighboursOf(before, 0, v) == NeighboursOf(g, 0, v);
        if |ins| < 2 {
          OnlyOne(ins, v, selected[0]);
        }
      }
    }
  }

  lemma {:induction false} OnlyOne(s: set<nat>, v: nat, w: nat)
    requires |s| < 2 && v in s && w in s
    ensures v == w
  {
    if v != w {
      SubsetSize({v, w}, s);
    }
  }

  // ─── the build ───

  /** Insertion order: higher levels first, ties by id. */
  predicate Earlier(levels: seq<nat>, a: nat, b: nat) {
    LevelOf(levels, a) > LevelOf(levels, b) || (LevelOf(levels, a) == LevelOf(levels, b) && a < b)
  }

  function LevelOf(levels: seq<nat>, v: nat): nat {
    if v < |levels| then levels[v] else 0
  }

  ghost predicate IsOrder(order: seq<nat>, levels: seq<nat>) {
    && IsPerm(order, |levels|)
    && forall i, j :: 0 <= i < j < |levels| ==> Earlier(levels, order[i], order[j])
  }

  method InsertInOrder(levels: seq<nat>, s: seq<nat>, x: nat) returns (r: seq<nat>)
    requires x !in s
    requires forall i, j :: 0 <= i < j < |s| ==> Earlier(levels, s[i], s[j])
    ensures |r| == |s| + 1 && forall v :: v in r <==> v in s || v == x
    ensures forall i, j :: 0 <= i < j < |r| ==> Earlier(levels, r[i], r[j])
  {
    var at := |s|;
    while at > 0 && Earlier(levels, x, s[at - 1])
      invariant 0 <= at <= |s|
      invariant forall j :: at <= j < |s| ==> Earlier(levels, x, s[j])
    {
      at := at - 1;
    }
    r := s[..at] + [x] + s[at..];
    assert s == s[..at] + s[at..];
  }

  method InsertionOrder(levels: seq<nat>) returns (order: seq<nat>)
    ensures IsOrder(order, levels)
  {
    order := [];
    for x := 0 to |levels|
      invariant |order| == x && forall v: nat :: v in order <==> v < x
      invariant forall i, j :: 0 <= i < j < |order| ==> Earlier(levels, order[i], order[j])
    {
      order := InsertInOrder(levels, order, x);
    }
    forall i | 0 <= i < |levels|
      ensures order[i] < |levels|
    {
      assert order[i] in order;
    }
  }

  ghost predicate IsTop(levels: seq<nat>, top: nat) {
    (forall i :: 0 <= i < |levels| ==> levels[i] <= top) && top in levels
  }

  method TopLayer(levels: seq<nat>) returns (top: nat)
    requires |levels| > 0
    ensures IsTop(levels, top)
  {
    top := levels[0];
    for i := 1 to |levels|
      invariant forall j :: 0 <= j < i ==> levels[j] <= top
      invariant top in levels
    {
      if levels[i] > top {
        top := levels[i];
      }
    }
  }

  /** The first node: an empty list on every layer it lives on. */
  method InsertFirst(levels: seq<nat>, top: nat, x: nat, p: Params) returns (g: Graph)
    requires x < |levels| && levels[x] <= top
    ensures GraphOk(g, levels, top, {x}, p)
  {
    var empty: map<nat, seq<nat>> := map[];
    g := Graph(seq(|levels|, i => []), seq(top, i => empty));
    for l := 1 to levels[x] + 1
      invariant |g.layer0| == |levels| && |g.upper| == top
      invariant forall k, id :: NeighboursOf(g, k, id) == []
      invariant forall k :: 0 <= k < top ==> g.upper[k].Keys == if k < l - 1 then {x} else {}
    {
      g := SetNeighbours(g, l, x, []);
    }
    forall l: nat | l <= top
      ensures LayerOk(g, levels, {x}, l, p)
    {
      if l > 0 {
        assert AtLevel(levels, {x}, l) == if levels[x] >= l then {x} else {};
      }
    }
  }

  /** Graph `i + 1` follows from graph `i` by inserting the next node of the order. */
  ghost predicate StepInserts(steps: seq<Graph>, trails: seq<Trail>, levels: seq<nat>, top: nat, order: seq<nat>,
                              p: Params, entry: nat, dist: Dist, i: nat)
  {
    && i + 1 < |steps| && i + 1 < |order| && i < |trails| && order[i + 1] < |levels|
    && NodeInserted(steps[i], steps[i + 1], levels, top, Members(order[..i + 1]), order[i + 1], p, entry, dist,
                    trails[i])
  }

  ghost predicate EveryStepInserts(steps: seq<Graph>, trails: seq<Trail>, levels: seq<nat>, top: nat, order: seq<nat>,
                                   p: Params, entry: nat, dist: Dist, n: nat)
  {
    |steps| == n && |trails| + 1 == n
    && forall i: nat :: i + 1 < n ==> StepInserts(steps, trails, levels, top, order, p, entry, dist, i)
  }

  lemma {:induction false} InsertsNext(steps: seq<Graph>, trails: seq<Trail>, g: Graph, trail: Trail, levels: seq<nat>,
                                       top: nat, order: seq<nat>, p: Params, entry: nat, dist: Dist, i: nat)
    requires 0 < i < |order| && EveryStepInserts(steps, trails, levels, top, order, p, entry, dist, i)
    requires order[i] < |levels|
    requires NodeInserted(steps[i - 1], g, levels, top, Members(order[..i]), order[i], p, entry, dist, trail)
    ensures EveryStepInserts(steps + [g], trails + [trail], levels, top, order, p, entry, dist, i + 1)
  {
    hide NodeInserted;
    assert order[..(i - 1) + 1] == order[..i];
    forall k: nat | k < i
      ensures StepInserts(steps + [g], trails + [trail], levels, top, order, p, entry, dist, k)
    {
      if k < i - 1 {
        assert StepInserts(steps, trails, levels, top, order, p, entry, dist, k);
      }
    }
  }

  ghost predicate EveryStepOk(steps: seq<Graph>, levels: seq<nat>, top: nat, order: seq<nat>, p: Params, n: nat) {
    && |steps| == n <= |order|
    && forall i {:trigger steps[i]} | 0 <= i < n ::
         GraphOk(steps[i], levels, top, Members(order[..i + 1]), p) && Linked(steps[i], Members(order[..i + 1]), p)
  }

  lemma {:induction false} PrefixMembers(order: seq<nat>, i: nat, levels: seq<nat>, top: nat)
    requires IsOrder(order, levels) && IsTop(levels, top) && 0 < i < |order|
    ensures order[i] !in Members(order[..i]) && Members(order[..i + 1]) == Members(order[..i]) + {order[i]}
    ensures order[0] in Members(order[..i]) && order[0] < |levels| && order[i] < |levels|
    ensures levels[order[0]] == top && levels[order[i]] <= top
  {
    FirstIsTop(order, levels, top);
    assert order[..i][0] == order[0];
    assert order[..i + 1] == order[..i] + [order[i]];
  }

  lemma {:induction false} FirstIsTop(order: seq<nat>, levels: seq<nat>, top: nat)
    requires IsOrder(order, levels) && IsTop(levels, top)
    ensures |order| > 0 && order[0] < |levels| && levels[order[0]] == top
    ensures forall v: nat :: v < |levels| && levels[v] == top ==> order[0] <= v
  {
    var t :| 0 <= t < |levels| && levels[t] == top;
    var at := PermOnto(order, |levels|, t);
    assert at > 0 ==> Earlier(levels, order[0], order[at]);
    forall v: nat | v < |levels| && levels[v] == top
      ensures order[0] <= v
    {
      var i := PermOnto(order, |levels|, v);
      assert i > 0 ==> Earlier(levels, order[0], order[i]);
    }
  }

  /** Builds the graph over `|levels|` nodes, highest levels first. The invariant holds after
      every insertion, and every insertion is the one the search and the heuristic call for. */
  method Build(levels: seq<nat>, p: Params, dist: Dist)
    returns (g: Graph, entry: nat, top: nat, ghost order: seq<nat>, ghost steps: seq<Graph>, ghost trails: seq<Trail>)
    requires |levels| > 0
    ensures IsTop(levels, top) && entry < |levels| && levels[entry] == top
    ensures forall v: nat :: v < |levels| && levels[v] == top ==> entry <= v
    ensures BuildTrace(g, entry, top, levels, p, dist, order, steps, trails)
  {
    top := TopLayer(levels);
    var sorted := InsertionOrder(levels);
    order := sorted;
    entry := sorted[0];
    FirstIsTop(order, levels, top);
    g := InsertFirst(levels, top, entry, p);
    steps, trails := [g], [];
    var inserted := {entry};
    FirstStep(g, levels, top, order, p);
    assert EveryStepInserts(steps, trails, levels, top, order, p, entry, dist, 1);
    assert |order| == |levels|;
    hide GraphOk, Linked, IsTop, IsOrder, EveryStepOk, EveryStepInserts, NodeInserted;
    for i := 1 to |sorted|
      invariant inserted == Members(order[..i])
      invariant EveryStepOk(steps, levels, top, order, p, i) && |steps| == i && g == steps[i - 1]
      invariant EveryStepInserts(steps, trails, levels, top, order, p, entry, dist, i)
    {
      PrefixMembers(order, i, levels, top);
      LastStep(steps, levels, top, order, p, i);
      ghost var trail;
      g, trail := InsertNode(g, levels, top, inserted, sorted[i], p, entry, dist);
      InsertsNext(steps, trails, g, trail, levels, top, order, p, entry, dist, i);
      trails := trails + [trail];
      inserted := inserted + {sorted[i]};
      NextStep(steps, g, levels, top, order, p, i);
      steps := steps + [g];
    }
  }

  /** `g` is what the build of these levels and distances ends with. */
  ghost predicate IsBuild(g: Graph, entry: nat, top: nat, levels: seq<nat>, p: Params, dist: Dist) {
    |levels| > 0 && exists order, steps, trails :: BuildTrace(g, entry, top, levels, p, dist, order, steps, trails)
  }

  ghost predicate BuildTrace(g: Graph, entry: nat, top: nat, levels: seq<nat>, p: Params, dist: Dist,
                             order: seq<nat>, steps: seq<Graph>, trails: seq<Trail>)
  {
    && |levels| > 0 && IsOrder(order, levels) && order[0] == entry && IsTop(levels, top)
    && EveryStepOk(steps, levels, top, order, p, |levels|)
    && EveryStepInserts(steps, trails, levels, top, order, p, entry, dist, |levels|)
    && g == steps[|levels| - 1]
  }

  lemma {:induction false} FirstStep(g: Graph, levels: seq<nat>, top: nat, order: seq<nat>, p: Params)
    requires |order| > 0 && GraphOk(g, levels, top, {order[0]}, p)
    ensures EveryStepOk([g], levels, top, order, p, 1) && Members(order[..1]) == {order[0]}
  {
    assert order[..1] == [order[0]];
    assert Members(order[..1]) == {order[0]};
  }

  lemma {:induction false} LastStep(steps: seq<Graph>, levels: seq<nat>, top: nat, order: seq<nat>, p: Params, i: nat)
    requires 0 < i < |order| && EveryStepOk(steps, levels, top, order, p, i)
    ensures |steps| == i
    ensures GraphOk(steps[i - 1], levels, top, Members(order[..i]), p) && Linked(steps[i - 1], Members(order[..i]), p)
  {
    hide GraphOk, Linked;
    assert order[..(i - 1) + 1] == order[..i];
  }

  lemma {:induction false} NextStep(steps: seq<Graph>, g: Graph, levels: seq<nat>, top: nat, order: seq<nat>, p: Params,
                                    i: nat)
    requires i < |order| && EveryStepOk(steps, levels, top, order, p, i)
    requires GraphOk(g, levels, top, Members(order[..i + 1]), p) && Linked(g, Members(order[..i + 1]), p)
    ensures EveryStepOk(steps + [g], levels, top, order, p, i + 1)
  {
    hide GraphOk, Linked;
  }

  /** The finished graph: all nodes inserted, every list good, none empty at layer 0 once there are two nodes. */
  lemma {:induction false} BuiltGraph(g: Graph, levels: seq<nat>, top: nat, order: seq<nat>, steps: seq<Graph>,
                                      p: Params, id: nat)
    requires IsOrder(order, levels) && EveryStepOk(steps, levels, top, order, p, |levels|)
    requires |levels| > 0 && g == steps[|levels| - 1] && id < |levels|
    ensures |g.layer0| == |levels| && |g.layer0[id]| <= p.maxL0 && Distinct(g.layer0[id])
    ensures forall v :: v in g.layer0[id] ==> v < |levels| && v != id
    ensures |levels| >= 2 && p.maxL0 > 0 ==> g.layer0[id] != []
    ensures |g.upper| == top
    ensures forall k: nat {:trigger g.upper[k]} | k < top :: id in g.upper[k] <==> levels[id] >= k + 1
    ensures forall k: nat {:trigger g.upper[k]} | k < top && id in g.upper[k] ::
              GoodList(g.upper[k][id], id, k + 1, levels, Range(|levels|), p.maxUpper)
  {
    var n := |levels|;
    AllMembers(order, levels);
    assert order[..(n - 1) + 1] == order;
    var all := Range(n);
    assert GraphOk(g, levels, top, all, p) && Linked(g, all, p);
    assert LayerOk(g, levels, all, 0, p);
    assert GoodList(NeighboursOf(g, 0, id), id, 0, levels, all, p.maxL0);
    RangeSize(n);
    forall k: nat | k < top
      ensures id in g.upper[k] <==> levels[id] >= k + 1
      ensures id in g.upper[k] ==> GoodList(g.upper[k][id], id, k + 1, levels, all, p.maxUpper)
    {
      assert LayerOk(g, levels, all, k + 1, p);
      assert id in g.upper[k].Keys <==> id in AtLevel(levels, all, k + 1);
      assert GoodList(NeighboursOf(g, k + 1, id), id, k + 1, levels, all, p.maxUpper);
    }
  }

  lemma {:induction false} AllMembers(order: seq<nat>, levels: seq<nat>)
    requires IsOrder(order, levels)
    ensures Members(order) == Range(|levels|)
  {
    forall v | v in Range(|levels|)
      ensures v in Members(order)
    {
      var i := PermOnto(order, |levels|, v);
    }
  }

  // ─── what was built, in distances alone ───

  /** `c` was left out of the neighbours of `q` because a nearer pick is nearer to it than `q` is, or because
      the list is full of nearer ones. */
  ghost predicate LeftOut(sel: seq<nat>, q: nat, c: nat, m: nat, dist: Dist) {
    || (exists i :: 0 <= i < |sel| && dist(q, sel[i]) <= dist(q, c) && dist(c, sel[i]) < dist(q, c))
    || (|sel| == m && forall s :: s in sel ==> dist(q, s) <= dist(q, c))
  }

  /** Neighbours of `q` picked out of some candidates, nearest first. */
  ghost predicate NeighboursPicked(heuristic: Heuristic, sel: seq<nat>, q: nat, candidates: seq<nat>, m: nat,
                                   dist: Dist) {
    && Selected(sel, q, candidates, m)
    && (forall i, j :: 0 <= i < j < |sel| ==> dist(q, sel[i]) <= dist(q, sel[j]))
    && match heuristic
       case Algorithm4 =>
         && (forall i, j :: 0 <= i < j < |sel| ==> dist(sel[j], sel[i]) >= dist(q, sel[j]))
         && forall c :: c in candidates && c != q && c !in sel ==> LeftOut(sel, q, c, m, dist)
       case Simple =>
         && |sel| == Least(m, |candidates|)
         && forall v, s :: v in candidates && v !in sel && s in sel ==> dist(q, v) >= dist(q, s)
  }

  lemma {:induction false} PickedByDistance(heuristic: Heuristic, sel: seq<nat>, q: nat, candidates: seq<nat>, m: nat,
                                            dist: Dist)
    ensures Picked(heuristic, sel, q, candidates, m, dist) <==> NeighboursPicked(heuristic, sel, q, candidates, m, dist)
  {
    hide Selected;
    forall c
      ensures Omitted(sel, c, m, KeyFrom(dist, q), dist) <==> LeftOut(sel, q, c, m, dist)
    {
    }
    hide Omitted, LeftOut;
  }

  /** Candidates of a search from `x`: nearest first, and none farther than a node seen and not kept. */
  ghost predicate NearestFirst(candidates: seq<nat>, visited: set<nat>, x: nat, dist: Dist) {
    && Distinct(candidates) && Members(candidates) <= visited
    && (forall i, j :: 0 <= i < j < |candidates| ==> dist(x, candidates[i]) <= dist(x, candidates[j]))
    && forall c, v :: c in candidates && v in visited && v !in candidates ==> dist(x, c) <= dist(x, v)
  }

  lemma {:induction false} FoundByDistance(g: Graph, inserted: set<nat>, x: nat, l: nat, p: Params, entries: seq<nat>,
                                           dist: Dist, candidates: seq<nat>, visited: set<nat>)
    requires Found(g, inserted, x, l, p, entries, dist, candidates, visited)
    ensures NearestFirst(candidates, visited, x, dist) && Members(entries) * inserted <= visited <= inserted
    ensures |candidates| == Least(|visited|, Greatest(p.efConstruction, |Members(entries) * inserted|))
  {
    hide Reachable, Expanded;
    MembersSize(candidates);
    assert forall c :: c in candidates <==> c in Members(candidates);
  }

  /** What one insertion does to layer `l`, in distances: search, selection, and every list linked back. */
  ghost predicate LinkedByDistance(g: Graph, r: Graph, inserted: set<nat>, x: nat, l: nat, p: Params, starts: seq<nat>,
                                   dist: Dist, selected: seq<nat>) {
    var bound := if l == 0 then p.maxL0 else p.maxUpper;
    && (exists candidates, visited ::
          && NearestFirst(candidates, visited, x, dist) && Members(starts) * inserted <= visited <= inserted
          && |candidates| == Least(|visited|, Greatest(p.efConstruction, |Members(starts) * inserted|))
          && NeighboursPicked(p.heuristic, selected, x, candidates, bound, dist))
    && NeighboursOf(r, l, x) == selected
    && (forall v {:trigger NeighboursOf(r, l, v)} :: v in selected ==>
          LinkedBack(NeighboursOf(g, l, v), NeighboursOf(r, l, v), v, x, bound, p.heuristic, dist))
    && forall v {:trigger NeighboursOf(r, l, v)} ::
         v != x && v !in selected ==> NeighboursOf(r, l, v) == NeighboursOf(g, l, v)
  }

  /** `x` appended to the list of `v`, or the list picked again when it was full. */
  ghost predicate LinkedBack(was: seq<nat>, now: seq<nat>, v: nat, x: nat, bound: nat, heuristic: Heuristic, dist: Dist)
  {
    if |was| < bound then now == was + [x] else NeighboursPicked(heuristic, now, v, was + [x], bound, dist)
  }

  lemma {:induction false} LayerByDistance(g: Graph, r: Graph, inserted: set<nat>, x: nat, l: nat, p: Params,
                                           entries: seq<nat>, dist: Dist, selected: seq<nat>)
    requires LayerInserted(g, r, inserted, x, l, p, entries, dist, selected)
    ensures LinkedByDistance(g, r, inserted, x, l, p, entries, dist, selected)
  {
    hide Found, Picked, NeighboursPicked, NearestFirst, NeighboursOf, OnlyLayer;
    var candidates, visited :| Found(g, inserted, x, l, p, entries, dist, candidates, visited)
        && Picked(p.heuristic, selected, x, candidates, Bound(p, l), dist);
    FoundByDistance(g, inserted, x, l, p, entries, dist, candidates, visited);
    PickedByDistance(p.heuristic, selected, x, candidates, Bound(p, l), dist);
    forall v | v in selected
      ensures LinkedBack(NeighboursOf(g, l, v), NeighboursOf(r, l, v), v, x, Bound(p, l), p.heuristic, dist)
    {
      PickedByDistance(p.heuristic, NeighboursOf(r, l, v), v, NeighboursOf(g, l, v) + [x], Bound(p, l), dist);
    }
  }

  /** The descent towards `x`: no farther than the entry, and with no closer neighbour on the layer above its own. */
  ghost predicate DescendedByDistance(g: Graph, levels: seq<nat>, top: nat, x: nat, entry: nat, current: nat,
                                      dist: Dist)
    requires x < |levels|
  {
    && dist(x, current) <= dist(x, entry)
    && (levels[x] >= top ==> current == entry)
    && (levels[x] < top ==> forall v :: v in NeighboursOf(g, levels[x] + 1, current) ==> dist(x, v) >= dist(x, current))
  }

  /** One insertion from start to end: descent, then layer by layer down to 0, each search starting from the
      picks of the layer above, or from the end of the descent when there are none. */
  ghost predicate InsertedByDistance(g: Graph, r: Graph, levels: seq<nat>, top: nat, inserted: set<nat>, x: nat,
                                     p: Params, entry: nat, dist: Dist, t: Trail)
    requires x < |levels|
  {
    && DescendedByDistance(g, levels, top, x, entry, t.current, dist)
    && |t.picks| == levels[x] + 1 && |t.graphs| == levels[x] + 2 && t.graphs[0] == g && t.graphs[levels[x] + 1] == r
    && forall i: nat {:trigger t.picks[i]} | i <= levels[x] ::
         LinkedByDistance(t.graphs[i], t.graphs[i + 1], inserted, x, levels[x] - i, p,
                          if i > 0 && t.picks[i - 1] != [] then t.picks[i - 1] else [t.current], dist, t.picks[i])
  }

  lemma {:induction false} NodeByDistance(g: Graph, r: Graph, levels: seq<nat>, top: nat, inserted: set<nat>, x: nat,
                                          p: Params, entry: nat, dist: Dist, t: Trail)
    requires x < |levels| && NodeInserted(g, r, levels, top, inserted, x, p, entry, dist, t)
    ensures InsertedByDistance(g, r, levels, top, inserted, x, p, entry, dist, t)
  {
    hide LayersInserted, LayerInserted, LinkedByDistance, NeighboursOf, DescendedByDistance, Descended;
    EndOfDescent(g, levels, top, x, entry, t.current, dist);
    LayersShape(g, r, levels, inserted, x, p, dist, t);
    forall i: nat | i <= levels[x]
      ensures LinkedByDistance(t.graphs[i], t.graphs[i + 1], inserted, x, levels[x] - i, p,
                               if i > 0 && t.picks[i - 1] != [] then t.picks[i - 1] else [t.current], dist, t.picks[i])
    {
      OneLayerByDistance(g, r, levels, inserted, x, p, dist, t, i);
    }
  }

  lemma {:induction false} LayersShape(g: Graph, r: Graph, levels: seq<nat>, inserted: set<nat>, x: nat, p: Params,
                                       dist: Dist, t: Trail)
    requires x < |levels| && LayersInserted(g, r, levels, inserted, x, p, dist, t, levels[x] + 1)
    ensures |t.picks| == levels[x] + 1 && |t.graphs| == levels[x] + 2
    ensures t.graphs[0] == g && t.graphs[levels[x] + 1] == r
  {
    hide LayerInserted;
  }

  lemma {:induction false} OneLayerByDistance(g: Graph, r: Graph, levels: seq<nat>, inserted: set<nat>, x: nat,
                                              p: Params, dist: Dist, t: Trail, i: nat)
    requires x < |levels| && LayersInserted(g, r, levels, inserted, x, p, dist, t, levels[x] + 1) && i <= levels[x]
    requires |t.picks| == levels[x] + 1 && |t.graphs| == levels[x] + 2
    ensures LinkedByDistance(t.graphs[i], t.graphs[i + 1], inserted, x, levels[x] - i, p,
                             if i > 0 && t.picks[i - 1] != [] then t.picks[i - 1] else [t.current], dist, t.picks[i])
  {
    hide LayerInserted, LinkedByDistance;
    assert LayerInserted(t.graphs[i], t.graphs[i + 1], inserted, x, levels[x] - i, p, EntriesAfter(t, i), dist,
                         t.picks[i]);
    hide LayersInserted;
    LayerByDistance(t.graphs[i], t.graphs[i + 1], inserted, x, levels[x] - i, p, EntriesAfter(t, i), dist, t.picks[i]);
  }

  lemma {:induction false} EndOfDescent(g: Graph, levels: seq<nat>, top: nat, x: nat, entry: nat, current: nat,
                                        dist: Dist)
    requires x < |levels| && Descended(g, levels, top, x, entry, current, dist)
    ensures DescendedByDistance(g, levels, top, x, entry, current, dist)
  {
    hide NeighboursOf;
  }

  /** Every insertion of a build, highest level first: node `order[i]` is linked by distance into the graph
      of the nodes before it. */
  lemma {:induction false} BuiltByDistance(g: Graph, entry: nat, top: nat, levels: seq<nat>, p: Params, dist: Dist,
                                           order: seq<nat>, steps: seq<Graph>, trails: seq<Trail>, i: nat)
    requires BuildTrace(g, entry, top, levels, p, dist, order, steps, trails) && 0 < i < |levels|
    ensures |steps| == |order| == |levels| && |trails| == |levels| - 1 && g == steps[|levels| - 1]
    ensures order[i] < |levels| && order[0] == entry
    ensures forall j :: 0 <= j < i ==>
              (levels[order[j]] > levels[order[i]] || (levels[order[j]] == levels[order[i]] && order[j] < order[i]))
    ensures InsertedByDistance(steps[i - 1], steps[i], levels, top, Members(order[..i]), order[i], p, entry, dist,
                               trails[i - 1])
  {
    hide EveryStepOk, NodeInserted, InsertedByDistance;
    assert StepInserts(steps, trails, levels, top, order, p, entry, dist, i - 1);
    NodeByDistance(steps[i - 1], steps[i], levels, top, Members(order[..i]), order[i], p, entry, dist, trails[i - 1]);
    forall j | 0 <= j < i
      ensures levels[order[j]] > levels[order[i]] || (levels[order[j]] == levels[order[i]] && order[j] < order[i])
    {
      assert Earlier(levels, order[j], order[i]);
    }
  }
}
