/** The two-heap beam search both the index builder and the encrypted search run. Heaps hold
    node ids ordered by distance, ties by id. */
module Beam {
  import opened Sums

  /** `a` comes before `b` in a heap. */
  predicate Before(key: nat -> real, a: nat, b: nat) {
    key(a) < key(b) || (key(a) == key(b) && a <= b)
  }

  ghost predicate IsMin(key: nat -> real, s: set<nat>, x: nat) {
    x in s && forall y :: y in s ==> Before(key, x, y)
  }

  ghost predicate IsMax(key: nat -> real, s: set<nat>, x: nat) {
    x in s && forall y :: y in s ==> Before(key, y, x)
  }

  /** The root of a min-heap: one pass over its entries. */
  method PeekMin(key: nat -> real, s: set<nat>) returns (x: nat)
    requires s != {}
    ensures IsMin(key, s, x)
  {
    x :| x in s;
    var rest := s - {x};
    while rest != {}
      invariant rest <= s && x in s
      invariant forall y :: y in s && y !in rest ==> Before(key, x, y)
      decreases |rest|
    {
      var y :| y in rest;
      if Before(key, y, x) {
        x := y;
      }
      rest := rest - {y};
    }
  }

  method PeekMax(key: nat -> real, s: set<nat>) returns (x: nat)
    requires s != {}
    ensures IsMax(key, s, x)
  {
    x :| x in s;
    var rest := s - {x};
    while rest != {}
      invariant rest <= s && x in s
      invariant forall y :: y in s && y !in rest ==> Before(key, y, x)
      decreases |rest|
    {
      var y :| y in rest;
      if Before(key, x, y) {
        x := y;
      }
      rest := rest - {y};
    }
  }

  ghost predicate Distinct(s: seq<nat>) {
    forall i, j :: 0 <= i < j < |s| ==> s[i] != s[j]
  }

  ghost predicate SortedBy(key: nat -> real, s: seq<nat>) {
    forall i, j :: 0 <= i < j < |s| ==> key(s[i]) <= key(s[j])
  }

  ghost function Members(s: seq<nat>): set<nat> {
    set x | x in s
  }

  lemma {:induction false} MembersSize(s: seq<nat>)
    requires Distinct(s)
    ensures |Members(s)| == |s|
  {
    if s != [] {
      var last := s[|s| - 1];
      var rest := s[..|s| - 1];
      MembersSize(rest);
      assert Members(s) == Members(rest) + {last};
    }
  }

  /** What search has left in its result heap is the best of what it has seen. */
  ghost predicate BestOf(key: nat -> real, top: set<nat>, visited: set<nat>) {
    top <= visited && forall v, t :: v in visited && v !in top && t in top ==> key(v) >= key(t)
  }

  function Least(a: nat, b: nat): nat {
    if a < b then a else b
  }

  function Greatest(a: nat, b: nat): nat {
    if a < b then b else a
  }

  /** Everything a finished or pending expansion must satisfy. `cap` is the size the result
      heap may reach. */
  ghost predicate Searching(key: nat -> real, nbr: nat -> seq<nat>, inserted: set<nat>, starts: set<nat>, ef: nat,
                            visited: set<nat>, candidates: set<nat>, top: set<nat>) {
    && starts <= visited <= inserted && candidates <= visited
    && BestOf(key, top, visited)
    && |top| == Least(|visited|, Greatest(ef, |starts|))
    && (forall v {:trigger v in visited} | v in visited :: Reachable(nbr, inserted, starts, v))
  }

  // ─── reachability ───

  ghost predicate Reach(nbr: nat -> seq<nat>, inserted: set<nat>, starts: set<nat>, v: nat, steps: nat)
    decreases steps
  {
    if steps == 0 then v in starts
    else exists u :: Reach(nbr, inserted, starts, u, steps - 1) && v in nbr(u) && v in inserted
  }

  ghost predicate Reachable(nbr: nat -> seq<nat>, inserted: set<nat>, starts: set<nat>, v: nat) {
    exists steps: nat :: Reach(nbr, inserted, starts, v, steps)
  }

  lemma {:induction false} ReachStep(nbr: nat -> seq<nat>, inserted: set<nat>, starts: set<nat>, u: nat, v: nat)
    requires Reachable(nbr, inserted, starts, u) && v in nbr(u) && v in inserted
    ensures Reachable(nbr, inserted, starts, v)
  {
    var steps: nat :| Reach(nbr, inserted, starts, u, steps);
    assert Reach(nbr, inserted, starts, v, steps + 1);
  }

  lemma {:induction false} ReachStart(nbr: nat -> seq<nat>, inserted: set<nat>, starts: set<nat>, v: nat)
    requires v in starts
    ensures Reachable(nbr, inserted, starts, v)
  {
    assert Reach(nbr, inserted, starts, v, 0);
  }

  ghost predicate ClosedUnder(s: set<nat>, nbr: nat -> seq<nat>, inserted: set<nat>) {
    forall u, v :: u in s && v in nbr(u) && v in inserted ==> v in s
  }

  lemma {:induction false} ClosedHoldsAll(s: set<nat>, nbr: nat -> seq<nat>, inserted: set<nat>, starts: set<nat>,
                                          v: nat, steps: nat)
    requires ClosedUnder(s, nbr, inserted) && starts <= s && Reach(nbr, inserted, starts, v, steps)
    ensures v in s
    decreases steps
  {
    if steps > 0 {
      var u :| Reach(nbr, inserted, starts, u, steps - 1) && v in nbr(u) && v in inserted;
      ClosedHoldsAll(s, nbr, inserted, starts, u, steps - 1);
    }
  }

  // ─── one neighbour ───

  /** Every inserted neighbour of `u` has been seen. */
  ghost predicate Expanded(nbr: nat -> seq<nat>, inserted: set<nat>, visited: set<nat>, u: nat) {
    forall w :: w in nbr(u) && w in inserted ==> w in visited
  }

  /** Every result has been expanded, is waiting to be, or is the one at hand. */
  ghost predicate Pending(nbr: nat -> seq<nat>, inserted: set<nat>, visited: set<nat>, candidates: set<nat>,
                          top: set<nat>, c: nat) {
    forall u :: u in top ==> u in candidates || u == c || Expanded(nbr, inserted, visited, u)
  }

  lemma {:induction false} AllSeen(top: set<nat>, visited: set<nat>)
    requires top <= visited && |top| == |visited|
    ensures top == visited
  {
    if top != visited {
      var x :| x in visited && x !in top;
      SubsetSize(top, visited - {x});
    }
  }

  /** A full result heap stays at its capacity. */
  lemma {:induction false} FullHeap(visited: set<nat>, starts: set<nat>, ef: nat, top: set<nat>)
    requires starts <= visited && |top| == Least(|visited|, Greatest(ef, |starts|)) && |top| >= ef
    ensures |top| == Greatest(ef, |starts|)
  {
    SubsetSize(starts, visited);
  }

  lemma {:induction false} SeenOne(nbr: nat -> seq<nat>, inserted: set<nat>, starts: set<nat>, visited: set<nat>,
                                   n: nat)
    requires forall v {:trigger v in visited} | v in visited :: Reachable(nbr, inserted, starts, v)
    requires Reachable(nbr, inserted, starts, n)
    ensures forall v {:trigger v in visited + {n}} | v in visited + {n} :: Reachable(nbr, inserted, starts, v)
  {
    hide Reachable;
  }

  lemma {:induction false} PendingGrows(nbr: nat -> seq<nat>, inserted: set<nat>, visited: set<nat>,
                                        candidates: set<nat>, top: set<nat>, c: nat, n: nat, candidates': set<nat>,
                                        top': set<nat>)
    requires Pending(nbr, inserted, visited, candidates, top, c)
    requires candidates <= candidates' && top' <= top + {n} && (n in top' ==> n in candidates' || n in top)
    ensures Pending(nbr, inserted, visited + {n}, candidates', top', c)
  {
  }

  lemma {:induction false} OfferRoom(key: nat -> real, nbr: nat -> seq<nat>, inserted: set<nat>, starts: set<nat>,
                                     ef: nat, visited: set<nat>, candidates: set<nat>, top: set<nat>, n: nat, c: nat)
    requires Searching(key, nbr, inserted, starts, ef, visited, candidates, top)
    requires Pending(nbr, inserted, visited, candidates, top, c)
    requires |top| < ef && n in inserted && n !in visited && Reachable(nbr, inserted, starts, n)
    ensures Searching(key, nbr, inserted, starts, ef, visited + {n}, candidates + {n}, top + {n})
    ensures Pending(nbr, inserted, visited + {n}, candidates + {n}, top + {n}, c)
  {
    AllSeen(top, visited);
    SeenOne(nbr, inserted, starts, visited, n);
    PendingGrows(nbr, inserted, visited, candidates, top, c, n, candidates + {n}, top + {n});
    hide Reachable, Pending;
  }

  lemma {:induction false} OfferSwap(key: nat -> real, nbr: nat -> seq<nat>, inserted: set<nat>, starts: set<nat>,
                                     ef: nat, visited: set<nat>, candidates: set<nat>, top: set<nat>, n: nat, c: nat,
                                     farthest: nat)
    requires Searching(key, nbr, inserted, starts, ef, visited, candidates, top)
    requires Pending(nbr, inserted, visited, candidates, top, c)
    requires |top| >= ef && n in inserted && n !in visited && Reachable(nbr, inserted, starts, n)
    requires IsMax(key, top, farthest) && key(n) < key(farthest)
    ensures Searching(key, nbr, inserted, starts, ef, visited + {n}, candidates + {n}, top - {farthest} + {n})
    ensures Pending(nbr, inserted, visited + {n}, candidates + {n}, top - {farthest} + {n}, c)
  {
    FullHeap(visited, starts, ef, top);
    SeenOne(nbr, inserted, starts, visited, n);
    PendingGrows(nbr, inserted, visited, candidates, top, c, n, candidates + {n}, top - {farthest} + {n});
    hide Reachable, Pending;
    BestSwapped(key, top, visited, n, farthest);
    SwappedSize(top, farthest, n);
    hide BestOf, IsMax;
  }

  lemma {:induction false} SwappedSize(top: set<nat>, farthest: nat, n: nat)
    requires farthest in top && n !in top
    ensures |top - {farthest} + {n}| == |top|
  {
  }

  lemma {:induction false} BestSwapped(key: nat -> real, top: set<nat>, visited: set<nat>, n: nat, farthest: nat)
    requires BestOf(key, top, visited) && IsMax(key, top, farthest) && key(n) < key(farthest)
    ensures BestOf(key, top - {farthest} + {n}, visited + {n})
  {
  }

  lemma {:induction false} OfferReject(key: nat -> real, nbr: nat -> seq<nat>, inserted: set<nat>, starts: set<nat>,
                                       ef: nat, visited: set<nat>, candidates: set<nat>, top: set<nat>, n: nat, c: nat,
                                       farthest: nat)
    requires Searching(key, nbr, inserted, starts, ef, visited, candidates, top)
    requires Pending(nbr, inserted, visited, candidates, top, c)
    requires |top| >= ef && n in inserted && n !in visited && Reachable(nbr, inserted, starts, n)
    requires IsMax(key, top, farthest) && key(n) >= key(farthest)
    ensures Searching(key, nbr, inserted, starts, ef, visited + {n}, candidates, top)
    ensures Pending(nbr, inserted, visited + {n}, candidates, top, c)
  {
    FullHeap(visited, starts, ef, top);
    SeenOne(nbr, inserted, starts, visited, n);
    PendingGrows(nbr, inserted, visited, candidates, top, c, n, candidates, top);
    hide Reachable, Pending;
  }

  /** A newly seen node: into both heaps while there is room, or in place of the farthest. */
  method Offer(key: nat -> real, ghost nbr: nat -> seq<nat>, ghost inserted: set<nat>, ghost starts: set<nat>, ef: nat,
               ghost visited: set<nat>, candidates: set<nat>, top: set<nat>, n: nat, ghost c: nat)
    returns (candidates': set<nat>, top': set<nat>)
    requires Searching(key, nbr, inserted, starts, ef, visited, candidates, top)
    requires Pending(nbr, inserted, visited, candidates, top, c)
    requires top != {} && n in inserted && n !in visited && Reachable(nbr, inserted, starts, n)
    ensures Searching(key, nbr, inserted, starts, ef, visited + {n}, candidates', top')
    ensures Pending(nbr, inserted, visited + {n}, candidates', top', c)
    ensures top' != {} && candidates <= candidates' <= candidates + {n} && top' <= top + candidates'
  {
    hide *;
    if |top| < ef {
      top' := top + {n};
      candidates' := candidates + {n};
      OfferRoom(key, nbr, inserted, starts, ef, visited, candidates, top, n, c);
    } else {
      var farthest := PeekMax(key, top);
      if key(n) < key(farthest) {
        top' := top - {farthest} + {n};
        candidates' := candidates + {n};
        OfferSwap(key, nbr, inserted, starts, ef, visited, candidates, top, n, c, farthest);
      } else {
        top' := top;
        candidates' := candidates;
        OfferReject(key, nbr, inserted, starts, ef, visited, candidates, top, n, c, farthest);
      }
    }
  }

  // ─── the search ───

  /** Seeds both heaps with the entry points that exist; they are not capped at `ef`. */
  method Seed(key: nat -> real, nbr: nat -> seq<nat>, entries: seq<nat>, ef: nat, inserted: set<nat>)
    returns (visited: set<nat>, ghost starts: set<nat>)
    ensures visited == Members(entries) * inserted
    ensures starts == visited
  {
    visited := {};
    for i := 0 to |entries|
      invariant visited == Members(entries[..i]) * inserted
    {
      var e := entries[i];
      assert Members(entries[..i + 1]) == Members(entries[..i]) + {e};
      if e !in inserted {
        continue;
      }
      if e in visited {
        continue;
      }
      visited := visited + {e};
    }
    assert entries[..|entries|] == entries;
    starts := visited;
  }

  /** What a search returns: the best `ef` of what it saw (or all its starts, if those are
      more), every one of them with all its neighbours seen. */
  ghost predicate SearchResult(key: nat -> real, nbr: nat -> seq<nat>, inserted: set<nat>, starts: set<nat>, ef: nat,
                               visited: set<nat>, top: set<nat>) {
    && Searching(key, nbr, inserted, starts, ef, visited, {}, top)
    && forall u :: u in top ==> Expanded(nbr, inserted, visited, u)
  }

  method Expand(key: nat -> real, nbr: nat -> seq<nat>, inserted: set<nat>, ghost starts: set<nat>, ef: nat, c: nat,
                visited: set<nat>, candidates: set<nat>, top: set<nat>)
    returns (visited': set<nat>, candidates': set<nat>, top': set<nat>)
    requires Searching(key, nbr, inserted, starts, ef, visited, candidates, top) && c in visited && top != {}
    requires Pending(nbr, inserted, visited, candidates, top, c)
    ensures Searching(key, nbr, inserted, starts, ef, visited', candidates', top') && top' != {}
    ensures visited <= visited' && (visited' == visited ==> candidates' == candidates)
    ensures forall u :: u in top' ==> u in candidates' || Expanded(nbr, inserted, visited', u)
  {
    hide Searching, Pending, Reachable;
    visited', candidates', top' := visited, candidates, top;
    var nbrs := nbr(c);
    for i := 0 to |nbrs|
      invariant Searching(key, nbr, inserted, starts, ef, visited', candidates', top') && top' != {}
      invariant Pending(nbr, inserted, visited', candidates', top', c)
      invariant visited <= visited' && (visited' == visited ==> candidates' == candidates)
      invariant forall j :: 0 <= j < i && nbrs[j] in inserted ==> nbrs[j] in visited'
    {
      var n := nbrs[i];
      if n !in inserted {
        continue;
      }
      if n in visited' {
        continue;
      }
      ReachNeighbour(key, nbr, inserted, starts, ef, visited', candidates', top', c, n);
      candidates', top' := Offer(key, nbr, inserted, starts, ef, visited', candidates', top', n, c);
      visited' := visited' + {n};
      assert n !in visited;
    }
    ExpandedNow(nbr, inserted, visited', candidates', top', c);
  }

  lemma {:induction false} ReachNeighbour(key: nat -> real, nbr: nat -> seq<nat>, inserted: set<nat>, starts: set<nat>,
                                          ef: nat, visited: set<nat>, candidates: set<nat>, top: set<nat>, c: nat,
                                          n: nat)
    requires Searching(key, nbr, inserted, starts, ef, visited, candidates, top)
    requires c in visited && n in nbr(c) && n in inserted
    ensures Reachable(nbr, inserted, starts, n)
  {
    ReachStep(nbr, inserted, starts, c, n);
  }

  lemma {:induction false} ExpandedNow(nbr: nat -> seq<nat>, inserted: set<nat>, visited: set<nat>,
                                       candidates: set<nat>, top: set<nat>, c: nat)
    requires Pending(nbr, inserted, visited, candidates, top, c)
    requires forall j :: 0 <= j < |nbr(c)| && nbr(c)[j] in inserted ==> nbr(c)[j] in visited
    ensures forall u :: u in top ==> u in candidates || Expanded(nbr, inserted, visited, u)
  {
  }

  /** Best-first search with a bounded result heap. It stops when nothing is left to expand,
      or when the closest candidate is farther than every result of a full heap. */
  method BeamSearch(key: nat -> real, nbr: nat -> seq<nat>, entries: seq<nat>, ef: nat, inserted: set<nat>)
    returns (top: set<nat>, ghost visited: set<nat>)
    requires Members(entries) * inserted != {}
    ensures SearchResult(key, nbr, inserted, Members(entries) * inserted, ef, visited, top)
    ensures top != {}
  {
    var seen, starts := Seed(key, nbr, entries, ef, inserted);
    var candidates := seen;
    top := seen;
    Seeded(key, nbr, inserted, starts, ef);
    hide *;
    while candidates != {}
      invariant Searching(key, nbr, inserted, starts, ef, seen, candidates, top) && top != {}
      invariant forall u :: u in top ==> u in candidates || Expanded(nbr, inserted, seen, u)
      decreases inserted - seen, |candidates|
    {
      var c := PeekMin(key, candidates);
      if |top| >= ef {
        var farthest := PeekMax(key, top);
        if key(c) > key(farthest) {
          NothingCloser(key, nbr, inserted, seen, candidates, top, c, farthest);
          break;
        }
      }
      Popped(key, nbr, inserted, starts, ef, seen, candidates, top, c);
      ghost var before := seen;
      seen, candidates, top := Expand(key, nbr, inserted, starts, ef, c, seen, candidates - {c}, top);
      Shrinks(key, nbr, inserted, starts, ef, before, seen, candidates, top);
    }
    visited := seen;
    Finished(key, nbr, inserted, starts, ef, seen, candidates, top);
  }

  lemma {:induction false} Seeded(key: nat -> real, nbr: nat -> seq<nat>, inserted: set<nat>, starts: set<nat>, ef: nat)
    requires starts <= inserted
    ensures Searching(key, nbr, inserted, starts, ef, starts, starts, starts)
  {
    forall v | v in starts
      ensures Reachable(nbr, inserted, starts, v)
    {
      ReachStart(nbr, inserted, starts, v);
    }
  }

  lemma {:induction false} Popped(key: nat -> real, nbr: nat -> seq<nat>, inserted: set<nat>, starts: set<nat>, ef: nat,
                                  visited: set<nat>, candidates: set<nat>, top: set<nat>, c: nat)
    requires Searching(key, nbr, inserted, starts, ef, visited, candidates, top) && IsMin(key, candidates, c)
    requires forall u :: u in top ==> u in candidates || Expanded(nbr, inserted, visited, u)
    ensures c in visited
    ensures Searching(key, nbr, inserted, starts, ef, visited, candidates - {c}, top)
    ensures Pending(nbr, inserted, visited, candidates - {c}, top, c)
  {
    hide Reachable;
  }

  lemma {:induction false} Shrinks(key: nat -> real, nbr: nat -> seq<nat>, inserted: set<nat>, starts: set<nat>,
                                   ef: nat, before: set<nat>, visited: set<nat>, candidates: set<nat>, top: set<nat>)
    requires Searching(key, nbr, inserted, starts, ef, visited, candidates, top) && before <= visited
    ensures visited == before || inserted - visited < inserted - before
  {
    if visited != before {
      var x :| x in visited && x !in before;
      assert x in inserted - before && x !in inserted - visited;
    }
  }

  /** When the closest candidate is beyond the farthest result, no result is still waiting. */
  lemma {:induction false} NothingCloser(key: nat -> real, nbr: nat -> seq<nat>, inserted: set<nat>, visited: set<nat>,
                                         candidates: set<nat>, top: set<nat>, c: nat, farthest: nat)
    requires IsMin(key, candidates, c) && IsMax(key, top, farthest) && key(c) > key(farthest)
    requires forall u :: u in top ==> u in candidates || Expanded(nbr, inserted, visited, u)
    ensures forall u :: u in top ==> Expanded(nbr, inserted, visited, u)
  {
  }

  lemma {:induction false} Finished(key: nat -> real, nbr: nat -> seq<nat>, inserted: set<nat>, starts: set<nat>,
                                    ef: nat, visited: set<nat>, candidates: set<nat>, top: set<nat>)
    requires Searching(key, nbr, inserted, starts, ef, visited, candidates, top)
    requires forall u :: u in top ==> Expanded(nbr, inserted, visited, u)
    ensures SearchResult(key, nbr, inserted, starts, ef, visited, top)
  {
    hide Reachable;
  }

  /** With room for every node, the search sees and returns exactly what is reachable. */
  lemma {:induction false} WideSearch(key: nat -> real, nbr: nat -> seq<nat>, inserted: set<nat>, starts: set<nat>,
                                      ef: nat, visited: set<nat>, top: set<nat>)
    requires SearchResult(key, nbr, inserted, starts, ef, visited, top) && ef >= |inserted|
    ensures top == visited
    ensures forall v :: v in top <==> Reachable(nbr, inserted, starts, v)
  {
    SubsetSize(visited, inserted);
    AllSeen(top, visited);
    assert ClosedUnder(visited, nbr, inserted) by {
      forall u, v | u in visited && v in nbr(u) && v in inserted
        ensures v in visited
      {
        assert Expanded(nbr, inserted, visited, u);
      }
    }
    forall v | Reachable(nbr, inserted, starts, v)
      ensures v in visited
    {
      var steps: nat :| Reach(nbr, inserted, starts, v, steps);
      ClosedHoldsAll(visited, nbr, inserted, starts, v, steps);
    }
  }

  /** However narrow the beam: a neighbour of a result that was left out is no closer than any result. */
  lemma {:induction false} LocallyBest(key: nat -> real, nbr: nat -> seq<nat>, inserted: set<nat>, starts: set<nat>,
                                       ef: nat, visited: set<nat>, top: set<nat>, t: nat, w: nat, other: nat)
    requires SearchResult(key, nbr, inserted, starts, ef, visited, top)
    requires t in top && w in nbr(t) && w in inserted && w !in top && other in top
    ensures key(w) >= key(other)
  {
    hide Reachable;
    assert Expanded(nbr, inserted, visited, t);
  }
}
