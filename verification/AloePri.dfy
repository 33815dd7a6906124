/** The token permutation: building `τ`, its inverse by argsort, the permuted vocabulary
    tables, and greedy decoding on them seen through the client. */
module AloePri {
  import opened Sums

  // ─── building τ ───

  /** NORMAL and BYTE tokens. */
  const NORMAL: nat := 1
  const BYTE: nat := 6

  predicate IsPermutable(tokenTypes: seq<nat>, includeSpecials: bool, id: nat) {
    includeSpecials || (id < |tokenTypes| && (tokenTypes[id] == NORMAL || tokenTypes[id] == BYTE))
  }

  ghost predicate Distinct(s: seq<nat>) {
    forall i, j :: 0 <= i < j < |s| ==> s[i] != s[j]
  }

  ghost predicate SameMembers(a: seq<nat>, b: seq<nat>) {
    forall v :: v in a <==> v in b
  }

  /** Ids in the active range whose token type may move, in order. */
  method PermutableIds(tokenTypes: seq<nat>, active: nat, includeSpecials: bool) returns (ids: seq<nat>)
    ensures Distinct(ids)
    ensures forall v: nat :: v in ids <==>
              v < active && (includeSpecials || (v < |tokenTypes| && (tokenTypes[v] == 1 || tokenTypes[v] == 6)))
    ensures forall i, j :: 0 <= i < j < |ids| ==> ids[i] < ids[j]
  {
    ids := [];
    for id := 0 to active
      invariant forall i, j :: 0 <= i < j < |ids| ==> ids[i] < ids[j]
      invariant forall v: nat :: v in ids <==> v < id && IsPermutable(tokenTypes, includeSpecials, v)
    {
      if IsPermutable(tokenTypes, includeSpecials, id) {
        assert forall i :: 0 <= i < |ids| ==> ids[i] in ids;
        ids := ids + [id];
      }
    }
  }

  /** Identity, then the permutable ids reassigned to their shuffle. */
  method BuildTau(n: nat, ids: seq<nat>, shuffled: seq<nat>) returns (tau: seq<nat>)
    requires Distinct(ids) && Distinct(shuffled) && SameMembers(ids, shuffled) && |ids| == |shuffled|
    requires forall v :: v in ids ==> v < n
    ensures IsPerm(tau, n)
    ensures forall v: nat :: v < n && v !in ids ==> tau[v] == v
    ensures forall i {:trigger ids[i]} | 0 <= i < |ids| :: ids[i] < n && tau[ids[i]] == shuffled[i]
  {
    tau := seq(n, i requires 0 <= i < n => i);
    for i := 0 to |ids|
      invariant |tau| == n
      invariant forall v: nat :: v < n && v !in ids ==> tau[v] == v
      invariant forall j {:trigger ids[j]} | 0 <= j < i :: ids[j] < n && tau[ids[j]] == shuffled[j]
    {
      assert ids[i] in ids;
      tau := tau[ids[i] := shuffled[i]];
    }
    TauIsPerm(n, ids, shuffled, tau);
  }

  lemma {:induction false} TauIsPerm(n: nat, ids: seq<nat>, shuffled: seq<nat>, tau: seq<nat>)
    requires Distinct(ids) && Distinct(shuffled) && SameMembers(ids, shuffled) && |ids| == |shuffled| && |tau| == n
    requires forall v :: v in ids ==> v < n
    requires forall v: nat :: v < n && v !in ids ==> tau[v] == v
    requires forall i {:trigger ids[i]} | 0 <= i < |ids| :: ids[i] < n && tau[ids[i]] == shuffled[i]
    ensures IsPerm(tau, n)
  {
    forall v: nat | v < n
      ensures tau[v] < n && (v in ids <==> tau[v] in ids)
    {
      if v in ids {
        var i :| 0 <= i < |ids| && ids[i] == v;
        assert shuffled[i] in shuffled;
      }
    }
    forall u: nat, v: nat | u < v < n
      ensures tau[u] != tau[v]
    {
      if u in ids && v in ids {
        var i :| 0 <= i < |ids| && ids[i] == u;
        var j :| 0 <= j < |ids| && ids[j] == v;
        assert shuffled[i] != shuffled[j] by {
          if i < j {
            assert shuffled[i] != shuffled[j];
          } else {
            assert shuffled[j] != shuffled[i];
          }
        }
      }
    }
  }

  /** `τ` and `τ⁻¹` */
  ghost predicate Inverse(tau: seq<nat>, inv: seq<nat>, n: nat) {
    && IsPerm(tau, n) && IsPerm(inv, n)
    && (forall i {:trigger tau[i]} | 0 <= i < n :: inv[tau[i]] == i)
    && (forall i {:trigger inv[i]} | 0 <= i < n :: tau[inv[i]] == i)
  }

  ghost predicate SortedOn(tau: seq<nat>, p: seq<nat>) {
    forall i, j :: 0 <= i < j < |p| ==> p[i] < |tau| && p[j] < |tau| && tau[p[i]] <= tau[p[j]]
  }

  /** Strictly increasing numbers below `n`, `n` of them, are `0 .. n`. */
  lemma {:induction false} Climbs(n: nat, f: seq<nat>, i: nat)
    requires |f| == n && i < n && (forall k :: 0 <= k < n ==> f[k] < n)
    requires forall a, b :: 0 <= a < b < n ==> f[a] < f[b]
    ensures i <= f[i] <= i
  {
    ClimbsFrom(n, f, i);
    ClimbsTo(n, f, i);
  }

  lemma {:induction false} ClimbsFrom(n: nat, f: seq<nat>, i: nat)
    requires |f| == n && i < n
    requires forall a, b :: 0 <= a < b < n ==> f[a] < f[b]
    ensures i <= f[i]
  {
    if i > 0 {
      ClimbsFrom(n, f, i - 1);
      assert f[i - 1] < f[i];
    }
  }

  lemma {:induction false} ClimbsTo(n: nat, f: seq<nat>, i: nat)
    requires |f| == n && i < n && (forall k :: 0 <= k < n ==> f[k] < n)
    requires forall a, b :: 0 <= a < b < n ==> f[a] < f[b]
    ensures f[i] <= i
    decreases n - i
  {
    if i + 1 < n {
      ClimbsTo(n, f, i + 1);
      assert f[i] < f[i + 1];
    }
  }

  lemma {:induction false} PermDiffers(p: seq<nat>, n: nat, a: nat, b: nat)
    requires IsPerm(p, n) && a < n && b < n && a != b
    ensures p[a] != p[b]
  {
    if a < b {
      assert p[a] != p[b];
    } else {
      assert p[b] != p[a];
    }
  }

  /** Sorting the indices of a permutation by value inverts it. */
  lemma {:induction false} ArgsortInverts(tau: seq<nat>, p: seq<nat>, n: nat)
    requires IsPerm(tau, n) && IsPerm(p, n) && SortedOn(tau, p)
    ensures Inverse(tau, p, n)
  {
    var f := seq(n, i requires 0 <= i < n => tau[p[i]]);
    forall a, b | 0 <= a < b < n
      ensures f[a] < f[b]
    {
      assert p[a] != p[b];
      PermDiffers(tau, n, p[a], p[b]);
    }
    forall i | 0 <= i < n
      ensures tau[p[i]] == i
    {
      Climbs(n, f, i);
    }
    forall i | 0 <= i < n
      ensures p[tau[i]] == i
    {
      var k := tau[i];
      assert tau[p[k]] == k;
      assert p[k] == i;
    }
  }

  /** Indices in the order of their values. */
  method Argsort(tau: seq<nat>) returns (p: seq<nat>)
    ensures IsPerm(p, |tau|) && SortedOn(tau, p)
  {
    p := [];
    for i := 0 to |tau|
      invariant |p| == i && Distinct(p) && (forall v: nat :: v in p <==> v < i) && SortedOn(tau, p)
    {
      p := InsertIndex(tau, p, i);
    }
    forall k | 0 <= k < |tau|
      ensures p[k] < |tau|
    {
      assert p[k] in p;
    }
  }

  method InsertIndex(tau: seq<nat>, p: seq<nat>, x: nat) returns (r: seq<nat>)
    requires x < |tau| && x !in p && Distinct(p) && SortedOn(tau, p) && forall v :: v in p ==> v < |tau|
    ensures |r| == |p| + 1 && Distinct(r) && SortedOn(tau, r) && forall v: nat :: v in r <==> v in p || v == x
  {
    assert forall k :: 0 <= k < |p| ==> p[k] in p;
    var at := |p|;
    while at > 0 && tau[p[at - 1]] > tau[x]
      invariant 0 <= at <= |p|
      invariant forall k :: at <= k < |p| ==> tau[p[k]] > tau[x]
    {
      at := at - 1;
    }
    r := p[..at] + [x] + p[at..];
    if at > 0 {
      assert forall k :: 0 <= k < at ==> tau[p[k]] <= tau[p[at - 1]];
    }
    InsertedSorted(tau, p, x, at, r);
    InsertedDistinct(p, x, at, r);
  }

  lemma {:induction false} InsertedSorted(tau: seq<nat>, p: seq<nat>, x: nat, at: nat, r: seq<nat>)
    requires x < |tau| && at <= |p| && SortedOn(tau, p) && r == p[..at] + [x] + p[at..] && forall k :: 0 <= k < |p| ==>
               p[k] < |tau|
    requires forall k :: 0 <= k < at ==> tau[p[k]] <= tau[x]
    requires forall k :: at <= k < |p| ==> tau[p[k]] > tau[x]
    ensures SortedOn(tau, r)
  {
    forall i, j | 0 <= i < j < |r|
      ensures r[i] < |tau| && r[j] < |tau| && tau[r[i]] <= tau[r[j]]
    {
      assert r[i] == if i < at then p[i] else if i == at then x else p[i - 1];
      assert r[j] == if j < at then p[j] else if j == at then x else p[j - 1];
    }
  }

  lemma {:induction false} InsertedMembers(p: seq<nat>, x: nat, at: nat, r: seq<nat>)
    requires at <= |p| && r == p[..at] + [x] + p[at..]
    ensures forall v: nat :: v in r <==> v in p || v == x
  {
    assert p == p[..at] + p[at..];
  }

  lemma {:induction false} InsertedDistinct(p: seq<nat>, x: nat, at: nat, r: seq<nat>)
    requires at <= |p| && Distinct(p) && x !in p && r == p[..at] + [x] + p[at..]
    ensures Distinct(r) && forall v: nat :: v in r <==> v in p || v == x
  {
    InsertedMembers(p, x, at, r);
    forall i, j | 0 <= i < j < |r|
      ensures r[i] != r[j]
    {
      assert r[i] == if i < at then p[i] else if i == at then x else p[i - 1];
      assert r[j] == if j < at then p[j] else if j == at then x else p[j - 1];
      assert forall k :: 0 <= k < |p| ==> p[k] in p;
    }
  }

  // ─── the permuted tables ───

  /** `W̃[i] = W[τ⁻¹[i]]` */
  function Gathered<R>(w: seq<R>, inv: seq<nat>): (r: seq<R>)
    requires forall i :: 0 <= i < |inv| ==> inv[i] < |w|
    ensures |r| == |inv|
    ensures forall i {:trigger r[i]} | 0 <= i < |inv| :: r[i] == w[inv[i]]
  {
    seq(|inv|, i requires 0 <= i < |inv| => w[inv[i]])
  }

  function VocabTensors(): seq<string> {
    ["token_embd.weight", "output.weight"]
  }

  ghost predicate VocabShaped<R>(arrays: map<string, seq<R>>, n: nat) {
    forall t :: t in VocabTensors() && t in arrays ==> |arrays[t]| == n
  }

  /** The vocabulary tensors that are present, row-permuted; every other tensor untouched. */
  method ApplyPi<R>(arrays: map<string, seq<R>>, inv: seq<nat>, n: nat) returns (out: map<string, seq<R>>)
    requires IsPerm(inv, n) && VocabShaped(arrays, n)
    ensures out.Keys == arrays.Keys
    ensures forall t :: t in arrays && t != "token_embd.weight" && t != "output.weight" ==> out[t] == arrays[t]
    ensures forall t :: t in arrays && (t == "token_embd.weight" || t == "output.weight") ==>
              |arrays[t]| == |out[t]| == n && forall i :: 0 <= i < n ==> out[t][i] == arrays[t][inv[i]]
  {
    out := arrays;
    var names := VocabTensors();
    assert names[0] != names[1] by {
      assert |names[0]| != |names[1]|;
    }
    for i := 0 to |names|
      invariant out.Keys == arrays.Keys
      invariant forall t :: t in arrays && t !in names[..i] ==> out[t] == arrays[t]
      invariant forall t :: t in arrays && t in names[..i] ==> |arrays[t]| == n && out[t] == Gathered(arrays[t], inv)
    {
      var name := names[i];
      assert name !in names[..i];
      if name !in arrays {
        continue;
      }
      out := out[name := Gathered(out[name], inv)];
    }
  }

  // ─── greedy decoding ───

  /** The network between the tables: a context of embedding rows to a state, and the logit of a head row. */
  datatype Network<!R, !H> = Network(state: seq<R> -> H, logit: (H, R) -> real)

  datatype Tables<R> = Tables(embed: seq<R>, head: seq<R>)

  function Embedded<R>(t: Tables<R>, ctx: seq<nat>): seq<R>
    requires forall i :: 0 <= i < |ctx| ==> ctx[i] < |t.embed|
  {
    seq(|ctx|, i requires 0 <= i < |ctx| => t.embed[ctx[i]])
  }

  ghost predicate InVocab(ids: seq<nat>, n: nat) {
    forall i :: 0 <= i < |ids| ==> ids[i] < n
  }

  ghost predicate TablesOk<R>(t: Tables<R>, n: nat) {
    |t.embed| == n && |t.head| == n
  }

  /** `next` is a token of greatest logit after `ctx`. */
  ghost predicate Greedy<R, H>(net: Network<R, H>, t: Tables<R>, n: nat, ctx: seq<nat>, next: nat)
    requires TablesOk(t, n) && InVocab(ctx, n)
  {
    && next < n
    && forall j: nat {:trigger t.head[j]} | j < n ::
         net.logit(net.state(Embedded(t, ctx)), t.head[j]) <= net.logit(net.state(Embedded(t, ctx)), t.head[next])
  }

  /** Greedy choice written out on the rows looked up for the context: no token has a greater logit. */
  lemma {:induction false} GreedyIs<R, H>(net: Network<R, H>, t: Tables<R>, n: nat, ctx: seq<nat>, rows: seq<R>,
                                          next: nat)
    requires TablesOk(t, n) && InVocab(ctx, n) && next < n
    requires |rows| == |ctx| && forall i :: 0 <= i < |ctx| ==> rows[i] == t.embed[ctx[i]]
    ensures Greedy(net, t, n, ctx, next)
       <==> !exists j: nat :: j < n && net.logit(net.state(rows), t.head[j]) > net.logit(net.state(rows), t.head[next])
  {
    assert Embedded(t, ctx) == rows;
  }

  /** Every token of `out` is greedy after the prompt and the tokens before it. */
  ghost predicate GreedyRun<R, H>(net: Network<R, H>, t: Tables<R>, n: nat, prompt: seq<nat>, out: seq<nat>)
    requires TablesOk(t, n) && InVocab(prompt, n)
  {
    && InVocab(out, n)
    && forall k {:trigger out[k]} | 0 <= k < |out| :: Greedy(net, t, n, prompt + out[..k], out[k])
  }

  function MapIds(table: seq<nat>, ids: seq<nat>): (r: seq<nat>)
    requires forall i :: 0 <= i < |ids| ==> ids[i] < |table|
    ensures |r| == |ids| && forall i {:trigger r[i]} | 0 <= i < |ids| :: r[i] == table[ids[i]]
  {
    seq(|ids|, i requires 0 <= i < |ids| => table[ids[i]])
  }

  function PermutedTables<R>(t: Tables<R>, inv: seq<nat>, n: nat): (r: Tables<R>)
    requires TablesOk(t, n) && |inv| == n && forall i :: 0 <= i < n ==> inv[i] < n
    ensures TablesOk(r, n)
  {
    Tables(Gathered(t.embed, inv), Gathered(t.head, inv))
  }

  /** Row `τ(v)` of either permuted table is row `v` of the plain one. */
  lemma {:induction false} PermutedRows<R>(t: Tables<R>, tau: seq<nat>, inv: seq<nat>, n: nat, v: nat)
    requires Inverse(tau, inv, n) && TablesOk(t, n) && v < n
    ensures PermutedTables(t, inv, n).embed[tau[v]] == t.embed[v]
    ensures PermutedTables(t, inv, n).head[tau[v]] == t.head[v]
  {
    assert inv[tau[v]] == v;
  }

  /** The permuted model sees the same embeddings for the permuted context. */
  lemma {:induction false} SameEmbeddings<R>(t: Tables<R>, tau: seq<nat>, inv: seq<nat>, n: nat, ctx: seq<nat>)
    requires Inverse(tau, inv, n) && TablesOk(t, n) && InVocab(ctx, n)
    ensures InVocab(MapIds(tau, ctx), n)
    ensures Embedded(PermutedTables(t, inv, n), MapIds(tau, ctx)) == Embedded(t, ctx)
  {
    var a, b := Embedded(PermutedTables(t, inv, n), MapIds(tau, ctx)), Embedded(t, ctx);
    forall i | 0 <= i < |ctx|
      ensures a[i] == b[i]
    {
      assert MapIds(tau, ctx)[i] == tau[ctx[i]];
    }
  }

  /** One step: a token is greedy exactly when its image is greedy on the permuted tables. */
  lemma {:induction false} StepPermuted<R, H>(net: Network<R, H>, t: Tables<R>, tau: seq<nat>, inv: seq<nat>, n: nat,
                                              ctx: seq<nat>, next: nat)
    requires Inverse(tau, inv, n) && TablesOk(t, n) && InVocab(ctx, n) && next < n
    ensures InVocab(MapIds(tau, ctx), n)
    ensures Greedy(net, t, n, ctx, next) <==> Greedy(net, PermutedTables(t, inv, n), n, MapIds(tau, ctx), tau[next])
  {
    SameEmbeddings(t, tau, inv, n, ctx);
    var p := PermutedTables(t, inv, n);
    assert p.head[tau[next]] == t.head[next];
    if Greedy(net, t, n, ctx, next) {
      forall j: nat | j < n
        ensures net.logit(net.state(Embedded(t, ctx)), p.head[j]) <= net.logit(net.state(Embedded(t, ctx)),
                t.head[next])
      {
        assert p.head[j] == t.head[inv[j]];
      }
    }
    if Greedy(net, p, n, MapIds(tau, ctx), tau[next]) {
      forall j: nat | j < n
        ensures net.logit(net.state(Embedded(t, ctx)), t.head[j]) <= net.logit(net.state(Embedded(t, ctx)),
                t.head[next])
      {
        assert p.head[tau[j]] == t.head[j];
      }
    }
  }

  /** Any number of steps: greedy decoding on the permuted tables from `τ(prompt)` is the `τ`-image
      of greedy decoding on the plain ones. No tie-breaking rule is assumed. */
  lemma {:induction false} RunPermuted<R, H>(net: Network<R, H>, t: Tables<R>, tau: seq<nat>, inv: seq<nat>, n: nat,
                                             prompt: seq<nat>, out: seq<nat>)
    requires Inverse(tau, inv, n) && TablesOk(t, n) && InVocab(prompt, n) && InVocab(out, n)
    ensures InVocab(MapIds(tau, prompt), n)
    ensures GreedyRun(net, t, n, prompt, out)
       <==> GreedyRun(net, PermutedTables(t, inv, n), n, MapIds(tau, prompt), MapIds(tau, out))
  {
    var p, pp, po := PermutedTables(t, inv, n), MapIds(tau, prompt), MapIds(tau, out);
    hide Greedy, PermutedTables;
    forall k | 0 <= k < |out|
      ensures InVocab(prompt + out[..k], n) && InVocab(pp + po[..k], n)
      ensures Greedy(net, t, n, prompt + out[..k], out[k]) <==> Greedy(net, p, n, pp + po[..k], po[k])
    {
      var ctx := prompt + out[..k];
      assert MapIds(tau, ctx) == pp + po[..k];
      StepPermuted(net, t, tau, inv, n, ctx, out[k]);
    }
    if GreedyRun(net, t, n, prompt, out) {
      forall k | 0 <= k < |po|
        ensures Greedy(net, p, n, pp + po[..k], po[k])
      {
        assert out[k] == out[k];
      }
    }
    if GreedyRun(net, p, n, pp, po) {
      forall k | 0 <= k < |out|
        ensures Greedy(net, t, n, prompt + out[..k], out[k])
      {
        assert po[k] == po[k];
      }
    }
  }

  lemma {:induction false} MapBack(a: seq<nat>, b: seq<nat>, n: nat, ids: seq<nat>)
    requires |a| == |b| == n && InVocab(ids, n) && (forall i :: 0 <= i < n ==> a[i] < n)
             && forall i {:trigger a[i]} | 0 <= i < n :: b[a[i]] == i
    ensures InVocab(MapIds(a, ids), n) && MapIds(b, MapIds(a, ids)) == ids
  {
  }

  /** What the client recovers from any greedy run of the permuted model is a greedy run of the plain one. */
  lemma {:induction false} RecoveredRun<R, H>(net: Network<R, H>, t: Tables<R>, tau: seq<nat>, inv: seq<nat>, n: nat,
                                              prompt: seq<nat>, got: seq<nat>)
    requires Inverse(tau, inv, n) && TablesOk(t, n) && InVocab(prompt, n) && InVocab(got, n)
    ensures InVocab(MapIds(tau, prompt), n) && InVocab(MapIds(inv, got), n)
    ensures GreedyRun(net, PermutedTables(t, inv, n), n, MapIds(tau, prompt), got)
       <==> GreedyRun(net, t, n, prompt, MapIds(inv, got))
  {
    MapBack(inv, tau, n, got);
    RunPermuted(net, t, tau, inv, n, prompt, MapIds(inv, got));
  }

  /** The first `k` tokens of a greedy run were each the only choice. */
  ghost predicate UniqueMaxima<R, H>(net: Network<R, H>, t: Tables<R>, n: nat, prompt: seq<nat>, run: seq<nat>, k: nat)
    requires TablesOk(t, n) && InVocab(prompt, n) && InVocab(run, n) && k <= |run|
  {
    forall i, a {:trigger Greedy(net, t, n, prompt + run[..i], a)} ::
      0 <= i < k && Greedy(net, t, n, prompt + run[..i], a) ==> a == run[i]
  }

  /** Where one run has unique maxima, every other run follows it. */
  lemma {:induction false} RunsAgree<R, H>(net: Network<R, H>, t: Tables<R>, n: nat, prompt: seq<nat>, x: seq<nat>,
                                           y: seq<nat>, k: nat)
    requires TablesOk(t, n) && InVocab(prompt, n)
    requires GreedyRun(net, t, n, prompt, x) && GreedyRun(net, t, n, prompt, y) && k <= |x| && k <= |y|
    requires UniqueMaxima(net, t, n, prompt, x, k)
    ensures x[..k] == y[..k]
  {
    if k > 0 {
      hide Greedy;
      RunsAgree(net, t, n, prompt, x, y, k - 1);
      assert Greedy(net, t, n, prompt + y[..k - 1], y[k - 1]);
      assert x[..k] == x[..k - 1] + [x[k - 1]] && y[..k] == y[..k - 1] + [y[k - 1]];
    }
  }

  /** Uniqueness along a greedy run is exactly what makes it the only one: no tie at a context it
      visits, if and only if every greedy run that is no longer is a prefix of it. */
  lemma {:induction false} UniqueIff<R, H>(net: Network<R, H>, t: Tables<R>, n: nat, prompt: seq<nat>, x: seq<nat>)
    requires TablesOk(t, n) && InVocab(prompt, n) && GreedyRun(net, t, n, prompt, x)
    ensures UniqueMaxima(net, t, n, prompt, x, |x|)
       <==> forall y {:trigger GreedyRun(net, t, n, prompt, y)} ::
              GreedyRun(net, t, n, prompt, y) && |y| <= |x| ==> y <= x
  {
    if UniqueMaxima(net, t, n, prompt, x, |x|) {
      forall y | GreedyRun(net, t, n, prompt, y) && |y| <= |x|
        ensures y <= x
      {
        hide Greedy;
        assert UniqueMaxima(net, t, n, prompt, x, |y|);
        RunsAgree(net, t, n, prompt, x, y, |y|);
        assert y[..|y|] == y;
      }
    } else {
      var i, a :| 0 <= i < |x| && Greedy(net, t, n, prompt + x[..i], a) && a != x[i];
      OtherBranch(net, t, n, prompt, x, i, a);
      assert (x[..i] + [a])[i] == a;
    }
  }

  lemma {:induction false} OtherBranch<R, H>(net: Network<R, H>, t: Tables<R>, n: nat, prompt: seq<nat>, x: seq<nat>,
                                             i: nat, a: nat)
    requires TablesOk(t, n) && InVocab(prompt, n) && GreedyRun(net, t, n, prompt, x)
    requires i < |x| && Greedy(net, t, n, prompt + x[..i], a)
    ensures GreedyRun(net, t, n, prompt, x[..i] + [a])
  {
    var y := x[..i] + [a];
    assert a < n;
    hide Greedy;
    forall k | 0 <= k < |y|
      ensures InVocab(prompt + y[..k], n) && Greedy(net, t, n, prompt + y[..k], y[k])
    {
      assert y[..k] == x[..k];
      if k < i {
        assert y[k] == x[k];
      }
    }
  }

  function Shorter(x: seq<nat>, y: seq<nat>): nat {
    if |x| <= |y| then |x| else |y|
  }

  /** Given unique maxima along the plain run, what the client recovers from a greedy server is the
      plain run itself, as far as both go. */
  lemma {:induction false} RecoveredPlain<R, H>(net: Network<R, H>, t: Tables<R>, tau: seq<nat>, inv: seq<nat>, n: nat,
                                                prompt: seq<nat>, got: seq<nat>, plain: seq<nat>)
    requires Inverse(tau, inv, n) && TablesOk(t, n) && InVocab(prompt, n) && InVocab(got, n)
    requires InVocab(MapIds(tau, prompt), n) && GreedyRun(net, PermutedTables(t, inv, n), n, MapIds(tau, prompt), got)
    requires GreedyRun(net, t, n, prompt, plain)
    requires UniqueMaxima(net, t, n, prompt, plain, Shorter(got, plain))
    ensures MapIds(inv, got) <= plain || plain <= MapIds(inv, got)
    ensures |got| == |plain| ==> MapIds(inv, got) == plain && got == MapIds(tau, plain)
  {
    var back := MapIds(inv, got);
    RecoveredRun(net, t, tau, inv, n, prompt, got);
    RunsAgree(net, t, n, prompt, plain, back, Shorter(got, plain));
    MapBack(inv, tau, n, got);
    hide GreedyRun, UniqueMaxima, PermutedTables;
    assert back[..|back|] == back && plain[..|plain|] == plain;
  }

  // ─── the client ───

  /** One event of the response stream. */
  datatype Event = Ignored | Malformed | Event(tokens: seq<nat>, stop: bool)

  /** The tokens a client keeps: up to a malformed event or the one that stops. */
  function Collected(events: seq<Event>): seq<nat> {
    if events == [] then []
    else match events[0]
      case Ignored => Collected(events[1..])
      case Malformed => []
      case Event(tokens, stop) => tokens + if stop then [] else Collected(events[1..])
  }

  /** No event so far has ended the stream. */
  ghost predicate StillOpen(events: seq<Event>) {
    forall i :: 0 <= i < |events| ==> events[i].Ignored? || (events[i].Event? && !events[i].stop)
  }

  lemma {:induction false} CollectedAppend(a: seq<Event>, b: seq<Event>)
    requires StillOpen(a)
    ensures Collected(a + b) == Collected(a) + Collected(b)
    decreases |a|
  {
    if a == [] {
      assert a + b == b;
    } else {
      assert (a + b)[1..] == a[1..] + b;
      CollectedAppend(a[1..], b);
    }
  }

  /** While the stream is open an event adds its tokens, and one that is no event of the model nothing. */
  lemma {:induction false} CollectedGrows(before: seq<Event>, e: Event)
    requires StillOpen(before) && (e.Ignored? || e.Event?)
    ensures Collected([]) == []
    ensures Collected(before + [e]) == Collected(before) + if e.Event? then e.tokens else []
  {
    CollectedAppend(before, [e]);
    assert [e][1..] == [];
  }

  /** The event that stops still adds its own tokens, a malformed one does not, and nothing after either
      counts. */
  lemma {:induction false} CollectedEnds(before: seq<Event>, e: Event, after: seq<Event>)
    requires StillOpen(before) && (e.Malformed? || (e.Event? && e.stop))
    ensures Collected(before + [e] + after) == Collected(before) + if e.Event? then e.tokens else []
  {
    assert before + ([e] + after) == before + [e] + after;
    CollectedAppend(before, [e] + after);
    assert ([e] + after)[0] == e;
  }

  method Collect(events: seq<Event>) returns (ids: seq<nat>)
    ensures ids == Collected(events)
  {
    ids := [];
    for i := 0 to |events|
      invariant ids + Collected(events[i..]) == Collected(events)
    {
      assert events[i..][0] == events[i] && events[i..][1..] == events[i + 1..];
      match events[i]
      case Ignored =>
      case Malformed => return;
      case Event(tokens, stop) =>
        ids := ids + tokens;
        if stop {
          return;
        }
    }
  }

  /** Key loading and one completion: `τ` out, `τ⁻¹` (by argsort) back. If what the server
      streamed is a greedy run of the permuted model, the answer is a greedy run of the plain
      model on the plain prompt, of the same length. */
  method Complete<R, H>(tau: seq<nat>, n: nat, prompt: seq<nat>, events: seq<Event>, ghost net: Network<R, H>,
                        ghost t: Tables<R>)
    returns (sent: seq<nat>, answer: seq<nat>, ghost inv: seq<nat>)
    requires IsPerm(tau, n) && InVocab(prompt, n) && TablesOk(t, n) && InVocab(Collected(events), n)
    ensures Inverse(tau, inv, n) && sent == MapIds(tau, prompt) && InVocab(sent, n)
    ensures forall i :: 0 <= i < |prompt| ==> sent[i] == tau[prompt[i]]
    ensures |answer| == |Collected(events)| && InVocab(answer, n)
    ensures forall i {:trigger answer[i]} | 0 <= i < |answer| :: tau[answer[i]] == Collected(events)[i]
    ensures GreedyRun(net, PermutedTables(t, inv, n), n, sent, Collected(events))
            <==> GreedyRun(net, t, n, prompt, answer)
  {
    var inverse := Argsort(tau);
    ArgsortInverts(tau, inverse, n);
    inv := inverse;
    sent := MapIds(tau, prompt);
    var got := Collect(events);
    answer := MapIds(inverse, got);
    RecoveredRun(net, t, tau, inv, n, prompt, got);
    hide GreedyRun, PermutedTables;
    forall i | 0 <= i < |answer|
      ensures tau[answer[i]] == got[i]
    {
      assert answer[i] == inverse[got[i]];
    }
  }
}
