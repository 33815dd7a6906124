/** Permutation-shielded attention: the engine sees rows in a random order, the trusted side
    puts the result back. Tensors are sequences of heads. */
module Attention {
  import opened Sums
  import opened LinAlg
  import opened Permutations

  // ─── the exponential, by its laws ───

  predicate ExpLaw(exp: real -> real, x: real, y: real) {
    exp(x) > 0.0 && exp(x + y) == exp(x) * exp(y)
  }

  ghost predicate IsExp(exp: real -> real) {
    forall x, y :: ExpLaw(exp, x, y)
  }

  lemma {:induction false} ExpPositive(exp: real -> real, x: real)
    requires IsExp(exp)
    ensures exp(x) > 0.0
  {
    assert ExpLaw(exp, x, x);
  }

  lemma {:induction false} ExpShift(exp: real -> real, x: real, top: real)
    requires IsExp(exp)
    ensures exp(x) == exp(top) * exp(x - top)
  {
    assert ExpLaw(exp, top, x - top);
  }

  /** `x / z`, and 0 where the quotient does not exist. */
  function Share(x: real, z: real): real {
    if z == 0.0 then 0.0 else x / z
  }

  function ExpTerm(exp: real -> real, s: Mat, i: int): int -> real {
    j => exp(At(s, i, j))
  }

  /** Row-wise `exp(s_ij) / Σ_j exp(s_ij)`, with no shift. */
  function Softmax(exp: real -> real, s: Mat, n: nat, m: nat): (p: Mat)
    ensures IsMat(p, n, m)
    ensures forall i, j :: 0 <= i < n && 0 <= j < m ==>
              At(p, i, j) == Share(exp(At(s, i, j)), Sum(m, ExpTerm(exp, s, i)))
  {
    Build(n, m, (i, j) => Share(exp(At(s, i, j)), Sum(m, ExpTerm(exp, s, i))))
  }

  lemma {:induction false} SumPositive(n: nat, f: int -> real)
    requires n > 0 && forall i :: 0 <= i < n ==> f(i) > 0.0
    ensures Sum(n, f) > 0.0
  {
    if n > 1 {
      SumPositive(n - 1, f);
    }
  }

  function Shifted(exp: real -> real, s: Mat, i: int, top: real): int -> real {
    j => exp(At(s, i, j) - top)
  }

  lemma {:induction false} ShiftedEntry(exp: real -> real, s: Mat, i: int, top: real, t: int)
    requires IsExp(exp)
    ensures ExpTerm(exp, s, i)(t) == exp(top) * Shifted(exp, s, i, top)(t)
    ensures Shifted(exp, s, i, top)(t) > 0.0
  {
    hide IsExp;
    ExpShift(exp, At(s, i, t), top);
    ExpPositive(exp, At(s, i, t) - top);
  }

  /** Subtracting any number from a row before exponentiating leaves its softmax alone. */
  lemma {:induction false} ShiftInvariant(exp: real -> real, s: Mat, i: int, m: nat, top: real, j: nat)
    requires IsExp(exp) && j < m
    ensures Sum(m, Shifted(exp, s, i, top)) > 0.0
    ensures Shifted(exp, s, i, top)(j) * (1.0 / Sum(m, Shifted(exp, s, i, top)))
         == Share(exp(At(s, i, j)), Sum(m, ExpTerm(exp, s, i)))
  {
    hide IsExp, Sum, Share;
    forall t | 0 <= t < m
      ensures ExpTerm(exp, s, i)(t) == exp(top) * Shifted(exp, s, i, top)(t)
      ensures Shifted(exp, s, i, top)(t) > 0.0
    {
      ShiftedEntry(exp, s, i, top, t);
    }
    ExpPositive(exp, top);
    SumScale(m, exp(top), Shifted(exp, s, i, top), ExpTerm(exp, s, i));
    SumPositive(m, Shifted(exp, s, i, top));
    var c, x, z := exp(top), Shifted(exp, s, i, top)(j), Sum(m, Shifted(exp, s, i, top));
    assert exp(At(s, i, j)) == ExpTerm(exp, s, i)(j) == c * x;
    hide *;
    CommonFactor(c, x, z, exp(At(s, i, j)), Sum(m, ExpTerm(exp, s, i)));
  }

  lemma {:induction false} CommonFactor(c: real, x: real, z: real, cx: real, cz: real)
    requires c > 0.0 && z > 0.0 && cx == c * x && cz == c * z
    ensures x * (1.0 / z) == Share(cx, cz)
  {
    assert c * z != 0.0;
    assert (c * x) / (c * z) == x / z;
  }

  method RowMax(s: Mat, i: nat, m: nat) returns (top: real)
    requires m > 0
    ensures forall j {:trigger At(s, i, j)} | 0 <= j < m :: At(s, i, j) <= top
    ensures exists j {:trigger At(s, i, j)} :: 0 <= j < m && At(s, i, j) == top
  {
    top := At(s, i, 0);
    for j := 1 to m
      invariant forall t {:trigger At(s, i, t)} | 0 <= t < j :: At(s, i, t) <= top
      invariant exists t {:trigger At(s, i, t)} :: 0 <= t < j && At(s, i, t) == top
    {
      if At(s, i, j) > top {
        top := At(s, i, j);
      }
    }
  }

  method Exponentials(exp: real -> real, s: Mat, i: nat, m: nat, top: real) returns (out: array<real>, sum: real)
    ensures fresh(out) && out.Length == m && sum == Sum(m, Shifted(exp, s, i, top))
    ensures forall j {:trigger out[j]} | 0 <= j < m :: out[j] == Shifted(exp, s, i, top)(j)
  {
    out := new real[m];
    sum := 0.0;
    for j := 0 to m
      invariant sum == Sum(j, Shifted(exp, s, i, top))
      invariant forall t {:trigger out[t]} | 0 <= t < j :: out[t] == Shifted(exp, s, i, top)(t)
    {
      out[j] := exp(At(s, i, j) - top);
      sum := sum + out[j];
    }
  }

  /** One row: maximum, exponentials of the differences and their sum, then a rescaling pass. */
  method SoftmaxRow(exp: real -> real, s: Mat, i: nat, m: nat) returns (row: seq<real>)
    requires IsExp(exp) && m > 0
    ensures |row| == m
    ensures forall j {:trigger row[j]} | 0 <= j < m :: row[j] == Share(exp(At(s, i, j)), Sum(m, ExpTerm(exp, s, i)))
  {
    hide *;
    var top := RowMax(s, i, m);
    var out, sum := Exponentials(exp, s, i, m, top);
    ShiftInvariant(exp, s, i, m, top, 0);
    var inv := 1.0 / sum;
    for j := 0 to m
      invariant forall t {:trigger out[t]} | j <= t < m :: out[t] == Shifted(exp, s, i, top)(t)
      invariant forall t {:trigger out[t]} | 0 <= t < j :: out[t] == Share(exp(At(s, i, t)), Sum(m, ExpTerm(exp, s, i)))
    {
      ShiftInvariant(exp, s, i, m, top, j);
      out[j] := out[j] * inv;
    }
    row := out[..];
  }

  method SoftmaxRowwise(exp: real -> real, s: Mat, n: nat, m: nat) returns (p: Mat)
    requires IsExp(exp) && (n > 0 ==> m > 0)
    ensures p == Softmax(exp, s, n, m)
  {
    hide ExpTerm, Share, Sum, IsExp;
    p := [];
    for i := 0 to n
      invariant IsMat(p, i, m)
      invariant forall r, j :: 0 <= r < i && 0 <= j < m ==>
                  At(p, r, j) == Share(exp(At(s, r, j)), Sum(m, ExpTerm(exp, s, r)))
    {
      var row := SoftmaxRow(exp, s, i, m);
      p := p + [row];
    }
    MatExt(p, Softmax(exp, s, n, m), n, m);
  }

  // ─── the reference ───

  datatype Masking = NoMask | Causal

  /** The additive score mask: `-c` where key `j` lies after query `i`. */
  function MaskEntry(mask: Masking, offset: nat, c: real, i: int, j: int): real {
    if mask == Causal && j > offset + i then -c else 0.0
  }

  function Logit(q: Mat, k: Mat, d: nat, scale: real, mask: Masking, offset: nat, c: real, i: int, j: int): real {
    Dot(q, Transpose(k, |k|, d), d, i, j) * scale + MaskEntry(mask, offset, c, i, j)
  }

  function Logits(q: Mat, k: Mat, d: nat, scale: real, mask: Masking, offset: nat, c: real): (s: Mat)
    ensures IsMat(s, |q|, |k|)
    ensures forall i, j :: 0 <= i < |q| && 0 <= j < |k| ==> At(s, i, j) == Logit(q, k, d, scale, mask, offset, c, i, j)
  {
    Build(|q|, |k|, (i, j) => Logit(q, k, d, scale, mask, offset, c, i, j))
  }

  /** `softmax(scale·Q·Kᵀ + M)·V`, unpermuted. */
  function PlainAttention(exp: real -> real, q: Mat, k: Mat, v: Mat, d: nat, scale: real, mask: Masking, offset: nat,
                          c: real): (o: Mat)
    ensures IsMat(o, |q|, d)
  {
    Mul(Softmax(exp, Logits(q, k, d, scale, mask, offset, c), |q|, |k|), v, |k|, d)
  }

  function RowProduct(q: Mat, k: Mat, i: int, j: int): int -> real {
    t => At(q, i, t) * At(k, j, t)
  }

  /** The product of query row `i` and key row `j`. */
  function Affinity(q: Mat, k: Mat, d: nat, i: int, j: int): real {
    Sum(d, RowProduct(q, k, i, j))
  }

  /** A logit is the scaled product of the two rows, less `c` exactly when the key stands after the query. */
  lemma {:induction false} LogitIs(q: Mat, k: Mat, d: nat, scale: real, mask: Masking, offset: nat, c: real, i: nat,
                                   j: nat)
    requires i < |q| && j < |k|
    ensures At(Logits(q, k, d, scale, mask, offset, c), i, j)
         == scale * Affinity(q, k, d, i, j) - if mask == Causal && j > offset + i then c else 0.0
  {
    SumCong(d, Term(q, Transpose(k, |k|, d), i, j), RowProduct(q, k, i, j));
  }

  /** Raising `c` by `x` scales the weight of the keys after the query by `exp(-x)`, and no other weight. */
  lemma {:induction false} LaterKeysDamped(exp: real -> real, q: Mat, k: Mat, d: nat, scale: real, mask: Masking,
                                           offset: nat, c: real, x: real, i: nat, j: nat)
    requires IsExp(exp) && i < |q| && j < |k|
    ensures exp(At(Logits(q, k, d, scale, mask, offset, c + x), i, j))
         == exp(At(Logits(q, k, d, scale, mask, offset, c), i, j))
            * if mask == Causal && j > offset + i then exp(-x) else 1.0
  {
    LogitIs(q, k, d, scale, mask, offset, c, i, j);
    LogitIs(q, k, d, scale, mask, offset, c + x, i, j);
    var was := At(Logits(q, k, d, scale, mask, offset, c), i, j);
    assert ExpLaw(exp, was, -x);
  }

  /** The unnormalised weight of key `j` for query `i`. */
  function WeightAt(exp: real -> real, q: Mat, k: Mat, d: nat, scale: real, mask: Masking, offset: nat, c: real,
                    i: int, j: int): real {
    exp(scale * Affinity(q, k, d, i, j)) * if mask == Causal && j > offset + i then exp(-c) else 1.0
  }

  function Weight(exp: real -> real, q: Mat, k: Mat, d: nat, scale: real, mask: Masking, offset: nat, c: real,
                  i: int): int -> real {
    j => WeightAt(exp, q, k, d, scale, mask, offset, c, i, j)
  }

  function WeightedValue(exp: real -> real, q: Mat, k: Mat, v: Mat, d: nat, scale: real, mask: Masking, offset: nat,
                         c: real, i: int, col: int): int -> real {
    j => Weight(exp, q, k, d, scale, mask, offset, c, i)(j) * At(v, j, col)
  }

  lemma {:induction false} WeightIs(exp: real -> real, q: Mat, k: Mat, d: nat, scale: real, mask: Masking, offset: nat,
                                    c: real, i: nat, j: nat)
    requires IsExp(exp) && i < |q| && j < |k|
    ensures exp(At(Logits(q, k, d, scale, mask, offset, c), i, j))
         == Weight(exp, q, k, d, scale, mask, offset, c, i)(j) > 0.0
  {
    var x, s := scale * Affinity(q, k, d, i, j), At(Logits(q, k, d, scale, mask, offset, c), i, j);
    LogitIs(q, k, d, scale, mask, offset, c, i, j);
    ExpPositive(exp, s);
    assert ExpLaw(exp, x, -c);
    var w := Weight(exp, q, k, d, scale, mask, offset, c, i)(j);
    if mask == Causal && j > offset + i {
      assert s == x + -c && w == exp(x) * exp(-c);
    } else {
      assert s == x && w == exp(x) * 1.0;
    }
  }

  /** Attention is the mean of the value rows under these weights: a key after the query counts `exp(-c)`
      times what it would count without the mask, every other key in full. */
  lemma {:induction false} AttentionIsMean(exp: real -> real, q: Mat, k: Mat, v: Mat, d: nat, scale: real,
                                           mask: Masking, offset: nat, c: real, i: nat, col: nat)
    requires IsExp(exp) && i < |q| && col < d && |k| > 0
    ensures Sum(|k|, Weight(exp, q, k, d, scale, mask, offset, c, i)) > 0.0
    ensures At(PlainAttention(exp, q, k, v, d, scale, mask, offset, c), i, col)
            * Sum(|k|, Weight(exp, q, k, d, scale, mask, offset, c, i))
         == Sum(|k|, WeightedValue(exp, q, k, v, d, scale, mask, offset, c, i, col))
  {
    hide *;
    var s, m := Logits(q, k, d, scale, mask, offset, c), |k|;
    var w := Weight(exp, q, k, d, scale, mask, offset, c, i);
    var wv := WeightedValue(exp, q, k, v, d, scale, mask, offset, c, i, col);
    PlainEntry(exp, q, k, v, d, scale, mask, offset, c, i, col);
    WeightsAre(exp, q, k, v, d, scale, mask, offset, c, i, col);
    SumCong(m, ExpTerm(exp, s, i), w);
    SumPositive(m, w);
    MeanOf(exp, s, v, |q|, m, i, col, w, wv);
  }

  lemma {:induction false} PlainEntry(exp: real -> real, q: Mat, k: Mat, v: Mat, d: nat, scale: real, mask: Masking,
                                      offset: nat, c: real, i: nat, col: nat)
    requires i < |q| && col < d
    ensures var s := Logits(q, k, d, scale, mask, offset, c);
            At(PlainAttention(exp, q, k, v, d, scale, mask, offset, c), i, col)
            == Sum(|k|, Term(Softmax(exp, s, |q|, |k|), v, i, col))
  {
    hide Softmax, Logits, Term;
  }

  lemma {:induction false} WeightsAre(exp: real -> real, q: Mat, k: Mat, v: Mat, d: nat, scale: real, mask: Masking,
                                      offset: nat, c: real, i: nat, col: nat)
    requires IsExp(exp) && i < |q|
    ensures var w, s := Weight(exp, q, k, d, scale, mask, offset, c, i), Logits(q, k, d, scale, mask, offset, c);
            && (forall j {:trigger w(j)} | 0 <= j < |k| :: ExpTerm(exp, s, i)(j) == w(j) > 0.0)
            && forall j {:trigger WeightedValue(exp, q, k, v, d, scale, mask, offset, c, i, col)(j)} ::
                 WeightedValue(exp, q, k, v, d, scale, mask, offset, c, i, col)(j) == w(j) * At(v, j, col)
  {
    hide Weight, Logits, IsExp;
    forall j | 0 <= j < |k|
      ensures ExpTerm(exp, Logits(q, k, d, scale, mask, offset, c), i)(j)
           == Weight(exp, q, k, d, scale, mask, offset, c, i)(j) > 0.0
    {
      WeightIs(exp, q, k, d, scale, mask, offset, c, i, j);
    }
  }

  lemma {:induction false} MeanOf(exp: real -> real, s: Mat, v: Mat, n: nat, m: nat, i: nat, col: nat, w: int -> real,
                                  wv: int -> real)
    requires i < n && Sum(m, ExpTerm(exp, s, i)) == Sum(m, w) > 0.0
    requires forall j {:trigger w(j)} | 0 <= j < m :: ExpTerm(exp, s, i)(j) == w(j)
    requires forall j {:trigger wv(j)} :: wv(j) == w(j) * At(v, j, col)
    ensures Sum(m, Term(Softmax(exp, s, n, m), v, i, col)) * Sum(m, w) == Sum(m, wv)
  {
    var p, z := Softmax(exp, s, n, m), Sum(m, w);
    forall j | 0 <= j < m
      ensures wv(j) == z * Term(p, v, i, col)(j)
    {
      assert At(p, i, j) == Share(w(j), z);
      ShareTimes(w(j), z, At(v, j, col));
    }
    hide *;
    SumScale(m, z, Term(p, v, i, col), wv);
  }

  lemma {:induction false} ShareTimes(x: real, z: real, y: real)
    requires z > 0.0
    ensures x * y == z * (Share(x, z) * y)
  {
    assert z * Share(x, z) == x;
  }

  // ─── permuting and recovering ───

  /** Logits computed from permuted rows under the permuted mask. */
  function ShuffledLogits(q: Mat, k: Mat, permQ: seq<nat>, permKv: seq<nat>, d: nat, scale: real, mask: Masking,
                          offset: nat, c: real): (s: Mat)
    requires |q| == |permQ| && |k| == |permKv|
    ensures IsMat(s, |q|, |k|)
    ensures forall i, j :: 0 <= i < |q| && 0 <= j < |k| ==>
              At(s, i, j) == Dot(q, Transpose(k, |k|, d), d, i, j) * scale
                  + MaskEntry(mask, offset, c, permQ[i], permKv[j])
  {
    Build(|q|, |k|, (i, j) =>
      if 0 <= i < |q| && 0 <= j < |k| then
        Dot(q, Transpose(k, |k|, d), d, i, j) * scale + MaskEntry(mask, offset, c, permQ[i], permKv[j])
      else 0.0)
  }

  lemma {:induction false} ShuffledLogit(q: Mat, k: Mat, permQ: seq<nat>, permKv: seq<nat>, d: nat, scale: real,
                                         mask: Masking, offset: nat, c: real, i: nat, j: nat)
    requires IsMat(q, |q|, d) && IsMat(k, |k|, d) && IsPerm(permQ, |q|) && IsPerm(permKv, |k|) && i < |q| && j < |k|
    ensures At(ShuffledLogits(Permuted(q, permQ), Permuted(k, permKv), permQ, permKv, d, scale, mask, offset, c), i, j)
         == At(Logits(q, k, d, scale, mask, offset, c), permQ[i], permKv[j])
  {
    var pq, pk := Permuted(q, permQ), Permuted(k, permKv);
    var pkt, kt := Transpose(pk, |k|, d), Transpose(k, |k|, d);
    forall t | 0 <= t < d
      ensures Term(pq, pkt, i, j)(t) == Term(q, kt, permQ[i], permKv[j])(t)
    {
      assert At(pq, i, t) == At(q, permQ[i], t);
      assert At(pkt, t, j) == At(pk, j, t) == At(k, permKv[j], t);
    }
    SumCong(d, Term(pq, pkt, i, j), Term(q, kt, permQ[i], permKv[j]));
  }

  /** Softmax and the product with the permuted values do not see the order of the keys:
      row `i` of the shuffled result is row `permQ[i]` of the plain one. */
  lemma {:induction false} RowRecovered(exp: real -> real, s: Mat, shuffled: Mat, v: Mat, permQ: seq<nat>,
                                        permKv: seq<nat>, d: nat, i: nat, col: nat)
    requires IsPerm(permQ, |permQ|) && IsPerm(permKv, |permKv|) && |v| == |permKv| && IsMat(v, |v|, d) && i < |permQ|
             && col < d
    requires IsMat(s, |permQ|, |permKv|) && IsMat(shuffled, |permQ|, |permKv|)
    requires forall j {:trigger At(shuffled, i, j)} | 0 <= j < |permKv| ::
               At(shuffled, i, j) == At(s, permQ[i], permKv[j])
    ensures At(Mul(Softmax(exp, shuffled, |permQ|, |permKv|), Permuted(v, permKv), |permKv|, d), i, col)
         == At(Mul(Softmax(exp, s, |permQ|, |permKv|), v, |permKv|, d), permQ[i], col)
  {
    var m := |permKv|;
    var p, ps := Softmax(exp, s, |permQ|, m), Softmax(exp, shuffled, |permQ|, m);
    hide Share;
    SumPerm(m, permKv, ExpTerm(exp, s, permQ[i]), ExpTerm(exp, shuffled, i));
    var f, g := Term(p, v, permQ[i], col), Term(ps, Permuted(v, permKv), i, col);
    forall j | 0 <= j < m
      ensures g(j) == f(permKv[j])
    {
      assert At(ps, i, j) == At(p, permQ[i], permKv[j]);
      assert At(Permuted(v, permKv), j, col) == At(v, permKv[j], col);
    }
    SumPerm(m, permKv, f, g);
  }

  // ─── noise ───

  function NoisyEntry(m: Mat, sigma: real, z: (int, int) -> real, i: int, j: int): real {
    At(m, i, j) + sigma * z(i, j)
  }

  /** `m + sigma·z`, or `m` itself when the deviation is not positive. */
  function Noisy(m: Mat, d: nat, sigma: real, z: (int, int) -> real): (r: Mat)
    ensures IsMat(m, |m|, d) ==> IsMat(r, |m|, d)
    ensures sigma <= 0.0 ==> r == m
    ensures sigma > 0.0 ==> IsMat(r, |m|, d)
    ensures sigma > 0.0 ==> forall i, j :: 0 <= i < |m| && 0 <= j < d ==> At(r, i, j) == NoisyEntry(m, sigma, z, i, j)
  {
    if sigma > 0.0 then Build(|m|, d, (i, j) => NoisyEntry(m, sigma, z, i, j)) else m
  }

  /** Noise drawn after permuting, seen from the original row order. */
  ghost function Unshuffled(z: (int, int) -> real, perm: seq<nat>): (int, int) -> real
    requires IsPerm(perm, |perm|)
  {
    (r: int, j: int) => if 0 <= r < |perm| then z(Place(perm, r), j) else 0.0
  }

  lemma {:induction false} NoiseCommutes(m: Mat, d: nat, sigma: real, z: (int, int) -> real, perm: seq<nat>)
    requires IsPerm(perm, |perm|) && IsMat(m, |perm|, d)
    ensures Noisy(Permuted(m, perm), d, sigma, z) == Permuted(Noisy(m, d, sigma, Unshuffled(z, perm)), perm)
  {
    var a, b := Noisy(Permuted(m, perm), d, sigma, z), Permuted(Noisy(m, d, sigma, Unshuffled(z, perm)), perm);
    if sigma > 0.0 {
      forall i, j | 0 <= i < |perm| && 0 <= j < d
        ensures At(a, i, j) == At(b, i, j)
      {
        var u := Unshuffled(z, perm);
        assert Place(perm, perm[i]) == i;
        assert At(b, i, j) == At(Noisy(m, d, sigma, u), perm[i], j) == NoisyEntry(m, sigma, u, perm[i], j);
        assert At(Permuted(m, perm), i, j) == At(m, perm[i], j);
        assert u(perm[i], j) == z(i, j);
      }
      MatExt(a, b, |perm|, d);
    }
  }

  /** The draw for row `i` of the permuted matrix lands on row `perm[i]` of the original one. */
  lemma {:induction false} NoiseLands(m: Mat, d: nat, sigma: real, z: (int, int) -> real, perm: seq<nat>, i: nat,
                                      j: nat)
    requires IsPerm(perm, |perm|) && IsMat(m, |perm|, d) && i < |perm| && j < d
    ensures At(Noisy(m, d, sigma, Unshuffled(z, perm)), perm[i], j)
         == At(m, perm[i], j) + if sigma > 0.0 then sigma * z(i, j) else 0.0
    ensures At(Noisy(Permuted(m, perm), d, sigma, z), i, j)
         == At(m, perm[i], j) + if sigma > 0.0 then sigma * z(i, j) else 0.0
  {
    assert Place(perm, perm[i]) == i;
    assert At(Permuted(m, perm), i, j) == At(m, perm[i], j);
    if sigma > 0.0 {
      var u := Unshuffled(z, perm);
      assert At(Noisy(m, d, sigma, u), perm[i], j) == NoisyEntry(m, sigma, u, perm[i], j);
    }
  }

  // ─── one head ───

  /** What the engine and the trusted side compute for one head, on rows already permuted. */
  function ShuffledAttention(exp: real -> real, q: Mat, k: Mat, v: Mat, permQ: seq<nat>, permKv: seq<nat>, d: nat,
                             scale: real, mask: Masking, offset: nat, c: real): (o: Mat)
    requires |q| == |permQ| && |k| == |permKv|
    ensures IsMat(o, |q|, d)
  {
    Mul(Softmax(exp, ShuffledLogits(q, k, permQ, permKv, d, scale, mask, offset, c), |q|, |k|), v, |k|, d)
  }

  /** Row `i` of the shuffled attention is row `permQ[i]` of the plain attention. */
  lemma {:induction false} HeadRecovered(exp: real -> real, q: Mat, k: Mat, v: Mat, permQ: seq<nat>, permKv: seq<nat>,
                                         d: nat, scale: real, mask: Masking, offset: nat, c: real)
    requires IsPerm(permQ, |permQ|) && IsPerm(permKv, |permKv|)
    requires IsMat(q, |permQ|, d) && IsMat(k, |permKv|, d) && IsMat(v, |permKv|, d)
    ensures ShuffledAttention(exp, Permuted(q, permQ), Permuted(k, permKv), Permuted(v, permKv), permQ, permKv, d,
                              scale, mask, offset, c)
         == Permuted(PlainAttention(exp, q, k, v, d, scale, mask, offset, c), permQ)
  {
    hide Softmax, Logits, ShuffledLogits, Mul;
    var s := Logits(q, k, d, scale, mask, offset, c);
    var shuffled := ShuffledLogits(Permuted(q, permQ), Permuted(k, permKv), permQ, permKv, d, scale, mask, offset, c);
    var a := ShuffledAttention(exp, Permuted(q, permQ), Permuted(k, permKv), Permuted(v, permKv), permQ, permKv, d,
                               scale, mask, offset, c);
    var b := Permuted(PlainAttention(exp, q, k, v, d, scale, mask, offset, c), permQ);
    forall i, j | 0 <= i < |permQ| && 0 <= j < |permKv|
      ensures At(shuffled, i, j) == At(s, permQ[i], permKv[j])
    {
      ShuffledLogit(q, k, permQ, permKv, d, scale, mask, offset, c, i, j);
    }
    forall i, col | 0 <= i < |permQ| && 0 <= col < d
      ensures At(a, i, col) == At(b, i, col)
    {
      RowRecovered(exp, s, shuffled, v, permQ, permKv, d, i, col);
    }
    MatExt(a, b, |permQ|, d);
  }

  /** A causal mask that blocks nothing is no mask: the decode case. */
  lemma {:induction false} IdleMask(q: Mat, k: Mat, permQ: seq<nat>, permKv: seq<nat>, d: nat, scale: real,
                                    mask: Masking, offset: nat, c: real)
    requires |q| == |permQ| && |k| == |permKv|
    requires IsPerm(permQ, |permQ|) && IsPerm(permKv, |permKv|)
    requires mask == NoMask || (|q| == 1 && offset + 1 == |k|)
    ensures ShuffledLogits(q, k, permQ, permKv, d, scale, mask, offset, c)
         == ShuffledLogits(q, k, permQ, permKv, d, scale, NoMask, offset, c)
  {
    MatExt(ShuffledLogits(q, k, permQ, permKv, d, scale, mask, offset, c),
           ShuffledLogits(q, k, permQ, permKv, d, scale, NoMask, offset, c), |q|, |k|);
  }

  // ─── the engine ───

  /** What the untrusted engine computes: a product of an `(·, k)` and a `(k, p)` matrix, and a
      fused attention without a mask. Nothing is assumed of either but the shape of the answer. */
  datatype AttnEngine = AttnEngine(matmul: (Mat, Mat, nat, nat) -> Mat, fused: (Mat, Mat, Mat, nat, real) -> Mat)

  ghost predicate Answers(engine: AttnEngine) {
    && (forall a, b, n: nat, k, p {:trigger IsMat(a, n, k), engine.matmul(a, b, k, p)} ::
          IsMat(a, n, k) ==> IsMat(engine.matmul(a, b, k, p), n, p))
    && (forall q, k, v, d, scale {:trigger engine.fused(q, k, v, d, scale)} ::
        IsMat(engine.fused(q, k, v, d, scale), |q|, d))
  }

  /** Unmasked logits. */
  function FusedLogits(q: Mat, k: Mat, d: nat, scale: real): (s: Mat)
    ensures IsMat(s, |q|, |k|)
    ensures forall i, j :: 0 <= i < |q| && 0 <= j < |k| ==> At(s, i, j) == Dot(q, Transpose(k, |k|, d), d, i, j) * scale
  {
    Build(|q|, |k|, (i, j) => Dot(q, Transpose(k, |k|, d), d, i, j) * scale)
  }

  /** `softmax(scale·Q·Kᵀ)·V` */
  function FusedValue(exp: real -> real, q: Mat, k: Mat, v: Mat, d: nat, scale: real): (o: Mat)
    ensures IsMat(o, |q|, d)
  {
    Mul(Softmax(exp, FusedLogits(q, k, d, scale), |q|, |k|), v, |k|, d)
  }

  ghost predicate ExactProducts(engine: AttnEngine) {
    forall a, b, k, p {:trigger engine.matmul(a, b, k, p)} :: engine.matmul(a, b, k, p) == Mul(a, b, k, p)
  }

  ghost predicate Honest(engine: AttnEngine, exp: real -> real) {
    && ExactProducts(engine)
    && (forall q, k, v, d, scale {:trigger engine.fused(q, k, v, d, scale)} ::
          engine.fused(q, k, v, d, scale) == FusedValue(exp, q, k, v, d, scale))
  }

  /** Scores from the engine's product of permuted rows, under the permuted mask. */
  function EngineScores(engine: AttnEngine, q: Mat, k: Mat, permQ: seq<nat>, permKv: seq<nat>, d: nat, scale: real,
                        mask: Masking, offset: nat, c: real): (s: Mat)
    requires |q| == |permQ| && |k| == |permKv|
    ensures IsMat(s, |q|, |k|)
    ensures forall i, j :: 0 <= i < |q| && 0 <= j < |k| ==>
              At(s, i, j) == At(engine.matmul(q, Transpose(k, |k|, d), d, |k|), i, j) * scale
                             + MaskEntry(mask, offset, c, permQ[i], permKv[j])
  {
    var product := engine.matmul(q, Transpose(k, |k|, d), d, |k|);
    Build(|q|, |k|, (i, j) =>
      if 0 <= i < |q| && 0 <= j < |k| then
        At(product, i, j) * scale + MaskEntry(mask, offset, c, permQ[i], permKv[j])
      else 0.0)
  }

  /** What comes back for one head: the fused call, or two products around the trusted softmax. */
  function HeadAnswer(engine: AttnEngine, exp: real -> real, q: Mat, k: Mat, v: Mat, permQ: seq<nat>, permKv: seq<nat>,
                      d: nat, scale: real, mask: Masking, offset: nat, c: real, fused: bool): Mat
    requires |q| == |permQ| && |k| == |permKv|
  {
    if fused then engine.fused(q, k, v, d, scale)
    else engine.matmul(Softmax(exp, EngineScores(engine, q, k, permQ, permKv, d, scale, mask, offset, c), |q|, |k|), v,
                       |k|, d)
  }

  /** An honest engine computes the shuffled attention, on either path. */
  lemma {:induction false} HonestAnswer(engine: AttnEngine, exp: real -> real, q: Mat, k: Mat, v: Mat, permQ: seq<nat>,
                                        permKv: seq<nat>, d: nat, scale: real, mask: Masking, offset: nat, c: real,
                                        fused: bool)
    requires Honest(engine, exp) && |q| == |permQ| && |k| == |permKv| && IsPerm(permQ, |permQ|)
             && IsPerm(permKv, |permKv|)
    requires fused ==> mask == NoMask || (|q| == 1 && offset + 1 == |k|)
    ensures HeadAnswer(engine, exp, q, k, v, permQ, permKv, d, scale, mask, offset, c, fused)
         == ShuffledAttention(exp, q, k, v, permQ, permKv, d, scale, mask, offset, c)
  {
    var shuffled := ShuffledLogits(q, k, permQ, permKv, d, scale, mask, offset, c);
    if fused {
      IdleMask(q, k, permQ, permKv, d, scale, mask, offset, c);
      MatExt(FusedLogits(q, k, d, scale), shuffled, |q|, |k|);
    } else {
      var product := engine.matmul(q, Transpose(k, |k|, d), d, |k|);
      assert product == Mul(q, Transpose(k, |k|, d), d, |k|);
      MatExt(EngineScores(engine, q, k, permQ, permKv, d, scale, mask, offset, c), shuffled, |q|, |k|);
    }
  }

  // ─── tensors ───

  ghost predicate IsTensor(t: seq<Mat>, heads: nat, n: nat, d: nat) {
    |t| == heads && forall h {:trigger t[h]} | 0 <= h < heads :: IsMat(t[h], n, d)
  }

  method PermuteTensor(t: seq<Mat>, perm: seq<nat>, n: nat, d: nat) returns (out: seq<Mat>)
    requires IsTensor(t, |t|, n, d) && IsPerm(perm, n)
    ensures |out| == |t| && forall h {:trigger out[h]} | 0 <= h < |t| :: |t[h]| == n && out[h] == Permuted(t[h], perm)
  {
    out := [];
    for h := 0 to |t|
      invariant |out| == h && forall g {:trigger out[g]} | 0 <= g < h :: |t[g]| == n && out[g] == Permuted(t[g], perm)
    {
      var rows := PermuteRows(t[h], perm);
      out := out + [rows];
    }
  }

  /** The additive noise on a whole tensor; skipped when the deviation is not positive. */
  method AddGaussian(t: seq<Mat>, d: nat, sigma: real, z: nat -> (int, int) -> real) returns (out: seq<Mat>)
    ensures |out| == |t| && forall h {:trigger out[h]} | 0 <= h < |t| :: out[h] == Noisy(t[h], d, sigma, z(h))
    ensures sigma <= 0.0 ==> out == t
  {
    if sigma <= 0.0 {
      return t;
    }
    out := [];
    hide Noisy;
    for h := 0 to |t|
      invariant |out| == h && forall g {:trigger out[g]} | 0 <= g < h :: out[g] == Noisy(t[g], d, sigma, z(g))
    {
      out := out + [Noisy(t[h], d, sigma, z(h))];
    }
  }

  /** The engine's batched product, head by head. */
  method RunRuntimeMatmul(engine: AttnEngine, lhs: seq<Mat>, rhs: seq<Mat>, k: nat, p: nat) returns (out: seq<Mat>)
    requires |lhs| == |rhs|
    ensures |out| == |lhs| && forall h {:trigger out[h]} | 0 <= h < |lhs| ::
              out[h] == engine.matmul(lhs[h], rhs[h], k, p)
  {
    out := [];
    for h := 0 to |lhs|
      invariant |out| == h && forall g {:trigger out[g]} | 0 <= g < h :: out[g] == engine.matmul(lhs[g], rhs[g], k, p)
    {
      out := out + [engine.matmul(lhs[h], rhs[h], k, p)];
    }
  }

  function KeysTransposed(k: seq<Mat>, n: nat, d: nat): (kt: seq<Mat>)
    ensures |kt| == |k| && forall h {:trigger kt[h]} | 0 <= h < |k| :: kt[h] == Transpose(k[h], n, d)
  {
    seq(|k|, h requires 0 <= h < |k| => Transpose(k[h], n, d))
  }

  /** The permuted mask, one entry per query and key, shared by all heads. */
  method MaskMatrix(permQ: seq<nat>, permKv: seq<nat>, mask: Masking, offset: nat, c: real) returns (m: Mat)
    ensures IsMat(m, |permQ|, |permKv|)
    ensures forall i, j :: 0 <= i < |permQ| && 0 <= j < |permKv| ==>
              At(m, i, j) == if mask == Causal && permKv[j] > offset + permQ[i] then -c else 0.0
  {
    var neg := -c;
    m := [];
    for i := 0 to |permQ|
      invariant IsMat(m, i, |permKv|)
      invariant forall r, j :: 0 <= r < i && 0 <= j < |permKv| ==>
                  At(m, r, j) == MaskEntry(mask, offset, c, permQ[r], permKv[j])
    {
      var qAbs := offset + permQ[i];
      var row := seq(|permKv|, j => 0.0);
      for j := 0 to |permKv|
        invariant |row| == |permKv|
        invariant forall t {:trigger row[t]} | 0 <= t < j :: row[t] == MaskEntry(mask, offset, c, permQ[i], permKv[t])
        invariant forall t {:trigger row[t]} | j <= t < |permKv| :: row[t] == 0.0
      {
        if mask == Causal && permKv[j] > qAbs {
          row := row[j := neg];
        }
      }
      m := m + [row];
    }
  }

  /** Scaled scores plus the mask, per head. */
  method MaskScores(scores: seq<Mat>, scale: real, maskMat: Mat, n: nat, m: nat) returns (out: seq<Mat>)
    requires IsTensor(scores, |scores|, n, m)
    ensures IsTensor(out, |scores|, n, m)
    ensures forall h, i, j {:trigger At(out[h], i, j)} | 0 <= h < |scores| && 0 <= i < n && 0 <= j < m ::
              At(out[h], i, j) == At(scores[h], i, j) * scale + At(maskMat, i, j)
  {
    out := [];
    for h := 0 to |scores|
      invariant IsTensor(out, h, n, m)
      invariant forall g, i, j {:trigger At(out[g], i, j)} | 0 <= g < h && 0 <= i < n && 0 <= j < m ::
                  At(out[g], i, j) == At(scores[g], i, j) * scale + At(maskMat, i, j)
    {
      var masked := Build(n, m, (i, j) => At(scores[h], i, j) * scale + At(maskMat, i, j));
      assert forall i, j {:trigger At(masked, i, j)} | 0 <= i < n && 0 <= j < m ::
          At(masked, i, j) == At(scores[h], i, j) * scale + At(maskMat, i, j);
      out := out + [masked];
    }
  }

  method SoftmaxBatched(exp: real -> real, s: seq<Mat>, n: nat, m: nat) returns (out: seq<Mat>)
    requires IsExp(exp) && (n > 0 ==> m > 0)
    ensures |out| == |s| && forall h {:trigger out[h]} | 0 <= h < |s| :: out[h] == Softmax(exp, s[h], n, m)
  {
    out := [];
    for h := 0 to |s|
      invariant |out| == h && forall g {:trigger out[g]} | 0 <= g < h :: out[g] == Softmax(exp, s[g], n, m)
    {
      var p := SoftmaxRowwise(exp, s[h], n, m);
      out := out + [p];
    }
  }

  method RecoverTensor(t: seq<Mat>, perm: seq<nat>) returns (out: seq<Mat>)
    requires IsPerm(perm, |perm|) && forall h {:trigger t[h]} | 0 <= h < |t| :: |t[h]| == |perm|
    ensures |out| == |t| && forall h {:trigger out[h]} | 0 <= h < |t| ::
              |out[h]| == |perm| && Permuted(out[h], perm) == t[h]
  {
    out := [];
    hide Permuted;
    for h := 0 to |t|
      invariant |out| == h
      invariant forall g {:trigger out[g]} | 0 <= g < h :: |out[g]| == |perm| && Permuted(out[g], perm) == t[g]
    {
      var rows := RecoverRows(t[h], perm);
      out := out + [rows];
    }
  }

  /** Every head is the engine's answer to its permuted rows. */
  ghost predicate Answered(out: seq<Mat>, engine: AttnEngine, exp: real -> real, q: seq<Mat>, k: seq<Mat>, v: seq<Mat>,
                           permQ: seq<nat>, permKv: seq<nat>, d: nat, scale: real, mask: Masking, offset: nat, c: real,
                           fused: bool)
    requires IsTensor(q, |q|, |permQ|, d) && IsTensor(k, |q|, |permKv|, d) && IsTensor(v, |q|, |permKv|, d)
  {
    |out| == |q| && forall h {:trigger out[h]} | 0 <= h < |q| ::
      |q[h]| == |permQ| && |k[h]| == |permKv| && |out[h]| == |permQ| &&
      out[h] == HeadAnswer(engine, exp, q[h], k[h], v[h], permQ, permKv, d, scale, mask, offset, c, fused)
  }

  /** Product, mask and softmax on the trusted side, product. */
  method MaskedBranch(engine: AttnEngine, exp: real -> real, q: seq<Mat>, k: seq<Mat>, v: seq<Mat>, permQ: seq<nat>,
                      permKv: seq<nat>, d: nat, scale: real, mask: Masking, offset: nat, c: real)
    returns (out: seq<Mat>)
    requires IsExp(exp) && (|permQ| > 0 ==> |permKv| > 0) && Answers(engine)
    requires IsTensor(q, |q|, |permQ|, d) && IsTensor(k, |q|, |permKv|, d) && IsTensor(v, |q|, |permKv|, d)
    ensures Answered(out, engine, exp, q, k, v, permQ, permKv, d, scale, mask, offset, c, false)
  {
    hide IsExp, Softmax, EngineScores, Transpose;
    var nQ, nKv := |permQ|, |permKv|;
    var products := RunRuntimeMatmul(engine, q, KeysTransposed(k, nKv, d), d, nKv);
    var maskMat := MaskMatrix(permQ, permKv, mask, offset, c);
    forall h | 0 <= h < |q|
      ensures IsMat(products[h], nQ, nKv)
    {
      assert IsMat(q[h], nQ, d);
      assert products[h] == engine.matmul(q[h], Transpose(k[h], nKv, d), d, nKv);
    }
    var scores := MaskScores(products, scale, maskMat, nQ, nKv);
    forall h | 0 <= h < |q|
      ensures |q[h]| == nQ && |k[h]| == nKv
      ensures scores[h] == EngineScores(engine, q[h], k[h], permQ, permKv, d, scale, mask, offset, c)
    {
      assert products[h] == engine.matmul(q[h], Transpose(k[h], nKv, d), d, nKv);
      MatExt(scores[h], EngineScores(engine, q[h], k[h], permQ, permKv, d, scale, mask, offset, c), nQ, nKv);
    }
    var probs := SoftmaxBatched(exp, scores, nQ, nKv);
    out := RunRuntimeMatmul(engine, probs, v, nKv, d);
    forall h | 0 <= h < |q|
      ensures |out[h]| == nQ
    {
      assert IsMat(probs[h], nQ, nKv);
      assert out[h] == engine.matmul(probs[h], v[h], nKv, d);
    }
  }

  /** The fused call, head by head. */
  method RunFusedAttention(engine: AttnEngine, ghost exp: real -> real, q: seq<Mat>, k: seq<Mat>, v: seq<Mat>,
                           ghost permQ: seq<nat>, ghost permKv: seq<nat>, d: nat, scale: real, ghost mask: Masking,
                           ghost offset: nat, ghost c: real)
    returns (out: seq<Mat>)
    requires Answers(engine)
    requires IsTensor(q, |q|, |permQ|, d) && IsTensor(k, |q|, |permKv|, d) && IsTensor(v, |q|, |permKv|, d)
    ensures Answered(out, engine, exp, q, k, v, permQ, permKv, d, scale, mask, offset, c, true)
  {
    out := [];
    for h := 0 to |q|
      invariant |out| == h && forall g {:trigger out[g]} | 0 <= g < h ::
                  out[g] == engine.fused(q[g], k[g], v[g], d, scale)
    {
      out := out + [engine.fused(q[h], k[h], v[h], d, scale)];
    }
    forall h | 0 <= h < |q|
      ensures |q[h]| == |permQ| && |k[h]| == |permKv| && |out[h]| == |permQ|
    {
      assert IsMat(q[h], |permQ|, d) && IsMat(k[h], |permKv|, d);
      assert out[h] == engine.fused(q[h], k[h], v[h], d, scale);
    }
  }

  /** The default fused attention: product, scale, the optional additive mask, softmax, product. For any
      engine with exact products and no mask it is what `Honest` asks of the fused call. */
  method FusedAttentionBatched(engine: AttnEngine, exp: real -> real, q: seq<Mat>, k: seq<Mat>, v: seq<Mat>, n: nat,
                               m: nat, d: nat, scale: real, mask: AdditiveMask)
    returns (out: seq<Mat>)
    requires IsExp(exp) && (n > 0 ==> m > 0) && ExactProducts(engine)
    requires IsTensor(q, |q|, n, d) && IsTensor(k, |q|, m, d) && IsTensor(v, |q|, m, d)
    requires mask.Add? ==> IsTensor(mask.m, |q|, n, m)
    ensures |out| == |q| && forall h {:trigger out[h]} | 0 <= h < |q| ::
              |q[h]| == n && |k[h]| == m
                  && out[h] == Mul(Softmax(exp, AddedLogits(q[h], k[h], d, scale, mask, h), n, m), v[h], m, d)
    ensures mask == Nothing ==> forall h {:trigger out[h]} | 0 <= h < |q| ::
              out[h] == FusedValue(exp, q[h], k[h], v[h], d, scale)
  {
    hide IsExp, Softmax, AddedLogits, Transpose, Mul, FusedLogits, FusedValue;
    var products := RunRuntimeMatmul(engine, q, KeysTransposed(k, m, d), d, m);
    forall h | 0 <= h < |q|
      ensures |q[h]| == n && |k[h]| == m && products[h] == Mul(q[h], Transpose(k[h], m, d), d, m)
    {
      assert IsMat(q[h], n, d) && IsMat(k[h], m, d);
    }
    var scores := ScaledScores(products, q, k, n, m, d, scale, mask);
    var probs := SoftmaxBatched(exp, scores, n, m);
    out := RunRuntimeMatmul(engine, probs, v, m, d);
    forall h | 0 <= h < |q|
      ensures |q[h]| == n && |k[h]| == m
      ensures out[h] == Mul(Softmax(exp, AddedLogits(q[h], k[h], d, scale, mask, h), n, m), v[h], m, d)
      ensures mask == Nothing ==> out[h] == FusedValue(exp, q[h], k[h], v[h], d, scale)
    {
      assert out[h] == Mul(probs[h], v[h], m, d) && probs[h] == Softmax(exp, scores[h], n, m);
      assert scores[h] == AddedLogits(q[h], k[h], d, scale, mask, h);
      UnmaskedIsFused(exp, q[h], k[h], v[h], d, scale, h);
    }
  }

  /** The products scaled, with the additive mask of their head if there is one. */
  method ScaledScores(products: seq<Mat>, ghost q: seq<Mat>, ghost k: seq<Mat>, n: nat, m: nat, ghost d: nat,
                      scale: real, mask: AdditiveMask)
    returns (scores: seq<Mat>)
    requires |products| == |q| == |k|
    requires forall h {:trigger products[h]} | 0 <= h < |q| ::
               |q[h]| == n && |k[h]| == m && products[h] == Mul(q[h], Transpose(k[h], m, d), d, m)
    ensures |scores| == |q| && forall h {:trigger scores[h]} | 0 <= h < |q| ::
              scores[h] == AddedLogits(q[h], k[h], d, scale, mask, h)
  {
    hide AddedLogits, Transpose, Mul;
    scores := [];
    for h := 0 to |products|
      invariant |scores| == h
      invariant forall g {:trigger scores[g]} | 0 <= g < h ::
                  scores[g] == AddedLogits(q[g], k[g], d, scale, mask, g)
    {
      var product := products[h];
      assert |q[h]| == n && |k[h]| == m && product == Mul(q[h], Transpose(k[h], m, d), d, m);
      var score := match mask {
        case Add(t) => Build(n, m, (i, j) => At(product, i, j) * scale + (if h < |t| then At(t[h], i, j) else 0.0))
        case Nothing => Build(n, m, (i, j) => At(product, i, j) * scale)
      };
      MatExt(score, AddedLogits(q[h], k[h], d, scale, mask, h), n, m);
      scores := scores + [score];
    }
  }

  lemma {:induction false} UnmaskedIsFused(exp: real -> real, q: Mat, k: Mat, v: Mat, d: nat, scale: real, h: int)
    ensures Mul(Softmax(exp, AddedLogits(q, k, d, scale, Nothing, h), |q|, |k|), v, |k|, d)
         == FusedValue(exp, q, k, v, d, scale)
  {
    hide Softmax, Mul, AddedLogits, FusedLogits;
    MatExt(AddedLogits(q, k, d, scale, Nothing, h), FusedLogits(q, k, d, scale), |q|, |k|);
  }

  /** An additive mask tensor, one matrix per head, or none. */
  datatype AdditiveMask = Nothing | Add(m: seq<Mat>)

  function AddedEntry(mask: AdditiveMask, h: int, i: int, j: int): real {
    match mask
    case Add(t) => if 0 <= h < |t| then At(t[h], i, j) else 0.0
    case Nothing => 0.0
  }

  /** The additive mask of head `h` is added to that head's scaled scores; without one they stay. */
  lemma {:induction false} AddedIs(q: Mat, k: Mat, d: nat, scale: real, t: seq<Mat>, h: nat, i: nat, j: nat)
    requires h < |t| && i < |q| && j < |k|
    ensures At(AddedLogits(q, k, d, scale, Add(t), h), i, j) == scale * Affinity(q, k, d, i, j) + At(t[h], i, j)
    ensures At(AddedLogits(q, k, d, scale, Nothing, h), i, j) == scale * Affinity(q, k, d, i, j)
  {
    SumCong(d, Term(q, Transpose(k, |k|, d), i, j), RowProduct(q, k, i, j));
  }

  function AddedLogits(q: Mat, k: Mat, d: nat, scale: real, mask: AdditiveMask, h: int): (s: Mat)
    ensures IsMat(s, |q|, |k|)
    ensures forall i, j :: 0 <= i < |q| && 0 <= j < |k| ==>
              At(s, i, j) == Dot(q, Transpose(k, |k|, d), d, i, j) * scale + AddedEntry(mask, h, i, j)
  {
    Build(|q|, |k|, (i, j) => Dot(q, Transpose(k, |k|, d), d, i, j) * scale + AddedEntry(mask, h, i, j))
  }

  // ─── the protocol ───

  datatype PermConfig = PermConfig(noiseSigma: real, causalNeg: real, softmaxOnGpu: bool)

  datatype Attended = Attended(heads: seq<Mat>) | BadShape

  /** A tensor argument with the dimensions it carries. */
  datatype Tensor = Tensor(heads: seq<Mat>, h: nat, n: nat, d: nat)

  ghost predicate ValidTensor(t: Tensor) {
    IsTensor(t.heads, t.h, t.n, t.d)
  }

  predicate ShapesAgree(q: Tensor, k: Tensor, v: Tensor) {
    k.h == q.h && k.d == q.d && v.h == q.h && v.n == k.n && v.d == q.d
  }

  /** Attention of the inputs with the noise folded back to the original row order. */
  ghost function NoisyAttention(exp: real -> real, q: Mat, k: Mat, v: Mat, permQ: seq<nat>, permKv: seq<nat>, d: nat,
                                scale: real, mask: Masking, offset: nat, cfg: PermConfig, zq: (int, int) -> real,
                                zk: (int, int) -> real): Mat
    requires IsPerm(permQ, |permQ|) && IsPerm(permKv, |permKv|)
  {
    PlainAttention(exp, Noisy(q, d, cfg.noiseSigma, Unshuffled(zq, permQ)),
                   Noisy(k, d, cfg.noiseSigma, Unshuffled(zk, permKv)),
                   v, d, scale, mask, offset, cfg.causalNeg)
  }

  /** Every head of `t` with its rows permuted and noise added after. */
  ghost predicate IsShuffled(out: seq<Mat>, t: Tensor, perm: seq<nat>, sigma: real, z: nat -> (int, int) -> real)
    requires ValidTensor(t) && IsPerm(perm, t.n)
  {
    |out| == t.h && forall h: nat {:trigger out[h]} | h < t.h ::
      IsMat(t.heads[h], t.n, t.d) && out[h] == Noisy(Permuted(t.heads[h], perm), t.d, sigma, z(h))
  }

  /** Every head of `t` with its rows permuted. */
  ghost predicate IsPermuted(out: seq<Mat>, t: Tensor, perm: seq<nat>)
    requires ValidTensor(t) && IsPerm(perm, t.n)
  {
    |out| == t.h && forall h: nat {:trigger out[h]} | h < t.h ::
      IsMat(t.heads[h], t.n, t.d) && out[h] == Permuted(t.heads[h], perm)
  }

  lemma {:induction false} PermutedShape(out: seq<Mat>, t: Tensor, perm: seq<nat>)
    requires ValidTensor(t) && IsPerm(perm, t.n) && IsPermuted(out, t, perm)
    ensures IsTensor(out, t.h, t.n, t.d)
  {
  }

  lemma {:induction false} ShuffledShape(out: seq<Mat>, rows: seq<Mat>, t: Tensor, perm: seq<nat>, sigma: real,
                                         z: nat -> (int, int) -> real)
    requires ValidTensor(t) && IsPerm(perm, t.n) && IsPermuted(rows, t, perm)
    requires |out| == t.h && forall h {:trigger out[h]} | 0 <= h < t.h :: out[h] == Noisy(rows[h], t.d, sigma, z(h))
    ensures IsShuffled(out, t, perm, sigma, z) && IsTensor(out, t.h, t.n, t.d)
  {
    PermutedShape(rows, t, perm);
    hide Noisy, Permuted;
    forall h: nat | h < t.h
      ensures IsMat(t.heads[h], t.n, t.d) && IsMat(out[h], t.n, t.d)
      ensures out[h] == Noisy(Permuted(t.heads[h], perm), t.d, sigma, z(h))
    {
      assert IsMat(rows[h], t.n, t.d);
      assert out[h] == Noisy(rows[h], t.d, sigma, z(h));
    }
  }

  /** The rows of every head permuted. */
  method PermuteHeads(t: Tensor, perm: seq<nat>) returns (out: seq<Mat>)
    requires ValidTensor(t) && IsPerm(perm, t.n)
    ensures IsPermuted(out, t, perm) && IsTensor(out, t.h, t.n, t.d)
  {
    out := PermuteTensor(t.heads, perm, t.n, t.d);
    hide Permuted, IsPerm;
    forall h: nat | h < t.h
      ensures IsMat(t.heads[h], t.n, t.d) && out[h] == Permuted(t.heads[h], perm)
    {
    }
    PermutedShape(out, t, perm);
  }

  /** What the engine is given for one head, and what it makes of it. */
  ghost function NoisyAnswer(engine: AttnEngine, exp: real -> real, q: Mat, k: Mat, v: Mat, permQ: seq<nat>,
                             permKv: seq<nat>, d: nat, scale: real, mask: Masking, offset: nat, cfg: PermConfig,
                             zq: (int, int) -> real, zk: (int, int) -> real, fused: bool): Mat
    requires IsPerm(permQ, |permQ|) && IsPerm(permKv, |permKv|)
    requires IsMat(q, |permQ|, d) && IsMat(k, |permKv|, d) && IsMat(v, |permKv|, d)
  {
    HeadAnswer(engine, exp, Noisy(Permuted(q, permQ), d, cfg.noiseSigma, zq),
               Noisy(Permuted(k, permKv), d, cfg.noiseSigma, zk),
               Permuted(v, permKv), permQ, permKv, d, scale, mask, offset, cfg.causalNeg, fused)
  }

  /** Every head of the result, back in order, is the engine's answer to permuted and noised rows. */
  ghost predicate Unshuffles(heads: seq<Mat>, engine: AttnEngine, exp: real -> real, q: Tensor, k: Tensor, v: Tensor,
                             permQ: seq<nat>, permKv: seq<nat>, scale: real, mask: Masking, offset: nat,
                             cfg: PermConfig, zq: nat -> (int, int) -> real, zk: nat -> (int, int) -> real, fused: bool)
    requires ValidTensor(q) && ValidTensor(k) && ValidTensor(v) && ShapesAgree(q, k, v)
    requires IsPerm(permQ, q.n) && IsPerm(permKv, k.n)
  {
    |heads| == q.h && forall h: nat {:trigger heads[h]} | h < q.h ::
      UnshufflesHead(heads, engine, exp, q, k, v, permQ, permKv, scale, mask, offset, cfg, zq, zk, fused, h)
  }

  ghost predicate UnshufflesHead(heads: seq<Mat>, engine: AttnEngine, exp: real -> real, q: Tensor, k: Tensor,
                                 v: Tensor, permQ: seq<nat>, permKv: seq<nat>, scale: real, mask: Masking, offset: nat,
                                 cfg: PermConfig, zq: nat -> (int, int) -> real, zk: nat -> (int, int) -> real,
                                 fused: bool, h: nat)
    requires ValidTensor(q) && ValidTensor(k) && ValidTensor(v) && ShapesAgree(q, k, v)
    requires IsPerm(permQ, q.n) && IsPerm(permKv, k.n) && |heads| == q.h && h < q.h
  {
    && |heads[h]| == q.n && IsMat(q.heads[h], q.n, q.d) && IsMat(k.heads[h], k.n, q.d) && IsMat(v.heads[h], k.n, q.d)
    && Permuted(heads[h], permQ)
       == NoisyAnswer(engine, exp, q.heads[h], k.heads[h], v.heads[h], permQ, permKv, q.d, scale, mask, offset, cfg,
                      zq(h), zk(h), fused)
  }

  lemma {:induction false} PermsFit(perm: seq<nat>, n: nat)
    requires IsPerm(perm, n)
    ensures |perm| == n && IsPerm(perm, |perm|)
  {
  }

  lemma {:induction false} AnsweredShape(out: seq<Mat>, engine: AttnEngine, exp: real -> real, q: seq<Mat>, k: seq<Mat>,
                                         v: seq<Mat>, permQ: seq<nat>, permKv: seq<nat>, d: nat, scale: real,
                                         mask: Masking, offset: nat, c: real, fused: bool)
    requires IsTensor(q, |q|, |permQ|, d) && IsTensor(k, |q|, |permKv|, d) && IsTensor(v, |q|, |permKv|, d)
    requires Answered(out, engine, exp, q, k, v, permQ, permKv, d, scale, mask, offset, c, fused)
    ensures |out| == |q| && forall h {:trigger out[h]} | 0 <= h < |out| :: |out[h]| == |permQ|
  {
    hide HeadAnswer;
  }

  /** The engine's answers with their rows moved back. */
  lemma {:induction false} Recovered(heads: seq<Mat>, out: seq<Mat>, engine: AttnEngine, exp: real -> real, q: Tensor,
                                     k: Tensor, v: Tensor, permQ: seq<nat>, permKv: seq<nat>, scale: real,
                                     mask: Masking, offset: nat, cfg: PermConfig, zq: nat -> (int, int) -> real,
                                     zk: nat -> (int, int) -> real, fused: bool, qNoisy: seq<Mat>, kNoisy: seq<Mat>,
                                     vPerm: seq<Mat>)
    requires ValidTensor(q) && ValidTensor(k) && ValidTensor(v) && ShapesAgree(q, k, v)
    requires IsPerm(permQ, q.n) && IsPerm(permKv, k.n)
    requires IsShuffled(qNoisy, q, permQ, cfg.noiseSigma, zq) && IsShuffled(kNoisy, k, permKv, cfg.noiseSigma, zk)
    requires IsPermuted(vPerm, v, permKv)
    requires IsTensor(qNoisy, q.h, q.n, q.d) && IsTensor(kNoisy, q.h, k.n, q.d) && IsTensor(vPerm, q.h, k.n, q.d)
    requires Answered(out, engine, exp, qNoisy, kNoisy, vPerm, permQ, permKv, q.d, scale, mask, offset, cfg.causalNeg,
                      fused)
    requires |heads| == |out|
    requires forall h {:trigger heads[h]} | 0 <= h < |out| ::
               |heads[h]| == |permQ| && Permuted(heads[h], permQ) == out[h]
    ensures Unshuffles(heads, engine, exp, q, k, v, permQ, permKv, scale, mask, offset, cfg, zq, zk, fused)
  {
    PermsFit(permQ, q.n);
    PermsFit(permKv, k.n);
    forall h: nat | h < q.h
      ensures UnshufflesHead(heads, engine, exp, q, k, v, permQ, permKv, scale, mask, offset, cfg, zq, zk, fused, h)
    {
      hide HeadAnswer, Noisy, Permuted, IsPerm;
      assert IsMat(q.heads[h], q.n, q.d) && IsMat(k.heads[h], k.n, q.d) && IsMat(v.heads[h], k.n, q.d);
      assert qNoisy[h] == Noisy(Permuted(q.heads[h], permQ), q.d, cfg.noiseSigma, zq(h));
      assert kNoisy[h] == Noisy(Permuted(k.heads[h], permKv), q.d, cfg.noiseSigma, zk(h));
      assert vPerm[h] == Permuted(v.heads[h], permKv);
      assert Permuted(heads[h], permQ) == out[h];
    }
  }

  /** With an honest engine the result is attention of the inputs, noise folded back. */
  lemma {:induction false} HonestHeads(heads: seq<Mat>, engine: AttnEngine, exp: real -> real, q: Tensor, k: Tensor,
                                       v: Tensor, permQ: seq<nat>, permKv: seq<nat>, scale: real, mask: Masking,
                                       offset: nat, cfg: PermConfig, zq: nat -> (int, int) -> real,
                                       zk: nat -> (int, int) -> real, fused: bool, h: nat)
    requires ValidTensor(q) && ValidTensor(k) && ValidTensor(v) && ShapesAgree(q, k, v)
    requires IsPerm(permQ, q.n) && IsPerm(permKv, k.n) && h < q.h && Honest(engine, exp)
    requires fused ==> mask == NoMask || (q.n == 1 && offset + 1 == k.n)
    requires Unshuffles(heads, engine, exp, q, k, v, permQ, permKv, scale, mask, offset, cfg, zq, zk, fused)
    ensures heads[h] == NoisyAttention(exp, q.heads[h], k.heads[h], v.heads[h], permQ, permKv, q.d, scale, mask,
                                       offset, cfg, zq(h), zk(h))
  {
    hide Honest, HeadAnswer, Noisy, Permuted, ShuffledAttention;
    var qh, kh, vh := q.heads[h], k.heads[h], v.heads[h];
    assert |heads[h]| == q.n && |permQ| == q.n && |permKv| == k.n && |qh| == q.n && |kh| == k.n;
    HonestAnswer(engine, exp, Noisy(Permuted(qh, permQ), q.d, cfg.noiseSigma, zq(h)),
                 Noisy(Permuted(kh, permKv), q.d, cfg.noiseSigma, zk(h)),
                 Permuted(vh, permKv), permQ, permKv, q.d, scale, mask, offset, cfg.causalNeg, fused);
    NoisyHead(exp, qh, kh, vh, permQ, permKv, q.d, scale, mask, offset, cfg, zq(h), zk(h), heads[h]);
  }

  lemma {:induction false} NoisyHead(exp: real -> real, q: Mat, k: Mat, v: Mat, permQ: seq<nat>, permKv: seq<nat>,
                                     d: nat, scale: real, mask: Masking, offset: nat, cfg: PermConfig,
                                     zq: (int, int) -> real, zk: (int, int) -> real, o: Mat)
    requires IsPerm(permQ, |permQ|) && IsPerm(permKv, |permKv|)
    requires IsMat(q, |permQ|, d) && IsMat(k, |permKv|, d) && IsMat(v, |permKv|, d) && |o| == |permQ|
    requires Permuted(o, permQ)
          == ShuffledAttention(exp, Noisy(Permuted(q, permQ), d, cfg.noiseSigma, zq),
                               Noisy(Permuted(k, permKv), d, cfg.noiseSigma, zk),
                               Permuted(v, permKv), permQ, permKv, d, scale, mask, offset, cfg.causalNeg)
    ensures o == NoisyAttention(exp, q, k, v, permQ, permKv, d, scale, mask, offset, cfg, zq, zk)
  {
    hide ShuffledAttention, PlainAttention;
    NoiseCommutes(q, d, cfg.noiseSigma, zq, permQ);
    NoiseCommutes(k, d, cfg.noiseSigma, zk, permKv);
    var qn, kn := Noisy(q, d, cfg.noiseSigma, Unshuffled(zq, permQ)),
        Noisy(k, d, cfg.noiseSigma, Unshuffled(zk, permKv));
    HeadRecovered(exp, qn, kn, v, permQ, permKv, d, scale, mask, offset, cfg.causalNeg);
    PermutedInjective(o, NoisyAttention(exp, q, k, v, permQ, permKv, d, scale, mask, offset, cfg, zq, zk), permQ);
  }

  lemma {:induction false} HonestAll(heads: seq<Mat>, engine: AttnEngine, exp: real -> real, q: Tensor, k: Tensor,
                                     v: Tensor, permQ: seq<nat>, permKv: seq<nat>, scale: real, mask: Masking,
                                     offset: nat, cfg: PermConfig, zq: nat -> (int, int) -> real,
                                     zk: nat -> (int, int) -> real, fused: bool)
    requires ValidTensor(q) && ValidTensor(k) && ValidTensor(v) && ShapesAgree(q, k, v)
    requires IsPerm(permQ, q.n) && IsPerm(permKv, k.n)
    requires fused ==> mask == NoMask || (q.n == 1 && offset + 1 == k.n)
    requires Unshuffles(heads, engine, exp, q, k, v, permQ, permKv, scale, mask, offset, cfg, zq, zk, fused)
    ensures Honest(engine, exp) ==> |heads| == q.h && forall h {:trigger heads[h]} | 0 <= h < q.h ::
              heads[h] == NoisyAttention(exp, q.heads[h], k.heads[h], v.heads[h], permQ, permKv, q.d, scale, mask,
                                         offset, cfg, zq(h), zk(h))
  {
    if Honest(engine, exp) {
      forall h: nat | h < q.h
        ensures heads[h] == NoisyAttention(exp, q.heads[h], k.heads[h], v.heads[h], permQ, permKv, q.d, scale, mask,
                                           offset, cfg, zq(h), zk(h))
      {
        HonestHeads(heads, engine, exp, q, k, v, permQ, permKv, scale, mask, offset, cfg, zq, zk, fused, h);
      }
    }
  }

  /** The mask blocks nothing: there is none, or a single query sees every key. */
  predicate MaskIsNoop(mask: Masking, nQ: nat, nKv: nat, offset: nat) {
    match mask
    case NoMask => true
    case Causal => nQ == 1 && offset + nQ == nKv
  }

  /** Attention over cached keys: `n_q` queries from position `offset`, two independent permutations.
      Any engine sees permuted, noised rows only; an honest one gives exact attention back. */
  method PermutedAttentionCached(engine: AttnEngine, exp: real -> real, q: Tensor, k: Tensor, v: Tensor, scale: real,
                                 offset: nat, mask: Masking, cfg: PermConfig, permQ: seq<nat>, permKv: seq<nat>,
                                 zq: nat -> (int, int) -> real, zk: nat -> (int, int) -> real)
    returns (out: Attended)
    requires IsExp(exp) && ValidTensor(q) && ValidTensor(k) && ValidTensor(v) && Answers(engine)
    requires IsPerm(permQ, q.n) && IsPerm(permKv, k.n)
    ensures out.BadShape? <==> !ShapesAgree(q, k, v) || q.n > k.n || offset + q.n > k.n
    ensures out.Attended? ==>
              Unshuffles(out.heads, engine, exp, q, k, v, permQ, permKv, scale, mask, offset, cfg, zq, zk,
                                         cfg.softmaxOnGpu && (mask == NoMask || (q.n == 1 && offset + 1 == k.n)))
    ensures out.Attended? && Honest(engine, exp) ==>
              |out.heads| == q.h && forall h {:trigger out.heads[h]} | 0 <= h < q.h ::
              out.heads[h] == NoisyAttention(exp, q.heads[h], k.heads[h], v.heads[h], permQ, permKv, q.d, scale, mask,
                                             offset, cfg, zq(h), zk(h))
  {
    if k.h != q.h || k.d != q.d {
      return BadShape;
    }
    if v.h != q.h || v.n != k.n || v.d != q.d {
      return BadShape;
    }
    if q.n > k.n {
      return BadShape;
    }
    if offset + q.n > k.n {
      return BadShape;
    }
    var d := q.d;
    var fused := cfg.softmaxOnGpu && MaskIsNoop(mask, q.n, k.n, offset);
    PermsFit(permQ, q.n);
    PermsFit(permKv, k.n);
    hide *;
    var qPerm := PermuteHeads(q, permQ);
    var kPerm := PermuteHeads(k, permKv);
    var vPerm := PermuteHeads(v, permKv);
    var qNoisy := AddGaussian(qPerm, d, cfg.noiseSigma, zq);
    var kNoisy := AddGaussian(kPerm, d, cfg.noiseSigma, zk);
    ShuffledShape(qNoisy, qPerm, q, permQ, cfg.noiseSigma, zq);
    ShuffledShape(kNoisy, kPerm, k, permKv, cfg.noiseSigma, zk);
    var outPerm;
    if fused {
      outPerm := RunFusedAttention(engine, exp, qNoisy, kNoisy, vPerm, permQ, permKv, d, scale, mask, offset,
                                   cfg.causalNeg);
    } else {
      outPerm := MaskedBranch(engine, exp, qNoisy, kNoisy, vPerm, permQ, permKv, d, scale, mask, offset, cfg.causalNeg);
    }
    AnsweredShape(outPerm, engine, exp, qNoisy, kNoisy, vPerm, permQ, permKv, d, scale, mask, offset, cfg.causalNeg,
                  fused);
    var heads := RecoverTensor(outPerm, permQ);
    Recovered(heads, outPerm, engine, exp, q, k, v, permQ, permKv, scale, mask, offset, cfg, zq, zk, fused, qNoisy,
              kNoisy, vPerm);
    HonestAll(heads, engine, exp, q, k, v, permQ, permKv, scale, mask, offset, cfg, zq, zk, fused);
    return Attended(heads);
  }

  /** Permuted rows with the noise of their own draw. */
  ghost predicate SeenRows(x: Mat, m: Mat, perm: seq<nat>, n: nat, d: nat, sigma: real, z: (int, int) -> real)
    requires |perm| == n
  {
    IsMat(x, n, d) && forall i, j :: 0 <= i < n && 0 <= j < d ==>
      At(x, i, j) == At(m, perm[i], j) + if sigma > 0.0 then sigma * z(i, j) else 0.0
  }

  lemma {:induction false} SeenIs(x: Mat, m: Mat, perm: seq<nat>, n: nat, d: nat, sigma: real, z: (int, int) -> real)
    requires IsPerm(perm, n) && IsMat(m, n, d) && SeenRows(x, m, perm, n, d, sigma, z)
    ensures x == Noisy(Permuted(m, perm), d, sigma, z)
  {
    var y := Noisy(Permuted(m, perm), d, sigma, z);
    forall i, j | 0 <= i < n && 0 <= j < d
      ensures At(x, i, j) == At(y, i, j)
    {
      NoiseLands(m, d, sigma, z, perm, i, j);
    }
    MatExt(x, y, n, d);
  }

  /** The scores of the engine's product, scaled, with every later key of a causal mask lowered. */
  ghost predicate MaskedScores(s: Mat, product: Mat, permQ: seq<nat>, permKv: seq<nat>, scale: real, mask: Masking,
                               offset: nat, c: real) {
    IsMat(s, |permQ|, |permKv|) && forall i, j :: 0 <= i < |permQ| && 0 <= j < |permKv| ==>
      At(s, i, j) == At(product, i, j) * scale + if mask == Causal && permKv[j] > offset + permQ[i] then -c else 0.0
  }

  lemma {:induction false} ScoresAre(s: Mat, engine: AttnEngine, x: Mat, y: Mat, permQ: seq<nat>, permKv: seq<nat>,
                                     d: nat, scale: real, mask: Masking, offset: nat, c: real)
    requires |x| == |permQ| && |y| == |permKv|
    requires MaskedScores(s, engine.matmul(x, Transpose(y, |y|, d), d, |y|), permQ, permKv, scale, mask, offset, c)
    ensures s == EngineScores(engine, x, y, permQ, permKv, d, scale, mask, offset, c)
  {
    MatExt(s, EngineScores(engine, x, y, permQ, permKv, d, scale, mask, offset, c), |x|, |y|);
  }

  /** What any engine is given and where its answer goes, whatever it answers: it sees permuted rows
      with the noise added, and row `i` of its last answer becomes row `permQ[i]` of the head. */
  lemma {:induction false} EngineSees(heads: seq<Mat>, engine: AttnEngine, exp: real -> real, q: Tensor, k: Tensor,
                                      v: Tensor, permQ: seq<nat>, permKv: seq<nat>, scale: real, mask: Masking,
                                      offset: nat, cfg: PermConfig, zq: nat -> (int, int) -> real,
                                      zk: nat -> (int, int) -> real, fused: bool, h: nat, x: Mat, y: Mat, w: Mat,
                                      s: Mat, answer: Mat)
    requires ValidTensor(q) && ValidTensor(k) && ValidTensor(v) && ShapesAgree(q, k, v)
    requires IsPerm(permQ, q.n) && IsPerm(permKv, k.n) && h < q.h
    requires Unshuffles(heads, engine, exp, q, k, v, permQ, permKv, scale, mask, offset, cfg, zq, zk, fused)
    requires SeenRows(x, q.heads[h], permQ, q.n, q.d, cfg.noiseSigma, zq(h))
    requires SeenRows(y, k.heads[h], permKv, k.n, q.d, cfg.noiseSigma, zk(h))
    requires |w| == k.n && forall j: nat {:trigger w[j]} | j < k.n :: w[j] == v.heads[h][permKv[j]]
    requires MaskedScores(s, engine.matmul(x, Transpose(y, k.n, q.d), q.d, k.n), permQ, permKv, scale, mask, offset,
                          cfg.causalNeg)
    requires answer == if fused then engine.fused(x, y, w, q.d, scale)
                       else engine.matmul(Softmax(exp, s, q.n, k.n), w, k.n, q.d)
    ensures |heads| == q.h && |heads[h]| == |answer| == q.n
    ensures forall i: nat {:trigger answer[i]} | i < q.n :: heads[h][permQ[i]] == answer[i]
  {
    assert UnshufflesHead(heads, engine, exp, q, k, v, permQ, permKv, scale, mask, offset, cfg, zq, zk, fused, h) by {
      assert heads[h] == heads[h];
    }
    assert IsMat(k.heads[h], k.n, q.d) && IsMat(v.heads[h], k.n, q.d) && IsMat(q.heads[h], q.n, q.d);
    hide Noisy, Softmax, EngineScores, SeenRows, MaskedScores;
    SeenIs(x, q.heads[h], permQ, q.n, q.d, cfg.noiseSigma, zq(h));
    SeenIs(y, k.heads[h], permKv, k.n, q.d, cfg.noiseSigma, zk(h));
    assert w == Permuted(v.heads[h], permKv);
    SeenShape(x, q.heads[h], permQ, q.n, q.d, cfg.noiseSigma, zq(h));
    SeenShape(y, k.heads[h], permKv, k.n, q.d, cfg.noiseSigma, zk(h));
    ScoresAre(s, engine, x, y, permQ, permKv, q.d, scale, mask, offset, cfg.causalNeg);
    assert answer == Permuted(heads[h], permQ);
  }

  lemma {:induction false} SeenShape(x: Mat, m: Mat, perm: seq<nat>, n: nat, d: nat, sigma: real,
                                     z: (int, int) -> real)
    requires |perm| == n && SeenRows(x, m, perm, n, d, sigma, z)
    ensures |x| == n
  {
  }

  /** Without noise the permutations leave no trace: plain attention, for every pair of them. */
  lemma {:induction false} NoiselessIsPlain(exp: real -> real, q: Mat, k: Mat, v: Mat, permQ: seq<nat>,
                                            permKv: seq<nat>, d: nat, scale: real, mask: Masking, offset: nat,
                                            cfg: PermConfig, zq: (int, int) -> real, zk: (int, int) -> real)
    requires IsPerm(permQ, |permQ|) && IsPerm(permKv, |permKv|) && cfg.noiseSigma <= 0.0
    ensures NoisyAttention(exp, q, k, v, permQ, permKv, d, scale, mask, offset, cfg, zq, zk)
         == PlainAttention(exp, q, k, v, d, scale, mask, offset, cfg.causalNeg)
  {
    hide PlainAttention;
  }

  /** Self-attention: one permutation for queries, keys and values, always masked on the trusted side. */
  method PermutedAttention(engine: AttnEngine, exp: real -> real, q: Tensor, k: Tensor, v: Tensor, scale: real,
                           mask: Masking, cfg: PermConfig, perm: seq<nat>, zq: nat -> (int, int) -> real,
                           zk: nat -> (int, int) -> real)
    returns (out: Attended)
    requires IsExp(exp) && ValidTensor(q) && ValidTensor(k) && ValidTensor(v) && Answers(engine)
    requires IsPerm(perm, q.n)
    ensures out.BadShape? <==> !ShapesAgree(q, k, v) || k.n != q.n
    ensures out.Attended? ==>
              Unshuffles(out.heads, engine, exp, q, k, v, perm, perm, scale, mask, 0, cfg, zq, zk, false)
    ensures out.Attended? && Honest(engine, exp) ==>
              |out.heads| == q.h && forall h {:trigger out.heads[h]} | 0 <= h < q.h ::
              out.heads[h] == NoisyAttention(exp, q.heads[h], k.heads[h], v.heads[h], perm, perm, q.d, scale, mask, 0,
                                             cfg, zq(h), zk(h))
  {
    if k.h != q.h || k.n != q.n || k.d != q.d {
      return BadShape;
    }
    if v.h != q.h || v.n != q.n || v.d != q.d {
      return BadShape;
    }
    var d := q.d;
    PermsFit(perm, q.n);
    hide *;
    var qPerm := PermuteHeads(q, perm);
    var kPerm := PermuteHeads(k, perm);
    var vPerm := PermuteHeads(v, perm);
    var qNoisy := AddGaussian(qPerm, d, cfg.noiseSigma, zq);
    var kNoisy := AddGaussian(kPerm, d, cfg.noiseSigma, zk);
    ShuffledShape(qNoisy, qPerm, q, perm, cfg.noiseSigma, zq);
    ShuffledShape(kNoisy, kPerm, k, perm, cfg.noiseSigma, zk);
    var outPerm := MaskedBranch(engine, exp, qNoisy, kNoisy, vPerm, perm, perm, d, scale, mask, 0, cfg.causalNeg);
    AnsweredShape(outPerm, engine, exp, qNoisy, kNoisy, vPerm, perm, perm, d, scale, mask, 0, cfg.causalNeg, false);
    var heads := RecoverTensor(outPerm, perm);
    Recovered(heads, outPerm, engine, exp, q, k, v, perm, perm, scale, mask, 0, cfg, zq, zk, false, qNoisy, kNoisy,
              vPerm);
    HonestAll(heads, engine, exp, q, k, v, perm, perm, scale, mask, 0, cfg, zq, zk, false);
    return Attended(heads);
  }
}
