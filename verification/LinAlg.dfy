/** Finite sums over the reals. Every lemma takes the summands it relates as
    named functions, so a caller states their pointwise relation once. */
module Sums {

  function Sum(n: nat, f: int -> real): real {
    if n == 0 then 0.0 else Sum(n - 1, f) + f(n - 1)
  }

  lemma {:induction false} SumCong(n: nat, f: int -> real, g: int -> real)
    requires forall i :: 0 <= i < n ==> f(i) == g(i)
    ensures Sum(n, f) == Sum(n, g)
  {
    if n > 0 {
      SumCong(n - 1, f, g);
    }
  }

  lemma {:induction false} SumZero(n: nat, f: int -> real)
    requires forall i :: 0 <= i < n ==> f(i) == 0.0
    ensures Sum(n, f) == 0.0
  {
    if n > 0 {
      SumZero(n - 1, f);
    }
  }

  lemma {:induction false} SumAdd(n: nat, f: int -> real, g: int -> real, h: int -> real)
    requires forall i :: 0 <= i < n ==> h(i) == f(i) + g(i)
    ensures Sum(n, h) == Sum(n, f) + Sum(n, g)
  {
    if n > 0 {
      SumAdd(n - 1, f, g, h);
    }
  }

  lemma {:induction false} SumScale(n: nat, c: real, f: int -> real, h: int -> real)
    requires forall i :: 0 <= i < n ==> h(i) == c * f(i)
    ensures Sum(n, h) == c * Sum(n, f)
  {
    if n > 0 {
      SumScale(n - 1, c, f, h);
      assert h(n - 1) == c * f(n - 1);
    }
  }

  /** Only position `k` contributes. */
  lemma {:induction false} SumOnly(n: nat, k: int, f: int -> real)
    requires 0 <= k < n
    requires forall i :: 0 <= i < n && i != k ==> f(i) == 0.0
    ensures Sum(n, f) == f(k)
  {
    if k == n - 1 {
      SumZero(n - 1, f);
    } else {
      SumOnly(n - 1, k, f);
    }
  }

  /** The first `m` terms, then the remaining `n`, read through a shifted copy. */
  lemma {:induction false} SumSplit(m: nat, n: nat, f: int -> real, g: int -> real)
    requires forall i :: 0 <= i < n ==> g(i) == f(m + i)
    ensures Sum(m + n, f) == Sum(m, f) + Sum(n, g)
  {
    if n > 0 {
      SumSplit(m, n - 1, f, g);
    }
  }

  /** The first term, then the rest read through a shifted copy. */
  lemma {:induction false} SumHead(n: nat, f: int -> real, g: int -> real)
    requires n > 0
    requires forall i :: 0 <= i < n - 1 ==> g(i) == f(1 + i)
    ensures Sum(n, f) == f(0) + Sum(n - 1, g)
  {
    SumSplit(1, n - 1, f, g);
    assert Sum(1, f) == Sum(0, f) + f(0);
  }

  /** Exchange of two finite sums: `row(i)` sums `f(i, ·)`, `col(j)` sums `f(·, j)`. */
  lemma {:induction false} SumSwap(n: nat, m: nat, f: int -> int -> real, fT: int -> int -> real,
                                   row: int -> real, col: int -> real)
    requires forall i, j :: 0 <= i < n && 0 <= j < m ==> f(i)(j) == fT(j)(i)
    requires forall i :: 0 <= i < n ==> row(i) == Sum(m, f(i))
    requires forall j :: 0 <= j < m ==> col(j) == Sum(n, fT(j))
    ensures Sum(n, row) == Sum(m, col)
  {
    if n == 0 {
      SumZero(m, col);
    } else {
      var col' := (j: int) => Sum(n - 1, fT(j));
      SumSwap(n - 1, m, f, fT, row, col');
      SumCong(m, f(n - 1), j => fT(j)(n - 1));
      SumAdd(m, col', j => fT(j)(n - 1), col);
    }
  }

  lemma {:induction false} SumNonneg(n: nat, f: int -> real)
    requires forall i :: 0 <= i < n ==> f(i) >= 0.0
    ensures Sum(n, f) >= 0.0
    ensures forall k :: 0 <= k < n ==> f(k) <= Sum(n, f)
  {
    if n > 0 {
      SumNonneg(n - 1, f);
    }
  }

  /** `p` lists `0..n` in some order. */
  ghost predicate IsPerm(p: seq<nat>, n: nat) {
    && |p| == n
    && (forall i :: 0 <= i < n ==> p[i] < n)
    && (forall i, j :: 0 <= i < j < n ==> p[i] != p[j])
  }

  /** The permutation of `0..n-1` left when the largest index `n-1` is cut out
      and the last entry takes its place. */
  ghost function DropTop(p: seq<nat>, n: nat, at: nat): (r: seq<nat>)
    requires n > 0 && IsPerm(p, n) && at < n && p[at] == n - 1
    ensures IsPerm(r, n - 1)
  {
    if at == n - 1 then p[..n - 1] else p[..n - 1][at := p[n - 1]]
  }

  /** Every index below `n` occurs in a permutation. */
  lemma {:induction false} PermOnto(p: seq<nat>, n: nat, v: nat) returns (at: nat)
    requires IsPerm(p, n) && v < n
    ensures at < n && p[at] == v
  {
    if exists k :: 0 <= k < n && p[k] == v {
      at :| 0 <= at < n && p[at] == v;
    } else {
      ghost var vals := set k | 0 <= k < n :: p[k];
      RangeSize(n);
      ImageSize(p, n);
      assert vals <= Range(n) - {v};
      SubsetSize(vals, Range(n) - {v});
      assert false;
    }
  }

  ghost function Range(n: nat): (r: set<nat>)
    ensures forall k: nat :: k in r <==> k < n
  {
    if n == 0 then {} else Range(n - 1) + {n - 1}
  }

  lemma {:induction false} RangeSize(n: nat)
    ensures |Range(n)| == n
  {
    if n > 0 {
      RangeSize(n - 1);
    }
  }

  lemma {:induction false} ImageSize(p: seq<nat>, n: nat)
    requires n <= |p|
    requires forall i, j :: 0 <= i < j < n ==> p[i] != p[j]
    ensures |set k | 0 <= k < n :: p[k]| == n
  {
    if n > 0 {
      ImageSize(p, n - 1);
      assert (set k | 0 <= k < n :: p[k]) == (set k | 0 <= k < n - 1 :: p[k]) + {p[n - 1]};
    }
  }

  lemma {:induction false} SubsetSize<T>(a: set<T>, b: set<T>)
    requires a <= b
    ensures |a| <= |b|
  {
    if a != {} {
      var x :| x in a;
      SubsetSize(a - {x}, b - {x});
    }
  }

  /** A sum does not depend on the order in which it is taken. */
  lemma {:induction false} SumPerm(n: nat, p: seq<nat>, f: int -> real, g: int -> real)
    requires IsPerm(p, n)
    requires forall i :: 0 <= i < n ==> g(i) == f(p[i])
    ensures Sum(n, g) == Sum(n, f)
  {
    if n > 0 {
      var at := PermOnto(p, n, n - 1);
      var q := DropTop(p, n, at);
      var g' := (i: int) => if 0 <= i < n - 1 then f(q[i]) else 0.0;
      SumPerm(n - 1, q, f, g');
      if at == n - 1 {
        SumCong(n - 1, g, g');
      } else {
        SumReplace(n - 1, at, g, g');
      }
    }
  }

  /** Two summands that differ at `k` only. */
  lemma {:induction false} SumReplace(n: nat, k: int, f: int -> real, g: int -> real)
    requires 0 <= k < n
    requires forall i :: 0 <= i < n && i != k ==> f(i) == g(i)
    ensures Sum(n, f) - f(k) == Sum(n, g) - g(k)
  {
    if k == n - 1 {
      SumCong(n - 1, f, g);
    } else {
      SumReplace(n - 1, k, f, g);
    }
  }
}

/** Dense real matrices as rows of reals, and the algebra the masking protocol
    rests on. */
module LinAlg {
  import opened Sums

  type Mat = seq<seq<real>>

  predicate IsMat(m: Mat, r: nat, c: nat) {
    |m| == r && forall i :: 0 <= i < r ==> |m[i]| == c
  }

  /** Entry `(i, j)`, and 0 outside the matrix. */
  function At(m: Mat, i: int, j: int): real {
    if 0 <= i < |m| && 0 <= j < |m[i]| then m[i][j] else 0.0
  }

  /** Entry `i` of a vector, and 0 outside it. */
  function Entry(v: seq<real>, i: int): real {
    if 0 <= i < |v| then v[i] else 0.0
  }

  function Build(r: nat, c: nat, f: (int, int) -> real): (m: Mat)
    ensures IsMat(m, r, c)
    ensures forall i, j :: 0 <= i < r && 0 <= j < c ==> At(m, i, j) == f(i, j)
  {
    seq(r, i => seq(c, j => f(i, j)))
  }

  /** The contents of a two-dimensional array. */
  function MatOf(a: array2<real>): (m: Mat)
    reads a
    ensures IsMat(m, a.Length0, a.Length1)
    ensures forall i, j {:trigger At(m, i, j)} {:trigger a[i, j]} | 0 <= i < a.Length0 && 0 <= j < a.Length1 ::
              At(m, i, j) == a[i, j]
  {
    seq(a.Length0, i requires 0 <= i < a.Length0 reads a =>
      seq(a.Length1, j requires 0 <= j < a.Length1 reads a => a[i, j]))
  }

  lemma {:induction false} MatExt(a: Mat, b: Mat, r: nat, c: nat)
    requires IsMat(a, r, c) && IsMat(b, r, c)
    requires forall i, j :: 0 <= i < r && 0 <= j < c ==> At(a, i, j) == At(b, i, j)
    ensures a == b
  {
    forall i | 0 <= i < r
      ensures a[i] == b[i]
    {
      forall j | 0 <= j < c
        ensures a[i][j] == b[i][j]
      {
        assert At(a, i, j) == At(b, i, j);
      }
    }
  }

  function Term(a: Mat, b: Mat, i: int, j: int): int -> real {
    t => At(a, i, t) * At(b, t, j)
  }

  /** Entry `(i, j)` of the product of an `(·, k)` and a `(k, ·)` matrix. */
  function Dot(a: Mat, b: Mat, k: nat, i: int, j: int): real {
    Sum(k, Term(a, b, i, j))
  }

  /** `a · b`, where `k` is the shared dimension and `p` the width of `b`. */
  function Mul(a: Mat, b: Mat, k: nat, p: nat): (m: Mat)
    ensures IsMat(m, |a|, p)
    ensures forall i, j :: 0 <= i < |a| && 0 <= j < p ==> At(m, i, j) == Dot(a, b, k, i, j)
  {
    Build(|a|, p, (i, j) => Dot(a, b, k, i, j))
  }

  function Transpose(a: Mat, r: nat, c: nat): (m: Mat)
    ensures IsMat(m, c, r)
    ensures forall i, j :: 0 <= i < c && 0 <= j < r ==> At(m, i, j) == At(a, j, i)
  {
    Build(c, r, (i, j) => At(a, j, i))
  }

  function Delta(i: int, j: int): real {
    if i == j then 1.0 else 0.0
  }

  function Identity(n: nat): (m: Mat)
    ensures IsMat(m, n, n)
    ensures forall i, j :: 0 <= i < n && 0 <= j < n ==> At(m, i, j) == Delta(i, j)
  {
    Build(n, n, (i, j) => Delta(i, j))
  }

  function Add(a: Mat, b: Mat, r: nat, c: nat): (m: Mat)
    ensures IsMat(m, r, c)
    ensures forall i, j :: 0 <= i < r && 0 <= j < c ==> At(m, i, j) == At(a, i, j) + At(b, i, j)
  {
    Build(r, c, (i, j) => At(a, i, j) + At(b, i, j))
  }

  function Sub(a: Mat, b: Mat, r: nat, c: nat): (m: Mat)
    ensures IsMat(m, r, c)
    ensures forall i, j :: 0 <= i < r && 0 <= j < c ==> At(m, i, j) == At(a, i, j) - At(b, i, j)
  {
    Build(r, c, (i, j) => At(a, i, j) - At(b, i, j))
  }

  function Scale(a: Mat, r: nat, c: nat, x: real): (m: Mat)
    ensures IsMat(m, r, c)
    ensures forall i, j :: 0 <= i < r && 0 <= j < c ==> At(m, i, j) == x * At(a, i, j)
  {
    Build(r, c, (i, j) => x * At(a, i, j))
  }

  lemma {:induction false} TimesAssoc(x: real, y: real, z: real)
    ensures x * y * z == x * (y * z) == z * (x * y)
  {
  }

  lemma {:induction false} TimesSwap(x: real, y: real, z: real)
    ensures x * (y * z) == y * (x * z)
  {
  }

  /** `a[i][s] · b[s][t] · c[t][j]`, the summand of a triple product. */
  function Triple(a: Mat, b: Mat, c: Mat, i: int, s: int, t: int, j: int): real {
    At(a, i, s) * At(b, s, t) * At(c, t, j)
  }

  function TripleOuter(a: Mat, b: Mat, c: Mat, i: int, j: int): int -> int -> real {
    t => s => Triple(a, b, c, i, s, t, j)
  }

  function TripleInner(a: Mat, b: Mat, c: Mat, i: int, j: int): int -> int -> real {
    s => t => Triple(a, b, c, i, s, t, j)
  }

  lemma {:induction false} OuterTerm(a: Mat, b: Mat, c: Mat, i: int, s: int, t: int, j: int)
    ensures TripleOuter(a, b, c, i, j)(t)(s) == At(c, t, j) * Term(a, b, i, t)(s)
  {
    var x, y, z := At(a, i, s), At(b, s, t), At(c, t, j);
    TimesAssoc(x, y, z);
  }

  lemma {:induction false} InnerTerm(a: Mat, b: Mat, c: Mat, i: int, s: int, t: int, j: int)
    ensures TripleInner(a, b, c, i, j)(s)(t) == At(a, i, s) * Term(b, c, s, j)(t)
  {
    var x, y, z := At(a, i, s), At(b, s, t), At(c, t, j);
    TimesAssoc(x, y, z);
  }

  /** `Σ_s a[i][s]·b[s][t]·c[t][j]` with `c[t][j]` taken out. */
  lemma {:induction false} OuterSum(a: Mat, b: Mat, c: Mat, k: nat, i: int, t: int, j: int)
    ensures Sum(k, TripleOuter(a, b, c, i, j)(t)) == Dot(a, b, k, i, t) * At(c, t, j)
  {
    var f, g, x := TripleOuter(a, b, c, i, j)(t), Term(a, b, i, t), At(c, t, j);
    assert Dot(a, b, k, i, t) == Sum(k, g);
    hide *;
    forall s | 0 <= s < k
      ensures f(s) == x * g(s)
    {
      OuterTerm(a, b, c, i, s, t, j);
    }
    SumScale(k, x, g, f);
  }

  /** `Σ_t a[i][s]·b[s][t]·c[t][j]` with `a[i][s]` taken out. */
  lemma {:induction false} InnerSum(a: Mat, b: Mat, c: Mat, m: nat, i: int, s: int, j: int)
    ensures Sum(m, TripleInner(a, b, c, i, j)(s)) == At(a, i, s) * Dot(b, c, m, s, j)
  {
    var f, g, x := TripleInner(a, b, c, i, j)(s), Term(b, c, s, j), At(a, i, s);
    assert Dot(b, c, m, s, j) == Sum(m, g);
    hide *;
    forall t | 0 <= t < m
      ensures f(t) == x * g(t)
    {
      InnerTerm(a, b, c, i, s, t, j);
    }
    SumScale(m, x, g, f);
  }

  lemma {:induction false} DotAssoc(a: Mat, b: Mat, c: Mat, ab: Mat, bc: Mat, k: nat, m: nat, i: int, j: int)
    requires forall t {:trigger At(ab, i, t)} :: 0 <= t < m ==> At(ab, i, t) == Dot(a, b, k, i, t)
    requires forall s {:trigger At(bc, s, j)} :: 0 <= s < k ==> At(bc, s, j) == Dot(b, c, m, s, j)
    ensures Dot(ab, c, m, i, j) == Dot(a, bc, k, i, j)
  {
    var f := TripleOuter(a, b, c, i, j);
    var fT := TripleInner(a, b, c, i, j);
    hide Sum, Triple, At;
    forall t | 0 <= t < m
      ensures Term(ab, c, i, j)(t) == Sum(k, f(t))
    {
      assert At(ab, i, t) == Dot(a, b, k, i, t);
      OuterSum(a, b, c, k, i, t, j);
    }
    forall s | 0 <= s < k
      ensures Term(a, bc, i, j)(s) == Sum(m, fT(s))
    {
      assert At(bc, s, j) == Dot(b, c, m, s, j);
      InnerSum(a, b, c, m, i, s, j);
    }
    hide Term;
    SumSwap(m, k, f, fT, Term(ab, c, i, j), Term(a, bc, i, j));
  }

  /** Matrix multiplication is associative. */
  lemma {:induction false} MulAssoc(a: Mat, b: Mat, c: Mat, n: nat, k: nat, m: nat, p: nat)
    requires IsMat(a, n, k) && IsMat(b, k, m) && IsMat(c, m, p)
    ensures Mul(Mul(a, b, k, m), c, m, p) == Mul(a, Mul(b, c, m, p), k, p)
  {
    hide Dot;
    var ab := Mul(a, b, k, m);
    var bc := Mul(b, c, m, p);
    forall i, j | 0 <= i < n && 0 <= j < p
      ensures Dot(ab, c, m, i, j) == Dot(a, bc, k, i, j)
    {
      DotAssoc(a, b, c, ab, bc, k, m, i, j);
    }
    MatExt(Mul(ab, c, m, p), Mul(a, bc, k, p), n, p);
  }

  lemma {:induction false} MulIdentityLeft(a: Mat, n: nat, p: nat)
    requires IsMat(a, n, p)
    ensures Mul(Identity(n), a, n, p) == a
  {
    forall i, j | 0 <= i < n && 0 <= j < p
      ensures Dot(Identity(n), a, n, i, j) == At(a, i, j)
    {
      SumOnly(n, i, Term(Identity(n), a, i, j));
    }
    MatExt(Mul(Identity(n), a, n, p), a, n, p);
  }

  lemma {:induction false} MulIdentityRight(a: Mat, n: nat, p: nat)
    requires IsMat(a, n, p)
    ensures Mul(a, Identity(p), p, p) == a
  {
    forall i, j | 0 <= i < n && 0 <= j < p
      ensures Dot(a, Identity(p), p, i, j) == At(a, i, j)
    {
      SumOnly(p, j, Term(a, Identity(p), i, j));
    }
    MatExt(Mul(a, Identity(p), p, p), a, n, p);
  }

  lemma {:induction false} TransposeMul(a: Mat, b: Mat, n: nat, k: nat, p: nat)
    requires IsMat(a, n, k) && IsMat(b, k, p)
    ensures Transpose(Mul(a, b, k, p), n, p) == Mul(Transpose(b, k, p), Transpose(a, n, k), k, n)
  {
    var bt := Transpose(b, k, p);
    var at := Transpose(a, n, k);
    forall i, j | 0 <= i < p && 0 <= j < n
      ensures Dot(a, b, k, j, i) == Dot(bt, at, k, i, j)
    {
      SumCong(k, Term(a, b, j, i), Term(bt, at, i, j));
    }
    MatExt(Transpose(Mul(a, b, k, p), n, p), Mul(bt, at, k, n), p, n);
  }

  lemma {:induction false} TransposeTwice(a: Mat, r: nat, c: nat)
    requires IsMat(a, r, c)
    ensures Transpose(Transpose(a, r, c), c, r) == a
  {
    MatExt(Transpose(Transpose(a, r, c), c, r), a, r, c);
  }

  lemma {:induction false} DotScaleLeft(s: Mat, a: Mat, b: Mat, k: nat, i: int, j: int, x: real)
    requires forall t {:trigger At(a, i, t)} :: 0 <= t < k ==> At(s, i, t) == x * At(a, i, t)
    ensures Dot(s, b, k, i, j) == x * Dot(a, b, k, i, j)
  {
    forall t | 0 <= t < k
      ensures Term(s, b, i, j)(t) == x * Term(a, b, i, j)(t)
    {
      TimesAssoc(x, At(a, i, t), At(b, t, j));
    }
    SumScale(k, x, Term(a, b, i, j), Term(s, b, i, j));
  }

  lemma {:induction false} DotScaleRight(a: Mat, s: Mat, b: Mat, k: nat, i: int, j: int, x: real)
    requires forall t {:trigger At(b, t, j)} :: 0 <= t < k ==> At(s, t, j) == x * At(b, t, j)
    ensures Dot(a, s, k, i, j) == x * Dot(a, b, k, i, j)
  {
    forall t | 0 <= t < k
      ensures Term(a, s, i, j)(t) == x * Term(a, b, i, j)(t)
    {
      TimesSwap(At(a, i, t), x, At(b, t, j));
    }
    SumScale(k, x, Term(a, b, i, j), Term(a, s, i, j));
  }

  lemma {:induction false} MulScaleRight(a: Mat, b: Mat, n: nat, k: nat, p: nat, x: real)
    requires IsMat(a, n, k) && IsMat(b, k, p)
    ensures Mul(a, Scale(b, k, p, x), k, p) == Scale(Mul(a, b, k, p), n, p, x)
  {
    var xb := Scale(b, k, p, x);
    forall i, j | 0 <= i < n && 0 <= j < p
      ensures Dot(a, xb, k, i, j) == x * Dot(a, b, k, i, j)
    {
      DotScaleRight(a, xb, b, k, i, j, x);
    }
    MatExt(Mul(a, xb, k, p), Scale(Mul(a, b, k, p), n, p, x), n, p);
  }

  lemma {:induction false} MulScaleLeft(a: Mat, b: Mat, n: nat, k: nat, p: nat, x: real)
    requires IsMat(a, n, k) && IsMat(b, k, p)
    ensures Mul(Scale(a, n, k, x), b, k, p) == Scale(Mul(a, b, k, p), n, p, x)
  {
    var xa := Scale(a, n, k, x);
    forall i, j | 0 <= i < n && 0 <= j < p
      ensures Dot(xa, b, k, i, j) == x * Dot(a, b, k, i, j)
    {
      DotScaleLeft(xa, a, b, k, i, j, x);
    }
    MatExt(Mul(xa, b, k, p), Scale(Mul(a, b, k, p), n, p, x), n, p);
  }

  lemma {:induction false} MulAddLeft(a: Mat, b: Mat, c: Mat, n: nat, k: nat, p: nat)
    requires IsMat(a, n, k) && IsMat(b, n, k) && IsMat(c, k, p)
    ensures Mul(Add(a, b, n, k), c, k, p) == Add(Mul(a, c, k, p), Mul(b, c, k, p), n, p)
  {
    var ab := Add(a, b, n, k);
    forall i, j | 0 <= i < n && 0 <= j < p
      ensures Dot(ab, c, k, i, j) == Dot(a, c, k, i, j) + Dot(b, c, k, i, j)
    {
      SumAdd(k, Term(a, c, i, j), Term(b, c, i, j), Term(ab, c, i, j));
    }
    MatExt(Mul(ab, c, k, p), Add(Mul(a, c, k, p), Mul(b, c, k, p), n, p), n, p);
  }

  lemma {:induction false} MulSubRight(a: Mat, b: Mat, c: Mat, n: nat, k: nat, p: nat)
    requires IsMat(a, n, k) && IsMat(b, k, p) && IsMat(c, k, p)
    ensures Mul(a, Sub(b, c, k, p), k, p) == Sub(Mul(a, b, k, p), Mul(a, c, k, p), n, p)
  {
    var bc := Sub(b, c, k, p);
    forall i, j | 0 <= i < n && 0 <= j < p
      ensures Dot(a, bc, k, i, j) == Dot(a, b, k, i, j) - Dot(a, c, k, i, j)
    {
      SumAdd(k, Term(a, bc, i, j), Term(a, c, i, j), Term(a, b, i, j));
    }
    MatExt(Mul(a, bc, k, p), Sub(Mul(a, b, k, p), Mul(a, c, k, p), n, p), n, p);
  }

  lemma {:induction false} MulSubLeft(a: Mat, b: Mat, c: Mat, n: nat, k: nat, p: nat)
    requires IsMat(a, n, k) && IsMat(b, n, k) && IsMat(c, k, p)
    ensures Mul(Sub(a, b, n, k), c, k, p) == Sub(Mul(a, c, k, p), Mul(b, c, k, p), n, p)
  {
    var ab := Sub(a, b, n, k);
    forall i, j | 0 <= i < n && 0 <= j < p
      ensures Dot(ab, c, k, i, j) == Dot(a, c, k, i, j) - Dot(b, c, k, i, j)
    {
      SumAdd(k, Term(ab, c, i, j), Term(b, c, i, j), Term(a, c, i, j));
    }
    MatExt(Mul(ab, c, k, p), Sub(Mul(a, c, k, p), Mul(b, c, k, p), n, p), n, p);
  }

  /** The first rows of a product are the product of the first rows. */
  lemma {:induction false} MulTopRows(a: Mat, b: Mat, k: nat, p: nat, rows: nat)
    requires rows <= |a|
    ensures Mul(a, b, k, p)[..rows] == Mul(a[..rows], b, k, p)
  {
    var top := a[..rows];
    forall i, j | 0 <= i < rows && 0 <= j < p
      ensures Dot(a, b, k, i, j) == Dot(top, b, k, i, j)
    {
      SumCong(k, Term(a, b, i, j), Term(top, b, i, j));
    }
    forall i, j | 0 <= i < rows && 0 <= j < p
      ensures At(Mul(a, b, k, p)[..rows], i, j) == At(Mul(a, b, k, p), i, j)
    {
    }
    MatExt(Mul(a, b, k, p)[..rows], Mul(top, b, k, p), rows, p);
  }
}
