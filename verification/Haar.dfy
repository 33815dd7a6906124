/** The dense mask: Householder QR of a Gaussian matrix in place, accumulating the
    orthogonal factor, with the final column-sign correction. */
module Haar {
  import opened Sums
  import opened LinAlg

  ghost predicate Orthogonal(q: Mat, n: nat) {
    && IsMat(q, n, n)
    && Mul(q, Transpose(q, n, n), n, n) == Identity(n)
    && Mul(Transpose(q, n, n), q, n, n) == Identity(n)
  }

  // ─── reflections ───

  /** The Householder vector, padded with `k` zeros, as a column. */
  function Axis(v: seq<real>, k: nat, n: nat): (u: Mat)
    ensures IsMat(u, n, 1)
    ensures forall i :: 0 <= i < n ==> At(u, i, 0) == Entry(v, i - k)
  {
    Build(n, 1, (i, j) => Entry(v, i - k))
  }

  function AxisT(v: seq<real>, k: nat, n: nat): (u: Mat)
    ensures IsMat(u, 1, n)
    ensures forall j :: 0 <= j < n ==> At(u, 0, j) == Entry(v, j - k)
  {
    Build(1, n, (i, j) => Entry(v, j - k))
  }

  /** `2·u·uᵀ` */
  function Outer(v: seq<real>, k: nat, n: nat): (m: Mat)
    ensures IsMat(m, n, n)
  {
    Scale(Mul(Axis(v, k, n), AxisT(v, k, n), 1, n), n, n, 2.0)
  }

  /** `H = I − 2·u·uᵀ` */
  function Reflector(v: seq<real>, k: nat, n: nat): (h: Mat)
    ensures IsMat(h, n, n)
  {
    Sub(Identity(n), Outer(v, k, n), n, n)
  }

  function Square(v: seq<real>): int -> real {
    t => Entry(v, t) * Entry(v, t)
  }

  ghost predicate IsUnit(v: seq<real>) {
    Sum(|v|, Square(v)) == 1.0
  }

  lemma {:induction false} OuterEntry(v: seq<real>, k: nat, n: nat, i: int, j: int)
    requires 0 <= i < n && 0 <= j < n
    ensures At(Outer(v, k, n), i, j) == 2.0 * (Entry(v, i - k) * Entry(v, j - k))
  {
    assert Dot(Axis(v, k, n), AxisT(v, k, n), 1, i, j) == Sum(0, Term(Axis(v, k, n), AxisT(v, k, n), i, j))
        + At(Axis(v, k, n), i, 0) * At(AxisT(v, k, n), 0, j);
  }

  lemma {:induction false} ReflectorSymmetric(v: seq<real>, k: nat, n: nat)
    ensures Transpose(Reflector(v, k, n), n, n) == Reflector(v, k, n)
  {
    var h := Reflector(v, k, n);
    hide Outer;
    forall i, j | 0 <= i < n && 0 <= j < n
      ensures At(h, j, i) == At(h, i, j)
    {
      OuterEntry(v, k, n, i, j);
      OuterEntry(v, k, n, j, i);
    }
    MatExt(Transpose(h, n, n), h, n, n);
  }

  lemma {:induction false} AxisSquares(v: seq<real>, k: nat, n: nat)
    requires IsUnit(v) && k + |v| == n
    ensures Sum(n, Term(AxisT(v, k, n), Axis(v, k, n), 0, 0)) == 1.0
  {
    AxisTerms(v, k, n);
    hide Axis, AxisT, Term, Square;
    var term := Term(AxisT(v, k, n), Axis(v, k, n), 0, 0);
    SumSplit(k, |v|, term, Square(v));
    SumZero(k, term);
  }

  lemma {:induction false} AxisTerms(v: seq<real>, k: nat, n: nat)
    requires k + |v| == n
    ensures forall t :: 0 <= t < k ==> Term(AxisT(v, k, n), Axis(v, k, n), 0, 0)(t) == 0.0
    ensures forall t :: 0 <= t < |v| ==> Term(AxisT(v, k, n), Axis(v, k, n), 0, 0)(k + t) == Square(v)(t)
  {
  }

  /** `uᵀ·u = 1` for a unit vector that fills the rows from `k` on. */
  lemma {:induction false} AxisUnit(v: seq<real>, k: nat, n: nat)
    requires IsUnit(v) && k + |v| == n
    ensures Mul(AxisT(v, k, n), Axis(v, k, n), n, 1) == Identity(1)
  {
    AxisSquares(v, k, n);
    hide Axis, AxisT, IsUnit;
    MatExt(Mul(AxisT(v, k, n), Axis(v, k, n), n, 1), Identity(1), 1, 1);
  }

  /** Reflecting rows: `H·A = A − 2·u·(uᵀ·A)`. */
  lemma {:induction false} ReflectorMul(v: seq<real>, k: nat, n: nat, a: Mat, p: nat)
    requires IsMat(a, n, p)
    ensures Mul(Reflector(v, k, n), a, n, p)
         == Sub(a, Scale(Mul(Axis(v, k, n), Mul(AxisT(v, k, n), a, n, p), 1, p), n, p, 2.0), n, p)
  {
    var u, ut := Axis(v, k, n), AxisT(v, k, n);
    MulSubLeft(Identity(n), Outer(v, k, n), a, n, n, p);
    MulIdentityLeft(a, n, p);
    MulScaleLeft(Mul(u, ut, 1, n), a, n, n, p, 2.0);
    MulAssoc(u, ut, a, n, 1, n, p);
  }

  /** A reflection is its own inverse. */
  lemma {:induction false} ReflectorTwice(v: seq<real>, k: nat, n: nat)
    requires IsUnit(v) && k + |v| == n
    ensures Mul(Reflector(v, k, n), Reflector(v, k, n), n, n) == Identity(n)
  {
    var u, ut, h := Axis(v, k, n), AxisT(v, k, n), Reflector(v, k, n);
    var p := Mul(u, ut, 1, n);
    ReflectorMul(v, k, n, h, n);
    // uᵀ·H = uᵀ − 2·(uᵀ·u)·uᵀ = −uᵀ
    MulSubRight(ut, Identity(n), Outer(v, k, n), 1, n, n);
    MulIdentityRight(ut, 1, n);
    MulScaleRight(ut, p, 1, n, n, 2.0);
    MulAssoc(ut, u, ut, 1, n, 1, n);
    AxisUnit(v, k, n);
    MulIdentityLeft(ut, 1, n);
    var neg := Scale(ut, 1, n, -1.0);
    assert Mul(ut, h, n, n) == Sub(ut, Scale(ut, 1, n, 2.0), 1, n);
    MatExt(Sub(ut, Scale(ut, 1, n, 2.0), 1, n), neg, 1, n);
    MulScaleRight(u, ut, n, 1, n, -1.0);
    MatExt(Sub(h, Scale(Scale(p, n, n, -1.0), n, n, 2.0), n, n), Identity(n), n, n);
  }

  /** Multiplying by a reflection keeps a matrix orthogonal. */
  lemma {:induction false} OrthogonalStep(q: Mat, v: seq<real>, k: nat, n: nat)
    requires Orthogonal(q, n) && IsUnit(v) && k + |v| == n
    ensures Orthogonal(Mul(q, Reflector(v, k, n), n, n), n)
  {
    var h := Reflector(v, k, n);
    ReflectorTwice(v, k, n);
    ReflectorSymmetric(v, k, n);
    OrthogonalProduct(q, h, n);
  }

  lemma {:induction false} OrthogonalProduct(q: Mat, h: Mat, n: nat)
    requires Orthogonal(q, n) && Orthogonal(h, n)
    ensures Orthogonal(Mul(q, h, n, n), n)
  {
    hide Mul, Transpose, Identity;
    var qt, ht, qh := Transpose(q, n, n), Transpose(h, n, n), Mul(q, h, n, n);
    TransposeMul(q, h, n, n, n);
    // (q·h)·(hᵀ·qᵀ)
    MulAssoc(q, h, Mul(ht, qt, n, n), n, n, n, n);
    MulAssoc(h, ht, qt, n, n, n, n);
    MulIdentityLeft(qt, n, n);
    // (hᵀ·qᵀ)·(q·h)
    MulAssoc(ht, qt, qh, n, n, n, n);
    MulAssoc(qt, q, h, n, n, n, n);
    MulIdentityLeft(h, n, n);
  }

  lemma {:induction false} IdentityOrthogonal(n: nat)
    ensures Orthogonal(Identity(n), n)
  {
    MatExt(Transpose(Identity(n), n, n), Identity(n), n, n);
    MulIdentityLeft(Identity(n), n, n);
  }

  /** A reflection of `A` undone by the reflection in `Q`: the product is unchanged. */
  lemma {:induction false} ProductKept(q: Mat, a: Mat, v: seq<real>, k: nat, n: nat)
    requires IsMat(q, n, n) && IsMat(a, n, n) && IsUnit(v) && k + |v| == n
    ensures Mul(Mul(q, Reflector(v, k, n), n, n), Mul(Reflector(v, k, n), a, n, n), n, n) == Mul(q, a, n, n)
  {
    hide Mul, Reflector;
    var h := Reflector(v, k, n);
    MulAssoc(q, h, Mul(h, a, n, n), n, n, n, n);
    MulAssoc(h, h, a, n, n, n, n);
    ReflectorTwice(v, k, n);
    MulIdentityLeft(a, n, n);
  }

  /** `A·H = A − 2·(A·u)·uᵀ` */
  lemma {:induction false} MulReflector(v: seq<real>, k: nat, n: nat, a: Mat, p: nat)
    requires IsMat(a, p, n)
    ensures Mul(a, Reflector(v, k, n), n, n)
         == Sub(a, Scale(Mul(Mul(a, Axis(v, k, n), n, 1), AxisT(v, k, n), 1, n), p, n, 2.0), p, n)
  {
    var u, ut := Axis(v, k, n), AxisT(v, k, n);
    MulSubRight(a, Identity(n), Outer(v, k, n), p, n, n);
    MulIdentityRight(a, p, n);
    MulScaleRight(a, Mul(u, ut, 1, n), p, n, n, 2.0);
    MulAssoc(a, u, ut, p, n, 1, n);
  }

  // ─── the in-place rank-1 updates ───

  function RowTerm(v: seq<real>, a: Mat, k: nat, j: int): int -> real {
    t => Entry(v, t) * At(a, k + t, j)
  }

  /** `(vᵀ · A[k:, ·])[j]` */
  function RowDot(v: seq<real>, a: Mat, k: nat, j: int): real {
    Sum(|v|, RowTerm(v, a, k, j))
  }

  function ColTerm(v: seq<real>, a: Mat, k: nat, r: int): int -> real {
    t => At(a, r, k + t) * Entry(v, t)
  }

  /** `(A[·, k:] · v)[r]` */
  function ColDot(v: seq<real>, a: Mat, k: nat, r: int): real {
    Sum(|v|, ColTerm(v, a, k, r))
  }

  /** `x − 2·y·z` */
  function Updated(x: real, y: real, z: real): real {
    x - 2.0 * (y * z)
  }

  /** The block `[k:, k:]` reflected from the left; everything else untouched. */
  function BlockReflected(v: seq<real>, a: Mat, k: nat, n: nat): (m: Mat)
    ensures IsMat(m, n, n)
    ensures forall i, j :: 0 <= i < n && 0 <= j < n ==>
              At(m, i, j) == if i >= k && j >= k then Updated(At(a, i, j), Entry(v, i - k), RowDot(v, a, k, j))
                             else At(a, i, j)
  {
    Build(n, n, (i, j) => if i >= k && j >= k then Updated(At(a, i, j), Entry(v, i - k), RowDot(v, a, k, j))
                          else At(a, i, j))
  }

  /** The columns from `k` on reflected from the right. */
  function ColumnsReflected(v: seq<real>, q: Mat, k: nat, n: nat): (m: Mat)
    ensures IsMat(m, n, n)
    ensures forall r, c :: 0 <= r < n && 0 <= c < n ==>
              At(m, r, c) == if c >= k then Updated(At(q, r, c), ColDot(v, q, k, r), Entry(v, c - k)) else At(q, r, c)
  {
    Build(n, n, (r, c) => if c >= k then Updated(At(q, r, c), ColDot(v, q, k, r), Entry(v, c - k)) else At(q, r, c))
  }

  lemma {:induction false} SingleColumn(u: Mat, w: Mat, i: int, j: int)
    ensures Dot(u, w, 1, i, j) == At(u, i, 0) * At(w, 0, j)
  {
    assert Sum(1, Term(u, w, i, j)) == Sum(0, Term(u, w, i, j)) + Term(u, w, i, j)(0);
  }

  lemma {:induction false} AxisTDot(v: seq<real>, a: Mat, k: nat, n: nat, j: int)
    requires k + |v| == n
    ensures Dot(AxisT(v, k, n), a, n, 0, j) == RowDot(v, a, k, j)
  {
    var term := Term(AxisT(v, k, n), a, 0, j);
    SumSplit(k, |v|, term, RowTerm(v, a, k, j));
    SumZero(k, term);
  }

  lemma {:induction false} DotAxis(v: seq<real>, a: Mat, k: nat, n: nat, r: int)
    requires k + |v| == n
    ensures Dot(a, Axis(v, k, n), n, r, 0) == ColDot(v, a, k, r)
  {
    var term := Term(a, Axis(v, k, n), r, 0);
    SumSplit(k, |v|, term, ColTerm(v, a, k, r));
    SumZero(k, term);
  }

  /** `A` is zero below the diagonal in its first `k` columns. */
  ghost predicate TriangularTo(a: Mat, k: nat, n: nat) {
    forall i, j {:trigger At(a, i, j)} | 0 <= j < i < n && j < k :: At(a, i, j) == 0.0
  }

  /** Updating the block alone is the full reflection once the columns to its left are zero. */
  lemma {:induction false} BlockIsReflection(v: seq<real>, a: Mat, k: nat, n: nat)
    requires IsMat(a, n, n) && k + |v| == n && TriangularTo(a, k, n)
    ensures BlockReflected(v, a, k, n) == Mul(Reflector(v, k, n), a, n, n)
  {
    ReflectorMul(v, k, n, a, n);
    var u, uta := Axis(v, k, n), Mul(AxisT(v, k, n), a, n, n);
    var full := Sub(a, Scale(Mul(u, uta, 1, n), n, n, 2.0), n, n);
    hide *;
    forall i, j | 0 <= i < n && 0 <= j < n
      ensures At(full, i, j) == At(BlockReflected(v, a, k, n), i, j)
    {
      OuterUpdate(a, u, uta, n, i, j);
      AxisTDot(v, a, k, n, j);
      if i < k || j < k {
        PadOutside(v, k, i);
        if i >= k {
          ZeroColumn(v, a, k, n, j);
        }
        NotUpdated(At(a, i, j), Entry(v, i - k), RowDot(v, a, k, j));
      }
    }
    MatExt(full, BlockReflected(v, a, k, n), n, n);
  }

  lemma {:induction false} OuterUpdate(a: Mat, u: Mat, w: Mat, n: nat, i: int, j: int)
    requires |u| == n && 0 <= i < n && 0 <= j < n
    ensures At(Sub(a, Scale(Mul(u, w, 1, n), n, n, 2.0), n, n), i, j)
         == Updated(At(a, i, j), At(u, i, 0), At(w, 0, j))
  {
    SingleColumn(u, w, i, j);
  }

  lemma {:induction false} PadOutside(v: seq<real>, k: nat, i: int)
    ensures i < k ==> Entry(v, i - k) == 0.0
  {
  }

  lemma {:induction false} NotUpdated(x: real, y: real, z: real)
    requires y == 0.0 || z == 0.0
    ensures Updated(x, y, z) == x
  {
  }

  lemma {:induction false} ZeroColumn(v: seq<real>, a: Mat, k: nat, n: nat, j: int)
    requires k + |v| == n && TriangularTo(a, k, n) && 0 <= j < k
    ensures RowDot(v, a, k, j) == 0.0
  {
    SumZero(|v|, RowTerm(v, a, k, j));
  }

  lemma {:induction false} ColumnsAreReflection(v: seq<real>, q: Mat, k: nat, n: nat)
    requires IsMat(q, n, n) && k + |v| == n
    ensures ColumnsReflected(v, q, k, n) == Mul(q, Reflector(v, k, n), n, n)
  {
    MulReflector(v, k, n, q, n);
    var ut, qu := AxisT(v, k, n), Mul(q, Axis(v, k, n), n, 1);
    var full := Sub(q, Scale(Mul(qu, ut, 1, n), n, n, 2.0), n, n);
    hide *;
    forall r, c | 0 <= r < n && 0 <= c < n
      ensures At(full, r, c) == At(ColumnsReflected(v, q, k, n), r, c)
    {
      OuterUpdate(q, qu, ut, n, r, c);
      DotAxis(v, q, k, n, r);
      if c < k {
        PadOutside(v, k, c);
        NotUpdated(At(q, r, c), ColDot(v, q, k, r), Entry(v, c - k));
      }
    }
    MatExt(full, ColumnsReflected(v, q, k, n), n, n);
  }

  /** `dotBuf[j] += v[i]·A[k+i, k+j]` across one row. */
  method AddRow(a: array2<real>, k: nat, v: seq<real>, dotBuf: array<real>, i: nat)
    requires a.Length0 == a.Length1 == k + |v| && |v| <= dotBuf.Length && i < |v|
    modifies dotBuf
    ensures forall j | 0 <= j < |v| :: dotBuf[j] == old(dotBuf[j]) + RowTerm(v, MatOf(a), k, k + j)(i)
  {
    for j := 0 to |v|
      invariant forall j' {:trigger dotBuf[j']} | 0 <= j' < |v| ::
                  dotBuf[j'] == if j' < j then old(dotBuf[j']) + RowTerm(v, MatOf(a), k, k + j')(i) else old(dotBuf[j'])
    {
      dotBuf[j] := dotBuf[j] + v[i] * a[k + i, k + j];
    }
  }

  /** First pass: `dotBuf[j] = (vᵀ·A[k:, k:])[j]`, row by row over a reused scratch. */
  method AccumulateRowDots(a: array2<real>, k: nat, v: seq<real>, dotBuf: array<real>)
    requires a.Length0 == a.Length1 == k + |v| && |v| <= dotBuf.Length
    modifies dotBuf
    ensures forall j | 0 <= j < |v| :: dotBuf[j] == RowDot(v, MatOf(a), k, k + j)
  {
    hide RowTerm;
    for j := 0 to |v|
      invariant forall j' | 0 <= j' < j :: dotBuf[j'] == 0.0
    {
      dotBuf[j] := 0.0;
    }
    for i := 0 to |v|
      invariant forall j | 0 <= j < |v| :: dotBuf[j] == Sum(i, RowTerm(v, MatOf(a), k, k + j))
    {
      AddRow(a, k, v, dotBuf, i);
    }
  }

  /** `A[k+i, k+j] -= coef·dotBuf[j]` across one row. */
  method SubtractRow(a: array2<real>, k: nat, m: nat, dotBuf: array<real>, i: nat, coef: real)
    requires a.Length0 == a.Length1 == k + m && m <= dotBuf.Length && i < m
    modifies a
    ensures forall r, c {:trigger a[r, c]} | 0 <= r < a.Length0 && 0 <= c < a.Length1 ::
              a[r, c] == if r == k + i && k <= c then old(a[r, c]) - coef * dotBuf[c - k] else old(a[r, c])
  {
    for j := 0 to m
      invariant forall r, c {:trigger a[r, c]} | 0 <= r < a.Length0 && 0 <= c < a.Length1 ::
                  a[r, c] == if r == k + i && k <= c < k + j then old(a[r, c]) - coef * dotBuf[c - k] else old(a[r, c])
    {
      a[k + i, k + j] := a[k + i, k + j] - coef * dotBuf[j];
    }
  }

  /** The first `i` rows from `k` on have their new value, the others still the old one. */
  ghost predicate RowsDone(a: array2<real>, was: Mat, now: Mat, k: nat, i: nat)
    reads a
  {
    && a.Length0 == a.Length1
    && forall r, c {:trigger a[r, c]} | 0 <= r < a.Length0 && 0 <= c < a.Length0 ::
         a[r, c] == if k <= r < k + i then At(now, r, c) else At(was, r, c)
  }

  /** The scratch holds the product of `v` with every column from `k` on. */
  ghost predicate RowDotsAre(dotBuf: array<real>, v: seq<real>, was: Mat, k: nat)
    reads dotBuf
  {
    |v| <= dotBuf.Length && forall j | 0 <= j < |v| :: dotBuf[j] == RowDot(v, was, k, k + j)
  }

  /** One row of the second pass, or none of it when its coefficient is zero. */
  method ReflectRow(a: array2<real>, k: nat, v: seq<real>, dotBuf: array<real>, i: nat, ghost was: Mat)
    requires a.Length0 == a.Length1 == k + |v| && i < |v|
    requires RowDotsAre(dotBuf, v, was, k)
    requires RowsDone(a, was, BlockReflected(v, was, k, k + |v|), k, i)
    modifies a
    ensures RowsDone(a, was, BlockReflected(v, was, k, k + |v|), k, i + 1)
  {
    var coef := 2.0 * v[i];
    RowStep(v, was, k, k + |v|, i);
    hide BlockReflected, RowDot, At;
    if coef == 0.0 {
      return;
    }
    SubtractRow(a, k, |v|, dotBuf, i, coef);
  }

  /** `A[k:, k:] -= 2·v·(vᵀ·A[k:, k:])`, in two row-major passes. */
  method Rank1UpdateRows(a: array2<real>, k: nat, v: seq<real>, dotBuf: array<real>)
    requires a.Length0 == a.Length1 == k + |v| && |v| <= dotBuf.Length
    modifies a, dotBuf
    ensures MatOf(a) == BlockReflected(v, old(MatOf(a)), k, a.Length0)
  {
    ghost var was := MatOf(a);
    ghost var now := BlockReflected(v, was, k, a.Length0);
    AccumulateRowDots(a, k, v, dotBuf);
    assert RowDotsAre(dotBuf, v, was, k);
    assert RowsDone(a, was, now, k, 0);
    hide *;
    for i := 0 to |v|
      invariant RowDotsAre(dotBuf, v, was, k)
      invariant RowsDone(a, was, now, k, i)
    {
      ReflectRow(a, k, v, dotBuf, i, was);
    }
    AllRowsDone(a, v, was, k);
  }

  lemma {:induction false} AllRowsDone(a: array2<real>, v: seq<real>, was: Mat, k: nat)
    requires a.Length0 == a.Length1 == k + |v|
    requires RowsDone(a, was, BlockReflected(v, was, k, k + |v|), k, |v|)
    ensures MatOf(a) == BlockReflected(v, was, k, k + |v|)
  {
    var n := k + |v|;
    hide RowDot, Updated, Entry;
    MatExt(MatOf(a), BlockReflected(v, was, k, n), n, n);
  }

  lemma {:induction false} RowStep(v: seq<real>, a: Mat, k: nat, n: nat, i: nat)
    requires i < |v| && k + |v| == n
    ensures forall c {:trigger At(a, k + i, c)} | 0 <= c < n ::
              At(BlockReflected(v, a, k, n), k + i, c) == if k <= c then At(a, k + i, c) - (2.0 * v[i]) * RowDot(v, a,
                      k, c) else At(a, k + i, c)
  {
    hide RowDot, BlockReflected;
  }

  lemma {:induction false} ColStep(v: seq<real>, q: Mat, k: nat, n: nat, r: nat)
    requires r < n
    ensures forall c {:trigger At(q, r, c)} | 0 <= c < n ::
              At(ColumnsReflected(v, q, k, n), r, c) == if k <= c then At(q, r,
                      c) - (2.0 * ColDot(v, q, k, r)) * Entry(v, c - k) else At(q, r, c)
  {
    hide ColDot, Entry, ColumnsReflected;
  }

  /** First pass: `dotBuf[r] = (Q[:, k:]·v)[r]`. */
  method AccumulateColDots(q: array2<real>, k: nat, v: seq<real>, dotBuf: array<real>)
    requires q.Length0 == q.Length1 == k + |v| && q.Length0 <= dotBuf.Length
    modifies dotBuf
    ensures forall r | 0 <= r < q.Length0 :: dotBuf[r] == ColDot(v, MatOf(q), k, r)
  {
    ghost var was := MatOf(q);
    for r := 0 to q.Length0
      invariant forall r' | 0 <= r' < r :: dotBuf[r'] == ColDot(v, was, k, r')
    {
      var acc := 0.0;
      for t := 0 to |v|
        invariant acc == Sum(t, ColTerm(v, was, k, r))
      {
        assert q[r, k + t] == At(was, r, k + t);
        acc := acc + q[r, k + t] * v[t];
      }
      dotBuf[r] := acc;
    }
  }

  /** `Q[r, k+c] -= coef·v[c]` across one row. */
  method SubtractMultiple(q: array2<real>, r: nat, k: nat, v: seq<real>, coef: real)
    requires q.Length1 == k + |v| && r < q.Length0
    modifies q
    ensures forall i, j {:trigger q[i, j]} | 0 <= i < q.Length0 && 0 <= j < q.Length1 ::
              q[i, j] == if i == r && k <= j then old(q[i, j]) - coef * Entry(v, j - k) else old(q[i, j])
  {
    for c := 0 to |v|
      invariant forall i, j {:trigger q[i, j]} | 0 <= i < q.Length0 && 0 <= j < q.Length1 ::
                  q[i, j] == if i == r && k <= j < k + c then old(q[i, j]) - coef * Entry(v, j - k) else old(q[i, j])
    {
      q[r, k + c] := q[r, k + c] - coef * v[c];
    }
  }

  /** The scratch holds the product of every row, from `k` on, with `v`. */
  ghost predicate ColDotsAre(dotBuf: array<real>, v: seq<real>, was: Mat, k: nat, n: nat)
    reads dotBuf
  {
    n <= dotBuf.Length && forall r | 0 <= r < n :: dotBuf[r] == ColDot(v, was, k, r)
  }

  /** One row of the second pass, or none of it when its coefficient is zero. */
  method ReflectRowTail(q: array2<real>, k: nat, v: seq<real>, dotBuf: array<real>, r: nat, ghost was: Mat)
    requires q.Length0 == q.Length1 == k + |v| && r < q.Length0
    requires ColDotsAre(dotBuf, v, was, k, q.Length0)
    requires RowsDone(q, was, ColumnsReflected(v, was, k, k + |v|), 0, r)
    modifies q
    ensures RowsDone(q, was, ColumnsReflected(v, was, k, k + |v|), 0, r + 1)
  {
    var coef := 2.0 * dotBuf[r];
    ColStep(v, was, k, k + |v|, r);
    hide ColumnsReflected, ColDot, At, Entry;
    if coef == 0.0 {
      return;
    }
    SubtractMultiple(q, r, k, v, coef);
  }

  /** `Q[:, k:] -= 2·(Q[:, k:]·v)·vᵀ`, in two row-major passes. */
  method Rank1UpdateCols(q: array2<real>, k: nat, v: seq<real>, dotBuf: array<real>)
    requires q.Length0 == q.Length1 == k + |v| && q.Length0 <= dotBuf.Length
    modifies q, dotBuf
    ensures MatOf(q) == ColumnsReflected(v, old(MatOf(q)), k, q.Length0)
  {
    ghost var was := MatOf(q);
    ghost var now := ColumnsReflected(v, was, k, q.Length0);
    AccumulateColDots(q, k, v, dotBuf);
    assert ColDotsAre(dotBuf, v, was, k, q.Length0);
    assert RowsDone(q, was, now, 0, 0);
    hide *;
    for r := 0 to q.Length0
      invariant ColDotsAre(dotBuf, v, was, k, q.Length0)
      invariant RowsDone(q, was, now, 0, r)
    {
      ReflectRowTail(q, k, v, dotBuf, r, was);
    }
    AllTailsDone(q, v, was, k);
  }

  lemma {:induction false} AllTailsDone(q: array2<real>, v: seq<real>, was: Mat, k: nat)
    requires q.Length0 == q.Length1 == k + |v|
    requires RowsDone(q, was, ColumnsReflected(v, was, k, k + |v|), 0, k + |v|)
    ensures MatOf(q) == ColumnsReflected(v, was, k, k + |v|)
  {
    var n := k + |v|;
    hide ColDot, Updated, Entry;
    MatExt(MatOf(q), ColumnsReflected(v, was, k, n), n, n);
  }

  // ─── one Householder step ───

  /** The real square root, by its defining property. */
  ghost predicate IsSqrt(sqrt: real -> real) {
    forall x {:trigger sqrt(x)} :: x >= 0.0 ==> sqrt(x) >= 0.0 && sqrt(x) * sqrt(x) == x
  }

  function Tail(a: Mat, k: int): int -> real {
    t => At(a, k + t, k) * At(a, k + t, k)
  }

  /** `Σ_{i≥k} a[i, k]²` */
  function TailNormSq(a: Mat, k: nat, n: nat): real {
    Sum(if k <= n then n - k else 0, Tail(a, k))
  }

  /** `v` is the normalised Householder vector of column `k`, for pivot `v0` and norm `norm`. */
  ghost predicate IsHouseholder(v: seq<real>, a: Mat, k: nat, n: nat, v0: real, norm: real) {
    && k + |v| == n && |v| > 0 && norm > 0.0
    && v[0] * norm == v0
    && forall t {:trigger v[t]} | 0 < t < |v| :: v[t] * norm == At(a, k + t, k)
  }

  function Below(a: Mat, k: int): int -> real {
    t => At(a, k + 1 + t, k) * At(a, k + 1 + t, k)
  }

  /** With `v0 = a_kk + sign·σ`, the vector has norm 1 and its product with column `k` is half its norm. */
  lemma {:induction false} HouseholderSums(v: seq<real>, a: Mat, k: nat, n: nat, v0: real, norm: real, sigma: real)
    requires IsHouseholder(v, a, k, n, v0, norm)
    requires sigma * sigma == TailNormSq(a, k, n)
    requires v0 == At(a, k, k) + sigma || v0 == At(a, k, k) - sigma
    requires norm * norm == v0 * v0 + Sum(n - k - 1, Below(a, k))
    ensures IsUnit(v)
    ensures 2.0 * RowDot(v, a, k, k) == norm
  {
    var s := Sum(n - k - 1, Below(a, k));
    hide *;
    HouseholderUnit(v, a, k, n, v0, norm, s);
    HalfDot(v, a, k, n, v0, norm, sigma);
  }

  lemma {:induction false} TailHead(a: Mat, k: nat, n: nat)
    requires k < n
    ensures TailNormSq(a, k, n) == At(a, k, k) * At(a, k, k) + Sum(n - k - 1, Below(a, k))
  {
    SumHead(n - k, Tail(a, k), Below(a, k));
  }

  lemma {:induction false} HalfDot(v: seq<real>, a: Mat, k: nat, n: nat, v0: real, norm: real, sigma: real)
    requires IsHouseholder(v, a, k, n, v0, norm)
    requires sigma * sigma == TailNormSq(a, k, n)
    requires v0 == At(a, k, k) + sigma || v0 == At(a, k, k) - sigma
    requires norm * norm == v0 * v0 + Sum(n - k - 1, Below(a, k))
    ensures 2.0 * RowDot(v, a, k, k) == norm
  {
    var s := Sum(n - k - 1, Below(a, k));
    assert k < n && norm > 0.0;
    hide *;
    TailHead(a, k, n);
    HouseholderDot(v, a, k, n, v0, norm, s);
    PivotArithmetic(norm, RowDot(v, a, k, k), v0, At(a, k, k), s, sigma);
  }

  lemma {:induction false} PivotArithmetic(norm: real, d: real, v0: real, x: real, s: real, sigma: real)
    requires norm > 0.0 && norm * norm == v0 * v0 + s && norm * d == v0 * x + s
    requires sigma * sigma == x * x + s && (v0 == x + sigma || v0 == x - sigma)
    ensures 2.0 * d == norm
  {
    assert (x + sigma) * (x + sigma) == x * x + 2.0 * (x * sigma) + sigma * sigma;
    assert (x - sigma) * (x - sigma) == x * x - 2.0 * (x * sigma) + sigma * sigma;
    assert norm * (2.0 * d) == 2.0 * (norm * d);
    assert norm * (2.0 * d) == norm * norm;
    CancelLeft(norm, 2.0 * d, norm);
  }

  lemma {:induction false} CancelLeft(x: real, y: real, z: real)
    requires x != 0.0 && x * y == x * z
    ensures y == z
  {
    assert x * (y - z) == 0.0;
  }

  lemma {:induction false} HouseholderUnit(v: seq<real>, a: Mat, k: nat, n: nat, v0: real, norm: real, s: real)
    requires IsHouseholder(v, a, k, n, v0, norm) && norm * norm == v0 * v0 + s
    requires s == Sum(n - k - 1, Below(a, k))
    ensures IsUnit(v)
  {
    hide *;
    var sq := (t: int) => Square(v)(1 + t);
    UnitSplit(v, a, k, n, v0, norm, sq);
    UnitTail(v, a, k, n, v0, norm, sq);
    UnitHead(v, a, k, n, v0, norm);
    SquarePositive(norm, norm * norm);
    UnitArithmetic(norm * norm, Square(v)(0), Sum(|v| - 1, sq), v0 * v0, s);
  }

  lemma {:induction false} UnitSplit(v: seq<real>, a: Mat, k: nat, n: nat, v0: real, norm: real, sq: int -> real)
    requires IsHouseholder(v, a, k, n, v0, norm)
    requires forall t {:trigger sq(t)} :: sq(t) == Square(v)(1 + t)
    ensures |v| > 0 && norm > 0.0
    ensures IsUnit(v) <==> Square(v)(0) + Sum(|v| - 1, sq) == 1.0
  {
    hide Square;
    SumHead(|v|, Square(v), sq);
  }

  lemma {:induction false} UnitTail(v: seq<real>, a: Mat, k: nat, n: nat, v0: real, norm: real, sq: int -> real)
    requires IsHouseholder(v, a, k, n, v0, norm)
    requires forall t {:trigger sq(t)} :: sq(t) == Square(v)(1 + t)
    ensures Sum(n - k - 1, Below(a, k)) == (norm * norm) * Sum(|v| - 1, sq)
  {
    hide Below, Square;
    forall t | 0 <= t < |v| - 1
      ensures Below(a, k)(t) == (norm * norm) * sq(t)
    {
      UnitTerm(v, a, k, n, v0, norm, t);
    }
    SumScale(|v| - 1, norm * norm, sq, Below(a, k));
  }

  lemma {:induction false} UnitTerm(v: seq<real>, a: Mat, k: nat, n: nat, v0: real, norm: real, t: int)
    requires IsHouseholder(v, a, k, n, v0, norm) && 0 <= t < |v| - 1
    ensures Below(a, k)(t) == (norm * norm) * Square(v)(1 + t)
  {
    assert v[1 + t] * norm == At(a, k + 1 + t, k);
    SquareProduct(v[1 + t], norm);
  }

  lemma {:induction false} UnitHead(v: seq<real>, a: Mat, k: nat, n: nat, v0: real, norm: real)
    requires IsHouseholder(v, a, k, n, v0, norm)
    ensures v0 * v0 == (norm * norm) * Square(v)(0)
  {
    SquareProduct(v[0], norm);
  }

  lemma {:induction false} SquarePositive(x: real, y: real)
    requires x != 0.0 && y == x * x
    ensures y > 0.0
  {
    if x > 0.0 {
      PositiveProduct(x, x, y);
    } else {
      PositiveProduct(-x, -x, y);
    }
  }

  lemma {:induction false} PositiveProduct(x: real, z: real, y: real)
    requires x > 0.0 && z > 0.0 && y == x * z
    ensures y > 0.0
  {
  }

  lemma {:induction false} UnitArithmetic(gain: real, p: real, r: real, w: real, s: real)
    requires gain > 0.0 && gain == w + s && w == gain * p && s == gain * r
    ensures p + r == 1.0
  {
    assert gain * (p + r) == gain * p + gain * r;
    CancelLeft(gain, p + r, 1.0);
  }

  lemma {:induction false} SquareProduct(x: real, y: real)
    ensures (x * y) * (x * y) == (y * y) * (x * x)
  {
  }

  lemma {:induction false} HouseholderDot(v: seq<real>, a: Mat, k: nat, n: nat, v0: real, norm: real, s: real)
    requires IsHouseholder(v, a, k, n, v0, norm)
    requires s == Sum(n - k - 1, Below(a, k))
    ensures norm * RowDot(v, a, k, k) == v0 * At(a, k, k) + s
  {
    hide *;
    var upper := (t: int) => RowTerm(v, a, k, k)(1 + t);
    var p, r, d, w := RowTerm(v, a, k, k)(0), Sum(if |v| > 0 then |v| - 1 else 0, upper), RowDot(v, a, k, k),
        v0 * At(a, k, k);
    RowDotSplit(v, a, k, n, v0, norm, upper);
    FirstTerm(v, a, k, n, v0, norm);
    DotTail(v, a, k, n, v0, norm, upper);
    Distribute(norm, p, r, d, w, s);
  }

  lemma {:induction false} RowDotSplit(v: seq<real>, a: Mat, k: nat, n: nat, v0: real, norm: real, upper: int -> real)
    requires IsHouseholder(v, a, k, n, v0, norm)
    requires forall t {:trigger upper(t)} :: upper(t) == RowTerm(v, a, k, k)(1 + t)
    ensures |v| > 0
    ensures RowDot(v, a, k, k) == RowTerm(v, a, k, k)(0) + Sum(|v| - 1, upper)
  {
    hide RowTerm;
    SumHead(|v|, RowTerm(v, a, k, k), upper);
  }

  lemma {:induction false} DotTail(v: seq<real>, a: Mat, k: nat, n: nat, v0: real, norm: real, upper: int -> real)
    requires IsHouseholder(v, a, k, n, v0, norm)
    requires forall t {:trigger upper(t)} :: upper(t) == RowTerm(v, a, k, k)(1 + t)
    ensures Sum(n - k - 1, Below(a, k)) == norm * Sum(|v| - 1, upper)
  {
    hide Below, RowTerm;
    forall t | 0 <= t < |v| - 1
      ensures Below(a, k)(t) == norm * upper(t)
    {
      BelowTerm(v, a, k, n, v0, norm, t);
    }
    SumScale(|v| - 1, norm, upper, Below(a, k));
  }

  lemma {:induction false} Distribute(x: real, p: real, r: real, d: real, w: real, s: real)
    requires d == p + r && x * p == w && x * r == s
    ensures x * d == w + s
  {
  }

  lemma {:induction false} BelowTerm(v: seq<real>, a: Mat, k: nat, n: nat, v0: real, norm: real, t: int)
    requires IsHouseholder(v, a, k, n, v0, norm) && 0 <= t < |v| - 1
    ensures Below(a, k)(t) == norm * RowTerm(v, a, k, k)(1 + t)
  {
    assert v[1 + t] * norm == At(a, k + 1 + t, k);
    Regroup(v[1 + t], norm, At(a, k + 1 + t, k));
  }

  lemma {:induction false} FirstTerm(v: seq<real>, a: Mat, k: nat, n: nat, v0: real, norm: real)
    requires IsHouseholder(v, a, k, n, v0, norm)
    ensures norm * RowTerm(v, a, k, k)(0) == v0 * At(a, k, k)
  {
    Regroup(v[0], norm, At(a, k, k));
  }

  lemma {:induction false} Regroup(x: real, y: real, z: real)
    ensures (x * y) * z == y * (x * z)
  {
  }

  /** The step clears column `k` below the diagonal and keeps the columns before it. */
  lemma {:induction false} StepTriangular(v: seq<real>, a: Mat, k: nat, n: nat, v0: real, norm: real)
    requires IsMat(a, n, n) && IsHouseholder(v, a, k, n, v0, norm) && TriangularTo(a, k, n)
    requires 2.0 * RowDot(v, a, k, k) == norm
    ensures TriangularTo(BlockReflected(v, a, k, n), k + 1, n)
  {
    var b := BlockReflected(v, a, k, n);
    hide RowDot, Updated, BlockReflected;
    forall i, j | 0 <= j < i < n && j < k + 1
      ensures At(b, i, j) == 0.0
    {
      if j < k {
        assert At(b, i, j) == At(a, i, j);
      } else {
        assert v[i - k] * norm == At(a, i, k);
        assert At(b, i, k) == Updated(At(a, i, k), v[i - k], RowDot(v, a, k, k));
        Cancelled(At(a, i, k), v[i - k], RowDot(v, a, k, k), norm);
      }
    }
  }

  lemma {:induction false} Cancelled(x: real, y: real, dot: real, norm: real)
    requires y * norm == x && 2.0 * dot == norm
    ensures Updated(x, y, dot) == 0.0
  {
  }

  lemma {:induction false} SquareZero(x: real, y: real)
    requires y == x * x && y <= 0.0
    ensures x == 0.0
  {
    if x != 0.0 {
      SquarePositive(x, y);
    }
  }

  /** A norm is at least the size of any component. */
  lemma {:induction false} NormFloor(norm: real, v0: real, s: real, c: real)
    requires norm >= 0.0 && s >= 0.0 && c > 0.0 && norm * norm == v0 * v0 + s
    requires v0 >= c || v0 <= -c
    ensures norm >= c
  {
    var w := if v0 >= c then v0 else -v0;
    assert w * w == v0 * v0;
    if norm < w {
      SmallerSquare(norm, w);
    }
  }

  lemma {:induction false} SmallerSquare(x: real, y: real)
    requires 0.0 <= x < y
    ensures x * x < y * y
  {
    assert y * y - x * x == (y - x) * (y + x);
    PositiveProduct(y - x, y + x, y * y - x * x);
  }

  // ─── the final sign correction ───

  function SignOf(x: real): real {
    if x < 0.0 then -1.0 else 1.0
  }

  function Signs(a: Mat, n: nat): (s: Mat)
    ensures IsMat(s, n, n)
    ensures forall i, j :: 0 <= i < n && 0 <= j < n ==> At(s, i, j) == if i == j then SignOf(At(a, i, i)) else 0.0
  {
    Build(n, n, (i, j) => if i == j then SignOf(At(a, i, i)) else 0.0)
  }

  lemma {:induction false} MulSigns(q: Mat, a: Mat, n: nat)
    requires IsMat(q, n, n)
    ensures forall r, c {:trigger At(Mul(q, Signs(a, n), n, n), r, c)} | 0 <= r < n && 0 <= c < n ::
              At(Mul(q, Signs(a, n), n, n), r, c) == At(q, r, c) * SignOf(At(a, c, c))
    ensures forall i, j {:trigger At(Mul(Signs(a, n), q, n, n), i, j)} | 0 <= i < n && 0 <= j < n ::
              At(Mul(Signs(a, n), q, n, n), i, j) == SignOf(At(a, i, i)) * At(q, i, j)
  {
    forall r, c | 0 <= r < n && 0 <= c < n
      ensures Dot(q, Signs(a, n), n, r, c) == At(q, r, c) * SignOf(At(a, c, c))
      ensures Dot(Signs(a, n), q, n, r, c) == SignOf(At(a, r, r)) * At(q, r, c)
    {
      SumOnly(n, c, Term(q, Signs(a, n), r, c));
      SumOnly(n, r, Term(Signs(a, n), q, r, c));
    }
  }

  lemma {:induction false} SignsOrthogonal(a: Mat, n: nat)
    ensures Orthogonal(Signs(a, n), n)
    ensures Mul(Signs(a, n), Signs(a, n), n, n) == Identity(n)
  {
    var s := Signs(a, n);
    MatExt(Transpose(s, n, n), s, n, n);
    MulSigns(s, a, n);
    MatExt(Mul(s, s, n, n), Identity(n), n, n);
  }

  ghost predicate UpperTriangular(r: Mat, n: nat) {
    && IsMat(r, n, n)
    && (forall i, j {:trigger At(r, i, j)} | 0 <= j < i < n :: At(r, i, j) == 0.0)
    && (forall i {:trigger At(r, i, i)} | 0 <= i < n :: At(r, i, i) >= 0.0)
  }

  /** Signs moved from the triangular factor to the orthogonal one. */
  lemma {:induction false} SignCorrected(q: Mat, a: Mat, n: nat)
    requires Orthogonal(q, n) && IsMat(a, n, n)
    ensures Orthogonal(Mul(q, Signs(a, n), n, n), n)
    ensures Mul(Mul(q, Signs(a, n), n, n), Mul(Signs(a, n), a, n, n), n, n) == Mul(q, a, n, n)
    ensures TriangularTo(a, n, n) ==> UpperTriangular(Mul(Signs(a, n), a, n, n), n)
  {
    var s := Signs(a, n);
    SignsOrthogonal(a, n);
    OrthogonalProduct(q, s, n);
    MulAssoc(q, s, Mul(s, a, n, n), n, n, n, n);
    MulAssoc(s, s, a, n, n, n, n);
    MulIdentityLeft(a, n, n);
    MulSigns(a, a, n);
    if TriangularTo(a, n, n) {
      var r := Mul(s, a, n, n);
      forall i, j | 0 <= j < i < n
        ensures At(r, i, j) == 0.0
      {
        assert At(r, i, j) == SignOf(At(a, i, i)) * At(a, i, j);
      }
      forall i | 0 <= i < n
        ensures At(r, i, i) >= 0.0
      {
        assert At(r, i, i) == SignOf(At(a, i, i)) * At(a, i, i);
      }
    }
  }

  method NegateColumn(q: array2<real>, c: nat)
    requires c < q.Length1
    modifies q
    ensures forall r, j {:trigger q[r, j]} | 0 <= r < q.Length0 && 0 <= j < q.Length1 ::
              q[r, j] == if j == c then -old(q[r, j]) else old(q[r, j])
  {
    for r := 0 to q.Length0
      invariant forall i, j {:trigger q[i, j]} | 0 <= i < q.Length0 && 0 <= j < q.Length1 ::
                  q[i, j] == if j == c && i < r then -old(q[i, j]) else old(q[i, j])
    {
      q[r, c] := -q[r, c];
    }
  }

  method CorrectSigns(a: array2<real>, q: array2<real>)
    requires a != q && a.Length0 == a.Length1 == q.Length0 == q.Length1
    modifies q
    ensures MatOf(q) == Mul(old(MatOf(q)), Signs(MatOf(a), a.Length0), a.Length0, a.Length0)
  {
    var n := a.Length0;
    ghost var was := MatOf(q);
    for i := 0 to n
      invariant forall r, c {:trigger q[r, c]} | 0 <= r < n && 0 <= c < n ::
                  q[r, c] == if c < i then At(was, r, c) * SignOf(a[c, c]) else At(was, r, c)
    {
      if a[i, i] < 0.0 {
        NegateColumn(q, i);
      }
    }
    MulSigns(was, MatOf(a), n);
    MatExt(MatOf(q), Mul(was, Signs(MatOf(a), n), n, n), n, n);
  }

  // ─── the sampler ───

  const SIGMA_FLOOR: real := 1e-30

  method ColumnNormSq(a: array2<real>, k: nat) returns (s: real)
    requires a.Length0 == a.Length1 && k < a.Length0
    ensures s == TailNormSq(MatOf(a), k, a.Length0)
  {
    var n := a.Length0;
    s := 0.0;
    for i := k to n
      invariant s == Sum(i - k, Tail(MatOf(a), k))
    {
      var x := a[i, k];
      s := s + x * x;
    }
  }

  /** `a_kk − α` with `α = −sign(a_kk)·σ`. */
  function Pivot(akk: real, sigma: real): (v0: real)
    ensures v0 == akk + sigma || v0 == akk - sigma
    ensures akk >= 0.0 ==> v0 == akk + sigma
    ensures akk < 0.0 ==> v0 == akk - sigma
  {
    var sign := if akk >= 0.0 then 1.0 else -1.0;
    var alpha := -sign * sigma;
    akk - alpha
  }

  /** The normalised Householder vector of column `k`. */
  function Householder(a: Mat, k: nat, n: nat, v0: real, norm: real): (v: seq<real>)
    requires k < n && norm > 0.0
    ensures IsHouseholder(v, a, k, n, v0, norm)
  {
    seq(n - k, t => if t == 0 then v0 / norm else At(a, k + t, k) / norm)
  }

  method HouseholderVector(a: array2<real>, k: nat, v0: real, norm: real) returns (v: seq<real>)
    requires a.Length0 == a.Length1 && k < a.Length0 && norm > 0.0
    ensures v == Householder(MatOf(a), k, a.Length0, v0, norm)
  {
    v := [v0 / norm];
    for i := k + 1 to a.Length0
      invariant |v| == i - k && v[0] == v0 / norm
      invariant forall t {:trigger v[t]} | 0 < t < |v| :: v[t] == At(MatOf(a), k + t, k) / norm
    {
      v := v + [a[i, k] / norm];
    }
  }

  // ─── the run on values ───

  /** The orthogonal accumulator and the matrix being reduced. */
  datatype Factors = Factors(q: Mat, a: Mat)

  /** The first threshold: column `k` is all but zero from the diagonal down. */
  predicate Skips(a: Mat, k: nat, n: nat, sqrt: real -> real) {
    sqrt(TailNormSq(a, k, n)) < SIGMA_FLOOR
  }

  function PivotAt(a: Mat, k: nat, n: nat, sqrt: real -> real): real {
    Pivot(At(a, k, k), sqrt(TailNormSq(a, k, n)))
  }

  /** `v0² + Σ_{i>k} a[i, k]²` */
  function PivotedSq(a: Mat, k: nat, n: nat, v0: real): real {
    v0 * v0 + Sum(if k < n then n - k - 1 else 0, Below(a, k))
  }

  /** One turn of the loop: skipped at either threshold, or a reflection of both matrices. */
  function Turn(s: Factors, k: nat, n: nat, sqrt: real -> real): Factors {
    var v0 := PivotAt(s.a, k, n, sqrt);
    var norm := sqrt(PivotedSq(s.a, k, n, v0));
    if k >= n || Skips(s.a, k, n, sqrt) || norm < SIGMA_FLOOR then
      s
    else
      var v := Householder(s.a, k, n, v0, norm);
      Factors(ColumnsReflected(v, s.q, k, n), BlockReflected(v, s.a, k, n))
  }

  /** The two matrices before column `k` is looked at. */
  function Run(g: Mat, k: nat, n: nat, sqrt: real -> real): Factors {
    if k == 0 then Factors(Identity(n), g) else Turn(Run(g, k - 1, n, sqrt), k - 1, n, sqrt)
  }

  /** What the turn at column `j` throws away: the squared length of the column below the
      diagonal if the column is skipped, and nothing otherwise. */
  function Lost(g: Mat, j: nat, n: nat, sqrt: real -> real): real {
    var a := Run(g, j, n, sqrt).a;
    if Skips(a, j, n, sqrt) then Sum(if j < n then n - j - 1 else 0, Below(a, j)) else 0.0
  }

  function Turns(n: nat): nat {
    if n == 0 then 0 else n - 1
  }

  /** The sampled matrix: `Q` of the whole run with the column signs corrected. */
  function HaarFactor(g: Mat, n: nat, sqrt: real -> real): Mat {
    var s := Run(g, Turns(n), n, sqrt);
    Mul(s.q, Signs(s.a, n), n, n)
  }

  /** The triangular matrix that goes with it. */
  function TriangularFactor(g: Mat, n: nat, sqrt: real -> real): Mat {
    var s := Run(g, Turns(n), n, sqrt);
    Mul(Signs(s.a, n), Cleared(s.a, Turns(n), n), n, n)
  }

  /** `A` with what a skipped column leaves below the diagonal of the first `k` columns dropped. */
  function Cleared(a: Mat, k: nat, n: nat): (m: Mat)
    ensures IsMat(m, n, n)
    ensures forall i, j :: 0 <= i < n && 0 <= j < n ==> At(m, i, j) == if j < k && j < i then 0.0 else At(a, i, j)
  {
    Build(n, n, (i, j) => if j < k && j < i then 0.0 else At(a, i, j))
  }

  function GapTerm(x: Mat, y: Mat, j: int): int -> real {
    i => (At(x, i, j) - At(y, i, j)) * (At(x, i, j) - At(y, i, j))
  }

  /** Squared distance of column `j` of two matrices. */
  function GapSq(x: Mat, y: Mat, j: int, n: nat): real {
    Sum(n, GapTerm(x, y, j))
  }

  /** The running invariant: `Q` is orthogonal, and column `j` of `Q` times the cleared `A` is at the
      distance from that of the input which the turn at `j` lost; columns not yet reached are equal. */
  ghost predicate QrState(g: Mat, s: Factors, k: nat, n: nat, sqrt: real -> real) {
    && Orthogonal(s.q, n) && IsMat(s.a, n, n)
    && Follows(Mul(s.q, Cleared(s.a, k, n), n, n), g, k, n, sqrt)
  }

  ghost predicate Follows(m: Mat, g: Mat, k: nat, n: nat, sqrt: real -> real) {
    && (forall j: nat {:trigger GapSq(m, g, j, n)} | j < n ::
          GapSq(m, g, j, n) == if j < k then Lost(g, j, n, sqrt) else 0.0)
    && (forall i, j {:trigger At(m, i, j)} | 0 <= i < n && k <= j < n :: At(m, i, j) == At(g, i, j))
  }

  lemma {:induction false} FloorPositive()
    ensures SIGMA_FLOOR > 0.0 && SIGMA_FLOOR * SIGMA_FLOOR > 0.0
  {
  }

  /** Equal columns are at distance 0. */
  lemma {:induction false} SameColumn(x: Mat, y: Mat, j: int, n: nat)
    requires forall i {:trigger At(x, i, j)} | 0 <= i < n :: At(x, i, j) == At(y, i, j)
    ensures GapSq(x, y, j, n) == 0.0
  {
    SumZero(n, GapTerm(x, y, j));
  }

  /** A column that moved twice in the same way. */
  lemma {:induction false} SameGap(x: Mat, x': Mat, y: Mat, j: int, n: nat)
    requires forall i {:trigger At(x, i, j)} | 0 <= i < n :: At(x, i, j) == At(x', i, j)
    ensures GapSq(x, y, j, n) == GapSq(x', y, j, n)
  {
    SumCong(n, GapTerm(x, y, j), GapTerm(x', y, j));
  }

  function ColumnSquare(x: Mat): int -> real {
    t => At(x, t, 0) * At(x, t, 0)
  }

  lemma {:induction false} SelfDot(x: Mat, n: nat)
    requires IsMat(x, n, 1)
    ensures At(Mul(Transpose(x, n, 1), x, n, 1), 0, 0) == Sum(n, ColumnSquare(x))
  {
    SumCong(n, Term(Transpose(x, n, 1), x, 0, 0), ColumnSquare(x));
  }

  /** An orthogonal matrix keeps the length of a column. */
  lemma {:induction false} Isometry(q: Mat, x: Mat, n: nat)
    requires Orthogonal(q, n) && IsMat(x, n, 1)
    ensures Sum(n, ColumnSquare(Mul(q, x, n, 1))) == Sum(n, ColumnSquare(x))
  {
    var y, xt, qt := Mul(q, x, n, 1), Transpose(x, n, 1), Transpose(q, n, n);
    SelfDot(x, n);
    SelfDot(y, n);
    TransposeMul(q, x, n, n, 1);
    assert Mul(qt, q, n, n) == Identity(n) && IsMat(q, n, n);
    hide *;
    assert Transpose(y, n, 1) == Mul(xt, qt, n, n);
    MulAssoc(xt, qt, y, 1, n, n, 1);
    MulAssoc(qt, q, x, n, n, n, 1);
    MulIdentityLeft(x, n, 1);
  }

  function Dropped(a: Mat, k: nat, n: nat): (d: Mat)
    ensures IsMat(d, n, 1)
    ensures forall t :: 0 <= t < n ==> At(d, t, 0) == if t > k then -At(a, t, k) else 0.0
  {
    Build(n, 1, (t, j) => if t > k then -At(a, t, k) else 0.0)
  }

  lemma {:induction false} DroppedTerm(a: Mat, k: nat, n: nat, t: int)
    requires k < n && 0 <= t < n
    ensures ColumnSquare(Dropped(a, k, n))(t) == if t > k then Below(a, k)(t - k - 1) else 0.0
  {
    SquareNegated(At(a, t, k));
  }

  /** What is dropped from a column is its part below the diagonal. */
  lemma {:induction false} DroppedLength(a: Mat, k: nat, n: nat)
    requires k < n
    ensures Sum(n, ColumnSquare(Dropped(a, k, n))) == Sum(n - k - 1, Below(a, k))
  {
    hide ColumnSquare, Below, Dropped, At;
    var f := ColumnSquare(Dropped(a, k, n));
    forall t | 0 <= t < n
      ensures f(t) == if t > k then Below(a, k)(t - k - 1) else 0.0
    {
      DroppedTerm(a, k, n, t);
    }
    SumZero(k + 1, f);
    SumSplit(k + 1, n - k - 1, f, Below(a, k));
  }

  lemma {:induction false} SquareNegated(x: real)
    ensures (-x) * (-x) == x * x
  {
  }

  lemma {:induction false} SquareNonneg(x: real)
    ensures x * x >= 0.0
  {
    if x != 0.0 {
      SquarePositive(x, x * x);
    }
  }

  lemma {:induction false} SkipEntry(q: Mat, a: Mat, k: nat, n: nat, i: nat, j: nat)
    requires k < n && IsMat(q, n, n) && i < n && j < n
    ensures var was, now := Dot(q, Cleared(a, k, n), n, i, j), Dot(q, Cleared(a, k + 1, n), n, i, j);
            now == was + if j == k then Dot(q, Dropped(a, k, n), n, i, 0) else 0.0
  {
    var c, c', d := Cleared(a, k, n), Cleared(a, k + 1, n), Dropped(a, k, n);
    if j == k {
      DotSum(q, c, d, c', n, i, j);
    } else {
      SumCong(n, Term(q, c, i, j), Term(q, c', i, j));
    }
  }

  lemma {:induction false} DotSum(q: Mat, x: Mat, y: Mat, z: Mat, n: nat, i: int, j: int)
    requires forall t {:trigger At(z, t, j)} | 0 <= t < n :: At(z, t, j) == At(x, t, j) + At(y, t, 0)
    ensures Dot(q, z, n, i, j) == Dot(q, x, n, i, j) + Dot(q, y, n, i, 0)
  {
    SumAdd(n, Term(q, x, i, j), Term(q, y, i, 0), Term(q, z, i, j));
  }

  /** Skipping column `k` moves that column of the product by exactly its part below the diagonal,
      and no other. */
  lemma {:induction false} SkipMoves(q: Mat, a: Mat, k: nat, n: nat)
    requires k < n && Orthogonal(q, n) && IsMat(a, n, n)
    ensures var was, now := Mul(q, Cleared(a, k, n), n, n), Mul(q, Cleared(a, k + 1, n), n, n);
            && (forall i, j {:trigger At(now, i, j)} | 0 <= i < n && 0 <= j < n
                && j != k :: At(now, i, j) == At(was, i, j))
            && GapSq(now, was, k, n) == Sum(n - k - 1, Below(a, k))
  {
    var d := Dropped(a, k, n);
    var was, now, moved := Mul(q, Cleared(a, k, n), n, n), Mul(q, Cleared(a, k + 1, n), n, n), Mul(q, d, n, 1);
    hide *;
    SkipMoved(q, a, k, n);
    Isometry(q, d, n);
    DroppedLength(a, k, n);
    GapIsMoved(now, was, moved, k, n);
  }

  lemma {:induction false} SkipMoved(q: Mat, a: Mat, k: nat, n: nat)
    requires k < n && IsMat(q, n, n)
    ensures var was, now, moved := Mul(q, Cleared(a, k, n), n, n), Mul(q, Cleared(a, k + 1, n), n, n),
            Mul(q, Dropped(a, k, n), n, 1);
            forall i, j {:trigger At(now, i, j)} | 0 <= i < n && 0 <= j < n ::
              At(now, i, j) == if j == k then At(was, i, j) + At(moved, i, 0) else At(was, i, j)
  {
    var was, now, moved := Mul(q, Cleared(a, k, n), n, n), Mul(q, Cleared(a, k + 1, n), n, n),
        Mul(q, Dropped(a, k, n), n, 1);
    hide Dot, At, Dropped, Cleared;
    forall i, j | 0 <= i < n && 0 <= j < n
      ensures At(now, i, j) == if j == k then At(was, i, j) + At(moved, i, 0) else At(was, i, j)
    {
      SkipEntry(q, a, k, n, i, j);
    }
  }

  lemma {:induction false} GapIsMoved(now: Mat, was: Mat, moved: Mat, k: int, n: nat)
    requires forall i {:trigger At(now, i, k)} | 0 <= i < n :: At(now, i, k) == At(was, i, k) + At(moved, i, 0)
    ensures GapSq(now, was, k, n) == Sum(n, ColumnSquare(moved))
  {
    hide At;
    forall i | 0 <= i < n
      ensures GapTerm(now, was, k)(i) == ColumnSquare(moved)(i)
    {
      assert At(now, i, k) - At(was, i, k) == At(moved, i, 0);
    }
    hide GapTerm, ColumnSquare;
    SumCong(n, GapTerm(now, was, k), ColumnSquare(moved));
  }

  /** One more column has been passed, with what its turn lost. */
  lemma {:induction false} FollowsStep(m: Mat, now: Mat, g: Mat, k: nat, n: nat, sqrt: real -> real)
    requires k < n && Follows(m, g, k, n, sqrt)
    requires forall i, j {:trigger At(now, i, j)} | 0 <= i < n && 0 <= j < n && j != k :: At(now, i, j) == At(m, i, j)
    requires GapSq(now, m, k, n) == Lost(g, k, n, sqrt)
    ensures Follows(now, g, k + 1, n, sqrt)
  {
    hide Lost;
    forall j: nat | j < n
      ensures GapSq(now, g, j, n) == if j < k + 1 then Lost(g, j, n, sqrt) else 0.0
    {
      if j == k {
        SumCong(n, GapTerm(now, g, k), GapTerm(now, m, k));
      } else {
        SameGap(now, m, g, j, n);
      }
    }
  }

  lemma {:induction false} QrSkip(g: Mat, k: nat, n: nat, sqrt: real -> real)
    requires k < n && Skips(Run(g, k, n, sqrt).a, k, n, sqrt)
    requires QrState(g, Run(g, k, n, sqrt), k, n, sqrt)
    ensures QrState(g, Run(g, k + 1, n, sqrt), k + 1, n, sqrt)
  {
    var s := Run(g, k, n, sqrt);
    assert Run(g, k + 1, n, sqrt) == s;
    var was, now := Mul(s.q, Cleared(s.a, k, n), n, n), Mul(s.q, Cleared(s.a, k + 1, n), n, n);
    assert Lost(g, k, n, sqrt) == Sum(n - k - 1, Below(s.a, k));
    hide Follows, Mul, Orthogonal, Cleared, Lost, Run, Skips, Sum;
    SkipMoves(s.q, s.a, k, n);
    FollowsStep(was, now, g, k, n, sqrt);
  }

  /** Columns from `k` on are not cleared yet, so the step sees the same numbers. */
  lemma {:induction false} ClearedStep(a: Mat, k: nat, n: nat, v: seq<real>, v0: real, norm: real)
    requires k < n && IsMat(a, n, n) && IsHouseholder(v, a, k, n, v0, norm)
    ensures var c := Cleared(a, k, n);
            && IsHouseholder(v, c, k, n, v0, norm)
            && TailNormSq(c, k, n) == TailNormSq(a, k, n)
            && Sum(n - k - 1, Below(c, k)) == Sum(n - k - 1, Below(a, k))
            && TriangularTo(c, k, n)
  {
    var c := Cleared(a, k, n);
    SumCong(n - k, Tail(c, k), Tail(a, k));
    SumCong(n - k - 1, Below(c, k), Below(a, k));
  }

  lemma {:induction false} ReflectedCleared(a: Mat, k: nat, n: nat, v: seq<real>)
    requires k < n && IsMat(a, n, n) && k + |v| == n
    requires TriangularTo(BlockReflected(v, Cleared(a, k, n), k, n), k + 1, n)
    ensures Cleared(BlockReflected(v, a, k, n), k + 1, n) == BlockReflected(v, Cleared(a, k, n), k, n)
  {
    var c := Cleared(a, k, n);
    forall j | k <= j < n
      ensures RowDot(v, c, k, j) == RowDot(v, a, k, j)
    {
      SumCong(|v|, RowTerm(v, c, k, j), RowTerm(v, a, k, j));
    }
    var b := BlockReflected(v, c, k, n);
    assert forall i, j | 0 <= j < i < n && j < k + 1 :: At(b, i, j) == 0.0;
    hide RowDot, Updated, TriangularTo;
    var r := Cleared(BlockReflected(v, a, k, n), k + 1, n);
    forall i, j | 0 <= i < n && 0 <= j < n
      ensures At(r, i, j) == At(b, i, j)
    {
    }
    MatExt(r, b, n, n);
  }

  /** A full turn leaves the product of the two matrices as it was. */
  lemma {:induction false} ReflectedProduct(s: Factors, k: nat, n: nat, v: seq<real>, v0: real, norm: real, sigma: real)
    requires k < n && Orthogonal(s.q, n) && IsMat(s.a, n, n)
    requires IsHouseholder(v, s.a, k, n, v0, norm)
    requires sigma * sigma == TailNormSq(s.a, k, n)
    requires v0 == At(s.a, k, k) + sigma || v0 == At(s.a, k, k) - sigma
    requires norm * norm == v0 * v0 + Sum(n - k - 1, Below(s.a, k))
    ensures Orthogonal(ColumnsReflected(v, s.q, k, n), n)
    ensures Mul(ColumnsReflected(v, s.q, k, n), Cleared(BlockReflected(v, s.a, k, n), k + 1, n), n, n)
         == Mul(s.q, Cleared(s.a, k, n), n, n)
  {
    var c := Cleared(s.a, k, n);
    ClearedStep(s.a, k, n, v, v0, norm);
    assert At(c, k, k) == At(s.a, k, k);
    HouseholderLength(v, s.a, k, n, v0, norm);
    HouseholderSums(v, c, k, n, v0, norm, sigma);
    ColumnsAreReflection(v, s.q, k, n);
    OrthogonalStep(s.q, v, k, n);
    BlockIsReflection(v, c, k, n);
    ProductKept(s.q, c, v, k, n);
    StepTriangular(v, c, k, n, v0, norm);
    ReflectedCleared(s.a, k, n, v);
  }

  /** A column past the first threshold is always reflected, by the vector built from its pivot. */
  lemma {:induction false} TurnReflects(s: Factors, k: nat, n: nat, sqrt: real -> real, v: seq<real>, v0: real,
                                        norm: real)
    requires k < n && !Skips(s.a, k, n, sqrt) && v0 == PivotAt(s.a, k, n, sqrt)
    requires norm == sqrt(PivotedSq(s.a, k, n, v0)) && norm >= SIGMA_FLOOR > 0.0
    requires v == Householder(s.a, k, n, v0, norm)
    ensures Turn(s, k, n, sqrt) == Factors(ColumnsReflected(v, s.q, k, n), BlockReflected(v, s.a, k, n))
  {
    hide Skips, PivotAt, PivotedSq, Householder, ColumnsReflected, BlockReflected;
  }

  lemma {:induction false} TurnSkips(s: Factors, k: nat, n: nat, sqrt: real -> real)
    requires Skips(s.a, k, n, sqrt) || sqrt(PivotedSq(s.a, k, n, PivotAt(s.a, k, n, sqrt))) < SIGMA_FLOOR
    ensures Turn(s, k, n, sqrt) == s
  {
    hide Skips, PivotAt, PivotedSq, Householder, ColumnsReflected, BlockReflected;
  }

  lemma {:induction false} RunStep(g: Mat, k: nat, n: nat, sqrt: real -> real)
    ensures Run(g, k + 1, n, sqrt) == Turn(Run(g, k, n, sqrt), k, n, sqrt)
  {
    hide Turn;
  }

  lemma {:induction false} LostAt(g: Mat, k: nat, n: nat, sqrt: real -> real)
    requires k < n
    ensures var a := Run(g, k, n, sqrt).a;
            Lost(g, k, n, sqrt) == if Skips(a, k, n, sqrt) then Sum(n - k - 1, Below(a, k)) else 0.0
  {
    hide Run, Skips, Below;
  }

  /** What a turn reflects with, for a column past the first threshold. */
  lemma {:induction false} PivotFacts(a: Mat, k: nat, n: nat, sqrt: real -> real)
    returns (sigma: real, v0: real, norm: real)
    requires k < n && IsSqrt(sqrt) && !Skips(a, k, n, sqrt)
    ensures v0 == PivotAt(a, k, n, sqrt) && norm == sqrt(PivotedSq(a, k, n, v0))
    ensures sigma * sigma == TailNormSq(a, k, n)
    ensures v0 == At(a, k, k) + sigma || v0 == At(a, k, k) - sigma
    ensures norm * norm == v0 * v0 + Sum(n - k - 1, Below(a, k))
    ensures norm >= SIGMA_FLOOR > 0.0
  {
    sigma, v0 := sqrt(TailNormSq(a, k, n)), PivotAt(a, k, n, sqrt);
    norm := sqrt(PivotedSq(a, k, n, v0));
    TailNonneg(a, k, n);
    hide TailNormSq, PivotedSq, Below;
    PivotRoot(a, k, n, sigma, sqrt, v0, norm);
  }

  lemma {:induction false} QrStep(g: Mat, k: nat, n: nat, sqrt: real -> real)
    requires k < n && IsSqrt(sqrt) && !Skips(Run(g, k, n, sqrt).a, k, n, sqrt)
    requires QrState(g, Run(g, k, n, sqrt), k, n, sqrt)
    ensures QrState(g, Run(g, k + 1, n, sqrt), k + 1, n, sqrt)
  {
    var s := Run(g, k, n, sqrt);
    var m := Mul(s.q, Cleared(s.a, k, n), n, n);
    RunStep(g, k, n, sqrt);
    LostAt(g, k, n, sqrt);
    assert Orthogonal(s.q, n) && IsMat(s.a, n, n) && Follows(m, g, k, n, sqrt);
    hide Mul, Orthogonal, Cleared, Lost, Run, Turn, Skips, Sum, TailNormSq, PivotedSq, Follows, GapSq, PivotAt, At;
    var sigma, v0, norm := PivotFacts(s.a, k, n, sqrt);
    var v := Householder(s.a, k, n, v0, norm);
    TurnReflects(s, k, n, sqrt, v, v0, norm);
    ReflectedProduct(s, k, n, v, v0, norm, sigma);
    SameColumn(m, m, k, n);
    FollowsStep(m, m, g, k, n, sqrt);
  }

  /** The threshold on the pivot vector never fires: its norm is at least that of the column. */
  lemma {:induction false} PivotLarge(x: real, sigma: real, v0: real, norm: real, s: real)
    requires sigma >= SIGMA_FLOOR && s >= 0.0 && norm >= 0.0 && norm * norm == v0 * v0 + s
    requires v0 == if x >= 0.0 then x + sigma else x - sigma
    ensures norm >= SIGMA_FLOOR
  {
    NormFloor(norm, v0, s, SIGMA_FLOOR);
  }

  lemma {:induction false} PivotRoot(a: Mat, k: nat, n: nat, sigma: real, sqrt: real -> real, v0: real, norm: real)
    requires k < n && IsSqrt(sqrt) && sigma >= SIGMA_FLOOR && v0 == Pivot(At(a, k, k), sigma)
    requires norm == sqrt(PivotedSq(a, k, n, v0))
    ensures norm * norm == v0 * v0 + Sum(n - k - 1, Below(a, k))
    ensures norm >= SIGMA_FLOOR > 0.0
  {
    var s := Sum(n - k - 1, Below(a, k));
    BelowNonneg(a, k, n, v0);
    SqrtSquares(sqrt, PivotedSq(a, k, n, v0), v0 * v0, s);
    PivotLarge(At(a, k, k), sigma, v0, norm, s);
  }

  lemma {:induction false} SqrtSquares(sqrt: real -> real, x: real, w: real, s: real)
    requires IsSqrt(sqrt) && x == w + s && x >= 0.0
    ensures sqrt(x) >= 0.0 && sqrt(x) * sqrt(x) == w + s
  {
  }

  /** The invariant holds before every turn of every run. */
  lemma {:induction false} QrRun(g: Mat, k: nat, n: nat, sqrt: real -> real)
    requires IsMat(g, n, n) && IsSqrt(sqrt) && k <= n
    ensures QrState(g, Run(g, k, n, sqrt), k, n, sqrt)
  {
    hide *;
    if k == 0 {
      QrStart(g, n, sqrt);
    } else {
      QrRun(g, k - 1, n, sqrt);
      QrTurn(g, k - 1, n, sqrt);
    }
  }

  lemma {:induction false} QrTurn(g: Mat, k: nat, n: nat, sqrt: real -> real)
    requires k < n && IsSqrt(sqrt) && QrState(g, Run(g, k, n, sqrt), k, n, sqrt)
    ensures QrState(g, Run(g, k + 1, n, sqrt), k + 1, n, sqrt)
  {
    hide *;
    if Skips(Run(g, k, n, sqrt).a, k, n, sqrt) {
      QrSkip(g, k, n, sqrt);
    } else {
      QrStep(g, k, n, sqrt);
    }
  }

  lemma {:induction false} QrStart(g: Mat, n: nat, sqrt: real -> real)
    requires IsMat(g, n, n)
    ensures QrState(g, Run(g, 0, n, sqrt), 0, n, sqrt)
  {
    IdentityOrthogonal(n);
    MulIdentityLeft(g, n, n);
    MatExt(Cleared(g, 0, n), g, n, n);
    forall j: nat | j < n
      ensures GapSq(g, g, j, n) == 0.0
    {
      SameColumn(g, g, j, n);
    }
  }

  /** `q` is orthogonal, `r` upper triangular with a non-negative diagonal, and column `j` of their
      product is at the distance `Lost` from that of `g`, always below the threshold. */
  ghost predicate IsQrOf(q: Mat, r: Mat, g: Mat, n: nat, sqrt: real -> real) {
    && Orthogonal(q, n) && UpperTriangular(r, n)
    && forall j: nat {:trigger Lost(g, j, n, sqrt)} | j < n ::
         GapSq(Mul(q, r, n, n), g, j, n) == Lost(g, j, n, sqrt) < SIGMA_FLOOR * SIGMA_FLOOR
  }

  /** Whatever is lost at a skipped column lies below the skip threshold. */
  lemma {:induction false} LostTiny(g: Mat, j: nat, n: nat, sqrt: real -> real)
    requires j < n && IsSqrt(sqrt)
    ensures 0.0 <= Lost(g, j, n, sqrt) < SIGMA_FLOOR * SIGMA_FLOOR
  {
    var a := Run(g, j, n, sqrt).a;
    hide Run;
    FloorPositive();
    if Skips(a, j, n, sqrt) {
      TailNonneg(a, j, n);
      TailHead(a, j, n);
      SquareNonneg(At(a, j, j));
      BelowNonneg(a, j, n, 0.0);
      SmallerSquare(sqrt(TailNormSq(a, j, n)), SIGMA_FLOOR);
    }
  }

  /** The factors of the run, for every input matrix. */
  lemma {:induction false} FactorsOf(g: Mat, n: nat, sqrt: real -> real)
    requires IsMat(g, n, n) && IsSqrt(sqrt)
    ensures IsQrOf(HaarFactor(g, n, sqrt), TriangularFactor(g, n, sqrt), g, n, sqrt)
  {
    var s := Run(g, Turns(n), n, sqrt);
    var c := Cleared(s.a, Turns(n), n);
    QrRun(g, Turns(n), n, sqrt);
    MatExt(Signs(c, n), Signs(s.a, n), n, n);
    assert TriangularTo(c, n, n);
    var m := Mul(s.q, c, n, n);
    assert HaarFactor(g, n, sqrt) == Mul(s.q, Signs(c, n), n, n);
    assert TriangularFactor(g, n, sqrt) == Mul(Signs(c, n), c, n, n);
    hide Run, HaarFactor, TriangularFactor, Signs, Cleared, TriangularTo, GapSq, Mul, Lost, SIGMA_FLOOR;
    SignCorrected(s.q, c, n);
    forall j: nat | j < n
      ensures GapSq(m, g, j, n) == Lost(g, j, n, sqrt) < SIGMA_FLOOR * SIGMA_FLOOR
    {
      LostTiny(g, j, n, sqrt);
      if j >= Turns(n) {
        LastKept(g, n, sqrt);
      }
    }
  }

  /** The last column has nothing below its diagonal. */
  lemma {:induction false} LastKept(g: Mat, n: nat, sqrt: real -> real)
    requires n > 0
    ensures Lost(g, n - 1, n, sqrt) == 0.0
  {
  }

  /** No skipped column has anything below its diagonal when its turn comes. */
  ghost predicate NothingLost(g: Mat, n: nat, sqrt: real -> real) {
    forall k: nat {:trigger Lost(g, k, n, sqrt)} | k < Turns(n) :: Lost(g, k, n, sqrt) == 0.0
  }

  /** The factors multiply back to the input itself exactly when no turn lost anything. */
  lemma {:induction false} ExactIff(g: Mat, n: nat, sqrt: real -> real)
    requires IsMat(g, n, n) && IsSqrt(sqrt)
    ensures Mul(HaarFactor(g, n, sqrt), TriangularFactor(g, n, sqrt), n, n) == g <==> NothingLost(g, n, sqrt)
  {
    var m := Mul(HaarFactor(g, n, sqrt), TriangularFactor(g, n, sqrt), n, n);
    FactorsOf(g, n, sqrt);
    assert IsMat(m, n, n);
    forall j: nat | j < n
      ensures GapSq(m, g, j, n) == Lost(g, j, n, sqrt)
    {
      hide HaarFactor, TriangularFactor, Lost, GapSq;
    }
    hide *;
    EqualIff(m, g, n, sqrt);
  }

  lemma {:induction false} EqualIff(m: Mat, g: Mat, n: nat, sqrt: real -> real)
    requires IsMat(m, n, n) && IsMat(g, n, n)
    requires forall j: nat {:trigger GapSq(m, g, j, n)} | j < n :: GapSq(m, g, j, n) == Lost(g, j, n, sqrt)
    ensures m == g <==> NothingLost(g, n, sqrt)
  {
    hide Lost, GapSq, At;
    if m == g {
      forall k: nat | k < Turns(n)
        ensures Lost(g, k, n, sqrt) == 0.0
      {
        SameColumn(m, g, k, n);
      }
    }
    if NothingLost(g, n, sqrt) {
      forall i, j | 0 <= i < n && 0 <= j < n
        ensures At(m, i, j) == At(g, i, j)
      {
        if j == n - 1 {
          LastKept(g, n, sqrt);
        }
        ZeroGap(m, g, j, n, i);
      }
      MatExt(m, g, n, n);
    }
  }

  /** Columns at distance 0 are equal. */
  lemma {:induction false} ZeroGap(x: Mat, y: Mat, j: int, n: nat, i: int)
    requires 0 <= i < n && GapSq(x, y, j, n) == 0.0
    ensures At(x, i, j) == At(y, i, j)
  {
    forall t | 0 <= t < n
      ensures GapTerm(x, y, j)(t) >= 0.0
    {
      SquareNonneg(At(x, t, j) - At(y, t, j));
    }
    SumNonneg(n, GapTerm(x, y, j));
    SquareZero(At(x, i, j) - At(y, i, j), GapTerm(x, y, j)(i));
  }

  /** No column of the product is `10^-30` or farther from that of the input. */
  lemma {:induction false} WithinThreshold(g: Mat, n: nat, sqrt: real -> real)
    requires IsMat(g, n, n) && IsSqrt(sqrt)
    ensures var m := Mul(HaarFactor(g, n, sqrt), TriangularFactor(g, n, sqrt), n, n);
            forall j {:trigger GapSq(m, g, j, n)} | 0 <= j < n :: GapSq(m, g, j, n) < 1e-30 * 1e-30
  {
    FactorsOf(g, n, sqrt);
    hide HaarFactor, TriangularFactor, Lost, GapSq, Mul, Orthogonal;
    forall j: nat | j < n
      ensures GapSq(Mul(HaarFactor(g, n, sqrt), TriangularFactor(g, n, sqrt), n, n), g, j, n) < 1e-30 * 1e-30
    {
      assert Lost(g, j, n, sqrt) < SIGMA_FLOOR * SIGMA_FLOOR;
    }
  }

  /** When its turn comes, every column still has length `10^-30` or more from the diagonal down. */
  ghost predicate NoneNear(g: Mat, n: nat, sqrt: real -> real) {
    forall k: nat {:trigger Run(g, k, n, sqrt)} | k + 1 < n :: sqrt(TailNormSq(Run(g, k, n, sqrt).a, k, n)) >= 1e-30
  }

  /** Every column shorter than `10^-30` from the diagonal down, when its turn comes, is zero below the diagonal. */
  ghost predicate NearAreClear(g: Mat, n: nat, sqrt: real -> real) {
    forall k: nat {:trigger Run(g, k, n, sqrt)} | k + 1 < n && sqrt(TailNormSq(Run(g, k, n, sqrt).a, k, n)) < 1e-30 ::
      Sum(n - k - 1, Below(Run(g, k, n, sqrt).a, k)) == 0.0
  }

  /** That is exactly when the factors multiply back. */
  lemma {:induction false} ExactIffClear(g: Mat, n: nat, sqrt: real -> real)
    requires IsMat(g, n, n) && IsSqrt(sqrt)
    ensures Mul(HaarFactor(g, n, sqrt), TriangularFactor(g, n, sqrt), n, n) == g <==> NearAreClear(g, n, sqrt)
  {
    ExactIff(g, n, sqrt);
    hide HaarFactor, TriangularFactor, Mul, Run, TailNormSq, Below;
    forall k: nat | k + 1 < n
      ensures Lost(g, k, n, sqrt) == 0.0
         <==> (sqrt(TailNormSq(Run(g, k, n, sqrt).a, k, n)) < 1e-30
               ==> Sum(n - k - 1, Below(Run(g, k, n, sqrt).a, k)) == 0.0)
    {
      LostAt(g, k, n, sqrt);
    }
  }

  /** Then no column is skipped and the factors multiply back exactly. */
  lemma {:induction false} LargeColumnsExact(g: Mat, n: nat, sqrt: real -> real)
    requires IsMat(g, n, n) && IsSqrt(sqrt)
    ensures NoneNear(g, n, sqrt) ==> Mul(HaarFactor(g, n, sqrt), TriangularFactor(g, n, sqrt), n, n) == g
  {
    if NoneNear(g, n, sqrt) {
      hide Run, TailNormSq;
      assert NothingLost(g, n, sqrt);
      ExactIff(g, n, sqrt);
    }
  }

  /** In particular when every skipped column is zero from the diagonal down. */
  lemma {:induction false} ZeroColumnsExact(g: Mat, n: nat, sqrt: real -> real)
    requires IsMat(g, n, n) && IsSqrt(sqrt)
    requires forall k: nat {:trigger Run(g, k, n, sqrt)} | k < Turns(n) ::
               Skips(Run(g, k, n, sqrt).a, k, n, sqrt) ==> TailNormSq(Run(g, k, n, sqrt).a, k, n) == 0.0
    ensures Mul(HaarFactor(g, n, sqrt), TriangularFactor(g, n, sqrt), n, n) == g
  {
    forall k: nat | k < Turns(n)
      ensures Lost(g, k, n, sqrt) == 0.0
    {
      var a := Run(g, k, n, sqrt).a;
      TailHead(a, k, n);
      SquareNonneg(At(a, k, k));
      BelowNonneg(a, k, n, 0.0);
    }
    ExactIff(g, n, sqrt);
  }

  /** A skipped column need not be zero from the diagonal down: nothing is lost of one that is
      zero below the diagonal only. */
  lemma {:induction false} SkippedButExact(e: real, sqrt: real -> real)
    requires IsSqrt(sqrt) && 0.0 < e < SIGMA_FLOOR
    ensures var g := [[e, 0.0], [0.0, 1.0]];
            && Skips(Run(g, 0, 2, sqrt).a, 0, 2, sqrt)
            && TailNormSq(Run(g, 0, 2, sqrt).a, 0, 2) != 0.0
            && Mul(HaarFactor(g, 2, sqrt), TriangularFactor(g, 2, sqrt), 2, 2) == g
  {
    var g := [[e, 0.0], [0.0, 1.0]];
    assert Run(g, 0, 2, sqrt).a == g && IsMat(g, 2, 2);
    assert At(g, 0, 0) == e && At(g, 1, 0) == 0.0;
    hide At;
    TailHead(g, 0, 2);
    BelowZero(g);
    SquarePositive(e, e * e);
    RootBelow(sqrt, TailNormSq(g, 0, 2), e);
    LostAt(g, 0, 2, sqrt);
    assert NothingLost(g, 2, sqrt);
    hide *;
    ExactIff(g, 2, sqrt);
  }

  lemma {:induction false} BelowZero(a: Mat)
    requires At(a, 1, 0) == 0.0
    ensures Sum(1, Below(a, 0)) == 0.0
  {
    SumZero(1, Below(a, 0));
  }

  lemma {:induction false} RootBelow(sqrt: real -> real, x: real, e: real)
    requires IsSqrt(sqrt) && 0.0 < e < SIGMA_FLOOR && x == e * e
    ensures sqrt(x) < SIGMA_FLOOR
  {
    SquarePositive(e, x);
    if sqrt(x) >= SIGMA_FLOOR {
      SmallerSquare(e, sqrt(x));
    }
  }

  method PivotNormSq(a: array2<real>, k: nat, v0: real) returns (s: real)
    requires a.Length0 == a.Length1 && k < a.Length0
    ensures s == PivotedSq(MatOf(a), k, a.Length0, v0)
  {
    s := v0 * v0;
    for i := k + 1 to a.Length0
      invariant s == v0 * v0 + Sum(i - k - 1, Below(MatOf(a), k))
    {
      var x := a[i, k];
      s := s + x * x;
    }
  }

  /** The pivot `a_kk + sign·σ` and the norm of the vector it heads. */
  method PivotNorm(a: array2<real>, k: nat, sigma: real, sqrt: real -> real) returns (v0: real, norm: real)
    requires a.Length0 == a.Length1 && k < a.Length0 && sigma == sqrt(TailNormSq(MatOf(a), k, a.Length0))
    ensures v0 == PivotAt(MatOf(a), k, a.Length0, sqrt)
    ensures norm == sqrt(PivotedSq(MatOf(a), k, a.Length0, v0))
  {
    v0 := Pivot(a[k, k], sigma);
    assert v0 == PivotAt(MatOf(a), k, a.Length0, sqrt);
    hide *;
    var normSq := PivotNormSq(a, k, v0);
    norm := sqrt(normSq);
  }

  method ReflectBoth(a: array2<real>, q: array2<real>, k: nat, v: seq<real>, dotBuf: array<real>)
    requires a != q && a.Length0 == a.Length1 == q.Length0 == q.Length1 == dotBuf.Length == k + |v|
    modifies a, q, dotBuf
    ensures MatOf(a) == BlockReflected(v, old(MatOf(a)), k, a.Length0)
    ensures MatOf(q) == ColumnsReflected(v, old(MatOf(q)), k, a.Length0)
  {
    hide *;
    Rank1UpdateRows(a, k, v, dotBuf);
    Rank1UpdateCols(q, k, v, dotBuf);
  }

  /** The body of the loop past the first threshold: build the Householder vector of
      column `k` and reflect `A` from the left and `Q` from the right. */
  method ReflectColumn(a: array2<real>, q: array2<real>, k: nat, dotBuf: array<real>, sigma: real, sqrt: real -> real)
    requires a != q && a.Length0 == a.Length1 == q.Length0 == q.Length1 == dotBuf.Length
    requires k < a.Length0
    requires sigma == sqrt(TailNormSq(MatOf(a), k, a.Length0)) && !Skips(MatOf(a), k, a.Length0, sqrt)
    modifies a, q, dotBuf
    ensures Factors(MatOf(q), MatOf(a)) == Turn(old(Factors(MatOf(q), MatOf(a))), k, a.Length0, sqrt)
  {
    ghost var s, n := Factors(MatOf(q), MatOf(a)), a.Length0;
    hide *;
    var v0, norm := PivotNorm(a, k, sigma, sqrt);
    FloorPositive();
    if norm < SIGMA_FLOOR {
      TurnSkips(s, k, n, sqrt);
      return;
    }
    var v := HouseholderVector(a, k, v0, norm);
    TurnReflects(s, k, n, sqrt, v, v0, norm);
    HouseholderLength(v, s.a, k, n, v0, norm);
    ReflectBoth(a, q, k, v, dotBuf);
  }

  method QrBuffers(g: Mat, n: nat) returns (a: array2<real>, q: array2<real>)
    requires IsMat(g, n, n)
    ensures fresh(a) && fresh(q) && a != q
    ensures a.Length0 == a.Length1 == q.Length0 == q.Length1 == n
    ensures MatOf(a) == g && MatOf(q) == Identity(n)
  {
    a := new real[n, n]((i, j) => At(g, i, j));
    q := new real[n, n]((i, j) => Delta(i, j));
    MatExt(MatOf(a), g, n, n);
    MatExt(MatOf(q), Identity(n), n, n);
  }

  /** One turn of the loop: a column that is all but zero from the diagonal down is skipped, any other reflected. */
  method EliminateColumn(a: array2<real>, q: array2<real>, k: nat, dotBuf: array<real>, sqrt: real -> real)
    requires a != q && a.Length0 == a.Length1 == q.Length0 == q.Length1 == dotBuf.Length
    requires k < a.Length0
    modifies a, q, dotBuf
    ensures Factors(MatOf(q), MatOf(a)) == Turn(old(Factors(MatOf(q), MatOf(a))), k, a.Length0, sqrt)
  {
    var sigmaSq := ColumnNormSq(a, k);
    var sigma := sqrt(sigmaSq);
    if sigma < SIGMA_FLOOR {
      return;
    }
    hide *;
    ReflectColumn(a, q, k, dotBuf, sigma, sqrt);
  }

  /** The loop over the columns and the sign correction, in place. */
  method Factorise(g: Mat, n: nat, sqrt: real -> real) returns (res: Mat)
    requires IsMat(g, n, n)
    ensures res == HaarFactor(g, n, sqrt)
  {
    var a, q := QrBuffers(g, n);
    var dotBuf := new real[n];
    assert Factors(MatOf(q), MatOf(a)) == Run(g, 0, n, sqrt);
    for k := 0 to Turns(n)
      invariant Factors(MatOf(q), MatOf(a)) == Run(g, k, n, sqrt)
    {
      hide Turn;
      EliminateColumn(a, q, k, dotBuf, sqrt);
    }
    hide Run, Mul, Signs, Turn;
    CorrectSigns(a, q);
    res := MatOf(q);
  }

  /** Householder QR of the Gaussian sample `g`, for every sample: the result is the orthogonal factor
      of a matrix each of whose columns is at the distance from `g`'s that its turn lost, and of `g`
      itself exactly when no turn lost anything. */
  method SampleHaarOrthogonal(g: Mat, n: nat, sqrt: real -> real) returns (res: Mat)
    requires IsMat(g, n, n) && IsSqrt(sqrt)
    ensures res == HaarFactor(g, n, sqrt)
    ensures IsQrOf(res, TriangularFactor(g, n, sqrt), g, n, sqrt)
    ensures Mul(res, TriangularFactor(g, n, sqrt), n, n) == g <==> NothingLost(g, n, sqrt)
    ensures forall j {:trigger GapSq(Mul(res, TriangularFactor(g, n, sqrt), n, n), g, j, n)} | 0 <= j < n ::
              GapSq(Mul(res, TriangularFactor(g, n, sqrt), n, n), g, j, n) < 1e-30 * 1e-30
    ensures Mul(res, TriangularFactor(g, n, sqrt), n, n) == g <==> NearAreClear(g, n, sqrt)
    ensures NoneNear(g, n, sqrt) ==> Mul(res, TriangularFactor(g, n, sqrt), n, n) == g
  {
    hide *;
    res := Factorise(g, n, sqrt);
    FactorsOf(g, n, sqrt);
    ExactIff(g, n, sqrt);
    WithinThreshold(g, n, sqrt);
    ExactIffClear(g, n, sqrt);
    LargeColumnsExact(g, n, sqrt);
  }

  lemma {:induction false} TailNonneg(a: Mat, k: nat, n: nat)
    requires k < n
    ensures TailNormSq(a, k, n) >= 0.0
  {
    SquaresNonneg(n - k, Tail(a, k), t => At(a, k + t, k));
  }

  lemma {:induction false} BelowNonneg(a: Mat, k: nat, n: nat, v0: real)
    requires k < n
    ensures Sum(n - k - 1, Below(a, k)) >= 0.0
    ensures v0 * v0 + Sum(n - k - 1, Below(a, k)) >= 0.0
  {
    SquaresNonneg(n - k - 1, Below(a, k), t => At(a, k + 1 + t, k));
    if v0 != 0.0 {
      SquarePositive(v0, v0 * v0);
    }
  }

  lemma {:induction false} SquaresNonneg(n: nat, f: int -> real, g: int -> real)
    requires forall t {:trigger f(t)} | 0 <= t < n :: f(t) == g(t) * g(t)
    ensures Sum(n, f) >= 0.0
  {
    forall t | 0 <= t < n
      ensures f(t) >= 0.0
    {
      if g(t) != 0.0 {
        SquarePositive(g(t), f(t));
      }
    }
    SumNonneg(n, f);
  }

  lemma {:induction false} HouseholderLength(v: seq<real>, a: Mat, k: nat, n: nat, v0: real, norm: real)
    requires IsHouseholder(v, a, k, n, v0, norm)
    ensures k + |v| == n
  {
  }
}
