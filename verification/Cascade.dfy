/** The algebra both structured masks share: three rounds of one symmetric
    kernel `C` with `C·C = c·I`, interleaved with ±1 diagonals, scaled once. */
module Cascade {
  import opened LinAlg

  /** A ±1 diagonal of length `n`. */
  ghost predicate IsSigns(v: seq<real>, n: nat) {
    |v| == n && forall i :: 0 <= i < n ==> v[i] == 1.0 || v[i] == -1.0
  }

  /** Row `i` of `m` times `v[i] · x`. */
  function ScaleRows(v: seq<real>, x: real, m: Mat, n: nat, p: nat): (r: Mat)
    ensures IsMat(r, n, p)
    ensures forall i, j :: 0 <= i < n && 0 <= j < p ==> At(r, i, j) == Entry(v, i) * x * At(m, i, j)
  {
    Build(n, p, (i, j) => Entry(v, i) * x * At(m, i, j))
  }

  /** Unnormalised orthogonal kernel: symmetric, and `C·C = c·I`. */
  ghost predicate IsKernel(c: Mat, n: nat, gain: real) {
    && IsMat(c, n, n)
    && Transpose(c, n, n) == c
    && Mul(c, c, n, n) == Scale(Identity(n), n, n, gain)
  }

  /** A mask of this family; `norm` undoes the gain of three kernel passes. */
  datatype Keys = Keys(d1: seq<real>, d2: seq<real>, d3: seq<real>, norm: real)

  ghost predicate ValidKeys(k: Keys, n: nat, gain: real) {
    && IsSigns(k.d1, n) && IsSigns(k.d2, n) && IsSigns(k.d3, n)
    && k.norm * k.norm * (gain * gain * gain) == 1.0
  }

  /** `A·X` with `A = norm·D₃·C·D₂·C·D₁·C`, in the order the code applies the factors. */
  function Apply(c: Mat, k: Keys, m: Mat, n: nat, p: nat): (r: Mat)
    ensures IsMat(r, n, p)
  {
    var s1 := ScaleRows(k.d1, 1.0, Mul(c, m, n, p), n, p);
    var s2 := ScaleRows(k.d2, 1.0, Mul(c, s1, n, p), n, p);
    ScaleRows(k.d3, k.norm, Mul(c, s2, n, p), n, p)
  }

  /** `C·D₁·C·D₂·C·(norm·D₃)·X`, in the order the code applies the factors. */
  function Unapply(c: Mat, k: Keys, m: Mat, n: nat, p: nat): (r: Mat)
    requires |c| == n
    ensures IsMat(r, n, p)
  {
    var s3 := ScaleRows(k.d3, k.norm, m, n, p);
    var s2 := ScaleRows(k.d2, 1.0, Mul(c, s3, n, p), n, p);
    var s1 := ScaleRows(k.d1, 1.0, Mul(c, s2, n, p), n, p);
    Mul(c, s1, n, p)
  }

  lemma {:induction false} KernelTwice(c: Mat, n: nat, gain: real, m: Mat, p: nat)
    requires IsKernel(c, n, gain) && IsMat(m, n, p)
    ensures Mul(c, Mul(c, m, n, p), n, p) == Scale(m, n, p, gain)
  {
    MulAssoc(c, c, m, n, n, n, p);
    MulScaleLeft(Identity(n), m, n, n, p, gain);
    MulIdentityLeft(m, n, p);
  }

  /** A signed diagonal undoes itself, whatever scalar the operand carries. */
  lemma {:induction false} SignsTwice(v: seq<real>, n: nat, x: real, y: real, m: Mat, p: nat)
    requires IsSigns(v, n) && IsMat(m, n, p)
    ensures ScaleRows(v, y, ScaleRows(v, x, m, n, p), n, p) == Scale(m, n, p, x * y)
  {
    var once := ScaleRows(v, x, m, n, p);
    forall i, j | 0 <= i < n && 0 <= j < p
      ensures Entry(v, i) * y * At(once, i, j) == (x * y) * At(m, i, j)
    {
      assert Entry(v, i) * Entry(v, i) == 1.0;
      assert Entry(v, i) * y * (Entry(v, i) * x * At(m, i, j))
          == (Entry(v, i) * Entry(v, i)) * ((x * y) * At(m, i, j));
    }
    MatExt(ScaleRows(v, y, once, n, p), Scale(m, n, p, x * y), n, p);
  }

  lemma {:induction false} ScaleRowsScale(v: seq<real>, y: real, m: Mat, n: nat, p: nat, x: real)
    requires IsMat(m, n, p)
    ensures ScaleRows(v, y, Scale(m, n, p, x), n, p) == Scale(ScaleRows(v, y, m, n, p), n, p, x)
  {
    forall i, j | 0 <= i < n && 0 <= j < p
      ensures Entry(v, i) * y * (x * At(m, i, j)) == x * (Entry(v, i) * y * At(m, i, j))
    {
    }
    MatExt(ScaleRows(v, y, Scale(m, n, p, x), n, p), Scale(ScaleRows(v, y, m, n, p), n, p, x), n, p);
  }

  lemma {:induction false} ScaleScale(m: Mat, n: nat, p: nat, x: real, y: real)
    requires IsMat(m, n, p)
    ensures Scale(Scale(m, n, p, x), n, p, y) == Scale(m, n, p, x * y)
  {
    forall i, j | 0 <= i < n && 0 <= j < p
      ensures y * (x * At(m, i, j)) == (x * y) * At(m, i, j)
    {
    }
    MatExt(Scale(Scale(m, n, p, x), n, p, y), Scale(m, n, p, x * y), n, p);
  }

  /** One unwinding round: kernel then diagonal cancel diagonal then kernel,
      leaving the gain behind. */
  lemma {:induction false} UnwindRound(c: Mat, n: nat, gain: real, v: seq<real>, m: Mat, p: nat, x: real)
    requires IsKernel(c, n, gain) && IsSigns(v, n) && IsMat(m, n, p)
    ensures ScaleRows(v, 1.0, Mul(c, Scale(Mul(c, ScaleRows(v, 1.0, m, n, p), n, p), n, p, x), n, p), n, p)
         == Scale(m, n, p, x * gain)
  {
    var s := ScaleRows(v, 1.0, m, n, p);
    MulScaleRight(c, Mul(c, s, n, p), n, n, p, x);
    KernelTwice(c, n, gain, s, p);
    ScaleScale(s, n, p, gain, x);
    ScaleRowsScale(v, 1.0, s, n, p, gain * x);
    SignsTwice(v, n, 1.0, 1.0, m, p);
    ScaleScale(m, n, p, 1.0, gain * x);
  }

  /** `unapply` is a left inverse of `apply`: the mask is removed exactly. */
  lemma {:induction false} UnapplyApply(c: Mat, n: nat, gain: real, k: Keys, m: Mat, p: nat)
    requires IsKernel(c, n, gain) && ValidKeys(k, n, gain) && IsMat(m, n, p)
    ensures Unapply(c, k, Apply(c, k, m, n, p), n, p) == m
  {
    var c1 := Mul(c, m, n, p);
    var s1 := ScaleRows(k.d1, 1.0, c1, n, p);
    var c2 := Mul(c, s1, n, p);
    var s2 := ScaleRows(k.d2, 1.0, c2, n, p);
    var c3 := Mul(c, s2, n, p);
    var x := k.norm * k.norm;
    var xg := x * gain;
    var y := xg * gain;
    SignsTwice(k.d3, n, k.norm, k.norm, c3, p);
    var u3 := Scale(c3, n, p, x);
    assert ScaleRows(k.d3, k.norm, Apply(c, k, m, n, p), n, p) == u3;
    UnwindRound(c, n, gain, k.d2, c2, p, x);
    var u2 := Scale(c2, n, p, xg);
    assert ScaleRows(k.d2, 1.0, Mul(c, u3, n, p), n, p) == u2;
    UnwindRound(c, n, gain, k.d1, c1, p, xg);
    assert ScaleRows(k.d1, 1.0, Mul(c, u2, n, p), n, p) == Scale(c1, n, p, y);
    MulScaleRight(c, c1, n, n, p, y);
    KernelTwice(c, n, gain, m, p);
    ScaleScale(m, n, p, gain, y);
    var one := gain * y;
    assert one == 1.0;
    MatExt(Scale(m, n, p, one), m, n, p);
  }

  lemma {:induction false} ScaleRowsMul(v: seq<real>, x: real, m: Mat, w: Mat, n: nat, p: nat, q: nat)
    requires IsMat(m, n, p) && IsMat(w, p, q)
    ensures Mul(ScaleRows(v, x, m, n, p), w, p, q) == ScaleRows(v, x, Mul(m, w, p, q), n, q)
  {
    hide Dot;
    var s := ScaleRows(v, x, m, n, p);
    forall i, j | 0 <= i < n && 0 <= j < q
      ensures Dot(s, w, p, i, j) == Entry(v, i) * x * Dot(m, w, p, i, j)
    {
      DotScaleLeft(s, m, w, p, i, j, Entry(v, i) * x);
    }
    MatExt(Mul(s, w, p, q), ScaleRows(v, x, Mul(m, w, p, q), n, q), n, q);
  }

  /** Masking acts on rows only, so it commutes with a product on the right. */
  lemma {:induction false} ApplyMul(c: Mat, k: Keys, m: Mat, w: Mat, n: nat, p: nat, q: nat)
    requires IsMat(c, n, n) && IsMat(m, n, p) && IsMat(w, p, q)
    ensures Mul(Apply(c, k, m, n, p), w, p, q) == Apply(c, k, Mul(m, w, p, q), n, q)
  {
    var s1 := ScaleRows(k.d1, 1.0, Mul(c, m, n, p), n, p);
    var s2 := ScaleRows(k.d2, 1.0, Mul(c, s1, n, p), n, p);
    MulAssoc(c, m, w, n, n, p, q);
    ScaleRowsMul(k.d1, 1.0, Mul(c, m, n, p), w, n, p, q);
    MulAssoc(c, s1, w, n, n, p, q);
    ScaleRowsMul(k.d2, 1.0, Mul(c, s1, n, p), w, n, p, q);
    MulAssoc(c, s2, w, n, n, p, q);
    ScaleRowsMul(k.d3, k.norm, Mul(c, s2, n, p), w, n, p, q);
  }

  /** The offload identity: remove the mask from `(A·X)·W` and `X·W` is left. */
  lemma {:induction false} RoundTrip(c: Mat, n: nat, gain: real, k: Keys, m: Mat, w: Mat, p: nat, q: nat)
    requires IsKernel(c, n, gain) && ValidKeys(k, n, gain)
    requires IsMat(m, n, p) && IsMat(w, p, q)
    ensures Unapply(c, k, Mul(Apply(c, k, m, n, p), w, p, q), n, q) == Mul(m, w, p, q)
  {
    ApplyMul(c, k, m, w, n, p, q);
    UnapplyApply(c, n, gain, k, Mul(m, w, p, q), q);
  }

  // ─── the mask as an explicit orthogonal matrix ───

  /** The diagonal matrix that `ScaleRows` multiplies by. */
  function Diagonal(v: seq<real>, x: real, n: nat): (m: Mat)
    ensures IsMat(m, n, n)
  {
    ScaleRows(v, x, Identity(n), n, n)
  }

  lemma {:induction false} DiagonalMul(v: seq<real>, x: real, m: Mat, n: nat, p: nat)
    requires IsMat(m, n, p)
    ensures Mul(Diagonal(v, x, n), m, n, p) == ScaleRows(v, x, m, n, p)
  {
    ScaleRowsMul(v, x, Identity(n), m, n, n, p);
    MulIdentityLeft(m, n, p);
  }

  lemma {:induction false} DiagonalEntry(v: seq<real>, x: real, n: nat, i: nat, j: nat)
    requires |v| == n && i < n && j < n
    ensures At(Diagonal(v, x, n), i, j) == if i == j then v[i] * x else 0.0
  {
    assert At(Identity(n), i, j) == if i == j then 1.0 else 0.0;
  }

  /** A matrix with `d` on the diagonal and zeros elsewhere. */
  ghost predicate IsDiagonal(m: Mat, d: seq<real>, n: nat) {
    && IsMat(m, n, n) && |d| == n
    && forall i, j :: 0 <= i < n && 0 <= j < n ==> At(m, i, j) == if i == j then d[i] else 0.0
  }

  lemma {:induction false} TheDiagonal(m: Mat, v: seq<real>, n: nat)
    requires IsDiagonal(m, v, n)
    ensures m == Diagonal(v, 1.0, n)
  {
    forall i, j | 0 <= i < n && 0 <= j < n
      ensures At(m, i, j) == At(Diagonal(v, 1.0, n), i, j)
    {
      DiagonalEntry(v, 1.0, n, i, j);
    }
    MatExt(m, Diagonal(v, 1.0, n), n, n);
  }

  lemma {:induction false} ScaledRows(v: seq<real>, x: real, m: Mat, n: nat, p: nat)
    requires IsMat(m, n, p)
    ensures ScaleRows(v, x, m, n, p) == Scale(ScaleRows(v, 1.0, m, n, p), n, p, x)
  {
    forall i, j | 0 <= i < n && 0 <= j < p
      ensures Entry(v, i) * x * At(m, i, j) == x * (Entry(v, i) * 1.0 * At(m, i, j))
    {
    }
    MatExt(ScaleRows(v, x, m, n, p), Scale(ScaleRows(v, 1.0, m, n, p), n, p, x), n, p);
  }

  /** The mask as six factors: masking is `norm·(D₃·(C·(D₂·(C·(D₁·(C·X))))))`, whatever names the
      diagonal matrices of the three draws go by. */
  lemma {:induction false} ApplyFactors(c: Mat, k: Keys, one: Mat, two: Mat, three: Mat, m: Mat, n: nat, p: nat)
    requires IsMat(c, n, n) && IsMat(m, n, p)
    requires IsDiagonal(one, k.d1, n) && IsDiagonal(two, k.d2, n) && IsDiagonal(three, k.d3, n)
    ensures Apply(c, k, m, n, p)
         == Scale(Mul(three, Mul(c, Mul(two, Mul(c, Mul(one, Mul(c, m, n, p), n, p), n, p), n, p), n, p), n, p), n, p,
                  k.norm)
  {
    TheDiagonal(one, k.d1, n);
    TheDiagonal(two, k.d2, n);
    TheDiagonal(three, k.d3, n);
    var c1 := Mul(c, m, n, p);
    DiagonalMul(k.d1, 1.0, c1, n, p);
    var c2 := Mul(c, ScaleRows(k.d1, 1.0, c1, n, p), n, p);
    DiagonalMul(k.d2, 1.0, c2, n, p);
    var c3 := Mul(c, ScaleRows(k.d2, 1.0, c2, n, p), n, p);
    DiagonalMul(k.d3, 1.0, c3, n, p);
    ScaledRows(k.d3, k.norm, c3, n, p);
  }

  /** Unmasking as six factors: `C·(D₁·(C·(D₂·(C·(D₃·(norm·X))))))`. */
  lemma {:induction false} UnapplyFactors(c: Mat, k: Keys, one: Mat, two: Mat, three: Mat, m: Mat, n: nat, p: nat)
    requires IsMat(c, n, n) && IsMat(m, n, p)
    requires IsDiagonal(one, k.d1, n) && IsDiagonal(two, k.d2, n) && IsDiagonal(three, k.d3, n)
    ensures Unapply(c, k, m, n, p)
         == Mul(c, Mul(one, Mul(c, Mul(two, Mul(c, Mul(three, Scale(m, n, p, k.norm), n, p), n, p), n, p), n, p), n, p),
                n, p)
  {
    TheDiagonal(one, k.d1, n);
    TheDiagonal(two, k.d2, n);
    TheDiagonal(three, k.d3, n);
    var scaled := Scale(m, n, p, k.norm);
    DiagonalMul(k.d3, 1.0, scaled, n, p);
    ScaledRows(k.d3, k.norm, m, n, p);
    ScaleRowsScale(k.d3, 1.0, m, n, p, k.norm);
    var c3 := Mul(c, ScaleRows(k.d3, 1.0, scaled, n, p), n, p);
    DiagonalMul(k.d2, 1.0, c3, n, p);
    var c2 := Mul(c, ScaleRows(k.d2, 1.0, c3, n, p), n, p);
    DiagonalMul(k.d1, 1.0, c2, n, p);
  }

  lemma {:induction false} DiagonalSymmetric(v: seq<real>, x: real, n: nat)
    ensures Transpose(Diagonal(v, x, n), n, n) == Diagonal(v, x, n)
  {
    MatExt(Transpose(Diagonal(v, x, n), n, n), Diagonal(v, x, n), n, n);
  }

  /** The mask matrix `A`: what `apply` does to the identity. */
  function MaskMatrix(c: Mat, k: Keys, n: nat): (a: Mat)
    ensures IsMat(a, n, n)
  {
    Apply(c, k, Identity(n), n, n)
  }

  lemma {:induction false} ApplyIsMatrix(c: Mat, k: Keys, m: Mat, n: nat, p: nat)
    requires IsMat(c, n, n) && IsMat(m, n, p)
    ensures Apply(c, k, m, n, p) == Mul(MaskMatrix(c, k, n), m, n, p)
  {
    ApplyMul(c, k, Identity(n), m, n, n, p);
    MulIdentityLeft(m, n, p);
  }

  lemma {:induction false} TransposeFactor(c: Mat, v: seq<real>, x: real, b: Mat, m: Mat, n: nat, p: nat)
    requires IsMat(c, n, n) && Transpose(c, n, n) == c
    requires IsMat(b, n, n) && IsMat(m, n, p)
    ensures Mul(Transpose(ScaleRows(v, x, Mul(c, b, n, n), n, n), n, n), m, n, p)
         == Mul(Transpose(b, n, n), Mul(c, ScaleRows(v, x, m, n, p), n, p), n, p)
  {
    var d := Diagonal(v, x, n);
    var cb := Mul(c, b, n, n);
    DiagonalMul(v, x, cb, n, n);
    TransposeMul(d, cb, n, n, n);
    DiagonalSymmetric(v, x, n);
    TransposeMul(c, b, n, n, n);
    var bt := Transpose(b, n, n);
    MulAssoc(Mul(bt, c, n, n), d, m, n, n, n, p);
    DiagonalMul(v, x, m, n, p);
    MulAssoc(bt, c, ScaleRows(v, x, m, n, p), n, n, n, p);
  }

  /** `unapply` multiplies by the transpose of the mask matrix. */
  lemma {:induction false} UnapplyIsTranspose(c: Mat, k: Keys, m: Mat, n: nat, p: nat)
    requires IsMat(c, n, n) && Transpose(c, n, n) == c && IsMat(m, n, p)
    ensures Unapply(c, k, m, n, p) == Mul(Transpose(MaskMatrix(c, k, n), n, n), m, n, p)
  {
    var e := Identity(n);
    var s1 := ScaleRows(k.d1, 1.0, Mul(c, e, n, n), n, n);
    var s2 := ScaleRows(k.d2, 1.0, Mul(c, s1, n, n), n, n);
    var t3 := Mul(c, ScaleRows(k.d3, k.norm, m, n, p), n, p);
    var t2 := Mul(c, ScaleRows(k.d2, 1.0, t3, n, p), n, p);
    var t1 := Mul(c, ScaleRows(k.d1, 1.0, t2, n, p), n, p);
    TransposeFactor(c, k.d3, k.norm, s2, m, n, p);
    TransposeFactor(c, k.d2, 1.0, s1, t3, n, p);
    TransposeFactor(c, k.d1, 1.0, e, t2, n, p);
    MatExt(Transpose(e, n, n), e, n, n);
    MulIdentityLeft(t1, n, p);
  }

  /** The mask matrix is orthogonal: `Aᵀ·A = I`. */
  lemma {:induction false} MaskMatrixOrthogonal(c: Mat, n: nat, gain: real, k: Keys)
    requires IsKernel(c, n, gain) && ValidKeys(k, n, gain)
    ensures Mul(Transpose(MaskMatrix(c, k, n), n, n), MaskMatrix(c, k, n), n, n) == Identity(n)
  {
    UnapplyIsTranspose(c, k, MaskMatrix(c, k, n), n, n);
    UnapplyApply(c, n, gain, k, Identity(n), n);
  }
}
