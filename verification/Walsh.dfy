/** The Walsh-Hadamard matrix and the recursive form of its fast transform. */
module Walsh {
  import opened Sums
  import opened LinAlg
  import opened Cascade
  import opened Blocks

  function Pow2(m: nat): (p: nat)
    ensures p > 0
  {
    if m == 0 then 1 else 2 * Pow2(m - 1)
  }

  /** popcount(i & j) */
  function CommonBits(i: nat, j: nat): nat {
    if i == 0 || j == 0 then 0
    else (if i % 2 == 1 && j % 2 == 1 then 1 else 0) + CommonBits(i / 2, j / 2)
  }

  /** (−1)^popcount(i & j) */
  function Sgn(i: int, j: int): real {
    if i < 0 || j < 0 then 0.0 else Parity(CommonBits(i, j))
  }

  function Parity(b: nat): real {
    if b % 2 == 0 then 1.0 else -1.0
  }

  /** The unnormalised Walsh-Hadamard matrix: entry (i, j) is (−1)^popcount(i & j). */
  function WalshMatrix(n: nat): (h: Mat)
    ensures IsMat(h, n, n)
    ensures forall i, j :: 0 <= i < n && 0 <= j < n ==> At(h, i, j) == Sgn(i, j)
  {
    Build(n, n, (i, j) => Sgn(i, j))
  }

  /** The one with 2^m rows. */
  function Hadamard(m: nat): (h: Mat)
    ensures IsMat(h, Pow2(m), Pow2(m))
    ensures forall i, j :: 0 <= i < Pow2(m) && 0 <= j < Pow2(m) ==> At(h, i, j) == Sgn(i, j)
  {
    WalshMatrix(Pow2(m))
  }

  lemma {:induction false} Pow2Add(a: nat, b: nat)
    ensures Pow2(a + b) == Pow2(a) * Pow2(b)
  {
    if a > 0 {
      Pow2Add(a - 1, b);
    }
  }

  lemma {:induction false} Pow2Less(a: nat, b: nat)
    ensures a < b <==> Pow2(a) < Pow2(b)
    decreases a + b
  {
    if a > 0 && b > 0 {
      Pow2Less(a - 1, b - 1);
    }
  }

  lemma {:induction false} CommonBitsSymmetric(i: nat, j: nat)
    ensures CommonBits(i, j) == CommonBits(j, i)
  {
    if i != 0 && j != 0 {
      CommonBitsSymmetric(i / 2, j / 2);
    }
  }

  /** A bit above both indices counts exactly when both have it. */
  lemma {:induction false} CommonBitsTop(i: nat, j: nat, m: nat)
    requires i < Pow2(m) && j < Pow2(m)
    ensures CommonBits(i + Pow2(m), j) == CommonBits(i, j)
    ensures CommonBits(i, j + Pow2(m)) == CommonBits(i, j)
    ensures CommonBits(i + Pow2(m), j + Pow2(m)) == CommonBits(i, j) + 1
  {
    if m > 0 {
      CommonBitsTop(i / 2, j / 2, m - 1);
      assert (i + Pow2(m)) / 2 == i / 2 + Pow2(m - 1);
      assert (j + Pow2(m)) / 2 == j / 2 + Pow2(m - 1);
    } else {
      assert CommonBits(1, 1) == 1 + CommonBits(0, 0);
    }
  }

  /** +1 for an index in the lower half of 2^(m+1) rows, −1 in the upper half. */
  function Half(i: int, m: nat): real {
    if i < Pow2(m) then 1.0 else -1.0
  }

  function Low(i: int, m: nat): (r: int)
    requires 0 <= i < Pow2(m + 1)
    ensures 0 <= r < Pow2(m)
  {
    if i < Pow2(m) then i else i - Pow2(m)
  }

  lemma {:induction false} SgnTop(i: int, j: int, m: nat)
    requires 0 <= i < Pow2(m + 1) && 0 <= j < Pow2(m)
    ensures Sgn(i, j) == Sgn(Low(i, m), j)
    ensures Sgn(i, j + Pow2(m)) == Half(i, m) * Sgn(Low(i, m), j)
    ensures Sgn(j, i) == Sgn(j, Low(i, m))
    ensures Sgn(j + Pow2(m), i) == Half(i, m) * Sgn(j, Low(i, m))
  {
    var l, p := Low(i, m), Pow2(m);
    SgnRow(i, j, m);
    hide Half, CommonBits, Pow2;
    SgnSymmetric(i, j);
    SgnSymmetric(l, j);
    SgnSymmetric(i, j + p);
  }

  lemma {:induction false} SgnSymmetric(i: nat, j: nat)
    ensures Sgn(i, j) == Sgn(j, i)
  {
    CommonBitsSymmetric(i, j);
  }

  lemma {:induction false} SgnRow(i: int, j: int, m: nat)
    requires 0 <= i < Pow2(m + 1) && 0 <= j < Pow2(m)
    ensures Sgn(i, j) == Sgn(Low(i, m), j)
    ensures Sgn(i, j + Pow2(m)) == Half(i, m) * Sgn(Low(i, m), j)
  {
    var p := Pow2(m);
    var l := Low(i, m);
    hide CommonBits, Pow2;
    CommonBitsTop(l, j, m);
    if i >= p {
      assert i == l + p;
      assert CommonBits(i, j + p) == CommonBits(l, j) + 1;
    }
  }

  /** The four quadrants of the matrix with 2^(m+1) rows. */
  lemma {:induction false} HadamardQuadrants(m: nat, i: int)
    requires 0 <= i < Pow2(m + 1)
    ensures forall t {:trigger At(Hadamard(m), Low(i, m), t)} :: 0 <= t < Pow2(m) ==>
              && At(Hadamard(m + 1), i, t) == At(Hadamard(m), Low(i, m), t)
              && At(Hadamard(m + 1), i, Pow2(m) + t) == Half(i, m) * At(Hadamard(m), Low(i, m), t)
    ensures forall t {:trigger At(Hadamard(m), t, Low(i, m))} :: 0 <= t < Pow2(m) ==>
              && At(Hadamard(m + 1), t, i) == At(Hadamard(m), t, Low(i, m))
              && At(Hadamard(m + 1), Pow2(m) + t, i) == Half(i, m) * At(Hadamard(m), t, Low(i, m))
  {
    hide *;
    forall t | 0 <= t < Pow2(m)
      ensures At(Hadamard(m + 1), i, t) == At(Hadamard(m), Low(i, m), t)
      ensures At(Hadamard(m + 1), t, i) == At(Hadamard(m), t, Low(i, m))
      ensures At(Hadamard(m + 1), i, Pow2(m) + t) == Half(i, m) * At(Hadamard(m), Low(i, m), t)
      ensures At(Hadamard(m + 1), Pow2(m) + t, i) == Half(i, m) * At(Hadamard(m), t, Low(i, m))
    {
      QuadrantsAt(m, i, t);
    }
  }

  lemma {:induction false} QuadrantsAt(m: nat, i: int, t: int)
    requires 0 <= i < Pow2(m + 1) && 0 <= t < Pow2(m)
    ensures At(Hadamard(m + 1), i, t) == At(Hadamard(m), Low(i, m), t)
    ensures At(Hadamard(m + 1), t, i) == At(Hadamard(m), t, Low(i, m))
    ensures At(Hadamard(m + 1), i, Pow2(m) + t) == Half(i, m) * At(Hadamard(m), Low(i, m), t)
    ensures At(Hadamard(m + 1), Pow2(m) + t, i) == Half(i, m) * At(Hadamard(m), t, Low(i, m))
  {
    hide Sgn, Half, CommonBits;
    SgnTop(i, t, m);
  }

  /** An inner product over two halves, where each operand's upper half is a
      multiple of another, shorter operand. */
  lemma {:induction false} BlockDot(h: Mat, lo: Mat, m: Mat, ma: Mat, mb: Mat, n: nat,
                                    i: int, i': int, x: real, k: int, k': int, y: real)
    requires forall t {:trigger At(lo, i', t)} :: 0 <= t < n ==> At(h, i, t) == At(lo, i', t)
    requires forall t {:trigger At(lo, i', t)} :: 0 <= t < n ==> At(h, i, n + t) == x * At(lo, i', t)
    requires forall t {:trigger At(ma, t, k')} :: 0 <= t < n ==> At(m, t, k) == At(ma, t, k')
    requires forall t {:trigger At(mb, t, k')} :: 0 <= t < n ==> At(m, n + t, k) == y * At(mb, t, k')
    ensures Dot(h, m, 2 * n, i, k) == Dot(lo, ma, n, i', k') + (x * y) * Dot(lo, mb, n, i', k')
  {
    hide Term, At;
    var upper := (t: int) => Term(h, m, i, k)(n + t);
    SumSplit(n, n, Term(h, m, i, k), upper);
    forall t | 0 <= t < n
      ensures upper(t) == (x * y) * Term(lo, mb, i', k')(t)
    {
      UpperTerm(h, lo, m, mb, n, i, i', x, k, k', y, t);
    }
    LowerHalf(h, lo, m, ma, n, i, i', k, k');
    SumScale(n, x * y, Term(lo, mb, i', k'), upper);
  }

  lemma {:induction false} LowerHalf(h: Mat, lo: Mat, m: Mat, ma: Mat, n: nat, i: int, i': int, k: int, k': int)
    requires forall t {:trigger At(lo, i', t)} :: 0 <= t < n ==> At(h, i, t) == At(lo, i', t)
    requires forall t {:trigger At(ma, t, k')} :: 0 <= t < n ==> At(m, t, k) == At(ma, t, k')
    ensures Sum(n, Term(h, m, i, k)) == Dot(lo, ma, n, i', k')
  {
    SumCong(n, Term(h, m, i, k), Term(lo, ma, i', k'));
  }

  lemma {:induction false} UpperTerm(h: Mat, lo: Mat, m: Mat, mb: Mat, n: nat,
                                     i: int, i': int, x: real, k: int, k': int, y: real, t: int)
    requires At(h, i, n + t) == x * At(lo, i', t)
    requires At(m, n + t, k) == y * At(mb, t, k')
    ensures Term(h, m, i, k)(n + t) == (x * y) * Term(lo, mb, i', k')(t)
  {
    var a, b := At(lo, i', t), At(mb, t, k');
    RegroupSigns(x, a, y, b);
    calc {
      Term(h, m, i, k)(n + t);
      (x * a) * (y * b);
      (x * y) * (a * b);
    }
  }

  lemma {:induction false} RegroupSigns(x: real, a: real, y: real, b: real)
    ensures (x * a) * (y * b) == (x * y) * (a * b)
  {
  }

  lemma {:induction false} HalvesAddUp(m: nat, i: int, j: int, s: real)
    requires 0 <= i < Pow2(m + 1) && 0 <= j < Pow2(m + 1)
    requires s == Pow2(m) as real * Delta(Low(i, m), Low(j, m))
    ensures s + (Half(i, m) * Half(j, m)) * s == Pow2(m + 1) as real * Delta(i, j)
  {
    if i == j {
      assert Half(i, m) * Half(j, m) == 1.0;
    } else if Low(i, m) == Low(j, m) {
      assert Half(i, m) * Half(j, m) == -1.0;
    } else {
      assert s == 0.0;
    }
  }

  lemma {:induction false} HadamardOne()
    ensures Dot(Hadamard(0), Hadamard(0), Pow2(0), 0, 0) == Pow2(0) as real * Delta(0, 0)
  {
    SumOnly(1, 0, Term(Hadamard(0), Hadamard(0), 0, 0));
  }

  /** Rows of the Walsh-Hadamard matrix are orthogonal. */
  lemma {:induction false} HadamardDot(m: nat, i: int, j: int)
    requires 0 <= i < Pow2(m) && 0 <= j < Pow2(m)
    ensures Dot(Hadamard(m), Hadamard(m), Pow2(m), i, j) == Pow2(m) as real * Delta(i, j)
  {
    hide Sgn, Half, Term, At, Dot, Delta, Low;
    if m == 0 {
      HadamardOne();
    } else {
      HadamardDot(m - 1, Low(i, m - 1), Low(j, m - 1));
      HadamardStep(m - 1, i, j);
      HalvesAddUp(m - 1, i, j, Dot(Hadamard(m - 1), Hadamard(m - 1), Pow2(m - 1), Low(i, m - 1), Low(j, m - 1)));
    }
  }

  lemma {:induction false} HadamardStep(m: nat, i: int, j: int)
    requires 0 <= i < Pow2(m + 1) && 0 <= j < Pow2(m + 1)
    ensures var s := Dot(Hadamard(m), Hadamard(m), Pow2(m), Low(i, m), Low(j, m));
            Dot(Hadamard(m + 1), Hadamard(m + 1), Pow2(m + 1), i, j) == s + (Half(i, m) * Half(j, m)) * s
  {
    hide Sgn, Half, Dot, Term, At, Delta, Low, Hadamard, WalshMatrix;
    HadamardQuadrants(m, i);
    HadamardQuadrants(m, j);
    BlockDot(Hadamard(m + 1), Hadamard(m), Hadamard(m + 1), Hadamard(m), Hadamard(m), Pow2(m),
             i, Low(i, m), Half(i, m), j, Low(j, m), Half(j, m));
  }

  /** The Walsh-Hadamard matrix is a mask kernel with gain 2^m. */
  lemma {:induction false} HadamardKernel(m: nat)
    ensures IsKernel(Hadamard(m), Pow2(m), Pow2(m) as real)
  {
    HadamardSymmetric(m);
    HadamardSquare(m);
    hide Hadamard, Mul, Transpose, Scale, Identity, Pow2;
  }

  lemma {:induction false} HadamardSymmetric(m: nat)
    ensures Transpose(Hadamard(m), Pow2(m), Pow2(m)) == Hadamard(m)
  {
    var n, h := Pow2(m), Hadamard(m);
    forall i, j | 0 <= i < n && 0 <= j < n
      ensures At(h, j, i) == At(h, i, j)
    {
      CommonBitsSymmetric(i, j);
    }
    hide Pow2, Hadamard, Transpose;
    MatExt(Transpose(h, n, n), h, n, n);
  }

  lemma {:induction false} HadamardSquare(m: nat)
    ensures Mul(Hadamard(m), Hadamard(m), Pow2(m), Pow2(m))
         == Scale(Identity(Pow2(m)), Pow2(m), Pow2(m), Pow2(m) as real)
  {
    var n, h := Pow2(m), Hadamard(m);
    hide Dot, Pow2, Hadamard, Mul, Identity, Scale, Delta, At;
    forall i, j | 0 <= i < n && 0 <= j < n
      ensures At(Mul(h, h, n, n), i, j) == At(Scale(Identity(n), n, n, n as real), i, j)
    {
      HadamardDot(m, i, j);
    }
    MatExt(Mul(h, h, n, n), Scale(Identity(n), n, n, n as real), n, n);
  }

  /** One butterfly level over two equal halves: sums below, differences above. */
  function Combine(a: seq<real>, b: seq<real>): (r: seq<real>)
    requires |a| == |b|
    ensures |r| == 2 * |a|
    ensures forall q :: 0 <= q < |a| ==> r[q] == a[q] + b[q]
    ensures forall q :: |a| <= q < 2 * |a| ==> r[q] == a[q - |a|] - b[q - |a|]
  {
    seq(|a|, q requires 0 <= q < |a| => a[q] + b[q]) + seq(|a|, q requires 0 <= q < |a| => a[q] - b[q])
  }

  /** The fast transform over `m` levels, by halves. */
  function Wht(s: seq<real>, m: nat): (r: seq<real>)
    ensures |r| == |s|
  {
    if m == 0 || |s| % 2 == 1 then s
    else Combine(Wht(s[..|s| / 2], m - 1), Wht(s[|s| / 2..], m - 1))
  }

  /** The fast transform computes the Walsh-Hadamard product. */
  lemma {:induction false} WhtIsHadamard(s: seq<real>, m: nat, d: nat)
    requires |s| == Pow2(m) * d
    ensures Rows(Wht(s, m), Pow2(m), d) == Mul(Hadamard(m), Rows(s, Pow2(m), d), Pow2(m), d)
    decreases m, 1
  {
    var n := Pow2(m);
    var x := Rows(s, n, d);
    var h := Hadamard(m);
    forall i, k | 0 <= i < n && 0 <= k < d
      ensures Entry(Wht(s, m), i * d + k) == Dot(h, x, n, i, k)
    {
      if m == 0 {
        SumOnly(1, 0, Term(h, x, i, k));
      } else {
        WhtEntry(s, m, d, i, k);
      }
    }
    MatExt(Rows(Wht(s, m), n, d), Mul(h, x, n, d), n, d);
  }

  lemma {:induction false} WhtEntry(s: seq<real>, m: nat, d: nat, i: int, k: int)
    requires m > 0 && |s| == Pow2(m) * d && 0 <= i < Pow2(m) && 0 <= k < d
    ensures Entry(Wht(s, m), i * d + k) == Dot(Hadamard(m), Rows(s, Pow2(m), d), Pow2(m), i, k)
    decreases m, 0
  {
    hide Sgn, Half, Dot, Term, At, Low, Entry, Combine, Rows, Hadamard, WalshMatrix;
    var n := Pow2(m - 1);
    var half := n * d;
    assert |s| == 2 * half by {
      hide *;
      TwoHalves(n, d, |s|);
    }
    var i' := Low(i, m - 1);
    WhtHalf(s[..half], m - 1, d, i', k);
    WhtHalf(s[half..], m - 1, d, i', k);
    CombineEntry(Wht(s[..half], m - 1), Wht(s[half..], m - 1), m - 1, d, i, k);
    HadamardRows(m - 1, s, d, i, k);
  }

  lemma {:induction false} TwoHalves(n: nat, d: nat, size: nat)
    requires size == (2 * n) * d
    ensures size == 2 * (n * d)
  {
  }

  lemma {:induction false} WhtHalf(s: seq<real>, m: nat, d: nat, i: int, k: int)
    requires |s| == Pow2(m) * d && 0 <= i < Pow2(m) && 0 <= k < d
    ensures Entry(Wht(s, m), i * d + k) == Dot(Hadamard(m), Rows(s, Pow2(m), d), Pow2(m), i, k)
    decreases m, 2
  {
    WhtIsHadamard(s, m, d);
    assert Entry(Wht(s, m), i * d + k) == At(Rows(Wht(s, m), Pow2(m), d), i, k);
  }

  /** The top and bottom halves of a buffer as the top and bottom rows of its matrix. */
  lemma {:induction false} RowHalves(s: seq<real>, n: nat, d: nat, k: int)
    requires |s| == 2 * (n * d) && 0 <= k < d
    ensures forall t {:trigger At(Rows(s[..n * d], n, d), t, k)} :: 0 <= t < n ==>
              At(Rows(s, 2 * n, d), t, k) == At(Rows(s[..n * d], n, d), t, k)
    ensures forall t {:trigger At(Rows(s[n * d..], n, d), t, k)} :: 0 <= t < n ==>
              At(Rows(s, 2 * n, d), n + t, k) == 1.0 * At(Rows(s[n * d..], n, d), t, k)
  {
    forall t | 0 <= t < n
      ensures At(Rows(s, 2 * n, d), t, k) == At(Rows(s[..n * d], n, d), t, k)
      ensures At(Rows(s, 2 * n, d), n + t, k) == At(Rows(s[n * d..], n, d), t, k)
    {
      FlatBound(t, k, n, d);
      assert (n + t) * d + k == n * d + (t * d + k);
    }
  }

  lemma {:induction false} HadamardRows(m: nat, s: seq<real>, d: nat, i: int, k: int)
    requires |s| == 2 * (Pow2(m) * d) && 0 <= i < Pow2(m + 1) && 0 <= k < d
    ensures Dot(Hadamard(m + 1), Rows(s, Pow2(m + 1), d), Pow2(m + 1), i, k)
         == Dot(Hadamard(m), Rows(s[..Pow2(m) * d], Pow2(m), d), Pow2(m), Low(i, m), k)
          + Half(i, m) * Dot(Hadamard(m), Rows(s[Pow2(m) * d..], Pow2(m), d), Pow2(m), Low(i, m), k)
  {
    hide Sgn, Half, Dot, Term, At, Low, Entry;
    var half := Pow2(m) * d;
    HadamardQuadrants(m, i);
    RowHalves(s, Pow2(m), d, k);
    BlockDot(Hadamard(m + 1), Hadamard(m), Rows(s, Pow2(m + 1), d), Rows(s[..half], Pow2(m), d),
             Rows(s[half..], Pow2(m), d), Pow2(m), i, Low(i, m), Half(i, m), k, k, 1.0);
  }

  lemma {:induction false} CombineEntry(a: seq<real>, b: seq<real>, m: nat, d: nat, i: int, k: int)
    requires |a| == |b| == Pow2(m) * d && 0 <= i < Pow2(m + 1) && 0 <= k < d
    ensures Entry(Combine(a, b), i * d + k)
         == Entry(a, Low(i, m) * d + k) + Half(i, m) * Entry(b, Low(i, m) * d + k)
  {
    FlatBound(Low(i, m), k, Pow2(m), d);
    if i >= Pow2(m) {
      assert i * d + k == |a| + (Low(i, m) * d + k);
    }
  }
}
