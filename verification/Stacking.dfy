/** Row buffers of the trusted side: stacking shield rows under the data, masking a
    block of rows in place, and what a masked product contains. */
module Stacking {
  import opened Sums
  import opened LinAlg
  import opened Blocks
  import opened Cascade
  import opened Walsh
  import opened Haar
  import opened Masks
  import Hd3
  import Dct4

  // ─── shield amplitude ───

  function SquareTerm(row: seq<real>): int -> real {
    j => Entry(row, j) * Entry(row, j)
  }

  function RowNorm(row: seq<real>, sqrt: real -> real): real {
    sqrt(Sum(|row|, SquareTerm(row)))
  }

  function NormTerm(m: Mat, sqrt: real -> real): int -> real {
    i => if 0 <= i < |m| then RowNorm(m[i], sqrt) else 0.0
  }

  /** Average L2 norm of the rows, 0 for no rows. */
  function MeanNorm(m: Mat, sqrt: real -> real): real {
    if |m| == 0 then 0.0 else Sum(|m|, NormTerm(m, sqrt)) / (|m| as real)
  }

  method MeanRowNorm(m: Mat, sqrt: real -> real) returns (x: real)
    ensures x == MeanNorm(m, sqrt)
  {
    var n := |m|;
    if n == 0 {
      return 0.0;
    }
    var acc := 0.0;
    for i := 0 to n
      invariant acc == Sum(i, NormTerm(m, sqrt))
    {
      var squares := 0.0;
      for j := 0 to |m[i]|
        invariant squares == Sum(j, SquareTerm(m[i]))
      {
        squares := squares + m[i][j] * m[i][j];
      }
      acc := acc + sqrt(squares);
    }
    x := acc / (n as real);
  }

  /** Per-component deviation of a shield row. */
  function Sigma(mean: real, d: nat, scale: real, sqrt: real -> real): real
    requires IsSqrt(sqrt)
  {
    if d == 0 then 0.0
    else
      RootPositive(d as real, sqrt);
      scale * mean / sqrt(d as real)
  }

  lemma {:induction false} RootPositive(x: real, sqrt: real -> real)
    requires x > 0.0 && IsSqrt(sqrt)
    ensures sqrt(x) != 0.0
  {
  }

  lemma {:induction false} SigmaSquared(mean: real, d: nat, scale: real, sqrt: real -> real)
    requires IsSqrt(sqrt) && d > 0
    ensures (d as real) * (Sigma(mean, d, scale, sqrt) * Sigma(mean, d, scale, sqrt))
         == (scale * mean) * (scale * mean)
  {
    var x, n := d as real, scale * mean;
    RootPositive(x, sqrt);
    var root := sqrt(x);
    var s := n / root;
    assert s * root == n && root * root == x;
    assert x * (s * s) == (s * root) * (s * root);
  }

  /** Rows of one norm have that norm on average. */
  lemma {:induction false} MeanOfEqual(m: Mat, sqrt: real -> real, r: real)
    requires |m| > 0 && forall i :: 0 <= i < |m| ==> RowNorm(m[i], sqrt) == r
    ensures MeanNorm(m, sqrt) == r
  {
    var n := |m| as real;
    ConstantSum(|m|, NormTerm(m, sqrt), r);
    assert n * r / n == r;
  }

  lemma {:induction false} ConstantSum(n: nat, f: int -> real, r: real)
    requires forall i :: 0 <= i < n ==> f(i) == r
    ensures Sum(n, f) == n as real * r
  {
    if n > 0 {
      ConstantSum(n - 1, f, r);
    }
  }

  // ─── the stacked operand ───

  function ShieldRow(d: nat, sigma: real, z: (int, int) -> real, i: int): (r: seq<real>)
    ensures |r| == d
  {
    seq(d, j => sigma * z(i, j))
  }

  function ZeroRow(d: nat): (r: seq<real>)
    ensures |r| == d
  {
    seq(d, j => 0.0)
  }

  function StackedRow(data: Mat, k: nat, d: nat, sigma: real, z: (int, int) -> real, i: nat): seq<real> {
    if i < |data| then data[i]
    else if i < |data| + k then ShieldRow(d, sigma, z, i - |data|)
    else ZeroRow(d)
  }

  /** Data rows, `k` shield rows, zero rows up to `s`. */
  function Stacked(data: Mat, k: nat, s: nat, d: nat, sigma: real, z: (int, int) -> real): (m: Mat)
    ensures |m| == s
    ensures forall i {:trigger m[i]} | 0 <= i < s :: m[i] == StackedRow(data, k, d, sigma, z, i)
  {
    seq(s, i requires 0 <= i < s => StackedRow(data, k, d, sigma, z, i))
  }

  lemma {:induction false} StackedShape(data: Mat, n: nat, k: nat, s: nat, d: nat, sigma: real, z: (int, int) -> real)
    requires IsMat(data, n, d) && n <= s
    ensures IsMat(Stacked(data, k, s, d, sigma, z), s, d)
    ensures Stacked(data, k, s, d, sigma, z)[..n] == data
  {
  }

  /** Entry by entry: the data, then `sigma` times a draw of its own for every shield entry, then zeros. */
  lemma {:induction false} StackedEntries(data: Mat, n: nat, k: nat, s: nat, d: nat, sigma: real,
                                          z: (int, int) -> real, i: nat, j: nat)
    requires IsMat(data, n, d) && n + k <= s && i < s && j < d
    ensures At(Stacked(data, k, s, d, sigma, z), i, j)
         == if i < n then At(data, i, j) else if i < n + k then sigma * z(i - n, j) else 0.0
  {
    assert Stacked(data, k, s, d, sigma, z)[i] == StackedRow(data, k, d, sigma, z, i);
  }

  /** A masked stack, under its mask. */
  lemma {:induction false} StackHeld(mask: MaskFamily, data: Mat, n: nat, k: nat, d: nat, sigma: real,
                                     z: (int, int) -> real)
    requires ValidFamily(mask) && IsMat(data, n, d) && n + k <= Side(mask)
    ensures Holds(FamilyUnapply(mask, FamilyApply(mask, Stacked(data, k, Side(mask), d, sigma, z), d), d), data, n, k,
                  Side(mask), d, sigma, z)
  {
    hide *;
    var x := Stacked(data, k, Side(mask), d, sigma, z);
    StackedShape(data, n, k, Side(mask), d, sigma, z);
    StackHolds(data, n, k, Side(mask), d, sigma, z);
    FamilyInverse(mask, x, d);
  }

  /** `n` rows of data, `k` rows of draws times `sigma`, zeros. */
  ghost predicate Holds(y: Mat, data: Mat, n: nat, k: nat, s: nat, d: nat, sigma: real, z: (int, int) -> real) {
    && IsMat(y, s, d)
    && forall i: nat, j: nat {:trigger At(y, i, j)} | i < s && j < d ::
         At(y, i, j) == if i < n then At(data, i, j) else if i < n + k then sigma * z(i - n, j) else 0.0
  }

  lemma {:induction false} StackHolds(data: Mat, n: nat, k: nat, s: nat, d: nat, sigma: real, z: (int, int) -> real)
    requires IsMat(data, n, d) && n + k <= s
    ensures Holds(Stacked(data, k, s, d, sigma, z), data, n, k, s, d, sigma, z)
  {
    StackedShape(data, n, k, s, d, sigma, z);
    hide Stacked;
    forall i: nat, j: nat | i < s && j < d
      ensures At(Stacked(data, k, s, d, sigma, z), i, j)
           == if i < n then At(data, i, j) else if i < n + k then sigma * z(i - n, j) else 0.0
    {
      StackedEntries(data, n, k, s, d, sigma, z, i, j);
    }
  }

  /** A shield row whose draws have mean square 1 is as long as the mean data row, times the scale. */
  lemma {:induction false} ShieldNorm(mean: real, d: nat, scale: real, sqrt: real -> real, z: (int, int) -> real,
                                      i: int, draws: int -> real)
    requires IsSqrt(sqrt) && d > 0 && scale * mean >= 0.0
    requires forall j {:trigger draws(j)} :: draws(j) == z(i, j) * z(i, j)
    requires Sum(d, draws) == d as real
    ensures RowNorm(ShieldRow(d, Sigma(mean, d, scale, sqrt), z, i), sqrt) == scale * mean
  {
    var s := Sigma(mean, d, scale, sqrt);
    hide *;
    ShieldSquares(d, s, z, i, draws);
    SigmaSquared(mean, d, scale, sqrt);
    NormIs(ShieldRow(d, s, z, i), sqrt, scale * mean);
  }

  lemma {:induction false} ShieldSquares(d: nat, s: real, z: (int, int) -> real, i: int, draws: int -> real)
    requires forall j {:trigger draws(j)} :: draws(j) == z(i, j) * z(i, j)
    ensures |ShieldRow(d, s, z, i)| == d
    ensures Sum(d, SquareTerm(ShieldRow(d, s, z, i))) == (s * s) * Sum(d, draws)
  {
    var row := ShieldRow(d, s, z, i);
    forall j | 0 <= j < d
      ensures SquareTerm(row)(j) == (s * s) * draws(j)
    {
      assert row[j] == s * z(i, j);
      SquareOfProduct(s, z(i, j));
    }
    hide *;
    SumScale(d, s * s, draws, SquareTerm(row));
  }

  lemma {:induction false} SquareOfProduct(x: real, y: real)
    ensures (x * y) * (x * y) == (x * x) * (y * y)
  {
  }

  lemma {:induction false} NormIs(row: seq<real>, sqrt: real -> real, y: real)
    requires IsSqrt(sqrt) && y >= 0.0 && Sum(|row|, SquareTerm(row)) == y * y
    ensures RowNorm(row, sqrt) == y
  {
    RootOfSquare(sqrt, Sum(|row|, SquareTerm(row)), y);
  }

  lemma {:induction false} RootOfSquare(sqrt: real -> real, x: real, y: real)
    requires IsSqrt(sqrt) && y >= 0.0 && x == y * y
    ensures sqrt(x) == y
  {
    SquareNonneg(y);
    var r := sqrt(x);
    if r < y {
      SmallerSquare(r, y);
    } else if y < r {
      SmallerSquare(y, r);
    }
  }

  /** Fills `s` rows of a buffer, whatever it held before. */
  method FillBlock(buf: array<seq<real>>, base: nat, data: Mat, k: nat, s: nat, d: nat, sigma: real,
                   z: (int, int) -> real)
    requires base + s <= buf.Length && |data| + k <= s
    modifies buf
    ensures buf[base..base + s] == Stacked(data, k, s, d, sigma, z)
    ensures buf[..base] == old(buf[..base]) && buf[base + s..] == old(buf[base + s..])
  {
    var n := |data|;
    hide ShieldRow, ZeroRow;
    for i := 0 to n
      invariant forall r {:trigger buf[r]} | 0 <= r < buf.Length :: r < base || base + i <= r ==> buf[r] == old(buf[r])
      invariant forall r {:trigger buf[r]} | base <= r < base + i ::
                  buf[r] == StackedRow(data, k, d, sigma, z, r - base)
    {
      buf[base + i] := data[i];
    }
    for i := n to n + k
      invariant forall r {:trigger buf[r]} | 0 <= r < buf.Length :: r < base || base + i <= r ==> buf[r] == old(buf[r])
      invariant forall r {:trigger buf[r]} | base <= r < base + i ::
                  buf[r] == StackedRow(data, k, d, sigma, z, r - base)
    {
      buf[base + i] := ShieldRow(d, sigma, z, i - n);
    }
    for i := n + k to s
      invariant forall r {:trigger buf[r]} | 0 <= r < buf.Length :: r < base || base + i <= r ==> buf[r] == old(buf[r])
      invariant forall r {:trigger buf[r]} | base <= r < base + i ::
                  buf[r] == StackedRow(data, k, d, sigma, z, r - base)
    {
      buf[base + i] := ZeroRow(d);
    }
    SliceIs(buf[..], base, s, Stacked(data, k, s, d, sigma, z));
  }

  lemma {:induction false} SliceIs(rows: Mat, base: nat, s: nat, m: Mat)
    requires base + s <= |rows| && |m| == s
    requires forall r {:trigger rows[r]} | base <= r < base + s :: rows[r] == m[r - base]
    ensures rows[base..base + s] == m
  {
    var x := rows[base..base + s];
    forall i | 0 <= i < s
      ensures x[i] == m[i]
    {
      assert x[i] == rows[base + i];
    }
  }

  // ─── masking a block ───

  /** A matrix laid out row by row. */
  method Flatten(m: Mat, n: nat, d: nat) returns (flat: array<real>)
    requires IsMat(m, n, d)
    ensures fresh(flat) && flat.Length == n * d
    ensures Rows(flat[..], n, d) == m
  {
    flat := new real[n * d](q => if d == 0 then 0.0 else At(m, q / d, q % d));
    forall i, k | 0 <= i < n && 0 <= k < d
      ensures Entry(flat[..], i * d + k) == At(m, i, k)
    {
      FlatBound(i, k, n, d);
      Quotient(i, k, d);
    }
    MatExt(Rows(flat[..], n, d), m, n, d);
  }

  lemma {:induction false} Quotient(i: int, k: int, d: int)
    requires 0 <= k < d
    ensures (i * d + k) / d == i && (i * d + k) % d == k
  {
    var q := i * d + k;
    var t, r := q / d, q % d;
    assert q == t * d + r;
    assert (i - t) * d == r - k;
    NoMultiple(i - t, d);
  }

  /** Zero is the only multiple of `d` strictly between `-d` and `d`. */
  lemma {:induction false} NoMultiple(e: int, d: int)
    requires -d < e * d < d
    ensures e == 0
  {
  }

  /** `Aᵀ` when `inverse`, else `A`. */
  ghost function Masked(mask: MaskFamily, x: Mat, p: nat, inverse: bool): Mat
    requires ValidFamily(mask)
  {
    if inverse then FamilyUnapply(mask, x, p) else FamilyApply(mask, x, p)
  }

  /** Dense masks multiply into a fresh matrix; the structured ones run in place. */
  method MaskRows(mask: MaskFamily, x: Mat, d: nat, inverse: bool) returns (y: Mat)
    requires ValidFamily(mask) && IsMat(x, Side(mask), d)
    ensures y == Masked(mask, x, d, inverse) && IsMat(y, Side(mask), d)
  {
    hide Rows, Mul, Apply, Unapply, WalshMatrix;
    match mask
    case Dense(n, a) =>
      y := if inverse then Mul(Transpose(a, n, n), x, n, d) else Mul(a, x, n, d);
    case Structured(m) =>
      var flat := Flatten(x, m.n, d);
      if inverse {
        Hd3.UnapplyInPlaceSlice(m, flat, d);
      } else {
        Hd3.ApplyInPlaceSlice(m, flat, d);
      }
      y := Rows(flat[..], m.n, d);
    case Cosine(m) =>
      var flat := Flatten(x, m.n, d);
      var scratch := new real[0];
      var order := InOrder(Dct4.TileCount(d));
      if inverse {
        Dct4.UnapplyInPlaceSlice(m, flat, d, scratch, order);
      } else {
        Dct4.ApplyInPlaceSlice(m, flat, d, scratch, order);
      }
      y := Rows(flat[..], m.n, d);
  }

  function InOrder(n: nat): (p: seq<nat>)
    ensures IsPerm(p, n)
  {
    seq(n, i requires 0 <= i < n => i)
  }

  method WriteRows(buf: array<seq<real>>, base: nat, y: Mat)
    requires base + |y| <= buf.Length
    modifies buf
    ensures buf[base..base + |y|] == y
    ensures buf[..base] == old(buf[..base]) && buf[base + |y|..] == old(buf[base + |y|..])
  {
    for i := 0 to |y|
      invariant forall r {:trigger buf[r]} | 0 <= r < buf.Length :: r < base || base + i <= r ==> buf[r] == old(buf[r])
      invariant forall r {:trigger buf[r]} | base <= r < base + i :: buf[r] == y[r - base]
    {
      buf[base + i] := y[i];
    }
    SliceIs(buf[..], base, |y|, y);
  }

  /** Masks `Side(mask)` rows of a buffer in place. */
  method MaskBlock(buf: array<seq<real>>, base: nat, mask: MaskFamily, d: nat, inverse: bool)
    requires ValidFamily(mask) && base + Side(mask) <= buf.Length
    requires IsMat(buf[base..base + Side(mask)], Side(mask), d)
    modifies buf
    ensures buf[base..base + Side(mask)] == Masked(mask, old(buf[base..base + Side(mask)]), d, inverse)
    ensures buf[..base] == old(buf[..base]) && buf[base + Side(mask)..] == old(buf[base + Side(mask)..])
  {
    hide FamilyApply, FamilyUnapply, Side;
    var y := MaskRows(mask, buf[base..base + Side(mask)], d, inverse);
    WriteRows(buf, base, y);
  }

  // ─── what comes back ───

  lemma {:induction false} MulSlice(a: Mat, b: Mat, k: nat, p: nat, lo: nat, hi: nat)
    requires lo <= hi <= |a|
    ensures Mul(a, b, k, p)[lo..hi] == Mul(a[lo..hi], b, k, p)
  {
    var part, whole := a[lo..hi], Mul(a, b, k, p);
    forall i, j | 0 <= i < hi - lo && 0 <= j < p
      ensures At(whole[lo..hi], i, j) == At(Mul(part, b, k, p), i, j)
    {
      assert At(whole[lo..hi], i, j) == At(whole, lo + i, j);
      SumCong(k, Term(a, b, lo + i, j), Term(part, b, i, j));
    }
    MatExt(whole[lo..hi], Mul(part, b, k, p), hi - lo, p);
  }

  /** Unmask the product of a masked stack, keep the data rows: the plain product. */
  lemma {:induction false} StackRecovered(mask: MaskFamily, data: Mat, n: nat, k: nat, d: nat, sigma: real,
                                          z: (int, int) -> real, w: Mat, p: nat)
    requires ValidFamily(mask) && IsMat(data, n, d) && IsMat(w, d, p) && n <= Side(mask)
    ensures var stack := Stacked(data, k, Side(mask), d, sigma, z);
            var back := FamilyUnapply(mask, Mul(FamilyApply(mask, stack, d), w, d, p), p);
            IsMat(back, Side(mask), p) && back[..n] == Mul(data, w, d, p)
  {
    var stack := Stacked(data, k, Side(mask), d, sigma, z);
    StackedShape(data, n, k, Side(mask), d, sigma, z);
    FamilyRoundTrip(mask, stack, w, d, p);
    MulTopRows(stack, w, d, p, n);
  }
}
