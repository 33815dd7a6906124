/** The HD₃ mask: three in-place Walsh-Hadamard transforms with a ±1 diagonal
    after each, over a row-major buffer. */
module Hd3 {
  import opened LinAlg
  import opened Cascade
  import opened Walsh
  import opened Blocks
  import opened Fwht

  function Times(s: seq<real>, x: real): (r: seq<real>)
    ensures |r| == |s|
    ensures forall q :: 0 <= q < |s| ==> r[q] == s[q] * x
  {
    seq(|s|, q requires 0 <= q < |s| => s[q] * x)
  }

  /** The multiplier of row `i`. */
  function Factor(diag: seq<real>, i: int, x: real): real {
    Entry(diag, i) * x
  }

  function DiagMap(diag: seq<real>, x: real): (nat, seq<real>) -> seq<real> {
    (i, row) => Times(row, Factor(diag, i, x))
  }

  lemma {:induction false} RowsScaledIsScaleRows(was: seq<real>, now: seq<real>, diag: seq<real>, x: real, cols: nat)
    requires Mapped(was, now, DiagMap(diag, x), cols, |diag|, |diag|)
    ensures Rows(now, |diag|, cols) == ScaleRows(diag, x, Rows(was, |diag|, cols), |diag|, cols)
  {
    hide Rows, Block, Offset, Times;
    var n := |diag|;
    forall i, k | 0 <= i < n && 0 <= k < cols
      ensures At(Rows(now, n, cols), i, k) == Entry(diag, i) * x * At(Rows(was, n, cols), i, k)
    {
      RowEntry(now, n, cols, i, k);
      RowEntry(was, n, cols, i, k);
      assert Block(now, i, cols)[k] == Block(was, i, cols)[k] * Factor(diag, i, x);
    }
    MatExt(Rows(now, n, cols), ScaleRows(diag, x, Rows(was, n, cols), n, cols), n, cols);
  }

  lemma {:induction false} TimesStretch(was: seq<real>, now: seq<real>, off: nat, cols: nat, x: real)
    requires |was| == |now| && off + cols <= |was|
    requires forall p {:trigger now[p]} | off <= p < off + cols :: now[p] == was[p] * x
    ensures now[off..off + cols] == Times(was[off..off + cols], x)
  {
    var a, b := now[off..off + cols], Times(was[off..off + cols], x);
    forall q | 0 <= q < cols
      ensures a[q] == b[q]
    {
      assert now[off + q] == was[off + q] * x;
    }
  }

  /** `buf[off..off+cols] *= x` */
  method ScaleRow(buf: array<real>, off: nat, cols: nat, x: real)
    requires off + cols <= buf.Length
    modifies buf
    ensures buf[off..off + cols] == Times(old(buf[off..off + cols]), x)
    ensures buf[..off] == old(buf[..off]) && buf[off + cols..] == old(buf[off + cols..])
  {
    for k := 0 to cols
      invariant forall p {:trigger buf[p]} | 0 <= p < buf.Length ::
                  buf[p] == if off <= p < off + k then old(buf[p]) * x else old(buf[p])
    {
      buf[off + k] := buf[off + k] * x;
    }
    TimesStretch(old(buf[..]), buf[..], off, cols, x);
  }

  method NegateRow(buf: array<real>, off: nat, cols: nat)
    requires off + cols <= buf.Length
    modifies buf
    ensures buf[off..off + cols] == Times(old(buf[off..off + cols]), -1.0)
    ensures buf[..off] == old(buf[..off]) && buf[off + cols..] == old(buf[off + cols..])
  {
    for k := 0 to cols
      invariant forall p {:trigger buf[p]} | 0 <= p < buf.Length ::
                  buf[p] == if off <= p < off + k then -old(buf[p]) else old(buf[p])
    {
      buf[off + k] := -buf[off + k];
    }
    TimesStretch(old(buf[..]), buf[..], off, cols, -1.0);
  }

  /** ±1 diagonal: rows with a negative sign are negated, the others are left alone. */
  method ApplyDiagInplaceSlice(buf: array<real>, diag: seq<real>, cols: nat)
    requires IsSigns(diag, |diag|) && buf.Length == Offset(|diag|, cols)
    modifies buf
    ensures Rows(buf[..], |diag|, cols) == ScaleRows(diag, 1.0, Rows(old(buf[..]), |diag|, cols), |diag|, cols)
  {
    hide Offset, Times, Mapped, Rows, ScaleRows;
    ghost var was := buf[..];
    MappedStart(was, DiagMap(diag, 1.0), cols, |diag|);
    for i := 0 to |diag|
      invariant Mapped(was, buf[..], DiagMap(diag, 1.0), cols, i, |diag|)
    {
      ghost var mid := buf[..];
      OffsetMonotone(i, |diag|, cols);
      var off := Offset(i, cols);
      assert Factor(diag, i, 1.0) == diag[i];
      if diag[i] < 0.0 {
        NegateRow(buf, off, cols);
      } else {
        TimesOne(mid[off..off + cols]);
      }
      BlockIs(mid, i, cols);
      BlockIs(buf[..], i, cols);
      MappedStep(was, mid, buf[..], DiagMap(diag, 1.0), cols, i, |diag|);
    }
    RowsScaledIsScaleRows(was, buf[..], diag, 1.0, cols);
  }

  /** Diagonal times a scalar, one pass over every row. */
  method ApplyDiagScaledInplaceSlice(buf: array<real>, diag: seq<real>, cols: nat, factor: real)
    requires buf.Length == Offset(|diag|, cols)
    modifies buf
    ensures Rows(buf[..], |diag|, cols) == ScaleRows(diag, factor, Rows(old(buf[..]), |diag|, cols), |diag|, cols)
  {
    hide Offset, Times, Mapped, Rows, ScaleRows, Factor;
    ghost var was := buf[..];
    MappedStart(was, DiagMap(diag, factor), cols, |diag|);
    for i := 0 to |diag|
      invariant Mapped(was, buf[..], DiagMap(diag, factor), cols, i, |diag|)
    {
      ghost var mid := buf[..];
      OffsetMonotone(i, |diag|, cols);
      ScaleRow(buf, Offset(i, cols), cols, Factor(diag, i, factor));
      BlockIs(mid, i, cols);
      BlockIs(buf[..], i, cols);
      MappedStep(was, mid, buf[..], DiagMap(diag, factor), cols, i, |diag|);
    }
    RowsScaledIsScaleRows(was, buf[..], diag, factor, cols);
  }

  lemma {:induction false} TimesOne(s: seq<real>)
    ensures Times(s, 1.0) == s
  {
  }

  /** Side length and keys of one mask. */
  datatype Hd3Mask = Hd3Mask(n: nat, keys: Keys)

  ghost predicate ValidMask(mask: Hd3Mask) {
    IsPowerOfTwo(mask.n) && ValidKeys(mask.keys, mask.n, mask.n as real)
  }

  /** Sign `i` is bit `i mod 32` of word `i / 32`. */
  ghost predicate SignsOf(v: seq<real>, n: nat, draw: nat -> nat) {
    && IsSigns(v, n)
    && forall i :: 0 <= i < n ==> (v[i] == 1.0 <==> Bit(draw(i / 32), i % 32) == 1)
  }

  /** ±1 signs from packed random words, 32 per draw, least significant bit first. */
  method SampleDiag(n: nat, draw: nat -> nat) returns (out: seq<real>)
    ensures SignsOf(out, n, draw)
  {
    out := [];
    var i := 0;
    var word := 0;
    while i < n
      invariant |out| == i <= n && i == if i < n then 32 * word else i
      invariant forall k :: 0 <= k < i ==> out[k] == 1.0 || out[k] == -1.0
      invariant forall k :: 0 <= k < i ==> (out[k] == 1.0 <==> Bit(draw(k / 32), k % 32) == 1)
      decreases n - i
    {
      var bits := draw(word);
      var take := if n - i < 32 then n - i else 32;
      for t := 0 to take
        invariant |out| == i + t
        invariant bits == Shift(draw(word), t)
        invariant forall k :: 0 <= k < i + t ==> out[k] == 1.0 || out[k] == -1.0
        invariant forall k :: 0 <= k < i + t ==> (out[k] == 1.0 <==> Bit(draw(k / 32), k % 32) == 1)
      {
        assert (i + t) / 32 == word && (i + t) % 32 == t;
        out := out + [if bits % 2 == 0 then -1.0 else 1.0];
        bits := bits / 2;
        ShiftOnce(draw(word), t);
      }
      i := i + take;
      word := word + 1;
    }
  }

  function Shift(w: nat, t: nat): nat {
    if t == 0 then w else Shift(w / 2, t - 1)
  }

  function Bit(w: nat, t: nat): nat {
    Shift(w, t) % 2
  }

  lemma {:induction false} ShiftOnce(w: nat, t: nat)
    ensures Shift(w, t) / 2 == Shift(w, t + 1)
  {
    if t > 0 {
      ShiftOnce(w / 2, t - 1);
    }
  }

  // ─── signs and words ───

  /** The word whose low `t` bits stand for the signs from `at` on. */
  function WordOf(v: seq<real>, at: nat, t: nat): nat
    decreases t
  {
    if t == 0 then 0 else (if Entry(v, at) == 1.0 then 1 else 0) + 2 * WordOf(v, at + 1, t - 1)
  }

  /** The words, 32 signs each. */
  function WordsOf(v: seq<real>): nat -> nat {
    (w: nat) => WordOf(v, 32 * w, 32)
  }

  lemma {:induction false} WordBits(v: seq<real>, at: nat, t: nat, j: nat)
    requires j < t
    ensures Bit(WordOf(v, at, t), j) == if Entry(v, at + j) == 1.0 then 1 else 0
    decreases t
  {
    assert WordOf(v, at, t) / 2 == WordOf(v, at + 1, t - 1);
    if j > 0 {
      WordBits(v, at + 1, t - 1, j - 1);
    }
  }

  lemma {:induction false} WordBound(v: seq<real>, at: nat, t: nat)
    ensures WordOf(v, at, t) < Pow2(t)
    decreases t
  {
    if t > 0 {
      WordBound(v, at + 1, t - 1);
    }
  }

  lemma {:induction false} BitsDetermine(x: nat, y: nat, t: nat)
    requires x < Pow2(t) && y < Pow2(t) && forall j: nat | j < t :: Bit(x, j) == Bit(y, j)
    ensures x == y
  {
    if t > 0 {
      assert Bit(x, 0) == Bit(y, 0);
      forall j: nat | j < t - 1
        ensures Bit(x / 2, j) == Bit(y / 2, j)
      {
        assert Bit(x, j + 1) == Bit(y, j + 1);
      }
      BitsDetermine(x / 2, y / 2, t - 1);
    }
  }

  /** Every sign vector comes from some 32-bit words. */
  lemma {:induction false} SignsDrawn(v: seq<real>, n: nat)
    requires IsSigns(v, n)
    ensures SignsOf(v, n, WordsOf(v)) && forall w: nat {:trigger WordsOf(v)(w)} :: WordsOf(v)(w) < Pow2(32)
  {
    forall i: nat | i < n
      ensures v[i] == 1.0 <==> Bit(WordOf(v, 32 * (i / 32), 32), i % 32) == 1
    {
      WordBits(v, 32 * (i / 32), 32, i % 32);
    }
    forall w: nat
      ensures WordsOf(v)(w) < Pow2(32)
    {
      WordBound(v, 32 * w, 32);
    }
  }

  /** And, word by word, from no others: independent uniform words make every sign vector equally likely. */
  lemma {:induction false} WordsDetermined(v: seq<real>, n: nat, draw: nat -> nat, other: nat -> nat, w: nat)
    requires SignsOf(v, n, draw) && SignsOf(v, n, other) && 32 * w + 32 <= n
    requires draw(w) < Pow2(32) && other(w) < Pow2(32)
    ensures draw(w) == other(w)
  {
    forall j: nat | j < 32
      ensures Bit(draw(w), j) == Bit(other(w), j)
    {
      var i := 32 * w + j;
      assert i / 32 == w && i % 32 == j;
      assert (v[i] == 1.0 <==> Bit(draw(w), j) == 1) && (v[i] == 1.0 <==> Bit(other(w), j) == 1);
    }
    BitsDetermine(draw(w), other(w), 32);
  }

  /** `buf ← A · buf`: three transforms with a diagonal after each, in place. */
  method ApplyInPlaceSlice(mask: Hd3Mask, buf: array<real>, cols: nat)
    requires ValidMask(mask) && buf.Length == mask.n * cols
    modifies buf
    ensures Rows(buf[..], mask.n, cols)
         == Apply(WalshMatrix(mask.n), mask.keys, Rows(old(buf[..]), mask.n, cols), mask.n, cols)
  {
    hide Rows, ScaleRows, Mul, WalshMatrix;
    FwhtRowsInplaceSlice(buf, mask.n, cols);
    ApplyDiagInplaceSlice(buf, mask.keys.d1, cols);
    FwhtRowsInplaceSlice(buf, mask.n, cols);
    ApplyDiagInplaceSlice(buf, mask.keys.d2, cols);
    FwhtRowsInplaceSlice(buf, mask.n, cols);
    ApplyDiagScaledInplaceSlice(buf, mask.keys.d3, cols, mask.keys.norm);
  }

  /** `buf ← Aᵀ · buf`: the same factors in the opposite order, in place. */
  method UnapplyInPlaceSlice(mask: Hd3Mask, buf: array<real>, cols: nat)
    requires ValidMask(mask) && buf.Length == mask.n * cols
    modifies buf
    ensures Rows(buf[..], mask.n, cols)
         == Unapply(WalshMatrix(mask.n), mask.keys, Rows(old(buf[..]), mask.n, cols), mask.n, cols)
  {
    hide Rows, ScaleRows, Mul, WalshMatrix;
    ApplyDiagScaledInplaceSlice(buf, mask.keys.d3, cols, mask.keys.norm);
    FwhtRowsInplaceSlice(buf, mask.n, cols);
    ApplyDiagInplaceSlice(buf, mask.keys.d2, cols);
    FwhtRowsInplaceSlice(buf, mask.n, cols);
    ApplyDiagInplaceSlice(buf, mask.keys.d1, cols);
    FwhtRowsInplaceSlice(buf, mask.n, cols);
  }

  /** The Walsh matrix of any power of two is a kernel with gain `n`. */
  lemma {:induction false} WalshKernel(n: nat)
    requires IsPowerOfTwo(n)
    ensures IsKernel(WalshMatrix(n), n, n as real)
  {
    var m: nat :| n == Pow2(m);
    HadamardKernel(m);
  }

  /** HD₃ round trip: `unapply(apply(X)·W) = X·W`. */
  lemma {:induction false} Hd3RoundTrip(mask: Hd3Mask, x: Mat, w: Mat, p: nat, q: nat)
    requires ValidMask(mask) && IsMat(x, mask.n, p) && IsMat(w, p, q)
    ensures Unapply(WalshMatrix(mask.n), mask.keys,
                    Mul(Apply(WalshMatrix(mask.n), mask.keys, x, mask.n, p), w, p, q), mask.n, q)
         == Mul(x, w, p, q)
  {
    WalshKernel(mask.n);
    RoundTrip(WalshMatrix(mask.n), mask.n, mask.n as real, mask.keys, x, w, p, q);
  }

  /** The HD₃ mask is exactly orthogonal: `Aᵀ·A = I`, and `unapply` multiplies by `Aᵀ`. */
  lemma {:induction false} Hd3Orthogonal(mask: Hd3Mask, y: Mat, p: nat)
    requires ValidMask(mask) && IsMat(y, mask.n, p)
    ensures var a := MaskMatrix(WalshMatrix(mask.n), mask.keys, mask.n);
            && Mul(Transpose(a, mask.n, mask.n), a, mask.n, mask.n) == Identity(mask.n)
            && Unapply(WalshMatrix(mask.n), mask.keys, y, mask.n, p)
               == Mul(Transpose(a, mask.n, mask.n), y, mask.n, p)
  {
    WalshKernel(mask.n);
    MaskMatrixOrthogonal(WalshMatrix(mask.n), mask.n, mask.n as real, mask.keys);
    UnapplyIsTranspose(WalshMatrix(mask.n), mask.keys, y, mask.n, p);
  }
}
