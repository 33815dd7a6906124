/** Batches of sequences in one row buffer: every block is stacked, masked and, after the
    engine's product, unmasked and stripped on its own. */
module Batches {
  import opened LinAlg
  import opened Blocks
  import opened Masks
  import opened Stacking
  import opened Protocol
  import Haar
  import Sums

  // ─── what each block of a batch goes through ───

  /** Shield deviation for a block of data rows. */
  function Amplitude(data: Mat, d: nat, shield: Shield, plat: Platform): real
    requires Haar.IsSqrt(plat.sqrt)
  {
    Sigma(MeanNorm(data, plat.sqrt), d, shield.energy, plat.sqrt)
  }

  function BlockStack(hidden: Mat, dataN: nat, shield: Shield, s: nat, d: nat, plat: Platform,
                      z: nat -> (int, int) -> real, b: nat): Mat
    requires Haar.IsSqrt(plat.sqrt)
  {
    var data := Block(hidden, b, dataN);
    Stacked(data, shield.k, s, d, Amplitude(data, d, shield, plat), z(b))
  }

  ghost function StackMap(hidden: Mat, dataN: nat, shield: Shield, s: nat, d: nat, plat: Platform,
                          z: nat -> (int, int) -> real): (nat, Mat) -> Mat
    requires Haar.IsSqrt(plat.sqrt)
  {
    (b: nat, block: Mat) => BlockStack(hidden, dataN, shield, s, d, plat, z, b)
  }

  ghost function MaskMap(masks: seq<MaskFamily>, d: nat, inverse: bool): (nat, Mat) -> Mat {
    (b: nat, block: Mat) => if b < |masks| && ValidFamily(masks[b]) then Masked(masks[b], block, d, inverse) else block
  }

  ghost predicate SameSide(masks: seq<MaskFamily>, s: nat) {
    forall b {:trigger masks[b]} | 0 <= b < |masks| :: ValidFamily(masks[b]) && Side(masks[b]) == s
  }

  /** The masked operand of a batch, block by block. */
  ghost predicate MaskedBatch(rows: Mat, masks: seq<MaskFamily>, hidden: Mat, dataN: nat, shield: Shield, s: nat,
                              d: nat, plat: Platform, z: nat -> (int, int) -> real)
    requires Haar.IsSqrt(plat.sqrt)
  {
    && IsMat(rows, Offset(|masks|, s), d)
    && SameSide(masks, s)
    && forall b: nat {:trigger Block(rows, b, s)} | b < |masks| ::
         Block(rows, b, s) == FamilyApply(masks[b], BlockStack(hidden, dataN, shield, s, d, plat, z, b), d)
  }

  /** Unmasking block `b` of the product of a masked batch and keeping the data rows
      gives rows `b·dataN` onwards of the plain product. */
  lemma {:induction false} BatchBlockRecovered(rows: Mat, masks: seq<MaskFamily>, hidden: Mat, dataN: nat,
                                               shield: Shield, s: nat, d: nat, plat: Platform,
                                               z: nat -> (int, int) -> real, w: Mat, p: nat, b: nat)
    requires Haar.IsSqrt(plat.sqrt) && MaskedBatch(rows, masks, hidden, dataN, shield, s, d, plat, z)
    requires IsMat(hidden, Offset(|masks|, dataN), d) && IsMat(w, d, p) && dataN <= s && b < |masks|
    ensures var block := Block(Mul(rows, w, d, p), b, s);
            && IsMat(block, s, p)
            && IsMat(FamilyUnapply(masks[b], block, p), s, p)
            && FamilyUnapply(masks[b], block, p)[..dataN] == Block(Mul(hidden, w, d, p), b, dataN)
  {
    hide FamilyApply, FamilyUnapply, Side, ValidFamily, Mul, Amplitude, Stacked, Offset;
    var data := Block(hidden, b, dataN);
    ProductBlock(rows, w, d, p, b, |masks|, s);
    ProductBlock(hidden, w, d, p, b, |masks|, dataN);
    assert ValidFamily(masks[b]) && Side(masks[b]) == s;
    StackRecovered(masks[b], data, dataN, shield.k, d, Amplitude(data, d, shield, plat), z(b), w, p);
  }

  /** Block `b` of a product is the product of block `b`. */
  lemma {:induction false} ProductBlock(m: Mat, w: Mat, d: nat, p: nat, b: nat, total: nat, s: nat)
    requires IsMat(m, Offset(total, s), d) && b < total
    ensures IsMat(Block(m, b, s), s, d)
    ensures Block(Mul(m, w, d, p), b, s) == Mul(Block(m, b, s), w, d, p)
  {
    hide Offset, Mul;
    BlockFits(m, b, total, s);
    MulSlice(m, w, d, p, Offset(b, s), Offset(b, s) + s);
  }

  /** Over data rows of one norm, a shield row whose draws have mean square 1 has that norm times the energy. */
  lemma {:induction false} ShieldLikeData(data: Mat, d: nat, shield: Shield, plat: Platform, r: real,
                                          z: (int, int) -> real, i: int, draws: int -> real)
    requires Haar.IsSqrt(plat.sqrt) && |data| > 0 && d > 0 && shield.energy * r >= 0.0
    requires forall t :: 0 <= t < |data| ==> RowNorm(data[t], plat.sqrt) == r
    requires forall j {:trigger draws(j)} :: draws(j) == z(i, j) * z(i, j)
    requires Sums.Sum(d, draws) == d as real
    ensures RowNorm(ShieldRow(d, Amplitude(data, d, shield, plat), z, i), plat.sqrt) == shield.energy * r
  {
    MeanOfEqual(data, plat.sqrt, r);
    hide RowNorm, MeanNorm, ShieldRow, Sigma, Sums.Sum;
    ShieldNorm(r, d, shield.energy, plat.sqrt, z, i, draws);
  }

  /** What block `b` of a masked batch holds under its mask: the rows of sequence `b`, the shield draws of
      sequence `b` at its own amplitude, and zeros. */
  lemma {:induction false} BlockHolds(rows: Mat, masks: seq<MaskFamily>, hidden: Mat, dataN: nat, shield: Shield,
                                      s: nat, d: nat, plat: Platform, z: nat -> (int, int) -> real, b: nat)
    requires Haar.IsSqrt(plat.sqrt) && MaskedBatch(rows, masks, hidden, dataN, shield, s, d, plat, z)
    requires IsMat(hidden, Offset(|masks|, dataN), d) && dataN + shield.k <= s && b < |masks|
    ensures ValidFamily(masks[b])
    ensures Holds(FamilyUnapply(masks[b], Block(rows, b, s), d), Block(hidden, b, dataN), dataN, shield.k, s, d,
                  Amplitude(Block(hidden, b, dataN), d, shield, plat), z(b))
  {
    var data := Block(hidden, b, dataN);
    assert ValidFamily(masks[b]) && Side(masks[b]) == s;
    var sigma := Amplitude(data, d, shield, plat);
    assert Block(rows, b, s) == FamilyApply(masks[b], Stacked(data, shield.k, s, d, sigma, z(b)), d);
    hide *;
    ProductBlock(hidden, Identity(d), d, d, b, |masks|, dataN);
    StackHeld(masks[b], data, dataN, shield.k, d, sigma, z(b));
  }

  // ─── batches in row buffers ───

  /** Data, shield and zero rows of every block, over whatever the buffer held. */
  method StackBatch(buf: array<seq<real>>, hidden: Mat, batch: nat, dataN: nat, shield: Shield, s: nat, d: nat,
                    plat: Platform, z: nat -> (int, int) -> real)
    requires Haar.IsSqrt(plat.sqrt)
    requires buf.Length == Offset(batch, s) && |hidden| >= Offset(batch, dataN) && dataN + shield.k <= s
    modifies buf
    ensures Mapped(old(buf[..]), buf[..], StackMap(hidden, dataN, shield, s, d, plat, z), s, batch, batch)
  {
    hide Offset, Sigma, Stacked, Mapped;
    ghost var was, f := buf[..], StackMap(hidden, dataN, shield, s, d, plat, z);
    MappedStart(was, f, s, batch);
    for b := 0 to batch
      invariant Mapped(was, buf[..], f, s, b, batch)
    {
      ghost var mid := buf[..];
      OffsetMonotone(b, batch, s);
      OffsetMonotone(b, batch, dataN);
      BlockIs(hidden, b, dataN);
      var data := hidden[Offset(b, dataN)..Offset(b, dataN) + dataN];
      var mean := MeanRowNorm(data, plat.sqrt);
      var sigma := Sigma(mean, d, shield.energy, plat.sqrt);
      FillBlock(buf, Offset(b, s), data, shield.k, s, d, sigma, z(b));
      BlockIs(buf[..], b, s);
      MappedStep(was, mid, buf[..], f, s, b, batch);
    }
  }

  ghost predicate BlocksAre(rows: Mat, batch: nat, s: nat, d: nat) {
    forall b: nat {:trigger Block(rows, b, s)} | b < batch :: IsMat(Block(rows, b, s), s, d)
  }

  /** Every block through its own mask, in place. */
  method MaskBatch(buf: array<seq<real>>, masks: seq<MaskFamily>, s: nat, d: nat, inverse: bool)
    requires SameSide(masks, s) && buf.Length == Offset(|masks|, s) && BlocksAre(buf[..], |masks|, s, d)
    modifies buf
    ensures Mapped(old(buf[..]), buf[..], MaskMap(masks, d, inverse), s, |masks|, |masks|)
  {
    hide Offset, Masked, Side, ValidFamily;
    ghost var was, f := buf[..], MaskMap(masks, d, inverse);
    MappedStart(was, f, s, |masks|);
    for b := 0 to |masks|
      invariant Mapped(was, buf[..], f, s, b, |masks|)
    {
      ghost var mid := buf[..];
      OffsetMonotone(b, |masks|, s);
      BlockIs(mid, b, s);
      assert Block(mid, b, s) == Block(was, b, s);
      assert Side(masks[b]) == s;
      MaskBlock(buf, Offset(b, s), masks[b], d, inverse);
      BlockIs(buf[..], b, s);
      MappedStep(was, mid, buf[..], f, s, b, |masks|);
    }
  }

  lemma {:induction false} BatchMasked(was: Mat, mid: Mat, rows: Mat, masks: seq<MaskFamily>, hidden: Mat, dataN: nat,
                                       shield: Shield, s: nat, d: nat, plat: Platform, z: nat -> (int, int) -> real)
    requires Haar.IsSqrt(plat.sqrt) && SameSide(masks, s)
    requires Mapped(was, mid, StackMap(hidden, dataN, shield, s, d, plat, z), s, |masks|, |masks|)
    requires Mapped(mid, rows, MaskMap(masks, d, false), s, |masks|, |masks|)
    requires BlocksAre(mid, |masks|, s, d)
    ensures MaskedBatch(rows, masks, hidden, dataN, shield, s, d, plat, z)
  {
    hide FamilyApply, FamilyUnapply, ValidFamily, Side, BlockStack, Offset;
    forall b: nat | b < |masks|
      ensures Block(rows, b, s) == FamilyApply(masks[b], BlockStack(hidden, dataN, shield, s, d, plat, z, b), d)
      ensures IsMat(Block(rows, b, s), s, d)
    {
      assert Block(mid, b, s) == BlockStack(hidden, dataN, shield, s, d, plat, z, b);
      assert Side(masks[b]) == s && ValidFamily(masks[b]);
      assert Block(rows, b, s) == MaskMap(masks, d, false)(b, Block(mid, b, s));
      FamilyShapes(masks[b], Block(mid, b, s), d);
    }
    BlocksShape(rows, |masks|, s, d);
  }

  lemma {:induction false} BlocksShape(rows: Mat, batch: nat, s: nat, d: nat)
    requires |rows| == Offset(batch, s)
    requires forall b: nat {:trigger Block(rows, b, s)} | b < batch :: IsMat(Block(rows, b, s), s, d)
    ensures IsMat(rows, Offset(batch, s), d)
  {
    forall r | 0 <= r < |rows|
      ensures |rows[r]| == d
    {
      var b, at := r / s, r % s;
      assert r == b * s + at;
      OffsetBelow(b, batch, s);
      assert Block(rows, b, s)[at] == rows[r];
    }
  }

  lemma {:induction false} StackShapes(was: Mat, mid: Mat, hidden: Mat, batch: nat, dataN: nat, shield: Shield, s: nat,
                                       d: nat, plat: Platform, z: nat -> (int, int) -> real)
    requires Haar.IsSqrt(plat.sqrt)
    requires IsMat(hidden, |hidden|, d) && |hidden| >= Offset(batch, dataN) && dataN + shield.k <= s
    requires Mapped(was, mid, StackMap(hidden, dataN, shield, s, d, plat, z), s, batch, batch)
    ensures BlocksAre(mid, batch, s, d)
  {
    hide Stacked, Amplitude, Offset;
    forall b: nat | b < batch
      ensures IsMat(Block(mid, b, s), s, d)
    {
      assert Block(mid, b, s) == BlockStack(hidden, dataN, shield, s, d, plat, z, b);
      OffsetMonotone(b, batch, dataN);
      BlockIs(hidden, b, dataN);
      var data := Block(hidden, b, dataN);
      StackedShape(data, dataN, shield.k, s, d, Amplitude(data, d, shield, plat), z(b));
    }
  }

  ghost function KeepMap(out: Mat, masks: seq<MaskFamily>, s: nat, p: nat, dataN: nat): (nat, Mat) -> Mat {
    (b: nat, block: Mat) =>
      var back := MaskMap(masks, p, true)(b, Block(out, b, s));
      if dataN <= |back| then back[..dataN] else []
  }

  function Kept(rows: Mat, s: nat, dataN: nat): (nat, Mat) -> Mat {
    (b: nat, block: Mat) => if dataN <= |Block(rows, b, s)| then Block(rows, b, s)[..dataN] else []
  }

  /** The first `dataN` rows of every block, block after block. */
  method StripBlocks(rows: Mat, batch: nat, s: nat, p: nat, dataN: nat) returns (result: Mat)
    requires dataN <= s && |rows| == Offset(batch, s)
    ensures |result| == Offset(batch, dataN)
    ensures forall b: nat {:trigger Block(result, b, dataN)} | b < batch ::
              |Block(rows, b, s)| == s && Block(result, b, dataN) == Block(rows, b, s)[..dataN]
  {
    var output := new seq<real>[Offset(batch, dataN)](i => ZeroRow(p));
    ghost var zeros, f := output[..], Kept(rows, s, dataN);
    hide Offset;
    MappedStart(zeros, f, dataN, batch);
    for b := 0 to batch
      invariant Mapped(zeros, output[..], f, dataN, b, batch)
    {
      ghost var mid := output[..];
      OffsetMonotone(b, batch, dataN);
      OffsetMonotone(b, batch, s);
      BlockIs(rows, b, s);
      var keep := rows[Offset(b, s)..Offset(b, s) + dataN];
      assert keep == Block(rows, b, s)[..dataN];
      WriteRows(output, Offset(b, dataN), keep);
      BlockIs(output[..], b, dataN);
      MappedStep(zeros, mid, output[..], f, dataN, b, batch);
    }
    result := output[..];
    forall b: nat | b < batch
      ensures |Block(rows, b, s)| == s && Block(result, b, dataN) == Block(rows, b, s)[..dataN]
    {
      BlockFits(rows, b, batch, s);
      assert Block(result, b, dataN) == f(b, Block(zeros, b, dataN));
    }
  }

  /** Unmasks every block of an engine result and keeps its data rows. */
  method UnmaskPerSequence(out: Mat, masks: seq<MaskFamily>, s: nat, p: nat, dataN: nat) returns (result: Mat)
    requires SameSide(masks, s) && dataN <= s && IsMat(out, Offset(|masks|, s), p)
    ensures |result| == Offset(|masks|, dataN)
    ensures forall b: nat {:trigger Block(result, b, dataN)} | b < |masks| ::
              Block(result, b, dataN) == KeepMap(out, masks, s, p, dataN)(b, [])
  {
    var batch := |masks|;
    var buf := new seq<real>[Offset(batch, s)](i requires 0 <= i < |out| => out[i]);
    assert buf[..] == out;
    OutBlocks(out, batch, s, p);
    MaskBatch(buf, masks, s, p, true);
    ghost var unmasked := buf[..];
    hide Offset, MaskMap, SameSide;
    result := StripBlocks(buf[..], batch, s, p, dataN);
    forall b: nat | b < batch
      ensures Block(result, b, dataN) == KeepMap(out, masks, s, p, dataN)(b, [])
    {
      assert Block(result, b, dataN) == Block(unmasked, b, s)[..dataN];
      assert Block(unmasked, b, s) == MaskMap(masks, p, true)(b, Block(out, b, s));
    }
  }

  lemma {:induction false} OutBlocks(out: Mat, batch: nat, s: nat, p: nat)
    requires IsMat(out, Offset(batch, s), p)
    ensures BlocksAre(out, batch, s, p)
  {
    hide Offset;
    forall b: nat | b < batch
      ensures IsMat(Block(out, b, s), s, p)
    {
      BlockFits(out, b, batch, s);
    }
  }

  /** The whole batch recovered: unmasking the engine's product gives the plain product. */
  lemma {:induction false} BatchRecovered(rows: Mat, masks: seq<MaskFamily>, hidden: Mat, dataN: nat, shield: Shield,
                                          s: nat, d: nat, plat: Platform, z: nat -> (int, int) -> real,
                                          w: Mat, p: nat, result: Mat)
    requires Haar.IsSqrt(plat.sqrt) && MaskedBatch(rows, masks, hidden, dataN, shield, s, d, plat, z)
    requires IsMat(hidden, Offset(|masks|, dataN), d) && IsMat(w, d, p) && dataN <= s
    requires |result| == Offset(|masks|, dataN)
    requires forall b: nat {:trigger Block(result, b, dataN)} | b < |masks| ::
               Block(result, b, dataN) == KeepMap(Mul(rows, w, d, p), masks, s, p, dataN)(b, [])
    ensures result == Mul(hidden, w, d, p)
  {
    hide Offset, Mul, FamilyUnapply, ValidFamily, Side;
    forall b: nat | b < |masks|
      ensures Block(result, b, dataN) == Block(Mul(hidden, w, d, p), b, dataN)
    {
      assert ValidFamily(masks[b]);
      var block := Block(Mul(rows, w, d, p), b, s);
      assert MaskMap(masks, p, true)(b, block) == FamilyUnapply(masks[b], block, p);
      BatchBlockRecovered(rows, masks, hidden, dataN, shield, s, d, plat, z, w, p, b);
      assert Block(result, b, dataN) == KeepMap(Mul(rows, w, d, p), masks, s, p, dataN)(b, []);
    }
    BlocksDetermine(result, Mul(hidden, w, d, p), |masks|, dataN);
  }
}
