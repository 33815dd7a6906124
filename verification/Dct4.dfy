/** The DCT-IV mask: the cascade `D₃·C·D₂·C·D₁·C` fused over tiles of sixteen
    columns, each copied into a transposed scratch tile, transformed and copied back. */
module Dct4 {
  import opened Sums
  import opened LinAlg
  import opened Cascade
  import opened Blocks

  const TILE: nat := 16

  /** `planner` is the matrix of the unnormalised DCT-IV of length `n`. */
  datatype Dct4Mask = Dct4Mask(n: nat, keys: Keys, planner: Mat)

  ghost predicate ValidMask(mask: Dct4Mask) {
    && mask.n > 0
    && IsKernel(mask.planner, mask.n, mask.n as real / 2.0)
    && ValidKeys(mask.keys, mask.n, mask.n as real / 2.0)
  }

  /** What `apply` does to a whole matrix. At side length 1 the code returns early. */
  function MaskApply(mask: Dct4Mask, m: Mat, p: nat): Mat {
    if mask.n < 2 then m else Apply(mask.planner, mask.keys, m, mask.n, p)
  }

  function MaskUnapply(mask: Dct4Mask, m: Mat, p: nat): Mat
    requires |mask.planner| == mask.n
  {
    if mask.n < 2 then m else Unapply(mask.planner, mask.keys, m, mask.n, p)
  }

  /** Only at side 1 is nothing done; from side 2 on the whole cascade is. */
  lemma {:induction false} EarlyReturn(mask: Dct4Mask, m: Mat, p: nat)
    requires ValidMask(mask)
    ensures mask.n == 1 ==> MaskApply(mask, m, p) == m == MaskUnapply(mask, m, p)
    ensures mask.n >= 2 ==> MaskApply(mask, m, p) == Apply(mask.planner, mask.keys, m, mask.n, p)
    ensures mask.n >= 2 ==> MaskUnapply(mask, m, p) == Unapply(mask.planner, mask.keys, m, mask.n, p)
  {
    hide Apply, Unapply;
  }

  // ─── one tile ───

  function Column(x: seq<real>): (m: Mat)
    ensures IsMat(m, |x|, 1)
    ensures forall i :: 0 <= i < |x| ==> At(m, i, 0) == x[i]
  {
    Build(|x|, 1, (i, j) => Entry(x, i))
  }

  /** The transform of one vector. */
  function Transformed(c: Mat, x: seq<real>): (r: seq<real>)
    ensures |r| == |x|
  {
    seq(|x|, i => Dot(c, Column(x), |x|, i, 0))
  }

  function TransformMap(c: Mat): (nat, seq<real>) -> seq<real> {
    (j, x) => Transformed(c, x)
  }

  function Signed(diag: seq<real>, x: seq<real>): (r: seq<real>)
    ensures |r| == |x|
  {
    seq(|x|, i requires 0 <= i < |x| => if Entry(diag, i) < 0.0 then -x[i] else x[i])
  }

  function SignMap(diag: seq<real>): (nat, seq<real>) -> seq<real> {
    (j, x) => Signed(diag, x)
  }

  function Scaled(diag: seq<real>, factor: real, x: seq<real>): (r: seq<real>)
    ensures |r| == |x|
  {
    seq(|x|, i requires 0 <= i < |x| => x[i] * (Entry(diag, i) * factor))
  }

  function ScaledMap(diag: seq<real>, factor: real): (nat, seq<real>) -> seq<real> {
    (j, x) => Scaled(diag, factor, x)
  }

  /** A tile holds its columns as rows: `w` rows of length `n`, read as an `(n, w)` matrix. */
  function TileMat(s: seq<real>, n: nat, w: nat): (m: Mat)
    ensures IsMat(m, n, w)
    ensures forall i, j :: 0 <= i < n && 0 <= j < w ==> At(m, i, j) == Cell(s, n, j, i)
  {
    Build(n, w, (i, j) => Cell(s, n, j, i))
  }

  /** Entry `i` of tile row `j`. */
  function Cell(s: seq<real>, n: nat, j: int, i: int): real {
    if j < 0 then 0.0 else Entry(s, Offset(j, n) + i)
  }

  lemma {:induction false} CellIs(s: seq<real>, n: nat, w: nat, j: nat, i: nat)
    requires |s| == Offset(w, n) && j < w && i < n
    ensures |Block(s, j, n)| == n && Cell(s, n, j, i) == Block(s, j, n)[i]
  {
    OffsetMonotone(j, w, n);
  }

  lemma {:induction false} TransformedIsMul(was: seq<real>, now: seq<real>, c: Mat, n: nat, w: nat)
    requires IsMat(c, n, n) && Mapped(was, now, TransformMap(c), n, w, w)
    ensures TileMat(now, n, w) == Mul(c, TileMat(was, n, w), n, w)
  {
    hide Block, Cell, Dot, Column;
    forall i, j | 0 <= i < n && 0 <= j < w
      ensures At(TileMat(now, n, w), i, j) == Dot(c, TileMat(was, n, w), n, i, j)
    {
      CellIs(now, n, w, j, i);
      CellIs(was, n, w, j, i);
      assert Block(now, j, n) == Transformed(c, Block(was, j, n));
      forall t | 0 <= t < n
        ensures At(Column(Block(was, j, n)), t, 0) == At(TileMat(was, n, w), t, j)
      {
        CellIs(was, n, w, j, t);
      }
      DotColumn(c, Column(Block(was, j, n)), TileMat(was, n, w), n, i, 0, j);
    }
    MatExt(TileMat(now, n, w), Mul(c, TileMat(was, n, w), n, w), n, w);
  }

  /** A product entry depends on one column of the right operand. */
  lemma {:induction false} DotColumn(c: Mat, x: Mat, y: Mat, k: nat, i: int, jx: int, jy: int)
    requires forall t {:trigger At(x, t, jx)} | 0 <= t < k :: At(x, t, jx) == At(y, t, jy)
    ensures Dot(c, x, k, i, jx) == Dot(c, y, k, i, jy)
  {
    SumCong(k, Term(c, x, i, jx), Term(c, y, i, jy));
  }

  lemma {:induction false} SignedIsScale(was: seq<real>, now: seq<real>, diag: seq<real>, n: nat, w: nat)
    requires IsSigns(diag, n) && Mapped(was, now, SignMap(diag), n, w, w)
    ensures TileMat(now, n, w) == ScaleRows(diag, 1.0, TileMat(was, n, w), n, w)
  {
    hide Block, Cell;
    forall i, j | 0 <= i < n && 0 <= j < w
      ensures At(TileMat(now, n, w), i, j) == Entry(diag, i) * 1.0 * At(TileMat(was, n, w), i, j)
    {
      CellIs(now, n, w, j, i);
      CellIs(was, n, w, j, i);
      assert Block(now, j, n) == Signed(diag, Block(was, j, n));
    }
    MatExt(TileMat(now, n, w), ScaleRows(diag, 1.0, TileMat(was, n, w), n, w), n, w);
  }

  lemma {:induction false} ScaledIsScale(was: seq<real>, now: seq<real>, diag: seq<real>, x: real, n: nat, w: nat)
    requires Mapped(was, now, ScaledMap(diag, x), n, w, w)
    ensures TileMat(now, n, w) == ScaleRows(diag, x, TileMat(was, n, w), n, w)
  {
    hide Block, Cell;
    forall i, j | 0 <= i < n && 0 <= j < w
      ensures At(TileMat(now, n, w), i, j) == Entry(diag, i) * x * At(TileMat(was, n, w), i, j)
    {
      CellIs(now, n, w, j, i);
      CellIs(was, n, w, j, i);
      assert Block(now, j, n) == Scaled(diag, x, Block(was, j, n));
    }
    MatExt(TileMat(now, n, w), ScaleRows(diag, x, TileMat(was, n, w), n, w), n, w);
  }

  /** The planner's transform of `buf[off..off+n]`, as its defining matrix product. */
  method ProcessDct4(c: Mat, buf: array<real>, off: nat, n: nat)
    requires off + n <= buf.Length
    modifies buf
    ensures buf[off..off + n] == Transformed(c, old(buf[off..off + n]))
    ensures buf[..off] == old(buf[..off]) && buf[off + n..] == old(buf[off + n..])
  {
    var x := buf[off..off + n];
    for i := 0 to n
      invariant forall p {:trigger buf[p]} | 0 <= p < buf.Length ::
                  buf[p] == if off <= p < off + i then Dot(c, Column(x), n, p - off, 0) else old(buf[p])
    {
      var acc := 0.0;
      for t := 0 to n
        invariant acc == Sum(t, Term(c, Column(x), i, 0))
      {
        acc := acc + At(c, i, t) * x[t];
      }
      buf[off + i] := acc;
    }
    var y, z := buf[off..off + n], Transformed(c, x);
    forall i | 0 <= i < n
      ensures y[i] == z[i]
    {
      assert buf[off + i] == Dot(c, Column(x), n, i, 0);
    }
  }

  /** One `C` stage: every tile row through the planner. */
  method TransformTile(c: Mat, tile: array<real>, w: nat, n: nat)
    requires IsMat(c, n, n) && Offset(w, n) <= tile.Length
    modifies tile
    ensures TileMat(tile[..Offset(w, n)], n, w) == Mul(c, TileMat(old(tile[..Offset(w, n)]), n, w), n, w)
  {
    hide Offset, Mapped, Block, TileMat, Mul;
    ghost var L := Offset(w, n);
    ghost var was := tile[..L];
    MappedStart(was, TransformMap(c), n, w);
    for j := 0 to w
      invariant Mapped(was, tile[..L], TransformMap(c), n, j, w)
    {
      ghost var mid := tile[..L];
      ghost var before := tile[..];
      OffsetMonotone(j, w, n);
      var off := Offset(j, n);
      ProcessDct4(c, tile, off, n);
      TileRowChanged(before, tile[..], off, n, L);
      BlockIs(mid, j, n);
      BlockIs(tile[..L], j, n);
      MappedStep(was, mid, tile[..L], TransformMap(c), n, j, w);
    }
    TransformedIsMul(was, tile[..L], c, n, w);
  }

  /** A change to one row of the buffer, seen in its first `L` entries. */
  lemma {:induction false} TileRowChanged(before: seq<real>, after: seq<real>, off: nat, n: nat, L: nat)
    requires |before| == |after| && off + n <= L <= |before|
    requires after[..off] == before[..off] && after[off + n..] == before[off + n..]
    ensures after[..L][..off] == before[..L][..off]
    ensures after[..L][off + n..] == before[..L][off + n..]
    ensures after[..L][off..off + n] == after[off..off + n] && before[..L][off..off + n] == before[off..off + n]
  {
    assert after[..L][off + n..] == after[off + n..][..L - off - n];
    assert before[..L][off + n..] == before[off + n..][..L - off - n];
    assert after[..L][..off] == after[..off];
    assert before[..L][..off] == before[..off];
  }

  method SignRow(tile: array<real>, off: nat, n: nat, diag: seq<real>)
    requires off + n <= tile.Length && |diag| == n
    modifies tile
    ensures tile[off..off + n] == Signed(diag, old(tile[off..off + n]))
    ensures tile[..off] == old(tile[..off]) && tile[off + n..] == old(tile[off + n..])
  {
    for i := 0 to n
      invariant forall p {:trigger tile[p]} | 0 <= p < tile.Length ::
                  tile[p] == if off <= p < off + i && Entry(diag, p - off) < 0.0 then -old(tile[p]) else old(tile[p])
    {
      if diag[i] < 0.0 {
        tile[off + i] := -tile[off + i];
      }
    }
    var y, z := tile[off..off + n], Signed(diag, old(tile[off..off + n]));
    forall i | 0 <= i < n
      ensures y[i] == z[i]
    {
      assert tile[off + i] == if Entry(diag, i) < 0.0 then -old(tile[off + i]) else old(tile[off + i]);
    }
  }

  /** Flip the sign of entry `i` of every tile row where the diagonal is negative. */
  method SignTile(tile: array<real>, w: nat, n: nat, diag: seq<real>)
    requires IsSigns(diag, n) && Offset(w, n) <= tile.Length
    modifies tile
    ensures TileMat(tile[..Offset(w, n)], n, w)
         == ScaleRows(diag, 1.0, TileMat(old(tile[..Offset(w, n)]), n, w), n, w)
  {
    hide Offset, Mapped, Block, TileMat, ScaleRows;
    ghost var L := Offset(w, n);
    ghost var was := tile[..L];
    MappedStart(was, SignMap(diag), n, w);
    for j := 0 to w
      invariant Mapped(was, tile[..L], SignMap(diag), n, j, w)
    {
      ghost var mid := tile[..L];
      ghost var before := tile[..];
      OffsetMonotone(j, w, n);
      var off := Offset(j, n);
      SignRow(tile, off, n, diag);
      TileRowChanged(before, tile[..], off, n, L);
      BlockIs(mid, j, n);
      BlockIs(tile[..L], j, n);
      MappedStep(was, mid, tile[..L], SignMap(diag), n, j, w);
    }
    SignedIsScale(was, tile[..L], diag, n, w);
  }

  method ScaleRow(tile: array<real>, off: nat, n: nat, diag: seq<real>, factor: real)
    requires off + n <= tile.Length && |diag| == n
    modifies tile
    ensures tile[off..off + n] == Scaled(diag, factor, old(tile[off..off + n]))
    ensures tile[..off] == old(tile[..off]) && tile[off + n..] == old(tile[off + n..])
  {
    for i := 0 to n
      invariant forall p {:trigger tile[p]} | 0 <= p < tile.Length ::
                  tile[p] == if off <= p < off + i then old(tile[p]) * (Entry(diag, p - off) * factor) else old(tile[p])
    {
      tile[off + i] := tile[off + i] * (diag[i] * factor);
    }
    var y, z := tile[off..off + n], Scaled(diag, factor, old(tile[off..off + n]));
    forall i | 0 <= i < n
      ensures y[i] == z[i]
    {
      assert tile[off + i] == old(tile[off + i]) * (Entry(diag, i) * factor);
    }
  }

  /** Multiply entry `i` of every tile row by its diagonal entry and a scalar. */
  method ScaleTile(tile: array<real>, w: nat, n: nat, diag: seq<real>, factor: real)
    requires |diag| == n && Offset(w, n) <= tile.Length
    modifies tile
    ensures TileMat(tile[..Offset(w, n)], n, w)
         == ScaleRows(diag, factor, TileMat(old(tile[..Offset(w, n)]), n, w), n, w)
  {
    hide Offset, Mapped, Block, TileMat, ScaleRows;
    ghost var L := Offset(w, n);
    ghost var was := tile[..L];
    MappedStart(was, ScaledMap(diag, factor), n, w);
    for j := 0 to w
      invariant Mapped(was, tile[..L], ScaledMap(diag, factor), n, j, w)
    {
      ghost var mid := tile[..L];
      ghost var before := tile[..];
      OffsetMonotone(j, w, n);
      var off := Offset(j, n);
      ScaleRow(tile, off, n, diag, factor);
      TileRowChanged(before, tile[..], off, n, L);
      BlockIs(mid, j, n);
      BlockIs(tile[..L], j, n);
      MappedStep(was, mid, tile[..L], ScaledMap(diag, factor), n, j, w);
    }
    ScaledIsScale(was, tile[..L], diag, factor, n, w);
  }

  /** `C, ×D₁, C, ×D₂, C, ×D₃·norm`, all on one tile. */
  method CascadeApplyInTile(mask: Dct4Mask, tile: array<real>, w: nat)
    requires ValidMask(mask) && Offset(w, mask.n) <= tile.Length
    modifies tile
    ensures TileMat(tile[..Offset(w, mask.n)], mask.n, w)
         == Apply(mask.planner, mask.keys, TileMat(old(tile[..Offset(w, mask.n)]), mask.n, w), mask.n, w)
  {
    hide TileMat, Mul, ScaleRows;
    TransformTile(mask.planner, tile, w, mask.n);
    SignTile(tile, w, mask.n, mask.keys.d1);
    TransformTile(mask.planner, tile, w, mask.n);
    SignTile(tile, w, mask.n, mask.keys.d2);
    TransformTile(mask.planner, tile, w, mask.n);
    ScaleTile(tile, w, mask.n, mask.keys.d3, mask.keys.norm);
  }

  /** `×D₃·norm, C, ×D₂, C, ×D₁, C`, all on one tile. */
  method CascadeUnapplyInTile(mask: Dct4Mask, tile: array<real>, w: nat)
    requires ValidMask(mask) && Offset(w, mask.n) <= tile.Length
    modifies tile
    ensures TileMat(tile[..Offset(w, mask.n)], mask.n, w)
         == Unapply(mask.planner, mask.keys, TileMat(old(tile[..Offset(w, mask.n)]), mask.n, w), mask.n, w)
  {
    hide TileMat, Mul, ScaleRows;
    ScaleTile(tile, w, mask.n, mask.keys.d3, mask.keys.norm);
    TransformTile(mask.planner, tile, w, mask.n);
    SignTile(tile, w, mask.n, mask.keys.d2);
    TransformTile(mask.planner, tile, w, mask.n);
    SignTile(tile, w, mask.n, mask.keys.d1);
    TransformTile(mask.planner, tile, w, mask.n);
  }

  // ─── moving tiles in and out of the buffer ───

  /** Tile entries are laid out without overlap. */
  lemma {:induction false} CellUpdate(s: seq<real>, n: nat, w: nat, j: nat, i: nat, v: real)
    requires j < w && i < n && Offset(w, n) <= |s|
    ensures Offset(j, n) + i < |s|
    ensures forall j', i' {:trigger Cell(s[Offset(j, n) + i := v], n, j', i')} | 0 <= j' < w && 0 <= i' < n ::
              Cell(s[Offset(j, n) + i := v], n, j', i') == if j' == j && i' == i then v else Cell(s, n, j', i')
  {
    hide Offset;
    OffsetMonotone(j, w, n);
    var t := s[Offset(j, n) + i := v];
    forall j', i' | 0 <= j' < w && 0 <= i' < n
      ensures Cell(t, n, j', i') == if j' == j && i' == i then v else Cell(s, n, j', i')
    {
      OffsetMonotone(j', w, n);
      if j' < j {
        OffsetMonotone(j', j, n);
      } else if j < j' {
        OffsetMonotone(j, j', n);
      }
    }
  }

  /** Columns `start..start+w` of the buffer into the tile, whatever the tile held. */
  method CopyTileIn(buf: array<real>, n: nat, d: nat, start: nat, w: nat, tile: array<real>)
    requires buf.Length == Offset(n, d) && start + w <= d && Offset(w, n) <= tile.Length && tile != buf
    modifies tile
    ensures forall i, j :: 0 <= i < n && 0 <= j < w ==>
              At(TileMat(tile[..Offset(w, n)], n, w), i, j) == At(Rows(buf[..], n, d), i, start + j)
  {
    hide Offset, Cell, Rows;
    ghost var m := Rows(buf[..], n, d);
    for i := 0 to n
      invariant forall i', j {:trigger Cell(tile[..], n, j, i')} | 0 <= i' < i && 0 <= j < w ::
                  Cell(tile[..], n, j, i') == At(m, i', start + j)
    {
      for j := 0 to w
        invariant forall i', j' {:trigger Cell(tile[..], n, j', i')} | 0 <= i' < n && 0 <= j' < w ::
                    i' < i || (i' == i && j' < j) ==> Cell(tile[..], n, j', i') == At(m, i', start + j')
      {
        OffsetMonotone(i, n, d);
        OffsetMonotone(j, w, n);
        RowEntry(buf[..], n, d, i, start + j);
        BlockIs(buf[..], i, d);
        ghost var before := tile[..];
        CellUpdate(before, n, w, j, i, At(m, i, start + j));
        tile[Offset(j, n) + i] := buf[Offset(i, d) + start + j];
        assert tile[..] == before[Offset(j, n) + i := At(m, i, start + j)];
      }
    }
    CellPrefix(tile[..], n, w);
  }

  lemma {:induction false} CellPrefix(s: seq<real>, n: nat, w: nat)
    requires Offset(w, n) <= |s|
    ensures forall i, j {:trigger At(TileMat(s[..Offset(w, n)], n, w), i, j)} | 0 <= i < n && 0 <= j < w ::
              At(TileMat(s[..Offset(w, n)], n, w), i, j) == Cell(s, n, j, i)
  {
    forall i, j | 0 <= i < n && 0 <= j < w
      ensures Cell(s[..Offset(w, n)], n, j, i) == Cell(s, n, j, i)
    {
      OffsetMonotone(j, w, n);
    }
  }

  /** A row with `w` entries from `start` on replaced by tile column `i`. */
  function Spliced(tile: seq<real>, n: nat, start: nat, w: nat, i: nat, row: seq<real>): (r: seq<real>)
    ensures |r| == |row|
  {
    seq(|row|, k requires 0 <= k < |row| => if start <= k < start + w then Cell(tile, n, k - start, i) else row[k])
  }

  function SpliceMap(tile: seq<real>, n: nat, start: nat, w: nat): (nat, seq<real>) -> seq<real> {
    (i: nat, row: seq<real>) => Spliced(tile, n, start, w, i, row)
  }

  method CopyRowOut(tile: array<real>, buf: array<real>, off: nat, n: nat, d: nat, start: nat, w: nat, i: nat)
    requires off + d <= buf.Length && start + w <= d && i < n && Offset(w, n) <= tile.Length && tile != buf
    modifies buf
    ensures buf[off..off + d] == Spliced(tile[..], n, start, w, i, old(buf[off..off + d]))
    ensures buf[..off] == old(buf[..off]) && buf[off + d..] == old(buf[off + d..])
  {
    hide Offset;
    for j := 0 to w
      invariant forall p {:trigger buf[p]} | 0 <= p < buf.Length ::
                  buf[p] == if off + start <= p < off + start + j then Cell(tile[..], n, p - off - start, i)
                            else old(buf[p])
    {
      OffsetMonotone(j, w, n);
      buf[off + start + j] := tile[Offset(j, n) + i];
    }
    var y, z := buf[off..off + d], Spliced(tile[..], n, start, w, i, old(buf[off..off + d]));
    forall k | 0 <= k < d
      ensures y[k] == z[k]
    {
      assert buf[off + k] == if start <= k < start + w then Cell(tile[..], n, k - start, i) else old(buf[off + k]);
    }
  }

  /** The tile back into columns `start..start+w`; every other column is untouched. */
  method CopyTileOut(tile: array<real>, w: nat, n: nat, buf: array<real>, d: nat, start: nat)
    requires buf.Length == Offset(n, d) && start + w <= d && Offset(w, n) <= tile.Length && tile != buf
    modifies buf
    ensures forall i, k :: 0 <= i < n && 0 <= k < d ==>
              At(Rows(buf[..], n, d), i, k)
              == if start <= k < start + w then At(TileMat(tile[..Offset(w, n)], n, w), i, k - start)
                 else At(Rows(old(buf[..]), n, d), i, k)
  {
    hide Offset, Mapped, Block, TileMat, Rows, Cell;
    ghost var was := buf[..];
    ghost var f := SpliceMap(tile[..], n, start, w);
    MappedStart(was, f, d, n);
    for i := 0 to n
      invariant Mapped(was, buf[..], f, d, i, n)
    {
      ghost var mid := buf[..];
      OffsetMonotone(i, n, d);
      CopyRowOut(tile, buf, Offset(i, d), n, d, start, w, i);
      BlockIs(mid, i, d);
      BlockIs(buf[..], i, d);
      MappedStep(was, mid, buf[..], f, d, i, n);
    }
    CellPrefix(tile[..], n, w);
    SplicedEntries(was, buf[..], tile[..], n, d, start, w);
  }

  lemma {:induction false} SplicedEntries(was: seq<real>, now: seq<real>, tile: seq<real>, n: nat, d: nat,
                                          start: nat, w: nat)
    requires Mapped(was, now, SpliceMap(tile, n, start, w), d, n, n)
    ensures forall i, k {:trigger At(Rows(now, n, d), i, k)} | 0 <= i < n && 0 <= k < d ::
              At(Rows(now, n, d), i, k)
              == if start <= k < start + w then Cell(tile, n, k - start, i) else At(Rows(was, n, d), i, k)
  {
    hide Rows, Block, Cell;
    forall i, k | 0 <= i < n && 0 <= k < d
      ensures At(Rows(now, n, d), i, k)
           == if start <= k < start + w then Cell(tile, n, k - start, i) else At(Rows(was, n, d), i, k)
    {
      RowEntry(now, n, d, i, k);
      RowEntry(was, n, d, i, k);
      assert Block(now, i, d) == Spliced(tile, n, start, w, i, Block(was, i, d));
    }
  }

  // ─── all tiles, in any order ───

  /** The columns of the tiles listed in `done` hold the target; the others are as before. */
  ghost predicate TilesDone(was: Mat, now: Mat, target: Mat, n: nat, d: nat, done: seq<nat>) {
    forall i, k {:trigger At(now, i, k)} | 0 <= i < n && 0 <= k < d ::
      At(now, i, k) == if k / TILE in done then At(target, i, k) else At(was, i, k)
  }

  /** The cascade treats every column alike, so a tile holds the target's columns. */
  lemma {:induction false} ApplyColumns(c: Mat, keys: Keys, x: Mat, m: Mat, n: nat, w: nat, d: nat, start: nat)
    requires IsMat(c, n, n) && start + w <= d
    requires forall i, j {:trigger At(x, i, j)} | 0 <= i < n && 0 <= j < w :: At(x, i, j) == At(m, i, start + j)
    ensures forall i, j {:trigger At(Apply(c, keys, x, n, w), i, j)} | 0 <= i < n && 0 <= j < w ::
              At(Apply(c, keys, x, n, w), i, j) == At(Apply(c, keys, m, n, d), i, start + j)
  {
    hide ScaleRows, Mul, Dot;
    StageColumns(c, keys.d1, 1.0, x, m, n, w, d, start);
    var x1, m1 := ScaleRows(keys.d1, 1.0, Mul(c, x, n, w), n, w), ScaleRows(keys.d1, 1.0, Mul(c, m, n, d), n, d);
    StageColumns(c, keys.d2, 1.0, x1, m1, n, w, d, start);
    var x2, m2 := ScaleRows(keys.d2, 1.0, Mul(c, x1, n, w), n, w), ScaleRows(keys.d2, 1.0, Mul(c, m1, n, d), n, d);
    StageColumns(c, keys.d3, keys.norm, x2, m2, n, w, d, start);
  }

  lemma {:induction false} StageColumns(c: Mat, v: seq<real>, y: real, x: Mat, m: Mat, n: nat, w: nat, d: nat,
                                        start: nat)
    requires IsMat(c, n, n) && start + w <= d
    requires forall i, j {:trigger At(x, i, j)} | 0 <= i < n && 0 <= j < w :: At(x, i, j) == At(m, i, start + j)
    ensures forall i, j {:trigger At(ScaleRows(v, y, Mul(c, x, n, w), n, w), i, j)} | 0 <= i < n && 0 <= j < w ::
              At(ScaleRows(v, y, Mul(c, x, n, w), n, w), i, j)
              == At(ScaleRows(v, y, Mul(c, m, n, d), n, d), i, start + j)
  {
    hide Dot;
    forall i, j | 0 <= i < n && 0 <= j < w
      ensures At(Mul(c, x, n, w), i, j) == At(Mul(c, m, n, d), i, start + j)
    {
      DotColumn(c, x, m, n, i, j, start + j);
    }
  }

  /** `unapply` stage: scale rows, then multiply. */
  lemma {:induction false} UnstageColumns(c: Mat, v: seq<real>, y: real, x: Mat, m: Mat, n: nat, w: nat, d: nat,
                                          start: nat)
    requires IsMat(c, n, n) && start + w <= d
    requires forall i, j {:trigger At(x, i, j)} | 0 <= i < n && 0 <= j < w :: At(x, i, j) == At(m, i, start + j)
    ensures forall i, j {:trigger At(Mul(c, ScaleRows(v, y, x, n, w), n, w), i, j)} | 0 <= i < n && 0 <= j < w ::
              At(Mul(c, ScaleRows(v, y, x, n, w), n, w), i, j)
              == At(Mul(c, ScaleRows(v, y, m, n, d), n, d), i, start + j)
  {
    hide Dot;
    var sx, sm := ScaleRows(v, y, x, n, w), ScaleRows(v, y, m, n, d);
    forall i, j | 0 <= i < n && 0 <= j < w
      ensures At(Mul(c, sx, n, w), i, j) == At(Mul(c, sm, n, d), i, start + j)
    {
      DotColumn(c, sx, sm, n, i, j, start + j);
    }
  }

  lemma {:induction false} UnapplyColumns(c: Mat, keys: Keys, x: Mat, m: Mat, n: nat, w: nat, d: nat, start: nat)
    requires IsMat(c, n, n) && start + w <= d
    requires forall i, j {:trigger At(x, i, j)} | 0 <= i < n && 0 <= j < w :: At(x, i, j) == At(m, i, start + j)
    ensures forall i, j {:trigger At(Unapply(c, keys, x, n, w), i, j)} | 0 <= i < n && 0 <= j < w ::
              At(Unapply(c, keys, x, n, w), i, j) == At(Unapply(c, keys, m, n, d), i, start + j)
  {
    hide ScaleRows, Mul, Dot;
    UnstageColumns(c, keys.d3, keys.norm, x, m, n, w, d, start);
    var x3, m3 := Mul(c, ScaleRows(keys.d3, keys.norm, x, n, w), n, w),
        Mul(c, ScaleRows(keys.d3, keys.norm, m, n, d), n, d);
    UnstageColumns(c, keys.d2, 1.0, x3, m3, n, w, d, start);
    var x2, m2 := Mul(c, ScaleRows(keys.d2, 1.0, x3, n, w), n, w), Mul(c, ScaleRows(keys.d2, 1.0, m3, n, d), n, d);
    UnstageColumns(c, keys.d1, 1.0, x2, m2, n, w, d, start);
  }

  function Target(mask: Dct4Mask, m: Mat, p: nat, inverse: bool): (t: Mat)
    requires |mask.planner| == mask.n
    ensures IsMat(t, mask.n, p)
  {
    if inverse then Unapply(mask.planner, mask.keys, m, mask.n, p)
    else Apply(mask.planner, mask.keys, m, mask.n, p)
  }

  lemma {:induction false} TargetColumns(mask: Dct4Mask, inverse: bool, x: Mat, m: Mat, w: nat, d: nat, start: nat)
    requires IsMat(mask.planner, mask.n, mask.n) && start + w <= d
    requires forall i, j {:trigger At(x, i, j)} | 0 <= i < mask.n && 0 <= j < w :: At(x, i, j) == At(m, i, start + j)
    ensures forall i, j {:trigger At(Target(mask, x, w, inverse), i, j)} | 0 <= i < mask.n && 0 <= j < w ::
              At(Target(mask, x, w, inverse), i, j) == At(Target(mask, m, d, inverse), i, start + j)
  {
    hide Apply, Unapply;
    if inverse {
      UnapplyColumns(mask.planner, mask.keys, x, m, mask.n, w, d, start);
    } else {
      ApplyColumns(mask.planner, mask.keys, x, m, mask.n, w, d, start);
    }
  }

  function TileCount(d: nat): nat {
    (d + TILE - 1) / TILE
  }

  /** Tile `t` of a `d`-column buffer: its first column and its width. */
  function TileWidth(t: nat, d: nat): (w: nat)
    requires t < TileCount(d)
    ensures 0 < w <= 16 && t * TILE + w <= d
    ensures forall k: nat {:trigger k / TILE} | k < d :: t * TILE <= k < t * TILE + w <==> k / TILE == t
  {
    var start := t * TILE;
    (if start + TILE < d then start + TILE else d) - start
  }

  /** Copy in, run the cascade, copy out: one tile, on a scratch with stale contents. */
  method ProcessTile(mask: Dct4Mask, buf: array<real>, d: nat, t: nat, tile: array<real>, inverse: bool)
    requires ValidMask(mask) && t < TileCount(d) && buf.Length == Offset(mask.n, d)
    requires tile != buf && Offset(TILE, mask.n) <= tile.Length
    modifies buf, tile
    ensures forall i, k {:trigger At(Rows(buf[..], mask.n, d), i, k)} | 0 <= i < mask.n && 0 <= k < d ::
              At(Rows(buf[..], mask.n, d), i, k)
              == if k / TILE == t then At(Target(mask, Rows(old(buf[..]), mask.n, d), d, inverse), i, k)
                 else At(Rows(old(buf[..]), mask.n, d), i, k)
  {
    hide Offset, Rows, TileMat, Apply, Unapply;
    var n := mask.n;
    ghost var m := Rows(buf[..], n, d);
    var start := t * TILE;
    var w := TileWidth(t, d);
    OffsetMonotone(w, TILE, n);
    CopyTileIn(buf, n, d, start, w, tile);
    ghost var x := TileMat(tile[..Offset(w, n)], n, w);
    if inverse {
      CascadeUnapplyInTile(mask, tile, w);
    } else {
      CascadeApplyInTile(mask, tile, w);
    }
    ghost var y := TileMat(tile[..Offset(w, n)], n, w);
    assert y == Target(mask, x, w, inverse);
    TargetColumns(mask, inverse, x, m, w, d, start);
    hide Target;
    CopyTileOut(tile, w, n, buf, d, start);
    forall i, k | 0 <= i < n && 0 <= k < d
      ensures At(Rows(buf[..], n, d), i, k)
           == if k / TILE == t then At(Target(mask, m, d, inverse), i, k) else At(m, i, k)
    {
      if start <= k < start + w {
        assert At(y, i, k - start) == At(Target(mask, m, d, inverse), i, k);
      }
    }
  }

  /** The tiles of the buffer, in whatever order they are scheduled. */
  method TileLoop(mask: Dct4Mask, buf: array<real>, d: nat, scratch: array<real>, order: seq<nat>, inverse: bool)
    requires ValidMask(mask) && buf.Length == mask.n * d && scratch != buf
    requires IsPerm(order, TileCount(d))
    modifies buf, scratch
    ensures Rows(buf[..], mask.n, d) == Target(mask, Rows(old(buf[..]), mask.n, d), d, inverse)
  {
    hide Offset, Rows, Target;
    var n := mask.n;
    FlatLength(n, d);
    ghost var m := Rows(buf[..], n, d);
    ghost var target := Target(mask, m, d, inverse);
    var tile := scratch;
    if tile.Length < Offset(TILE, n) {
      tile := new real[Offset(TILE, n)];
    }
    for idx := 0 to |order|
      invariant TilesDone(m, Rows(buf[..], n, d), target, n, d, order[..idx])
    {
      ghost var before := Rows(buf[..], n, d);
      ProcessTile(mask, buf, d, order[idx], tile, inverse);
      TilesDoneStep(mask, m, before, Rows(buf[..], n, d), inverse, d, order, idx);
    }
    AllTilesDone(m, Rows(buf[..], n, d), target, n, d, order);
  }

  lemma {:induction false} FlatLength(n: nat, d: nat)
    ensures Offset(n, d) == n * d
  {
  }

  lemma {:induction false} TilesDoneStep(mask: Dct4Mask, m: Mat, before: Mat, after: Mat, inverse: bool, d: nat,
                                         order: seq<nat>, idx: nat)
    requires IsMat(mask.planner, mask.n, mask.n) && IsPerm(order, TileCount(d)) && idx < |order|
    requires IsMat(m, mask.n, d) && IsMat(before, mask.n, d)
    requires TilesDone(m, before, Target(mask, m, d, inverse), mask.n, d, order[..idx])
    requires forall i, k {:trigger At(after, i, k)} | 0 <= i < mask.n && 0 <= k < d ::
               At(after, i, k) == if k / TILE == order[idx] then At(Target(mask, before, d, inverse), i, k)
                                  else At(before, i, k)
    ensures TilesDone(m, after, Target(mask, m, d, inverse), mask.n, d, order[..idx + 1])
  {
    hide Target;
    var t := order[idx];
    var start, w := t * TILE, TileWidth(t, d);
    assert t !in order[..idx];
    assert order[..idx + 1] == order[..idx] + [t];
    // The tile read columns no earlier tile had written.
    var x := Build(mask.n, w, (i, j) => At(m, i, start + j));
    forall i, j | 0 <= i < mask.n && 0 <= j < w
      ensures At(x, i, j) == At(before, i, start + j)
    {
      assert (start + j) / TILE == t;
    }
    TargetColumns(mask, inverse, x, m, w, d, start);
    TargetColumns(mask, inverse, x, before, w, d, start);
    forall i, k | 0 <= i < mask.n && 0 <= k < d
      ensures At(after, i, k) == if k / TILE in order[..idx + 1] then At(Target(mask, m, d, inverse), i, k)
              else At(m, i, k)
    {
      if k / TILE == t {
        assert At(Target(mask, x, w, inverse), i, k - start) == At(Target(mask, m, d, inverse), i, k);
      }
      assert At(before, i, k) == if k / TILE in order[..idx] then At(Target(mask, m, d, inverse), i, k)
             else At(m, i, k);
    }
  }

  /** The tiles partition the columns, so once all are done the buffer is the target. */
  lemma {:induction false} AllTilesDone(m: Mat, now: Mat, target: Mat, n: nat, d: nat, order: seq<nat>)
    requires IsPerm(order, TileCount(d)) && IsMat(now, n, d) && IsMat(target, n, d)
    requires TilesDone(m, now, target, n, d, order[..|order|])
    ensures now == target
  {
    forall i, k | 0 <= i < n && 0 <= k < d
      ensures At(now, i, k) == At(target, i, k)
    {
      var at := PermOnto(order, TileCount(d), k / TILE);
      assert order[..|order|] == order;
    }
    MatExt(now, target, n, d);
  }

  /** `buf ← A · buf`, tile by tile in any order, over any stale scratch. */
  method ApplyInPlaceSlice(mask: Dct4Mask, buf: array<real>, cols: nat, scratch: array<real>, order: seq<nat>)
    requires ValidMask(mask) && buf.Length == mask.n * cols && scratch != buf
    requires IsPerm(order, TileCount(cols))
    modifies buf, scratch
    ensures Rows(buf[..], mask.n, cols) == MaskApply(mask, Rows(old(buf[..]), mask.n, cols), cols)
  {
    if mask.n < 2 || cols == 0 {
      EmptyRows(buf[..], mask.n, cols, MaskApply(mask, Rows(buf[..], mask.n, cols), cols));
      return;
    }
    TileLoop(mask, buf, cols, scratch, order, false);
  }

  /** `buf ← Aᵀ · buf`, tile by tile in any order, over any stale scratch. */
  method UnapplyInPlaceSlice(mask: Dct4Mask, buf: array<real>, cols: nat, scratch: array<real>, order: seq<nat>)
    requires ValidMask(mask) && buf.Length == mask.n * cols && scratch != buf
    requires IsPerm(order, TileCount(cols))
    modifies buf, scratch
    ensures Rows(buf[..], mask.n, cols) == MaskUnapply(mask, Rows(old(buf[..]), mask.n, cols), cols)
  {
    if mask.n < 2 || cols == 0 {
      EmptyRows(buf[..], mask.n, cols, MaskUnapply(mask, Rows(buf[..], mask.n, cols), cols));
      return;
    }
    TileLoop(mask, buf, cols, scratch, order, true);
  }

  lemma {:induction false} EmptyRows(s: seq<real>, n: nat, d: nat, m: Mat)
    requires (n < 2 && m == Rows(s, n, d)) || (d == 0 && IsMat(m, n, 0))
    ensures Rows(s, n, d) == m
  {
    if d == 0 {
      MatExt(Rows(s, n, d), m, n, 0);
    }
  }

  /** DCT-IV round trip at every side length: `unapply(apply(X)·W) = X·W`. */
  lemma {:induction false} Dct4RoundTrip(mask: Dct4Mask, x: Mat, w: Mat, p: nat, q: nat)
    requires ValidMask(mask) && IsMat(x, mask.n, p) && IsMat(w, p, q)
    ensures MaskUnapply(mask, Mul(MaskApply(mask, x, p), w, p, q), q) == Mul(x, w, p, q)
  {
    if mask.n >= 2 {
      RoundTrip(mask.planner, mask.n, mask.n as real / 2.0, mask.keys, x, w, p, q);
    }
  }
}
