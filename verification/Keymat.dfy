/** The key-matrix rewrite of a transformer's tensors: every tensor that reads or writes the
    residual stream is multiplied by one of two matrices with `P·Q = I`, and the norm weights
    are fused into the tensors that follow them. */
module Keymat {
  import opened Sums
  import opened LinAlg

  /** One half of a layer, tensors as stored: normalise, read the residual through each `(out, d)`
      tensor, mix, and write back through a `(d, out)` tensor. Attention and the gated
      feed-forward are both of this form; `mix` is everything off the residual. */
  datatype Block = Block(gamma: seq<real>, inputs: seq<Mat>, mix: seq<Mat> -> Mat, output: Mat, mid: nat)

  datatype Model = Model(embed: Mat, blocks: seq<Block>, gamma: seq<real>, head: Mat)

  /** The two key matrices and the scale of the rewritten norms. */
  datatype Keys = Keys(p: Mat, q: Mat, kappa: real)

  ghost predicate ValidKeys(keys: Keys, d: nat, wide: nat) {
    IsMat(keys.p, d, wide) && IsMat(keys.q, wide, d) && Mul(keys.p, keys.q, wide, d) == Identity(d)
  }

  ghost predicate ValidBlock(b: Block, n: nat, d: nat) {
    && |b.gamma| == d && IsMat(b.output, d, b.mid)
    && (forall i {:trigger b.inputs[i]} | 0 <= i < |b.inputs| :: IsMat(b.inputs[i], |b.inputs[i]|, d))
    && (forall ys {:trigger b.mix(ys)} :: IsMat(b.mix(ys), n, b.mid))
  }

  ghost predicate ValidModel(m: Model, n: nat, d: nat) {
    && IsMat(m.embed, |m.embed|, d) && IsMat(m.head, |m.head|, d) && |m.gamma| == d
    && forall i {:trigger m.blocks[i]} | 0 <= i < |m.blocks| :: ValidBlock(m.blocks[i], n, d)
  }

  // ─── running a model ───

  /** Rows scaled to unit size by `inv`, then channel by channel by `gamma`. */
  function Normed(x: Mat, n: nat, d: nat, inv: seq<real> -> real, gamma: seq<real>): (m: Mat)
    ensures IsMat(m, n, d)
    ensures forall i, j :: 0 <= i < n && 0 <= j < d ==>
              At(m, i, j) == At(x, i, j) * (RowScale(x, i, inv) * Entry(gamma, j))
  {
    Build(n, d, (i, j) => At(x, i, j) * (RowScale(x, i, inv) * Entry(gamma, j)))
  }

  function RowScale(x: Mat, i: int, inv: seq<real> -> real): real {
    if 0 <= i < |x| then inv(x[i]) else 0.0
  }

  /** `x·Wᵀ` for a stored tensor `W`. */
  function Through(x: Mat, w: Mat, d: nat): (y: Mat)
    ensures IsMat(y, |x|, |w|)
  {
    Mul(x, Transpose(w, |w|, d), d, |w|)
  }

  function Read(b: Block, x: Mat, n: nat, d: nat, inv: seq<real> -> real): (ys: seq<Mat>)
    ensures |ys| == |b.inputs|
  {
    seq(|b.inputs|, i requires 0 <= i < |b.inputs| => Through(Normed(x, n, d, inv, b.gamma), b.inputs[i], d))
  }

  function Step(b: Block, x: Mat, n: nat, d: nat, inv: seq<real> -> real): (x': Mat)
    ensures IsMat(x', n, d)
  {
    Add(x, Mul(b.mix(Read(b, x, n, d, inv)), Transpose(b.output, d, b.mid), b.mid, d), n, d)
  }

  function Residual(blocks: seq<Block>, x: Mat, n: nat, d: nat, inv: seq<real> -> real): (x': Mat)
    requires IsMat(x, n, d)
    ensures IsMat(x', n, d)
    decreases |blocks|
  {
    if blocks == [] then x else Residual(blocks[1..], Step(blocks[0], x, n, d, inv), n, d, inv)
  }

  function Embedded(embed: Mat, ids: seq<nat>, d: nat): (x: Mat)
    ensures IsMat(x, |ids|, d)
    ensures forall i, j :: 0 <= i < |ids| && 0 <= j < d ==> At(x, i, j) == At(embed, ids[i], j)
  {
    Build(|ids|, d, (i, j) => if 0 <= i < |ids| then At(embed, ids[i], j) else 0.0)
  }

  /** One row of logits per position. */
  function Logits(m: Model, ids: seq<nat>, d: nat, inv: seq<real> -> real): (y: Mat) {
    var x := Residual(m.blocks, Embedded(m.embed, ids, d), |ids|, d, inv);
    Through(Normed(x, |ids|, d, inv, m.gamma), m.head, d)
  }

  // ─── the rewrite ───

  /** `W·Diag(γ)`: a norm's weights moved into the tensor that follows it. */
  function FuseGamma(w: Mat, gamma: seq<real>, d: nat): (m: Mat)
    ensures IsMat(m, |w|, d)
    ensures forall i, j :: 0 <= i < |w| && 0 <= j < d ==> At(m, i, j) == At(w, i, j) * Entry(gamma, j)
  {
    Build(|w|, d, (i, j) => At(w, i, j) * Entry(gamma, j))
  }

  /** A reading tensor: fused, then `· Qᵀ`. */
  function RewriteRead(w: Mat, gamma: seq<real>, keys: Keys, d: nat, wide: nat): (m: Mat)
    ensures IsMat(m, |w|, wide)
  {
    Mul(FuseGamma(w, gamma, d), Transpose(keys.q, wide, d), d, wide)
  }

  /** A writing tensor: `Pᵀ ·` */
  function RewriteWrite(w: Mat, mid: nat, keys: Keys, d: nat, wide: nat): (m: Mat)
    ensures IsMat(m, wide, mid)
  {
    Mul(Transpose(keys.p, d, wide), w, d, mid)
  }

  // ─── the model and the rewriting, entry by entry ───

  function WriteTerm(mixed: Mat, output: Mat, i: int, j: int): int -> real {
    t => At(mixed, i, t) * At(output, j, t)
  }

  function NormedTerm(x: Mat, scale: real, gamma: seq<real>, w: Mat, i: int, m: int): int -> real {
    j => At(x, i, j) * scale * Entry(gamma, j) * At(w, m, j)
  }

  /** A projection reads the row divided by its norm and weighted by `γ`. */
  lemma {:induction false} ReadIs(b: Block, x: Mat, n: nat, d: nat, inv: seq<real> -> real, k: nat, i: nat, m: nat)
    requires ValidBlock(b, n, d) && IsMat(x, n, d) && k < |b.inputs| && i < n && m < |b.inputs[k]|
    ensures At(Read(b, x, n, d, inv)[k], i, m) == Sum(d, NormedTerm(x, inv(x[i]), b.gamma, b.inputs[k], i, m))
  {
    var w, normed := b.inputs[k], Normed(x, n, d, inv, b.gamma);
    forall j | 0 <= j < d
      ensures Term(normed, Transpose(w, |w|, d), i, m)(j) == NormedTerm(x, inv(x[i]), b.gamma, w, i, m)(j)
    {
      assert At(normed, i, j) == At(x, i, j) * (inv(x[i]) * Entry(b.gamma, j));
      TimesThree(At(x, i, j), inv(x[i]), Entry(b.gamma, j));
    }
    SumCong(d, Term(normed, Transpose(w, |w|, d), i, m), NormedTerm(x, inv(x[i]), b.gamma, w, i, m));
  }

  lemma {:induction false} TimesThree(a: real, b: real, c: real)
    ensures a * (b * c) == a * b * c
  {
  }

  /** A block adds what it writes to the residual stream. */
  lemma {:induction false} StepIs(b: Block, x: Mat, n: nat, d: nat, inv: seq<real> -> real, i: nat, j: nat)
    requires ValidBlock(b, n, d) && IsMat(x, n, d) && i < n && j < d
    ensures At(Step(b, x, n, d, inv), i, j)
         == At(x, i, j) + Sum(b.mid, WriteTerm(b.mix(Read(b, x, n, d, inv)), b.output, i, j))
  {
    hide Read;
    var mixed := b.mix(Read(b, x, n, d, inv));
    SumCong(b.mid, Term(mixed, Transpose(b.output, d, b.mid), i, j), WriteTerm(mixed, b.output, i, j));
  }

  /** Blocks act in the order of the list. */
  lemma {:induction false} ResidualAppend(blocks: seq<Block>, b: Block, x: Mat, n: nat, d: nat,
                                          inv: seq<real> -> real)
    requires IsMat(x, n, d)
    ensures Residual(blocks + [b], x, n, d, inv) == Step(b, Residual(blocks, x, n, d, inv), n, d, inv)
    decreases |blocks|
  {
    hide Step;
    if blocks == [] {
      assert ([] + [b])[1..] == [];
    } else {
      assert (blocks + [b])[1..] == blocks[1..] + [b];
      ResidualAppend(blocks[1..], b, Step(blocks[0], x, n, d, inv), n, d, inv);
    }
  }

  function ReadKeyTerm(w: Mat, gamma: seq<real>, q: Mat, m: int, c: int): int -> real {
    j => At(w, m, j) * Entry(gamma, j) * At(q, c, j)
  }

  function WriteKeyTerm(p: Mat, w: Mat, c: int, t: int): int -> real {
    j => At(p, j, c) * At(w, j, t)
  }

  /** What the rewriting stores: reads folded with `γ` and `Q`, writes with `P`, the flat norm weight, and
      the embedding through `P`. */
  lemma {:induction false} RewritesAre(w: Mat, gamma: seq<real>, keys: Keys, d: nat, wide: nat, mid: nat, m: nat,
                                       c: nat, t: nat)
    requires c < wide && m < |w| && t < mid
    ensures At(RewriteRead(w, gamma, keys, d, wide), m, c) == Sum(d, ReadKeyTerm(w, gamma, keys.q, m, c))
    ensures At(RewriteWrite(w, mid, keys, d, wide), c, t) == Sum(d, WriteKeyTerm(keys.p, w, c, t))
    ensures FlatGamma(keys.kappa, wide)[c] == keys.kappa
  {
    SumCong(d, Term(FuseGamma(w, gamma, d), Transpose(keys.q, wide, d), m, c), ReadKeyTerm(w, gamma, keys.q, m, c));
    SumCong(d, Term(Transpose(keys.p, d, wide), w, c, t), WriteKeyTerm(keys.p, w, c, t));
  }

  function FlatGamma(kappa: real, wide: nat): (g: seq<real>)
    ensures |g| == wide && forall j :: 0 <= j < wide ==> g[j] == kappa
  {
    seq(wide, j => kappa)
  }

  function RewriteBlock(b: Block, keys: Keys, d: nat, wide: nat): Block {
    Block(FlatGamma(keys.kappa, wide),
          seq(|b.inputs|, i requires 0 <= i < |b.inputs| => RewriteRead(b.inputs[i], b.gamma, keys, d, wide)),
          b.mix, RewriteWrite(b.output, b.mid, keys, d, wide), b.mid)
  }

  function RewriteModel(m: Model, keys: Keys, d: nat, wide: nat): Model {
    Model(Mul(m.embed, keys.p, d, wide),
          seq(|m.blocks|, i requires 0 <= i < |m.blocks| => RewriteBlock(m.blocks[i], keys, d, wide)),
          FlatGamma(keys.kappa, wide), RewriteRead(m.head, m.gamma, keys, d, wide))
  }

  // ─── reading the residual ───

  /** `x·P` read through `W·Qᵀ` is `x` read through `W`: the keys cancel. */
  lemma {:induction false} KeysCancel(x: Mat, w: Mat, keys: Keys, n: nat, d: nat, wide: nat)
    requires ValidKeys(keys, d, wide) && IsMat(x, n, d) && IsMat(w, |w|, d)
    ensures Through(Mul(x, keys.p, d, wide), Mul(w, Transpose(keys.q, wide, d), d, wide), wide) == Through(x, w, d)
  {
    var qt, wt := Transpose(keys.q, wide, d), Transpose(w, |w|, d);
    TransposeMul(w, qt, |w|, d, wide);
    TransposeTwice(keys.q, wide, d);
    hide Mul, Transpose;
    MulAssoc(Mul(x, keys.p, d, wide), keys.q, wt, n, wide, d, |w|);
    MulAssoc(x, keys.p, keys.q, n, d, wide, d);
    MulIdentityRight(x, n, d);
  }

  /** A read of normalised rows, with the row's scale taken out. */
  lemma {:induction false} ReadEntry(x: Mat, w: Mat, gamma: seq<real>, n: nat, d: nat, inv: seq<real> -> real, i: nat,
                                     m: nat)
    requires IsMat(x, n, d) && IsMat(w, |w|, d) && i < n && m < |w|
    ensures At(Through(Normed(x, n, d, inv, gamma), w, d), i, m)
         == RowScale(x, i, inv) * At(Through(x, FuseGamma(w, gamma, d), d), i, m)
  {
    var normed, fused := Normed(x, n, d, inv, gamma), FuseGamma(w, gamma, d);
    var f, g := Term(x, Transpose(fused, |w|, d), i, m), Term(normed, Transpose(w, |w|, d), i, m);
    var c := RowScale(x, i, inv);
    forall t | 0 <= t < d
      ensures g(t) == c * f(t)
    {
      ReadTerm(x, w, gamma, n, d, inv, i, m, t);
    }
    hide Normed, FuseGamma, RowScale;
    SumScale(d, c, f, g);
  }

  lemma {:induction false} ReadTerm(x: Mat, w: Mat, gamma: seq<real>, n: nat, d: nat, inv: seq<real> -> real, i: nat,
                                    m: nat, t: int)
    requires IsMat(x, n, d) && IsMat(w, |w|, d) && i < n && m < |w| && 0 <= t < d
    ensures Term(Normed(x, n, d, inv, gamma), Transpose(w, |w|, d), i, m)(t)
         == RowScale(x, i, inv) * Term(x, Transpose(FuseGamma(w, gamma, d), |w|, d), i, m)(t)
  {
    hide RowScale;
    Regroup(At(x, i, t), RowScale(x, i, inv), Entry(gamma, t), At(w, m, t));
  }

  lemma {:induction false} Regroup(x: real, c: real, g: real, w: real)
    ensures (x * (c * g)) * w == c * (x * (w * g))
  {
  }

  lemma {:induction false} FlatEntry(y: Mat, w: Mat, kappa: real, n: nat, d: nat, inv: seq<real> -> real, i: nat,
                                     m: nat)
    requires IsMat(y, n, d) && IsMat(w, |w|, d) && i < n && m < |w|
    ensures At(Through(Normed(y, n, d, inv, FlatGamma(kappa, d)), w, d), i, m)
         == (kappa * RowScale(y, i, inv)) * At(Through(y, w, d), i, m)
  {
    var normed, c := Normed(y, n, d, inv, FlatGamma(kappa, d)), kappa * RowScale(y, i, inv);
    forall t | 0 <= t < d
      ensures At(normed, i, t) == c * At(y, i, t)
    {
      assert At(normed, i, t) == At(y, i, t) * (RowScale(y, i, inv) * kappa);
    }
    DotScaleLeft(normed, y, Transpose(w, |w|, d), d, i, m, c);
  }

  /** What a rewritten tensor reads from the rewritten residual against what the plain one reads from
      the plain residual: the same number, times the one scale or the other. */
  lemma {:induction false} ReadRatio(x: Mat, w: Mat, gamma: seq<real>, keys: Keys, n: nat, d: nat, wide: nat,
                                     inv: seq<real> -> real, i: nat, m: nat)
    returns (s: real)
    requires ValidKeys(keys, d, wide) && IsMat(x, n, d) && IsMat(w, |w|, d) && i < n && m < |w|
    ensures At(Through(Normed(x, n, d, inv, gamma), w, d), i, m) == RowScale(x, i, inv) * s
    ensures var y := Mul(x, keys.p, d, wide);
            At(Through(Normed(y, n, wide, inv, FlatGamma(keys.kappa, wide)), RewriteRead(w, gamma, keys, d, wide),
                       wide), i, m)
            == (keys.kappa * RowScale(y, i, inv)) * s
  {
    s := At(Through(x, FuseGamma(w, gamma, d), d), i, m);
    hide Through, Normed, RowScale, FlatGamma, Mul, ValidKeys;
    ReadEntry(x, w, gamma, n, d, inv, i, m);
    KeysCancel(x, FuseGamma(w, gamma, d), keys, n, d, wide);
    FlatEntry(Mul(x, keys.p, d, wide), RewriteRead(w, gamma, keys, d, wide), keys.kappa, n, wide, inv, i, m);
  }

  /** The norm scale `κ` fits row `i`: it makes up for what `P` does to the row's size. */
  predicate RowFits(x: Mat, keys: Keys, d: nat, wide: nat, inv: seq<real> -> real, i: nat) {
    keys.kappa * RowScale(Mul(x, keys.p, d, wide), i, inv) == RowScale(x, i, inv)
  }

  ghost predicate Calibrated(x: Mat, keys: Keys, n: nat, d: nat, wide: nat, inv: seq<real> -> real) {
    forall i: nat :: i < n ==> RowFits(x, keys, d, wide, inv, i)
  }

  lemma {:induction false} CalibratedRows(x: Mat, keys: Keys, n: nat, d: nat, wide: nat, inv: seq<real> -> real)
    ensures Calibrated(x, keys, n, d, wide, inv) <==> forall i: nat :: i < n ==> RowFits(x, keys, d, wide, inv, i)
  {
  }

  lemma {:induction false} ReadCompared(x: Mat, w: Mat, gamma: seq<real>, keys: Keys, n: nat, d: nat, wide: nat,
                                        inv: seq<real> -> real, i: nat, m: nat)
    requires ValidKeys(keys, d, wide) && IsMat(x, n, d) && IsMat(w, |w|, d) && i < n && m < |w|
    ensures var plain := At(Through(Normed(x, n, d, inv, gamma), w, d), i, m);
            var rewritten := At(Through(Normed(Mul(x, keys.p, d, wide), n, wide, inv, FlatGamma(keys.kappa, wide)),
                                        RewriteRead(w, gamma, keys, d, wide), wide), i, m);
            && (RowFits(x, keys, d, wide, inv, i) ==> rewritten == plain)
            && (plain != 0.0 && rewritten == plain ==> RowFits(x, keys, d, wide, inv, i))
  {
    hide Mul, Through, Normed, RewriteRead, RowScale, ValidKeys, IsMat;
    var s := ReadRatio(x, w, gamma, keys, n, d, wide, inv, i, m);
    SameScale(keys.kappa * RowScale(Mul(x, keys.p, d, wide), i, inv), RowScale(x, i, inv), s);
  }

  /** Reads agree if the scale fits, and, wherever the plain read is not 0, only if it fits that row. */
  lemma {:induction false} ReadKept(x: Mat, w: Mat, gamma: seq<real>, keys: Keys, n: nat, d: nat, wide: nat,
                                    inv: seq<real> -> real)
    requires ValidKeys(keys, d, wide) && IsMat(x, n, d) && IsMat(w, |w|, d)
    ensures var y := Mul(x, keys.p, d, wide);
            var plain := Through(Normed(x, n, d, inv, gamma), w, d);
            var rewritten := Through(Normed(y, n, wide, inv, FlatGamma(keys.kappa, wide)),
                                     RewriteRead(w, gamma, keys, d, wide), wide);
            && (Calibrated(x, keys, n, d, wide, inv) ==> rewritten == plain)
            && (forall i: nat, m: nat {:trigger At(plain, i, m)} | i < n && m < |w| && At(plain, i, m) != 0.0 ::
                  At(rewritten, i, m) == At(plain, i, m) <==> RowFits(x, keys, d, wide, inv, i))
  {
    var y := Mul(x, keys.p, d, wide);
    var plain := Through(Normed(x, n, d, inv, gamma), w, d);
    var rewritten := Through(Normed(y, n, wide, inv, FlatGamma(keys.kappa, wide)),
                             RewriteRead(w, gamma, keys, d, wide), wide);
    assert IsMat(plain, n, |w|) && IsMat(rewritten, n, |w|);
    hide *;
    forall i: nat, m: nat | i < n && m < |w|
      ensures RowFits(x, keys, d, wide, inv, i) ==> At(rewritten, i, m) == At(plain, i, m)
      ensures At(plain, i, m) != 0.0 && At(rewritten, i, m) == At(plain, i, m) ==> RowFits(x, keys, d, wide, inv, i)
    {
      ReadCompared(x, w, gamma, keys, n, d, wide, inv, i, m);
    }
    CalibratedRows(x, keys, n, d, wide, inv);
    if Calibrated(x, keys, n, d, wide, inv) {
      MatExt(rewritten, plain, n, |w|);
    }
  }

  lemma {:induction false} SameScale(a: real, b: real, s: real)
    ensures b * s != 0.0 && a * s == b * s ==> a == b
  {
    if s != 0.0 && a * s == b * s {
      assert a == (a * s) / s;
      assert b == (b * s) / s;
    }
  }

  // ─── whole runs ───

  /** One block: the rewritten residual stays the plain one times `P`. */
  lemma {:induction false} StepKept(b: Block, x: Mat, keys: Keys, n: nat, d: nat, wide: nat, inv: seq<real> -> real)
    requires ValidKeys(keys, d, wide) && ValidBlock(b, n, d) && IsMat(x, n, d) && Calibrated(x, keys, n, d, wide, inv)
    ensures Step(RewriteBlock(b, keys, d, wide), Mul(x, keys.p, d, wide), n, wide, inv)
         == Mul(Step(b, x, n, d, inv), keys.p, d, wide)
  {
    var r, y := RewriteBlock(b, keys, d, wide), Mul(x, keys.p, d, wide);
    ReadsKept(b, x, keys, n, d, wide, inv);
    var mixed := b.mix(Read(b, x, n, d, inv));
    var wt := Transpose(b.output, d, b.mid);
    assert IsMat(mixed, n, b.mid) && IsMat(b.output, d, b.mid) && IsMat(keys.p, d, wide);
    WriteKept(mixed, b.output, n, b.mid, keys, d, wide);
    MulAddLeft(x, Mul(mixed, wt, b.mid, d), keys.p, n, d, wide);
  }

  lemma {:induction false} ReadsKept(b: Block, x: Mat, keys: Keys, n: nat, d: nat, wide: nat, inv: seq<real> -> real)
    requires ValidKeys(keys, d, wide) && ValidBlock(b, n, d) && IsMat(x, n, d) && Calibrated(x, keys, n, d, wide, inv)
    ensures Read(RewriteBlock(b, keys, d, wide), Mul(x, keys.p, d, wide), n, wide, inv) == Read(b, x, n, d, inv)
  {
    var r := RewriteBlock(b, keys, d, wide);
    hide Mul, Through, Normed, RewriteRead, Calibrated, ValidKeys;
    forall i | 0 <= i < |b.inputs|
      ensures Read(r, Mul(x, keys.p, d, wide), n, wide, inv)[i] == Read(b, x, n, d, inv)[i]
    {
      assert IsMat(b.inputs[i], |b.inputs[i]|, d);
      ReadKept(x, b.inputs[i], b.gamma, keys, n, d, wide, inv);
    }
  }

  /** `y·(Pᵀ·W)ᵀ = (y·Wᵀ)·P` */
  lemma {:induction false} WriteKept(y: Mat, w: Mat, n: nat, mid: nat, keys: Keys, d: nat, wide: nat)
    requires IsMat(y, n, mid) && IsMat(w, d, mid) && IsMat(keys.p, d, wide)
    ensures Mul(y, Transpose(RewriteWrite(w, mid, keys, d, wide), wide, mid), mid, wide)
         == Mul(Mul(y, Transpose(w, d, mid), mid, d), keys.p, d, wide)
  {
    var pt, wt := Transpose(keys.p, d, wide), Transpose(w, d, mid);
    TransposeMul(pt, w, wide, d, mid);
    TransposeTwice(keys.p, d, wide);
    hide Mul, Transpose;
    MulAssoc(y, wt, keys.p, n, mid, d, wide);
  }

  /** The scale fits every residual the plain run goes through, the last one included. */
  ghost predicate CalibratedRun(blocks: seq<Block>, x: Mat, keys: Keys, n: nat, d: nat, wide: nat,
                                inv: seq<real> -> real)
    decreases |blocks|
  {
    && Calibrated(x, keys, n, d, wide, inv)
    && (blocks == [] || CalibratedRun(blocks[1..], Step(blocks[0], x, n, d, inv), keys, n, d, wide, inv))
  }

  function RewriteBlocks(blocks: seq<Block>, keys: Keys, d: nat, wide: nat): (r: seq<Block>)
    ensures |r| == |blocks| && forall i {:trigger r[i]} | 0 <= i < |blocks| ::
              r[i] == RewriteBlock(blocks[i], keys, d, wide)
  {
    seq(|blocks|, i requires 0 <= i < |blocks| => RewriteBlock(blocks[i], keys, d, wide))
  }

  /** The residual invariant over any number of blocks: `x_obf = x·P` throughout. */
  lemma {:induction false} ResidualKept(blocks: seq<Block>, x: Mat, keys: Keys, n: nat, d: nat, wide: nat,
                                        inv: seq<real> -> real)
    requires ValidKeys(keys, d, wide) && IsMat(x, n, d) && CalibratedRun(blocks, x, keys, n, d, wide, inv)
    requires forall i {:trigger blocks[i]} | 0 <= i < |blocks| :: ValidBlock(blocks[i], n, d)
    ensures IsMat(Mul(x, keys.p, d, wide), n, wide)
    ensures Residual(RewriteBlocks(blocks, keys, d, wide), Mul(x, keys.p, d, wide), n, wide, inv)
         == Mul(Residual(blocks, x, n, d, inv), keys.p, d, wide)
    ensures Calibrated(Residual(blocks, x, n, d, inv), keys, n, d, wide, inv)
    decreases |blocks|
  {
    hide Mul, Step, RewriteBlock, Calibrated, ValidBlock, ValidKeys;
    if blocks != [] {
      assert ValidBlock(blocks[0], n, d);
      var next := Step(blocks[0], x, n, d, inv);
      StepKept(blocks[0], x, keys, n, d, wide, inv);
      ResidualKept(blocks[1..], next, keys, n, d, wide, inv);
      var all := RewriteBlocks(blocks, keys, d, wide);
      assert all[0] == RewriteBlock(blocks[0], keys, d, wide);
      assert all[1..] == RewriteBlocks(blocks[1..], keys, d, wide);
    }
  }

  lemma {:induction false} EmbeddedKept(embed: Mat, ids: seq<nat>, keys: Keys, d: nat, wide: nat)
    requires IsMat(embed, |embed|, d) && forall i :: 0 <= i < |ids| ==> ids[i] < |embed|
    ensures Embedded(Mul(embed, keys.p, d, wide), ids, wide) == Mul(Embedded(embed, ids, d), keys.p, d, wide)
  {
    var a, b := Embedded(Mul(embed, keys.p, d, wide), ids, wide), Mul(Embedded(embed, ids, d), keys.p, d, wide);
    forall i, j | 0 <= i < |ids| && 0 <= j < wide
      ensures At(a, i, j) == At(b, i, j)
    {
      SumCong(d, Term(embed, keys.p, ids[i], j), Term(Embedded(embed, ids, d), keys.p, i, j));
    }
    MatExt(a, b, |ids|, wide);
  }

  /** The rewritten model computes the plain model's logits, token by token, whenever the norm scale fits
      the residuals of the plain run. */
  lemma {:induction false} LogitsKept(m: Model, ids: seq<nat>, keys: Keys, d: nat, wide: nat, inv: seq<real> -> real)
    requires ValidKeys(keys, d, wide) && ValidModel(m, |ids|, d) && forall i :: 0 <= i < |ids| ==> ids[i] < |m.embed|
    requires CalibratedRun(m.blocks, Embedded(m.embed, ids, d), keys, |ids|, d, wide, inv)
    ensures Logits(RewriteModel(m, keys, d, wide), ids, wide, inv) == Logits(m, ids, d, inv)
  {
    var n := |ids|;
    var r := RewriteModel(m, keys, d, wide);
    var start := Embedded(m.embed, ids, d);
    EmbeddedKept(m.embed, ids, keys, d, wide);
    ResidualKept(m.blocks, start, keys, n, d, wide, inv);
    assert r.blocks == RewriteBlocks(m.blocks, keys, d, wide);
    var x := Residual(m.blocks, start, n, d, inv);
    hide Mul, Through, Normed, RewriteRead, Calibrated, CalibratedRun, ValidKeys, Residual, Embedded, RewriteBlock;
    ReadKept(x, m.head, m.gamma, keys, n, d, wide, inv);
  }
}
