/** One offload of the masked executor, apart from its state: stacking, masking, checking
    the engine's outputs, unmasking and stripping. */
module Offload {
  import opened LinAlg
  import opened Blocks
  import opened Masks
  import opened Stacking
  import opened Protocol
  import opened Batches
  import opened Integrity
  import opened Counting
  import Haar

  datatype Check = Passed | Failed(error: Error)

  function ProbeVectors(count: nat, p: nat, coeff: (nat, nat) -> int): (probes: seq<seq<int>>)
    ensures |probes| == count
    ensures forall r :: r in probes ==> |r| == p
  {
    seq(count, t => seq(p, j => if t >= 0 && j >= 0 then coeff(t, j) else 0))
  }

  ghost predicate Honest(weights: Engine, handles: seq<WeightHandle>, masked: Mat, d: nat, outs: seq<Mat>) {
    && |outs| == |handles|
    && forall i {:trigger outs[i]} | 0 <= i < |handles| ::
         && handles[i] in weights && weights[handles[i]].d == d
         && IsMat(weights[handles[i]].m, d, weights[handles[i]].p)
         && outs[i] == Mul(masked, weights[handles[i]].m, d, weights[handles[i]].p)
  }

  /** The `i`-th probe seed, one coefficient per position. */
  function Coefficients(coeff: (nat, nat, nat) -> int, i: nat): (nat, nat) -> int {
    (t: nat, j: nat) => coeff(i, t, j)
  }

  /** An output of shape `(|out|, width)` that the kept weight vouches for. */
  ghost predicate OutputAccepted(count: nat, weights: Engine, h: WeightHandle, masked: Mat, d: nat, out: Mat,
                                 width: nat, coeff: (nat, nat) -> int)
  {
    && h in weights && weights[h].d == d && |out| == |masked| && width == weights[h].p
    && Accepts(masked, weights[h].m, out, |masked|, d, width, ProbeVectors(count, width, coeff))
  }

  /** One output against the weight kept on the trusted side. */
  method VerifyOne(count: nat, weights: Engine, h: WeightHandle, masked: Mat, d: nat, out: Mat, width: nat,
                   coeff: (nat, nat) -> int)
    returns (check: Check)
    requires count > 0 && IsMat(masked, |masked|, d) && IsMat(out, |out|, width)
    requires h in weights ==> IsMat(weights[h].m, weights[h].d, weights[h].p)
    ensures check == Passed <==> OutputAccepted(count, weights, h, masked, d, out, width, coeff)
    ensures check != Passed ==> check == Failed(if h in weights then VerifyFailed else NotCached(h))
  {
    if h !in weights {
      return Failed(NotCached(h));
    }
    var weight := weights[h];
    var probes := ProbeVectors(count, weight.p, coeff);
    hide ProbePasses, RowPasses, Mul, AllPass, IsRoundoff, Accepts, ProbeVectors;
    var verdict, bound := VerifyOffload(masked, |masked|, d, weight.m, weight.d, weight.p, out, |out|, width, probes);
    if verdict != WrongShape {
      AcceptsIs(masked, weight.m, out, |masked|, d, weight.p, bound, probes);
    }
    return if verdict == Accepted then Passed else Failed(VerifyFailed);
  }

  ghost predicate FirstRefused(count: nat, weights: Engine, handles: seq<WeightHandle>, masked: Mat, d: nat,
                               outs: seq<Mat>, widths: seq<nat>, coeff: (nat, nat, nat) -> int, i: nat)
    requires |outs| == |handles| == |widths| && i < |handles|
  {
    && !OutputAccepted(count, weights, handles[i], masked, d, outs[i], widths[i], Coefficients(coeff, i))
    && forall j: nat {:trigger Coefficients(coeff, j)} | j < i ::
         OutputAccepted(count, weights, handles[j], masked, d, outs[j], widths[j], Coefficients(coeff, j))
  }

  /** Probe `t` of output `i` holds the coefficients drawn for that output and that probe. */
  lemma {:induction false} ProbesAre(count: nat, p: nat, coeff: (nat, nat, nat) -> int, i: nat, t: nat, j: nat)
    requires t < count && j < p
    ensures |ProbeVectors(count, p, Coefficients(coeff, i))| == count
    ensures |ProbeVectors(count, p, Coefficients(coeff, i))[t]| == p
    ensures ProbeVectors(count, p, Coefficients(coeff, i))[t][j] == coeff(i, t, j)
  {
  }

  /** Answers to one operand: a matrix per handle, as tall as the operand. */
  ghost predicate IsReply(outs: seq<Mat>, handles: seq<WeightHandle>, rows: nat, widths: seq<nat>) {
    && |outs| == |handles| == |widths|
    && forall i {:trigger outs[i]} | 0 <= i < |outs| :: IsMat(outs[i], rows, widths[i])
  }

  ghost predicate AllAccepted(count: nat, weights: Engine, handles: seq<WeightHandle>, masked: Mat, d: nat,
                              outs: seq<Mat>, widths: seq<nat>, coeff: (nat, nat, nat) -> int)
    requires |outs| == |handles| == |widths|
  {
    count == 0 || forall i: nat {:trigger Coefficients(coeff, i)} | i < |handles| ::
      OutputAccepted(count, weights, handles[i], masked, d, outs[i], widths[i], Coefficients(coeff, i))
  }

  /** The error for the first output refused. */
  ghost predicate Refusal(count: nat, weights: Engine, handles: seq<WeightHandle>, masked: Mat, d: nat, outs: seq<Mat>,
                          widths: seq<nat>, coeff: (nat, nat, nat) -> int, error: Error)
    requires |outs| == |handles| == |widths|
  {
    exists i: nat ::
      && i < |handles| && FirstRefused(count, weights, handles, masked, d, outs, widths, coeff, i)
      && error == if handles[i] in weights then VerifyFailed else NotCached(handles[i])
  }

  /** What passing says of output `i`: its weight is at hand, the shapes agree, and no row of the
      answer is farther from the product than the tolerance under any of its own probes. */
  lemma {:induction false} PassedMeans(count: nat, weights: Engine, handles: seq<WeightHandle>, masked: Mat, d: nat,
                                       outs: seq<Mat>, widths: seq<nat>, coeff: (nat, nat, nat) -> int, i: nat,
                                       probes: seq<seq<int>>, bound: real)
    requires |outs| == |handles| == |widths| && count > 0 && i < |handles| && |probes| == count
    requires forall t: nat {:trigger probes[t]} | t < count ::
               |probes[t]| == widths[i] && forall j: nat :: j < widths[i] ==> probes[t][j] == coeff(i, t, j)
    requires AllAccepted(count, weights, handles, masked, d, outs, widths, coeff)
    ensures handles[i] in weights && weights[handles[i]].d == d
    ensures |outs[i]| == |masked| && widths[i] == weights[handles[i]].p
    ensures IsRoundoff(bound, masked, weights[handles[i]].m, |masked|, d, widths[i]) ==>
              AllPass(masked, weights[handles[i]].m, outs[i], |masked|, d, widths[i], bound, probes)
  {
    assert OutputAccepted(count, weights, handles[i], masked, d, outs[i], widths[i], Coefficients(coeff, i));
    var drawn := ProbeVectors(count, widths[i], Coefficients(coeff, i));
    forall t: nat | t < count
      ensures drawn[t] == probes[t]
    {
      assert drawn[t] in drawn;
      forall j: nat | j < widths[i]
        ensures drawn[t][j] == probes[t][j]
      {
        ProbesAre(count, widths[i], coeff, i, t, j);
      }
    }
    assert drawn == probes;
    hide IsRoundoff, AllPass;
  }

  /** What a refusal says: some output fails although all before it pass, for want of its weight if the
      error names its handle, otherwise because of its probes. */
  lemma {:induction false} RefusalMeans(count: nat, weights: Engine, handles: seq<WeightHandle>, masked: Mat, d: nat,
                                        outs: seq<Mat>, widths: seq<nat>, coeff: (nat, nat, nat) -> int, error: Error)
    returns (i: nat)
    requires |outs| == |handles| == |widths|
    requires Refusal(count, weights, handles, masked, d, outs, widths, coeff, error)
    ensures i < |handles|
    ensures handles[i] !in weights ==> error == NotCached(handles[i])
    ensures handles[i] in weights ==> error == VerifyFailed
    ensures !OutputAccepted(count, weights, handles[i], masked, d, outs[i], widths[i], Coefficients(coeff, i))
    ensures forall j: nat | j < i ::
              OutputAccepted(count, weights, handles[j], masked, d, outs[j], widths[j], Coefficients(coeff, j))
  {
    hide OutputAccepted, Coefficients;
    i :| i < |handles| && FirstRefused(count, weights, handles, masked, d, outs, widths, coeff, i)
         && error == if handles[i] in weights then VerifyFailed else NotCached(handles[i]);
  }

  /** Every output of one dispatch, in order, when probing is on; the first one refused decides the error. */
  method VerifyOutputs(count: nat, weights: Engine, handles: seq<WeightHandle>, masked: Mat, d: nat, outs: seq<Mat>,
                       widths: seq<nat>, coeff: (nat, nat, nat) -> int)
    returns (check: Check)
    requires IsMat(masked, |masked|, d) && ValidEngine(weights) && |outs| == |handles| == |widths|
    requires forall i {:trigger outs[i]} | 0 <= i < |outs| :: IsMat(outs[i], |outs[i]|, widths[i])
    ensures check == Passed <==> AllAccepted(count, weights, handles, masked, d, outs, widths, coeff)
    ensures check.Failed? ==> Refusal(count, weights, handles, masked, d, outs, widths, coeff, check.error)
  {
    if count == 0 {
      return Passed;
    }
    hide OutputAccepted, Coefficients;
    for i := 0 to |handles|
      invariant forall j: nat {:trigger Coefficients(coeff, j)} | j < i ::
                  OutputAccepted(count, weights, handles[j], masked, d, outs[j], widths[j], Coefficients(coeff, j))
    {
      check := VerifyOne(count, weights, handles[i], masked, d, outs[i], widths[i], Coefficients(coeff, i));
      if check.Failed? {
        assert FirstRefused(count, weights, handles, masked, d, outs, widths, coeff, i);
        return;
      }
    }
    return Passed;
  }

  function Widths(weights: Engine, handles: seq<WeightHandle>): (w: seq<nat>)
    ensures |w| == |handles|
  {
    seq(|handles|, i requires 0 <= i < |handles| => if handles[i] in weights then weights[handles[i]].p else 0)
  }

  lemma {:induction false} HonestOutput(count: nat, weights: Engine, handles: seq<WeightHandle>, masked: Mat, d: nat,
                                        outs: seq<Mat>, i: nat, coeff: (nat, nat) -> int)
    requires Honest(weights, handles, masked, d, outs) && i < |handles| && IsMat(masked, |masked|, d)
    ensures |Widths(weights, handles)| == |handles| == |outs|
    ensures IsMat(outs[i], |masked|, Widths(weights, handles)[i])
    ensures OutputAccepted(count, weights, handles[i], masked, d, outs[i], Widths(weights, handles)[i], coeff)
  {
    assert outs[i] == outs[i];
    var weight := weights[handles[i]];
    HonestProbes(masked, weight.m, |masked|, d, weight.p, ProbeVectors(count, weight.p, coeff));
  }

  /** The outputs of an honest engine are all accepted, whatever the probes. */
  lemma {:induction false} HonestOutputs(count: nat, weights: Engine, handles: seq<WeightHandle>, masked: Mat, d: nat,
                                         outs: seq<Mat>, coeff: (nat, nat, nat) -> int)
    requires Honest(weights, handles, masked, d, outs) && IsMat(masked, |masked|, d)
    ensures IsReply(outs, handles, |masked|, Widths(weights, handles))
    ensures AllAccepted(count, weights, handles, masked, d, outs, Widths(weights, handles), coeff)
  {
    hide OutputAccepted, Coefficients, IsMat, Mul;
    forall i: nat | i < |handles|
      ensures IsMat(outs[i], |masked|, Widths(weights, handles)[i])
      ensures OutputAccepted(count, weights, handles[i], masked, d, outs[i], Widths(weights, handles)[i],
                             Coefficients(coeff, i))
    {
      HonestOutput(count, weights, handles, masked, d, outs, i, Coefficients(coeff, i));
    }
  }

  // ─── one mask over all rows ───

  /** A pooled buffer of the right height if there is one, with its stale contents. */
  method TakeScratch(pool: map<nat, Mat>, d: nat, rows: nat) returns (buf: array<seq<real>>)
    ensures fresh(buf) && buf.Length == rows
  {
    if d in pool && |pool[d]| == rows {
      var stale := pool[d];
      buf := new seq<real>[rows](i requires 0 <= i < |stale| => stale[i]);
    } else {
      buf := new seq<real>[rows](i => ZeroRow(d));
    }
  }

  /** Data and shield rows in a new buffer; without shielding, a copy of the data. */
  method StackShield(hidden: Mat, shield: Shield, d: nat, plat: Platform, z: (int, int) -> real)
    returns (stacked: array<seq<real>>)
    requires Haar.IsSqrt(plat.sqrt) && IsMat(hidden, |hidden|, d)
    ensures fresh(stacked)
    ensures stacked[..] == Stacked(hidden, shield.k, |hidden| + shield.k, d, Amplitude(hidden, d, shield, plat), z)
  {
    hide Sigma, Amplitude;
    var n := |hidden|;
    stacked := new seq<real>[n + shield.k](i => ZeroRow(d));
    var mean := MeanRowNorm(hidden, plat.sqrt);
    AmplitudeIs(hidden, d, shield, plat);
    FillBlock(stacked, 0, hidden, shield.k, n + shield.k, d, Sigma(mean, d, shield.energy, plat.sqrt), z);
    assert stacked[..] == stacked[0..0 + (n + shield.k)];
  }

  lemma {:induction false} AmplitudeIs(data: Mat, d: nat, shield: Shield, plat: Platform)
    requires Haar.IsSqrt(plat.sqrt)
    ensures Amplitude(data, d, shield, plat) == Sigma(MeanNorm(data, plat.sqrt), d, shield.energy, plat.sqrt)
  {
  }

  /** The allocating path: stack, then pad with zero rows up to the mask's height. */
  method StackAndPad(hidden: Mat, shield: Shield, s: nat, d: nat, plat: Platform, z: (int, int) -> real)
    returns (buf: array<seq<real>>)
    requires Haar.IsSqrt(plat.sqrt) && IsMat(hidden, |hidden|, d) && |hidden| + shield.k <= s
    ensures fresh(buf)
    ensures buf[..] == Stacked(hidden, shield.k, s, d, Amplitude(hidden, d, shield, plat), z)
  {
    buf := StackShield(hidden, shield, d, plat, z);
    hide Amplitude;
    if buf.Length < s {
      var stacked := buf[..];
      buf := new seq<real>[s](i => ZeroRow(d));
      WriteRows(buf, 0, stacked);
      PadIs(hidden, shield.k, s, d, Amplitude(hidden, d, shield, plat), z, stacked, buf[..]);
    }
  }

  lemma {:induction false} PadIs(hidden: Mat, k: nat, s: nat, d: nat, sigma: real, z: (int, int) -> real, stacked: Mat,
                                 padded: Mat)
    requires |hidden| + k <= s && stacked == Stacked(hidden, k, |hidden| + k, d, sigma, z)
    requires |padded| == s && padded[..|stacked|] == stacked
    requires forall i {:trigger padded[i]} | |stacked| <= i < s :: padded[i] == ZeroRow(d)
    ensures padded == Stacked(hidden, k, s, d, sigma, z)
  {
    var full := Stacked(hidden, k, s, d, sigma, z);
    hide ShieldRow, ZeroRow;
    forall i | 0 <= i < s
      ensures padded[i] == full[i]
    {
      if i < |stacked| {
        assert padded[i] == stacked[i];
      }
    }
  }

  /** Shield rows and pad rows over a pooled buffer. */
  method StackInto(buf: array<seq<real>>, hidden: Mat, shield: Shield, d: nat, plat: Platform, z: (int, int) -> real)
    requires Haar.IsSqrt(plat.sqrt) && IsMat(hidden, |hidden|, d) && |hidden| + shield.k <= buf.Length
    modifies buf
    ensures buf[..] == Stacked(hidden, shield.k, buf.Length, d, Amplitude(hidden, d, shield, plat), z)
  {
    hide Sigma, Amplitude;
    var mean := MeanRowNorm(hidden, plat.sqrt);
    AmplitudeIs(hidden, d, shield, plat);
    FillBlock(buf, 0, hidden, shield.k, buf.Length, d, Sigma(mean, d, shield.energy, plat.sqrt), z);
    assert buf[..] == buf[0..0 + buf.Length];
  }

  /** The operand sent out for one mask. */
  ghost predicate IsMasked(masked: Mat, mask: MaskFamily, hidden: Mat, shield: Shield, d: nat, plat: Platform,
                           z: (int, int) -> real)
    requires Haar.IsSqrt(plat.sqrt)
  {
    && ValidFamily(mask) && |hidden| + shield.k <= Side(mask) && IsMat(masked, Side(mask), d)
    && masked == FamilyApply(mask, Stacked(hidden, shield.k, Side(mask), d, Amplitude(hidden, d, shield, plat), z), d)
  }

  /** Masks a stacked buffer; in place for the structured families. */
  method MaskStacked(buf: array<seq<real>>, mask: MaskFamily, hidden: Mat, shield: Shield, d: nat, plat: Platform,
                     z: (int, int) -> real)
    returns (masked: Mat)
    requires Haar.IsSqrt(plat.sqrt) && ValidFamily(mask) && buf.Length == Side(mask)
    requires IsMat(hidden, |hidden|, d) && |hidden| + shield.k <= buf.Length
    requires buf[..] == Stacked(hidden, shield.k, buf.Length, d, Amplitude(hidden, d, shield, plat), z)
    modifies buf
    ensures IsMasked(masked, mask, hidden, shield, d, plat, z)
    ensures if mask.Dense? then buf[..] == old(buf[..]) else buf[..] == masked
  {
    hide FamilyApply, FamilyUnapply, Amplitude, Stacked, ValidFamily;
    var s := Side(mask);
    StackedShape(hidden, |hidden|, shield.k, s, d, Amplitude(hidden, d, shield, plat), z);
    assert buf[0..0 + s] == buf[..];
    FamilyShapes(mask, buf[..], d);
    if mask.Dense? {
      masked := MaskRows(mask, buf[..], d, false);
    } else {
      MaskBlock(buf, 0, mask, d, false);
      masked := buf[..];
      assert buf[0..0 + s] == buf[..];
    }
  }

  /** Stacks over the pooled buffer of this width and masks it. The buffer leaves the pool for
      the structured families; for the dense one it stays, holding the plain stack. */
  method StackPooled(pool: map<nat, Mat>, mask: MaskFamily, hidden: Mat, shield: Shield, d: nat, plat: Platform,
                     z: (int, int) -> real)
    returns (masked: Mat, pool': map<nat, Mat>)
    requires Haar.IsSqrt(plat.sqrt) && ValidFamily(mask)
    requires IsMat(hidden, |hidden|, d) && |hidden| + shield.k <= Side(mask)
    ensures IsMasked(masked, mask, hidden, shield, d, plat, z)
    ensures pool' - {d} == pool - {d} && (d in pool' <==> mask.Dense?)
    ensures mask.Dense? ==> pool'[d] == Stacked(hidden, shield.k, Side(mask), d, Amplitude(hidden, d, shield, plat), z)
  {
    hide *;
    var buf := TakeScratch(pool, d, Side(mask));
    pool' := pool - {d};
    StackInto(buf, hidden, shield, d, plat, z);
    masked := MaskStacked(buf, mask, hidden, shield, d, plat, z);
    if mask.Dense? {
      pool' := pool'[d := buf[..]];
    }
  }

  /** The allocating path. */
  method StackFresh(mask: MaskFamily, hidden: Mat, shield: Shield, d: nat, plat: Platform, z: (int, int) -> real)
    returns (masked: Mat)
    requires Haar.IsSqrt(plat.sqrt) && ValidFamily(mask)
    requires IsMat(hidden, |hidden|, d) && |hidden| + shield.k <= Side(mask)
    ensures IsMasked(masked, mask, hidden, shield, d, plat, z)
  {
    hide *;
    var buf := StackAndPad(hidden, shield, Side(mask), d, plat, z);
    masked := MaskStacked(buf, mask, hidden, shield, d, plat, z);
  }

  /** Stripping an unmasked product. */
  method UnmaskOne(mask: MaskFamily, out: Mat, p: nat, n: nat) returns (data: Mat)
    requires ValidFamily(mask) && IsMat(out, Side(mask), p) && n <= Side(mask)
    ensures |FamilyUnapply(mask, out, p)| == Side(mask)
    ensures data == FamilyUnapply(mask, out, p)[..n]
  {
    var y := MaskRows(mask, out, p, true);
    data := y[..n];
  }

  /** Every output of one dispatch, unmasked and stripped. */
  /** What the engine is given, under its mask: the data rows, the shield draws at the amplitude of the data,
      and zeros. */
  lemma {:induction false} OperandHolds(masked: Mat, mask: MaskFamily, hidden: Mat, shield: Shield, d: nat,
                                        plat: Platform, z: (int, int) -> real)
    requires Haar.IsSqrt(plat.sqrt) && IsMasked(masked, mask, hidden, shield, d, plat, z) && IsMat(hidden, |hidden|, d)
    ensures Holds(FamilyUnapply(mask, masked, d), hidden, |hidden|, shield.k, Side(mask), d,
                  Amplitude(hidden, d, shield, plat), z)
  {
    var sigma := Amplitude(hidden, d, shield, plat);
    assert masked == FamilyApply(mask, Stacked(hidden, shield.k, Side(mask), d, sigma, z), d);
    assert ValidFamily(mask) && |hidden| + shield.k <= Side(mask);
    hide *;
    StackHeld(mask, hidden, |hidden|, shield.k, d, sigma, z);
  }

  ghost predicate AreUnmasked(results: seq<Mat>, mask: MaskFamily, outs: seq<Mat>, widths: seq<nat>, n: nat) {
    && |results| == |outs| == |widths|
    && forall i {:trigger results[i]} | 0 <= i < |results| :: IsUnmasked(results[i], mask, outs[i], widths[i], n)
  }

  ghost predicate IsUnmasked(result: Mat, mask: MaskFamily, out: Mat, width: nat, n: nat) {
    && ValidFamily(mask)
    && var y := FamilyUnapply(mask, out, width);
       n <= |y| && result == y[..n]
  }

  /** Every output of one dispatch, whatever the engine answered, unmasked and stripped. */
  method UnmaskMany(mask: MaskFamily, outs: seq<Mat>, widths: seq<nat>, n: nat) returns (results: seq<Mat>)
    requires ValidFamily(mask) && n <= Side(mask) && |outs| == |widths|
    requires forall i {:trigger outs[i]} | 0 <= i < |outs| :: IsMat(outs[i], Side(mask), widths[i])
    ensures AreUnmasked(results, mask, outs, widths, n)
  {
    results := [];
    hide ValidFamily, FamilyUnapply, IsMat, Side;
    for i := 0 to |outs|
      invariant |results| == i
      invariant forall j {:trigger results[j]} | 0 <= j < i :: IsUnmasked(results[j], mask, outs[j], widths[j], n)
    {
      assert IsMat(outs[i], Side(mask), widths[i]);
      var data := UnmaskOne(mask, outs[i], widths[i], n);
      assert IsUnmasked(data, mask, outs[i], widths[i], n);
      results := results + [data];
    }
  }

  /** The honest outputs, unmasked and stripped, are the plain products. */
  lemma {:induction false} HonestUnmasked(engine: Engine, handles: seq<WeightHandle>, mask: MaskFamily, masked: Mat,
                                          hidden: Mat, shield: Shield, d: nat, plat: Platform, z: (int, int) -> real,
                                          outs: seq<Mat>, results: seq<Mat>)
    requires Haar.IsSqrt(plat.sqrt) && IsMasked(masked, mask, hidden, shield, d, plat, z) && IsMat(hidden, |hidden|, d)
    requires Honest(engine, handles, masked, d, outs)
    requires AreUnmasked(results, mask, outs, Widths(engine, handles), |hidden|)
    ensures Honest(engine, handles, hidden, d, results)
  {
    hide FamilyApply, FamilyUnapply, Amplitude, Stacked, ValidFamily, Mul;
    forall i | 0 <= i < |handles|
      ensures
        && handles[i] in engine && engine[handles[i]].d == d && IsMat(engine[handles[i]].m, d, engine[handles[i]].p)
        && results[i] == Mul(hidden, engine[handles[i]].m, d, engine[handles[i]].p)
    {
      assert outs[i] == outs[i];
      assert IsUnmasked(results[i], mask, outs[i], Widths(engine, handles)[i], |hidden|);
      var w := engine[handles[i]];
      StackRecovered(mask, hidden, |hidden|, shield.k, d, Amplitude(hidden, d, shield, plat), z, w.m, w.p);
    }
  }

  /** An honest dispatch is exactly what the plain executor computes on the same operand. */
  lemma {:induction false} HonestIsMatmul(engine: Engine, handles: seq<WeightHandle>, x: Mat, d: nat, outs: seq<Mat>)
    requires ValidEngine(engine)
    ensures Honest(engine, handles, x, d, outs) <==> MatmulMany(engine, handles, x, d) == Ok(outs)
  {
    hide Mul;
    var r := MatmulMany(engine, handles, x, d);
    if Honest(engine, handles, x, d, outs) {
      forall h | h in handles
        ensures h in engine && engine[h].d == d
      {
        var i :| 0 <= i < |handles| && handles[i] == h;
        assert |outs[i]| == |x|;
      }
      assert r.value == outs;
    }
    if r == Ok(outs) {
      forall i | 0 <= i < |handles|
        ensures
          && handles[i] in engine && engine[handles[i]].d == d
          && IsMat(engine[handles[i]].m, d, engine[handles[i]].p)
          && outs[i] == Mul(x, engine[handles[i]].m, d, engine[handles[i]].p)
      {
        assert handles[i] in handles;
      }
    }
  }

  /** From the answer of any engine to the caller's: checked, unmasked and stripped, or refused. */
  method Settle(weights: Engine, count: nat, handles: seq<WeightHandle>, mask: MaskFamily, masked: Mat, n: nat, d: nat,
                outs: seq<Mat>, widths: seq<nat>, coeff: (nat, nat, nat) -> int)
    returns (out: Outcome<seq<Mat>>)
    requires ValidFamily(mask) && n <= Side(mask) && IsMat(masked, Side(mask), d) && ValidEngine(weights)
    requires IsReply(outs, handles, Side(mask), widths)
    ensures if AllAccepted(count, weights, handles, masked, d, outs, widths, coeff)
            then out.Ok? && AreUnmasked(out.value, mask, outs, widths, n)
            else out.Err? && Refusal(count, weights, handles, masked, d, outs, widths, coeff, out.error)
  {
    ReplyShapes(outs, handles, Side(mask), widths);
    MatLength(masked, Side(mask), d);
    hide *;
    var check := VerifyOutputs(count, weights, handles, masked, d, outs, widths, coeff);
    match check {
      case Failed(error) => return Err(error);
      case Passed =>
    }
    var results := UnmaskMany(mask, outs, widths, n);
    return Ok(results);
  }

  lemma {:induction false} MatLength(m: Mat, r: nat, c: nat)
    requires IsMat(m, r, c)
    ensures |m| == r && IsMat(m, |m|, c)
  {
  }

  lemma {:induction false} ReplyShapes(outs: seq<Mat>, handles: seq<WeightHandle>, rows: nat, widths: seq<nat>)
    requires IsReply(outs, handles, rows, widths)
    ensures |outs| == |handles| == |widths|
    ensures forall i {:trigger outs[i]} | 0 <= i < |outs| ::
              IsMat(outs[i], rows, widths[i]) && IsMat(outs[i], |outs[i]|, widths[i])
  {
  }

  /** An honest answer is accepted and settles to the plain answer on the data. */
  lemma {:induction false} HonestSettled(engine: Engine, weights: Engine, count: nat, handles: seq<WeightHandle>,
                                         mask: MaskFamily, masked: Mat, hidden: Mat, shield: Shield, d: nat,
                                         plat: Platform, z: (int, int) -> real, outs: seq<Mat>,
                                         coeff: (nat, nat, nat) -> int)
    requires ValidEngine(engine) && weights == (if count > 0 then engine else map[])
    requires Haar.IsSqrt(plat.sqrt) && IsMasked(masked, mask, hidden, shield, d, plat, z)
    requires IsMat(hidden, |hidden|, d) && MatmulMany(engine, handles, masked, d) == Ok(outs)
    ensures var widths := Widths(engine, handles);
            && IsReply(outs, handles, Side(mask), widths)
            && AllAccepted(count, weights, handles, masked, d, outs, widths, coeff)
            && (forall results :: AreUnmasked(results, mask, outs, widths, |hidden|) ==>
                MatmulMany(engine, handles, hidden, d) == Ok(results))
  {
    MaskedSize(masked, mask, hidden, shield, d, plat, z);
    hide *;
    HonestIsMatmul(engine, handles, masked, d, outs);
    HonestOutputs(count, engine, handles, masked, d, outs, coeff);
    KeptWeights(count, engine, weights, handles, masked, d, outs, Widths(engine, handles), coeff);
    forall results | AreUnmasked(results, mask, outs, Widths(engine, handles), |hidden|)
      ensures MatmulMany(engine, handles, hidden, d) == Ok(results)
    {
      HonestUnmasked(engine, handles, mask, masked, hidden, shield, d, plat, z, outs, results);
      HonestIsMatmul(engine, handles, hidden, d, results);
    }
  }

  lemma {:induction false} MaskedSize(masked: Mat, mask: MaskFamily, hidden: Mat, shield: Shield, d: nat,
                                      plat: Platform, z: (int, int) -> real)
    requires Haar.IsSqrt(plat.sqrt) && IsMasked(masked, mask, hidden, shield, d, plat, z)
    ensures |masked| == Side(mask) && IsMat(masked, |masked|, d)
  {
  }

  /** Without probes nothing is kept and nothing is checked. */
  lemma {:induction false} KeptWeights(count: nat, engine: Engine, weights: Engine, handles: seq<WeightHandle>,
                                       masked: Mat, d: nat, outs: seq<Mat>, widths: seq<nat>,
                                       coeff: (nat, nat, nat) -> int)
    requires weights == (if count > 0 then engine else map[]) && IsReply(outs, handles, |masked|, widths)
    requires AllAccepted(count, engine, handles, masked, d, outs, widths, coeff)
    ensures AllAccepted(count, weights, handles, masked, d, outs, widths, coeff)
  {
    hide OutputAccepted;
  }

  /** The share of probe draws under which a tampered answer is taken for good: an entry off by more than
      twice its row's tolerance passes `count` probes for at most one draw in `7^count`. */
  lemma {:induction false} TamperShare(count: nat, weights: Engine, h: WeightHandle, masked: Mat, d: nat, out: Mat,
                                       bound: real, i: nat, j: nat, coeff: (nat, nat) -> int)
    requires h in weights && weights[h].d == d && IsMat(weights[h].m, d, weights[h].p)
    requires IsMat(masked, |masked|, d) && IsMat(out, |masked|, weights[h].p) && i < |masked| && j < weights[h].p
    requires IsRoundoff(bound, masked, weights[h].m, |masked|, d, weights[h].p)
    requires Abs(At(Mul(masked, weights[h].m, d, weights[h].p), i, j) - At(out, i, j))
           > 2.0 * TolCap(masked, weights[h].m, out, d, weights[h].p, bound, i)
    ensures var w, p := weights[h].m, weights[h].p;
            var fooled := set v | v in Words(Cube(p), count) && AllPass(masked, w, out, |masked|, d, p, bound, v);
            && Power(7, count) * |fooled| <= |Words(Cube(p), count)|
            && (OutputAccepted(count, weights, h, masked, d, out, p, coeff)
                && ProbeVectors(count, p, coeff) in Words(Cube(p), count)
                ==> ProbeVectors(count, p, coeff) in fooled)
  {
    var w, p := weights[h].m, weights[h].p;
    AcceptsIs(masked, w, out, |masked|, d, p, bound, ProbeVectors(count, p, coeff));
    RoundsCaught(masked, w, out, |masked|, d, p, bound, i, j, count);
  }

  // ─── one mask per sequence ───

  /** Stacks and masks every block of a pooled buffer. */
  method MaskSequences(buf: array<seq<real>>, hidden: Mat, masks: seq<MaskFamily>, dataN: nat, shield: Shield, s: nat,
                       d: nat, plat: Platform, z: nat -> (int, int) -> real)
    requires Haar.IsSqrt(plat.sqrt) && SameSide(masks, s)
    requires buf.Length == Offset(|masks|, s) && dataN + shield.k <= s
    requires IsMat(hidden, |hidden|, d) && |hidden| >= Offset(|masks|, dataN)
    modifies buf
    ensures MaskedBatch(buf[..], masks, hidden, dataN, shield, s, d, plat, z)
  {
    hide *;
    ghost var was := buf[..];
    StackBatch(buf, hidden, |masks|, dataN, shield, s, d, plat, z);
    ghost var mid := buf[..];
    StackShapes(was, mid, hidden, |masks|, dataN, shield, s, d, plat, z);
    MaskBatch(buf, masks, s, d, false);
    BatchMasked(was, mid, buf[..], masks, hidden, dataN, shield, s, d, plat, z);
  }

  /** A masked batch reads only the rows its blocks cover. */
  lemma {:induction false} BatchPrefix(rows: Mat, masks: seq<MaskFamily>, hidden: Mat, dataN: nat, shield: Shield,
                                       s: nat, d: nat, plat: Platform, z: nat -> (int, int) -> real)
    requires Haar.IsSqrt(plat.sqrt) && |hidden| >= Offset(|masks|, dataN)
    requires MaskedBatch(rows, masks, hidden, dataN, shield, s, d, plat, z)
    ensures MaskedBatch(rows, masks, hidden[..Offset(|masks|, dataN)], dataN, shield, s, d, plat, z)
  {
    hide FamilyApply, Stacked, Amplitude, Offset;
    var part := hidden[..Offset(|masks|, dataN)];
    forall b: nat | b < |masks|
      ensures BlockStack(part, dataN, shield, s, d, plat, z, b) == BlockStack(hidden, dataN, shield, s, d, plat, z, b)
    {
      OffsetMonotone(b, |masks|, dataN);
      BlockIs(hidden, b, dataN);
      BlockIs(part, b, dataN);
      assert Block(part, b, dataN) == Block(hidden, b, dataN);
    }
  }

  /** An output of one dispatch, unmasked and stripped block by block. */
  ghost predicate IsCut(result: Mat, out: Mat, masks: seq<MaskFamily>, s: nat, p: nat, dataN: nat) {
    && |result| == Offset(|masks|, dataN)
    && forall b: nat {:trigger Block(result, b, dataN)} | b < |masks| ::
         Block(result, b, dataN) == KeepMap(out, masks, s, p, dataN)(b, [])
  }

  ghost predicate AreCut(results: seq<Mat>, outs: seq<Mat>, masks: seq<MaskFamily>, s: nat, widths: seq<nat>,
                         dataN: nat) {
    && |results| == |outs| == |widths|
    && forall i {:trigger results[i]} | 0 <= i < |results| :: IsCut(results[i], outs[i], masks, s, widths[i], dataN)
  }

  /** Every output of one dispatch, block by block; an output of no columns cannot be cut into blocks. */
  method UnmaskManySequences(outs: seq<Mat>, masks: seq<MaskFamily>, s: nat, widths: seq<nat>, dataN: nat)
    returns (ok: bool, results: seq<Mat>)
    requires SameSide(masks, s) && dataN <= s && |outs| == |widths|
    requires forall i {:trigger outs[i]} | 0 <= i < |outs| :: IsMat(outs[i], Offset(|masks|, s), widths[i])
    ensures ok <==> 0 !in widths
    ensures ok ==> AreCut(results, outs, masks, s, widths, dataN)
  {
    results := [];
    hide *;
    for i := 0 to |outs|
      invariant |results| == i && 0 !in widths[..i]
      invariant forall j {:trigger results[j]} | 0 <= j < i :: IsCut(results[j], outs[j], masks, s, widths[j], dataN)
    {
      assert IsMat(outs[i], Offset(|masks|, s), widths[i]);
      if widths[i] == 0 {
        return false, results;
      }
      var data := UnmaskPerSequence(outs[i], masks, s, widths[i], dataN);
      CutIs(data, outs[i], masks, s, widths[i], dataN);
      results := results + [data];
    }
    assert widths[..|outs|] == widths;
    CutAll(results, outs, masks, s, widths, dataN);
    ok := true;
  }

  lemma {:induction false} CutIs(result: Mat, out: Mat, masks: seq<MaskFamily>, s: nat, p: nat, dataN: nat)
    requires |result| == Offset(|masks|, dataN)
    requires forall b: nat {:trigger Block(result, b, dataN)} | b < |masks| ::
               Block(result, b, dataN) == KeepMap(out, masks, s, p, dataN)(b, [])
    ensures IsCut(result, out, masks, s, p, dataN)
  {
  }

  lemma {:induction false} CutAll(results: seq<Mat>, outs: seq<Mat>, masks: seq<MaskFamily>, s: nat, widths: seq<nat>,
                                  dataN: nat)
    requires |results| == |outs| == |widths|
    requires forall j {:trigger results[j]} | 0 <= j < |results| ::
               IsCut(results[j], outs[j], masks, s, widths[j], dataN)
    ensures AreCut(results, outs, masks, s, widths, dataN)
  {
  }

  /** `Settle` for a batch. */
  method SettleSequences(weights: Engine, count: nat, handles: seq<WeightHandle>, rows: Mat, masks: seq<MaskFamily>,
                         dataN: nat, s: nat, d: nat, outs: seq<Mat>, widths: seq<nat>, coeff: (nat, nat, nat) -> int)
    returns (out: Outcome<seq<Mat>>)
    requires SameSide(masks, s) && dataN <= s && IsMat(rows, Offset(|masks|, s), d) && ValidEngine(weights)
    requires IsReply(outs, handles, Offset(|masks|, s), widths)
    ensures if !AllAccepted(count, weights, handles, rows, d, outs, widths, coeff)
            then out.Err? && Refusal(count, weights, handles, rows, d, outs, widths, coeff, out.error)
            else if 0 in widths then out == Panic
            else out.Ok? && AreCut(out.value, outs, masks, s, widths, dataN)
  {
    ReplyShapes(outs, handles, Offset(|masks|, s), widths);
    MatLength(rows, Offset(|masks|, s), d);
    hide *;
    var check := VerifyOutputs(count, weights, handles, rows, d, outs, widths, coeff);
    match check {
      case Failed(error) => return Err(error);
      case Passed =>
    }
    var ok, results := UnmaskManySequences(outs, masks, s, widths, dataN);
    return if ok then Ok(results) else Panic;
  }

  lemma {:induction false} HonestCut(engine: Engine, handles: seq<WeightHandle>, rows: Mat, masks: seq<MaskFamily>,
                                     hidden: Mat, dataN: nat, shield: Shield, s: nat, d: nat, plat: Platform,
                                     z: nat -> (int, int) -> real, outs: seq<Mat>, results: seq<Mat>)
    requires Haar.IsSqrt(plat.sqrt) && MaskedBatch(rows, masks, hidden, dataN, shield, s, d, plat, z)
    requires IsMat(hidden, Offset(|masks|, dataN), d) && dataN <= s
    requires Honest(engine, handles, rows, d, outs)
    requires AreCut(results, outs, masks, s, Widths(engine, handles), dataN)
    ensures Honest(engine, handles, hidden, d, results)
  {
    hide Offset, Mul, FamilyApply, KeepMap, BlockStack;
    forall i | 0 <= i < |handles|
      ensures
        && handles[i] in engine && engine[handles[i]].d == d && IsMat(engine[handles[i]].m, d, engine[handles[i]].p)
        && results[i] == Mul(hidden, engine[handles[i]].m, d, engine[handles[i]].p)
    {
      assert outs[i] == outs[i];
      assert IsCut(results[i], outs[i], masks, s, Widths(engine, handles)[i], dataN);
      var w := engine[handles[i]];
      BatchRecovered(rows, masks, hidden, dataN, shield, s, d, plat, z, w.m, w.p, results[i]);
    }
  }

  /** `HonestSettled` for a batch, with the panic of an output without columns. */
  lemma {:induction false} HonestSettledSequences(engine: Engine, weights: Engine, count: nat,
                                                  handles: seq<WeightHandle>, rows: Mat, masks: seq<MaskFamily>,
                                                  hidden: Mat, dataN: nat, shield: Shield, s: nat, d: nat,
                                                  plat: Platform, z: nat -> (int, int) -> real, outs: seq<Mat>,
                                                  coeff: (nat, nat, nat) -> int)
    requires ValidEngine(engine) && weights == (if count > 0 then engine else map[])
    requires Haar.IsSqrt(plat.sqrt) && MaskedBatch(rows, masks, hidden, dataN, shield, s, d, plat, z)
    requires IsMat(hidden, Offset(|masks|, dataN), d) && dataN <= s && MatmulMany(engine, handles, rows, d) == Ok(outs)
    ensures var widths := Widths(engine, handles);
            && IsReply(outs, handles, Offset(|masks|, s), widths)
            && AllAccepted(count, weights, handles, rows, d, outs, widths, coeff)
            && (0 in widths <==> !HaveColumns(engine, handles))
            && (forall results :: AreCut(results, outs, masks, s, widths, dataN) ==>
                MatmulMany(engine, handles, hidden, d) == Ok(results))
  {
    BatchSize(rows, masks, hidden, dataN, shield, s, d, plat, z);
    hide *;
    HonestIsMatmul(engine, handles, rows, d, outs);
    HonestOutputs(count, engine, handles, rows, d, outs, coeff);
    KeptWeights(count, engine, weights, handles, rows, d, outs, Widths(engine, handles), coeff);
    NoColumns(engine, handles, rows, d, outs);
    forall results | AreCut(results, outs, masks, s, Widths(engine, handles), dataN)
      ensures MatmulMany(engine, handles, hidden, d) == Ok(results)
    {
      HonestCut(engine, handles, rows, masks, hidden, dataN, shield, s, d, plat, z, outs, results);
      HonestIsMatmul(engine, handles, hidden, d, results);
    }
  }

  lemma {:induction false} BatchSize(rows: Mat, masks: seq<MaskFamily>, hidden: Mat, dataN: nat, shield: Shield, s: nat,
                                     d: nat, plat: Platform, z: nat -> (int, int) -> real)
    requires Haar.IsSqrt(plat.sqrt) && MaskedBatch(rows, masks, hidden, dataN, shield, s, d, plat, z)
    ensures |rows| == Offset(|masks|, s) && IsMat(rows, |rows|, d)
  {
  }

  lemma {:induction false} NoColumns(engine: Engine, handles: seq<WeightHandle>, x: Mat, d: nat, outs: seq<Mat>)
    requires Honest(engine, handles, x, d, outs)
    ensures 0 in Widths(engine, handles) <==> !HaveColumns(engine, handles)
  {
    var w := Widths(engine, handles);
    hide Mul;
    if 0 in w {
      var i :| 0 <= i < |w| && w[i] == 0;
      assert outs[i] == outs[i] && handles[i] in handles;
    }
    if h :| h in handles && h in engine && engine[h].p == 0 {
      var i :| 0 <= i < |handles| && handles[i] == h;
      assert w[i] == 0;
    }
  }
}
