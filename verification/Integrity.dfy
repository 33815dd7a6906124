/** The probabilistic check of an outsourced product: probes with small integer
    coefficients, compared under a rounding tolerance. */
module Integrity {
  import opened Sums
  import opened LinAlg
  import opened Counting

  const PROBE_L: int := 3
  const F32_EPS: real := 0.00000011920929
  const ROUNDOFF_CUSHION: real := 40.0
  const ABS_FLOOR: real := 0.0001

  datatype Verdict = Accepted | WrongShape | Mismatch(probe: nat, row: nat)

  function Abs(x: real): (y: real)
    ensures y >= 0.0 && (y == x || y == -x)
  {
    if x < 0.0 then -x else x
  }

  function Max(x: real, y: real): (z: real)
    ensures z >= x && z >= y && (z == x || z == y)
  {
    if x < y then y else x
  }

  /** A probe vector as a column. */
  function Column(r: seq<int>): (v: Mat)
    ensures IsMat(v, |r|, 1)
    ensures forall j :: 0 <= j < |r| ==> At(v, j, 0) == r[j] as real
  {
    Build(|r|, 1, (j, c) => if 0 <= j < |r| then r[j] as real else 0.0)
  }

  /** `(A·(B·r))[i]`, in the order the check computes it. */
  function Expected(a: Mat, b: Mat, k: nat, r: seq<int>, i: int): real {
    Dot(a, Mul(b, Column(r), |r|, 1), k, i, 0)
  }

  /** `(Z·r)[i]` */
  function Observed(z: Mat, r: seq<int>, i: int): real {
    Dot(z, Column(r), |r|, i, 0)
  }

  function Tolerance(bound: real, e: real, o: real): (t: real)
    ensures t > 0.0
  {
    Max(bound, ABS_FLOOR) + 0.0001 * Max(Max(Abs(e), Abs(o)), 1.0)
  }

  predicate RowPasses(a: Mat, b: Mat, z: Mat, k: nat, bound: real, r: seq<int>, i: int) {
    Abs(Expected(a, b, k, r, i) - Observed(z, r, i))
    <= Tolerance(bound, Expected(a, b, k, r, i), Observed(z, r, i))
  }

  ghost predicate ProbePasses(a: Mat, b: Mat, z: Mat, m: nat, k: nat, bound: real, r: seq<int>) {
    forall i {:trigger RowPasses(a, b, z, k, bound, r, i)} | 0 <= i < m :: RowPasses(a, b, z, k, bound, r, i)
  }

  ghost predicate IsInfNorm(x: real, a: Mat, r: nat, c: nat) {
    && x >= 0.0
    && (forall i, j {:trigger At(a, i, j)} | 0 <= i < r && 0 <= j < c :: Abs(At(a, i, j)) <= x)
    && (x == 0.0 || exists i, j {:trigger At(a, i, j)} :: 0 <= i < r && 0 <= j < c && Abs(At(a, i, j)) == x)
  }

  method InfNorm(a: Mat, r: nat, c: nat) returns (x: real)
    requires IsMat(a, r, c)
    ensures IsInfNorm(x, a, r, c)
    ensures forall i: nat, j: nat {:trigger At(a, i, j)} :: i < r && j < c ==> -x <= At(a, i, j) <= x
    ensures x != 0.0 ==> exists i: nat, j: nat {:trigger At(a, i, j)} ::
              i < r && j < c && (At(a, i, j) == x || At(a, i, j) == -x)
  {
    x := 0.0;
    for i := 0 to r
      invariant IsInfNorm(x, a, i, c)
    {
      for j := 0 to c
        invariant x >= 0.0
        invariant forall i', j' {:trigger At(a, i', j')} | 0 <= j' < c && (0 <= i' < i || (i' == i && j' < j)) ::
                    Abs(At(a, i', j')) <= x
        invariant x == 0.0 || exists i', j' {:trigger At(a, i', j')} ::
                    0 <= i' <= i && 0 <= j' < c && Abs(At(a, i', j')) == x
      {
        assert At(a, i, j) == a[i][j];
        x := Max(x, Abs(a[i][j]));
      }
    }
  }

  /** The rounding allowance of a product through a `k`-long and a `p`-long chain. */
  function Roundoff(k: nat, p: nat, aInf: real, bInf: real): real {
    ROUNDOFF_CUSHION * ((k + p) as real) * F32_EPS * aInf * bInf * (PROBE_L as real)
  }

  ghost predicate IsRoundoff(bound: real, a: Mat, b: Mat, m: nat, k: nat, p: nat) {
    exists x, y :: IsInfNorm(x, a, m, k) && IsInfNorm(y, b, k, p) && bound == Roundoff(k, p, x, y)
  }

  /** Every probe passes, under the allowance for these operands. */
  ghost predicate AllPass(a: Mat, b: Mat, z: Mat, m: nat, k: nat, p: nat, bound: real, probes: seq<seq<int>>) {
    forall t {:trigger probes[t]} | 0 <= t < |probes| :: ProbePasses(a, b, z, m, k, bound, probes[t])
  }

  lemma {:induction false} InfNormUnique(x: real, y: real, a: Mat, r: nat, c: nat)
    requires IsInfNorm(x, a, r, c) && IsInfNorm(y, a, r, c)
    ensures x == y
  {
  }

  lemma {:induction false} RoundoffUnique(x: real, y: real, a: Mat, b: Mat, m: nat, k: nat, p: nat)
    requires IsRoundoff(x, a, b, m, k, p) && IsRoundoff(y, a, b, m, k, p)
    ensures x == y
  {
    var x1, x2 :| IsInfNorm(x1, a, m, k) && IsInfNorm(x2, b, k, p) && x == Roundoff(k, p, x1, x2);
    var y1, y2 :| IsInfNorm(y1, a, m, k) && IsInfNorm(y2, b, k, p) && y == Roundoff(k, p, y1, y2);
    InfNormUnique(x1, y1, a, m, k);
    InfNormUnique(x2, y2, b, k, p);
  }

  /** Every probe passes under the one allowance these operands have. */
  ghost predicate Accepts(a: Mat, b: Mat, z: Mat, m: nat, k: nat, p: nat, probes: seq<seq<int>>) {
    forall bound {:trigger IsRoundoff(bound, a, b, m, k, p)} ::
      IsRoundoff(bound, a, b, m, k, p) ==> AllPass(a, b, z, m, k, p, bound, probes)
  }

  lemma {:induction false} AcceptsIs(a: Mat, b: Mat, z: Mat, m: nat, k: nat, p: nat, bound: real, probes: seq<seq<int>>)
    requires IsRoundoff(bound, a, b, m, k, p)
    ensures Accepts(a, b, z, m, k, p, probes) <==> AllPass(a, b, z, m, k, p, bound, probes)
  {
    hide AllPass, IsRoundoff;
    forall other | IsRoundoff(other, a, b, m, k, p)
      ensures other == bound
    {
      RoundoffUnique(bound, other, a, b, m, k, p);
    }
  }

  /** The first row a probe disagrees on, `m` if there is none. */
  method FirstBadRow(a: Mat, b: Mat, z: Mat, m: nat, k: nat, bound: real, r: seq<int>) returns (row: nat)
    ensures row <= m
    ensures row == m <==> ProbePasses(a, b, z, m, k, bound, r)
    ensures row < m ==> !RowPasses(a, b, z, k, bound, r, row)
    ensures forall i {:trigger RowPasses(a, b, z, k, bound, r, i)} | 0 <= i < row :: RowPasses(a, b, z, k, bound, r, i)
  {
    hide RowPasses;
    for i := 0 to m
      invariant forall i' {:trigger RowPasses(a, b, z, k, bound, r, i')} | 0 <= i' < i ::
                  RowPasses(a, b, z, k, bound, r, i')
    {
      if !RowPasses(a, b, z, k, bound, r, i) {
        return i;
      }
    }
    return m;
  }

  /** `row` is the first row this probe refuses. */
  ghost predicate FirstFailure(a: Mat, b: Mat, z: Mat, k: nat, bound: real, r: seq<int>, row: nat) {
    && !RowPasses(a, b, z, k, bound, r, row)
    && forall i {:trigger RowPasses(a, b, z, k, bound, r, i)} | 0 <= i < row :: RowPasses(a, b, z, k, bound, r, i)
  }

  lemma {:induction false} FailureFound(a: Mat, b: Mat, z: Mat, m: nat, k: nat, bound: real, r: seq<int>, row: nat)
    requires row < m && !RowPasses(a, b, z, k, bound, r, row)
    requires forall i {:trigger RowPasses(a, b, z, k, bound, r, i)} | 0 <= i < row :: RowPasses(a, b, z, k, bound, r, i)
    ensures FirstFailure(a, b, z, k, bound, r, row) && !ProbePasses(a, b, z, m, k, bound, r)
  {
  }

  lemma {:induction false} PrefixPasses(a: Mat, b: Mat, z: Mat, m: nat, k: nat, p: nat, bound: real,
                                        probes: seq<seq<int>>, t: nat)
    requires t <= |probes|
    requires forall t' {:trigger probes[t']} | 0 <= t' < t :: ProbePasses(a, b, z, m, k, bound, probes[t'])
    ensures AllPass(a, b, z, m, k, p, bound, probes[..t])
  {
    hide ProbePasses;
  }

  lemma {:induction false} AllFailed(a: Mat, b: Mat, z: Mat, m: nat, k: nat, p: nat, bound: real, probes: seq<seq<int>>,
                                     t: nat)
    requires t < |probes| && !ProbePasses(a, b, z, m, k, bound, probes[t])
    ensures !AllPass(a, b, z, m, k, p, bound, probes)
  {
    hide ProbePasses;
  }

  /** One probe after another, up to the first row that disagrees. */
  method RunProbes(a: Mat, b: Mat, z: Mat, m: nat, k: nat, p: nat, bound: real, probes: seq<seq<int>>)
    returns (verdict: Verdict)
    ensures verdict != WrongShape && (verdict == Accepted <==> AllPass(a, b, z, m, k, p, bound, probes))
    ensures verdict.Mismatch? ==>
              && verdict.probe < |probes| && verdict.row < m
              && AllPass(a, b, z, m, k, p, bound, probes[..verdict.probe])
              && FirstFailure(a, b, z, k, bound, probes[verdict.probe], verdict.row)
  {
    hide *;
    for t := 0 to |probes|
      invariant forall t' {:trigger probes[t']} | 0 <= t' < t :: ProbePasses(a, b, z, m, k, bound, probes[t'])
    {
      var row := FirstBadRow(a, b, z, m, k, bound, probes[t]);
      if row < m {
        PrefixPasses(a, b, z, m, k, p, bound, probes, t);
        FailureFound(a, b, z, m, k, bound, probes[t], row);
        AllFailed(a, b, z, m, k, p, bound, probes, t);
        return Mismatch(t, row);
      }
    }
    PrefixPasses(a, b, z, m, k, p, bound, probes, |probes|);
    assert probes[..|probes|] == probes;
    return Accepted;
  }

  /** `A` is `(m, k)`, `B` is `(bk, p)`, `Z` is `(zr, zc)`; one probe vector per round. */
  method VerifyOffload(a: Mat, m: nat, k: nat, b: Mat, bk: nat, p: nat, z: Mat, zr: nat, zc: nat, probes: seq<seq<int>>)
    returns (verdict: Verdict, ghost bound: real)
    requires IsMat(a, m, k) && IsMat(b, bk, p) && IsMat(z, zr, zc)
    requires forall r :: r in probes ==> |r| == p
    ensures probes == [] ==> verdict == Accepted
    ensures probes != [] ==> (verdict == WrongShape <==> bk != k || zr != m || zc != p)
    ensures probes != [] && verdict != WrongShape ==>
              && (verdict == Accepted <==> AllPass(a, b, z, m, k, p, bound, probes))
              && IsRoundoff(bound, a, b, m, k, p)
    ensures verdict.Mismatch? ==>
              && verdict.probe < |probes| && verdict.row < m
              && AllPass(a, b, z, m, k, p, bound, probes[..verdict.probe])
              && FirstFailure(a, b, z, k, bound, probes[verdict.probe], verdict.row)
  {
    bound := 0.0;
    if |probes| == 0 {
      return Accepted, bound;
    }
    if bk != k {
      return WrongShape, bound;
    }
    if zr != m || zc != p {
      return WrongShape, bound;
    }
    var aInf := InfNorm(a, m, k);
    var bInf := InfNorm(b, bk, p);
    var roundoff := Roundoff(k, p, aInf, bInf);
    bound := roundoff;
    assert IsRoundoff(bound, a, b, m, k, p);
    hide *;
    verdict := RunProbes(a, b, z, m, k, p, roundoff, probes);
  }

  // ─── the tolerance in numbers ───

  /** Whatever the operands, a difference of `2e-4` passes; up to where the products leave `[-1, 1]` and the
      rounding allowance `1e-4`, no larger one does; past that each takes the place of its share. */
  lemma {:induction false} ToleranceIs(a: Mat, b: Mat, z: Mat, k: nat, bound: real, r: seq<int>, i: int)
    ensures var e, o := Expected(a, b, k, r, i), Observed(z, r, i);
            && (-2e-4 <= e - o <= 2e-4 ==> RowPasses(a, b, z, k, bound, r, i))
            && (bound <= 1e-4 && -1.0 <= e <= 1.0 && -1.0 <= o <= 1.0 ==>
                  (RowPasses(a, b, z, k, bound, r, i) <==> -2e-4 <= e - o <= 2e-4))
            && (bound <= 1e-4 && 0.0 <= o <= e && e >= 1.0 ==>
                  (RowPasses(a, b, z, k, bound, r, i) <==> e - o <= 1e-4 + e / 10000.0))
            && (bound >= 1e-4 && -1.0 <= e <= 1.0 && -1.0 <= o <= 1.0 ==>
                  (RowPasses(a, b, z, k, bound, r, i) <==> -1e-4 - bound <= e - o <= 1e-4 + bound))
  {
    hide Expected, Observed;
  }

  /** The rounding allowance: `1.43e-5` for every term of the chain, per unit of both largest entries. */
  lemma {:induction false} RoundoffIs(k: nat, p: nat, x: real, y: real)
    ensures Roundoff(k, p, x, y) == 1.43051148e-5 * ((k + p) as real) * (x * y)
  {
    var n := (k + p) as real;
    assert 40.0 * n * F32_EPS * x * y * 3.0 == (40.0 * F32_EPS * 3.0) * n * (x * y);
  }

  lemma {:induction false} ScaledMonotone(f: real, u: real, v: real, x: real, y: real)
    requires f >= 0.0 && 0.0 <= u <= x && 0.0 <= v <= y
    ensures f * (u * v) <= f * (x * y)
  {
    assert u * v <= x * v <= x * y;
  }

  lemma {:induction false} NormsOf(bound: real, a: Mat, b: Mat, m: nat, k: nat, p: nat)
    returns (x: real, y: real)
    requires IsRoundoff(bound, a, b, m, k, p)
    ensures IsInfNorm(x, a, m, k) && IsInfNorm(y, b, k, p)
    ensures bound == 1.43051148e-5 * ((k + p) as real) * (x * y)
  {
    hide IsInfNorm, Roundoff;
    x, y :| IsInfNorm(x, a, m, k) && IsInfNorm(y, b, k, p) && bound == Roundoff(k, p, x, y);
    RoundoffIs(k, p, x, y);
  }

  lemma {:induction false} NormCovers(x: real, a: Mat, r: nat, c: nat, i: nat, j: nat)
    requires IsInfNorm(x, a, r, c) && i < r && j < c
    ensures 0.0 <= Abs(At(a, i, j)) <= x
  {
  }

  lemma {:induction false} NormAttained(x: real, a: Mat, r: nat, c: nat) returns (i: nat, j: nat)
    requires IsInfNorm(x, a, r, c) && x != 0.0
    ensures i < r && j < c && Abs(At(a, i, j)) == x
  {
    i, j :| 0 <= i < r && 0 <= j < c && Abs(At(a, i, j)) == x;
  }

  /** It covers every pair of entries of the two operands, and some pair attains it. */
  lemma {:induction false} RoundoffCovers(bound: real, a: Mat, b: Mat, m: nat, k: nat, p: nat, i: nat, t: nat, u: nat,
                                          j: nat)
    requires IsRoundoff(bound, a, b, m, k, p) && i < m && t < k && u < k && j < p
    ensures bound >= 1.43051148e-5 * ((k + p) as real) * (Abs(At(a, i, t)) * Abs(At(b, u, j)))
  {
    hide *;
    var x, y := NormsOf(bound, a, b, m, k, p);
    NormCovers(x, a, m, k, i, t);
    NormCovers(y, b, k, p, u, j);
    ScaledMonotone(1.43051148e-5 * ((k + p) as real), Abs(At(a, i, t)), Abs(At(b, u, j)), x, y);
  }

  lemma {:induction false} ZeroFactor(f: real, x: real, y: real)
    ensures f * (x * y) != 0.0 ==> x != 0.0 && y != 0.0
  {
  }

  lemma {:induction false} RoundoffAttained(bound: real, a: Mat, b: Mat, m: nat, k: nat, p: nat)
    returns (i: nat, t: nat, u: nat, j: nat)
    requires IsRoundoff(bound, a, b, m, k, p) && bound != 0.0
    ensures i < m && t < k && u < k && j < p
    ensures bound == 1.43051148e-5 * ((k + p) as real) * (Abs(At(a, i, t)) * Abs(At(b, u, j)))
  {
    hide *;
    var x, y := NormsOf(bound, a, b, m, k, p);
    ZeroFactor(1.43051148e-5 * ((k + p) as real), x, y);
    i, t := NormAttained(x, a, m, k);
    u, j := NormAttained(y, b, k, p);
  }

  // ─── completeness ───

  function Residual(a: Mat, b: Mat, z: Mat, m: nat, k: nat, p: nat): (e: Mat)
    ensures IsMat(e, m, p)
    ensures forall i, j :: 0 <= i < m && 0 <= j < p ==> At(e, i, j) == At(Mul(a, b, k, p), i, j) - At(z, i, j)
  {
    Sub(Mul(a, b, k, p), z, m, p)
  }

  /** `(A·(B·r))[i] − (Z·r)[i] = ((A·B − Z)·r)[i]` */
  lemma {:induction false} ResidualProbe(a: Mat, b: Mat, z: Mat, m: nat, k: nat, r: seq<int>, i: nat)
    requires IsMat(a, m, k) && IsMat(b, k, |r|) && IsMat(z, m, |r|) && i < m
    ensures Expected(a, b, k, r, i) == Dot(Mul(a, b, k, |r|), Column(r), |r|, i, 0)
    ensures Expected(a, b, k, r, i) - Observed(z, r, i) == Dot(Residual(a, b, z, m, k, |r|), Column(r), |r|, i, 0)
  {
    var p, v := |r|, Column(r);
    var ab := Mul(a, b, k, p);
    ExpectedIs(a, b, m, k, r, i);
    ResidualTerms(a, b, z, m, k, r, i);
    hide Term, Column, Residual, Expected, Mul;
    SumAdd(p, Term(Residual(a, b, z, m, k, p), v, i, 0), Term(z, v, i, 0), Term(ab, v, i, 0));
  }

  lemma {:induction false} ExpectedIs(a: Mat, b: Mat, m: nat, k: nat, r: seq<int>, i: nat)
    requires IsMat(a, m, k) && IsMat(b, k, |r|) && i < m
    ensures Expected(a, b, k, r, i) == Dot(Mul(a, b, k, |r|), Column(r), |r|, i, 0)
  {
    var p, v := |r|, Column(r);
    hide Dot, Column, At;
    MulAssoc(a, b, v, m, k, p, 1);
    assert At(Mul(Mul(a, b, k, p), v, p, 1), i, 0) == Dot(Mul(a, b, k, p), v, p, i, 0);
    assert At(Mul(a, Mul(b, v, p, 1), k, 1), i, 0) == Expected(a, b, k, r, i);
  }

  lemma {:induction false} ResidualTerms(a: Mat, b: Mat, z: Mat, m: nat, k: nat, r: seq<int>, i: nat)
    requires IsMat(a, m, k) && IsMat(b, k, |r|) && IsMat(z, m, |r|) && i < m
    ensures var v := Column(r);
            forall t | 0 <= t < |r| ::
              Term(Mul(a, b, k, |r|), v, i, 0)(t)
              == Term(Residual(a, b, z, m, k, |r|), v, i, 0)(t) + Term(z, v, i, 0)(t)
  {
    hide Column, Dot;
  }

  /** An honest product is accepted by every probe. */
  lemma {:induction false} HonestAccepted(a: Mat, b: Mat, m: nat, k: nat, bound: real, r: seq<int>)
    requires IsMat(a, m, k) && IsMat(b, k, |r|)
    ensures ProbePasses(a, b, Mul(a, b, k, |r|), m, k, bound, r)
  {
    var z := Mul(a, b, k, |r|);
    hide Expected, Observed, Tolerance;
    forall i | 0 <= i < m
      ensures RowPasses(a, b, z, k, bound, r, i)
    {
      ResidualProbe(a, b, z, m, k, r, i);
      SumZero(|r|, Term(Residual(a, b, z, m, k, |r|), Column(r), i, 0));
    }
  }

  // ─── soundness by counting ───

  /** So is it by all of them together, whatever they are. */
  lemma {:induction false} HonestProbes(a: Mat, b: Mat, m: nat, k: nat, p: nat, probes: seq<seq<int>>)
    requires IsMat(a, m, k) && IsMat(b, k, p) && forall r :: r in probes ==> |r| == p
    ensures Accepts(a, b, Mul(a, b, k, p), m, k, p, probes)
  {
    hide ProbePasses, RowPasses, Mul, IsRoundoff, IsMat;
    forall bound, t | 0 <= t < |probes|
      ensures ProbePasses(a, b, Mul(a, b, k, p), m, k, bound, probes[t])
    {
      HonestAccepted(a, b, m, k, bound, probes[t]);
    }
  }

  /** The coefficients a probe draws from. */
  ghost function Digits(): (d: set<int>)
    ensures forall c :: c in d <==> -PROBE_L <= c <= PROBE_L
    ensures |d| == 7
  {
    {-3, -2, -1, 0, 1, 2, 3}
  }

  /** Every probe vector of length `p`. */
  ghost function Cube(p: nat): set<seq<int>> {
    Words(Digits(), p)
  }

  function AbsTerm(m: Mat, i: int): int -> real {
    t => Abs(At(m, i, t))
  }

  function RowAbs(m: Mat, p: nat, i: int): real {
    Sum(p, AbsTerm(m, i))
  }

  lemma {:induction false} TermBound(x: real, c: int)
    requires c in Digits()
    ensures Abs(x * (c as real)) <= 3.0 * Abs(x)
  {
  }

  lemma {:induction false} AbsSum(n: nat, f: int -> real, g: int -> real)
    requires forall t {:trigger f(t)} | 0 <= t < n :: Abs(f(t)) <= 3.0 * g(t)
    ensures Abs(Sum(n, f)) <= 3.0 * Sum(n, g)
  {
    if n > 0 {
      AbsSum(n - 1, f, g);
    }
  }

  lemma {:induction false} ProbeTerm(m: Mat, r: seq<int>, i: int, t: nat)
    requires t < |r| && r[t] in Digits()
    ensures Abs(Term(m, Column(r), i, 0)(t)) <= 3.0 * AbsTerm(m, i)(t)
  {
    hide At, Abs, Column, Digits;
    TermBound(At(m, i, t), r[t]);
  }

  /** No probe can make a row's value exceed `L` times its absolute sum. */
  lemma {:induction false} ProbeBound(m: Mat, r: seq<int>, i: int)
    requires r in Cube(|r|)
    ensures Abs(Dot(m, Column(r), |r|, i, 0)) <= 3.0 * RowAbs(m, |r|, i)
  {
    WordsMember(Digits(), r, |r|);
    hide Abs, Words, At;
    forall t | 0 <= t < |r|
      ensures Abs(Term(m, Column(r), i, 0)(t)) <= 3.0 * AbsTerm(m, i)(t)
    {
      ProbeTerm(m, r, i, t);
    }
    hide Term, AbsTerm, Column, Digits;
    AbsSum(|r|, Term(m, Column(r), i, 0), AbsTerm(m, i));
  }

  /** The largest tolerance row `i` is ever compared under. */
  function TolCap(a: Mat, b: Mat, z: Mat, k: nat, p: nat, bound: real, i: int): (t: real)
    ensures t > 0.0
  {
    Max(bound, ABS_FLOOR) + 0.0001 * Max(3.0 * Max(RowAbs(Mul(a, b, k, p), p, i), RowAbs(z, p, i)), 1.0)
  }

  lemma {:induction false} TolCapped(a: Mat, b: Mat, z: Mat, m: nat, k: nat, p: nat, bound: real, r: seq<int>, i: nat)
    requires IsMat(a, m, k) && IsMat(b, k, p) && IsMat(z, m, p) && i < m && r in Cube(p)
    ensures |r| == p
    ensures Tolerance(bound, Expected(a, b, k, r, i), Observed(z, r, i)) <= TolCap(a, b, z, k, p, bound, i)
  {
    WordsMember(Digits(), r, p);
    ResidualProbe(a, b, z, m, k, r, i);
    ProbeBound(Mul(a, b, k, p), r, i);
    ProbeBound(z, r, i);
  }

  function Without(r: seq<int>, j: nat): (t: seq<int>)
    requires j < |r|
    ensures |t| == |r| - 1
  {
    r[..j] + r[j + 1..]
  }

  lemma {:induction false} WithoutAgrees(r: seq<int>, s: seq<int>, j: nat)
    requires |r| == |s| && j < |r| && Without(r, j) == Without(s, j)
    ensures forall t | 0 <= t < |r| && t != j :: r[t] == s[t]
  {
    forall t | 0 <= t < |r| && t != j
      ensures r[t] == s[t]
    {
      var at := if t < j then t else t - 1;
      assert r[t] == Without(r, j)[at];
      assert s[t] == Without(s, j)[at];
    }
  }

  /** Two probes that agree outside `j` and both land within `cap` agree at `j` too. */
  lemma {:induction false} SlicesApart(e: Mat, r: seq<int>, s: seq<int>, i: int, j: nat, cap: real)
    requires |r| == |s| && j < |r| && Without(r, j) == Without(s, j)
    requires cap >= 0.0 && Abs(At(e, i, j)) > 2.0 * cap
    requires Abs(Dot(e, Column(r), |r|, i, 0)) <= cap && Abs(Dot(e, Column(s), |s|, i, 0)) <= cap
    ensures r == s
  {
    hide Dot, Abs, Column, At;
    if r[j] != s[j] {
      ProbesDiffer(e, r, s, i, j);
      StepTooBig(At(e, i, j), r[j], s[j], cap);
      TooFar(Dot(e, Column(r), |r|, i, 0), Dot(e, Column(s), |s|, i, 0), cap);
      assert false;
    }
    WithoutAgrees(r, s, j);
  }

  lemma {:induction false} TooFar(x: real, y: real, cap: real)
    requires Abs(x) <= cap && Abs(y) <= cap
    ensures Abs(x - y) <= 2.0 * cap
  {
  }

  lemma {:induction false} ProbesDiffer(e: Mat, r: seq<int>, s: seq<int>, i: int, j: nat)
    requires |r| == |s| && j < |r| && Without(r, j) == Without(s, j)
    ensures Dot(e, Column(r), |r|, i, 0) - Dot(e, Column(s), |s|, i, 0)
         == At(e, i, j) * (r[j] as real) - At(e, i, j) * (s[j] as real)
  {
    WithoutAgrees(r, s, j);
    SumReplace(|r|, j, Term(e, Column(r), i, 0), Term(e, Column(s), i, 0));
  }

  lemma {:induction false} StepTooBig(x: real, c: int, d: int, cap: real)
    requires c != d && cap >= 0.0 && Abs(x) > 2.0 * cap
    ensures Abs(x * (c as real) - x * (d as real)) > 2.0 * cap
  {
    var gap := (c - d) as real;
    assert x * (c as real) - x * (d as real) == x * gap;
    Stretched(x, gap);
  }

  lemma {:induction false} Stretched(x: real, g: real)
    requires g >= 1.0 || g <= -1.0
    ensures Abs(x * g) >= Abs(x)
  {
    var h := Abs(g);
    Enlarges(Abs(x), h);
    assert x * g == Abs(x) * h || x * g == -(Abs(x) * h);
  }

  lemma {:induction false} Enlarges(x: real, g: real)
    requires x >= 0.0 && g >= 1.0
    ensures x * g >= x
  {
  }

  ghost function Within(e: Mat, p: nat, i: int, cap: real): set<seq<int>> {
    set r | r in Cube(p) && Abs(Dot(e, Column(r), |r|, i, 0)) <= cap
  }

  /** At most one coefficient in seven keeps a row with a large entry within `cap`. */
  lemma {:induction false} FewWithin(e: Mat, p: nat, i: int, j: nat, cap: real)
    requires j < p && cap >= 0.0 && Abs(At(e, i, j)) > 2.0 * cap
    ensures |Within(e, p, i, cap)| <= Power(7, p - 1)
  {
    hide Dot, Abs, Column, Words, At;
    var f := Drop(j);
    forall r | r in Within(e, p, i, cap)
      ensures |r| == p && f(r) in Cube(p - 1)
    {
      DropInCube(r, p, j);
    }
    forall r, s | r in Within(e, p, i, cap) && s in Within(e, p, i, cap) && f(r) == f(s)
      ensures r == s
    {
      SlicesApart(e, r, s, i, j, cap);
    }
    hide Within, Cube, Drop;
    InjectionSize(Within(e, p, i, cap), Cube(p - 1), f);
    CubeSize(p - 1);
  }

  lemma {:induction false} CubeSize(p: nat)
    ensures |Cube(p)| == Power(7, p)
  {
    WordsSize(Digits(), p);
  }

  function Drop(j: nat): seq<int> -> seq<int> {
    r => if j < |r| then Without(r, j) else []
  }

  lemma {:induction false} DropInCube(r: seq<int>, p: nat, j: nat)
    requires r in Cube(p) && j < p
    ensures |r| == p && Drop(j)(r) == Without(r, j) && Without(r, j) in Cube(p - 1)
  {
    WordsMember(Digits(), r, p);
    WordsMember(Digits(), Without(r, j), p - 1);
  }

  ghost function Passing(a: Mat, b: Mat, z: Mat, m: nat, k: nat, p: nat, bound: real): set<seq<int>> {
    set r | r in Cube(p) && ProbePasses(a, b, z, m, k, bound, r)
  }

  /** A tampered entry that exceeds twice its row's tolerance escapes at most
      one probe in seven: `7^(p−1)` of the `7^p`. */
  lemma {:induction false} TamperCaught(a: Mat, b: Mat, z: Mat, m: nat, k: nat, p: nat, bound: real, i: nat, j: nat)
    requires IsMat(a, m, k) && IsMat(b, k, p) && IsMat(z, m, p) && i < m && j < p
    requires Abs(At(Mul(a, b, k, p), i, j) - At(z, i, j)) > 2.0 * TolCap(a, b, z, k, p, bound, i)
    ensures |Cube(p)| == Power(7, p)
    ensures |Passing(a, b, z, m, k, p, bound)| <= Power(7, p - 1)
  {
    var e, cap := Residual(a, b, z, m, k, p), TolCap(a, b, z, k, p, bound, i);
    CubeSize(p);
    assert forall s, t :: 0 <= s < m && 0 <= t < p ==> At(e, s, t) == At(Mul(a, b, k, p), s, t) - At(z, s, t);
    hide *;
    PassingWithin(a, b, z, m, k, p, bound, i);
    SubsetSize(Passing(a, b, z, m, k, p, bound), Within(e, p, i, cap));
    FewWithin(e, p, i, j, cap);
  }

  lemma {:induction false} PassingWithin(a: Mat, b: Mat, z: Mat, m: nat, k: nat, p: nat, bound: real, i: nat)
    requires IsMat(a, m, k) && IsMat(b, k, p) && IsMat(z, m, p) && i < m
    ensures Passing(a, b, z, m, k, p, bound)
            <= Within(Residual(a, b, z, m, k, p), p, i, TolCap(a, b, z, k, p, bound, i))
  {
    hide TolCap, Tolerance, Expected, Observed, Cube, Residual, IsMat;
    forall r | r in Passing(a, b, z, m, k, p, bound)
      ensures r in Within(Residual(a, b, z, m, k, p), p, i, TolCap(a, b, z, k, p, bound, i))
    {
      TolCapped(a, b, z, m, k, p, bound, r, i);
      ResidualProbe(a, b, z, m, k, r, i);
      assert RowPasses(a, b, z, k, bound, r, i);
    }
  }

  /** `n` independent probes all miss such an entry in at most a `7^-n` share of all draws. */
  lemma {:induction false} RoundsCaught(a: Mat, b: Mat, z: Mat, m: nat, k: nat, p: nat, bound: real, i: nat, j: nat,
                                        n: nat)
    requires IsMat(a, m, k) && IsMat(b, k, p) && IsMat(z, m, p) && i < m && j < p
    requires Abs(At(Mul(a, b, k, p), i, j) - At(z, i, j)) > 2.0 * TolCap(a, b, z, k, p, bound, i)
    ensures |Words(Cube(p), n)| == Power(Power(7, p), n)
    ensures Power(7, n) * |set w | w in Words(Cube(p), n) && AllPass(a, b, z, m, k, p, bound, w)|
         <= |Words(Cube(p), n)|
  {
    var pass := Passing(a, b, z, m, k, p, bound);
    var missed := set w | w in Words(Cube(p), n) && AllPass(a, b, z, m, k, p, bound, w);
    TamperCaught(a, b, z, m, k, p, bound, i, j);
    forall w, t | w in missed && 0 <= t < |w|
      ensures w[t] in pass
    {
      WordsMember(Cube(p), w, n);
    }
    FewMissed(p, n, pass, missed);
  }

  /** Draws of `n` probes that all lie in a seventh of the cube are at most a `7^-n` share. */
  lemma {:induction false} FewMissed(p: nat, n: nat, pass: set<seq<int>>, missed: set<seq<seq<int>>>)
    requires p > 0 && |pass| <= Power(7, p - 1) && missed <= Words(Cube(p), n)
    requires forall w, t {:trigger w in missed, w[t]} :: w in missed && 0 <= t < |w| ==> w[t] in pass
    ensures |Words(Cube(p), n)| == Power(Power(7, p), n)
    ensures Power(7, n) * |missed| <= |Words(Cube(p), n)|
  {
    forall w | w in missed
      ensures w in Words(pass, n)
    {
      WordsMember(Cube(p), w, n);
      WordsMember(pass, w, n);
    }
    SubsetSize(missed, Words(pass, n));
    WordsSize(pass, n);
    WordsSize(Cube(p), n);
    CubeSize(p);
    hide *;
    PowerMonotone(|pass|, Power(7, p - 1), n);
    SevenSplit(p, n);
    Scaled(Power(7, n), |missed|, Power(Power(7, p - 1), n));
  }

  lemma {:induction false} SevenSplit(p: nat, n: nat)
    requires p > 0
    ensures Power(7, n) * Power(Power(7, p - 1), n) == Power(Power(7, p), n)
  {
    PowerProduct(7, Power(7, p - 1), n);
  }

  lemma {:induction false} Scaled(c: nat, x: nat, y: nat)
    requires x <= y
    ensures c * x <= c * y
  {
  }

  // ─── the comparison without tolerance ───

  /** In exact arithmetic: `Z = A·B` if and only if every probe vector agrees on every row. */
  lemma {:induction false} ExactIff(a: Mat, b: Mat, z: Mat, m: nat, k: nat, p: nat)
    requires IsMat(a, m, k) && IsMat(b, k, p) && IsMat(z, m, p)
    ensures z == Mul(a, b, k, p) <==>
              forall r, i {:trigger Observed(z, r, i)} | r in Cube(p) && 0 <= i < m ::
                    Expected(a, b, k, r, i) == Observed(z, r, i)
  {
    if z == Mul(a, b, k, p) {
      forall r, i | r in Cube(p) && 0 <= i < m
        ensures Expected(a, b, k, r, i) == Observed(z, r, i)
      {
        ProbeGap(a, b, z, m, k, p, r, i);
        SumZero(|r|, Term(Residual(a, b, z, m, k, |r|), Column(r), i, 0));
      }
    } else {
      var i, j := Difference(z, Mul(a, b, k, p), m, p);
      var r := Witness(a, b, z, m, k, p, i, j);
      assert Expected(a, b, k, r, i) != Observed(z, r, i);
    }
  }

  lemma {:induction false} ProbeGap(a: Mat, b: Mat, z: Mat, m: nat, k: nat, p: nat, r: seq<int>, i: nat)
    requires IsMat(a, m, k) && IsMat(b, k, p) && IsMat(z, m, p) && i < m && r in Cube(p)
    ensures |r| == p
    ensures Expected(a, b, k, r, i) - Observed(z, r, i) == Dot(Residual(a, b, z, m, k, p), Column(r), |r|, i, 0)
  {
    WordsMember(Digits(), r, p);
    ResidualProbe(a, b, z, m, k, r, i);
  }

  /** A probe that tells a wrong entry apart. */
  lemma {:induction false} Witness(a: Mat, b: Mat, z: Mat, m: nat, k: nat, p: nat, i: nat, j: nat) returns (r: seq<int>)
    requires IsMat(a, m, k) && IsMat(b, k, p) && IsMat(z, m, p) && i < m && j < p
    requires At(z, i, j) != At(Mul(a, b, k, p), i, j)
    ensures r in Cube(p) && Expected(a, b, k, r, i) != Observed(z, r, i)
  {
    hide Dot, Column, Words, At, Residual, Expected, Observed, Mul;
    var all, few := Cube(p), Within(Residual(a, b, z, m, k, p), p, i, 0.0);
    ExactCaught(a, b, z, m, k, p, i, j);
    CubeSize(p);
    PowerPositive(7, p - 1);
    if forall r | r in all :: r in few {
      SubsetSize(all, few);
      assert false;
    }
    r :| r in all && r !in few;
    ProbeGap(a, b, z, m, k, p, r, i);
  }

  /** Any wrong product agrees with at most one probe vector in seven. */
  lemma {:induction false} ExactCaught(a: Mat, b: Mat, z: Mat, m: nat, k: nat, p: nat, i: nat, j: nat)
    requires IsMat(a, m, k) && IsMat(b, k, p) && IsMat(z, m, p) && i < m && j < p
    requires At(z, i, j) != At(Mul(a, b, k, p), i, j)
    ensures |Within(Residual(a, b, z, m, k, p), p, i, 0.0)| <= Power(7, p - 1)
  {
    FewWithin(Residual(a, b, z, m, k, p), p, i, j, 0.0);
  }

  /** Every probe of a draw agrees on every row. */
  ghost predicate AllAgree(a: Mat, b: Mat, z: Mat, m: nat, k: nat, w: seq<seq<int>>) {
    forall t {:trigger w[t]} | 0 <= t < |w| :: Agrees(a, b, z, m, k, w[t])
  }

  ghost predicate Agrees(a: Mat, b: Mat, z: Mat, m: nat, k: nat, r: seq<int>) {
    forall i {:trigger Observed(z, r, i)} | 0 <= i < m :: Expected(a, b, k, r, i) == Observed(z, r, i)
  }

  /** In exact arithmetic, `n` independent probes miss any wrong product in at most a `7^-n` share of all draws. */
  lemma {:induction false} ExactRounds(a: Mat, b: Mat, z: Mat, m: nat, k: nat, p: nat, n: nat)
    requires IsMat(a, m, k) && IsMat(b, k, p) && IsMat(z, m, p) && z != Mul(a, b, k, p)
    ensures Power(7, n) * |set w | w in Words(Cube(p), n) && AllAgree(a, b, z, m, k, w)| <= |Words(Cube(p), n)|
  {
    var missed := set w | w in Words(Cube(p), n) && AllAgree(a, b, z, m, k, w);
    var i, j := Difference(z, Mul(a, b, k, p), m, p);
    var pass := Within(Residual(a, b, z, m, k, p), p, i, 0.0);
    ExactCaught(a, b, z, m, k, p, i, j);
    hide Dot, Column, Words, At, Residual, Expected, Observed, Mul, Within, Cube, Agrees;
    forall w, t | w in missed && 0 <= t < |w|
      ensures w[t] in pass
    {
      WordsMember(Cube(p), w, n);
      assert Agrees(a, b, z, m, k, w[t]);
      AgreesWithin(a, b, z, m, k, p, w[t], i);
    }
    FewMissed(p, n, pass, missed);
  }

  lemma {:induction false} AgreesWithin(a: Mat, b: Mat, z: Mat, m: nat, k: nat, p: nat, r: seq<int>, i: nat)
    requires IsMat(a, m, k) && IsMat(b, k, p) && IsMat(z, m, p) && i < m && r in Cube(p) && Agrees(a, b, z, m, k, r)
    ensures r in Within(Residual(a, b, z, m, k, p), p, i, 0.0)
  {
    hide Dot, Column, Cube, At, Residual, Expected, Observed, Mul;
    ProbeGap(a, b, z, m, k, p, r, i);
    assert Observed(z, r, i) == Expected(a, b, k, r, i);
  }

  lemma {:induction false} Difference(x: Mat, y: Mat, r: nat, c: nat) returns (i: nat, j: nat)
    requires IsMat(x, r, c) && IsMat(y, r, c) && x != y
    ensures i < r && j < c && At(x, i, j) != At(y, i, j)
  {
    if forall i, j :: 0 <= i < r && 0 <= j < c ==> At(x, i, j) == At(y, i, j) {
      MatExt(x, y, r, c);
      assert false;
    }
    i, j :| 0 <= i < r && 0 <= j < c && At(x, i, j) != At(y, i, j);
  }

  // ─── what the tolerance lets through ───

  /** A deviation whose rows are small in absolute sum passes every probe there is. */
  lemma {:induction false} NeverCaught(a: Mat, b: Mat, z: Mat, m: nat, k: nat, p: nat, bound: real)
    requires IsMat(a, m, k) && IsMat(b, k, p) && IsMat(z, m, p)
    requires forall i {:trigger RowAbs(Residual(a, b, z, m, k, p), p, i)} | 0 <= i < m ::
               3.0 * RowAbs(Residual(a, b, z, m, k, p), p, i) <= Max(bound, ABS_FLOOR) + 0.0001
    ensures Passing(a, b, z, m, k, p, bound) == Cube(p)
  {
    var e := Residual(a, b, z, m, k, p);
    forall r | r in Cube(p)
      ensures ProbePasses(a, b, z, m, k, bound, r)
    {
      WordsMember(Digits(), r, p);
      forall i | 0 <= i < m
        ensures RowPasses(a, b, z, k, bound, r, i)
      {
        ResidualProbe(a, b, z, m, k, r, i);
        ProbeBound(e, r, i);
        assert 3.0 * RowAbs(e, p, i) <= Max(bound, ABS_FLOOR) + 0.0001;
      }
    }
  }

  lemma {:induction false} SignedThree(x: real)
    ensures x * (if x < 0.0 then -3.0 else 3.0) == 3.0 * Abs(x)
  {
  }

  /** The probe that adds up the magnitudes of a row. */
  lemma {:induction false} WorstProbe(e: Mat, p: nat, i: int) returns (r: seq<int>)
    ensures r in Cube(p) && |r| == p && Dot(e, Column(r), p, i, 0) == 3.0 * RowAbs(e, p, i)
  {
    r := seq(p, j => if At(e, i, j) < 0.0 then -3 else 3);
    forall j | 0 <= j < p
      ensures r[j] in Digits()
    {
    }
    WordsMember(Digits(), r, p);
    hide *;
    forall j: nat | j < p
      ensures Term(e, Column(r), i, 0)(j) == 3.0 * AbsTerm(e, i)(j)
    {
      WorstTerm(e, r, i, j);
    }
    WorstSum(e, r, p, i);
  }

  lemma {:induction false} WorstTerm(e: Mat, r: seq<int>, i: int, j: nat)
    requires j < |r| && r[j] == if At(e, i, j) < 0.0 then -3 else 3
    ensures Term(e, Column(r), i, 0)(j) == 3.0 * AbsTerm(e, i)(j)
  {
    hide At, Abs, Column;
    SignedThree(At(e, i, j));
  }

  lemma {:induction false} WorstSum(e: Mat, r: seq<int>, p: nat, i: int)
    requires forall j: nat | j < p :: Term(e, Column(r), i, 0)(j) == 3.0 * AbsTerm(e, i)(j)
    ensures Dot(e, Column(r), p, i, 0) == 3.0 * RowAbs(e, p, i)
  {
    hide Term, AbsTerm, Column;
    SumScale(p, 3.0, AbsTerm(e, i), Term(e, Column(r), i, 0));
  }

  /** The values of row `i` never exceed 1, so its tolerance is the same for every probe. */
  predicate UnitRow(x: Mat, p: nat, i: int) {
    3.0 * RowAbs(x, p, i) <= 1.0
  }

  /** Where no probe takes either product past 1, a deviation passes every probe there is exactly when
      all its rows are small in absolute sum. */
  lemma {:induction false} NeverCaughtIff(a: Mat, b: Mat, z: Mat, m: nat, k: nat, p: nat, bound: real)
    requires IsMat(a, m, k) && IsMat(b, k, p) && IsMat(z, m, p)
    requires forall i {:trigger UnitRow(z, p, i)} | 0 <= i < m :: UnitRow(Mul(a, b, k, p), p, i) && UnitRow(z, p, i)
    ensures Passing(a, b, z, m, k, p, bound) == Cube(p) <==>
              forall i {:trigger RowAbs(Residual(a, b, z, m, k, p), p, i)} | 0 <= i < m ::
                3.0 * RowAbs(Residual(a, b, z, m, k, p), p, i) <= Max(bound, ABS_FLOOR) + 0.0001
  {
    var e := Residual(a, b, z, m, k, p);
    if Passing(a, b, z, m, k, p, bound) == Cube(p) {
      forall i | 0 <= i < m
        ensures 3.0 * RowAbs(e, p, i) <= Max(bound, ABS_FLOOR) + 0.0001
      {
        var r := WorstProbe(e, p, i);
        assert UnitRow(z, p, i);
        assert r in Passing(a, b, z, m, k, p, bound) && RowPasses(a, b, z, k, bound, r, i);
        TolCapped(a, b, z, m, k, p, bound, r, i);
        ResidualProbe(a, b, z, m, k, r, i);
      }
    } else if forall i {:trigger RowAbs(e, p, i)} | 0 <= i < m ::
          3.0 * RowAbs(e, p, i) <= Max(bound, ABS_FLOOR) + 0.0001 {
      NeverCaught(a, b, z, m, k, p, bound);
    }
  }

  /** So a wrong product can be accepted with certainty: 1·1 reported as 1.00005. */
  lemma {:induction false} SilentTamper(bound: real)
    ensures var a, z: Mat := [[1.0]], [[1.00005]];
            z != Mul(a, a, 1, 1) && Passing(a, a, z, 1, 1, 1, bound) == Cube(1)
  {
    var a, z: Mat := [[1.0]], [[1.00005]];
    var ab, e := Mul(a, a, 1, 1), Residual(a, a, z, 1, 1, 1);
    assert At(ab, 0, 0) == Sum(0, Term(a, a, 0, 0)) + At(a, 0, 0) * At(a, 0, 0);
    assert At(z, 0, 0) == 1.00005;
    assert RowAbs(e, 1, 0) == Sum(0, AbsTerm(e, 0)) + Abs(At(e, 0, 0));
    NeverCaught(a, a, z, 1, 1, 1, bound);
  }
}
