/** The three mask families behind one interface, the choice between them, and
    the shield-row count that keeps a shared decode aligned. */
module Masks {
  import opened LinAlg
  import opened Cascade
  import opened Walsh
  import opened Fwht
  import opened Haar
  import Hd3
  import Dct4

  datatype MaskKind = HaarKind | Hd3Kind | Dct4Kind | Auto

  datatype MaskFamily =
    | Dense(side: nat, a: Mat)
    | Structured(hd3: Hd3.Hd3Mask)
    | Cosine(dct4: Dct4.Dct4Mask)

  function Side(mask: MaskFamily): nat {
    match mask
    case Dense(side, _) => side
    case Structured(m) => m.n
    case Cosine(m) => m.n
  }

  function KindOf(mask: MaskFamily): MaskKind {
    match mask
    case Dense(_, _) => HaarKind
    case Structured(_) => Hd3Kind
    case Cosine(_) => Dct4Kind
  }

  ghost predicate ValidFamily(mask: MaskFamily) {
    match mask
    case Dense(side, a) => Orthogonal(a, side)
    case Structured(m) => Hd3.ValidMask(m)
    case Cosine(m) => Dct4.ValidMask(m)
  }

  /** `A·X` */
  ghost function FamilyApply(mask: MaskFamily, x: Mat, p: nat): Mat {
    match mask
    case Dense(side, a) => Mul(a, x, side, p)
    case Structured(m) => Apply(WalshMatrix(m.n), m.keys, x, m.n, p)
    case Cosine(m) => Dct4.MaskApply(m, x, p)
  }

  /** `Aᵀ·Y` */
  ghost function FamilyUnapply(mask: MaskFamily, y: Mat, p: nat): Mat
    requires ValidFamily(mask)
  {
    match mask
    case Dense(side, a) => Mul(Transpose(a, side, side), y, side, p)
    case Structured(m) => Unapply(WalshMatrix(m.n), m.keys, y, m.n, p)
    case Cosine(m) => Dct4.MaskUnapply(m, y, p)
  }

  /** Masking multiplies: by the dense matrix, or by the mask matrix of the kernel and the diagonals. */
  lemma {:induction false} FamilyIs(mask: MaskFamily, x: Mat, p: nat)
    requires ValidFamily(mask) && IsMat(x, Side(mask), p)
    ensures mask.Dense? ==> FamilyApply(mask, x, p) == Mul(mask.a, x, Side(mask), p)
    ensures mask.Structured? ==>
              var a := MaskMatrix(WalshMatrix(mask.hd3.n), mask.hd3.keys, mask.hd3.n);
              FamilyApply(mask, x, p) == Mul(a, x, Side(mask), p)
    ensures mask.Cosine? && Side(mask) >= 2 ==>
              var a := MaskMatrix(mask.dct4.planner, mask.dct4.keys, mask.dct4.n);
              FamilyApply(mask, x, p) == Mul(a, x, Side(mask), p)
    ensures mask.Cosine? && Side(mask) == 1 ==> FamilyApply(mask, x, p) == x
  {
    match mask
    case Dense(_, _) =>
    case Structured(m) =>
      Hd3.WalshKernel(m.n);
      ApplyIsMatrix(WalshMatrix(m.n), m.keys, x, m.n, p);
    case Cosine(m) =>
      ApplyIsMatrix(m.planner, m.keys, x, m.n, p);
      Dct4.EarlyReturn(m, x, p);
  }

  lemma {:induction false} FamilyShapes(mask: MaskFamily, x: Mat, p: nat)
    requires ValidFamily(mask) && IsMat(x, Side(mask), p)
    ensures IsMat(FamilyApply(mask, x, p), Side(mask), p)
    ensures IsMat(FamilyUnapply(mask, x, p), Side(mask), p)
  {
  }

  /** Whatever the family: unmasking `(A·X)·W` leaves `X·W`. */
  lemma {:induction false} FamilyRoundTrip(mask: MaskFamily, x: Mat, w: Mat, p: nat, q: nat)
    requires ValidFamily(mask) && IsMat(x, Side(mask), p) && IsMat(w, p, q)
    ensures FamilyUnapply(mask, Mul(FamilyApply(mask, x, p), w, p, q), q) == Mul(x, w, p, q)
  {
    match mask
    case Dense(n, a) =>
      var at := Transpose(a, n, n);
      MulAssoc(a, x, w, n, n, p, q);
      MulAssoc(at, a, Mul(x, w, p, q), n, n, n, q);
      MulIdentityLeft(Mul(x, w, p, q), n, q);
    case Structured(m) => Hd3.Hd3RoundTrip(m, x, w, p, q);
    case Cosine(m) => Dct4.Dct4RoundTrip(m, x, w, p, q);
  }

  /** Unmasking a masked matrix gives it back. */
  lemma {:induction false} FamilyInverse(mask: MaskFamily, x: Mat, p: nat)
    requires ValidFamily(mask) && IsMat(x, Side(mask), p)
    ensures FamilyUnapply(mask, FamilyApply(mask, x, p), p) == x
  {
    hide *;
    FamilyShapes(mask, x, p);
    FamilyRoundTrip(mask, x, Identity(p), p, p);
    MulIdentityRight(FamilyApply(mask, x, p), Side(mask), p);
    MulIdentityRight(x, Side(mask), p);
  }

  // ─── choosing a family ───

  /** The least power of two that is at least `n`. */
  function NextPowerOfTwo(n: nat): (p: nat)
    ensures p >= n && p >= 1 && IsPowerOfTwo(p)
    ensures n >= 1 ==> p < 2 * n
  {
    if n <= 1 then
      assert Pow2(0) == 1; 1
    else
      var half := NextPowerOfTwo((n + 1) / 2);
      var m: nat :| half == Pow2(m);
      assert Pow2(m + 1) == 2 * half;
      2 * half
  }

  const PAD_NUM: nat := 8
  const PAD_DEN: nat := 5

  function AtLeastTwo(n: nat): nat {
    if n < 2 then 2 else n
  }

  /** `Auto` picks HD₃ when padding to a power of two costs at most `8/5`. */
  function ResolveMaskKindForShape(kind: MaskKind, s: nat): (r: MaskKind)
    ensures r != Auto
  {
    match kind
    case Auto =>
      var sPad := AtLeastTwo(NextPowerOfTwo(s));
      if sPad * PAD_DEN <= s * PAD_NUM then Hd3Kind else Dct4Kind
    case _ => kind
  }

  /** Rows of the stacked operand: HD₃ pads to a power of two, the others do not. */
  function StackedRows(resolved: MaskKind, s: nat): (n: nat)
    ensures n >= s
    ensures resolved == Hd3Kind ==> IsPowerOfTwo(n)
  {
    if resolved == Hd3Kind then
      assert Pow2(1) == 2 * Pow2(0);
      AtLeastTwo(NextPowerOfTwo(s))
    else s
  }

  lemma {:induction false} PowersApart(a: nat, b: nat)
    requires a < b
    ensures 2 * Pow2(a) <= Pow2(b)
  {
    if a + 1 < b {
      PowersApart(a, b - 1);
    }
  }

  lemma {:induction false} NextPowerIsLeast(n: nat, q: nat)
    requires IsPowerOfTwo(q) && q >= n
    ensures NextPowerOfTwo(n) <= q
  {
    var p := NextPowerOfTwo(n);
    if p > q {
      var a: nat, b: nat :| p == Pow2(a) && q == Pow2(b);
      if a <= b {
        if a < b {
          PowersApart(a, b);
        }
        assert false;
      }
      PowersApart(b, a);
    }
  }

  /** HD₃ pads to the least even power of two; the other families do not pad. */
  lemma {:induction false} PadsToLeast(s: nat, m: nat)
    requires m >= 1 && Pow2(m) >= s
    ensures 2 <= StackedRows(Hd3Kind, s) <= Pow2(m)
    ensures StackedRows(HaarKind, s) == StackedRows(Dct4Kind, s) == s
  {
    assert Pow2(m) == 2 * Pow2(m - 1);
    NextPowerIsLeast(s, Pow2(m));
  }

  /** `Auto` takes HD₃ exactly when some even power of two holds the rows at no more than eight
      fifths of their number, and the cosine family otherwise; a named family is kept. */
  lemma {:induction false} AutoIff(s: nat)
    ensures ResolveMaskKindForShape(Auto, s) == Hd3Kind
       <==> exists m: nat :: m >= 1 && s <= Pow2(m) && 5 * Pow2(m) <= 8 * s
    ensures ResolveMaskKindForShape(Auto, s) in {Hd3Kind, Dct4Kind}
    ensures forall kind | kind != Auto :: ResolveMaskKindForShape(kind, s) == kind
  {
    var pad := StackedRows(Hd3Kind, s);
    if m: nat :| m >= 1 && s <= Pow2(m) && 5 * Pow2(m) <= 8 * s {
      PadsToLeast(s, m);
    }
    if 5 * pad <= 8 * s {
      var m: nat :| pad == Pow2(m);
      assert Pow2(0) == 1;
      assert m >= 1;
    }
  }

  /** Under `Auto` the operand grows by a factor of at most `8/5`, and only for HD₃. */
  lemma {:induction false} AutoPadBounded(s: nat)
    ensures StackedRows(ResolveMaskKindForShape(Auto, s), s) * 5 <= s * 8
         || StackedRows(ResolveMaskKindForShape(Auto, s), s) == s
  {
  }

  // ─── shield rows for a shared decode ───

  function ShieldKForBatch(n: nat, kBase: nat): (k: nat)
    ensures k >= kBase
  {
    var k := NextPowerOfTwo(n + kBase) - n;
    if k < kBase then kBase else k
  }

  /** The stacked height is a power of two, so `Auto` takes HD₃ without any padding. */
  lemma {:induction false} SharedDecodeAligned(n: nat, kBase: nat)
    requires n >= 1 && kBase >= 1
    ensures var s := n + ShieldKForBatch(n, kBase);
            && s == NextPowerOfTwo(n + kBase)
            && ShieldKForBatch(n, kBase) < n + 2 * kBase
            && ResolveMaskKindForShape(Auto, s) == Hd3Kind
            && StackedRows(Hd3Kind, s) == s
  {
    var s := n + ShieldKForBatch(n, kBase);
    NextPowerIsLeast(s, s);
  }

  /** No smaller count, from the base on, brings the stack to a power of two. */
  lemma {:induction false} ShieldLeast(n: nat, kBase: nat, k: nat)
    requires k >= kBase && IsPowerOfTwo(n + k)
    ensures ShieldKForBatch(n, kBase) <= k
  {
    NextPowerIsLeast(n + kBase, n + k);
    hide NextPowerOfTwo, IsPowerOfTwo;
  }

  /** Some power of two lies between `lo` and `hi`. */
  ghost predicate PowerWithin(lo: int, hi: int) {
    exists m: nat :: lo <= Pow2(m) <= hi
  }

  /** The documented ceiling `2·kBase − 1` holds exactly when a power of two lies among the
      `kBase` stacked heights it allows. */
  lemma {:induction false} ShieldCeilingIff(n: nat, kBase: nat)
    ensures ShieldKForBatch(n, kBase) <= 2 * kBase - 1 <==> PowerWithin(n + kBase, n + 2 * kBase - 1)
  {
    var p := NextPowerOfTwo(n + kBase);
    if PowerWithin(n + kBase, n + 2 * kBase - 1) {
      var m: nat :| n + kBase <= Pow2(m) <= n + 2 * kBase - 1;
      NextPowerIsLeast(n + kBase, Pow2(m));
    } else {
      var m: nat :| p == Pow2(m);
      assert !(n + kBase <= Pow2(m) <= n + 2 * kBase - 1);
    }
  }

  /** It does fail: twelve sequences with a base of eight take twenty rows. */
  lemma {:induction false} ShieldCeilingMissed()
    ensures ShieldKForBatch(12, 8) == 20 && !PowerWithin(12 + 8, 12 + 2 * 8 - 1)
  {
    assert NextPowerOfTwo(20) == 2 * NextPowerOfTwo(10);
    assert NextPowerOfTwo(10) == 2 * NextPowerOfTwo(5);
    assert NextPowerOfTwo(5) == 2 * NextPowerOfTwo(3);
    assert NextPowerOfTwo(3) == 2 * NextPowerOfTwo(2);
    assert NextPowerOfTwo(2) == 2 * NextPowerOfTwo(1);
    ShieldCeilingIff(12, 8);
  }

  // ─── sampling ───

  /** The numeric routines a mask is built with: `√x`, `x^1.5` and the matrix of
      the length-`n` DCT-IV. */
  datatype Platform = Platform(sqrt: real -> real, pow15: real -> real, plan: nat -> Mat)

  ghost predicate Sound(plat: Platform) {
    && IsSqrt(plat.sqrt)
    && (forall x {:trigger plat.pow15(x)} :: x > 0.0 ==> plat.pow15(x) * plat.pow15(x) == x * x * x)
    && (forall n: nat {:trigger plat.plan(n)} :: n > 0 ==> IsKernel(plat.plan(n), n, n as real / 2.0))
  }

  /** The random values one mask consumes. */
  datatype Draws = Draws(gauss: (int, int) -> real, w1: nat -> nat, w2: nat -> nat, w3: nat -> nat)

  lemma {:induction false} InverseSquare(c: real, g: real)
    requires g > 0.0 && c * c == g
    ensures c != 0.0 && (1.0 / c) * (1.0 / c) * g == 1.0
  {
    var d := 1.0 / c;
    assert d * c == 1.0;
    assert d * d * (c * c) == (d * c) * (d * c);
  }

  lemma {:induction false} Hd3Norm(x: real, c: real)
    requires x > 0.0 && c * c == x * x * x
    ensures c != 0.0 && (1.0 / c) * (1.0 / c) * (x * x * x) == 1.0
  {
    var sq := x * x;
    PositiveProduct(x, x, sq);
    PositiveProduct(sq, x, x * x * x);
    InverseSquare(c, x * x * x);
  }

  lemma {:induction false} Dct4Norm(x: real, y: real, c: real)
    requires x * y == 1.0 && c * c == x * x * x
    ensures c * c * (y * y * y) == 1.0
  {
    assert (x * x * x) * (y * y * y) == (x * y) * ((x * y) * (x * y));
  }

  /** The mask of side `n` these draws stand for: the orthogonal factor of the Gaussian matrix,
      or the kernel between diagonals with the drawn signs. */
  ghost predicate Sampled(mask: MaskFamily, n: nat, draws: Draws, plat: Platform) {
    && ValidFamily(mask) && Side(mask) == n
    && match mask
       case Dense(_, a) => a == HaarFactor(Build(n, n, draws.gauss), n, plat.sqrt)
       case Structured(m) => KeysOf(m.keys, n, draws)
       case Cosine(m) => KeysOf(m.keys, n, draws) && m.planner == plat.plan(n)
  }

  ghost predicate KeysOf(keys: Keys, n: nat, draws: Draws) {
    Hd3.SignsOf(keys.d1, n, draws.w1) && Hd3.SignsOf(keys.d2, n, draws.w2) && Hd3.SignsOf(keys.d3, n, draws.w3)
  }

  /** The factor of the drawn Gaussian matrix itself exactly when no turn of the run lost anything. */
  lemma {:induction false} DenseSampled(mask: MaskFamily, n: nat, draws: Draws, plat: Platform)
    requires Sound(plat) && mask.Dense? && Sampled(mask, n, draws, plat)
    ensures var g := Build(n, n, draws.gauss);
            var r := TriangularFactor(g, n, plat.sqrt);
            && IsQrOf(mask.a, r, g, n, plat.sqrt)
            && (Mul(mask.a, r, n, n) == g <==> NothingLost(g, n, plat.sqrt))
  {
    var g := Build(n, n, draws.gauss);
    FactorsOf(g, n, plat.sqrt);
    ExactIff(g, n, plat.sqrt);
  }

  lemma {:induction false} DenseIsSampled(a: Mat, n: nat, draws: Draws, plat: Platform)
    requires Sound(plat) && a == HaarFactor(Build(n, n, draws.gauss), n, plat.sqrt)
    ensures Sampled(Dense(n, a), n, draws, plat) && KindOf(Dense(n, a)) == HaarKind
  {
    var g := Build(n, n, draws.gauss);
    FactorsOf(g, n, plat.sqrt);
    hide HaarFactor, TriangularFactor, Orthogonal;
  }

  method FreshHaar(n: nat, draws: Draws, plat: Platform) returns (mask: MaskFamily)
    requires Sound(plat)
    ensures Sampled(mask, n, draws, plat) && KindOf(mask) == HaarKind
  {
    var g := Build(n, n, draws.gauss);
    var a := SampleHaarOrthogonal(g, n, plat.sqrt);
    mask := Dense(n, a);
    hide *;
    DenseIsSampled(a, n, draws, plat);
  }

  /** The three diagonals are drawn apart: any three sign vectors are the keys of some 32-bit draws. */
  lemma {:induction false} KeysDrawn(keys: Keys, n: nat, gauss: (int, int) -> real)
    requires IsSigns(keys.d1, n) && IsSigns(keys.d2, n) && IsSigns(keys.d3, n)
    ensures KeysOf(keys, n, Draws(gauss, Hd3.WordsOf(keys.d1), Hd3.WordsOf(keys.d2), Hd3.WordsOf(keys.d3)))
  {
    Hd3.SignsDrawn(keys.d1, n);
    Hd3.SignsDrawn(keys.d2, n);
    Hd3.SignsDrawn(keys.d3, n);
    hide Hd3.SignsOf;
  }

  method FreshHd3(n: nat, draws: Draws, plat: Platform) returns (mask: MaskFamily)
    requires Sound(plat) && IsPowerOfTwo(n)
    ensures Sampled(mask, n, draws, plat) && KindOf(mask) == Hd3Kind
  {
    var d1 := Hd3.SampleDiag(n, draws.w1);
    var d2 := Hd3.SampleDiag(n, draws.w2);
    var d3 := Hd3.SampleDiag(n, draws.w3);
    var x := n as real;
    var c := plat.pow15(x);
    Hd3Norm(x, c);
    mask := Structured(Hd3.Hd3Mask(n, Keys(d1, d2, d3, 1.0 / c)));
  }

  method FreshDct4(n: nat, draws: Draws, plat: Platform) returns (mask: MaskFamily)
    requires Sound(plat) && n > 0
    ensures Sampled(mask, n, draws, plat) && KindOf(mask) == Dct4Kind
  {
    var d1 := Hd3.SampleDiag(n, draws.w1);
    var d2 := Hd3.SampleDiag(n, draws.w2);
    var d3 := Hd3.SampleDiag(n, draws.w3);
    var x := 2.0 / (n as real);
    var c := plat.pow15(x);
    Dct4Norm(x, n as real / 2.0, c);
    mask := Cosine(Dct4.Dct4Mask(n, Keys(d1, d2, d3, c), plat.plan(n)));
  }

  /** A fresh mask of a resolved kind; HD₃ needs a power of two, DCT-IV a positive side. */
  method FreshMask(kind: MaskKind, n: nat, draws: Draws, plat: Platform) returns (mask: MaskFamily)
    requires Sound(plat) && kind != Auto
    requires kind == Hd3Kind ==> IsPowerOfTwo(n)
    requires kind == Dct4Kind ==> n > 0
    ensures Sampled(mask, n, draws, plat) && KindOf(mask) == kind
  {
    match kind
    case HaarKind => mask := FreshHaar(n, draws, plat);
    case Hd3Kind => mask := FreshHd3(n, draws, plat);
    case Dct4Kind => mask := FreshDct4(n, draws, plat);
  }
}
