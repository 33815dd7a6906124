/** Four-bit directional hints: quantisation, nibble packing and the packed dot product. */
module Hints {
  import opened Sums
  import opened LinAlg

  const Q_LEVELS: nat := 15

  /** The least positive normal 32-bit float, `2^-126`. */
  const MIN_POSITIVE: real := 1.0 / 85070591730234615865843651857942052864.0

  function Magnitude(x: real): (y: real)
    ensures y >= 0.0 && (y == x || y == -x)
  {
    if x < 0.0 then -x else x
  }

  /** Into `[-1, 1]`, then to the nearest of sixteen levels, halves rounded up. */
  function QuantiseNibble(x: real): (q: nat)
    ensures q <= Q_LEVELS
  {
    var clamped := if x < -1.0 then -1.0 else if x > 1.0 then 1.0 else x;
    var mapped := (clamped + 1.0) / 2.0 * (Q_LEVELS as real);
    (mapped + 0.5).Floor
  }

  function DequantiseNibble(q: nat): real {
    (q as real) / (Q_LEVELS as real) * 2.0 - 1.0
  }

  lemma {:induction false} QuantisationError(x: real)
    requires -1.0 <= x <= 1.0
    ensures Magnitude(DequantiseNibble(QuantiseNibble(x)) - x) <= 1.0 / 15.0
  {
  }

  /** The nearest of sixteen levels for what lies in `[-1, 1]`, a half upwards; the end levels for the rest. */
  lemma {:induction false} NearestLevel(x: real)
    ensures x <= -1.0 ==> QuantiseNibble(x) == 0
    ensures x >= 1.0 ==> QuantiseNibble(x) == 15
    ensures -1.0 <= x <= 1.0 ==> 7.5 * (x + 1.0) - 0.5 < QuantiseNibble(x) as real <= 7.5 * (x + 1.0) + 0.5
  {
  }

  /** The levels run from -1 to 1 in steps of `2/15`. */
  lemma {:induction false} LevelsEven(q: nat)
    ensures DequantiseNibble(0) == -1.0 && DequantiseNibble(15) == 1.0
    ensures DequantiseNibble(q + 1) - DequantiseNibble(q) == 2.0 / 15.0
  {
  }

  /** The floor under a scale is the least positive normal 32-bit float. */
  lemma {:induction false} FloorIsNormal(v: seq<real>, scale: real)
    requires IsScale(scale, v)
    ensures scale > 1.1754943e-38
    ensures (forall i :: 0 <= i < |v| ==> Magnitude(v[i]) < 1.1754943e-38) ==> scale < 1.1754944e-38
  {
  }

  /** The largest component in magnitude, and never less than `MIN_POSITIVE`. */
  ghost predicate IsScale(scale: real, v: seq<real>) {
    && scale >= MIN_POSITIVE
    && (forall i :: 0 <= i < |v| ==> Magnitude(v[i]) <= scale)
    && (scale == MIN_POSITIVE || exists i :: 0 <= i < |v| && Magnitude(v[i]) == scale)
  }

  method ScaleOf(v: seq<real>) returns (scale: real)
    ensures IsScale(scale, v)
  {
    scale := 0.0;
    for i := 0 to |v|
      invariant scale >= 0.0 && forall j :: 0 <= j < i ==> Magnitude(v[j]) <= scale
      invariant scale == 0.0 || exists j :: 0 <= j < i && Magnitude(v[j]) == scale
    {
      if Magnitude(v[i]) > scale {
        scale := Magnitude(v[i]);
      }
    }
    if scale < MIN_POSITIVE {
      scale := MIN_POSITIVE;
    }
  }

  /** Even positions sit in the low half of a byte, odd ones in the high half. */
  function Nibble(packed: seq<nat>, i: nat): nat
    requires i / 2 < |packed|
  {
    if i % 2 == 0 then packed[i / 2] % 16 else packed[i / 2] / 16
  }

  /** `v[i] / scale`; the scale is positive. */
  function Normed(v: seq<real>, scale: real, i: int): real {
    if scale == 0.0 then 0.0 else Entry(v, i) / scale
  }

  ghost predicate Packs(packed: seq<nat>, v: seq<real>, scale: real) {
    && |packed| == (|v| + 1) / 2
    && (forall b :: 0 <= b < |packed| ==> packed[b] < 256)
    && forall i: nat {:trigger Nibble(packed, i)} | i < |v| :: Nibble(packed, i) == QuantiseNibble(Normed(v, scale, i))
  }

  /** The first `i` codes written; the rest of the buffer still zero. */
  ghost predicate Packing(out: seq<nat>, v: seq<real>, scale: real, i: nat) {
    && |out| == (|v| + 1) / 2 && i <= |v|
    && (forall b :: 0 <= b < |out| ==> out[b] < 256)
    && (forall b :: (i + 1) / 2 <= b < |out| ==> out[b] == 0)
    && (i % 2 == 1 ==> out[i / 2] < 16)
    && forall j: nat {:trigger Nibble(out, j)} | j < i :: Nibble(out, j) == QuantiseNibble(Normed(v, scale, j))
  }

  lemma {:induction false} PackEven(out: seq<nat>, v: seq<real>, scale: real, i: nat, q: nat)
    requires Packing(out, v, scale, i) && i < |v| && i % 2 == 0 && q == QuantiseNibble(Normed(v, scale, i))
    ensures out[i / 2] == 0 && Packing(out[i / 2 := q], v, scale, i + 1)
  {
    hide QuantiseNibble, Normed;
    var now := out[i / 2 := q];
    assert q < 16;
    forall j: nat | j < i
      ensures Nibble(now, j) == Nibble(out, j)
    {
      assert j / 2 != i / 2;
    }
  }

  lemma {:induction false} PackOdd(out: seq<nat>, v: seq<real>, scale: real, i: nat, q: nat)
    requires Packing(out, v, scale, i) && i < |v| && i % 2 == 1 && q == QuantiseNibble(Normed(v, scale, i))
    ensures out[i / 2] < 16 && Packing(out[i / 2 := out[i / 2] + 16 * q], v, scale, i + 1)
  {
    hide QuantiseNibble, Normed;
    var low := out[i / 2];
    var now := out[i / 2 := low + 16 * q];
    assert q < 16 && (low + 16 * q) % 16 == low && (low + 16 * q) / 16 == q;
    forall j: nat | j < i
      ensures Nibble(now, j) == Nibble(out, j)
    {
      if j / 2 == i / 2 {
        assert j % 2 == 0;
      }
    }
  }

  /** The codes of the scaled vector, two to a byte; each half is written once, over zero. */
  method PackDirection(v: seq<real>) returns (packed: seq<nat>, ghost scale: real)
    ensures |packed| == (|v| + 1) / 2 && forall b :: 0 <= b < |packed| ==> packed[b] < 256
    ensures IsScale(scale, v) && Packs(packed, v, scale)
    ensures forall b {:trigger packed[b]} | 0 <= b < |packed| ::
              packed[b] == QuantiseNibble(Normed(v, scale, 2 * b))
                           + if 2 * b + 1 < |v| then 16 * QuantiseNibble(Normed(v, scale, 2 * b + 1)) else 0
  {
    var s := ScaleOf(v);
    scale := s;
    var out := new nat[(|v| + 1) / 2](i => 0);
    hide QuantiseNibble, Normed, Nibble, IsScale;
    for i := 0 to |v|
      invariant Packing(out[..], v, s, i)
    {
      var q := QuantiseNibble(Normed(v, s, i));
      if i % 2 == 0 {
        PackEven(out[..], v, s, i, q);
        out[i / 2] := out[i / 2] + q;
      } else {
        PackOdd(out[..], v, s, i, q);
        out[i / 2] := out[i / 2] + 16 * q;
      }
    }
    packed := out[..];
    BytesHold(packed, v, s);
  }

  /** The first code of a byte in its low half, the second in its high half. */
  lemma {:induction false} BytesHold(packed: seq<nat>, v: seq<real>, scale: real)
    requires Packing(packed, v, scale, |v|)
    ensures forall b {:trigger packed[b]} | 0 <= b < |packed| ::
              packed[b] == QuantiseNibble(Normed(v, scale, 2 * b))
                           + if 2 * b + 1 < |v| then 16 * QuantiseNibble(Normed(v, scale, 2 * b + 1)) else 0
  {
    forall b | 0 <= b < |packed|
      ensures packed[b] == QuantiseNibble(Normed(v, scale, 2 * b))
                           + if 2 * b + 1 < |v| then 16 * QuantiseNibble(Normed(v, scale, 2 * b + 1)) else 0
    {
      hide QuantiseNibble, Normed;
      assert Nibble(packed, 2 * b) == QuantiseNibble(Normed(v, scale, 2 * b)) && 2 * b / 2 == b && 2 * b % 2 == 0;
      if 2 * b + 1 < |v| {
        assert Nibble(packed, 2 * b + 1) == QuantiseNibble(Normed(v, scale, 2 * b + 1));
        assert (2 * b + 1) / 2 == b && (2 * b + 1) % 2 == 1;
      } else {
        assert |v| / 2 == b && |v| % 2 == 1;
      }
    }
  }

  // ─── the score ───

  function ScoreTerm(packed: seq<nat>, q: seq<real>): int -> real {
    (i: int) => if 0 <= i && i / 2 < |packed| then DequantiseNibble(Nibble(packed, i)) * Entry(q, i) else 0.0
  }

  function Score(packed: seq<nat>, q: seq<real>): real {
    Sum(|q|, ScoreTerm(packed, q))
  }

  method ScorePacked(packed: seq<nat>, q: seq<real>) returns (acc: real)
    requires (|q| + 1) / 2 <= |packed|
    ensures acc == Score(packed, q)
  {
    acc := 0.0;
    hide DequantiseNibble;
    for i := 0 to |q|
      invariant acc == Sum(i, ScoreTerm(packed, q))
    {
      var nibble := if i % 2 == 0 then packed[i / 2] % 16 else packed[i / 2] / 16;
      acc := acc + DequantiseNibble(nibble) * q[i];
    }
  }

  function ExactTerm(v: seq<real>, scale: real, q: seq<real>): int -> real {
    i => Normed(v, scale, i) * Entry(q, i)
  }

  /** `q · v / scale` */
  function Exact(v: seq<real>, scale: real, q: seq<real>): real {
    Sum(|q|, ExactTerm(v, scale, q))
  }

  function SizeTerm(q: seq<real>): int -> real {
    i => Magnitude(Entry(q, i))
  }

  /** `‖q‖₁` */
  function OneNorm(q: seq<real>): real {
    Sum(|q|, SizeTerm(q))
  }

  lemma {:induction false} NormedInRange(v: seq<real>, scale: real, i: nat)
    requires IsScale(scale, v) && i < |v|
    ensures -1.0 <= Normed(v, scale, i) <= 1.0
  {
    var x := v[i];
    assert Magnitude(x) <= scale && scale > 0.0;
    Ratio(x, scale);
  }

  lemma {:induction false} Ratio(x: real, scale: real)
    requires scale > 0.0 && -scale <= x <= scale
    ensures -1.0 <= x / scale <= 1.0
  {
    var y := x / scale;
    assert y * scale == x;
  }

  lemma {:induction false} TermError(a: real, b: real, x: real)
    requires Magnitude(a - b) <= 1.0 / 15.0
    ensures Magnitude(a * x - b * x) <= Magnitude(x) / 15.0
  {
    assert a * x - b * x == (a - b) * x;
    Shrink(a - b, x);
  }

  lemma {:induction false} Shrink(c: real, x: real)
    requires Magnitude(c) <= 1.0 / 15.0
    ensures Magnitude(c * x) <= Magnitude(x) / 15.0
  {
    var m, y := Magnitude(c), Magnitude(x);
    assert c * x == m * y || c * x == -(m * y);
    assert m * y <= (1.0 / 15.0) * y;
    assert m * y >= 0.0;
  }

  lemma {:induction false} ErrorSum(n: nat, f: int -> real, g: int -> real, h: int -> real)
    requires forall i {:trigger f(i)} | 0 <= i < n :: Magnitude(f(i) - g(i)) <= h(i) / 15.0
    ensures Magnitude(Sum(n, f) - Sum(n, g)) <= Sum(n, h) / 15.0
  {
    if n > 0 {
      ErrorSum(n - 1, f, g, h);
    }
  }

  lemma {:induction false} ScoreIs(packed: seq<nat>, v: seq<real>, scale: real, q: seq<real>)
    ensures Score(packed, q) == Sum(|q|, ScoreTerm(packed, q))
    ensures Exact(v, scale, q) == Sum(|q|, ExactTerm(v, scale, q))
    ensures OneNorm(q) == Sum(|q|, SizeTerm(q))
  {
  }

  lemma {:induction false} TermsAre(packed: seq<nat>, v: seq<real>, scale: real, q: seq<real>, i: nat)
    requires i < |q| && i / 2 < |packed|
    ensures ScoreTerm(packed, q)(i) == DequantiseNibble(Nibble(packed, i)) * q[i]
    ensures ExactTerm(v, scale, q)(i) == Normed(v, scale, i) * q[i]
    ensures SizeTerm(q)(i) == Magnitude(q[i])
  {
    hide DequantiseNibble, Nibble, Normed, Magnitude;
  }

  lemma {:induction false} CodeError(packed: seq<nat>, v: seq<real>, scale: real, i: nat)
    requires IsScale(scale, v) && Packs(packed, v, scale) && i < |v|
    ensures i / 2 < |packed|
    ensures Magnitude(DequantiseNibble(Nibble(packed, i)) - Normed(v, scale, i)) <= 1.0 / 15.0
  {
    NormedInRange(v, scale, i);
    assert Nibble(packed, i) == QuantiseNibble(Normed(v, scale, i));
    hide *;
    QuantisationError(Normed(v, scale, i));
  }

  lemma {:induction false} OneError(packed: seq<nat>, v: seq<real>, scale: real, q: seq<real>, i: nat)
    requires IsScale(scale, v) && Packs(packed, v, scale) && |q| == |v| && i < |q|
    ensures Magnitude(ScoreTerm(packed, q)(i) - ExactTerm(v, scale, q)(i)) <= SizeTerm(q)(i) / 15.0
  {
    hide *;
    CodeError(packed, v, scale, i);
    TermsAre(packed, v, scale, q, i);
    TermError(DequantiseNibble(Nibble(packed, i)), Normed(v, scale, i), q[i]);
  }

  /** The packed score is within `‖q‖₁ / 15` of the exact one, for every direction and query. */
  lemma {:induction false} ScoreError(packed: seq<nat>, v: seq<real>, scale: real, q: seq<real>)
    requires IsScale(scale, v) && Packs(packed, v, scale) && |q| == |v|
    ensures Magnitude(Score(packed, q) - Exact(v, scale, q)) <= OneNorm(q) / 15.0
  {
    hide *;
    forall i | 0 <= i < |q|
      ensures Magnitude(ScoreTerm(packed, q)(i) - ExactTerm(v, scale, q)(i)) <= SizeTerm(q)(i) / 15.0
    {
      OneError(packed, v, scale, q, i);
    }
    ScoreIs(packed, v, scale, q);
    ErrorSum(|q|, ScoreTerm(packed, q), ExactTerm(v, scale, q), SizeTerm(q));
  }

  /** Two hints whose exact scores differ by more than `2·‖q‖₁ / 15` are ranked correctly. */
  lemma {:induction false} RankKept(p1: seq<nat>, v1: seq<real>, s1: real, p2: seq<nat>, v2: seq<real>, s2: real,
                                    q: seq<real>)
    requires IsScale(s1, v1) && Packs(p1, v1, s1) && |q| == |v1|
    requires IsScale(s2, v2) && Packs(p2, v2, s2) && |q| == |v2|
    requires Exact(v1, s1, q) - Exact(v2, s2, q) > 2.0 * OneNorm(q) / 15.0
    ensures Score(p1, q) > Score(p2, q)
  {
    ScoreError(p1, v1, s1, q);
    ScoreError(p2, v2, s2, q);
    hide Score, Exact, OneNorm;
  }

  /** The bound is met exactly: a zero component comes back as `1/15`. */
  lemma {:induction false} ZeroComponent()
    ensures DequantiseNibble(QuantiseNibble(0.0)) == 1.0 / 15.0
  {
  }
}
