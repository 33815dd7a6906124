/** Outsourcing `Q·Kᵀ` with both operands hidden: additive masks, scaled fillers and
    random row and column orders; the product is recovered from four partitions. */
module OutAttnMult {
  import opened Sums
  import opened LinAlg
  import opened Permutations
  import opened Integrity

  /** The random values of one head. */
  datatype Secrets = Secrets(rq: Mat, rkt: Mat, a: real, b: real, rows: seq<nat>, cols: seq<nat>)

  ghost predicate ValidSecrets(s: Secrets, n: nat, d: nat) {
    && IsMat(s.rq, n, d) && IsMat(s.rkt, d, n)
    && s.a != 0.0 && s.b != 0.0
    && IsPerm(s.rows, 2 * n) && IsPerm(s.cols, 2 * n)
  }

  /** A scalar bounded away from zero, with a random sign. */
  function SampleScalar(u: real, word: nat): (x: real)
    requires 0.5 <= u < 1.5
    ensures 0.5 <= Abs(x) < 1.5 && (x > 0.0 <==> word % 2 == 0)
  {
    if word % 2 == 0 then u else -u
  }

  /** `[Q + R ; a·R]`, entry by entry. */
  function QEntry(q: Mat, r: Mat, a: real, n: nat, i: int, j: int): real {
    if i < n then At(q, i, j) + At(r, i, j) else At(r, i - n, j) * a
  }

  function StackedQ(q: Mat, r: Mat, a: real, n: nat, d: nat): (m: Mat)
    ensures IsMat(m, 2 * n, d)
    ensures forall i, j :: 0 <= i < 2 * n && 0 <= j < d ==> At(m, i, j) == QEntry(q, r, a, n, i, j)
  {
    Build(2 * n, d, (i, j) => QEntry(q, r, a, n, i, j))
  }

  /** `[Kᵀ + R , b·R]` */
  function KEntry(kt: Mat, r: Mat, b: real, n: nat, i: int, j: int): real {
    if j < n then At(kt, i, j) + At(r, i, j) else At(r, i, j - n) * b
  }

  function StackedKt(kt: Mat, r: Mat, b: real, n: nat, d: nat): (m: Mat)
    ensures IsMat(m, d, 2 * n)
    ensures forall i, j :: 0 <= i < d && 0 <= j < 2 * n ==> At(m, i, j) == KEntry(kt, r, b, n, i, j)
  {
    Build(d, 2 * n, (i, j) => KEntry(kt, r, b, n, i, j))
  }

  /** Column `j` of the result is column `perm[j]`. */
  function ColumnsPermuted(m: Mat, perm: seq<nat>, d: nat): (r: Mat)
    ensures IsMat(r, d, |perm|)
    ensures forall i, j :: 0 <= i < d && 0 <= j < |perm| ==> At(r, i, j) == At(m, i, perm[j])
  {
    Build(d, |perm|, (i, j) => if 0 <= j < |perm| then At(m, i, perm[j]) else 0.0)
  }

  method PermuteCols(m: Mat, perm: seq<nat>, d: nat) returns (out: Mat)
    ensures out == ColumnsPermuted(m, perm, d)
  {
    var cells := new real[d, |perm|]((i, j) => 0.0);
    for j := 0 to |perm|
      invariant forall i, c {:trigger cells[i, c]} | 0 <= i < d && 0 <= c < j :: cells[i, c] == At(m, i, perm[c])
    {
      for i := 0 to d
        invariant forall r, c {:trigger cells[r, c]} | 0 <= r < d && 0 <= c < j :: cells[r, c] == At(m, r, perm[c])
        invariant forall r {:trigger cells[r, j]} | 0 <= r < i :: cells[r, j] == At(m, r, perm[j])
      {
        cells[i, j] := At(m, i, perm[j]);
      }
    }
    out := MatOf(cells);
    MatExt(out, ColumnsPermuted(m, perm, d), d, |perm|);
  }

  /** Position of every index in a permutation. */
  method InversePermutation(perm: seq<nat>) returns (inv: array<nat>)
    requires IsPerm(perm, |perm|)
    ensures fresh(inv) && inv.Length == |perm|
    ensures forall k {:trigger perm[k]} | 0 <= k < |perm| :: inv[perm[k]] == k
    ensures forall r {:trigger inv[r]} | 0 <= r < |perm| :: inv[r] < |perm| && perm[inv[r]] == r
  {
    inv := new nat[|perm|](i => 0);
    for i := 0 to |perm|
      invariant forall k {:trigger perm[k]} | 0 <= k < i :: inv[perm[k]] == k
    {
      inv[perm[i]] := i;
    }
    forall r | 0 <= r < |perm|
      ensures inv[r] < |perm| && perm[inv[r]] == r
    {
      var k := PermOnto(perm, |perm|, r);
    }
  }

  /** Puts row `i`, column `j` back to row `rows[i]`, column `cols[j]`. */
  method InversePermute(m: Mat, rows: seq<nat>, cols: seq<nat>) returns (out: Mat)
    requires IsPerm(rows, |rows|) && IsPerm(cols, |cols|)
    ensures IsMat(out, |rows|, |cols|)
    ensures forall i, j {:trigger At(m, i, j)} | 0 <= i < |rows| && 0 <= j < |cols| ::
              At(out, rows[i], cols[j]) == At(m, i, j)
  {
    var invRows := InversePermutation(rows);
    var invCols := InversePermutation(cols);
    var ir, ic := invRows[..], invCols[..];
    out := Build(|rows|, |cols|, (i, j) => if 0 <= i < |ir| && 0 <= j < |ic| then At(m, ir[i], ic[j]) else 0.0);
    forall i, j | 0 <= i < |rows| && 0 <= j < |cols|
      ensures At(out, rows[i], cols[j]) == At(m, i, j)
    {
      assert ir[rows[i]] == i && ic[cols[j]] == j;
    }
  }

  // ─── the algebra of the four partitions ───

  lemma {:induction false} DotSumLeft(x: Mat, y: Mat, z: Mat, k: Mat, d: nat, i: int, ix: int, iy: int, j: int)
    requires forall t {:trigger At(z, i, t)} | 0 <= t < d :: At(z, i, t) == At(x, ix, t) + At(y, iy, t)
    ensures Dot(z, k, d, i, j) == Dot(x, k, d, ix, j) + Dot(y, k, d, iy, j)
  {
    SumAdd(d, Term(x, k, ix, j), Term(y, k, iy, j), Term(z, k, i, j));
  }

  lemma {:induction false} DotSumRight(q: Mat, x: Mat, y: Mat, z: Mat, d: nat, i: int, j: int, jx: int, jy: int)
    requires forall t {:trigger At(z, t, j)} | 0 <= t < d :: At(z, t, j) == At(x, t, jx) + At(y, t, jy)
    ensures Dot(q, z, d, i, j) == Dot(q, x, d, i, jx) + Dot(q, y, d, i, jy)
  {
    SumAdd(d, Term(q, x, i, jx), Term(q, y, i, jy), Term(q, z, i, j));
  }

  lemma {:induction false} DotTimesLeft(x: Mat, z: Mat, k: Mat, d: nat, a: real, i: int, ix: int, j: int)
    requires forall t {:trigger At(z, i, t)} | 0 <= t < d :: At(z, i, t) == At(x, ix, t) * a
    ensures Dot(z, k, d, i, j) == a * Dot(x, k, d, ix, j)
  {
    forall t | 0 <= t < d
      ensures Term(z, k, i, j)(t) == a * Term(x, k, ix, j)(t)
    {
      TimesAssoc(a, At(x, ix, t), At(k, t, j));
    }
    SumScale(d, a, Term(x, k, ix, j), Term(z, k, i, j));
  }

  lemma {:induction false} DotTimesRight(q: Mat, x: Mat, z: Mat, d: nat, b: real, i: int, j: int, jx: int)
    requires forall t {:trigger At(z, t, j)} | 0 <= t < d :: At(z, t, j) == At(x, t, jx) * b
    ensures Dot(q, z, d, i, j) == b * Dot(q, x, d, i, jx)
  {
    forall t | 0 <= t < d
      ensures Term(q, z, i, j)(t) == b * Term(q, x, i, jx)(t)
    {
      TimesSwap(At(q, i, t), b, At(x, t, jx));
    }
    SumScale(d, b, Term(q, x, i, jx), Term(q, z, i, j));
  }

  /** `T₁ − T₂/b − T₃/a + T₄/(a·b)` */
  function Recombined(t1: real, t2: real, t3: real, t4: real, a: real, b: real): real
    requires a != 0.0 && b != 0.0
  {
    NonzeroProduct(a, b);
    t1 - t2 / b - t3 / a + t4 / (a * b)
  }

  lemma {:induction false} NonzeroProduct(a: real, b: real)
    requires a != 0.0 && b != 0.0
    ensures a * b != 0.0
  {
  }

  lemma {:induction false} Quotients(x: real, c: real)
    requires c != 0.0
    ensures (c * x) / c == x
  {
  }

  lemma {:induction false} Partitions(t1: real, t2: real, t3: real, t4: real, w: real, x: real, y: real, z: real,
                                      a: real, b: real)
    requires a != 0.0 && b != 0.0
    requires t1 == w + x + y + z && t2 == b * (x + z) && t3 == a * (y + z) && t4 == a * (b * z)
    ensures Recombined(t1, t2, t3, t4, a, b) == w
  {
    NonzeroProduct(a, b);
    Quotients(x + z, b);
    Quotients(y + z, a);
    assert a * (b * z) == (a * b) * z;
    Quotients(z, a * b);
  }

  /** Entry `(i, j)` of the product from the four partitions of the stacked one. */
  function RecoverEntry(p: Mat, a: real, b: real, n: nat, i: int, j: int): real
    requires a != 0.0 && b != 0.0
  {
    Recombined(At(p, i, j), At(p, i, n + j), At(p, n + i, j), At(p, n + i, n + j), a, b)
  }

  lemma {:induction false} FirstPartition(q: Mat, kt: Mat, rq: Mat, rkt: Mat, sq: Mat, sk: Mat, d: nat, i: int, j: int)
    requires forall t {:trigger At(sq, i, t)} | 0 <= t < d :: At(sq, i, t) == At(q, i, t) + At(rq, i, t)
    requires forall t {:trigger At(sk, t, j)} | 0 <= t < d :: At(sk, t, j) == At(kt, t, j) + At(rkt, t, j)
    ensures Dot(sq, sk, d, i, j) == Dot(q, kt, d, i, j) + Dot(q, rkt, d, i, j) + Dot(rq, kt, d, i, j)
            + Dot(rq, rkt, d, i, j)
  {
    DotSumLeft(q, rq, sq, sk, d, i, i, i, j);
    DotSumRight(q, kt, rkt, sk, d, i, j, j, j);
    DotSumRight(rq, kt, rkt, sk, d, i, j, j, j);
  }

  lemma {:induction false} SecondPartition(q: Mat, rq: Mat, rkt: Mat, sq: Mat, sk: Mat, d: nat, b: real, i: int, j: int,
                                           col: int)
    requires forall t {:trigger At(sq, i, t)} | 0 <= t < d :: At(sq, i, t) == At(q, i, t) + At(rq, i, t)
    requires forall t {:trigger At(sk, t, col)} | 0 <= t < d :: At(sk, t, col) == At(rkt, t, j) * b
    ensures Dot(sq, sk, d, i, col) == b * (Dot(q, rkt, d, i, j) + Dot(rq, rkt, d, i, j))
  {
    DotTimesRight(sq, rkt, sk, d, b, i, col, j);
    DotSumLeft(q, rq, sq, rkt, d, i, i, i, j);
  }

  lemma {:induction false} ThirdPartition(kt: Mat, rq: Mat, rkt: Mat, sq: Mat, sk: Mat, d: nat, a: real, i: int,
                                          row: int, j: int)
    requires forall t {:trigger At(sq, row, t)} | 0 <= t < d :: At(sq, row, t) == At(rq, i, t) * a
    requires forall t {:trigger At(sk, t, j)} | 0 <= t < d :: At(sk, t, j) == At(kt, t, j) + At(rkt, t, j)
    ensures Dot(sq, sk, d, row, j) == a * (Dot(rq, kt, d, i, j) + Dot(rq, rkt, d, i, j))
  {
    DotTimesLeft(rq, sq, sk, d, a, row, i, j);
    DotSumRight(rq, kt, rkt, sk, d, i, j, j, j);
  }

  lemma {:induction false} FourthPartition(rq: Mat, rkt: Mat, sq: Mat, sk: Mat, d: nat, a: real, b: real, i: int,
                                           row: int, j: int, col: int)
    requires forall t {:trigger At(sq, row, t)} | 0 <= t < d :: At(sq, row, t) == At(rq, i, t) * a
    requires forall t {:trigger At(sk, t, col)} | 0 <= t < d :: At(sk, t, col) == At(rkt, t, j) * b
    ensures Dot(sq, sk, d, row, col) == a * (b * Dot(rq, rkt, d, i, j))
  {
    DotTimesLeft(rq, sq, sk, d, a, row, i, col);
    DotTimesRight(rq, rkt, sk, d, b, i, col, j);
  }

  /** The four-partition identity at one entry, for all masks and non-zero scalars. */
  lemma {:induction false} EntryRecovered(q: Mat, kt: Mat, s: Secrets, n: nat, d: nat, i: nat, j: nat)
    requires s.a != 0.0 && s.b != 0.0 && i < n && j < n
    ensures RecoverEntry(Mul(StackedQ(q, s.rq, s.a, n, d), StackedKt(kt, s.rkt, s.b, n, d), d, 2 * n), s.a, s.b, n, i,
                         j)
         == Dot(q, kt, d, i, j)
  {
    var sq, sk := StackedQ(q, s.rq, s.a, n, d), StackedKt(kt, s.rkt, s.b, n, d);
    hide Dot, Recombined;
    FirstPartition(q, kt, s.rq, s.rkt, sq, sk, d, i, j);
    SecondPartition(q, s.rq, s.rkt, sq, sk, d, s.b, i, j, n + j);
    ThirdPartition(kt, s.rq, s.rkt, sq, sk, d, s.a, i, n + i, j);
    FourthPartition(s.rq, s.rkt, sq, sk, d, s.a, s.b, i, n + i, j, n + j);
    var w, x, y, z := Dot(q, kt, d, i, j), Dot(q, s.rkt, d, i, j), Dot(s.rq, kt, d, i, j), Dot(s.rq, s.rkt, d, i, j);
    Partitions(Dot(sq, sk, d, i, j), Dot(sq, sk, d, i, n + j), Dot(sq, sk, d, n + i, j), Dot(sq, sk, d, n + i, n + j),
               w, x, y, z, s.a, s.b);
    var p := Mul(sq, sk, d, 2 * n);
    assert At(p, i, j) == Dot(sq, sk, d, i, j) && At(p, i, n + j) == Dot(sq, sk, d, i, n + j);
    assert At(p, n + i, j) == Dot(sq, sk, d, n + i, j) && At(p, n + i, n + j) == Dot(sq, sk, d, n + i, n + j);
  }

  // ─── the protocol ───

  datatype Qkt = Qkt(product: Mat) | BadShape | Tampered

  /** What leaves the trusted side for one head. */
  ghost predicate Hidden(lhs: Mat, rhs: Mat, q: Mat, kt: Mat, s: Secrets, n: nat, d: nat)
    requires ValidSecrets(s, n, d)
  {
    && lhs == Permuted(StackedQ(q, s.rq, s.a, n, d), s.rows)
    && rhs == ColumnsPermuted(StackedKt(kt, s.rkt, s.b, n, d), s.cols, d)
  }

  method HideOperands(q: Mat, kt: Mat, s: Secrets, n: nat, d: nat) returns (lhs: Mat, rhs: Mat)
    requires ValidSecrets(s, n, d)
    ensures Hidden(lhs, rhs, q, kt, s, n, d)
  {
    hide StackedQ, StackedKt, Permuted, ColumnsPermuted;
    lhs := PermuteRows(StackedQ(q, s.rq, s.a, n, d), s.rows);
    rhs := PermuteCols(StackedKt(kt, s.rkt, s.b, n, d), s.cols, d);
  }

  /** What one entry of a hidden operand is: a data entry plus its mask, or a mask entry times the
      secret scalar, in the secret order. */
  lemma {:induction false} HiddenEntries(lhs: Mat, rhs: Mat, q: Mat, kt: Mat, s: Secrets, n: nat, d: nat, i: nat,
                                         t: nat)
    requires ValidSecrets(s, n, d) && Hidden(lhs, rhs, q, kt, s, n, d) && i < 2 * n && t < d
    ensures s.rows[i] < n ==> At(lhs, i, t) == At(q, s.rows[i], t) + At(s.rq, s.rows[i], t)
    ensures s.rows[i] >= n ==> At(lhs, i, t) == s.a * At(s.rq, s.rows[i] - n, t)
    ensures s.cols[i] < n ==> At(rhs, t, i) == At(kt, t, s.cols[i]) + At(s.rkt, t, s.cols[i])
    ensures s.cols[i] >= n ==> At(rhs, t, i) == s.b * At(s.rkt, t, s.cols[i] - n)
  {
    assert At(lhs, i, t) == At(StackedQ(q, s.rq, s.a, n, d), s.rows[i], t);
  }

  /** Permuting operands permutes the product. */
  lemma {:induction false} HiddenProduct(lhs: Mat, rhs: Mat, q: Mat, kt: Mat, s: Secrets, n: nat, d: nat, i: nat,
                                         j: nat)
    requires ValidSecrets(s, n, d) && Hidden(lhs, rhs, q, kt, s, n, d) && i < 2 * n && j < 2 * n
    ensures At(Mul(lhs, rhs, d, 2 * n), i, j)
         == At(Mul(StackedQ(q, s.rq, s.a, n, d), StackedKt(kt, s.rkt, s.b, n, d), d, 2 * n), s.rows[i], s.cols[j])
  {
    var sq, sk := StackedQ(q, s.rq, s.a, n, d), StackedKt(kt, s.rkt, s.b, n, d);
    hide StackedQ, StackedKt;
    forall t | 0 <= t < d
      ensures Term(lhs, rhs, i, j)(t) == Term(sq, sk, s.rows[i], s.cols[j])(t)
    {
      assert At(lhs, i, t) == At(sq, s.rows[i], t);
      assert At(rhs, t, j) == At(sk, t, s.cols[j]);
    }
    SumCong(d, Term(lhs, rhs, i, j), Term(sq, sk, s.rows[i], s.cols[j]));
  }

  /** `p` is the answer with rows and columns back in order. */
  ghost predicate UnpermutedTo(p: Mat, tilde: Mat, s: Secrets, n: nat)
    requires IsPerm(s.rows, 2 * n) && IsPerm(s.cols, 2 * n)
  {
    && IsMat(p, 2 * n, 2 * n)
    && forall i, j {:trigger At(tilde, i, j)} | 0 <= i < 2 * n && 0 <= j < 2 * n ::
         At(p, s.rows[i], s.cols[j]) == At(tilde, i, j)
  }

  /** Every entry of `out` recombines the four partitions of `p`. */
  ghost predicate Recombines(out: Mat, p: Mat, s: Secrets, n: nat)
    requires s.a != 0.0 && s.b != 0.0
  {
    IsMat(out, n, n) && forall i, j :: 0 <= i < n && 0 <= j < n ==> At(out, i, j) == RecoverEntry(p, s.a, s.b, n, i, j)
  }

  /** `out` is what the trusted side makes of the answer `tilde`. */
  ghost predicate IsRecovery(out: Mat, tilde: Mat, s: Secrets, n: nat, d: nat)
    requires ValidSecrets(s, n, d)
  {
    exists p :: UnpermutedTo(p, tilde, s, n) && Recombines(out, p, s, n)
  }

  /** Undoes the orders and recombines the partitions of the engine's answer. */
  method Recover(tilde: Mat, s: Secrets, n: nat, ghost d: nat) returns (out: Mat, ghost p: Mat)
    requires ValidSecrets(s, n, d)
    ensures UnpermutedTo(p, tilde, s, n) && Recombines(out, p, s, n)
    ensures IsRecovery(out, tilde, s, n, d)
  {
    var permed := InversePermute(tilde, s.rows, s.cols);
    p := permed;
    assert UnpermutedTo(permed, tilde, s, n);
    hide RecoverEntry, UnpermutedTo;
    var a, b := s.a, s.b;
    out := Build(n, n, (i, j) => if a != 0.0 && b != 0.0 then RecoverEntry(permed, a, b, n, i, j) else 0.0);
  }

  /** The unpermuted answer of an honest engine is the stacked product itself. */
  lemma {:induction false} HonestUnpermuted(p: Mat, lhs: Mat, rhs: Mat, q: Mat, kt: Mat, s: Secrets, n: nat, d: nat)
    requires ValidSecrets(s, n, d) && Hidden(lhs, rhs, q, kt, s, n, d)
    requires UnpermutedTo(p, Mul(lhs, rhs, d, 2 * n), s, n)
    ensures p == Mul(StackedQ(q, s.rq, s.a, n, d), StackedKt(kt, s.rkt, s.b, n, d), d, 2 * n)
  {
    var full := Mul(StackedQ(q, s.rq, s.a, n, d), StackedKt(kt, s.rkt, s.b, n, d), d, 2 * n);
    hide StackedQ, StackedKt, Mul, Hidden;
    forall r, c | 0 <= r < 2 * n && 0 <= c < 2 * n
      ensures At(p, r, c) == At(full, r, c)
    {
      var i := PermOnto(s.rows, 2 * n, r);
      var j := PermOnto(s.cols, 2 * n, c);
      HiddenProduct(lhs, rhs, q, kt, s, n, d, i, j);
      assert At(p, s.rows[i], s.cols[j]) == At(Mul(lhs, rhs, d, 2 * n), i, j);
    }
    MatExt(p, full, 2 * n, 2 * n);
  }

  lemma {:induction false} Recovered(out: Mat, p: Mat, lhs: Mat, rhs: Mat, q: Mat, kt: Mat, s: Secrets, n: nat, d: nat)
    requires ValidSecrets(s, n, d) && Hidden(lhs, rhs, q, kt, s, n, d) && |q| == n
    requires UnpermutedTo(p, Mul(lhs, rhs, d, 2 * n), s, n) && Recombines(out, p, s, n)
    ensures out == Mul(q, kt, d, n)
  {
    HonestUnpermuted(p, lhs, rhs, q, kt, s, n, d);
    hide StackedQ, StackedKt, RecoverEntry, Hidden, UnpermutedTo;
    forall i, j | 0 <= i < n && 0 <= j < n
      ensures At(out, i, j) == Dot(q, kt, d, i, j)
    {
      EntryRecovered(q, kt, s, n, d, i, j);
    }
    MatExt(out, Mul(q, kt, d, n), n, n);
  }

  /** What an honest answer is turned into, for every choice of masks, scalars and orders. */
  lemma {:induction false} HonestRecovery(out: Mat, lhs: Mat, rhs: Mat, q: Mat, kt: Mat, s: Secrets, n: nat, d: nat)
    requires ValidSecrets(s, n, d) && Hidden(lhs, rhs, q, kt, s, n, d) && |q| == n
    requires IsRecovery(out, Mul(lhs, rhs, d, 2 * n), s, n, d)
    ensures out == Mul(q, kt, d, n)
  {
    hide Mul, Hidden, UnpermutedTo, Recombines;
    var p :| UnpermutedTo(p, Mul(lhs, rhs, d, 2 * n), s, n) && Recombines(out, p, s, n);
    Recovered(out, p, lhs, rhs, q, kt, s, n, d);
  }

  lemma {:induction false} DivideDifference(x: real, y: real, c: real)
    requires c != 0.0
    ensures (x - y) / c == x / c - y / c
  {
  }

  lemma {:induction false} RecombinedLinear(x1: real, x2: real, x3: real, x4: real, y1: real, y2: real, y3: real,
                                            y4: real, a: real, b: real)
    requires a != 0.0 && b != 0.0
    ensures Recombined(x1 - y1, x2 - y2, x3 - y3, x4 - y4, a, b) == Recombined(x1, x2, x3, x4, a, b) - Recombined(y1,
            y2, y3, y4, a, b)
  {
    NonzeroProduct(a, b);
    DivideDifference(x2, y2, b);
    DivideDifference(x3, y3, a);
    DivideDifference(x4, y4, a * b);
  }

  /** How far an unpermuted answer is from the stacked product. */
  ghost function RecoveryError(p: Mat, q: Mat, kt: Mat, s: Secrets, n: nat, d: nat): Mat {
    Sub(p, Mul(StackedQ(q, s.rq, s.a, n, d), StackedKt(kt, s.rkt, s.b, n, d), d, 2 * n), 2 * n, 2 * n)
  }

  ghost predicate NoError(error: Mat, s: Secrets, n: nat)
    requires s.a != 0.0 && s.b != 0.0
  {
    forall i, j {:trigger RecoverEntry(error, s.a, s.b, n, i, j)} | 0 <= i < n && 0 <= j < n ::
      RecoverEntry(error, s.a, s.b, n, i, j) == 0.0
  }

  /** For any answer at all: the result is right exactly where the answer's error recombines to 0. */
  lemma {:induction false} RecoveryExactIff(out: Mat, p: Mat, q: Mat, kt: Mat, s: Secrets, n: nat, d: nat)
    requires ValidSecrets(s, n, d) && |q| == n && IsMat(p, 2 * n, 2 * n) && Recombines(out, p, s, n)
    ensures out == Mul(q, kt, d, n) <==> NoError(RecoveryError(p, q, kt, s, n, d), s, n)
  {
    var full := Mul(StackedQ(q, s.rq, s.a, n, d), StackedKt(kt, s.rkt, s.b, n, d), d, 2 * n);
    var error := RecoveryError(p, q, kt, s, n, d);
    var qkt := Mul(q, kt, d, n);
    forall i, j | 0 <= i < n && 0 <= j < n
      ensures RecoverEntry(error, s.a, s.b, n, i, j) == At(out, i, j) - At(qkt, i, j)
    {
      EntryRecovered(q, kt, s, n, d, i, j);
      ErrorEntry(p, full, s, n, d, i, j);
    }
    hide Mul, RecoverEntry, Sub, StackedQ, StackedKt;
    if NoError(error, s, n) {
      forall i, j | 0 <= i < n && 0 <= j < n
        ensures At(out, i, j) == At(qkt, i, j)
      {
        assert RecoverEntry(error, s.a, s.b, n, i, j) == 0.0;
      }
      MatExt(out, qkt, n, n);
    }
  }

  lemma {:induction false} ErrorEntry(p: Mat, full: Mat, s: Secrets, n: nat, d: nat, i: nat, j: nat)
    requires s.a != 0.0 && s.b != 0.0 && i < n && j < n
    ensures RecoverEntry(Sub(p, full, 2 * n, 2 * n), s.a, s.b, n, i, j)
         == RecoverEntry(p, s.a, s.b, n, i, j) - RecoverEntry(full, s.a, s.b, n, i, j)
  {
    RecombinedLinear(At(p, i, j), At(p, i, n + j), At(p, n + i, j), At(p, n + i, n + j),
                     At(full, i, j), At(full, i, n + j), At(full, n + i, j), At(full, n + i, n + j), s.a, s.b);
  }

  /** An answer checked on the operands the engine saw; without probes anything goes. */
  method CheckProduct(lhs: Mat, rhs: Mat, n: nat, d: nat, tilde: Mat, probes: seq<seq<int>>) returns (ok: bool)
    requires IsMat(lhs, n, d) && IsMat(rhs, d, n) && IsMat(tilde, n, n)
    requires forall r :: r in probes ==> |r| == n
    ensures ok <==> probes == [] || Accepts(lhs, rhs, tilde, n, d, n, probes)
  {
    if |probes| == 0 {
      return true;
    }
    hide *;
    var verdict, bound := VerifyOffload(lhs, n, d, rhs, d, n, tilde, n, n, probes);
    AcceptsIs(lhs, rhs, tilde, n, d, n, bound, probes);
    return verdict == Accepted;
  }

  /** The engine answers with a square matrix; nothing is assumed of its entries. */
  ghost predicate Answers(engine: (Mat, Mat) -> Mat, n: nat, d: nat) {
    forall x, y {:trigger engine(x, y)} :: IsMat(x, n, d) && IsMat(y, d, n) ==> IsMat(engine(x, y), n, n)
  }

  /** One head, with any engine: it is given the hidden operands only, its answer is checked and
      recombined, and if the answer is the product the result is exactly `Q·Kᵀ`. `Kᵀ` is `(kr, kc)`. */
  method OffloadQkt(engine: (Mat, Mat) -> Mat, q: Mat, n: nat, d: nat, kt: Mat, kr: nat, kc: nat, s: Secrets,
                    probes: seq<seq<int>>)
    returns (res: Qkt, ghost lhs: Mat, ghost rhs: Mat)
    requires IsMat(q, n, d) && IsMat(kt, kr, kc) && ValidSecrets(s, n, d) && Answers(engine, 2 * n, d)
    requires forall r :: r in probes ==> |r| == 2 * n
    ensures res.BadShape? <==> kr != d || kc != n
    ensures !res.BadShape? ==>
              && Hidden(lhs, rhs, q, kt, s, n, d)
              && (res.Tampered? <==> probes != [] && !Accepts(lhs, rhs, engine(lhs, rhs), 2 * n, d, 2 * n, probes))
              && (res.Qkt? ==> IsRecovery(res.product, engine(lhs, rhs), s, n, d))
              && (engine(lhs, rhs) == Mul(lhs, rhs, d, 2 * n) ==> res == Qkt(Mul(q, kt, d, n)))
  {
    lhs, rhs := [], [];
    if kr != d || kc != n {
      return BadShape, lhs, rhs;
    }
    var left, right := HideOperands(q, kt, s, n, d);
    lhs, rhs := left, right;
    HiddenShapes(lhs, rhs, q, kt, s, n, d);
    var tilde := engine(left, right);
    assert IsMat(tilde, 2 * n, 2 * n) && |q| == n;
    HonestProbes(lhs, rhs, 2 * n, d, 2 * n, probes);
    hide *;
    var ok := CheckProduct(left, right, 2 * n, d, tilde, probes);
    if !ok {
      return Tampered, lhs, rhs;
    }
    var out, p := Recover(tilde, s, n, d);
    if tilde == Mul(lhs, rhs, d, 2 * n) {
      HonestRecovery(out, lhs, rhs, q, kt, s, n, d);
    }
    return Qkt(out), lhs, rhs;
  }

  lemma {:induction false} HiddenShapes(lhs: Mat, rhs: Mat, q: Mat, kt: Mat, s: Secrets, n: nat, d: nat)
    requires ValidSecrets(s, n, d) && Hidden(lhs, rhs, q, kt, s, n, d)
    ensures IsMat(lhs, 2 * n, d) && IsMat(rhs, d, 2 * n) && |s.rows| == |s.cols| == 2 * n
    ensures IsPerm(s.rows, 2 * n) && IsPerm(s.cols, 2 * n) && s.a != 0.0 && s.b != 0.0
  {
  }

  // ─── every head of a layer in one dispatch ───

  datatype QktBatch = QktBatch(products: seq<Mat>) | BatchBadShape | BatchTampered

  ghost predicate IsBatch(t: seq<Mat>, r: nat, c: nat) {
    forall h {:trigger t[h]} | 0 <= h < |t| :: IsMat(t[h], r, c)
  }

  ghost predicate AllValid(secrets: seq<Secrets>, n: nat, d: nat) {
    forall h {:trigger secrets[h]} | 0 <= h < |secrets| :: ValidSecrets(secrets[h], n, d)
  }

  ghost predicate AllHidden(lhs: seq<Mat>, rhs: seq<Mat>, q: seq<Mat>, kt: seq<Mat>, secrets: seq<Secrets>, n: nat,
                            d: nat)
    requires |q| == |kt| == |secrets| && AllValid(secrets, n, d)
  {
    && |lhs| == |rhs| <= |q|
    && forall h {:trigger lhs[h]} {:trigger rhs[h]} | 0 <= h < |lhs| ::
         ValidSecrets(secrets[h], n, d) && Hidden(lhs[h], rhs[h], q[h], kt[h], secrets[h], n, d)
  }

  method HideHeads(q: seq<Mat>, kt: seq<Mat>, secrets: seq<Secrets>, n: nat, d: nat)
    returns (lhs: seq<Mat>, rhs: seq<Mat>)
    requires |q| == |kt| == |secrets| && AllValid(secrets, n, d)
    ensures |lhs| == |q| && AllHidden(lhs, rhs, q, kt, secrets, n, d)
  {
    lhs, rhs := [], [];
    hide Hidden, ValidSecrets;
    for h := 0 to |q|
      invariant |lhs| == h && AllHidden(lhs, rhs, q, kt, secrets, n, d)
    {
      assert ValidSecrets(secrets[h], n, d);
      var l, r := HideOperands(q[h], kt[h], secrets[h], n, d);
      lhs, rhs := lhs + [l], rhs + [r];
    }
  }

  /** The engine answers one square matrix per head. */
  ghost predicate AnswersAll(engine: (seq<Mat>, seq<Mat>) -> seq<Mat>, heads: nat, n: nat, d: nat) {
    forall x, y {:trigger engine(x, y)} :: |x| == |y| == heads && IsBatch(x, n, d) && IsBatch(y, d, n)
      ==> |engine(x, y)| == heads && IsBatch(engine(x, y), n, n)
  }

  /** The answer for head `h` passes its probes. */
  ghost predicate HeadAccepted(lhs: seq<Mat>, rhs: seq<Mat>, tilde: seq<Mat>, n: nat, d: nat,
                               probes: seq<seq<seq<int>>>, h: int) {
    0 <= h < |lhs| && |lhs| == |rhs| == |tilde| == |probes|
    && (probes[h] == [] || Accepts(lhs[h], rhs[h], tilde[h], n, d, n, probes[h]))
  }

  ghost predicate AllAccepted(lhs: seq<Mat>, rhs: seq<Mat>, tilde: seq<Mat>, n: nat, d: nat,
                              probes: seq<seq<seq<int>>>) {
    forall h :: 0 <= h < |lhs| ==> HeadAccepted(lhs, rhs, tilde, n, d, probes, h)
  }

  lemma {:induction false} SomeRefused(lhs: seq<Mat>, rhs: seq<Mat>, tilde: seq<Mat>, n: nat, d: nat,
                                       probes: seq<seq<seq<int>>>)
    requires |lhs| == |rhs| == |tilde| == |probes|
    ensures !AllAccepted(lhs, rhs, tilde, n, d, probes)
       <==> exists h {:trigger probes[h]} :: 0 <= h < |lhs| && probes[h] != []
              && !Accepts(lhs[h], rhs[h], tilde[h], n, d, n, probes[h])
  {
    hide Accepts;
    forall h | 0 <= h < |lhs| && probes[h] != [] && !Accepts(lhs[h], rhs[h], tilde[h], n, d, n, probes[h])
      ensures !HeadAccepted(lhs, rhs, tilde, n, d, probes, h)
    {
    }
  }

  lemma {:induction false} HiddenBatch(lhs: seq<Mat>, rhs: seq<Mat>, q: seq<Mat>, kt: seq<Mat>, secrets: seq<Secrets>,
                                       n: nat, d: nat)
    requires |q| == |kt| == |secrets| && AllValid(secrets, n, d) && AllHidden(lhs, rhs, q, kt, secrets, n, d)
    ensures IsBatch(lhs, 2 * n, d) && IsBatch(rhs, d, 2 * n)
  {
    hide Hidden, ValidSecrets, IsMat;
    forall h | 0 <= h < |lhs|
      ensures IsMat(lhs[h], 2 * n, d) && IsMat(rhs[h], d, 2 * n)
    {
      HiddenShapes(lhs[h], rhs[h], q[h], kt[h], secrets[h], n, d);
    }
  }

  /** Head after head, up to the first answer that fails its probes. */
  method CheckHeads(lhs: seq<Mat>, rhs: seq<Mat>, tilde: seq<Mat>, n: nat, d: nat, probes: seq<seq<seq<int>>>)
    returns (ok: bool)
    requires |lhs| == |rhs| == |tilde| == |probes|
    requires IsBatch(lhs, n, d) && IsBatch(rhs, d, n) && IsBatch(tilde, n, n)
    requires forall h, r :: 0 <= h < |probes| && r in probes[h] ==> |r| == n
    ensures ok <==> AllAccepted(lhs, rhs, tilde, n, d, probes)
  {
    hide Accepts, IsMat;
    for h := 0 to |lhs|
      invariant forall g :: 0 <= g < h ==> HeadAccepted(lhs, rhs, tilde, n, d, probes, g)
    {
      assert lhs[h] == lhs[h] && rhs[h] == rhs[h] && tilde[h] == tilde[h];
      ok := CheckProduct(lhs[h], rhs[h], n, d, tilde[h], probes[h]);
      if !ok {
        assert !HeadAccepted(lhs, rhs, tilde, n, d, probes, h);
        return;
      }
    }
    return true;
  }

  /** Every answer unpermuted and recombined under its own secrets. */
  method RecoverHeads(tilde: seq<Mat>, secrets: seq<Secrets>, n: nat, ghost d: nat) returns (products: seq<Mat>)
    requires |tilde| == |secrets| && AllValid(secrets, n, d)
    ensures |products| == |tilde| && AllRecovered(products, tilde, secrets, n, d)
  {
    products := [];
    hide ValidSecrets, IsRecovery;
    for h := 0 to |tilde|
      invariant |products| == h && AllRecovered(products, tilde, secrets, n, d)
    {
      assert ValidSecrets(secrets[h], n, d);
      var out, _ := Recover(tilde[h], secrets[h], n, d);
      products := products + [out];
    }
  }

  ghost predicate AllRecovered(products: seq<Mat>, tilde: seq<Mat>, secrets: seq<Secrets>, n: nat, d: nat)
    requires |tilde| == |secrets| && AllValid(secrets, n, d)
  {
    |products| <= |tilde| && forall h {:trigger products[h]} | 0 <= h < |products| ::
      ValidSecrets(secrets[h], n, d) && IsRecovery(products[h], tilde[h], secrets[h], n, d)
  }

  /** A head answered honestly gets exactly its own `Q·Kᵀ`, as in the one-head form. */
  lemma {:induction false} HeadExact(lhs: seq<Mat>, rhs: seq<Mat>, q: seq<Mat>, kt: seq<Mat>, secrets: seq<Secrets>,
                                     n: nat, d: nat, tilde: seq<Mat>, products: seq<Mat>, h: nat)
    requires |q| == |kt| == |secrets| == |lhs| == |tilde| == |products| && AllValid(secrets, n, d) && IsBatch(q, n, d)
    requires AllHidden(lhs, rhs, q, kt, secrets, n, d) && AllRecovered(products, tilde, secrets, n, d)
    requires h < |q| && tilde[h] == Mul(lhs[h], rhs[h], d, 2 * n)
    ensures products[h] == Mul(q[h], kt[h], d, n)
  {
    hide Hidden, ValidSecrets, Mul, IsRecovery;
    assert ValidSecrets(secrets[h], n, d) && Hidden(lhs[h], rhs[h], q[h], kt[h], secrets[h], n, d);
    assert IsRecovery(products[h], tilde[h], secrets[h], n, d) && IsMat(q[h], n, d);
    HonestRecovery(products[h], lhs[h], rhs[h], q[h], kt[h], secrets[h], n, d);
  }

  /** All heads in one dispatch, with any engine: hidden operands only, one failing head refuses the
      batch, and every head answered honestly gets its own `Q·Kᵀ`. */
  method OffloadQktBatched(engine: (seq<Mat>, seq<Mat>) -> seq<Mat>, q: seq<Mat>, n: nat, d: nat, kt: seq<Mat>, kr: nat,
                           kc: nat, secrets: seq<Secrets>, probes: seq<seq<seq<int>>>)
    returns (res: QktBatch, ghost lhs: seq<Mat>, ghost rhs: seq<Mat>)
    requires IsBatch(q, n, d) && IsBatch(kt, kr, kc) && AnswersAll(engine, |q|, 2 * n, d)
    requires |secrets| == |q| == |probes| && AllValid(secrets, n, d)
    requires forall h, r :: 0 <= h < |probes| && r in probes[h] ==> |r| == 2 * n
    ensures res.BatchBadShape? <==> |kt| != |q| || kr != d || kc != n
    ensures !res.BatchBadShape? ==>
              && |lhs| == |q| && AllHidden(lhs, rhs, q, kt, secrets, n, d) && |engine(lhs, rhs)| == |q|
              && (res.BatchTampered? <==>
                  exists h {:trigger probes[h]} :: 0 <= h < |q| && probes[h] != []
                    && !Accepts(lhs[h], rhs[h], engine(lhs, rhs)[h], 2 * n, d, 2 * n, probes[h]))
              && (res.QktBatch? ==>
                  |res.products| == |q| && AllRecovered(res.products, engine(lhs, rhs), secrets, n, d))
    ensures res.QktBatch? ==> forall h {:trigger res.products[h]} | 0 <= h < |q| ::
              engine(lhs, rhs)[h] == Mul(lhs[h], rhs[h], d, 2 * n) ==> res.products[h] == Mul(q[h], kt[h], d, n)
  {
    lhs, rhs := [], [];
    if |kt| != |q| || kr != d || kc != n {
      return BatchBadShape, lhs, rhs;
    }
    var left, right := HideHeads(q, kt, secrets, n, d);
    lhs, rhs := left, right;
    HiddenBatch(lhs, rhs, q, kt, secrets, n, d);
    assert |left| == |right| == |q|;
    var tilde := engine(left, right);
    assert |tilde| == |q| && IsBatch(tilde, 2 * n, 2 * n);
    hide Hidden, ValidSecrets, Mul, IsRecovery, AllHidden, AllRecovered, AnswersAll, IsBatch, AllAccepted;
    var ok := CheckHeads(left, right, tilde, 2 * n, d, probes);
    SomeRefused(lhs, rhs, tilde, 2 * n, d, probes);
    if !ok {
      return BatchTampered, lhs, rhs;
    }
    var products := RecoverHeads(tilde, secrets, n, d);
    forall h {:trigger products[h]} | 0 <= h < |q| && tilde[h] == Mul(lhs[h], rhs[h], d, 2 * n)
      ensures products[h] == Mul(q[h], kt[h], d, n)
    {
      HeadExact(lhs, rhs, q, kt, secrets, n, d, tilde, products, h);
    }
    return QktBatch(products), lhs, rhs;
  }
}
