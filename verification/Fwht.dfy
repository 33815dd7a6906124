/** The in-place mixed radix-8 / radix-2 Walsh-Hadamard transform over a
    row-major buffer. */
module Fwht {
  import opened Slices
  import opened Blocks
  import opened LinAlg
  import opened Walsh

  ghost predicate IsPowerOfTwo(n: nat) {
    exists m: nat :: n == Pow2(m)
  }

  /** `now` is `was` after butterflies on the first `done` positions of two rows
      that lie `stride` apart: sums in the lower row, differences in the upper. */
  ghost predicate Paired(was: seq<real>, now: seq<real>, base: nat, stride: nat, done: nat) {
    && |now| == |was| && done <= stride && base + stride + done <= |was|
    && (forall p {:trigger now[p]} :: base <= p < base + done ==> now[p] == was[p] + was[p + stride])
    && (forall p {:trigger now[p]} :: base + stride <= p < base + stride + done ==>
          now[p] == was[p - stride] - was[p])
    && (forall p {:trigger now[p]} |
          0 <= p < |was| && !(base <= p < base + done) && !(base + stride <= p < base + stride + done) ::
          now[p] == was[p])
  }

  lemma {:induction false} PairedStart(was: seq<real>, base: nat, stride: nat)
    requires base + stride <= |was|
    ensures Paired(was, was, base, stride, 0)
  {
  }

  lemma {:induction false} PairedOne(was: seq<real>, p: nat, stride: nat)
    requires 0 < stride && p + stride < |was|
    ensures Paired(was, was[p := was[p] + was[p + stride]][p + stride := was[p] - was[p + stride]], p, stride, 1)
  {
  }

  lemma {:induction false} PairedStep(was: seq<real>, mid: seq<real>, now: seq<real>,
                                      base: nat, stride: nat, done: nat, d: nat)
    requires Paired(was, mid, base, stride, done) && Paired(mid, now, base + done, stride, d)
    requires done + d <= stride
    ensures Paired(was, now, base, stride, done + d)
  {
  }

  /** `(r0, r1) ← (r0 + r1, r0 − r1)` for two disjoint rows of width `d`. */
  method ButterflyPair(buf: array<real>, r0: nat, r1: nat, d: nat)
    requires r0 + d <= r1 && r1 + d <= buf.Length
    modifies buf
    ensures Paired(old(buf[..]), buf[..], r0, r1 - r0, d)
  {
    hide Paired;
    ghost var was := buf[..];
    PairedStart(was, r0, r1 - r0);
    for k := 0 to d
      invariant Paired(was, buf[..], r0, r1 - r0, k)
    {
      ghost var mid := buf[..];
      var x := buf[r0 + k];
      var y := buf[r1 + k];
      buf[r0 + k] := x + y;
      buf[r1 + k] := x - y;
      assert buf[..] == mid[r0 + k := x + y][r1 + k := x - y];
      PairedOne(mid, r0 + k, r1 - r0);
      PairedStep(was, mid, buf[..], r0, r1 - r0, k, 1);
    }
  }

  /** One radix-2 chunk of `2·h` rows: `h` butterflies between rows `j` and `j + h`.
      The guard against a short chunk never fires on a full one. */
  method ProcessStageChunk(buf: array<real>, base: nat, len: nat, h: nat, d: nat)
    requires base + len <= buf.Length && len == 2 * Offset(h, d)
    modifies buf
    ensures buf[base..base + len]
         == Combine(old(buf[..])[base..base + Offset(h, d)], old(buf[..])[base + Offset(h, d)..base + len])
    ensures buf[..base] == old(buf[..])[..base] && buf[base + len..] == old(buf[..])[base + len..]
  {
    hide *;
    ghost var stride := Offset(h, d);
    ghost var was := buf[..];
    PairedStart(was, base, stride);
    RowOffset(0, h, d);
    for j := 0 to h
      invariant Paired(was, buf[..], base, stride, Offset(j, d))
    {
      RowOffset(j, h, d);
      var r0 := Offset(j, d);
      var r1 := Offset(j + h, d);
      if r1 + d > len {
        assert false;
        break;
      }
      ghost var mid := buf[..];
      ButterflyPair(buf, base + r0, base + r1, d);
      PairedStep(was, mid, buf[..], base, stride, r0, d);
    }
    PairsCombine(was, buf[..], base, stride);
  }

  lemma {:induction false} PairsCombine(was: seq<real>, now: seq<real>, base: nat, stride: nat)
    requires Paired(was, now, base, stride, stride)
    ensures now[base..base + 2 * stride]
         == Combine(was[base..base + stride], was[base + stride..base + 2 * stride])
    ensures now[..base] == was[..base] && now[base + 2 * stride..] == was[base + 2 * stride..]
  {
    var a, b := was[base..base + stride], was[base + stride..base + 2 * stride];
    forall q | 0 <= q < stride
      ensures now[base + q] == a[q] + b[q]
      ensures now[base + stride + q] == a[q] - b[q]
    {
    }
    forall q | 0 <= q < 2 * stride
      ensures now[base..base + 2 * stride][q] == Combine(a, b)[q]
    {
      if q >= stride {
        assert now[base + stride + (q - stride)] == a[q - stride] - b[q - stride];
      }
    }
  }

  // ─── the fused radix-8 pass ───

  /** The eight entries of one lane: position `q` of eight rows `stride` apart. */
  function Lane(s: seq<real>, q: nat, stride: nat): (r: seq<real>)
    requires q + 7 * stride < |s|
    ensures |r| == 8
  {
    [s[q], s[q + stride], s[q + 2 * stride], s[q + 3 * stride],
     s[q + 4 * stride], s[q + 5 * stride], s[q + 6 * stride], s[q + 7 * stride]]
  }

  /** The fused butterfly: three levels of sums and differences over one lane. */
  function OctLane(x: seq<real>): (y: seq<real>)
    requires |x| == 8
    ensures |y| == 8
  {
    Combine(Combine(Combine([x[0]], [x[1]]), Combine([x[2]], [x[3]])),
            Combine(Combine([x[4]], [x[5]]), Combine([x[6]], [x[7]])))
  }

  /** `now` is `was` with the lanes from `lo` to `hi` transformed, in a group of
      eight rows of length `stride` starting at `base`. */
  ghost predicate Octed(was: seq<real>, now: seq<real>, base: nat, stride: nat, lo: nat, hi: nat) {
    && |now| == |was| && base <= lo <= hi <= base + stride && base + 8 * stride <= |was|
    && (forall q {:trigger Lane(now, q, stride)} | lo <= q < hi ::
          Lane(now, q, stride) == OctLane(Lane(was, q, stride)))
    && (forall q {:trigger Lane(now, q, stride)} | base <= q < lo || hi <= q < base + stride ::
          Lane(now, q, stride) == Lane(was, q, stride))
    && now[..base] == was[..base] && now[base + 8 * stride..] == was[base + 8 * stride..]
  }

  lemma {:induction false} OctedStart(was: seq<real>, base: nat, stride: nat, lo: nat)
    requires base <= lo <= base + stride && base + 8 * stride <= |was|
    ensures Octed(was, was, base, stride, lo, lo)
  {
  }

  lemma {:induction false} OctedStep(was: seq<real>, mid: seq<real>, now: seq<real>,
                                     base: nat, stride: nat, lo: nat, at: nat, hi: nat)
    requires Octed(was, mid, base, stride, lo, at) && Octed(mid, now, base, stride, at, hi)
    ensures Octed(was, now, base, stride, lo, hi)
  {
    hide OctLane, Lane;
    forall q | base <= q < base + stride
      ensures Lane(now, q, stride)
           == if lo <= q < hi then OctLane(Lane(was, q, stride)) else Lane(was, q, stride)
    {
      assert Lane(mid, q, stride) == if lo <= q < at then OctLane(Lane(was, q, stride)) else Lane(was, q, stride);
    }
  }

  lemma {:induction false} LaneApart(was: seq<real>, now: seq<real>, stride: nat, q: nat, r: nat)
    requires |was| == |now| && q + 7 * stride < |was| && r + 7 * stride < |was|
    requires q < r < q + stride || r < q < r + stride
    requires forall p {:trigger now[p]} | 0 <= p < |was| && p != q && p != q + stride && p != q + 2 * stride
               && p != q + 3 * stride && p != q + 4 * stride && p != q + 5 * stride && p != q + 6 * stride
               && p != q + 7 * stride :: now[p] == was[p]
    ensures Lane(now, r, stride) == Lane(was, r, stride)
  {
  }

  /** Eight writes into one lane leave every other lane of the group alone. */
  lemma {:induction false} OctedOne(was: seq<real>, now: seq<real>, base: nat, stride: nat, q: nat)
    requires base <= q < base + stride && base + 8 * stride <= |was| == |now|
    requires Lane(now, q, stride) == OctLane(Lane(was, q, stride))
    requires forall p {:trigger now[p]} | 0 <= p < |was| && p != q && p != q + stride && p != q + 2 * stride
               && p != q + 3 * stride && p != q + 4 * stride && p != q + 5 * stride && p != q + 6 * stride
               && p != q + 7 * stride :: now[p] == was[p]
    ensures Octed(was, now, base, stride, q, q + 1)
  {
    hide OctLane, Lane;
    forall r | base <= r < q || q + 1 <= r < base + stride
      ensures Lane(now, r, stride) == Lane(was, r, stride)
    {
      LaneApart(was, now, stride, q, r);
    }
  }

  lemma {:induction false} OctLaneValues(x: seq<real>, s01: real, d01: real, s23: real, d23: real,
                                         s45: real, d45: real, s67: real, d67: real)
    requires |x| == 8
    requires s01 == x[0] + x[1] && d01 == x[0] - x[1] && s23 == x[2] + x[3] && d23 == x[2] - x[3]
    requires s45 == x[4] + x[5] && d45 == x[4] - x[5] && s67 == x[6] + x[7] && d67 == x[6] - x[7]
    ensures OctLane(x) == [(s01 + s23) + (s45 + s67), (d01 + d23) + (d45 + d67),
                           (s01 - s23) + (s45 - s67), (d01 - d23) + (d45 - d67),
                           (s01 + s23) - (s45 + s67), (d01 + d23) - (d45 + d67),
                           (s01 - s23) - (s45 - s67), (d01 - d23) - (d45 - d67)]
  {
    var r := [(s01 + s23) + (s45 + s67), (d01 + d23) + (d45 + d67),
              (s01 - s23) + (s45 - s67), (d01 - d23) + (d45 - d67),
              (s01 + s23) - (s45 + s67), (d01 + d23) - (d45 + d67),
              (s01 - s23) - (s45 - s67), (d01 - d23) - (d45 - d67)];
    hide *;
    CombineOnes(x[0], x[1], [s01, d01]);
    CombineOnes(x[2], x[3], [s23, d23]);
    CombineOnes(x[4], x[5], [s45, d45]);
    CombineOnes(x[6], x[7], [s67, d67]);
    CombineTwos([s01, d01], [s23, d23], [s01 + s23, d01 + d23, s01 - s23, d01 - d23]);
    CombineTwos([s45, d45], [s67, d67], [s45 + s67, d45 + d67, s45 - s67, d45 - d67]);
    CombineFours([s01 + s23, d01 + d23, s01 - s23, d01 - d23], [s45 + s67, d45 + d67, s45 - s67, d45 - d67], r);
    OctLaneFrom(x, [s01, d01], [s23, d23], [s45, d45], [s67, d67],
                [s01 + s23, d01 + d23, s01 - s23, d01 - d23], [s45 + s67, d45 + d67, s45 - s67, d45 - d67], r);
  }

  lemma {:induction false} OctLaneFrom(x: seq<real>, a: seq<real>, b: seq<real>, c: seq<real>, d: seq<real>,
                                       e: seq<real>, f: seq<real>, r: seq<real>)
    requires |x| == 8 && |a| == |b| == |c| == |d| == 2 && |e| == |f| == 4
    requires Combine([x[0]], [x[1]]) == a && Combine([x[2]], [x[3]]) == b
    requires Combine([x[4]], [x[5]]) == c && Combine([x[6]], [x[7]]) == d
    requires Combine(a, b) == e && Combine(c, d) == f && Combine(e, f) == r
    ensures OctLane(x) == r
  {
    hide Combine;
  }

  lemma {:induction false} CombineOnes(a: real, b: real, r: seq<real>)
    requires |r| == 2 && r[0] == a + b && r[1] == a - b
    ensures Combine([a], [b]) == r
  {
  }

  lemma {:induction false} CombineTwos(x: seq<real>, y: seq<real>, r: seq<real>)
    requires |x| == |y| == 2 && |r| == 4
    requires r[0] == x[0] + y[0] && r[1] == x[1] + y[1] && r[2] == x[0] - y[0] && r[3] == x[1] - y[1]
    ensures Combine(x, y) == r
  {
  }

  lemma {:induction false} CombineFours(x: seq<real>, y: seq<real>, r: seq<real>)
    requires |x| == |y| == 4 && |r| == 8
    requires r[0] == x[0] + y[0] && r[1] == x[1] + y[1] && r[2] == x[2] + y[2] && r[3] == x[3] + y[3]
    requires r[4] == x[0] - y[0] && r[5] == x[1] - y[1] && r[6] == x[2] - y[2] && r[7] == x[3] - y[3]
    ensures Combine(x, y) == r
  {
  }

  /** `rows` are the starts of eight rows `stride` apart. */
  ghost predicate EvenRows(rows: seq<nat>, stride: nat) {
    && |rows| == 8
    && rows[1] == rows[0] + stride && rows[2] == rows[0] + 2 * stride && rows[3] == rows[0] + 3 * stride
    && rows[4] == rows[0] + 4 * stride && rows[5] == rows[0] + 5 * stride && rows[6] == rows[0] + 6 * stride
    && rows[7] == rows[0] + 7 * stride
  }

  lemma {:induction false} RowsApart(rows: seq<nat>, stride: nat)
    requires 0 < stride && EvenRows(rows, stride)
    ensures |rows| == 8 && rows[7] == rows[0] + 7 * stride
    ensures rows[0] < rows[1] < rows[2] < rows[3] < rows[4] < rows[5] < rows[6] < rows[7]
  {
  }

  lemma {:induction false} LaneOf(s: seq<real>, rows: seq<nat>, k: nat, stride: nat, y: seq<real>)
    requires EvenRows(rows, stride) && rows[0] + k + 7 * stride < |s| && |y| == 8
    requires s[rows[0] + k] == y[0] && s[rows[1] + k] == y[1] && s[rows[2] + k] == y[2] && s[rows[3] + k] == y[3]
    requires s[rows[4] + k] == y[4] && s[rows[5] + k] == y[5] && s[rows[6] + k] == y[6] && s[rows[7] + k] == y[7]
    ensures Lane(s, rows[0] + k, stride) == y
  {
  }

  method WriteLane(buf: array<real>, rows: seq<nat>, k: nat, y: seq<real>, ghost stride: nat)
    requires 0 < stride && EvenRows(rows, stride) && rows[0] + k + 7 * stride < buf.Length && |y| == 8
    modifies buf
    ensures Lane(buf[..], rows[0] + k, stride) == y
    ensures forall p {:trigger buf[p]} | 0 <= p < buf.Length
              && p - k !in rows :: buf[p] == old(buf[p])
  {
    RowsApart(rows, stride);
    hide *;
    buf[rows[0] + k] := y[0];
    buf[rows[4] + k] := y[4];
    buf[rows[1] + k] := y[1];
    buf[rows[5] + k] := y[5];
    buf[rows[2] + k] := y[2];
    buf[rows[6] + k] := y[6];
    buf[rows[3] + k] := y[3];
    buf[rows[7] + k] := y[7];
    LaneOf(buf[..], rows, k, stride, y);
  }

  /** One lane of the fused pass: read eight, three levels in registers, write eight. */
  method ButterflyOctLane(buf: array<real>, rows: seq<nat>, k: nat, ghost stride: nat)
    requires 0 < stride && EvenRows(rows, stride) && rows[0] + k + 7 * stride < buf.Length
    modifies buf
    ensures Lane(buf[..], rows[0] + k, stride) == OctLane(Lane(old(buf[..]), rows[0] + k, stride))
    ensures forall p {:trigger buf[p]} | 0 <= p < buf.Length && p - k !in rows :: buf[p] == old(buf[p])
  {
    hide OctLane, Combine;
    var x0, x1, x2, x3 := buf[rows[0] + k], buf[rows[1] + k], buf[rows[2] + k], buf[rows[3] + k];
    var x4, x5, x6, x7 := buf[rows[4] + k], buf[rows[5] + k], buf[rows[6] + k], buf[rows[7] + k];
    // Level 1: pairs (0,1), (2,3), (4,5), (6,7).
    var s01, d01, s23, d23 := x0 + x1, x0 - x1, x2 + x3, x2 - x3;
    var s45, d45, s67, d67 := x4 + x5, x4 - x5, x6 + x7, x6 - x7;
    OctLaneValues(Lane(buf[..], rows[0] + k, stride), s01, d01, s23, d23, s45, d45, s67, d67);
    // Level 2: pairs (0,2), (1,3), (4,6), (5,7).
    var p0, p2, p1, p3 := s01 + s23, s01 - s23, d01 + d23, d01 - d23;
    var p4, p6, p5, p7 := s45 + s67, s45 - s67, d45 + d67, d45 - d67;
    // Level 3: pairs (0,4), (1,5), (2,6), (3,7).
    WriteLane(buf, rows, k, [p0 + p4, p1 + p5, p2 + p6, p3 + p7, p0 - p4, p1 - p5, p2 - p6, p3 - p7], stride);
  }

  /** Three fused butterfly levels over eight disjoint rows of width `d`. */
  method ButterflyOct(buf: array<real>, rows: seq<nat>, d: nat, ghost base: nat, ghost stride: nat)
    requires |rows| == 8 && base <= rows[0] && rows[0] + d <= base + stride && base + 8 * stride <= buf.Length
    requires EvenRows(rows, stride)
    modifies buf
    ensures Octed(old(buf[..]), buf[..], base, stride, rows[0], rows[0] + d)
  {
    hide Octed, Lane, OctLane;
    ghost var was := buf[..];
    OctedStart(was, base, stride, rows[0]);
    for k := 0 to d
      invariant Octed(was, buf[..], base, stride, rows[0], rows[0] + k)
    {
      ghost var mid := buf[..];
      ButterflyOctLane(buf, rows, k, stride);
      OctedOne(mid, buf[..], base, stride, rows[0] + k);
      OctedStep(was, mid, buf[..], base, stride, rows[0], rows[0] + k, rows[0] + k + 1);
    }
  }

  /** Eight consecutive blocks after three fused levels. */
  function OctBlocks(s: seq<real>, base: nat, stride: nat): (r: seq<real>)
    requires base + 8 * stride <= |s|
    ensures |r| == 8 * stride
  {
    Combine(QuadBlocks(Part(s, base, 0, stride), Part(s, base, 1, stride),
                       Part(s, base, 2, stride), Part(s, base, 3, stride), stride),
            QuadBlocks(Part(s, base, 4, stride), Part(s, base, 5, stride),
                       Part(s, base, 6, stride), Part(s, base, 7, stride), stride))
  }

  /** Block `r` of the group at `base`. */
  function Part(s: seq<real>, base: nat, r: nat, stride: nat): (t: seq<real>)
    requires r < 8 && base + 8 * stride <= |s|
    ensures |t| == stride
  {
    s[base + r * stride..base + r * stride + stride]
  }

  lemma {:induction false} PartLane(s: seq<real>, base: nat, stride: nat, q: nat)
    requires base + 8 * stride <= |s| && q < stride
    ensures Lane(s, base + q, stride)
         == [Part(s, base, 0, stride)[q], Part(s, base, 1, stride)[q], Part(s, base, 2, stride)[q],
             Part(s, base, 3, stride)[q], Part(s, base, 4, stride)[q], Part(s, base, 5, stride)[q],
             Part(s, base, 6, stride)[q], Part(s, base, 7, stride)[q]]
  {
  }

  /** A combination of blocks, read lane by lane. */
  lemma {:induction false} CombineAt(a: seq<real>, b: seq<real>, q: nat)
    requires |a| == |b| && q < |a|
    ensures Combine(a, b)[q] == a[q] + b[q]
    ensures Combine(a, b)[q + |a|] == a[q] - b[q]
  {
  }

  lemma {:induction false} OctBlocksLane(s: seq<real>, base: nat, stride: nat, q: nat)
    requires base + 8 * stride <= |s| && q < stride
    ensures Lane(OctBlocks(s, base, stride), q, stride) == OctLane(Lane(s, base + q, stride))
  {
    PartLane(s, base, stride, q);
    OctBlocksLane8(Part(s, base, 0, stride), Part(s, base, 1, stride), Part(s, base, 2, stride),
                   Part(s, base, 3, stride), Part(s, base, 4, stride), Part(s, base, 5, stride),
                   Part(s, base, 6, stride), Part(s, base, 7, stride), stride, q);
    hide Part, Lane, OctLane, Combine;
  }

  lemma {:induction false} OctBlocksLane8(a: seq<real>, b: seq<real>, c: seq<real>, d: seq<real>,
      e: seq<real>, f: seq<real>, g: seq<real>, h: seq<real>, stride: nat, q: nat)
    requires |a| == |b| == |c| == |d| == |e| == |f| == |g| == |h| == stride && q < stride
    ensures Lane(Combine(QuadBlocks(a, b, c, d, stride), QuadBlocks(e, f, g, h, stride)), q, stride)
         == OctLane([a[q], b[q], c[q], d[q], e[q], f[q], g[q], h[q]])
  {
    hide Combine, QuadBlocks, OctLane;
    var lo, hi := QuadBlocks(a, b, c, d, stride), QuadBlocks(e, f, g, h, stride);
    QuadLane(a, b, c, d, stride, q);
    QuadLane(e, f, g, h, stride, q);
    PairLane(lo, hi, stride, q);
    OctLaneValues([a[q], b[q], c[q], d[q], e[q], f[q], g[q], h[q]],
                  a[q] + b[q], a[q] - b[q], c[q] + d[q], c[q] - d[q],
                  e[q] + f[q], e[q] - f[q], g[q] + h[q], g[q] - h[q]);
  }

  function QuadBlocks(a: seq<real>, b: seq<real>, c: seq<real>, d: seq<real>, stride: nat): (r: seq<real>)
    requires |a| == |b| == |c| == |d| == stride
    ensures |r| == 4 * stride
  {
    Combine(Combine(a, b), Combine(c, d))
  }

  lemma {:induction false} QuadLane(a: seq<real>, b: seq<real>, c: seq<real>, d: seq<real>, stride: nat, q: nat)
    requires |a| == |b| == |c| == |d| == stride && q < stride
    ensures var r := QuadBlocks(a, b, c, d, stride);
            && r[q] == (a[q] + b[q]) + (c[q] + d[q])
            && r[q + stride] == (a[q] - b[q]) + (c[q] - d[q])
            && r[q + 2 * stride] == (a[q] + b[q]) - (c[q] + d[q])
            && r[q + 3 * stride] == (a[q] - b[q]) - (c[q] - d[q])
  {
    hide Combine;
    CombineAt(a, b, q);
    CombineAt(c, d, q);
    FourBlocks(Combine(a, b), Combine(c, d), stride, q);
  }

  lemma {:induction false} PairLane(e: seq<real>, f: seq<real>, stride: nat, q: nat)
    requires |e| == |f| == 4 * stride && q < stride
    ensures Lane(Combine(e, f), q, stride)
         == [e[q] + f[q], e[q + stride] + f[q + stride],
             e[q + 2 * stride] + f[q + 2 * stride], e[q + 3 * stride] + f[q + 3 * stride],
             e[q] - f[q], e[q + stride] - f[q + stride],
             e[q + 2 * stride] - f[q + 2 * stride], e[q + 3 * stride] - f[q + 3 * stride]]
  {
    CombineAt(e, f, q);
    CombineAt(e, f, q + stride);
    CombineAt(e, f, q + 2 * stride);
    CombineAt(e, f, q + 3 * stride);
  }

  lemma {:induction false} FourBlocks(a: seq<real>, b: seq<real>, stride: nat, q: nat)
    requires |a| == |b| == 2 * stride && q < stride
    ensures Combine(a, b)[q] == a[q] + b[q]
    ensures Combine(a, b)[q + stride] == a[q + stride] + b[q + stride]
    ensures Combine(a, b)[q + 2 * stride] == a[q] - b[q]
    ensures Combine(a, b)[q + 3 * stride] == a[q + stride] - b[q + stride]
  {
    CombineAt(a, b, q);
    CombineAt(a, b, q + stride);
  }

  /** A fully transformed group is the nested combination of its eight blocks. */
  lemma {:induction false} OctedCombine(was: seq<real>, now: seq<real>, base: nat, stride: nat)
    requires Octed(was, now, base, stride, base, base + stride)
    ensures now[base..base + 8 * stride] == OctBlocks(was, base, stride)
  {
    hide OctLane, OctBlocks;
    var t := OctBlocks(was, base, stride);
    forall q | 0 <= q < stride
      ensures Lane(now, base + q, stride) == Lane(t, q, stride)
    {
      OctBlocksLane(was, base, stride, q);
    }
    LanesAgree(now[base..base + 8 * stride], t, now, base, stride);
  }

  lemma {:induction false} LanesAgree(g: seq<real>, t: seq<real>, now: seq<real>, base: nat, stride: nat)
    requires base + 8 * stride <= |now| && g == now[base..base + 8 * stride] && |t| == 8 * stride
    requires forall q {:trigger Lane(t, q, stride)} | 0 <= q < stride ::
               Lane(now, base + q, stride) == Lane(t, q, stride)
    ensures g == t
  {
    forall p | 0 <= p < 8 * stride
      ensures g[p] == t[p]
    {
      if p < stride {
        assert Lane(t, p, stride)[0] == t[p];
      } else if p < 2 * stride {
        assert Lane(t, p - stride, stride)[1] == t[p];
      } else if p < 3 * stride {
        assert Lane(t, p - 2 * stride, stride)[2] == t[p];
      } else if p < 4 * stride {
        assert Lane(t, p - 3 * stride, stride)[3] == t[p];
      } else if p < 5 * stride {
        assert Lane(t, p - 4 * stride, stride)[4] == t[p];
      } else if p < 6 * stride {
        assert Lane(t, p - 5 * stride, stride)[5] == t[p];
      } else if p < 7 * stride {
        assert Lane(t, p - 6 * stride, stride)[6] == t[p];
      } else {
        assert Lane(t, p - 7 * stride, stride)[7] == t[p];
      }
    }
  }

  /** One radix-8 chunk of `8·h` rows: `h` groups of rows `j, j+h, …, j+7h`.
      The guard against a short chunk never fires on a full one. */
  method ProcessStageChunkRadix8(buf: array<real>, base: nat, len: nat, h: nat, d: nat)
    requires base + len <= buf.Length && len == 8 * Offset(h, d)
    modifies buf
    ensures buf[base..base + len] == OctBlocks(old(buf[..]), base, Offset(h, d))
    ensures buf[..base] == old(buf[..])[..base] && buf[base + len..] == old(buf[..])[base + len..]
  {
    hide Offset, Octed, OctBlocks;
    ghost var stride := Offset(h, d);
    ghost var was := buf[..];
    OctedStart(was, base, stride, base);
    RowOffset(0, h, d);
    for j := 0 to h
      invariant Octed(was, buf[..], base, stride, base, base + Offset(j, d))
    {
      RowOffset(j, h, d);
      OctOffsets(j, h, d);
      var off := [Offset(j, d), Offset(j + h, d), Offset(j + 2 * h, d), Offset(j + 3 * h, d),
                  Offset(j + 4 * h, d), Offset(j + 5 * h, d), Offset(j + 6 * h, d), Offset(j + 7 * h, d)];
      if off[7] + d > len {
        assert false;
        break;
      }
      var rows := [base + off[0], base + off[1], base + off[2], base + off[3],
                   base + off[4], base + off[5], base + off[6], base + off[7]];
      ghost var mid := buf[..];
      ButterflyOct(buf, rows, d, base, stride);
      OctedStep(was, mid, buf[..], base, stride, base, rows[0], rows[0] + d);
    }
    OctedCombine(was, buf[..], base, stride);
    OctedOutside(was, buf[..], base, stride);
  }

  lemma {:induction false} OctedOutside(was: seq<real>, now: seq<real>, base: nat, stride: nat)
    requires Octed(was, now, base, stride, base, base + stride)
    ensures |now| == |was| && now[..base] == was[..base] && now[base + 8 * stride..] == was[base + 8 * stride..]
  {
  }

  lemma {:induction false} OctOffsets(j: nat, h: nat, d: nat)
    ensures Offset(j + h, d) == Offset(j, d) + Offset(h, d)
    ensures Offset(j + 2 * h, d) == Offset(j, d) + 2 * Offset(h, d)
    ensures Offset(j + 3 * h, d) == Offset(j, d) + 3 * Offset(h, d)
    ensures Offset(j + 4 * h, d) == Offset(j, d) + 4 * Offset(h, d)
    ensures Offset(j + 5 * h, d) == Offset(j, d) + 5 * Offset(h, d)
    ensures Offset(j + 6 * h, d) == Offset(j, d) + 6 * Offset(h, d)
    ensures Offset(j + 7 * h, d) == Offset(j, d) + 7 * Offset(h, d)
  {
  }

  // ─── whole passes over the buffer ───

  function ChunkLength(size: nat, radix8: bool): nat {
    (if radix8 then 8 else 2) * size
  }

  /** What one chunk becomes: one level on two halves, or three levels on eight parts. */
  function ChunkResult(x: seq<real>, size: nat, radix8: bool): (r: seq<real>)
    ensures |r| == |x|
  {
    if |x| != ChunkLength(size, radix8) then x
    else if radix8 then OctBlocks(x, 0, size)
    else Combine(x[..size], x[size..])
  }

  function PassMap(size: nat, radix8: bool): (nat, seq<real>) -> seq<real> {
    (c, x) => ChunkResult(x, size, radix8)
  }

  /** All `total` chunks have been processed. */
  ghost predicate PassDone(was: seq<real>, now: seq<real>, size: nat, radix8: bool, total: nat) {
    Mapped(was, now, PassMap(size, radix8), ChunkLength(size, radix8), total, total)
  }

  /** One pass at distance `h`: the buffer cut into chunks, each processed in place. */
  method StagePass(buf: array<real>, h: nat, d: nat, radix8: bool, ghost total: nat)
    requires 0 < h && 0 < d
    requires buf.Length == Offset(total, ChunkLength(Offset(h, d), radix8))
    modifies buf
    ensures PassDone(old(buf[..]), buf[..], Offset(h, d), radix8, total)
  {
    hide Offset, Mapped, OctBlocks, Block, ChunkLength, ChunkResult, Combine;
    ghost var was := buf[..];
    var size := Offset(h, d);
    SizePositive(h, d);
    var chunk := ChunkLength(size, radix8);
    ChunkLengths(size);
    MappedStart(was, PassMap(size, radix8), chunk, total);
    var base := 0;
    ghost var c: nat := 0;
    RowOffset(0, 0, chunk);
    while base < buf.Length
      invariant c <= total && base == Offset(c, chunk)
      invariant Mapped(was, buf[..], PassMap(size, radix8), chunk, c, total)
      decreases buf.Length - base
    {
      OffsetBelow(c, total, chunk);
      var rest := buf.Length - base;
      var len := if chunk <= rest then chunk else rest;
      assert len == chunk;
      ghost var mid := buf[..];
      if radix8 {
        ProcessStageChunkRadix8(buf, base, len, h, d);
        OctChunk(mid, base, size);
      } else {
        ProcessStageChunk(buf, base, len, h, d);
        PairChunk(mid, base, size);
      }
      BlockIs(mid, c, chunk);
      BlockIs(buf[..], c, chunk);
      MappedStep(was, mid, buf[..], PassMap(size, radix8), chunk, c, total);
      base := base + len;
      RowOffset(c, c + 1, chunk);
      c := c + 1;
    }
    OffsetAtEnd(c, total, chunk);
  }

  lemma {:induction false} OctChunk(s: seq<real>, base: nat, size: nat)
    requires base + 8 * size <= |s|
    ensures ChunkResult(s[base..base + 8 * size], size, true) == OctBlocks(s, base, size)
  {
    OctBlocksShift(s, base, size);
  }

  lemma {:induction false} PairChunk(s: seq<real>, base: nat, size: nat)
    requires base + 2 * size <= |s|
    ensures ChunkResult(s[base..base + 2 * size], size, false)
         == Combine(s[base..base + size], s[base + size..base + 2 * size])
  {
    var x := s[base..base + 2 * size];
    assert x[..size] == s[base..base + size];
    assert x[size..] == s[base + size..base + 2 * size];
  }

  lemma {:induction false} ChunkLengths(size: nat)
    ensures ChunkLength(size, true) == 8 * size && ChunkLength(size, false) == 2 * size
  {
  }

  lemma {:induction false} SizePositive(h: nat, d: nat)
    requires 0 < h && 0 < d
    ensures 0 < Offset(h, d)
  {
  }

  lemma {:induction false} OctBlocksShift(s: seq<real>, base: nat, stride: nat)
    requires base + 8 * stride <= |s|
    ensures OctBlocks(s, base, stride) == OctBlocks(s[base..base + 8 * stride], 0, stride)
  {
    hide QuadBlocks, Combine, Part;
    PartShift(s, base, 0, stride);
    PartShift(s, base, 1, stride);
    PartShift(s, base, 2, stride);
    PartShift(s, base, 3, stride);
    PartShift(s, base, 4, stride);
    PartShift(s, base, 5, stride);
    PartShift(s, base, 6, stride);
    PartShift(s, base, 7, stride);
  }

  lemma {:induction false} PartShift(s: seq<real>, base: nat, r: nat, stride: nat)
    requires r < 8 && base + 8 * stride <= |s|
    ensures Part(s, base, r, stride) == Part(s[base..base + 8 * stride], 0, r, stride)
  {
    var at := r * stride;
    assert Part(s, base, r, stride) == s[base + at..base + at + stride];
    assert Part(s[base..base + 8 * stride], 0, r, stride) == s[base..base + 8 * stride][at..at + stride] by {
      PartFits(r, stride);
    }
    PartFits(r, stride);
    hide Part;
    SliceOfSlice(s, base, 8 * stride, at, stride);
  }

  lemma {:induction false} PartFits(r: nat, stride: nat)
    requires r < 8
    ensures 0 <= r * stride && r * stride + stride <= 8 * stride
  {
    assert r * stride + stride == (r + 1) * stride;
    assert (8 - (r + 1)) * stride >= 0;
  }

  // ─── levels: what the buffer holds after each pass ───

  /** The buffer is `count` stretches of `size`, each transformed over `l` levels on its own. */
  ghost predicate LevelDone(was: seq<real>, now: seq<real>, size: nat, l: nat, count: nat) {
    && |now| == |was| == Offset(count, size)
    && forall c: nat {:trigger Block(now, c, size)} | c < count ::
         Block(now, c, size) == Wht(Block(was, c, size), l)
  }

  lemma {:induction false} LevelZero(was: seq<real>, size: nat, count: nat)
    requires |was| == Offset(count, size)
    ensures LevelDone(was, was, size, 0, count)
  {
  }

  lemma {:induction false} LevelTop(was: seq<real>, now: seq<real>, size: nat, l: nat)
    requires LevelDone(was, now, size, l, 1)
    ensures now == Wht(was, l)
  {
    assert Block(now, 0, size) == now;
    assert Block(was, 0, size) == was;
  }

  lemma {:induction false} PairHalves(s: seq<real>, c: nat, total: nat, size: nat)
    requires c < total && |s| == Offset(total, 2 * size)
    ensures |Block(s, c, 2 * size)| == 2 * size
    ensures Block(s, c, 2 * size)[..size] == Block(s, 2 * c, size)
    ensures Block(s, c, 2 * size)[size..] == Block(s, 2 * c + 1, size)
  {
    BlockFits(s, c, total, 2 * size);
    BlockOfBlock(s, c, 2, 0, size);
    BlockOfBlock(s, c, 2, 1, size);
    assert Block(s, c, 2 * size)[size..] == Block(s, c, 2 * size)[1 * size..1 * size + size];
  }

  lemma {:induction false} WhtPair(x: seq<real>, y: seq<real>, size: nat, l: nat)
    requires |x| == |y| == 2 * size
    requires y[..size] == Wht(x[..size], l) && y[size..] == Wht(x[size..], l)
    ensures ChunkResult(y, size, false) == Wht(x, l + 1)
  {
    hide Combine;
    assert |x| / 2 == size;
  }

  /** One radix-2 pass moves every stretch one level up. */
  lemma {:induction false} LevelUp(was: seq<real>, mid: seq<real>, now: seq<real>, size: nat, l: nat, k: nat)
    requires LevelDone(was, mid, size, l, 2 * k) && Offset(2 * k, size) == Offset(k, 2 * size)
    requires PassDone(mid, now, size, false, k)
    ensures LevelDone(was, now, 2 * size, l + 1, k)
  {
    hide Offset, Block, ChunkResult, Wht;
    ChunkLengths(size);
    forall c: nat | c < k
      ensures Block(now, c, 2 * size) == Wht(Block(was, c, 2 * size), l + 1)
    {
      assert Block(now, c, 2 * size) == ChunkResult(Block(mid, c, 2 * size), size, false);
      assert Block(mid, 2 * c, size) == Wht(Block(was, 2 * c, size), l);
      assert Block(mid, 2 * c + 1, size) == Wht(Block(was, 2 * c + 1, size), l);
      PairHalves(was, c, k, size);
      PairHalves(mid, c, k, size);
      WhtPair(Block(was, c, 2 * size), Block(mid, c, 2 * size), size, l);
    }
  }

  lemma {:induction false} WhtSplit(z: seq<real>, l: nat, size: nat)
    requires |z| == 2 * size
    ensures Wht(z, l + 1) == Combine(Wht(z[..size], l), Wht(z[size..], l))
  {
    hide Combine;
    assert |z| / 2 == size;
  }

  /** Two levels at once. */
  lemma {:induction false} WhtTwo(z: seq<real>, l: nat, size: nat)
    requires |z| == 4 * size
    ensures Wht(z, l + 2)
         == QuadBlocks(Wht(z[..size], l), Wht(z[size..2 * size], l),
                       Wht(z[2 * size..3 * size], l), Wht(z[3 * size..], l), size)
  {
    hide Combine, Wht;
    var lo, hi := z[..2 * size], z[2 * size..];
    WhtSplit(z, l + 1, 2 * size);
    WhtSplit(lo, l, size);
    WhtSplit(hi, l, size);
    assert lo[..size] == z[..size] && lo[size..] == z[size..2 * size];
    assert hi[..size] == z[2 * size..3 * size] && hi[size..] == z[3 * size..];
  }

  /** Three levels at once: the fused combination of eight transformed parts. */
  lemma {:induction false} WhtThree(x: seq<real>, y: seq<real>, l: nat, size: nat)
    requires |x| == |y| == 8 * size
    requires forall r: nat {:trigger Part(y, 0, r, size)} | r < 8 :: Part(y, 0, r, size) == Wht(Part(x, 0, r, size), l)
    ensures ChunkResult(y, size, true) == Wht(x, l + 3)
  {
    hide Combine, QuadBlocks, Wht;
    var lo, hi := x[..4 * size], x[4 * size..];
    WhtSplit(x, l + 2, 4 * size);
    WhtTwo(lo, l, size);
    WhtTwo(hi, l, size);
    assert lo[..size] == Part(x, 0, 0, size) && lo[size..2 * size] == Part(x, 0, 1, size);
    assert lo[2 * size..3 * size] == Part(x, 0, 2, size) && lo[3 * size..] == Part(x, 0, 3, size);
    assert hi[..size] == Part(x, 0, 4, size) && hi[size..2 * size] == Part(x, 0, 5, size);
    assert hi[2 * size..3 * size] == Part(x, 0, 6, size) && hi[3 * size..] == Part(x, 0, 7, size);
  }

  /** One radix-8 pass moves every stretch three levels up. */
  lemma {:induction false} LevelUpThree(was: seq<real>, mid: seq<real>, now: seq<real>, size: nat, l: nat, k: nat)
    requires LevelDone(was, mid, size, l, 8 * k) && Offset(8 * k, size) == Offset(k, 8 * size)
    requires PassDone(mid, now, size, true, k)
    ensures LevelDone(was, now, 8 * size, l + 3, k)
  {
    hide Offset, Block, ChunkResult, Wht, Part;
    ChunkLengths(size);
    forall c: nat | c < k
      ensures Block(now, c, 8 * size) == Wht(Block(was, c, 8 * size), l + 3)
    {
      assert Block(now, c, 8 * size) == ChunkResult(Block(mid, c, 8 * size), size, true);
      BlockFits(was, c, k, 8 * size);
      BlockFits(mid, c, k, 8 * size);
      var x, y := Block(was, c, 8 * size), Block(mid, c, 8 * size);
      forall r: nat | r < 8
        ensures Part(y, 0, r, size) == Wht(Part(x, 0, r, size), l)
      {
        PartOfBlock(was, c, r, size);
        PartOfBlock(mid, c, r, size);
        assert Block(mid, 8 * c + r, size) == Wht(Block(was, 8 * c + r, size), l);
      }
      WhtThree(x, y, l, size);
    }
  }

  lemma {:induction false} PartOfBlock(s: seq<real>, c: nat, r: nat, size: nat)
    requires r < 8 && Offset(c, 8 * size) + 8 * size <= |s|
    ensures |Block(s, c, 8 * size)| == 8 * size
    ensures Part(Block(s, c, 8 * size), 0, r, size) == Block(s, 8 * c + r, size)
  {
    BlockOfBlock(s, c, 8, r, size);
  }

  /** The sizes of one level up: `2^(b+a)·h` rows as `2^b` stretches of `2^a·h`. */
  lemma {:induction false} LevelSizes(b: nat, a: nat, h: nat, d: nat)
    ensures Pow2(b + a) == Pow2(a) * Pow2(b)
    ensures Offset(Pow2(a) * Pow2(b), Offset(h, d)) == Offset(Pow2(b), Pow2(a) * Offset(h, d))
    ensures Pow2(a) * Offset(h, d) == Offset(Pow2(a) * h, d)
  {
    Pow2Add(b, a);
    var x, y, z := Pow2(a), Pow2(b), h * d;
    assert (x * y) * z == y * (x * z);
    assert x * z == (x * h) * d;
  }

  lemma {:induction false} SmallPowers()
    ensures Pow2(0) == 1 && Pow2(1) == 2 && Pow2(3) == 8
  {
    assert Pow2(3) == 2 * Pow2(2) == 4 * Pow2(1);
  }

  /** The in-place transform: radix-8 passes while three levels remain, then radix-2. */
  method FwhtRowsInplaceSlice(buf: array<real>, n: nat, d: nat)
    requires IsPowerOfTwo(n) && buf.Length == n * d
    modifies buf
    ensures Rows(buf[..], n, d) == Mul(WalshMatrix(n), Rows(old(buf[..]), n, d), n, d)
  {
    ghost var was := buf[..];
    ghost var m: nat :| n == Pow2(m);
    if n < 2 || d == 0 {
      TrivialTransform(was, n, d);
      return;
    }
    FwhtLevels(buf, n, d, m);
    WhtIsHadamard(was, m, d);
  }

  method FwhtLevels(buf: array<real>, n: nat, d: nat, ghost m: nat)
    requires n == Pow2(m) && 0 < d && buf.Length == Offset(n, d)
    modifies buf
    ensures buf[..] == Wht(old(buf[..]), m)
  {
    hide LevelDone, PassDone, Wht, Offset, Pow2;
    ghost var was := buf[..];
    SmallPowers();
    var h := 1;
    ghost var l: nat := 0;
    LevelSizes(m, 0, 1, d);
    OneRow(d);
    LevelZero(was, Offset(1, d), Pow2(m));
    while h < n
      invariant l <= m && h == Pow2(l)
      invariant LevelDone(was, buf[..], Offset(h, d), l, Pow2(m - l))
      invariant buf.Length == Offset(Pow2(m - l), Offset(h, d))
      decreases n - h
    {
      ghost var mid := buf[..];
      Pow2Less(l, m);
      ChunkLengths(Offset(h, d));
      if h * 8 <= n {
        EightFits(l, m);
        LevelSizes(m - l - 3, 3, h, d);
        Pow2Add(3, l);
        StagePass(buf, h, d, true, Pow2(m - l - 3));
        LevelUpThree(was, mid, buf[..], Offset(h, d), l, Pow2(m - l - 3));
        h := h * 8;
        l := l + 3;
        continue;
      }
      LevelSizes(m - l - 1, 1, h, d);
      Pow2Add(1, l);
      StagePass(buf, h, d, false, Pow2(m - l - 1));
      LevelUp(was, mid, buf[..], Offset(h, d), l, Pow2(m - l - 1));
      h := h * 2;
      l := l + 1;
    }
    Pow2Less(l, m);
    LevelTop(was, buf[..], Offset(h, d), m);
  }

  lemma {:induction false} OneRow(d: nat)
    ensures Offset(1, d) == d
  {
  }

  lemma {:induction false} EightFits(l: nat, m: nat)
    requires Pow2(l) * 8 <= Pow2(m)
    ensures l + 3 <= m
  {
    assert Pow2(l + 3) == 2 * Pow2(l + 2) == 4 * Pow2(l + 1) == 8 * Pow2(l);
    Pow2Less(m, l + 3);
  }

  lemma {:induction false} TrivialTransform(s: seq<real>, n: nat, d: nat)
    requires n < 2 || d == 0
    ensures Rows(s, n, d) == Mul(WalshMatrix(n), Rows(s, n, d), n, d)
  {
    forall i, k | 0 <= i < n && 0 <= k < d
      ensures Dot(WalshMatrix(n), Rows(s, n, d), n, i, k) == At(Rows(s, n, d), i, k)
    {
      assert Dot(WalshMatrix(1), Rows(s, 1, d), 1, 0, k) == Sgn(0, 0) * At(Rows(s, 1, d), 0, k);
    }
    MatExt(Mul(WalshMatrix(n), Rows(s, n, d), n, d), Rows(s, n, d), n, d);
  }

  lemma {:induction false} PassPair(was: seq<real>, now: seq<real>, size: nat, k: nat, c: nat)
    requires PassDone(was, now, size, false, k) && c < k
    ensures |Block(was, 2 * c, size)| == |Block(was, 2 * c + 1, size)| == size
    ensures Block(now, c, 2 * size) == Combine(Block(was, 2 * c, size), Block(was, 2 * c + 1, size))
  {
    hide Offset, Block, Combine;
    ChunkLengths(size);
    PairHalves(was, c, k, size);
  }

  /** The fused pass does exactly what three radix-2 passes at `h`, `2h`, `4h` do. */
  lemma {:induction false} RadixEightIsThreePasses(s: seq<real>, s1: seq<real>, s2: seq<real>, s4: seq<real>,
                                                   s8: seq<real>, size: nat, k: nat)
    requires PassDone(s, s1, size, false, 4 * k)
    requires PassDone(s1, s2, 2 * size, false, 2 * k)
    requires PassDone(s2, s4, 4 * size, false, k)
    requires PassDone(s, s8, size, true, k)
    ensures s4 == s8
  {
    hide Offset, Block, PassDone, OctBlocks;
    PassLength(s2, s4, 4 * size, false, k);
    PassLength(s, s8, size, true, k);
    forall c: nat | c < k
      ensures Block(s4, c, 8 * size) == Block(s8, c, 8 * size)
    {
      PassPair(s2, s4, 4 * size, k, c);
      PassPair(s1, s2, 2 * size, 2 * k, 2 * c);
      PassPair(s1, s2, 2 * size, 2 * k, 2 * c + 1);
      PassPair(s, s1, size, 4 * k, 4 * c);
      PassPair(s, s1, size, 4 * k, 4 * c + 1);
      PassPair(s, s1, size, 4 * k, 4 * c + 2);
      PassPair(s, s1, size, 4 * k, 4 * c + 3);
      PassEight(s, s8, size, k, c);
    }
    BlocksDetermine(s4, s8, k, 8 * size);
  }

  lemma {:induction false} PassLength(was: seq<real>, now: seq<real>, size: nat, radix8: bool, k: nat)
    requires PassDone(was, now, size, radix8, k)
    ensures |now| == |was| == Offset(k, ChunkLength(size, radix8))
  {
  }

  lemma {:induction false} PassEight(was: seq<real>, now: seq<real>, size: nat, k: nat, c: nat)
    requires PassDone(was, now, size, true, k) && c < k
    requires forall r: nat {:trigger Block(was, 8 * c + r, size)} | r < 8 :: |Block(was, 8 * c + r, size)| == size
    ensures Block(now, c, 8 * size)
         == Combine(QuadBlocks(Block(was, 8 * c + 0, size), Block(was, 8 * c + 1, size),
                               Block(was, 8 * c + 2, size), Block(was, 8 * c + 3, size), size),
                    QuadBlocks(Block(was, 8 * c + 4, size), Block(was, 8 * c + 5, size),
                               Block(was, 8 * c + 6, size), Block(was, 8 * c + 7, size), size))
  {
    hide Offset, Block, Combine, QuadBlocks, Part;
    ChunkLengths(size);
    BlockFits(was, c, k, 8 * size);
    PartOfBlock(was, c, 0, size);
    PartOfBlock(was, c, 1, size);
    PartOfBlock(was, c, 2, size);
    PartOfBlock(was, c, 3, size);
    PartOfBlock(was, c, 4, size);
    PartOfBlock(was, c, 5, size);
    PartOfBlock(was, c, 6, size);
    PartOfBlock(was, c, 7, size);
  }
}
