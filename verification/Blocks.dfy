/** Row-major buffers cut into equal stretches, processed one at a time. */
module Blocks {
  import opened Slices
  import opened LinAlg

  /** Where row `row` of a buffer of width `d` starts. */
  function Offset(row: nat, d: nat): nat {
    row * d
  }

  lemma {:induction false} RowOffset(j: nat, h: nat, d: nat)
    requires j <= h
    ensures Offset(0, d) == 0
    ensures Offset(j + h, d) == Offset(j, d) + Offset(h, d)
    ensures Offset(j, d) + d == Offset(j + 1, d)
    ensures j < h ==> Offset(j, d) + d <= Offset(h, d)
  {
    if j < h {
      assert (j + 1) * d <= h * d;
    }
  }

  /** The `c`-th stretch of `size` entries; empty past the end. */
  function Block<T>(s: seq<T>, c: nat, size: nat): (b: seq<T>) {
    if Offset(c, size) + size <= |s| then s[Offset(c, size)..Offset(c, size) + size] else []
  }

  lemma {:induction false} BlockIs<T>(s: seq<T>, c: nat, size: nat)
    requires Offset(c, size) + size <= |s|
    ensures Block(s, c, size) == s[Offset(c, size)..Offset(c, size) + size]
  {
  }

  lemma {:induction false} OffsetMonotone(a: nat, b: nat, d: nat)
    requires a <= b
    ensures Offset(a, d) <= Offset(b, d)
    ensures a < b ==> Offset(a, d) + d <= Offset(b, d)
  {
    assert Offset(b, d) == Offset(a, d) + (b - a) * d;
    if a < b {
      assert (b - a) * d == d + (b - a - 1) * d;
    }
  }

  lemma {:induction false} OffsetBelow(c: nat, total: nat, d: nat)
    requires Offset(c, d) < Offset(total, d)
    ensures c < total && Offset(c, d) + d <= Offset(total, d)
  {
    if c >= total {
      OffsetMonotone(total, c, d);
    }
    OffsetMonotone(c, total, d);
  }

  lemma {:induction false} OffsetAtEnd(c: nat, total: nat, d: nat)
    requires c <= total && Offset(c, d) >= Offset(total, d) && 0 < d
    ensures c == total
  {
    if c < total {
      OffsetMonotone(c, total, d);
    }
  }

  lemma {:induction false} BlockElsewhere<T>(mid: seq<T>, now: seq<T>, done: nat, c: nat, len: nat)
    requires c != done && |now| == |mid|
    requires Offset(done, len) + len <= |mid| && Offset(c, len) + len <= |mid|
    requires now[..Offset(done, len)] == mid[..Offset(done, len)]
    requires now[Offset(done, len) + len..] == mid[Offset(done, len) + len..]
    ensures Block(now, c, len) == Block(mid, c, len)
  {
    hide Offset;
    if c < done {
      OffsetMonotone(c, done, len);
      SameInPrefix(mid, now, Offset(done, len), Offset(c, len), len);
    } else {
      OffsetMonotone(done, c, len);
      SameInSuffix(mid, now, Offset(done, len) + len, Offset(c, len), len);
    }
  }

  lemma {:induction false} BlockFits<T>(s: seq<T>, c: nat, total: nat, size: nat)
    requires c < total && |s| == Offset(total, size)
    ensures Offset(c, size) + size <= |s|
    ensures |Block(s, c, size)| == size
  {
    OffsetMonotone(c, total, size);
  }

  /** Stretch `r` of a group of `g` stretches is a stretch of the whole buffer. */
  lemma {:induction false} BlockOfBlock<T>(s: seq<T>, c: nat, g: nat, r: nat, size: nat)
    requires r < g && Offset(c, g * size) + g * size <= |s|
    ensures 0 <= r * size && r * size + size <= g * size
    ensures |Block(s, c, g * size)| == g * size
    ensures Block(s, c, g * size)[r * size..r * size + size] == Block(s, g * c + r, size)
  {
    OffsetMonotone(r, g, size);
    BlockStart(c, g, r, size);
    SliceOfSlice(s, Offset(c, g * size), g * size, r * size, size);
  }

  lemma {:induction false} BlockStart(c: nat, g: nat, r: nat, size: nat)
    ensures Offset(g * c + r, size) == Offset(c, g * size) + r * size
  {
    assert (g * c + r) * size == (g * c) * size + r * size;
    assert (g * c) * size == c * (g * size);
  }

  /** A buffer is the concatenation of its stretches. */
  lemma {:induction false} BlocksDetermine<T>(s: seq<T>, t: seq<T>, k: nat, size: nat)
    requires |s| == |t| == Offset(k, size)
    requires forall c: nat {:trigger Block(s, c, size)} | c < k :: Block(s, c, size) == Block(t, c, size)
    ensures s == t
  {
    if k > 0 {
      var cut := Offset(k - 1, size);
      RowOffset(k - 1, k, size);
      forall c: nat | c < k - 1
        ensures Block(s[..cut], c, size) == Block(t[..cut], c, size)
      {
        OffsetMonotone(c, k - 1, size);
        assert Block(s, c, size) == Block(t, c, size);
        assert Block(s[..cut], c, size) == Block(s, c, size);
        assert Block(t[..cut], c, size) == Block(t, c, size);
      }
      BlocksDetermine(s[..cut], t[..cut], k - 1, size);
      assert Block(s, k - 1, size) == Block(t, k - 1, size);
      assert s == s[..cut] + Block(s, k - 1, size);
      assert t == t[..cut] + Block(t, k - 1, size);
    }
  }

  /** The first `done` of `total` stretches have gone through `f`; the others are untouched. */
  ghost predicate Mapped<T>(was: seq<T>, now: seq<T>, f: (nat, seq<T>) -> seq<T>,
                         size: nat, done: nat, total: nat) {
    && |now| == |was| == Offset(total, size) && done <= total
    && (forall c: nat {:trigger Block(now, c, size)} | c < total ::
          Block(now, c, size) == if c < done then f(c, Block(was, c, size)) else Block(was, c, size))
  }

  lemma {:induction false} MappedStart<T>(was: seq<T>, f: (nat, seq<T>) -> seq<T>, size: nat, total: nat)
    requires |was| == Offset(total, size)
    ensures Mapped(was, was, f, size, 0, total)
  {
  }

  lemma {:induction false} MappedStep<T>(was: seq<T>, mid: seq<T>, now: seq<T>,
                                      f: (nat, seq<T>) -> seq<T>, size: nat, done: nat, total: nat)
    requires Mapped(was, mid, f, size, done, total) && done < total && |now| == |mid|
    requires Offset(done, size) + size <= |mid|
    requires Block(now, done, size) == f(done, Block(mid, done, size))
    requires now[..Offset(done, size)] == mid[..Offset(done, size)]
    requires now[Offset(done, size) + size..] == mid[Offset(done, size) + size..]
    ensures Mapped(was, now, f, size, done + 1, total)
  {
    hide Offset;
    forall c: nat | c < total
      ensures Block(now, c, size) == if c < done + 1 then f(c, Block(was, c, size)) else Block(was, c, size)
    {
      assert Block(mid, c, size) == if c < done then f(c, Block(was, c, size)) else Block(was, c, size);
      if c != done {
        OffsetMonotone(c, total, size);
        BlockElsewhere(mid, now, done, c, size);
      }
    }
  }

  /** A row-major buffer read as an `(n, d)` matrix. */
  function Rows(s: seq<real>, n: nat, d: nat): (m: Mat)
    ensures IsMat(m, n, d)
    ensures forall i, k :: 0 <= i < n && 0 <= k < d ==> At(m, i, k) == Entry(s, i * d + k)
  {
    Build(n, d, (i, k) => Entry(s, i * d + k))
  }

  lemma {:induction false} FlatBound(i: int, k: int, n: nat, d: nat)
    requires 0 <= i < n && 0 <= k < d
    ensures 0 <= i * d + k < n * d
  {
    assert i * d + k < (i + 1) * d <= n * d;
  }

  lemma {:induction false} RowEntry(s: seq<real>, n: nat, d: nat, i: nat, k: nat)
    requires i < n && k < d && |s| == Offset(n, d)
    ensures |Block(s, i, d)| == d
    ensures At(Rows(s, n, d), i, k) == Block(s, i, d)[k]
  {
    FlatBound(i, k, n, d);
    OffsetMonotone(i, n, d);
  }
}
