/** Byte strings that are valid UTF-8 sequences, and their character boundaries. */
module Utf8 {

  type Bytes = seq<nat>

  /** A byte that continues a character. */
  predicate Cont(b: nat) {
    0x80 <= b < 0xC0
  }

  /** Length of the character a lead byte starts; 0 for a byte that starts none. */
  function CharLen(b: nat): nat {
    if b < 0x80 then 1 else if b < 0xC0 then 0 else if b < 0xE0 then 2 else if b < 0xF0 then 3 else if b < 0xF8 then 4
        else 0
  }

  predicate Wf(s: Bytes)
    decreases |s|
  {
    s == [] ||
    (var k := CharLen(s[0]);
     1 <= k <= |s| && (forall i :: 1 <= i < k ==> Cont(s[i])) && Wf(s[k..]))
  }

  predicate IsBoundary(s: Bytes, i: nat) {
    i == 0 || i == |s| || (i < |s| && !Cont(s[i]))
  }

  lemma {:induction false} LeadFirst(s: Bytes)
    requires Wf(s) && s != []
    ensures !Cont(s[0])
  {
  }

  /** A boundary lies within three bytes before any position. */
  lemma {:induction false} BoundaryNear(s: Bytes, i: nat) returns (j: nat)
    requires Wf(s) && i <= |s|
    ensures i <= j + 3 && j <= i && IsBoundary(s, j)
    decreases |s|
  {
    j := 0;
    if s != [] {
      var k := CharLen(s[0]);
      if i >= k {
        var rest := BoundaryNear(s[k..], i - k);
        j := k + rest;
        if rest == 0 && k < |s| {
          LeadFirst(s[k..]);
        }
      }
    }
  }

  /** The rest of a string from a boundary is a string. */
  lemma {:induction false} SuffixWf(s: Bytes, a: nat)
    requires Wf(s) && a <= |s| && IsBoundary(s, a)
    ensures Wf(s[a..])
    decreases |s|
  {
    if a == 0 {
      assert s[a..] == s;
    } else if a == |s| {
      assert s[a..] == [];
    } else {
      var k := CharLen(s[0]);
      assert a >= k;
      assert a - k == 0 || s[k..][a - k] == s[a];
      SuffixWf(s[k..], a - k);
      assert s[k..][a - k..] == s[a..];
    }
  }

  /** So is the part before a boundary. */
  lemma {:induction false} PrefixWf(s: Bytes, b: nat)
    requires Wf(s) && b <= |s| && IsBoundary(s, b)
    ensures Wf(s[..b])
    decreases |s|
  {
    if b > 0 && s != [] {
      var k := CharLen(s[0]);
      assert b >= k;
      assert b - k == 0 || b == |s| || s[k..][b - k] == s[b];
      PrefixWf(s[k..], b - k);
      var p := s[..b];
      assert p[k..] == s[k..][..b - k];
    }
  }

  lemma {:induction false} SliceWf(s: Bytes, a: nat, b: nat)
    requires Wf(s) && a <= b <= |s| && IsBoundary(s, a) && IsBoundary(s, b)
    ensures Wf(s[a..b])
  {
    SuffixWf(s, a);
    if b < |s| && b > a {
      assert s[a..][b - a] == s[b];
    }
    PrefixWf(s[a..], b - a);
    assert s[a..][..b - a] == s[a..b];
  }

  /** Boundaries of a slice are boundaries of the whole. */
  lemma {:induction false} SliceBoundary(s: Bytes, a: nat, b: nat, i: nat)
    requires a <= b <= |s| && IsBoundary(s, a) && IsBoundary(s, b) && i <= b - a
    ensures IsBoundary(s[a..b], i) <==> IsBoundary(s, a + i) || i == 0 || i == b - a
    ensures IsBoundary(s[a..b], i) ==> IsBoundary(s, a + i)
  {
    if 0 < i < b - a {
      assert s[a..b][i] == s[a + i];
    }
  }

  /** A string that starts with a string continues at a boundary. */
  lemma {:induction false} PrefixEnds(u: Bytes, sep: Bytes)
    requires Wf(u) && Wf(sep) && |sep| <= |u| && u[..|sep|] == sep
    ensures IsBoundary(u, |sep|)
    decreases |sep|
  {
    if sep != [] {
      var k := CharLen(sep[0]);
      assert u[0] == u[..|sep|][0] == sep[0];
      var rest, more := u[k..], sep[k..];
      assert rest[..|more|] == u[..|sep|][k..] == more;
      PrefixEnds(rest, more);
      if |sep| < |u| {
        assert rest[|more|] == u[|sep|];
        if |more| == 0 {
          LeadFirst(rest);
        }
      }
    }
  }

  // ─── characters ───

  const MAX_CODE := 0x10FFFF

  /** The UTF-8 form of a code point. */
  function Encode(c: nat): Bytes
    requires c <= MAX_CODE
  {
    if c < 0x80 then [c]
    else if c < 0x800 then [0xC0 + c / 64, 0x80 + c % 64]
    else if c < 0x1_0000 then [0xE0 + c / 4096, 0x80 + c / 64 % 64, 0x80 + c % 64]
    else [0xF0 + c / 262144, 0x80 + c / 4096 % 64, 0x80 + c / 64 % 64, 0x80 + c % 64]
  }

  ghost predicate AreCodes(cs: seq<nat>) {
    forall i :: 0 <= i < |cs| ==> cs[i] <= MAX_CODE
  }

  /** A text written character by character. */
  function Text(cs: seq<nat>): Bytes
    requires AreCodes(cs)
  {
    if cs == [] then [] else Encode(cs[0]) + Text(cs[1..])
  }

  lemma {:induction false} EncodeShape(c: nat)
    requires c <= MAX_CODE
    ensures var e := Encode(c);
            |e| == CharLen(e[0]) >= 1 && !Cont(e[0]) && forall i :: 1 <= i < |e| ==> Cont(e[i])
  {
  }

  /** Every text is valid. */
  lemma {:induction false} TextWf(cs: seq<nat>)
    requires AreCodes(cs)
    ensures Wf(Text(cs))
    decreases |cs|
  {
    if cs != [] {
      TextWf(cs[1..]);
      EncodeShape(cs[0]);
      hide Encode, CharLen, Cont;
      var e := Encode(cs[0]);
      assert Text(cs)[|e|..] == Text(cs[1..]);
    }
  }

  lemma {:induction false} TextFirst(cs: seq<nat>, k: nat)
    requires AreCodes(cs) && 0 < k <= |cs|
    ensures Text(cs[..k]) == Encode(cs[0]) + Text(cs[1..][..k - 1])
  {
    assert cs[..k][1..] == cs[1..][..k - 1];
  }

  /** The boundaries of a text are exactly the places where one of its characters ends or the first
      one starts. */
  lemma {:induction false} BoundariesAre(cs: seq<nat>, i: nat)
    requires AreCodes(cs) && i <= |Text(cs)|
    ensures IsBoundary(Text(cs), i) <==> exists k :: 0 <= k <= |cs| && i == |Text(cs[..k])|
    decreases |cs|
  {
    hide Encode, CharLen, Cont;
    assert Text(cs[..0]) == [] && cs[..|cs|] == cs;
    if cs != [] && i > 0 {
      EncodeShape(cs[0]);
      var e, rest := Encode(cs[0]), Text(cs[1..]);
      if i < |e| {
        assert Cont(Text(cs)[i]);
        forall k | 0 < k <= |cs|
          ensures |Text(cs[..k])| >= |e|
        {
          TextFirst(cs, k);
        }
      } else {
        RestBoundary(cs, i);
        BoundariesAre(cs[1..], i - |e|);
        forall k | 0 < k <= |cs|
          ensures |Text(cs[..k])| == |e| + |Text(cs[1..][..k - 1])|
        {
          TextFirst(cs, k);
        }
        if k :| 0 <= k <= |cs[1..]| && i - |e| == |Text(cs[1..][..k])| {
          assert i == |Text(cs[..k + 1])|;
        }
      }
    }
  }

  lemma {:induction false} RestBoundary(cs: seq<nat>, i: nat)
    requires AreCodes(cs) && cs != [] && |Encode(cs[0])| <= i <= |Text(cs)|
    ensures IsBoundary(Text(cs), i) <==> IsBoundary(Text(cs[1..]), i - |Encode(cs[0])|)
  {
    hide Encode, CharLen, Cont;
    EncodeShape(cs[0]);
    var e, rest := Encode(cs[0]), Text(cs[1..]);
    if i < |Text(cs)| {
      assert Text(cs)[i] == rest[i - |e|];
      if i == |e| {
        EncodeShape(cs[1]);
        assert rest[0] == Encode(cs[1])[0];
      }
    }
  }

  // ─── moving to a boundary ───

  function Floor(s: Bytes, i: nat): (j: nat)
    ensures j <= |s| && (i <= |s| ==> j <= i) && IsBoundary(s, j)
    ensures i >= |s| ==> j == |s|
    ensures forall b: nat :: b <= i && b <= |s| && IsBoundary(s, b) ==> b <= j
  {
    if i >= |s| then |s| else if i == 0 || !Cont(s[i]) then i else Floor(s, i - 1)
  }

  function Ceil(s: Bytes, i: nat): (j: nat)
    ensures j <= |s| && (i <= |s| ==> i <= j) && IsBoundary(s, j)
    ensures forall b: nat :: i <= b <= |s| && IsBoundary(s, b) ==> j <= b
    decreases |s| - i
  {
    if i >= |s| then |s| else if i == 0 || !Cont(s[i]) then i else Ceil(s, i + 1)
  }

  method FloorCharBoundary(s: Bytes, index: nat) returns (i: nat)
    ensures i == Floor(s, index)
  {
    if index >= |s| {
      return |s|;
    }
    i := index;
    while i > 0 && !IsBoundary(s, i)
      invariant i <= index && Floor(s, index) == Floor(s, i)
    {
      i := i - 1;
    }
  }

  method CeilCharBoundary(s: Bytes, index: nat) returns (i: nat)
    ensures i == Ceil(s, index)
  {
    if index >= |s| {
      return |s|;
    }
    i := index;
    while i < |s| && !IsBoundary(s, i)
      invariant index <= i <= |s| && Ceil(s, index) == Ceil(s, i)
    {
      i := i + 1;
    }
  }

  lemma {:induction false} FloorNear(s: Bytes, i: nat)
    requires Wf(s) && i <= |s|
    ensures i <= Floor(s, i) + 3
  {
    var j := BoundaryNear(s, i);
  }
}
