/** Facts about stretches of sequences. */
module Slices {

  lemma {:induction false} SameInPrefix<T>(s: seq<T>, t: seq<T>, cut: nat, at: nat, len: nat)
    requires cut <= |s| == |t| && at + len <= cut && s[..cut] == t[..cut]
    ensures s[at..at + len] == t[at..at + len]
  {
    assert s[at..at + len] == s[..cut][at..at + len];
    assert t[at..at + len] == t[..cut][at..at + len];
  }

  lemma {:induction false} SameInSuffix<T>(s: seq<T>, t: seq<T>, cut: nat, at: nat, len: nat)
    requires cut <= at && at + len <= |s| == |t| && s[cut..] == t[cut..]
    ensures s[at..at + len] == t[at..at + len]
  {
    var k := at - cut;
    assert s[at..at + len] == s[cut..][k..k + len];
    assert t[at..at + len] == t[cut..][k..k + len];
  }

  lemma {:induction false} SliceOfSlice<T>(s: seq<T>, base: nat, len: nat, at: nat, w: nat)
    requires base + len <= |s| && at + w <= len
    ensures s[base..base + len][at..at + w] == s[base + at..base + at + w]
  {
    var x, y := s[base..base + len][at..at + w], s[base + at..base + at + w];
    forall k | 0 <= k < w
      ensures x[k] == y[k]
    {
      assert x[k] == s[base..base + len][at + k] == s[base + (at + k)];
    }
  }
}
