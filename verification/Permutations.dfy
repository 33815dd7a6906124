/** Rows moved by a permutation and moved back. */
module Permutations {
  import opened Sums
  import opened LinAlg

  /** Row `i` of the result is row `perm[i]` of `m`. */
  function Permuted(m: Mat, perm: seq<nat>): (r: Mat)
    requires forall i :: 0 <= i < |perm| ==> perm[i] < |m|
    ensures |r| == |perm|
    ensures forall i {:trigger r[i]} | 0 <= i < |perm| :: r[i] == m[perm[i]]
  {
    seq(|perm|, i requires 0 <= i < |perm| => m[perm[i]])
  }

  lemma {:induction false} PlaceExists(perm: seq<nat>, r: nat)
    requires IsPerm(perm, |perm|) && r < |perm|
    ensures exists i: nat :: i < |perm| && perm[i] == r
  {
    var i := PermOnto(perm, |perm|, r);
  }

  /** Where `r` went. */
  ghost function Place(perm: seq<nat>, r: nat): (i: nat)
    requires IsPerm(perm, |perm|) && r < |perm|
    ensures i < |perm| && perm[i] == r
  {
    PlaceExists(perm, r);
    var i: nat :| i < |perm| && perm[i] == r;
    i
  }

  method PermuteRows(m: Mat, perm: seq<nat>) returns (out: Mat)
    requires IsPerm(perm, |m|)
    ensures out == Permuted(m, perm)
  {
    var rows := new seq<real>[|perm|](i => []);
    for i := 0 to |perm|
      invariant forall r {:trigger rows[r]} | 0 <= r < i :: rows[r] == m[perm[r]]
    {
      rows[i] := m[perm[i]];
    }
    out := rows[..];
  }

  /** Row `i` goes back to row `perm[i]`. */
  method RecoverRows(m: Mat, perm: seq<nat>) returns (out: Mat)
    requires IsPerm(perm, |m|)
    ensures |out| == |m| && Permuted(out, perm) == m
  {
    var rows := new seq<real>[|perm|](i => []);
    for i := 0 to |perm|
      invariant forall r {:trigger perm[r]} | 0 <= r < i :: rows[perm[r]] == m[r]
    {
      rows[perm[i]] := m[i];
    }
    out := rows[..];
  }

  lemma {:induction false} PermutedInjective(a: Mat, b: Mat, perm: seq<nat>)
    requires IsPerm(perm, |perm|) && |a| == |b| == |perm| && Permuted(a, perm) == Permuted(b, perm)
    ensures a == b
  {
    forall r | 0 <= r < |a|
      ensures a[r] == b[r]
    {
      var i := Place(perm, r);
      assert Permuted(a, perm)[i] == Permuted(b, perm)[i];
    }
  }
}
