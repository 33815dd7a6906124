/** The fixed-size block a graph node is stored in: embedding, neighbour count and
    neighbour ids as little-endian 32-bit words, then padding. Floats are bit patterns. */
module Codec {

  newtype byte = x: int | 0 <= x < 256

  const WORDS: nat := 0x1_0000_0000

  type word = w: nat | w < WORDS

  datatype NodeBlock = NodeBlock(embedding: seq<word>, neighbors: seq<word>)

  datatype CodecError =
    | DimMismatch(got: nat, expected: nat)
    | NeighborOverflow(got: nat, max: nat)
    | BlockTooSmall(needed: nat, blockBytes: nat)

  datatype Result<T> = Ok(value: T) | Err(error: CodecError)

  function ToLeBytes(w: word): (b: seq<byte>)
    ensures |b| == 4
  {
    [(w % 256) as byte, (w / 256 % 256) as byte, (w / 65536 % 256) as byte, (w / 16777216) as byte]
  }

  function FromLeBytes(b: seq<byte>): (w: word)
    requires |b| == 4
  {
    b[0] as int + 256 * (b[1] as int) + 65536 * (b[2] as int) + 16777216 * (b[3] as int)
  }

  lemma {:induction false} WordRoundTrip(w: word)
    ensures FromLeBytes(ToLeBytes(w)) == w
  {
    assert w == 256 * (w / 256) + w % 256;
    assert w / 256 == 256 * (w / 65536) + w / 256 % 256;
    assert w / 65536 == 256 * (w / 16777216) + w / 65536 % 256;
  }

  function SerialisedSize(dim: nat, maxNeighbors: nat): nat {
    4 * dim + 4 + 4 * maxNeighbors
  }

  /** The `k`-th word of a block, 0 past the end. */
  function Slot(b: seq<byte>, k: nat): word {
    if 4 * k + 4 <= |b| then FromLeBytes(b[4 * k..4 * k + 4]) else 0
  }

  method WriteSlot(out: array<byte>, k: nat, w: word)
    requires 4 * k + 4 <= out.Length
    modifies out
    ensures Slot(out[..], k) == w
    ensures forall i: nat :: i != k ==> Slot(out[..], i) == old(Slot(out[..], i))
    ensures forall i :: 0 <= i < out.Length && (i < 4 * k || i >= 4 * k + 4) ==> out[i] == old(out[i])
  {
    var b := ToLeBytes(w);
    ghost var was := out[..];
    out[4 * k] := b[0];
    out[4 * k + 1] := b[1];
    out[4 * k + 2] := b[2];
    out[4 * k + 3] := b[3];
    assert out[..][4 * k..4 * k + 4] == b;
    WordRoundTrip(w);
    forall i: nat | i != k
      ensures Slot(out[..], i) == Slot(was, i)
    {
      if 4 * i + 4 <= out.Length {
        assert out[..][4 * i..4 * i + 4] == was[4 * i..4 * i + 4];
      }
    }
  }

  /** A block holds a node; whatever follows the last neighbour is padding. The count field
      is a 32-bit word. */
  ghost predicate Holds(b: seq<byte>, node: NodeBlock, dim: nat) {
    && |node.embedding| == dim
    && |b| >= SerialisedSize(dim, |node.neighbors|)
    && (forall i :: 0 <= i < dim ==> Slot(b, i) == node.embedding[i])
    && Slot(b, dim) == |node.neighbors| % WORDS
    && (forall i {:trigger node.neighbors[i]} | 0 <= i < |node.neighbors| :: Slot(b, dim + 1 + i) == node.neighbors[i])
  }

  /** Embedding, count and neighbours into a zeroed buffer. */
  method WriteNode(out: array<byte>, node: NodeBlock)
    requires out.Length >= SerialisedSize(|node.embedding|, |node.neighbors|)
    requires forall p :: 0 <= p < out.Length ==> out[p] == 0
    modifies out
    ensures Holds(out[..], node, |node.embedding|)
    ensures forall p :: SerialisedSize(|node.embedding|, |node.neighbors|) <= p < out.Length ==> out[p] == 0
  {
    var dim := |node.embedding|;
    hide Slot;
    for i := 0 to dim
      invariant forall k :: 0 <= k < i ==> Slot(out[..], k) == node.embedding[k]
      invariant forall p :: 4 * dim <= p < out.Length ==> out[p] == 0
    {
      WriteSlot(out, i, node.embedding[i]);
    }
    WriteSlot(out, dim, |node.neighbors| % WORDS);
    for i := 0 to |node.neighbors|
      invariant forall k :: 0 <= k < dim ==> Slot(out[..], k) == node.embedding[k]
      invariant Slot(out[..], dim) == |node.neighbors| % WORDS
      invariant forall k {:trigger node.neighbors[k]} | 0 <= k < i :: Slot(out[..], dim + 1 + k) == node.neighbors[k]
      invariant forall p :: SerialisedSize(dim, |node.neighbors|) <= p < out.Length ==> out[p] == 0
    {
      WriteSlot(out, dim + 1 + i, node.neighbors[i]);
    }
  }

  method SerialiseNode(node: NodeBlock, dim: nat, maxNeighbors: nat, blockBytes: nat) returns (r: Result<seq<byte>>)
    ensures |node.embedding| != dim ==> r == Err(DimMismatch(|node.embedding|, dim))
    ensures |node.embedding| == dim && |node.neighbors| > maxNeighbors ==>
              r == Err(NeighborOverflow(|node.neighbors|, maxNeighbors))
    ensures |node.embedding| == dim && |node.neighbors| <= maxNeighbors
            && blockBytes < SerialisedSize(dim, maxNeighbors) ==>
              r == Err(BlockTooSmall(SerialisedSize(dim, maxNeighbors), blockBytes))
    ensures |node.embedding| == dim && |node.neighbors| <= maxNeighbors
            && blockBytes >= SerialisedSize(dim, maxNeighbors) ==>
              && r.Ok? && |r.value| == blockBytes && Holds(r.value, node, dim)
              && forall i :: SerialisedSize(dim, |node.neighbors|) <= i < blockBytes ==> r.value[i] == 0
  {
    if |node.embedding| != dim {
      return Err(DimMismatch(|node.embedding|, dim));
    }
    if |node.neighbors| > maxNeighbors {
      return Err(NeighborOverflow(|node.neighbors|, maxNeighbors));
    }
    var need := SerialisedSize(dim, maxNeighbors);
    if blockBytes < need {
      return Err(BlockTooSmall(need, blockBytes));
    }
    var out := new byte[blockBytes](i => 0);
    hide Slot;
    WriteNode(out, node);
    return Ok(out[..]);
  }

  function Slots(b: seq<byte>, first: nat, count: nat): (s: seq<word>)
    ensures |s| == count
    ensures forall i {:trigger s[i]} | 0 <= i < count :: s[i] == Slot(b, first + i)
  {
    seq<word>(count, i requires 0 <= i < count => Slot(b, first + i))
  }

  /** The node a block is read as. */
  function Decoded(b: seq<byte>, dim: nat, maxNeighbors: nat): NodeBlock {
    var stored := Slot(b, dim);
    var count := if stored < maxNeighbors then stored else maxNeighbors;
    NodeBlock(Slots(b, 0, dim), Slots(b, dim + 1, count))
  }

  method DeserialiseNode(b: seq<byte>, dim: nat, maxNeighbors: nat) returns (r: Result<NodeBlock>)
    ensures r == if |b| < SerialisedSize(dim, maxNeighbors)
            then Err(BlockTooSmall(SerialisedSize(dim, maxNeighbors), |b|))
                 else Ok(Decoded(b, dim, maxNeighbors))
  {
    var need := SerialisedSize(dim, maxNeighbors);
    if |b| < need {
      return Err(BlockTooSmall(need, |b|));
    }
    var embedding: seq<word> := [];
    for i := 0 to dim
      invariant |embedding| == i && forall k :: 0 <= k < i ==> embedding[k] == Slot(b, k)
    {
      embedding := embedding + [FromLeBytes(b[4 * i..4 * i + 4])];
    }
    var count: nat := FromLeBytes(b[4 * dim..4 * dim + 4]);
    if maxNeighbors < count {
      count := maxNeighbors;
    }
    var neighbors: seq<word> := [];
    for i := 0 to count
      invariant |neighbors| == i && forall k :: 0 <= k < i ==> neighbors[k] == Slot(b, dim + 1 + k)
    {
      var off := 4 * dim + 4 + 4 * i;
      neighbors := neighbors + [FromLeBytes(b[off..off + 4])];
    }
    assert embedding == Slots(b, 0, dim) && neighbors == Slots(b, dim + 1, count);
    return Ok(NodeBlock(embedding, neighbors));
  }

  /** Reading back any block that holds a node gives that node, whatever the padding,
      exactly when its neighbour count fits the 32-bit count field. */
  lemma {:induction false} DecodesBack(b: seq<byte>, node: NodeBlock, dim: nat, maxNeighbors: nat)
    requires Holds(b, node, dim) && |node.neighbors| <= maxNeighbors
    ensures Decoded(b, dim, maxNeighbors) == node <==> |node.neighbors| < WORDS
  {
    hide Slot;
    var d := Decoded(b, dim, maxNeighbors);
    if |node.neighbors| < WORDS {
      assert d.embedding == node.embedding;
      assert d.neighbors == node.neighbors;
    } else {
      assert |d.neighbors| < WORDS;
    }
  }

  /** Four bytes of a block as one little-endian word. */
  ghost predicate WordAt(b: seq<byte>, at: nat, w: int) {
    && at + 4 <= |b|
    && w == b[at] as int + 0x100 * b[at + 1] as int + 0x1_0000 * b[at + 2] as int + 0x100_0000 * b[at + 3] as int
  }

  /** The layout in bytes: the embedding from byte 0, the count after it, then the neighbours, four bytes each. */
  lemma {:induction false} ByteLayout(b: seq<byte>, node: NodeBlock, dim: nat)
    requires Holds(b, node, dim)
    ensures |node.embedding| == dim && 4 * (dim + 1 + |node.neighbors|) <= |b|
    ensures forall i: nat {:trigger node.embedding[i]} | i < dim :: WordAt(b, 4 * i, node.embedding[i])
    ensures WordAt(b, 4 * dim, |node.neighbors| % 0x1_0000_0000)
    ensures forall i: nat {:trigger node.neighbors[i]} | i < |node.neighbors| ::
              WordAt(b, 4 * (dim + 1 + i), node.neighbors[i])
  {
    forall k: nat | 4 * k + 4 <= |b|
      ensures WordAt(b, 4 * k, Slot(b, k))
    {
    }
  }

  /** A block is large enough for a node exactly when it has four bytes for every component, for the count and
      for every neighbour there may be. */
  lemma {:induction false} SizeInWords(dim: nat, maxNeighbors: nat, blockBytes: nat)
    ensures blockBytes >= SerialisedSize(dim, maxNeighbors) <==> blockBytes / 4 >= dim + 1 + maxNeighbors
  {
  }

  /** Two nodes that share a block are the same node. */
  lemma {:induction false} BlockInjective(b: seq<byte>, x: NodeBlock, y: NodeBlock, dim: nat)
    requires Holds(b, x, dim) && Holds(b, y, dim) && |x.neighbors| < WORDS && |y.neighbors| < WORDS
    ensures x == y
  {
    var most := if |x.neighbors| < |y.neighbors| then |y.neighbors| else |x.neighbors|;
    DecodesBack(b, x, dim, most);
    DecodesBack(b, y, dim, most);
  }
}
