/** Memory copies and sums of shifted blocks, for the nodes that work on overlapping windows. Samples are reals:
    rounding is left out. */
module Blocks {

  /** memcpy between two arrays. */
  method CopyBlock(dst: array<real>, to: nat, src: array<real>, from: nat, count: nat)
    requires dst != src && to + count <= dst.Length && from + count <= src.Length
    modifies dst
    ensures dst[..] == old(dst[..to]) + src[from..from + count] + old(dst[to + count..])
  {
    var i := 0;
    while i < count
      invariant 0 <= i <= count
      invariant forall k :: 0 <= k < dst.Length ==>
        dst[k] == if to <= k < to + i then src[from + k - to] else old(dst[k])
    {
      dst[to + i] := src[from + i];
      i := i + 1;
    }
  }

  /** memmove towards the start of an array. */
  method MoveDown(a: array<real>, from: nat, count: nat)
    requires from + count <= a.Length
    modifies a
    ensures a[..] == old(a[from..from + count]) + old(a[count..])
  {
    var i := 0;
    while i < count
      invariant 0 <= i <= count
      invariant forall k :: 0 <= k < a.Length ==> a[k] == if k < i then old(a[from + k]) else old(a[k])
    {
      a[i] := a[from + i];
      i := i + 1;
    }
  }

  function Zeros(n: nat): (z: seq<real>)
    ensures |z| == n && forall i :: 0 <= i < n ==> z[i] == 0.0
  {
    seq(n, _ => 0.0)
  }

  /** `k` hops. */
  function Offset(k: nat, hop: nat): nat {
    if k == 0 then 0 else Offset(k - 1, hop) + hop
  }

  /** A block is zero outside of its samples. */
  function At(a: seq<real>, i: int): real {
    if 0 <= i < |a| then a[i] else 0.0
  }

  /** The sum over all blocks of a_k[n - k * hop]. */
  function ShiftedSum(blocks: seq<seq<real>>, hop: nat, n: int): real {
    if blocks == [] then 0.0
    else
      var k := |blocks| - 1;
      ShiftedSum(blocks[..k], hop, n) + At(blocks[k], n - Offset(k, hop))
  }

  lemma ShiftedSumLast(blocks: seq<seq<real>>, a: seq<real>, hop: nat, n: int)
    ensures ShiftedSum(blocks + [a], hop, n) == ShiftedSum(blocks, hop, n) + At(a, n - Offset(|blocks|, hop))
  {
    assert (blocks + [a])[..|blocks|] == blocks;
  }
}
