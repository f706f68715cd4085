/** The overlap-add node: windows of `windowSize` samples, each starting a hop after the one before, are added
    up. */
module OverlapAdd {
  import opened Blocks

  /** What is still to be emitted, lengthened by zeros, plus the window. */
  function Accumulated(memory: seq<real>, a: seq<real>): (s: seq<real>)
    requires |memory| <= |a|
    ensures |s| == |a|
  {
    seq(|a|, i requires 0 <= i < |a| => At(memory, i) + a[i])
  }

  class OverlapAdd {
    const windowSize: nat
    const overlap: nat
    const memory: array<real>

    ghost predicate Valid() {
      overlap < windowSize && memory.Length == overlap
    }

    constructor (windowSize: nat, overlap: nat)
      requires overlap < windowSize
      ensures Valid() && this.windowSize == windowSize && this.overlap == overlap
      ensures fresh(memory) && memory[..] == Zeros(overlap)
    {
      this.windowSize := windowSize;
      this.overlap := overlap;
      memory := new real[overlap](_ => 0.0);
    }

    method AddWindow(a: array<real>)
      requires Valid() && a.Length == windowSize && a != memory
      modifies memory
      ensures memory[..] == Accumulated(old(memory[..]), a[..])[..overlap]
    {
      var i := 0;
      while i < overlap
        invariant 0 <= i <= overlap
        invariant forall k :: 0 <= k < overlap ==> memory[k] == if k < i then old(memory[k]) + a[k] else old(memory[k])
      {
        memory[i] := a[i] + memory[i];
        i := i + 1;
      }
    }

    /** run(): all three branches emit the first hop of the accumulated window and keep the rest. */
    method Run(a: array<real>, b: array<real>)
      requires Valid() && a.Length == windowSize && b.Length == windowSize - overlap
      requires a != b && a != memory && b != memory
      modifies memory, b
      ensures b[..] == Accumulated(old(memory[..]), a[..])[..windowSize - overlap]
      ensures memory[..] == Accumulated(old(memory[..]), a[..])[windowSize - overlap..]
    {
      ghost var sum := Accumulated(memory[..], a[..]);
      AddWindow(a);
      if 2 * overlap - windowSize > 0 {
        LongOverlap(a, b, sum);
      } else if 2 * overlap - windowSize < 0 {
        ShortOverlap(a, b, sum);
      } else {
        HalfOverlap(a, b, sum);
      }
    }

    method HalfOverlap(a: array<real>, b: array<real>, ghost sum: seq<real>)
      requires Valid() && a.Length == windowSize && b.Length == windowSize - overlap && 2 * overlap == windowSize
      requires a != b && a != memory && b != memory
      requires |sum| == windowSize && memory[..] == sum[..overlap] && sum[overlap..] == a[overlap..]
      modifies memory, b
      ensures b[..] == sum[..windowSize - overlap] && memory[..] == sum[windowSize - overlap..]
    {
      CopyBlock(b, 0, memory, 0, overlap);
      CopyBlock(memory, 0, a, overlap, overlap);
    }

    method LongOverlap(a: array<real>, b: array<real>, ghost sum: seq<real>)
      requires Valid() && a.Length == windowSize && b.Length == windowSize - overlap && 2 * overlap > windowSize
      requires a != b && a != memory && b != memory
      requires |sum| == windowSize && memory[..] == sum[..overlap] && sum[overlap..] == a[overlap..]
      modifies memory, b
      ensures b[..] == sum[..windowSize - overlap] && memory[..] == sum[windowSize - overlap..]
    {
      CopyBlock(b, 0, memory, 0, windowSize - overlap);
      KeepLong(a, sum);
    }

    method KeepLong(a: array<real>, ghost sum: seq<real>)
      requires Valid() && a.Length == windowSize && 2 * overlap > windowSize && a != memory
      requires |sum| == windowSize && memory[..] == sum[..overlap] && sum[overlap..] == a[overlap..]
      modifies memory
      ensures memory[..] == sum[windowSize - overlap..]
    {
      ghost var m := memory[..];
      MoveDown(memory, windowSize - overlap, 2 * overlap - windowSize);
      CopyBlock(memory, 2 * overlap - windowSize, a, overlap, windowSize - overlap);
      KeptLong(sum, a[..], m, overlap);
    }

    method ShortOverlap(a: array<real>, b: array<real>, ghost sum: seq<real>)
      requires Valid() && a.Length == windowSize && b.Length == windowSize - overlap && 2 * overlap < windowSize
      requires a != b && a != memory && b != memory
      requires |sum| == windowSize && memory[..] == sum[..overlap] && sum[overlap..] == a[overlap..]
      modifies memory, b
      ensures b[..] == sum[..windowSize - overlap] && memory[..] == sum[windowSize - overlap..]
    {
      EmitShort(a, b, sum);
      CopyBlock(memory, 0, a, windowSize - overlap, overlap);
      assert sum[windowSize - overlap..] == a[..][windowSize - overlap..];
    }

    method EmitShort(a: array<real>, b: array<real>, ghost sum: seq<real>)
      requires Valid() && a.Length == windowSize && b.Length == windowSize - overlap && 2 * overlap < windowSize
      requires a != b && b != memory
      requires |sum| == windowSize && memory[..] == sum[..overlap] && sum[overlap..] == a[overlap..]
      modifies b
      ensures b[..] == sum[..windowSize - overlap]
    {
      ghost var b0, m := b[..], memory[..];
      CopyBlock(b, 0, memory, 0, overlap);
      CopyBlock(b, overlap, a, overlap, windowSize - 2 * overlap);
      EmittedShort(sum, a[..], m, b0, overlap);
    }
  }

  /** The copies of the first branch put the memory together. */
  lemma KeptLong(sum: seq<real>, a: seq<real>, m: seq<real>, v: nat)
    requires |sum| == |a| && v < |a| < 2 * v && m == sum[..v] && sum[v..] == a[v..]
    ensures var hop, keep := |a| - v, 2 * v - |a|;
            (m[hop..hop + keep] + m[keep..])[..keep] + a[v..v + hop] + (m[hop..hop + keep] + m[keep..])[keep + hop..]
            == sum[hop..]
  {
    var hop, keep := |a| - v, 2 * v - |a|;
    assert (m[hop..hop + keep] + m[keep..])[..keep] == sum[hop..v];
    assert (m[hop..hop + keep] + m[keep..])[keep + hop..] == [];
    assert a[v..v + hop] == sum[v..];
    assert sum[hop..v] + sum[v..] == sum[hop..];
  }

  /** The copies of the second branch put the output together. */
  lemma EmittedShort(sum: seq<real>, a: seq<real>, m: seq<real>, b: seq<real>, v: nat)
    requires |sum| == |a| && 2 * v < |a| && m == sum[..v] && sum[v..] == a[v..] && |b| == |a| - v
    ensures (m[..v] + b[v..])[..v] + a[v..|a| - v] + (m[..v] + b[v..])[|a| - v..] == sum[..|a| - v]
  {
    assert (m[..v] + b[v..])[..v] == sum[..v];
    assert (m[..v] + b[v..])[|a| - v..] == [];
    assert a[v..|a| - v] == sum[v..|a| - v];
  }

  // --------------------------------------------------------------------- any number of runs

  /** What the node has emitted and what it keeps after the windows. */
  datatype Node = Node(emitted: seq<real>, memory: seq<real>)

  predicate Windows(windows: seq<seq<real>>, windowSize: nat) {
    forall k :: 0 <= k < |windows| ==> |windows[k]| == windowSize
  }

  function Runs(windows: seq<seq<real>>, windowSize: nat, overlap: nat): (s: Node)
    requires overlap < windowSize && Windows(windows, windowSize)
    ensures |s.memory| == overlap
  {
    if windows == [] then Node([], Zeros(overlap))
    else
      var s := Runs(windows[..|windows| - 1], windowSize, overlap);
      var sum := Accumulated(s.memory, windows[|windows| - 1]);
      Node(s.emitted + sum[..windowSize - overlap], sum[windowSize - overlap..])
  }

  /** The n-th emitted sample is the sum of a_k[n - k * hop] over all windows, the memory holds exactly the sums
      that are still to come, and there is nothing beyond it. */
  ghost predicate Described(s: Node, windows: seq<seq<real>>, hop: nat) {
    && |s.emitted| == Offset(|windows|, hop)
    && (forall n :: 0 <= n < |s.emitted| ==> s.emitted[n] == ShiftedSum(windows, hop, n))
    && (forall i :: i >= 0 ==> At(s.memory, i) == ShiftedSum(windows, hop, |s.emitted| + i))
  }

  /** One window more: what is accumulated is the sum from the end of what was emitted on. */
  lemma AccumulatedIsSum(s: Node, windows: seq<seq<real>>, a: seq<real>, hop: nat, i: nat)
    requires Described(s, windows, hop) && |s.memory| <= |a|
    ensures At(Accumulated(s.memory, a), i) == ShiftedSum(windows + [a], hop, |s.emitted| + i)
  {
    ShiftedSumLast(windows, a, hop, |s.emitted| + i);
    assert At(s.memory, i) == ShiftedSum(windows, hop, |s.emitted| + i);
  }

  lemma DescribedStep(s: Node, windows: seq<seq<real>>, a: seq<real>, hop: nat)
    requires Described(s, windows, hop) && |s.memory| + hop == |a|
    ensures var sum := Accumulated(s.memory, a);
            Described(Node(s.emitted + sum[..hop], sum[hop..]), windows + [a], hop)
  {
    var sum := Accumulated(s.memory, a);
    var t := Node(s.emitted + sum[..hop], sum[hop..]);
    forall n | 0 <= n < |t.emitted| ensures t.emitted[n] == ShiftedSum(windows + [a], hop, n) {
      if n < |s.emitted| {
        ShiftedSumLast(windows, a, hop, n);
      } else {
        AccumulatedIsSum(s, windows, a, hop, n - |s.emitted|);
      }
    }
    forall i | i >= 0 ensures At(t.memory, i) == ShiftedSum(windows + [a], hop, |t.emitted| + i) {
      AccumulatedIsSum(s, windows, a, hop, hop + i);
    }
  }

  /** Overlap-add is the sum of the shifted windows, after any number of runs. */
  lemma {:induction false} OverlapAddIsShiftedSum(windows: seq<seq<real>>, windowSize: nat, overlap: nat)
    requires overlap < windowSize && Windows(windows, windowSize)
    ensures Described(Runs(windows, windowSize, overlap), windows, windowSize - overlap)
  {
    if windows != [] {
      var init, a := windows[..|windows| - 1], windows[|windows| - 1];
      OverlapAddIsShiftedSum(init, windowSize, overlap);
      DescribedStep(Runs(init, windowSize, overlap), init, a, windowSize - overlap);
      assert windows == init + [a];
    }
  }

  /** A run on samples that come from, and go to, elsewhere. */
  method RunOn(node: OverlapAdd, a: seq<real>) returns (b: seq<real>)
    requires node.Valid() && |a| == node.windowSize
    modifies node.memory
    ensures b == Accumulated(old(node.memory[..]), a)[..node.windowSize - node.overlap]
    ensures node.memory[..] == Accumulated(old(node.memory[..]), a)[node.windowSize - node.overlap..]
  {
    var input := new real[|a|](i requires 0 <= i < |a| => a[i]);
    var output := new real[node.windowSize - node.overlap];
    assert input[..] == a;
    node.Run(input, output);
    b := output[..];
  }

  /** A node over any number of windows emits the shifted sums, and keeps those that are still to come. */
  method RunAll(windows: seq<seq<real>>, windowSize: nat, overlap: nat) returns (node: OverlapAdd, emitted: seq<real>)
    requires overlap < windowSize && Windows(windows, windowSize)
    ensures node.Valid() && Node(emitted, node.memory[..]) == Runs(windows, windowSize, overlap)
    ensures Described(Node(emitted, node.memory[..]), windows, windowSize - overlap)
  {
    node := new OverlapAdd(windowSize, overlap);
    emitted := [];
    var k := 0;
    while k < |windows|
      invariant 0 <= k <= |windows| && node.Valid() && node.windowSize == windowSize && node.overlap == overlap
      invariant fresh(node.memory) && Node(emitted, node.memory[..]) == Runs(windows[..k], windowSize, overlap)
    {
      assert windows[..k + 1][..k] == windows[..k];
      var b := RunOn(node, windows[k]);
      emitted := emitted + b;
      k := k + 1;
    }
    assert windows[..k] == windows;
    OverlapAddIsShiftedSum(windows, windowSize, overlap);
  }
}
