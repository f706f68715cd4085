/** The sliding buffer node: it emits overlapping windows of its input, a hop apart. */
module SlidingBuffer {
  import opened Blocks

  class SlidingBuffer {
    const windowSize: nat
    const overlap: nat
    const memory: array<real>

    ghost predicate Valid() {
      overlap < windowSize && memory.Length == overlap
    }

    constructor (windowSize: nat, overlap: nat)
      requires overlap < windowSize
      ensures Valid() && this.windowSize == windowSize && this.overlap == overlap
      ensures fresh(memory) && memory[..] == Zeros(overlap)
    {
      this.windowSize := windowSize;
      this.overlap := overlap;
      memory := new real[overlap](_ => 0.0);
    }

    /** run(): the window is the memory and the new samples, and its end is remembered. */
    method Run(a: array<real>, b: array<real>)
      requires Valid() && a.Length == windowSize - overlap && b.Length == windowSize
      requires a != b && a != memory && b != memory
      modifies memory, b
      ensures b[..] == old(memory[..]) + a[..] && memory[..] == (old(memory[..]) + a[..])[windowSize - overlap..]
    {
      ghost var b0, m := b[..], memory[..];
      CopyBlock(b, 0, memory, 0, overlap);
      CopyBlock(b, overlap, a, 0, windowSize - overlap);
      WindowIs(m, a[..], b0);
      CopyBlock(memory, 0, b, windowSize - overlap, overlap);
    }
  }

  /** The two copies put the window together. */
  lemma WindowIs(m: seq<real>, a: seq<real>, b: seq<real>)
    requires |b| == |m| + |a|
    ensures (m[..|m|] + b[|m|..])[..|m|] + a[..|a|] + (m[..|m|] + b[|m|..])[|m| + |a|..] == m + a
  {
    assert (m[..|m|] + b[|m|..])[..|m|] == m;
    assert (m[..|m|] + b[|m|..])[|m| + |a|..] == [];
  }

  // --------------------------------------------------------------------- any number of runs

  datatype Node = Node(windows: seq<seq<real>>, memory: seq<real>)

  predicate Hops(inputs: seq<seq<real>>, hop: nat) {
    forall k :: 0 <= k < |inputs| ==> |inputs[k]| == hop
  }

  function Runs(inputs: seq<seq<real>>, windowSize: nat, overlap: nat): (s: Node)
    requires overlap < windowSize && Hops(inputs, windowSize - overlap)
    ensures |s.memory| == overlap && |s.windows| == |inputs|
    ensures forall k :: 0 <= k < |s.windows| ==> |s.windows[k]| == windowSize
  {
    if inputs == [] then Node([], Zeros(overlap))
    else
      var s := Runs(inputs[..|inputs| - 1], windowSize, overlap);
      var window := s.memory + inputs[|inputs| - 1];
      Node(s.windows + [window], window[windowSize - overlap..])
  }

  function Concat(inputs: seq<seq<real>>): seq<real> {
    if inputs == [] then [] else Concat(inputs[..|inputs| - 1]) + inputs[|inputs| - 1]
  }

  /** The input delayed by the overlap. */
  function Delayed(inputs: seq<seq<real>>, overlap: nat): seq<real> {
    Zeros(overlap) + Concat(inputs)
  }

  /** Window k is the stretch of the delayed input that starts k hops in, and the memory is its end. */
  ghost predicate Described(s: Node, delayed: seq<real>, hop: nat) {
    && |delayed| == Offset(|s.windows|, hop) + |s.memory|
    && s.memory == delayed[Offset(|s.windows|, hop)..]
    && forall k :: 0 <= k < |s.windows| ==> WindowAt(s.windows[k], delayed, Offset(k, hop))
  }

  predicate WindowAt(window: seq<real>, delayed: seq<real>, offset: nat) {
    offset + |window| <= |delayed| && window == delayed[offset..offset + |window|]
  }

  lemma DescribedStep(s: Node, delayed: seq<real>, a: seq<real>, hop: nat)
    requires Described(s, delayed, hop) && |a| == hop
    ensures Described(Node(s.windows + [s.memory + a], (s.memory + a)[hop..]), delayed + a, hop)
  {
    var t := Node(s.windows + [s.memory + a], (s.memory + a)[hop..]);
    var longer := delayed + a;
    forall k | 0 <= k < |t.windows| ensures WindowAt(t.windows[k], longer, Offset(k, hop)) {
      if k < |s.windows| {
        assert WindowAt(s.windows[k], delayed, Offset(k, hop));
      }
    }
  }

  lemma {:induction false} WindowsSlide(inputs: seq<seq<real>>, windowSize: nat, overlap: nat)
    requires overlap < windowSize && Hops(inputs, windowSize - overlap)
    ensures Described(Runs(inputs, windowSize, overlap), Delayed(inputs, overlap), windowSize - overlap)
  {
    if inputs != [] {
      var init, a := inputs[..|inputs| - 1], inputs[|inputs| - 1];
      WindowsSlide(init, windowSize, overlap);
      DescribedStep(Runs(init, windowSize, overlap), Delayed(init, overlap), a, windowSize - overlap);
      assert Zeros(overlap) + (Concat(init) + a) == Delayed(init, overlap) + a;
    }
  }

  /** A run on samples that come from, and go to, elsewhere. */
  method RunOn(node: SlidingBuffer, a: seq<real>) returns (b: seq<real>)
    requires node.Valid() && |a| == node.windowSize - node.overlap
    modifies node.memory
    ensures b == old(node.memory[..]) + a
    ensures node.memory[..] == (old(node.memory[..]) + a)[node.windowSize - node.overlap..]
  {
    var input := new real[|a|](i requires 0 <= i < |a| => a[i]);
    var output := new real[node.windowSize];
    assert input[..] == a;
    node.Run(input, output);
    b := output[..];
  }

  /** A node over any number of inputs emits the windows of the delayed input. */
  method RunAll(inputs: seq<seq<real>>, windowSize: nat, overlap: nat)
    returns (node: SlidingBuffer, windows: seq<seq<real>>)
    requires overlap < windowSize && Hops(inputs, windowSize - overlap)
    ensures node.Valid() && Node(windows, node.memory[..]) == Runs(inputs, windowSize, overlap)
    ensures Described(Node(windows, node.memory[..]), Delayed(inputs, overlap), windowSize - overlap)
  {
    node := new SlidingBuffer(windowSize, overlap);
    windows := [];
    var k := 0;
    while k < |inputs|
      invariant 0 <= k <= |inputs| && node.Valid() && node.windowSize == windowSize && node.overlap == overlap
      invariant fresh(node.memory) && Node(windows, node.memory[..]) == Runs(inputs[..k], windowSize, overlap)
    {
      assert inputs[..k + 1][..k] == inputs[..k];
      var b := RunOn(node, inputs[k]);
      windows := windows + [b];
      k := k + 1;
    }
    assert inputs[..k] == inputs;
    WindowsSlide(inputs, windowSize, overlap);
  }
}
