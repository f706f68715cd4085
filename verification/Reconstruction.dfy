/** A sliding buffer, a window and an overlap-add in a row give the signal back. */
module Reconstruction {
  import opened Blocks
  import OverlapAdd
  import SlidingBuffer

  /** The window's samples i, i + hop, i + 2 * hop and so on added up. */
  function HopSum(w: seq<real>, hop: nat, i: nat): real
    requires hop > 0
    decreases |w| - i
  {
    if i >= |w| then 0.0 else w[i] + HopSum(w, hop, i + hop)
  }

  /** The condition on the window: its hop-shifted samples sum to one. */
  predicate SumsToOne(w: seq<real>, hop: nat)
    requires hop > 0
  {
    forall r :: 0 <= r < hop ==> HopSum(w, hop, r) == 1.0
  }

  /** The window's samples n, n - hop, n - 2 * hop and so on. */
  function DownSum(w: seq<real>, hop: nat, n: nat): real
    requires hop > 0
  {
    At(w, n) + if n >= hop then DownSum(w, hop, n - hop) else 0.0
  }

  /** Going down from n and up from there meets every shifted sample once. */
  lemma {:induction false} DownAndUp(w: seq<real>, hop: nat, n: nat)
    requires hop > 0 && SumsToOne(w, hop)
    ensures DownSum(w, hop, n) + HopSum(w, hop, n + hop) == 1.0
  {
    if n >= hop {
      DownAndUp(w, hop, n - hop);
    } else {
      assert HopSum(w, hop, n) == 1.0;
    }
  }

  /** The shifted windows at n, the first window first. */
  function WindowSum(w: seq<real>, hop: nat, k: nat, n: int): real {
    if k == 0 then 0.0 else At(w, n) + WindowSum(w, hop, k - 1, n - hop)
  }

  lemma {:induction false} WindowSumLast(w: seq<real>, hop: nat, k: nat, n: int)
    ensures WindowSum(w, hop, k + 1, n) == WindowSum(w, hop, k, n) + At(w, n - Offset(k, hop))
  {
    if k > 0 {
      WindowSumLast(w, hop, k - 1, n - hop);
    }
  }

  /** The same, the last window first. */
  function WindowSumBack(w: seq<real>, hop: nat, k: nat, n: int): real {
    if k == 0 then 0.0 else WindowSumBack(w, hop, k - 1, n) + At(w, n - Offset(k - 1, hop))
  }

  lemma {:induction false} BackAndForth(w: seq<real>, hop: nat, k: nat, n: int)
    ensures WindowSumBack(w, hop, k, n) == WindowSum(w, hop, k, n)
  {
    if k > 0 {
      BackAndForth(w, hop, k - 1, n);
      WindowSumLast(w, hop, k - 1, n);
    }
  }

  lemma {:induction false} WindowSumNegative(w: seq<real>, hop: nat, k: nat, n: int)
    requires n < 0
    ensures WindowSum(w, hop, k, n) == 0.0
  {
    if k > 0 {
      WindowSumNegative(w, hop, k - 1, n - hop);
    }
  }

  lemma {:induction false} WindowSumIsDownSum(w: seq<real>, hop: nat, k: nat, n: nat)
    requires hop > 0 && n < Offset(k, hop)
    ensures WindowSum(w, hop, k, n) == DownSum(w, hop, n)
  {
    if n >= hop {
      WindowSumIsDownSum(w, hop, k - 1, n - hop);
    } else {
      WindowSumNegative(w, hop, k - 1, n - hop);
    }
  }

  /** Where all windows have started, they sum to one. */
  lemma WindowsSumToOne(w: seq<real>, hop: nat, k: nat, n: nat)
    requires hop > 0 && SumsToOne(w, hop) && n < Offset(k, hop) && n + hop >= |w|
    ensures WindowSum(w, hop, k, n) == 1.0
  {
    WindowSumIsDownSum(w, hop, k, n);
    DownAndUp(w, hop, n);
  }

  /** Pointwise multiplication by the window. */
  function Weighted(w: seq<real>, b: seq<real>): (a: seq<real>)
    ensures |a| == |b|
  {
    seq(|b|, i requires 0 <= i < |b| => At(w, i) * b[i])
  }

  function WeightedAll(w: seq<real>, bs: seq<seq<real>>): (ws: seq<seq<real>>)
    ensures |ws| == |bs| && forall k :: 0 <= k < |bs| ==> ws[k] == Weighted(w, bs[k])
  {
    seq(|bs|, k requires 0 <= k < |bs| => Weighted(w, bs[k]))
  }

  /** The windows slide over the signal. */
  predicate SlideOver(bs: seq<seq<real>>, signal: seq<real>, size: nat, hop: nat) {
    forall k :: 0 <= k < |bs| ==> |bs[k]| == size && SlidingBuffer.WindowAt(bs[k], signal, Offset(k, hop))
  }

  lemma WeightedAt(w: seq<real>, b: seq<real>, signal: seq<real>, offset: nat, n: nat)
    requires |b| == |w| && SlidingBuffer.WindowAt(b, signal, offset) && n < |signal|
    ensures At(Weighted(w, b), n - offset) == signal[n] * At(w, n - offset)
  {
    if 0 <= n - offset < |b| {
      assert b[n - offset] == signal[n];
    }
  }

  predicate AdditiveAt(scale: real -> real, a: real, b: real, c: real) {
    c == a + b ==> scale(c) == scale(a) + scale(b)
  }

  /** Scaling by a sample. */
  ghost predicate Additive(scale: real -> real) {
    scale(0.0) == 0.0 && forall a, b, c :: AdditiveAt(scale, a, b, c)
  }

  predicate ContributesAt(block: seq<real>, w: seq<real>, scale: real -> real, i: int) {
    At(block, i) == scale(At(w, i))
  }

  /** Every sample comes back as often as the shifted windows sum to. */
  ghost predicate Contribute(blocks: seq<seq<real>>, w: seq<real>, scale: real -> real, hop: nat, n: nat) {
    forall k :: 0 <= k < |blocks| ==> ContributesAt(blocks[k], w, scale, n - Offset(k, hop))
  }

  lemma {:induction false} SumOfWeighted(w: seq<real>, blocks: seq<seq<real>>, scale: real -> real, hop: nat, n: nat, k: nat)
    returns (total: real)
    requires k <= |blocks| && Additive(scale) && Contribute(blocks, w, scale, hop, n)
    ensures total == WindowSumBack(w, hop, k, n) && ShiftedSum(blocks[..k], hop, n) == scale(total)
  {
    if k == 0 {
      total := 0.0;
    } else {
      var x := SumOfWeighted(w, blocks, scale, hop, n, k - 1);
      assert ContributesAt(blocks[k - 1], w, scale, n - Offset(k - 1, hop));
      var sum;
      sum, total := SumStep(scale, blocks[k - 1], w, n - Offset(k - 1, hop), ShiftedSum(blocks[..k - 1], hop, n), x);
      ShiftedSumLast(blocks[..k - 1], blocks[k - 1], hop, n);
      assert blocks[..k - 1] + [blocks[k - 1]] == blocks[..k];
    }
  }

  lemma SumStep(scale: real -> real, block: seq<real>, w: seq<real>, i: int, a: real, x: real)
    returns (sum: real, total: real)
    requires Additive(scale) && ContributesAt(block, w, scale, i) && a == scale(x)
    ensures sum == a + At(block, i) && total == x + At(w, i) && sum == scale(total)
  {
    sum, total := a + At(block, i), x + At(w, i);
    assert AdditiveAt(scale, x, At(w, i), total);
  }

  function Times(x: real): real -> real {
    y => x * y
  }

  lemma TimesIsAdditive(x: real)
    ensures Additive(Times(x))
  {
    forall a, b, c ensures AdditiveAt(Times(x), a, b, c) {
    }
  }

  lemma WeightedContributes(w: seq<real>, bs: seq<seq<real>>, signal: seq<real>, hop: nat, n: nat, k: nat)
    requires SlideOver(bs, signal, |w|, hop) && n < |signal| && k < |bs|
    ensures ContributesAt(Weighted(w, bs[k]), w, Times(signal[n]), n - Offset(k, hop))
  {
    WeightedAt(w, bs[k], signal, Offset(k, hop), n);
  }

  lemma WeightedContribute(w: seq<real>, bs: seq<seq<real>>, signal: seq<real>, hop: nat, n: nat)
    requires SlideOver(bs, signal, |w|, hop) && n < |signal|
    ensures forall k :: 0 <= k < |bs| ==> ContributesAt(WeightedAll(w, bs)[k], w, Times(signal[n]), n - Offset(k, hop))
  {
    forall k | 0 <= k < |bs| ensures ContributesAt(WeightedAll(w, bs)[k], w, Times(signal[n]), n - Offset(k, hop)) {
      WeightedContributes(w, bs, signal, hop, n, k);
    }
  }

  /** The sum over the weighted windows at n. */
  lemma SumOverWindows(w: seq<real>, bs: seq<seq<real>>, signal: seq<real>, hop: nat, n: nat)
    requires SlideOver(bs, signal, |w|, hop) && n < |signal|
    ensures ShiftedSum(WeightedAll(w, bs), hop, n) == Times(signal[n])(WindowSum(w, hop, |bs|, n))
  {
    WeightedContribute(w, bs, signal, hop, n);
    TimesIsAdditive(signal[n]);
    var blocks := WeightedAll(w, bs);
    var total := SumOfWeighted(w, blocks, Times(signal[n]), hop, n, |bs|);
    assert blocks[..|bs|] == blocks;
    BackAndForth(w, hop, |bs|, n);
  }

  /** The overlap-add node behind the chain. */
  function ChainNode(inputs: seq<seq<real>>, w: seq<real>, overlap: nat): OverlapAdd.Node
    requires overlap < |w| && SlidingBuffer.Hops(inputs, |w| - overlap)
  {
    OverlapAdd.Runs(WeightedAll(w, SlidingBuffer.Runs(inputs, |w|, overlap).windows), |w|, overlap)
  }

  /** What the three nodes in a row emit for the input blocks. */
  function Chain(inputs: seq<seq<real>>, w: seq<real>, overlap: nat): seq<real>
    requires overlap < |w| && SlidingBuffer.Hops(inputs, |w| - overlap)
  {
    ChainNode(inputs, w, overlap).emitted
  }

  lemma ChainIsShiftedSum(inputs: seq<seq<real>>, w: seq<real>, overlap: nat, n: nat)
    requires overlap < |w| && SlidingBuffer.Hops(inputs, |w| - overlap) && n < Offset(|inputs|, |w| - overlap)
    ensures var bs := SlidingBuffer.Runs(inputs, |w|, overlap).windows;
            && |Chain(inputs, w, overlap)| == Offset(|inputs|, |w| - overlap)
            && Chain(inputs, w, overlap)[n] == ShiftedSum(WeightedAll(w, bs), |w| - overlap, n)
  {
    var bs := SlidingBuffer.Runs(inputs, |w|, overlap).windows;
    OverlapAdd.OverlapAddIsShiftedSum(WeightedAll(w, bs), |w|, overlap);
  }

  /** Perfect reconstruction: for every window size, overlap and number of runs, and every window whose
      hop-shifted samples sum to one, the output is the input delayed by exactly `overlap` samples. */
  lemma PerfectReconstruction(inputs: seq<seq<real>>, w: seq<real>, overlap: nat)
    requires overlap < |w| && SlidingBuffer.Hops(inputs, |w| - overlap) && SumsToOne(w, |w| - overlap)
    ensures |Chain(inputs, w, overlap)| == |SlidingBuffer.Concat(inputs)|
    ensures Chain(inputs, w, overlap) == (Zeros(overlap) + SlidingBuffer.Concat(inputs))[..|Chain(inputs, w, overlap)|]
  {
    var hop, k := |w| - overlap, |inputs|;
    var s := SlidingBuffer.Runs(inputs, |w|, overlap);
    var signal := SlidingBuffer.Delayed(inputs, overlap);
    SlidingBuffer.WindowsSlide(inputs, |w|, overlap);
    OverlapAdd.OverlapAddIsShiftedSum(WeightedAll(w, s.windows), |w|, overlap);
    forall n | 0 <= n < Offset(k, hop) ensures Chain(inputs, w, overlap)[n] == signal[n] {
      ChainIsShiftedSum(inputs, w, overlap, n);
      SampleComesBack(w, s.windows, signal, hop, n);
    }
  }

  /** Before the overlap the signal is zero, and from there on the windows sum to one. */
  lemma SampleComesBack(w: seq<real>, bs: seq<seq<real>>, signal: seq<real>, hop: nat, n: nat)
    requires SlideOver(bs, signal, |w|, hop) && n < |signal| && n < Offset(|bs|, hop)
    requires hop > 0 && SumsToOne(w, hop) && (n + hop < |w| ==> signal[n] == 0.0)
    ensures ShiftedSum(WeightedAll(w, bs), hop, n) == signal[n]
  {
    SumOverWindows(w, bs, signal, hop, n);
    if n + hop >= |w| {
      WindowsSumToOne(w, hop, |bs|, n);
    }
  }

  /** One block more goes through the three nodes. */
  lemma ChainStep(inputs: seq<seq<real>>, w: seq<real>, overlap: nat)
    requires overlap < |w| && SlidingBuffer.Hops(inputs, |w| - overlap) && inputs != []
    ensures var before := ChainNode(inputs[..|inputs| - 1], w, overlap);
            var memory := SlidingBuffer.Runs(inputs[..|inputs| - 1], |w|, overlap).memory;
            var sum := OverlapAdd.Accumulated(before.memory, Weighted(w, memory + inputs[|inputs| - 1]));
            ChainNode(inputs, w, overlap)
            == OverlapAdd.Node(before.emitted + sum[..|w| - overlap], sum[|w| - overlap..])
  {
    var s := SlidingBuffer.Runs(inputs[..|inputs| - 1], |w|, overlap);
    var all := WeightedAll(w, SlidingBuffer.Runs(inputs, |w|, overlap).windows);
    assert all[..|all| - 1] == WeightedAll(w, s.windows);
  }

  /** Where the two nodes and the output are after some blocks. */
  ghost predicate Stands(sliding: SlidingBuffer.SlidingBuffer, adding: OverlapAdd.OverlapAdd, inputs: seq<seq<real>>,
                         w: seq<real>, overlap: nat, output: seq<real>)
    reads sliding.memory, adding.memory
  {
    && sliding.Valid() && sliding.windowSize == |w| && sliding.overlap == overlap
    && adding.Valid() && adding.windowSize == |w| && adding.overlap == overlap
    && sliding.memory != adding.memory && overlap < |w| && SlidingBuffer.Hops(inputs, |w| - overlap)
    && sliding.memory[..] == SlidingBuffer.Runs(inputs, |w|, overlap).memory
    && OverlapAdd.Node(output, adding.memory[..]) == ChainNode(inputs, w, overlap)
  }

  /** One block goes through the nodes. */
  method ChainRun(sliding: SlidingBuffer.SlidingBuffer, adding: OverlapAdd.OverlapAdd, ghost inputs: seq<seq<real>>,
                  block: seq<real>, w: seq<real>, ghost overlap: nat, output: seq<real>) returns (longer: seq<real>)
    requires Stands(sliding, adding, inputs, w, overlap, output) && |block| == |w| - overlap
    modifies sliding.memory, adding.memory
    ensures Stands(sliding, adding, inputs + [block], w, overlap, longer)
  {
    assert (inputs + [block])[..|inputs|] == inputs;
    ChainStep(inputs + [block], w, overlap);
    var window := SlidingBuffer.RunOn(sliding, block);
    var hop := OverlapAdd.RunOn(adding, Weighted(w, window));
    longer := output + hop;
  }

  /** The three nodes in a row over any number of blocks give the input back, delayed by the overlap. */
  method Reconstruct(inputs: seq<seq<real>>, w: seq<real>, overlap: nat) returns (output: seq<real>)
    requires overlap < |w| && SlidingBuffer.Hops(inputs, |w| - overlap) && SumsToOne(w, |w| - overlap)
    ensures |output| == |SlidingBuffer.Concat(inputs)|
    ensures output == (Zeros(overlap) + SlidingBuffer.Concat(inputs))[..|output|]
  {
    var sliding := new SlidingBuffer.SlidingBuffer(|w|, overlap);
    var adding := new OverlapAdd.OverlapAdd(|w|, overlap);
    output := [];
    var k := 0;
    while k < |inputs|
      invariant 0 <= k <= |inputs| && fresh(sliding.memory) && fresh(adding.memory)
      invariant Stands(sliding, adding, inputs[..k], w, overlap, output)
    {
      output := ChainRun(sliding, adding, inputs[..k], inputs[k], w, overlap, output);
      assert inputs[..k] + [inputs[k]] == inputs[..k + 1];
      k := k + 1;
    }
    assert inputs[..k] == inputs;
    PerfectReconstruction(inputs, w, overlap);
  }
}
