/** Static schedules: a fixed list of nodes executed over and over without looking at the FIFOs. One pass that
    fits, with rates that balance, decides for all passes. */
module Periodic {
  import opened Dataflow

  /** The number of samples in each FIFO. */
  function Counts(net: Network, s: State): (c: seq<int>)
    requires Shape(net, s)
  {
    seq(|net.edges|, e requires 0 <= e < |net.edges| => |s.hist[e]| - s.taken[e])
  }

  predicate CanFire(net: Network, c: seq<int>, n: nat)
    requires WellFormed(net) && |c| == |net.edges| && n < |net.nodes|
  {
    && (forall i :: 0 <= i < |net.nodes[n].inputs| ==>
          c[net.nodes[n].inputs[i].edge] >= net.nodes[n].inputs[i].rate)
    && (forall p :: 0 <= p < |net.nodes[n].outputs| ==>
          c[net.nodes[n].outputs[p].edge] + net.nodes[n].outputs[p].rate
          <= net.edges[net.nodes[n].outputs[p].edge].length)
  }

  function FireCounts(net: Network, c: seq<int>, n: nat): (d: seq<int>)
    requires WellFormed(net) && |c| == |net.edges| && n < |net.nodes|
    ensures |d| == |c|
  {
    seq(|c|, e requires 0 <= e < |c| => c[e] + ReadRate(net.nodes[n].outputs, e) - ReadRate(net.nodes[n].inputs, e))
  }

  lemma CountsDecide(net: Network, s: State, n: nat)
    requires WellFormed(net) && Shape(net, s) && n < |net.nodes|
    ensures CanFire(net, Counts(net, s), n) <==> !WillUnderflow(net, s, n) && !WillOverflow(net, s, n)
  {
    var c, node := Counts(net, s), net.nodes[n];
    assert forall i :: 0 <= i < |node.inputs| ==>
      (InputShort(node.inputs[i], s) <==> c[node.inputs[i].edge] < node.inputs[i].rate);
    assert forall p :: 0 <= p < |node.outputs| ==>
      (OutputFull(net, node.outputs[p], s)
       <==> c[node.outputs[p].edge] + node.outputs[p].rate > net.edges[node.outputs[p].edge].length);
  }

  lemma CountsFollow(net: Network, s: State, n: nat)
    requires WellFormed(net) && Shape(net, s) && n < |net.nodes|
    ensures Counts(net, Fire(net, s, n)) == FireCounts(net, Counts(net, s), n)
  {
  }

  /** The counts after the first `j` entries of a pass. */
  function PassCounts(net: Network, c: seq<int>, sched: seq<nat>, j: nat): (d: seq<int>)
    requires WellFormed(net) && |c| == |net.edges| && Choices(net, sched) && j <= |sched|
    ensures |d| == |c|
  {
    if j == 0 then c else FireCounts(net, PassCounts(net, c, sched, j - 1), sched[j - 1])
  }

  /** No entry of the pass under- or overflows a FIFO. */
  predicate Admissible(net: Network, c: seq<int>, sched: seq<nat>)
    requires WellFormed(net) && |c| == |net.edges| && Choices(net, sched)
  {
    forall j :: 0 <= j < |sched| ==> EntryAdmissible(net, c, sched, j)
  }

  predicate EntryAdmissible(net: Network, c: seq<int>, sched: seq<nat>, j: nat)
    requires WellFormed(net) && |c| == |net.edges| && Choices(net, sched) && j < |sched|
  {
    CanFire(net, PassCounts(net, c, sched, j), sched[j])
  }

  /** What a pass writes to an edge, and what it reads from it. */
  function Produced(net: Network, sched: seq<nat>, e: nat): nat
    requires Choices(net, sched)
  {
    if sched == [] then 0
    else Produced(net, sched[..|sched| - 1], e) + ReadRate(net.nodes[sched[|sched| - 1]].outputs, e)
  }

  function Consumed(net: Network, sched: seq<nat>, e: nat): nat
    requires Choices(net, sched)
  {
    if sched == [] then 0
    else Consumed(net, sched[..|sched| - 1], e) + ReadRate(net.nodes[sched[|sched| - 1]].inputs, e)
  }

  predicate Balanced(net: Network, sched: seq<nat>)
    requires Choices(net, sched)
  {
    forall e :: 0 <= e < |net.edges| ==> Produced(net, sched, e) == Consumed(net, sched, e)
  }

  lemma TotalsStep(net: Network, sched: seq<nat>, j: nat, e: nat)
    requires Choices(net, sched) && 0 < j <= |sched|
    ensures Produced(net, sched[..j], e)
            == Produced(net, sched[..j - 1], e) + ReadRate(net.nodes[sched[j - 1]].outputs, e)
    ensures Consumed(net, sched[..j], e)
            == Consumed(net, sched[..j - 1], e) + ReadRate(net.nodes[sched[j - 1]].inputs, e)
  {
    assert sched[..j][..j - 1] == sched[..j - 1];
  }

  lemma {:induction false} PassTotals(net: Network, c: seq<int>, sched: seq<nat>, j: nat, e: nat)
    returns (d: seq<int>, produced: nat, consumed: nat)
    requires WellFormed(net) && |c| == |net.edges| && Choices(net, sched) && j <= |sched| && e < |c|
    ensures d == PassCounts(net, c, sched, j)
    ensures produced == Produced(net, sched[..j], e) && consumed == Consumed(net, sched[..j], e)
    ensures d[e] == c[e] + produced - consumed
  {
    if j == 0 {
      d, produced, consumed := c, 0, 0;
    } else {
      var b, p, q := PassTotals(net, c, sched, j - 1, e);
      var node := net.nodes[sched[j - 1]];
      TotalsStep(net, sched, j, e);
      d := FireCounts(net, b, sched[j - 1]);
      produced, consumed := p + ReadRate(node.outputs, e), q + ReadRate(node.inputs, e);
    }
  }

  /** A pass restores the counts exactly when the rates balance. */
  lemma BalancedRestores(net: Network, c: seq<int>, sched: seq<nat>)
    requires WellFormed(net) && |c| == |net.edges| && Choices(net, sched)
    ensures Balanced(net, sched) <==> PassCounts(net, c, sched, |sched|) == c
  {
    var d := PassCounts(net, c, sched, |sched|);
    assert sched[..|sched|] == sched;
    forall e | 0 <= e < |c| ensures d[e] == c[e] <==> Produced(net, sched, e) == Consumed(net, sched, e) {
      var t, p, q := PassTotals(net, c, sched, |sched|, e);
    }
    if d == c {
      assert forall e :: 0 <= e < |c| ==> d[e] == c[e];
    }
  }

  /** `m` passes. */
  function Cycle(sched: seq<nat>, m: nat): seq<nat> {
    if m == 0 then [] else Cycle(sched, m - 1) + sched
  }

  /** A run that leaves the counts at `c`. */
  predicate Leaves(net: Network, xs: seq<nat>, c: seq<int>)
    requires WellFormed(net)
  {
    Choices(net, xs) && Counts(net, Run(net, xs)) == c
  }

  /** An entry that fits is executed. */
  lemma EntryFits(net: Network, xs: seq<nat>, c: seq<int>, n: nat)
    requires WellFormed(net) && |c| == |net.edges| && n < |net.nodes| && Leaves(net, xs, c) && CanFire(net, c, n)
    ensures Leaves(net, xs + [n], FireCounts(net, c, n))
  {
    assert (xs + [n])[..|xs|] == xs;
    CountsDecide(net, Run(net, xs), n);
    CountsFollow(net, Run(net, xs), n);
  }

  lemma OneMore(xs: seq<nat>, sched: seq<nat>, j: nat)
    requires 0 < j <= |sched|
    ensures xs + sched[..j - 1] + [sched[j - 1]] == xs + sched[..j]
  {
  }

  lemma {:induction false} PassFits(net: Network, c: seq<int>, sched: seq<nat>, xs: seq<nat>, j: nat)
    requires WellFormed(net) && |c| == |net.edges| && Choices(net, sched) && j <= |sched|
    requires Admissible(net, c, sched) && Leaves(net, xs, c)
    ensures Leaves(net, xs + sched[..j], PassCounts(net, c, sched, j))
  {
    if j == 0 {
      assert xs + sched[..0] == xs;
    } else {
      PassFits(net, c, sched, xs, j - 1);
      OneMore(xs, sched, j);
      assert EntryAdmissible(net, c, sched, j - 1);
      EntryFits(net, xs + sched[..j - 1], PassCounts(net, c, sched, j - 1), sched[j - 1]);
    }
  }

  lemma {:induction false} CycleFits(net: Network, sched: seq<nat>, m: nat)
    requires WellFormed(net) && Choices(net, sched)
    requires Admissible(net, Counts(net, Initial(net)), sched) && Balanced(net, sched)
    ensures Leaves(net, Cycle(sched, m), Counts(net, Initial(net)))
  {
    if m > 0 {
      var c := Counts(net, Initial(net));
      CycleFits(net, sched, m - 1);
      PassFits(net, c, sched, Cycle(sched, m - 1), |sched|);
      assert sched[..|sched|] == sched;
      BalancedRestores(net, c, sched);
    }
  }

  /** The periodic schedule theorem: if one pass is admissible from the initial counts and the rates balance,
      then in a run of any length no entry under- or overflows a FIFO (nothing would be skipped, so the FIFOs
      need not be looked at), and after every pass the counts are the initial ones again. */
  lemma EveryPassFits(net: Network, sched: seq<nat>, m: nat, j: nat)
    requires WellFormed(net) && Choices(net, sched) && j <= |sched|
    requires Admissible(net, Counts(net, Initial(net)), sched) && Balanced(net, sched)
    ensures Choices(net, Cycle(sched, m)) && Choices(net, Cycle(sched, m) + sched[..j])
    ensures Counts(net, Run(net, Cycle(sched, m))) == Counts(net, Initial(net))
    ensures var s := Run(net, Cycle(sched, m) + sched[..j]);
            InBounds(net, s) && (j < |sched| ==> !WillUnderflow(net, s, sched[j]) && !WillOverflow(net, s, sched[j]))
  {
    var c, xs := Counts(net, Initial(net)), Cycle(sched, m) + sched[..j];
    CycleFits(net, sched, m);
    PassFits(net, c, sched, Cycle(sched, m), j);
    RunKeepsKahn(net, xs);
    if j < |sched| {
      assert EntryAdmissible(net, c, sched, j);
      CountsDecide(net, Run(net, xs), sched[j]);
    }
  }
}
