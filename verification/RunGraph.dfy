/** The interpreter of run_graph: it walks a schedule, in asynchronous mode asking every node whether it can
    run and skipping it if not, in synchronous mode running it without looking. */
module RunGraph {
  import opened Dataflow
  import opened Periodic

  const CG_SUCCESS: int := 0
  const CG_SKIP_EXECUTION: int := -5
  const CG_STOP_SCHEDULER: int := -8

  lemma OnePassMore(xs: seq<nat>, schedule: seq<nat>, m: nat)
    ensures xs + Cycle(schedule, m) + schedule == xs + Cycle(schedule, m + 1)
  {
  }

  class RuntimeGraph {
    const net: Network
    const schedule: seq<nat>
    const isAsync: bool
    var state: State
    /** The schedule entries so far, whether or not the node could run. */
    ghost var done: seq<nat>

    /** What a synchronous schedule has to be for nobody to look at the FIFOs. */
    predicate Static()
      requires WellFormed(net) && Choices(net, schedule)
    {
      Admissible(net, Counts(net, Initial(net)), schedule) && Balanced(net, schedule)
    }

    ghost predicate Valid()
      reads this
    {
      && WellFormed(net) && Choices(net, schedule) && (isAsync || Static())
      && Choices(net, done) && state == Run(net, done)
    }

    constructor (net: Network, schedule: seq<nat>, isAsync: bool)
      requires WellFormed(net) && Choices(net, schedule)
      requires isAsync || (Admissible(net, Counts(net, Initial(net)), schedule) && Balanced(net, schedule))
      ensures Valid() && this.net == net && this.schedule == schedule && this.isAsync == isAsync && done == []
    {
      this.net := net;
      this.schedule := schedule;
      this.isAsync := isAsync;
      state := Initial(net);
      done := [];
    }

    method PrepareForRunning(n: nat) returns (status: int)
      requires Valid() && n < |net.nodes|
      ensures status == if WillUnderflow(net, state, n) || WillOverflow(net, state, n) then CG_SKIP_EXECUTION
                        else CG_SUCCESS
    {
      var i := 0;
      while i < |net.nodes[n].inputs|
        invariant 0 <= i <= |net.nodes[n].inputs|
        invariant forall j :: 0 <= j < i ==> !InputShort(net.nodes[n].inputs[j], state)
      {
        if InputShort(net.nodes[n].inputs[i], state) {
          return CG_SKIP_EXECUTION;
        }
        i := i + 1;
      }
      i := 0;
      while i < |net.nodes[n].outputs|
        invariant 0 <= i <= |net.nodes[n].outputs|
        invariant forall j :: 0 <= j < i ==> !OutputFull(net, net.nodes[n].outputs[j], state)
      {
        if OutputFull(net, net.nodes[n].outputs[i], state) {
          return CG_SKIP_EXECUTION;
        }
        i := i + 1;
      }
      return CG_SUCCESS;
    }

    /** One schedule entry. In synchronous mode the caller knows that the node fits. */
    method Entry(n: nat) returns (error: int, ran: bool)
      requires Valid() && n < |net.nodes|
      requires !isAsync ==> !WillUnderflow(net, state, n) && !WillOverflow(net, state, n)
      modifies this
      ensures Valid() && done == old(done) + [n]
      ensures ran <==> !WillUnderflow(net, old(state), n) && !WillOverflow(net, old(state), n)
      ensures error == if ran then net.status(n, old(state).fired[n]) else CG_SUCCESS
    {
      error := CG_SUCCESS;
      ran := true;
      if isAsync {
        error := PrepareForRunning(n);
        ran := error != CG_SKIP_EXECUTION;
        error := CG_SUCCESS;
      }
      RunLast(net, done, n);
      done := done + [n];
      if ran {
        error := net.status(n, state.fired[n]);
        state := Fire(net, state, n);
      }
    }

    /** The loops of run_graph, `before` full passes having been made (this matters to a synchronous schedule
        only). When no node fails it stops after `nbIterations` passes, or with `nbIterations` of zero or less
        never: it is then still `running` after any number `watched` of passes. Otherwise `failed` tells which
        entry of pass `nb` was the first to fail. In each case the state is that of the same schedule entries
        executed one by one, so that the network's streams are as in Dataflow. */
    method RunGraph(nbIterations: int, watched: nat, ghost before: nat)
      returns (nb: nat, error: int, running: bool, ghost failed: int)
      requires Valid() && (!isAsync ==> done == Cycle(schedule, before))
      modifies this
      ensures Valid() && (running <==> nbIterations <= 0 && failed < 0)
      ensures failed < 0 ==>
        && nb == (if nbIterations > 0 then nbIterations else watched)
        && error == (if nbIterations > 0 then CG_STOP_SCHEDULER else CG_SUCCESS)
        && done == old(done) + Cycle(schedule, nb)
      ensures failed >= 0 ==>
        && failed < |schedule| && error != CG_SUCCESS && nb < (if nbIterations > 0 then nbIterations else watched)
        && done == old(done) + Cycle(schedule, nb) + schedule[..failed + 1]
    {
      nb := 0;
      error := CG_SUCCESS;
      running := false;
      failed := -1;
      var left, bound := nbIterations, if nbIterations > 0 then nbIterations else watched;
      ghost var start := done;
      assert start + Cycle(schedule, 0) == done;
      while nb < bound
        invariant nb <= bound && Valid() && failed < 0 && error == CG_SUCCESS
        invariant nbIterations > 0 ==> left == nbIterations - nb > 0
        invariant nbIterations <= 0 ==> left == nbIterations
        invariant After(start, nb, before)
        decreases bound - nb
      {
        error, failed := Iteration(start, nb, before);
        if error != CG_SUCCESS {
          return;
        }
        nb := nb + 1;
        if left > 0 {
          left := left - 1;
          if left == 0 {
            error := CG_STOP_SCHEDULER;
            return;
          }
        }
      }
      running := true;
    }

    /** `nb` passes have been made since `start`. */
    ghost predicate After(start: seq<nat>, nb: nat, before: nat)
      reads this
    {
      done == start + Cycle(schedule, nb) && (!isAsync ==> done == Cycle(schedule, before + nb))
    }

    method Iteration(ghost start: seq<nat>, ghost nb: nat, ghost before: nat) returns (error: int, ghost failed: int)
      requires Valid() && After(start, nb, before)
      modifies this
      ensures Valid()
      ensures error == CG_SUCCESS ==> failed < 0 && After(start, nb + 1, before)
      ensures error != CG_SUCCESS ==>
        0 <= failed < |schedule| && done == start + Cycle(schedule, nb) + schedule[..failed + 1]
    {
      error, failed := Pass(before + nb);
      OnePassMore(start, schedule, nb);
      OnePassMore([], schedule, before + nb);
      assert [] + Cycle(schedule, before + nb) == Cycle(schedule, before + nb);
      assert [] + Cycle(schedule, before + nb + 1) == Cycle(schedule, before + nb + 1);
    }

    /** One pass over the schedule. */
    method Pass(ghost m: nat) returns (error: int, ghost failed: int)
      requires Valid() && (!isAsync ==> done == Cycle(schedule, m))
      modifies this
      ensures Valid()
      ensures error == CG_SUCCESS ==> failed < 0 && done == old(done) + schedule
      ensures error != CG_SUCCESS ==> 0 <= failed < |schedule| && done == old(done) + schedule[..failed + 1]
    {
      error := CG_SUCCESS;
      failed := -1;
      var i := 0;
      assert done + schedule[..0] == done;
      while i < |schedule|
        invariant 0 <= i <= |schedule| && Valid() && error == CG_SUCCESS
        invariant done == old(done) + schedule[..i]
      {
        if !isAsync {
          EveryPassFits(net, schedule, m, i);
        }
        var ran;
        OneMore(old(done), schedule, i + 1);
        error, ran := Entry(schedule[i]);
        if error != CG_SUCCESS {
          failed := i;
          return;
        }
        i := i + 1;
      }
      assert schedule[..|schedule|] == schedule;
    }
  }
}
