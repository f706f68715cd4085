/** The asynchronous interpreter over real FIFOs: every edge of a network is a compacting FIFO object, nodes read
    and write its buffer, and what the buffers have carried is what Dataflow says. */
module FifoGraph {
  import opened Fifo
  import opened Dataflow

  // ------------------------------------------------------------------ one port after the other

  /** After the first `i` input ports have been read. */
  function ReadPorts(ports: seq<Port>, taken: seq<nat>, i: nat): (t: seq<nat>)
    requires PortsOk(ports, |taken|) && i <= |ports|
    ensures |t| == |taken|
  {
    if i == 0 then taken
    else
      var before, e := ReadPorts(ports, taken, i - 1), ports[i - 1].edge;
      before[e := before[e] + ports[i - 1].rate]
  }

  lemma {:induction false} ReadPortsAt(ports: seq<Port>, taken: seq<nat>, i: nat, e: nat)
    requires PortsOk(ports, |taken|) && i <= |ports| && e < |taken|
    ensures ReadPorts(ports, taken, i)[e] == taken[e] + ReadRate(ports[..i], e)
  {
    if i > 0 {
      ReadPortsAt(ports, taken, i - 1, e);
      assert ports[..i][..i - 1] == ports[..i - 1];
      if ports[i - 1].edge == e {
        assert Find(ports[..i - 1], e) < 0;
      }
    }
  }

  lemma ReadsOnly(ports: seq<Port>, taken: seq<nat>, i: nat)
    requires PortsOk(ports, |taken|) && i <= |ports|
    ensures forall e :: 0 <= e < |taken| ==> taken[e] <= ReadPorts(ports, taken, i)[e]
  {
    forall e | 0 <= e < |taken| ensures taken[e] <= ReadPorts(ports, taken, i)[e] {
      ReadPortsAt(ports, taken, i, e);
    }
  }

  /** After the first `p` output ports have been written with `blocks`. */
  function WritePorts(ports: seq<Port>, hist: seq<seq<Sample>>, blocks: seq<seq<Sample>>, p: nat): (h: seq<seq<Sample>>)
    requires PortsOk(ports, |hist|) && p <= |ports| == |blocks|
    ensures |h| == |hist|
  {
    if p == 0 then hist
    else
      var before, e := WritePorts(ports, hist, blocks, p - 1), ports[p - 1].edge;
      before[e := before[e] + blocks[p - 1]]
  }

  lemma {:induction false} WritePortsAt(ports: seq<Port>, hist: seq<seq<Sample>>, blocks: seq<seq<Sample>>, p: nat, e: nat)
    requires PortsOk(ports, |hist|) && p <= |ports| == |blocks| && e < |hist|
    ensures var i := Find(ports[..p], e);
            WritePorts(ports, hist, blocks, p)[e] == hist[e] + if i < 0 then [] else blocks[i]
  {
    if p > 0 {
      WritePortsAt(ports, hist, blocks, p - 1, e);
      assert ports[..p][..p - 1] == ports[..p - 1];
      if ports[p - 1].edge == e {
        assert Find(ports[..p - 1], e) < 0;
      }
    }
  }

  lemma PortsTaken(net: Network, s: State, n: nat)
    requires WellFormed(net) && Shape(net, s) && n < |net.nodes|
    ensures var ports := net.nodes[n].inputs; ReadPorts(ports, s.taken, |ports|) == Fire(net, s, n).taken
  {
    var ports := net.nodes[n].inputs;
    var taken, fired := ReadPorts(ports, s.taken, |ports|), Fire(net, s, n).taken;
    assert ports[..|ports|] == ports;
    forall e | 0 <= e < |net.edges| ensures taken[e] == fired[e] {
      ReadPortsAt(ports, s.taken, |ports|, e);
    }
  }

  /** What a node writes on all its ports, from all it has read. */
  function Blocks(net: Network, n: nat, k: nat, ins: seq<seq<Sample>>): (blocks: seq<seq<Sample>>)
    requires n < |net.nodes|
    ensures |blocks| == |net.nodes[n].outputs|
    ensures forall p :: 0 <= p < |blocks| ==> blocks[p] == Block(net, n, p, k, ins)
  {
    seq(|net.nodes[n].outputs|, p requires 0 <= p < |net.nodes[n].outputs| => Block(net, n, p, k, ins))
  }

  lemma PortsHist(net: Network, s: State, n: nat, ins: seq<seq<Sample>>)
    requires WellFormed(net) && Shape(net, s) && n < |net.nodes|
    requires ins == Inputs(net.nodes[n].inputs, s.fired[n] + 1, s.hist)
    ensures var ports := net.nodes[n].outputs;
            WritePorts(ports, s.hist, Blocks(net, n, s.fired[n], ins), |ports|) == Fire(net, s, n).hist
  {
    var ports, blocks := net.nodes[n].outputs, Blocks(net, n, s.fired[n], ins);
    var hist, fired := WritePorts(ports, s.hist, blocks, |ports|), Fire(net, s, n).hist;
    assert ports[..|ports|] == ports;
    forall e | 0 <= e < |net.edges| ensures hist[e] == fired[e] {
      WritePortsAt(ports, s.hist, blocks, |ports|, e);
    }
  }

  // --------------------------------------------------------------------------- the FIFOs

  ghost predicate Separate(fifos: seq<Fifo<Sample>>) {
    forall d, e :: 0 <= d < e < |fifos| ==> Apart(fifos, d, e)
  }

  ghost predicate Apart(fifos: seq<Fifo<Sample>>, d: nat, e: nat)
    requires d < |fifos| && e < |fifos|
  {
    fifos[d] != fifos[e] && fifos[d].buffer != fifos[e].buffer
  }

  /** A FIFO holds what is on its edge and has not been read. */
  ghost predicate Carries(f: Fifo<Sample>, length: nat, hist: seq<Sample>, taken: nat)
    reads f, f.buffer
  {
    f.Valid() && f.length == length && f.stream == hist && f.taken == taken
  }

  ghost function Objects(fifos: seq<Fifo<Sample>>): set<object> {
    if fifos == [] then {}
    else Objects(fifos[..|fifos| - 1]) + {fifos[|fifos| - 1], fifos[|fifos| - 1].buffer}
  }

  lemma {:induction false} Among(fifos: seq<Fifo<Sample>>, e: nat)
    requires e < |fifos|
    ensures fifos[e] in Objects(fifos) && fifos[e].buffer in Objects(fifos)
  {
    if e < |fifos| - 1 {
      Among(fifos[..|fifos| - 1], e);
    }
  }

  lemma {:induction false} NoOther(fifos: seq<Fifo<Sample>>, x: object)
    requires !(x is Fifo<Sample>) && !(x is array<Sample>)
    ensures x !in Objects(fifos)
  {
    if fifos != [] {
      NoOther(fifos[..|fifos| - 1], x);
    }
  }

  lemma OneFifoMore(fifos: seq<Fifo<Sample>>, f: Fifo<Sample>)
    ensures Objects(fifos + [f]) == Objects(fifos) + {f, f.buffer}
  {
    assert (fifos + [f])[..|fifos|] == fifos;
  }

  /** Every FIFO holds what is on its edge; no two share their buffer. */
  ghost predicate Carry(fifos: seq<Fifo<Sample>>, net: Network, hist: seq<seq<Sample>>, taken: seq<nat>)
    reads Objects(fifos)
  {
    && |fifos| == |net.edges| == |hist| == |taken| && Separate(fifos)
    && forall e :: 0 <= e < |fifos| ==> CarriesAt(fifos, net, hist, taken, e)
  }

  ghost predicate CarriesAt(fifos: seq<Fifo<Sample>>, net: Network, hist: seq<seq<Sample>>, taken: seq<nat>, e: nat)
    requires e < |fifos| == |net.edges| == |hist| == |taken|
    reads Objects(fifos)
  {
    Among(fifos, e);
    Carries(fifos[e], net.edges[e].length, hist[e], taken[e])
  }

  lemma TwoFifos(fifos: seq<Fifo<Sample>>, d: nat, e: nat)
    requires Separate(fifos) && d < |fifos| && e < |fifos| && d != e
    ensures fifos[d] != fifos[e] && fifos[d].buffer != fifos[e].buffer
  {
    assert Apart(fifos, if d < e then d else e, if d < e then e else d);
  }

  method ReadAt(fifos: seq<Fifo<Sample>>, ghost net: Network, ghost hist: seq<seq<Sample>>, ghost taken: seq<nat>,
                e: nat, nb: nat) returns (samples: seq<Sample>)
    requires Carry(fifos, net, hist, taken) && e < |fifos| && taken[e] + nb <= |hist[e]|
    modifies Objects(fifos)
    ensures Carry(fifos, net, hist, taken[e := taken[e] + nb]) && samples == hist[e][taken[e]..taken[e] + nb]
  {
    ghost var now := taken[e := taken[e] + nb];
    Among(fifos, e);
    assert CarriesAt(fifos, net, hist, taken, e);
    fifos[e].GuardsMeanRoom(nb);
    label before:
    samples := fifos[e].Read(nb);
    forall d | 0 <= d < |fifos| ensures CarriesAt(fifos, net, hist, now, d) {
      if d != e {
        TwoFifos(fifos, d, e);
        assert old@before(CarriesAt(fifos, net, hist, taken, d));
      }
    }
  }

  method WriteAt(fifos: seq<Fifo<Sample>>, ghost net: Network, ghost hist: seq<seq<Sample>>, ghost taken: seq<nat>,
                 e: nat, samples: seq<Sample>)
    requires Carry(fifos, net, hist, taken) && e < |fifos|
    requires |hist[e]| - taken[e] + |samples| <= net.edges[e].length
    modifies Objects(fifos)
    ensures Carry(fifos, net, hist[e := hist[e] + samples], taken)
  {
    ghost var now := hist[e := hist[e] + samples];
    Among(fifos, e);
    assert CarriesAt(fifos, net, hist, taken, e);
    fifos[e].GuardsMeanRoom(|samples|);
    label before:
    fifos[e].Write(samples);
    forall d | 0 <= d < |fifos| ensures CarriesAt(fifos, net, now, taken, d) {
      if d != e {
        TwoFifos(fifos, d, e);
        assert old@before(CarriesAt(fifos, net, hist, taken, d));
      }
    }
  }

  // --------------------------------------------------------------------------- one execution

  /** What a node has read on a port before and after one execution more. */
  predicate FeedsAt(port: Port, hist: seq<seq<Sample>>, taken: seq<nat>, before: seq<Sample>, after: seq<Sample>)
    requires port.edge < |hist| == |taken|
  {
    var t := taken[port.edge];
    t + port.rate <= |hist[port.edge]| && after == before + hist[port.edge][t..t + port.rate]
  }

  predicate Feeds(ports: seq<Port>, hist: seq<seq<Sample>>, taken: seq<nat>,
                  before: seq<seq<Sample>>, after: seq<seq<Sample>>) {
    && PortsOk(ports, |hist|) && |hist| == |taken| && |before| == |after| == |ports|
    && forall i :: 0 <= i < |ports| ==> FeedsAt(ports[i], hist, taken, before[i], after[i])
  }

  /** There is room for what a node writes. */
  predicate Room(net: Network, ports: seq<Port>, hist: seq<seq<Sample>>, taken: seq<nat>) {
    && PortsOk(ports, |net.edges|) && |hist| == |taken| == |net.edges|
    && forall p :: 0 <= p < |ports| ==> RoomAt(net, ports[p], hist, taken)
  }

  predicate RoomAt(net: Network, port: Port, hist: seq<seq<Sample>>, taken: seq<nat>)
    requires port.edge < |net.edges| == |hist| == |taken|
  {
    |hist[port.edge]| - taken[port.edge] + port.rate <= net.edges[port.edge].length
  }

  /** A node reads one input, after those before it, and remembers it. */
  method ReadInput(fifos: seq<Fifo<Sample>>, ghost net: Network, ghost hist: seq<seq<Sample>>, ghost taken: seq<nat>,
                   ports: seq<Port>, i: nat, before: seq<Sample>, ghost after: seq<Sample>)
    returns (all: seq<Sample>)
    requires PortsOk(ports, |taken|) && i < |ports| && |hist| == |taken| && FeedsAt(ports[i], hist, taken, before, after)
    requires Carry(fifos, net, hist, ReadPorts(ports, taken, i))
    modifies Objects(fifos)
    ensures Carry(fifos, net, hist, ReadPorts(ports, taken, i + 1)) && all == after
  {
    ReadPortsAt(ports, taken, i, ports[i].edge);
    NotYet(ports, |hist|, i);
    all := ReadAt(fifos, net, hist, ReadPorts(ports, taken, i), ports[i].edge, ports[i].rate);
    all := before + all;
  }

  method NextInput(fifos: seq<Fifo<Sample>>, ghost net: Network, ghost hist: seq<seq<Sample>>, ghost taken: seq<nat>,
                   ports: seq<Port>, i: nat, before: seq<seq<Sample>>, ins: seq<seq<Sample>>,
                   ghost after: seq<seq<Sample>>)
    returns (now: seq<seq<Sample>>)
    requires Feeds(ports, hist, taken, before, after) && i < |ports| && ins == after[..i]
    requires Carry(fifos, net, hist, ReadPorts(ports, taken, i))
    modifies Objects(fifos)
    ensures Carry(fifos, net, hist, ReadPorts(ports, taken, i + 1)) && now == after[..i + 1]
  {
    var all := ReadInput(fifos, net, hist, taken, ports, i, before[i], after[i]);
    now := ins + [all];
  }

  /** A node reads all its inputs and remembers them. */
  method ReadInputs(fifos: seq<Fifo<Sample>>, ghost net: Network, ghost hist: seq<seq<Sample>>, ghost taken: seq<nat>,
                    ports: seq<Port>, before: seq<seq<Sample>>, ghost after: seq<seq<Sample>>)
    returns (ins: seq<seq<Sample>>)
    requires Carry(fifos, net, hist, taken) && Feeds(ports, hist, taken, before, after)
    modifies Objects(fifos)
    ensures Carry(fifos, net, hist, ReadPorts(ports, taken, |ports|)) && ins == after
  {
    ins := [];
    for i := 0 to |ports|
      invariant Carry(fifos, net, hist, ReadPorts(ports, taken, i))
      invariant ins == after[..i]
    {
      ins := NextInput(fifos, net, hist, taken, ports, i, before, ins, after);
    }
  }

  /** A node writes all its outputs; since there was room it has at most read. */
  method WriteOutputs(fifos: seq<Fifo<Sample>>, ghost net: Network, ghost hist: seq<seq<Sample>>,
                      ghost taken: seq<nat>, ghost now: seq<nat>, ports: seq<Port>, blocks: seq<seq<Sample>>)
    requires Carry(fifos, net, hist, now) && Room(net, ports, hist, taken)
    requires |now| == |taken| && forall e :: 0 <= e < |taken| ==> taken[e] <= now[e]
    requires |blocks| == |ports| && forall p :: 0 <= p < |ports| ==> |blocks[p]| == ports[p].rate
    modifies Objects(fifos)
    ensures Carry(fifos, net, WritePorts(ports, hist, blocks, |ports|), now)
  {
    for p := 0 to |ports|
      invariant Carry(fifos, net, WritePorts(ports, hist, blocks, p), now)
    {
      WritePortsAt(ports, hist, blocks, p, ports[p].edge);
      NotYet(ports, |net.edges|, p);
      assert RoomAt(net, ports[p], hist, taken);
      WriteAt(fifos, net, WritePorts(ports, hist, blocks, p), now, ports[p].edge, blocks[p]);
    }
  }

  /** run() of node `n` in its `k`-th execution, which has read `before` so far. */
  method FireFifos(fifos: seq<Fifo<Sample>>, net: Network, ghost hist: seq<seq<Sample>>, ghost taken: seq<nat>,
                   n: nat, k: nat, before: seq<seq<Sample>>, ghost after: seq<seq<Sample>>)
    returns (ins: seq<seq<Sample>>)
    requires Carry(fifos, net, hist, taken) && n < |net.nodes|
    requires Feeds(net.nodes[n].inputs, hist, taken, before, after) && Room(net, net.nodes[n].outputs, hist, taken)
    modifies Objects(fifos)
    ensures ins == after
    ensures Carry(fifos, net,
                  WritePorts(net.nodes[n].outputs, hist, Blocks(net, n, k, after), |net.nodes[n].outputs|),
                  ReadPorts(net.nodes[n].inputs, taken, |net.nodes[n].inputs|))
  {
    var inputs, outputs := net.nodes[n].inputs, net.nodes[n].outputs;
    ins := ReadInputs(fifos, net, hist, taken, inputs, before, after);
    ReadsOnly(inputs, taken, |inputs|);
    WriteOutputs(fifos, net, hist, taken, ReadPorts(inputs, taken, |inputs|), outputs, Blocks(net, n, k, ins));
  }

  // --------------------------------------------------------------------------- the memory of the nodes

  /** Each node remembers what it has read on each port. */
  predicate Remembers(net: Network, s: State, memory: seq<seq<seq<Sample>>>)
    requires WellFormed(net) && Shape(net, s)
  {
    |memory| == |net.nodes| && forall n :: 0 <= n < |net.nodes| ==> RemembersAt(net, s, memory, n)
  }

  predicate RemembersAt(net: Network, s: State, memory: seq<seq<seq<Sample>>>, n: nat)
    requires WellFormed(net) && Shape(net, s) && n < |net.nodes| == |memory|
  {
    memory[n] == Inputs(net.nodes[n].inputs, s.fired[n], s.hist)
  }

  lemma StartRemembers(net: Network) returns (memory: seq<seq<seq<Sample>>>)
    requires WellFormed(net)
    ensures Remembers(net, Initial(net), NothingRead(net)) && memory == NothingRead(net)
  {
    memory := NothingRead(net);
    forall n | 0 <= n < |net.nodes| ensures RemembersAt(net, Initial(net), memory, n) {
    }
  }

  predicate Follows(net: Network, s: State, fired: seq<nat>, memory: seq<seq<seq<Sample>>>) {
    WellFormed(net) && Kahn(net, s) && fired == s.fired && Remembers(net, s, memory)
  }

  /** Nothing has been read. */
  function NothingRead(net: Network): (memory: seq<seq<seq<Sample>>>) {
    seq(|net.nodes|, n requires 0 <= n < |net.nodes| => seq(|net.nodes[n].inputs|, _ => []))
  }

  /** One execution more of node `n`, which has now read `ins`. */
  lemma FireRemembers(net: Network, s: State, n: nat, memory: seq<seq<seq<Sample>>>, ins: seq<seq<Sample>>)
    requires WellFormed(net) && Kahn(net, s) && n < |net.nodes| && !WillUnderflow(net, s, n)
    requires Remembers(net, s, memory) && ins == Inputs(net.nodes[n].inputs, s.fired[n] + 1, s.hist)
    ensures Remembers(net, Fire(net, s, n), memory[n := ins])
  {
    var t, now := Fire(net, s, n), memory[n := ins];
    FireExtends(net, s, n);
    forall m | 0 <= m < |net.nodes| ensures RemembersAt(net, t, now, m) {
      assert NodeKahn(net, s, m) && RemembersAt(net, s, memory, m);
      if m == n {
        ReadyCovers(net, s, n);
        InputsStable(net.nodes[n].inputs, s.fired[n] + 1, s.hist, t.hist);
      } else {
        FedCovers(net, s, m);
        InputsStable(net.nodes[m].inputs, s.fired[m], s.hist, t.hist);
      }
    }
  }

  lemma ReadOneMore(net: Network, s: State, n: nat, i: nat)
    requires WellFormed(net) && Kahn(net, s) && n < |net.nodes| && i < |net.nodes[n].inputs| && !WillUnderflow(net, s, n)
    ensures FeedsAt(net.nodes[n].inputs[i], s.hist, s.taken, Inputs(net.nodes[n].inputs, s.fired[n], s.hist)[i],
                    Inputs(net.nodes[n].inputs, s.fired[n] + 1, s.hist)[i])
  {
    assert NodeKahn(net, s, n) && !InputShort(net.nodes[n].inputs[i], s);
  }

  lemma RoomNow(net: Network, s: State, n: nat)
    requires WellFormed(net) && Shape(net, s) && n < |net.nodes| && !WillOverflow(net, s, n)
    ensures Room(net, net.nodes[n].outputs, s.hist, s.taken)
  {
    var ports := net.nodes[n].outputs;
    forall p | 0 <= p < |ports| ensures RoomAt(net, ports[p], s.hist, s.taken) {
      assert !OutputFull(net, ports[p], s);
    }
  }

  lemma FeedsNow(net: Network, s: State, n: nat) returns (ins: seq<seq<Sample>>)
    requires WellFormed(net) && Kahn(net, s) && n < |net.nodes| && !WillUnderflow(net, s, n)
    ensures ins == Inputs(net.nodes[n].inputs, s.fired[n] + 1, s.hist)
    ensures Feeds(net.nodes[n].inputs, s.hist, s.taken, Inputs(net.nodes[n].inputs, s.fired[n], s.hist), ins)
  {
    var ports, before := net.nodes[n].inputs, Inputs(net.nodes[n].inputs, s.fired[n], s.hist);
    ins := Inputs(ports, s.fired[n] + 1, s.hist);
    forall i | 0 <= i < |ports| ensures FeedsAt(ports[i], s.hist, s.taken, before[i], ins[i]) {
      ReadOneMore(net, s, n, i);
    }
  }

  /** What FireFifos makes of state `s` is state `t`. */
  predicate Ported(net: Network, n: nat, s: State, t: State, before: seq<seq<Sample>>, after: seq<seq<Sample>>) {
    && n < |net.nodes| == |s.fired| && Feeds(net.nodes[n].inputs, s.hist, s.taken, before, after)
    && Room(net, net.nodes[n].outputs, s.hist, s.taken)
    && t.taken == ReadPorts(net.nodes[n].inputs, s.taken, |net.nodes[n].inputs|)
    && t.hist == WritePorts(net.nodes[n].outputs, s.hist, Blocks(net, n, s.fired[n], after), |net.nodes[n].outputs|)
  }

  lemma PortedNow(net: Network, s: State, n: nat, memory: seq<seq<seq<Sample>>>) returns (ins: seq<seq<Sample>>)
    requires Follows(net, s, s.fired, memory) && n < |net.nodes|
    requires !WillUnderflow(net, s, n) && !WillOverflow(net, s, n)
    ensures ins == Inputs(net.nodes[n].inputs, s.fired[n] + 1, s.hist)
    ensures Ported(net, n, s, Fire(net, s, n), memory[n], ins)
  {
    ins := FeedsNow(net, s, n);
    assert RemembersAt(net, s, memory, n);
    RoomNow(net, s, n);
    PortsTaken(net, s, n);
    PortsHist(net, s, n, ins);
  }

  /** An execution port by port is that of Dataflow: the state `t` after it, and what the node has read then. */
  lemma FirePorts(net: Network, s: State, n: nat, memory: seq<seq<seq<Sample>>>)
    returns (t: State, ins: seq<seq<Sample>>)
    requires Follows(net, s, s.fired, memory) && n < |net.nodes|
    requires !WillUnderflow(net, s, n) && !WillOverflow(net, s, n)
    ensures t == Fire(net, s, n) && Follows(net, t, s.fired[n := s.fired[n] + 1], memory[n := ins])
    ensures Ported(net, n, s, t, memory[n], ins)
  {
    t := Fire(net, s, n);
    ins := PortedNow(net, s, n, memory);
    FireKeepsKahn(net, s, n);
    FireRemembers(net, s, n, memory, ins);
  }

  /** run() of node `n`: the FIFOs and the nodes go on to state `t`. */
  method FireNode(fifos: seq<Fifo<Sample>>, net: Network, ghost s: State, ghost t: State, n: nat, fired: seq<nat>,
                  memory: seq<seq<seq<Sample>>>, ghost after: seq<seq<Sample>>)
    returns (k: seq<nat>, m: seq<seq<seq<Sample>>>)
    requires n < |net.nodes| == |memory| && fired == s.fired && Ported(net, n, s, t, memory[n], after)
    requires Carry(fifos, net, s.hist, s.taken)
    modifies Objects(fifos)
    ensures Carry(fifos, net, t.hist, t.taken) && k == s.fired[n := s.fired[n] + 1] && m == memory[n := after]
  {
    var ins := FireFifos(fifos, net, s.hist, s.taken, n, fired[n], memory[n], after);
    k, m := fired[n := fired[n] + 1], memory[n := ins];
  }

  // --------------------------------------------------------------------------- the graph

  method NewFifo(edge: Edge) returns (f: Fifo<Sample>)
    requires |edge.delay| <= edge.length
    ensures fresh(f) && fresh(f.buffer) && Carries(f, edge.length, edge.delay, 0)
  {
    var buffer := new Sample[edge.length](i requires 0 <= i < edge.length => if i < |edge.delay| then edge.delay[i] else 0.0);
    f := new Fifo(buffer, edge.length, |edge.delay|);
    assert buffer[..|edge.delay|] == edge.delay;
  }

  ghost predicate Begun(fifos: seq<Fifo<Sample>>, net: Network)
    reads Objects(fifos)
  {
    |fifos| <= |net.edges| && Separate(fifos) && forall e :: 0 <= e < |fifos| ==> (Among(fifos, e); BegunAt(fifos, net, e))
  }

  ghost predicate BegunAt(fifos: seq<Fifo<Sample>>, net: Network, e: nat)
    requires e < |fifos| <= |net.edges|
    reads fifos[e], fifos[e].buffer
  {
    Carries(fifos[e], net.edges[e].length, net.edges[e].delay, 0)
  }

  lemma BegunMore(fifos: seq<Fifo<Sample>>, net: Network, f: Fifo<Sample>)
    requires Begun(fifos, net) && |fifos| < |net.edges|
    requires forall e :: 0 <= e < |fifos| ==> fifos[e] != f && fifos[e].buffer != f.buffer
    requires Carries(f, net.edges[|fifos|].length, net.edges[|fifos|].delay, 0)
    ensures Begun(fifos + [f], net)
  {
    var all := fifos + [f];
    forall e | 0 <= e < |all| ensures BegunAt(all, net, e) {
      if e < |fifos| {
        assert BegunAt(fifos, net, e);
      }
    }
    forall d, e | 0 <= d < e < |all| ensures Apart(all, d, e) {
      if e < |fifos| {
        assert Apart(fifos, d, e);
      }
    }
  }

  /** One FIFO for every edge, with its delay samples. */
  method NewFifos(net: Network) returns (fifos: seq<Fifo<Sample>>)
    requires WellFormed(net)
    ensures Carry(fifos, net, Initial(net).hist, Initial(net).taken) && fresh(Objects(fifos))
  {
    fifos := [];
    while |fifos| < |net.edges|
      invariant Begun(fifos, net) && fresh(Objects(fifos))
    {
      label before:
      var f := NewFifo(net.edges[|fifos|]);
      forall e | 0 <= e < |fifos| ensures BegunAt(fifos, net, e) {
        assert old@before(BegunAt(fifos, net, e));
      }
      BegunMore(fifos, net, f);
      OneFifoMore(fifos, f);
      fifos := fifos + [f];
    }
    forall e | 0 <= e < |fifos| ensures CarriesAt(fifos, net, Initial(net).hist, Initial(net).taken, e) {
      assert BegunAt(fifos, net, e);
    }
  }

  class FifoGraph {
    const net: Network
    const fifos: seq<Fifo<Sample>>
    var fired: seq<nat>
    /** What each node has read, port by port: whatever state a node has is a function of it. */
    var memory: seq<seq<seq<Sample>>>
    /** The state of Dataflow. */
    ghost var state: State

    /** The buffers, the positions and the nodes are those of that state. */
    ghost predicate Valid()
      reads this, Objects(fifos)
    {
      Follows(net, state, fired, memory) && Carry(fifos, net, state.hist, state.taken)
    }

    lemma NotMine()
      ensures this !in Objects(fifos)
    {
      NoOther(fifos, this);
    }

    constructor (net: Network)
      requires WellFormed(net)
      ensures Valid() && this.net == net && state == Initial(net) && fresh(Objects(fifos))
    {
      var empty := NewFifos(net);
      ghost var memory := StartRemembers(net);
      InitialKahn(net);
      this.net := net;
      fifos := empty;
      fired := seq(|net.nodes|, _ => 0);
      this.memory := NothingRead(net);
      state := Initial(net);
      new;
      NotMine();
    }

    method InputsFit(n: nat) returns (ok: bool)
      requires Valid() && n < |net.nodes|
      ensures Valid() && (ok <==> !WillUnderflow(net, state, n))
    {
      for i := 0 to |net.nodes[n].inputs|
        invariant Valid() && forall j :: 0 <= j < i ==> !InputShort(net.nodes[n].inputs[j], state)
      {
        var port := net.nodes[n].inputs[i];
        assert CarriesAt(fifos, net, state.hist, state.taken, port.edge);
        fifos[port.edge].GuardsMeanRoom(port.rate);
        if fifos[port.edge].WillUnderflowWith(port.rate) {
          assert InputShort(net.nodes[n].inputs[i], state);
          return false;
        }
      }
      return true;
    }

    method OutputsFit(n: nat) returns (ok: bool)
      requires Valid() && n < |net.nodes|
      ensures Valid() && (ok <==> !WillOverflow(net, state, n))
    {
      for p := 0 to |net.nodes[n].outputs|
        invariant Valid() && forall j :: 0 <= j < p ==> !OutputFull(net, net.nodes[n].outputs[j], state)
      {
        var port := net.nodes[n].outputs[p];
        assert CarriesAt(fifos, net, state.hist, state.taken, port.edge);
        fifos[port.edge].GuardsMeanRoom(port.rate);
        if fifos[port.edge].WillOverflowWith(port.rate) {
          assert OutputFull(net, net.nodes[n].outputs[p], state);
          return false;
        }
      }
      return true;
    }

    /** prepareForRunning, on the FIFO objects. */
    method PrepareForRunning(n: nat) returns (ok: bool)
      requires Valid() && n < |net.nodes|
      ensures Valid() && (ok <==> !WillUnderflow(net, state, n) && !WillOverflow(net, state, n))
    {
      ok := InputsFit(n);
      if ok {
        ok := OutputsFit(n);
      }
    }

    method RunNode(n: nat)
      requires Valid() && n < |net.nodes| && !WillUnderflow(net, state, n) && !WillOverflow(net, state, n)
      modifies this, Objects(fifos)
      ensures Valid() && state == Fire(net, old(state), n)
    {
      ghost var t, after := FirePorts(net, state, n, memory);
      var k, m := FireNode(fifos, net, state, t, n, fired, memory, after);
      Keep(k, m, t);
    }

    /** The node keeps what it has read. */
    method Keep(fired: seq<nat>, memory: seq<seq<seq<Sample>>>, ghost t: State)
      requires Follows(net, t, fired, memory) && Carry(fifos, net, t.hist, t.taken)
      modifies this
      ensures Valid() && state == t
    {
      NotMine();
      this.memory, this.fired, state := memory, fired, t;
    }

    /** One entry of an asynchronous schedule. */
    method Entry(n: nat) returns (ran: bool)
      requires Valid() && n < |net.nodes|
      modifies this, Objects(fifos)
      ensures Valid() && state == TryFire(net, old(state), n)
      ensures ran <==> !WillUnderflow(net, old(state), n) && !WillOverflow(net, old(state), n)
    {
      ran := PrepareForRunning(n);
      if ran {
        RunNode(n);
      }
    }

    /** Any order of executions over the real buffers, after the entries `done`. */
    method Execute(xs: seq<nat>, ghost done: seq<nat>)
      requires Valid() && Choices(net, xs) && Choices(net, done) && state == Run(net, done)
      modifies this, Objects(fifos)
      ensures Valid() && Choices(net, done + xs) && state == Run(net, done + xs)
    {
      assert done + xs[..0] == done;
      for i := 0 to |xs|
        invariant Valid() && Choices(net, done + xs[..i]) && state == Run(net, done + xs[..i])
      {
        RunLast(net, done + xs[..i], xs[i]);
        OneMore(done, xs, i);
        var ran := Entry(xs[i]);
      }
      assert xs[..|xs|] == xs;
    }

    /** What an edge has carried begins with what it carries in any other order of executions, or the other way
        round. */
    lemma StreamsAgree(done: seq<nat>, ys: seq<nat>)
      requires Valid() && Choices(net, done) && state == Run(net, done) && Choices(net, ys)
      ensures forall e :: 0 <= e < |fifos| ==>
        fifos[e].stream <= Run(net, ys).hist[e] || Run(net, ys).hist[e] <= fifos[e].stream
    {
      forall e | 0 <= e < |fifos|
        ensures fifos[e].stream <= Run(net, ys).hist[e] || Run(net, ys).hist[e] <= fifos[e].stream
      {
        SchedulesAgree(net, done, ys, e);
        assert CarriesAt(fifos, net, state.hist, state.taken, e);
      }
    }
  }

  lemma OneMore<T>(a: seq<T>, xs: seq<T>, i: nat)
    requires i < |xs|
    ensures xs[..i + 1] == xs[..i] + [xs[i]] && a + xs[..i + 1] == a + xs[..i] + [xs[i]]
  {
  }

  /** The edge of a port is not among the ports before it. */
  lemma NotYet(ports: seq<Port>, edges: nat, i: nat)
    requires PortsOk(ports, edges) && i < |ports|
    ensures Find(ports[..i], ports[i].edge) < 0
  {
  }
}
