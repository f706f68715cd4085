/** Networks of fixed-rate nodes joined by bounded FIFOs, run one node at a time in any order. A state keeps
    everything that was ever put on an edge, so a FIFO holds `hist[e][taken[e]..]`. */
module Dataflow {

  type Sample = real

  /** A node reads or writes `rate` samples on `edge` at each execution. */
  datatype Port = Port(edge: nat, rate: nat)

  datatype Node = Node(inputs: seq<Port>, outputs: seq<Port>)

  /** A FIFO of `length` samples that starts with its delay samples. */
  datatype Edge = Edge(length: nat, delay: seq<Sample>)

  /** `sample(n, p, k, ins, i)` is sample i that node n writes on port p in its k-th execution when it has
      read `ins` so far, so a node may keep any state of its own. `status(n, k)` is what run() returns. */
  datatype Network = Network(nodes: seq<Node>, edges: seq<Edge>,
                             sample: (nat, nat, nat, seq<seq<Sample>>, nat) -> Sample,
                             status: (nat, nat) -> int)

  datatype State = State(fired: seq<nat>, hist: seq<seq<Sample>>, taken: seq<nat>)

  // ---------------------------------------------------------------------- structure

  predicate PortsOk(ports: seq<Port>, edges: nat) {
    && (forall i :: 0 <= i < |ports| ==> ports[i].edge < edges)
    && (forall i, j :: 0 <= i < j < |ports| ==> ports[i].edge != ports[j].edge)
  }

  predicate DisjointPorts(a: seq<Port>, b: seq<Port>) {
    forall i, j :: 0 <= i < |a| && 0 <= j < |b| ==> a[i].edge != b[j].edge
  }

  /** Every edge has at most one producer and one consumer, and room for its delay. */
  predicate WellFormed(net: Network) {
    && (forall n :: 0 <= n < |net.nodes| ==>
          PortsOk(net.nodes[n].inputs, |net.edges|) && PortsOk(net.nodes[n].outputs, |net.edges|))
    && (forall n, m :: 0 <= n < m < |net.nodes| ==>
          DisjointPorts(net.nodes[n].inputs, net.nodes[m].inputs)
          && DisjointPorts(net.nodes[n].outputs, net.nodes[m].outputs))
    && (forall e :: 0 <= e < |net.edges| ==> |net.edges[e].delay| <= net.edges[e].length)
  }

  predicate Shape(net: Network, s: State) {
    |s.fired| == |net.nodes| && |s.hist| == |s.taken| == |net.edges|
  }

  function Initial(net: Network): (s: State)
    ensures Shape(net, s)
  {
    State(seq(|net.nodes|, _ => 0), seq(|net.edges|, e requires 0 <= e < |net.edges| => net.edges[e].delay),
          seq(|net.edges|, _ => 0))
  }

  /** The port of a node on an edge, or -1. */
  function Find(ports: seq<Port>, e: nat): (i: int)
    ensures -1 <= i < |ports|
    ensures i >= 0 ==> ports[i].edge == e
    ensures i < 0 ==> forall j :: 0 <= j < |ports| ==> ports[j].edge != e
  {
    if ports == [] then -1
    else if ports[|ports| - 1].edge == e then |ports| - 1
    else Find(ports[..|ports| - 1], e)
  }

  /** `k` executions at a rate. */
  function Total(k: nat, rate: nat): nat {
    if k == 0 then 0 else Total(k - 1, rate) + rate
  }

  lemma {:induction false} TotalMono(j: nat, k: nat, rate: nat)
    requires j <= k
    ensures Total(j, rate) <= Total(k, rate)
  {
    if j < k {
      TotalMono(j, k - 1, rate);
    }
  }

  function Take(s: seq<Sample>, k: nat): seq<Sample> {
    if k <= |s| then s[..k] else s
  }

  /** What a node has read when it has executed k times. */
  function Inputs(ports: seq<Port>, k: nat, hist: seq<seq<Sample>>): seq<seq<Sample>>
    requires PortsOk(ports, |hist|)
  {
    seq(|ports|, i requires 0 <= i < |ports| => Take(hist[ports[i].edge], Total(k, ports[i].rate)))
  }

  /** What a node writes on a port in its k-th execution. */
  function Block(net: Network, n: nat, p: nat, k: nat, ins: seq<seq<Sample>>): (b: seq<Sample>)
    requires n < |net.nodes| && p < |net.nodes[n].outputs|
    ensures |b| == net.nodes[n].outputs[p].rate
  {
    seq(net.nodes[n].outputs[p].rate, i requires 0 <= i => net.sample(n, p, k, ins, i))
  }

  // ---------------------------------------------------------------------- execution

  /** prepareForRunning(): an input would underflow or an output would overflow. */
  predicate WillUnderflow(net: Network, s: State, n: nat)
    requires WellFormed(net) && Shape(net, s) && n < |net.nodes|
  {
    exists i :: 0 <= i < |net.nodes[n].inputs| && InputShort(net.nodes[n].inputs[i], s)
  }

  predicate InputShort(port: Port, s: State)
    requires port.edge < |s.hist| == |s.taken|
  {
    |s.hist[port.edge]| - s.taken[port.edge] - port.rate < 0
  }

  predicate WillOverflow(net: Network, s: State, n: nat)
    requires WellFormed(net) && Shape(net, s) && n < |net.nodes|
  {
    exists p :: 0 <= p < |net.nodes[n].outputs| && OutputFull(net, net.nodes[n].outputs[p], s)
  }

  predicate OutputFull(net: Network, port: Port, s: State)
    requires Shape(net, s) && port.edge < |net.edges|
  {
    |s.hist[port.edge]| - s.taken[port.edge] + port.rate > net.edges[port.edge].length
  }

  function ReadRate(ports: seq<Port>, e: nat): nat {
    var i := Find(ports, e);
    if i < 0 then 0 else ports[i].rate
  }

  function WriteBlock(net: Network, s: State, n: nat, e: nat): seq<Sample>
    requires WellFormed(net) && Shape(net, s) && n < |net.nodes|
  {
    var p := Find(net.nodes[n].outputs, e);
    if p < 0 then []
    else Block(net, n, p, s.fired[n], Inputs(net.nodes[n].inputs, s.fired[n] + 1, s.hist))
  }

  /** run(): a node reads its inputs and writes its outputs. */
  function Fire(net: Network, s: State, n: nat): (t: State)
    requires WellFormed(net) && Shape(net, s) && n < |net.nodes|
    ensures Shape(net, t)
  {
    State(s.fired[n := s.fired[n] + 1],
          seq(|net.edges|, e requires 0 <= e < |net.edges| => s.hist[e] + WriteBlock(net, s, n, e)),
          seq(|net.edges|, e requires 0 <= e < |net.edges| => s.taken[e] + ReadRate(net.nodes[n].inputs, e)))
  }

  /** One entry of the asynchronous schedule: a node that cannot run is skipped. */
  function TryFire(net: Network, s: State, n: nat): (t: State)
    requires WellFormed(net) && Shape(net, s) && n < |net.nodes|
    ensures Shape(net, t)
  {
    if WillUnderflow(net, s, n) || WillOverflow(net, s, n) then s else Fire(net, s, n)
  }

  predicate Choices(net: Network, xs: seq<nat>) {
    forall i :: 0 <= i < |xs| ==> xs[i] < |net.nodes|
  }

  /** Any order of executions at all. */
  function Run(net: Network, xs: seq<nat>): (s: State)
    requires WellFormed(net) && Choices(net, xs)
    ensures Shape(net, s)
  {
    if xs == [] then Initial(net) else TryFire(net, Run(net, xs[..|xs| - 1]), xs[|xs| - 1])
  }

  lemma RunLast(net: Network, xs: seq<nat>, n: nat)
    requires WellFormed(net) && Choices(net, xs) && n < |net.nodes|
    ensures Choices(net, xs + [n]) && Run(net, xs + [n]) == TryFire(net, Run(net, xs), n)
  {
    assert (xs + [n])[..|xs|] == xs;
  }

  // ---------------------------------------------------------------------- invariants

  /** What a node has written on a port after k executions, from what is on its input edges. */
  function Emitted(net: Network, n: nat, p: nat, k: nat, hist: seq<seq<Sample>>): seq<Sample>
    requires WellFormed(net) && |hist| == |net.edges| && n < |net.nodes| && p < |net.nodes[n].outputs|
  {
    if k == 0 then []
    else Emitted(net, n, p, k - 1, hist) + Block(net, n, p, k - 1, Inputs(net.nodes[n].inputs, k, hist))
  }

  /** A node has read no more than there is. */
  predicate Fed(net: Network, s: State, n: nat)
    requires WellFormed(net) && Shape(net, s) && n < |net.nodes|
  {
    forall i :: 0 <= i < |net.nodes[n].inputs| ==>
      Total(s.fired[n], net.nodes[n].inputs[i].rate) <= |s.hist[net.nodes[n].inputs[i].edge]|
      && s.taken[net.nodes[n].inputs[i].edge] == Total(s.fired[n], net.nodes[n].inputs[i].rate)
  }

  /** Kahn's equations: an edge carries its delay followed by what its producer makes of its inputs. */
  predicate Equations(net: Network, s: State, n: nat)
    requires WellFormed(net) && Shape(net, s) && n < |net.nodes|
  {
    forall p :: 0 <= p < |net.nodes[n].outputs| ==> EquationAt(net, s, n, p)
  }

  predicate EquationAt(net: Network, s: State, n: nat, p: nat)
    requires WellFormed(net) && Shape(net, s) && n < |net.nodes| && p < |net.nodes[n].outputs|
  {
    var e := net.nodes[n].outputs[p].edge;
    s.hist[e] == net.edges[e].delay + Emitted(net, n, p, s.fired[n], s.hist)
  }

  predicate Kahn(net: Network, s: State)
    requires WellFormed(net)
  {
    Shape(net, s) && forall n :: 0 <= n < |net.nodes| ==> NodeKahn(net, s, n)
  }

  predicate NodeKahn(net: Network, s: State, n: nat)
    requires WellFormed(net) && Shape(net, s) && n < |net.nodes|
  {
    Fed(net, s, n) && Equations(net, s, n)
  }

  /** No FIFO has under- or overflowed. */
  predicate InBounds(net: Network, s: State)
    requires Shape(net, s)
  {
    forall e :: 0 <= e < |net.edges| ==> s.taken[e] <= |s.hist[e]| <= s.taken[e] + net.edges[e].length
  }

  predicate Extends(h: seq<seq<Sample>>, g: seq<seq<Sample>>) {
    |h| == |g| && forall e :: 0 <= e < |h| ==> h[e] <= g[e]
  }

  /** The inputs of k executions of a node are already in `h`. */
  predicate Covers(ports: seq<Port>, k: nat, h: seq<seq<Sample>>)
    requires PortsOk(ports, |h|)
  {
    forall i :: 0 <= i < |ports| ==> Total(k, ports[i].rate) <= |h[ports[i].edge]|
  }

  lemma CoversLess(ports: seq<Port>, j: nat, k: nat, h: seq<seq<Sample>>)
    requires PortsOk(ports, |h|) && j <= k && Covers(ports, k, h)
    ensures Covers(ports, j, h)
  {
    forall i | 0 <= i < |ports| ensures Total(j, ports[i].rate) <= |h[ports[i].edge]| {
      TotalMono(j, k, ports[i].rate);
    }
  }

  lemma InputsStable(ports: seq<Port>, k: nat, h: seq<seq<Sample>>, g: seq<seq<Sample>>)
    requires PortsOk(ports, |h|) && Extends(h, g) && Covers(ports, k, h)
    ensures Inputs(ports, k, h) == Inputs(ports, k, g)
  {
    var a, b := Inputs(ports, k, h), Inputs(ports, k, g);
    forall i | 0 <= i < |ports| ensures a[i] == b[i] {
      assert h[ports[i].edge] <= g[ports[i].edge];
    }
  }

  /** More input does not change what was emitted. */
  lemma {:induction false} EmittedStable(net: Network, n: nat, p: nat, k: nat, h: seq<seq<Sample>>, g: seq<seq<Sample>>)
    requires WellFormed(net) && |h| == |net.edges| && n < |net.nodes| && p < |net.nodes[n].outputs|
    requires Extends(h, g) && Covers(net.nodes[n].inputs, k, h)
    ensures Emitted(net, n, p, k, h) == Emitted(net, n, p, k, g)
  {
    if k > 0 {
      CoversLess(net.nodes[n].inputs, k - 1, k, h);
      EmittedStable(net, n, p, k - 1, h, g);
      InputsStable(net.nodes[n].inputs, k, h, g);
    }
  }

  lemma {:induction false} EmittedMono(net: Network, n: nat, p: nat, j: nat, k: nat, h: seq<seq<Sample>>)
    requires WellFormed(net) && |h| == |net.edges| && n < |net.nodes| && p < |net.nodes[n].outputs|
    requires j <= k
    ensures Emitted(net, n, p, j, h) <= Emitted(net, n, p, k, h)
  {
    if j < k {
      EmittedMono(net, n, p, j, k - 1, h);
    }
  }

  // ------------------------------------------------------------- one execution keeps them

  lemma FindIs(ports: seq<Port>, edges: nat, i: nat)
    requires PortsOk(ports, edges) && i < |ports|
    ensures Find(ports, ports[i].edge) == i
  {
    assert forall j :: 0 <= j < |ports| && j != i ==> ports[j].edge != ports[i].edge;
  }

  lemma FindOther(net: Network, n: nat, m: nat, i: nat)
    requires WellFormed(net) && n < |net.nodes| && m < |net.nodes| && n != m
    ensures i < |net.nodes[m].inputs| ==> Find(net.nodes[n].inputs, net.nodes[m].inputs[i].edge) < 0
    ensures i < |net.nodes[m].outputs| ==> Find(net.nodes[n].outputs, net.nodes[m].outputs[i].edge) < 0
  {
    if n < m {
      assert DisjointPorts(net.nodes[n].inputs, net.nodes[m].inputs);
    } else {
      assert DisjointPorts(net.nodes[m].inputs, net.nodes[n].inputs);
    }
  }

  lemma FireExtends(net: Network, s: State, n: nat)
    requires WellFormed(net) && Shape(net, s) && n < |net.nodes|
    ensures Extends(s.hist, Fire(net, s, n).hist)
  {
  }

  lemma FedCovers(net: Network, s: State, n: nat)
    requires WellFormed(net) && Shape(net, s) && n < |net.nodes| && Fed(net, s, n)
    ensures Covers(net.nodes[n].inputs, s.fired[n], s.hist)
  {
  }

  /** A node that does not underflow has what its next execution reads. */
  lemma ReadyCovers(net: Network, s: State, n: nat)
    requires WellFormed(net) && Shape(net, s) && n < |net.nodes| && Fed(net, s, n)
    requires !WillUnderflow(net, s, n)
    ensures Covers(net.nodes[n].inputs, s.fired[n] + 1, s.hist)
  {
    var ports := net.nodes[n].inputs;
    forall i | 0 <= i < |ports| ensures Total(s.fired[n] + 1, ports[i].rate) <= |s.hist[ports[i].edge]| {
      assert !InputShort(ports[i], s);
    }
  }

  lemma FireFedAt(net: Network, s: State, n: nat, m: nat, i: nat)
    requires WellFormed(net) && Shape(net, s) && n < |net.nodes| && m < |net.nodes| && Fed(net, s, m)
    requires i < |net.nodes[m].inputs| && Covers(net.nodes[n].inputs, s.fired[n] + 1, s.hist)
    ensures var port, t := net.nodes[m].inputs[i], Fire(net, s, n);
            Total(t.fired[m], port.rate) <= |t.hist[port.edge]|
            && t.taken[port.edge] == Total(t.fired[m], port.rate)
  {
    if m == n {
      FindIs(net.nodes[m].inputs, |net.edges|, i);
    } else {
      FindOther(net, n, m, i);
    }
  }

  lemma FireFed(net: Network, s: State, n: nat, m: nat)
    requires WellFormed(net) && Kahn(net, s) && n < |net.nodes| && m < |net.nodes| && !WillUnderflow(net, s, n)
    ensures Fed(net, Fire(net, s, n), m)
  {
    var t := Fire(net, s, n);
    var ports := net.nodes[m].inputs;
    assert NodeKahn(net, s, n) && NodeKahn(net, s, m);
    ReadyCovers(net, s, n);
    forall i | 0 <= i < |ports|
      ensures Total(t.fired[m], ports[i].rate) <= |t.hist[ports[i].edge]|
      ensures t.taken[ports[i].edge] == Total(t.fired[m], ports[i].rate)
    {
      FireFedAt(net, s, n, m, i);
    }
  }

  lemma FireEquationAt(net: Network, s: State, n: nat, m: nat, p: nat)
    requires WellFormed(net) && Shape(net, s) && n < |net.nodes| && m < |net.nodes|
    requires p < |net.nodes[m].outputs| && EquationAt(net, s, m, p)
    requires Covers(net.nodes[n].inputs, s.fired[n] + 1, s.hist)
    requires Covers(net.nodes[m].inputs, s.fired[m], s.hist)
    ensures EquationAt(net, Fire(net, s, n), m, p)
  {
    var t := Fire(net, s, n);
    FireExtends(net, s, n);
    EmittedStable(net, m, p, s.fired[m], s.hist, t.hist);
    if m == n {
      FindIs(net.nodes[m].outputs, |net.edges|, p);
      InputsStable(net.nodes[n].inputs, s.fired[n] + 1, s.hist, t.hist);
    } else {
      FindOther(net, n, m, p);
    }
  }

  lemma FireEquations(net: Network, s: State, n: nat, m: nat)
    requires WellFormed(net) && Kahn(net, s) && n < |net.nodes| && m < |net.nodes| && !WillUnderflow(net, s, n)
    ensures Equations(net, Fire(net, s, n), m)
  {
    assert NodeKahn(net, s, n) && NodeKahn(net, s, m);
    ReadyCovers(net, s, n);
    FedCovers(net, s, m);
    forall p | 0 <= p < |net.nodes[m].outputs| ensures EquationAt(net, Fire(net, s, n), m, p) {
      FireEquationAt(net, s, n, m, p);
    }
  }

  lemma FireKeepsKahn(net: Network, s: State, n: nat)
    requires WellFormed(net) && Kahn(net, s) && n < |net.nodes| && !WillUnderflow(net, s, n)
    ensures Kahn(net, Fire(net, s, n))
  {
    forall m | 0 <= m < |net.nodes| ensures NodeKahn(net, Fire(net, s, n), m) {
      FireFed(net, s, n, m);
      FireEquations(net, s, n, m);
    }
  }

  lemma InitialKahn(net: Network)
    requires WellFormed(net)
    ensures Kahn(net, Initial(net))
  {
    var s := Initial(net);
    forall n | 0 <= n < |net.nodes| ensures NodeKahn(net, s, n) {
    }
  }

  /** A guarded execution leaves every FIFO within its bounds, and so does a skipped one. */
  lemma FireKeepsBounds(net: Network, s: State, n: nat)
    requires WellFormed(net) && Shape(net, s) && InBounds(net, s) && n < |net.nodes|
    requires !WillUnderflow(net, s, n) && !WillOverflow(net, s, n)
    ensures InBounds(net, Fire(net, s, n))
  {
    var t := Fire(net, s, n);
    var node := net.nodes[n];
    forall e | 0 <= e < |net.edges| ensures t.taken[e] <= |t.hist[e]| <= t.taken[e] + net.edges[e].length {
      var i, p := Find(node.inputs, e), Find(node.outputs, e);
      assert i >= 0 ==> !InputShort(node.inputs[i], s);
      assert p >= 0 ==> !OutputFull(net, node.outputs[p], s);
    }
  }

  /** For every order of executions: no FIFO under- or overflows and Kahn's equations hold throughout. */
  lemma {:induction false} RunKeepsKahn(net: Network, xs: seq<nat>)
    requires WellFormed(net) && Choices(net, xs)
    ensures Kahn(net, Run(net, xs)) && InBounds(net, Run(net, xs))
  {
    if xs == [] {
      InitialKahn(net);
    } else {
      var s, n := Run(net, xs[..|xs| - 1]), xs[|xs| - 1];
      RunKeepsKahn(net, xs[..|xs| - 1]);
      if !WillUnderflow(net, s, n) && !WillOverflow(net, s, n) {
        FireKeepsKahn(net, s, n);
        FireKeepsBounds(net, s, n);
      }
    }
  }

  // ---------------------------------------------------------- the stream the network defines

  /** An execution in the network with unbounded FIFOs. */
  function FireUnbounded(net: Network, s: State, n: nat): (t: State)
    requires WellFormed(net) && Shape(net, s) && n < |net.nodes|
    ensures Shape(net, t)
  {
    if WillUnderflow(net, s, n) then s else Fire(net, s, n)
  }

  /** The first `j` nodes have their turn. */
  function Sweep(net: Network, s: State, j: nat): (t: State)
    requires WellFormed(net) && Shape(net, s) && j <= |net.nodes|
    ensures Shape(net, t)
  {
    if j == 0 then s else FireUnbounded(net, Sweep(net, s, j - 1), j - 1)
  }

  /** `t` rounds over all nodes: the streams these converge to are the ones the network defines. */
  function Rounds(net: Network, t: nat): (s: State)
    requires WellFormed(net)
    ensures Shape(net, s)
  {
    if t == 0 then Initial(net) else Sweep(net, Rounds(net, t - 1), |net.nodes|)
  }

  predicate Below(s: State, u: State) {
    && |s.fired| == |u.fired| && Extends(s.hist, u.hist)
    && forall n :: 0 <= n < |s.fired| ==> s.fired[n] <= u.fired[n]
  }

  lemma BelowTrans(a: State, b: State, c: State)
    requires Below(a, b) && Below(b, c)
    ensures Below(a, c)
  {
    forall e | 0 <= e < |a.hist| ensures a.hist[e] <= c.hist[e] {
      assert a.hist[e] <= b.hist[e] && b.hist[e] <= c.hist[e];
    }
  }

  lemma StepGrows(net: Network, s: State, n: nat)
    requires WellFormed(net) && Shape(net, s) && n < |net.nodes|
    ensures Below(s, FireUnbounded(net, s, n))
  {
    if !WillUnderflow(net, s, n) {
      FireExtends(net, s, n);
    }
  }

  lemma StepKahn(net: Network, s: State, n: nat) returns (t: State)
    requires WellFormed(net) && Kahn(net, s) && n < |net.nodes|
    ensures t == FireUnbounded(net, s, n) && Kahn(net, t)
  {
    t := FireUnbounded(net, s, n);
    if !WillUnderflow(net, s, n) {
      FireKeepsKahn(net, s, n);
    }
  }

  lemma {:induction false} SweepStaysKahn(net: Network, s: State, i: nat) returns (a: State)
    requires WellFormed(net) && Kahn(net, s) && i <= |net.nodes|
    ensures a == Sweep(net, s, i) && Kahn(net, a)
  {
    if i == 0 {
      return s;
    }
    var before := SweepStaysKahn(net, s, i - 1);
    a := StepKahn(net, before, i - 1);
  }

  lemma SweepKahn(net: Network, s: State, i: nat)
    requires WellFormed(net) && Kahn(net, s) && i <= |net.nodes|
    ensures Kahn(net, Sweep(net, s, i))
  {
    var a := SweepStaysKahn(net, s, i);
  }

  /** A sweep only adds, whatever part of it has been done. */
  lemma {:induction false} SweepGrows(net: Network, s: State, i: nat, j: nat) returns (a: State, b: State)
    requires WellFormed(net) && Shape(net, s) && i <= j <= |net.nodes|
    ensures a == Sweep(net, s, i) && b == Sweep(net, s, j) && Below(a, b)
  {
    if i == j {
      a, b := Sweep(net, s, i), Sweep(net, s, i);
    } else {
      var c;
      a, c := SweepGrows(net, s, i, j - 1);
      b := FireUnbounded(net, c, j - 1);
      StepGrows(net, c, j - 1);
      BelowTrans(a, c, b);
    }
  }

  lemma SweepBelow(net: Network, s: State, i: nat, j: nat)
    requires WellFormed(net) && Shape(net, s) && i <= j <= |net.nodes|
    ensures Below(Sweep(net, s, i), Sweep(net, s, j))
  {
    var a, b := SweepGrows(net, s, i, j);
  }

  lemma {:induction false} RoundsKahn(net: Network, t: nat)
    requires WellFormed(net)
    ensures Kahn(net, Rounds(net, t))
  {
    if t == 0 {
      InitialKahn(net);
    } else {
      RoundsKahn(net, t - 1);
      SweepKahn(net, Rounds(net, t - 1), |net.nodes|);
    }
  }

  lemma {:induction false} RoundsMono(net: Network, t: nat, u: nat)
    requires WellFormed(net) && t <= u
    ensures Below(Rounds(net, t), Rounds(net, u))
  {
    if t < u {
      RoundsMono(net, t, u - 1);
      var b := Rounds(net, u - 1);
      var a, c := SweepGrows(net, b, 0, |net.nodes|);
      BelowTrans(Rounds(net, t), b, c);
    }
  }

  // -------------------------------------------------------------------- determinism

  /** What a node has read is within what it has in a state that is further on. */
  lemma TakenBelow(net: Network, s: State, u: State, n: nat)
    requires WellFormed(net) && Kahn(net, s) && Kahn(net, u) && Below(s, u)
    requires n < |net.nodes| && s.fired[n] == u.fired[n] && !WillUnderflow(net, s, n)
    ensures !WillUnderflow(net, u, n)
  {
    var ports := net.nodes[n].inputs;
    assert NodeKahn(net, s, n) && NodeKahn(net, u, n);
    forall i | 0 <= i < |ports| ensures !InputShort(ports[i], u) {
      assert !InputShort(ports[i], s);
      assert s.hist[ports[i].edge] <= u.hist[ports[i].edge];
    }
  }

  /** In a round of the unbounded network, a node that could run has caught up with one execution more. */
  lemma SweepFires(net: Network, s: State, u: State, n: nat)
    requires WellFormed(net) && Kahn(net, s) && Kahn(net, u) && Below(s, u)
    requires n < |net.nodes| && !WillUnderflow(net, s, n)
    ensures Sweep(net, u, |net.nodes|).fired[n] >= s.fired[n] + 1
  {
    var w := Sweep(net, u, n);
    SweepKahn(net, u, n);
    SweepBelow(net, u, 0, n);
    BelowTrans(s, u, w);
    TurnFires(net, s, w, n);
    assert Sweep(net, u, n + 1) == FireUnbounded(net, w, n);
    SweepBelow(net, u, n + 1, |net.nodes|);
  }

  lemma TurnFires(net: Network, s: State, w: State, n: nat)
    requires WellFormed(net) && Kahn(net, s) && Kahn(net, w) && Below(s, w)
    requires n < |net.nodes| && !WillUnderflow(net, s, n)
    ensures FireUnbounded(net, w, n).fired[n] >= s.fired[n] + 1
  {
    if w.fired[n] == s.fired[n] {
      TakenBelow(net, s, w, n);
    }
  }

  lemma FireBelowAt(net: Network, s: State, v: State, n: nat, p: nat)
    requires WellFormed(net) && Shape(net, s) && Shape(net, v) && Extends(s.hist, v.hist)
    requires n < |net.nodes| && p < |net.nodes[n].outputs| && v.fired[n] >= s.fired[n] + 1
    requires EquationAt(net, s, n, p) && EquationAt(net, v, n, p)
    requires Covers(net.nodes[n].inputs, s.fired[n] + 1, s.hist)
    ensures var e := net.nodes[n].outputs[p].edge; Fire(net, s, n).hist[e] <= v.hist[e]
  {
    var k := s.fired[n] + 1;
    FindIs(net.nodes[n].outputs, |net.edges|, p);
    EmittedStable(net, n, p, k, s.hist, v.hist);
    EmittedMono(net, n, p, k, v.fired[n], v.hist);
  }

  /** One execution of a node stays below a state that is further on and has executed the node as often. */
  lemma FireBelow(net: Network, s: State, v: State, n: nat)
    requires WellFormed(net) && Kahn(net, s) && Kahn(net, v) && Below(s, v)
    requires n < |net.nodes| && !WillUnderflow(net, s, n) && v.fired[n] >= s.fired[n] + 1
    ensures Below(Fire(net, s, n), v)
  {
    var t := Fire(net, s, n);
    assert NodeKahn(net, s, n) && NodeKahn(net, v, n);
    ReadyCovers(net, s, n);
    forall e | 0 <= e < |net.edges| ensures t.hist[e] <= v.hist[e] {
      assert s.hist[e] <= v.hist[e];
      var p := Find(net.nodes[n].outputs, e);
      if p >= 0 {
        FireBelowAt(net, s, v, n, p);
      }
    }
  }

  /** Kahn determinism: whatever the order of executions and whatever was skipped, after t schedule entries
      every edge carries a prefix of the one stream the network defines, as far as t rounds unfold it. */
  lemma {:induction false} RunFollowsStream(net: Network, xs: seq<nat>)
    requires WellFormed(net) && Choices(net, xs)
    ensures Below(Run(net, xs), Rounds(net, |xs|))
  {
    if xs != [] {
      var prior, n := xs[..|xs| - 1], xs[|xs| - 1];
      var s, u, v := Run(net, prior), Rounds(net, |xs| - 1), Rounds(net, |xs|);
      RunFollowsStream(net, prior);
      RunKeepsKahn(net, prior);
      RoundsKahn(net, |xs| - 1);
      RoundsKahn(net, |xs|);
      RoundsMono(net, |xs| - 1, |xs|);
      BelowTrans(s, u, v);
      if !WillUnderflow(net, s, n) && !WillOverflow(net, s, n) {
        SweepFires(net, s, u, n);
        FireBelow(net, s, v, n);
      }
    }
  }

  /** So two executions of the same network, with any schedules and any lengths, never disagree: on every
      edge, what one has produced begins with what the other has. */
  lemma SchedulesAgree(net: Network, xs: seq<nat>, ys: seq<nat>, e: nat)
    requires WellFormed(net) && Choices(net, xs) && Choices(net, ys) && e < |net.edges|
    ensures Run(net, xs).hist[e] <= Run(net, ys).hist[e] || Run(net, ys).hist[e] <= Run(net, xs).hist[e]
  {
    var a, b := Run(net, xs), Run(net, ys);
    var t := if |xs| <= |ys| then |ys| else |xs|;
    RunFollowsStream(net, xs);
    RunFollowsStream(net, ys);
    RoundsMono(net, |xs|, t);
    RoundsMono(net, |ys|, t);
    var all := Rounds(net, t).hist[e];
    assert a.hist[e] <= Rounds(net, |xs|).hist[e] <= all;
    assert b.hist[e] <= Rounds(net, |ys|).hist[e] <= all;
    assert a.hist[e] == all[..|a.hist[e]|] && b.hist[e] == all[..|b.hist[e]|];
  }
}
