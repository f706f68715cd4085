/** The generated scheduler of the simple example: a source of 5 samples, a node that adds one to 7 samples at
    a time and a sink of 5, over two FIFOs of 11, executed by a fixed list of 19 entries. */
module SimpleScheduler {
  import opened Dataflow
  import opened Periodic
  import opened Fifo

  const PROCESSING: nat := 0
  const SINK: nat := 1
  const SOURCE: nat := 2

  const SCHEDULE: seq<nat> := [2, 2, 0, 1, 2, 0, 1, 2, 2, 0, 1, 1, 2, 0, 1, 2, 0, 1, 1]

  const FIFOSIZE: nat := 11

  function Nodes(): (nodes: seq<Node>)
    ensures |nodes| == 3
  {
    [Node([Port(0, 7)], [Port(1, 7)]), Node([Port(1, 5)], []), Node([], [Port(0, 5)])]
  }

  lemma NodesDisjoint(n: nat, m: nat)
    requires n < m < 3
    ensures DisjointPorts(Nodes()[n].inputs, Nodes()[m].inputs)
    ensures DisjointPorts(Nodes()[n].outputs, Nodes()[m].outputs)
  {
  }

  lemma NodesOk(n: nat)
    requires n < 3
    ensures PortsOk(Nodes()[n].inputs, 2) && PortsOk(Nodes()[n].outputs, 2)
  {
  }

  lemma ScheduledNodes(j: nat)
    requires j < |SCHEDULE|
    ensures SCHEDULE[j] < 3
  {
  }

  lemma GraphOk(net: Network)
    requires net.nodes == Nodes() && net.edges == [Edge(FIFOSIZE, []), Edge(FIFOSIZE, [])]
    ensures WellFormed(net) && Choices(net, SCHEDULE)
  {
    forall n | 0 <= n < 3 ensures PortsOk(net.nodes[n].inputs, 2) && PortsOk(net.nodes[n].outputs, 2) {
      NodesOk(n);
    }
    forall n, m | 0 <= n < m < 3
      ensures DisjointPorts(net.nodes[n].inputs, net.nodes[m].inputs)
      ensures DisjointPorts(net.nodes[n].outputs, net.nodes[m].outputs)
    {
      NodesDisjoint(n, m);
    }
    forall j | 0 <= j < |SCHEDULE| ensures SCHEDULE[j] < |net.nodes| {
      ScheduledNodes(j);
    }
  }

  /** The graph, for any node functions. */
  function Graph(sample: (nat, nat, nat, seq<seq<Sample>>, nat) -> Sample, status: (nat, nat) -> int): (net: Network)
    ensures WellFormed(net) && Choices(net, SCHEDULE)
  {
    var net := Network(Nodes(), [Edge(FIFOSIZE, []), Edge(FIFOSIZE, [])], sample, status);
    GraphOk(net);
    net
  }

  // -------------------------------------------------------------- the schedule is static

  /** Along one pass: the samples in the two FIFOs and the executions of the sink. */
  datatype Point = Point(count0: int, count1: int, sinks: int)

  const TABLE: seq<Point> := [
    Point(0, 0, 0), Point(5, 0, 0), Point(10, 0, 0), Point(3, 7, 0), Point(3, 2, 1), Point(8, 2, 1), Point(1, 9, 1),
    Point(1, 4, 2), Point(6, 4, 2), Point(11, 4, 2), Point(4, 11, 2), Point(4, 6, 3), Point(4, 1, 4), Point(9, 1, 4),
    Point(2, 8, 4), Point(2, 3, 5), Point(7, 3, 5), Point(0, 10, 5), Point(0, 5, 6), Point(0, 0, 7)]

  function Next(c: Point, n: nat): Point {
    if n == PROCESSING then Point(c.count0 - 7, c.count1 + 7, c.sinks)
    else if n == SINK then Point(c.count0, c.count1 - 5, c.sinks + 1)
    else Point(c.count0 + 5, c.count1, c.sinks)
  }

  predicate Enough(c: Point, n: nat) {
    if n == PROCESSING then c.count0 >= 7 && c.count1 + 7 <= FIFOSIZE
    else if n == SINK then c.count1 >= 5
    else c.count0 + 5 <= FIFOSIZE
  }

  predicate StepAt(j: nat)
    requires j < |SCHEDULE|
  {
    SCHEDULE[j] < 3 && TABLE[j + 1] == Next(TABLE[j], SCHEDULE[j]) && Enough(TABLE[j], SCHEDULE[j])
  }

  lemma EarlyStep(j: nat)
    requires j < 9
    ensures StepAt(j)
  {
  }

  lemma LateStep(j: nat)
    requires 9 <= j < |SCHEDULE|
    ensures StepAt(j)
  {
  }

  lemma TableStep(j: nat)
    requires j < |SCHEDULE|
    ensures StepAt(j)
  {
    if j < 9 {
      EarlyStep(j);
    } else {
      LateStep(j);
    }
  }

  lemma ProcessingCounts(net: Network, a: int, b: int)
    requires net == Graph(net.sample, net.status)
    ensures FireCounts(net, [a, b], PROCESSING) == [a - 7, b + 7]
    ensures a >= 7 && b + 7 <= FIFOSIZE ==> CanFire(net, [a, b], PROCESSING)
  {
    assert Find([Port(0, 7)], 0) == 0 && Find([Port(0, 7)], 1) < 0;
    assert Find([Port(1, 7)], 1) == 0 && Find([Port(1, 7)], 0) < 0;
  }

  lemma SinkCounts(net: Network, a: int, b: int)
    requires net == Graph(net.sample, net.status)
    ensures FireCounts(net, [a, b], SINK) == [a, b - 5] && (b >= 5 ==> CanFire(net, [a, b], SINK))
  {
    assert Find([Port(1, 5)], 1) == 0 && Find([Port(1, 5)], 0) < 0;
  }

  lemma SourceCounts(net: Network, a: int, b: int)
    requires net == Graph(net.sample, net.status)
    ensures FireCounts(net, [a, b], SOURCE) == [a + 5, b] && (a + 5 <= FIFOSIZE ==> CanFire(net, [a, b], SOURCE))
  {
    assert Find([Port(0, 5)], 0) == 0 && Find([Port(0, 5)], 1) < 0;
  }

  lemma CountsOf(net: Network, c: Point, n: nat)
    requires net == Graph(net.sample, net.status) && n < 3
    ensures FireCounts(net, [c.count0, c.count1], n) == [Next(c, n).count0, Next(c, n).count1]
    ensures Enough(c, n) ==> CanFire(net, [c.count0, c.count1], n)
  {
    if n == PROCESSING {
      ProcessingCounts(net, c.count0, c.count1);
    } else if n == SINK {
      SinkCounts(net, c.count0, c.count1);
    } else {
      SourceCounts(net, c.count0, c.count1);
    }
  }

  lemma CountsStep(net: Network, j: nat, before: seq<int>)
    requires net == Graph(net.sample, net.status) && 0 < j <= |SCHEDULE|
    requires before == [TABLE[j - 1].count0, TABLE[j - 1].count1]
    ensures FireCounts(net, before, SCHEDULE[j - 1]) == [TABLE[j].count0, TABLE[j].count1]
    ensures CanFire(net, before, SCHEDULE[j - 1])
  {
    TableStep(j - 1);
    CountsOf(net, TABLE[j - 1], SCHEDULE[j - 1]);
  }

  lemma TableStart()
    ensures TABLE[0].count0 == 0 && TABLE[0].count1 == 0 && |TABLE| == |SCHEDULE| + 1
  {
  }

  lemma {:induction false} TableHolds(net: Network, j: nat) returns (c: seq<int>)
    requires net == Graph(net.sample, net.status) && j <= |SCHEDULE|
    ensures c == PassCounts(net, [0, 0], SCHEDULE, j) && c == [TABLE[j].count0, TABLE[j].count1]
  {
    if j == 0 {
      c := [0, 0];
      TableStart();
    } else {
      var before := TableHolds(net, j - 1);
      CountsStep(net, j, before);
      c := FireCounts(net, before, SCHEDULE[j - 1]);
    }
  }

  lemma EntryIsStatic(net: Network, j: nat)
    requires net == Graph(net.sample, net.status) && j < |SCHEDULE|
    ensures EntryAdmissible(net, [0, 0], SCHEDULE, j)
  {
    var c := TableHolds(net, j);
    CountsStep(net, j + 1, c);
  }

  /** One pass fits from empty FIFOs and the rates balance, so by Periodic.EveryPassFits all passes do. */
  lemma ScheduleIsStatic(net: Network)
    requires net == Graph(net.sample, net.status)
    ensures Counts(net, Initial(net)) == [0, 0]
    ensures Admissible(net, [0, 0], SCHEDULE) && Balanced(net, SCHEDULE)
  {
    forall j | 0 <= j < |SCHEDULE| ensures EntryAdmissible(net, [0, 0], SCHEDULE, j) {
      EntryIsStatic(net, j);
    }
    var c := TableHolds(net, |SCHEDULE|);
    BalancedRestores(net, [0, 0], SCHEDULE);
  }

  // ------------------------------------------------------------------------ the program

  function Feed(feed: nat -> Sample, count: nat): (s: seq<Sample>)
    ensures |s| == count && forall t :: 0 <= t < count ==> s[t] == feed(t)
  {
    seq(count, t requires 0 <= t => feed(t))
  }

  function PlusOne(s: seq<Sample>): (r: seq<Sample>)
    ensures |r| == |s| && forall t :: 0 <= t < |s| ==> r[t] == s[t] + 1.0
  {
    seq(|s|, t requires 0 <= t < |s| => s[t] + 1.0)
  }

  /** What is on the two edges and at the sink, in terms of the source's data. */
  predicate Meaning(feed: nat -> Sample, produced: nat, stream0: seq<Sample>, taken0: nat,
                    stream1: seq<Sample>, taken1: nat, sunk: seq<Sample>) {
    && stream0 == Feed(feed, produced)
    && taken0 <= |stream0| && stream1 == PlusOne(stream0[..taken0])
    && taken1 <= |stream1| && sunk == stream1[..taken1]
  }

  lemma SourceMeaning(feed: nat -> Sample, produced: nat, s0: seq<Sample>, t0: nat, s1: seq<Sample>, t1: nat,
                      sunk: seq<Sample>, out: seq<Sample>)
    requires Meaning(feed, produced, s0, t0, s1, t1, sunk)
    requires |out| == 5 && forall t :: 0 <= t < 5 ==> out[t] == feed(produced + t)
    ensures Meaning(feed, produced + 5, s0 + out, t0, s1, t1, sunk)
  {
    assert Feed(feed, produced + 5) == s0 + out;
    assert (s0 + out)[..t0] == s0[..t0];
  }

  lemma ProcessingMeaning(feed: nat -> Sample, produced: nat, s0: seq<Sample>, t0: nat, s1: seq<Sample>, t1: nat,
                          sunk: seq<Sample>, b: seq<Sample>)
    requires Meaning(feed, produced, s0, t0, s1, t1, sunk) && t0 + 7 <= |s0|
    requires |b| == 7 && forall t :: 0 <= t < 7 ==> b[t] == s0[t0 + t] + 1.0
    ensures Meaning(feed, produced, s0, t0 + 7, s1 + b, t1, sunk)
  {
    assert PlusOne(s0[..t0 + 7]) == s1 + b;
    assert (s1 + b)[..t1] == s1[..t1];
  }

  lemma SinkMeaning(feed: nat -> Sample, produced: nat, s0: seq<Sample>, t0: nat, s1: seq<Sample>, t1: nat,
                    sunk: seq<Sample>)
    requires Meaning(feed, produced, s0, t0, s1, t1, sunk) && t1 + 5 <= |s1|
    ensures Meaning(feed, produced, s0, t0, s1, t1 + 5, sunk + s1[t1..t1 + 5])
  {
  }

  /** The program's objects: the state of the source, the FIFOs and what the sink has received. */
  class SimpleGraph {
    const feed: nat -> Sample
    const fifo0: Fifo<Sample>
    const fifo1: Fifo<Sample>
    var produced: nat
    var sunk: seq<Sample>

    ghost predicate Separate() {
      fifo0 != fifo1 && fifo0.buffer != fifo1.buffer && fifo0.length == fifo1.length == FIFOSIZE
    }

    ghost predicate Valid()
      reads this, fifo0, fifo1, fifo0.buffer, fifo1.buffer
    {
      && Separate() && fifo0.Valid() && fifo1.Valid()
      && Meaning(feed, produced, fifo0.stream, fifo0.taken, fifo1.stream, fifo1.taken, sunk)
    }

    /** The FIFOs hold what the table says, and the sink has run `c.sinks` times since it had `base` samples. */
    ghost predicate At(c: Point, base: nat)
      reads this, fifo0, fifo1
    {
      && |fifo0.stream| - fifo0.taken == c.count0 && |fifo1.stream| - fifo1.taken == c.count1
      && |sunk| == base + 5 * c.sinks
    }

    constructor (feed: nat -> Sample)
      ensures Valid() && At(TABLE[0], 0) && this.feed == feed
      ensures fresh(fifo0) && fresh(fifo1) && fresh(fifo0.buffer) && fresh(fifo1.buffer)
    {
      this.feed := feed;
      var buf0 := new Sample[11](_ => 0.0);
      var buf1 := new Sample[11](_ => 0.0);
      fifo0 := new Fifo<Sample>(buf0, FIFOSIZE, 0);
      fifo1 := new Fifo<Sample>(buf1, FIFOSIZE, 0);
      produced := 0;
      sunk := [];
    }

    method RunSource(ghost c: Point, ghost base: nat)
      requires Valid() && At(c, base) && Enough(c, SOURCE)
      modifies this, fifo0, fifo0.buffer
      ensures Valid() && At(Next(c, SOURCE), base)
    {
      fifo0.GuardsMeanRoom(5);
      var out := [];
      var i := 0;
      while i < 5
        invariant 0 <= i <= 5 && |out| == i
        invariant forall t :: 0 <= t < i ==> out[t] == feed(produced + t)
      {
        out := out + [feed(produced + i)];
        i := i + 1;
      }
      SourceMeaning(feed, produced, fifo0.stream, fifo0.taken, fifo1.stream, fifo1.taken, sunk, out);
      fifo0.Write(out);
      produced := produced + 5;
    }

    method RunSink(ghost c: Point, ghost base: nat)
      requires Valid() && At(c, base) && Enough(c, SINK)
      modifies this, fifo1
      ensures Valid() && At(Next(c, SINK), base)
    {
      fifo1.GuardsMeanRoom(5);
      SinkMeaning(feed, produced, fifo0.stream, fifo0.taken, fifo1.stream, fifo1.taken, sunk);
      var samples := fifo1.Read(5);
      sunk := sunk + samples;
    }

    method RunProcessing(ghost c: Point, ghost base: nat)
      requires Valid() && At(c, base) && Enough(c, PROCESSING)
      modifies fifo0, fifo1, fifo1.buffer
      ensures Valid() && At(Next(c, PROCESSING), base)
    {
      fifo0.GuardsMeanRoom(7);
      fifo1.GuardsMeanRoom(7);
      ghost var s0, t0 := fifo0.stream, fifo0.taken;
      var a := fifo0.Read(7);
      var b := AddOne(a);
      ProcessingMeaning(feed, produced, s0, t0, fifo1.stream, fifo1.taken, sunk, b);
      fifo1.Write(b);
    }

    method AddOne(a: seq<Sample>) returns (b: seq<Sample>)
      requires |a| == 7
      ensures b == PlusOne(a)
    {
      b := [];
      var i := 0;
      while i < 7
        invariant 0 <= i <= 7 && b == PlusOne(a[..i])
      {
        assert a[..i + 1] == a[..i] + [a[i]];
        b := b + [a[i] + 1.0];
        i := i + 1;
      }
      assert a[..7] == a;
    }

    /** The switch of the scheduler. */
    method RunEntry(n: nat, ghost c: Point, ghost base: nat)
      requires Valid() && At(c, base) && n < 3 && Enough(c, n)
      modifies this, fifo0, fifo1, fifo0.buffer, fifo1.buffer
      ensures Valid() && At(Next(c, n), base)
    {
      match n {
        case 0 => RunProcessing(c, base);
        case 1 => RunSink(c, base);
        case _ => RunSource(c, base);
      }
    }

    method RunPass(ghost base: nat)
      requires Valid() && At(TABLE[0], base)
      modifies this, fifo0, fifo1, fifo0.buffer, fifo1.buffer
      ensures Valid() && At(TABLE[0], base + 35)
    {
      var id := 0;
      while id < 19
        invariant 0 <= id <= 19 && Valid() && At(TABLE[id], base)
      {
        TableStep(id);
        RunEntry(SCHEDULE[id], TABLE[id], base);
        id := id + 1;
      }
    }

    /** The generated loops. They never look at the FIFOs, which never under- or overflow; for all data of the
        source and any number of passes, the sink gets the source's samples plus one, all of them. */
    method Scheduler(iterations: nat) returns (nbSchedule: nat)
      requires Valid() && At(TABLE[0], 0)
      modifies this, fifo0, fifo1, fifo0.buffer, fifo1.buffer
      ensures Valid() && nbSchedule == iterations
      ensures sunk == PlusOne(Feed(feed, 35 * iterations)) && produced == |sunk|
    {
      nbSchedule := 0;
      var debugCounter := iterations;
      while debugCounter > 0
        invariant nbSchedule + debugCounter == iterations
        invariant Valid() && At(TABLE[0], 35 * nbSchedule)
      {
        RunPass(35 * nbSchedule);
        debugCounter := debugCounter - 1;
        nbSchedule := nbSchedule + 1;
      }
      assert fifo0.stream[..fifo0.taken] == fifo0.stream && fifo1.stream[..fifo1.taken] == fifo1.stream;
    }
  }
}
