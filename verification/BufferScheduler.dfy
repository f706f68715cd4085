/** The generated scheduler of the buffer example: seven entries over six FIFOs that live in two buffers, one of
    them given by the application. Of the two outputs of the duplicate only the first is written. */
module BufferScheduler {
  import opened SharedMemory

  const SAMPLES: nat := 5

  const MY_BUFFER: nat := 0
  const BUF0: nat := 1

  /** fifo0 to fifo5. */
  function Buffers(): (b: seq<nat>)
    ensures |b| == 6
  {
    [MY_BUFFER, BUF0, MY_BUFFER, BUF0, MY_BUFFER, MY_BUFFER]
  }

  /** 6, 1, 0, 5, 2, 3, 4: source, processing1, dup0, sink2, processing2, processing3, sink1. */
  function Generated(): (s: Schedule)
    ensures |s| == 7 && Shape(s, Buffers())
  {
    [Op(6, [], [0], [true], false),
     Op(1, [0], [3], [true], false),
     Op(0, [3], [4, 5], [true, false], true),
     Op(5, [4], [], [], false),
     Op(2, [5], [1], [true], false),
     Op(3, [1], [2], [true], false),
     Op(4, [2], [], [], false)]
  }

  /** The entries that write and read each FIFO. */
  const WRITER: seq<nat> := [0, 4, 5, 1, 2, 2]
  const READER: seq<nat> := [1, 5, 6, 2, 3, 4]

  lemma WriterOf(i: nat, e: nat)
    requires i < 7 && e in Generated()[i].outs
    ensures e < 6 && i == WRITER[e]
  {
  }

  lemma ReaderOf(k: nat, e: nat)
    requires k < 7 && e in Generated()[k].ins
    ensures e < 6 && k == READER[e]
  {
  }

  /** A FIFO written while another waits to be read is not in its buffer. */
  lemma TablesDisjoint(e: nat, d: nat)
    requires e < 6 && d < 6 && WRITER[e] < WRITER[d] <= READER[e]
    ensures Buffers()[d] != Buffers()[e]
  {
  }

  lemma GeneratedCopies()
    ensures OnlyCopiesMeet(Generated(), Buffers())
  {
    var s := Generated();
    assert s[2].written[0] && Buffers()[s[2].outs[0]] == Buffers()[s[2].outs[1]];
    forall j, p | 0 <= j < |s| && 0 <= p < |s[j].outs| ensures OutputOk(s[j], Buffers(), p) {
      assert j != 2 ==> |s[j].outs| <= 1;
    }
  }

  lemma GeneratedOrder()
    ensures WrittenBeforeRead(Generated())
  {
    var s := Generated();
    assert 0 in s[0].outs && 3 in s[1].outs && 4 in s[2].outs && 5 in s[2].outs && 1 in s[4].outs && 2 in s[5].outs;
    forall j | 0 <= j < |s| ensures InputsWritten(s, j) {
    }
  }

  lemma GeneratedRanges()
    ensures DisjointRanges(Generated(), Buffers())
  {
    var s := Generated();
    forall i, j, k | 0 <= i < j <= k < |s| ensures NoClash(s[i], s[j], s[k], Buffers()) {
      forall e, d | e in s[i].outs && e in s[k].ins && d in s[j].outs ensures Buffers()[d] != Buffers()[e] {
        WriterOf(i, e);
        WriterOf(j, d);
        ReaderOf(k, e);
        TablesDisjoint(e, d);
      }
    }
  }

  /** The generated schedule may share its memory: for all data and node functions, both sinks get what they
      would get with six separate buffers. */
  lemma GeneratedSharingIsInvisible<N>(nodes: Nodes<N>, a: Machine<N>, b: Machine<N>, k: nat)
    requires Ready(a, Generated(), Buffers()) && Ready(b, Generated(), Buffers())
    requires a.nodes == b.nodes && a.log == b.log
    ensures Passes(a, Generated(), Buffers(), false, nodes, k).log == Passes(b, Generated(), Buffers(), true, nodes, k).log
  {
    GeneratedCopies();
    GeneratedOrder();
    GeneratedRanges();
    SharingIsInvisible(Generated(), Buffers(), nodes, a, b, k);
  }

  // ---------------------------------------------------------------------- the program

  function Map(g: real -> real, s: Block): (r: Block)
    ensures |r| == |s| && forall i :: 0 <= i < |s| ==> r[i] == g(s[i])
  {
    seq(|s|, i requires 0 <= i < |s| => g(s[i]))
  }

  /** The data of the source in one pass. */
  function Feed(source: (nat, nat) -> real, pass: nat): (r: Block)
    ensures |r| == SAMPLES && forall i :: 0 <= i < SAMPLES ==> r[i] == source(pass, i)
  {
    seq(SAMPLES, i requires 0 <= i => source(pass, i))
  }

  method RunSource(b: array<real>, source: (nat, nat) -> real, pass: nat)
    requires b.Length == SAMPLES
    modifies b
    ensures b[..] == Feed(source, pass)
  {
    for i := 0 to SAMPLES
      invariant forall t :: 0 <= t < i ==> b[t] == source(pass, t)
    {
      b[i] := source(pass, i);
    }
  }

  method RunProcessing(a: array<real>, b: array<real>, g: real -> real)
    requires a.Length == b.Length == SAMPLES && a != b
    modifies b
    ensures b[..] == Map(g, a[..])
  {
    for i := 0 to SAMPLES
      invariant forall t :: 0 <= t < i ==> b[t] == g(a[t])
    {
      b[i] := g(a[i]);
    }
  }

  method RunDuplicate(a: array<real>, b: array<real>)
    requires a.Length == b.Length == SAMPLES && a != b
    modifies b
    ensures b[..] == a[..]
  {
    for i := 0 to SAMPLES
      invariant forall t :: 0 <= t < i ==> b[t] == a[t]
    {
      b[i] := a[i];
    }
  }

  /** The data of the source and the functions of the three processing nodes. */
  datatype Job = Job(source: (nat, nat) -> real, g1: real -> real, g2: real -> real, g3: real -> real)

  /** What a node writes in its k-th execution. */
  function Made(job: Job, n: nat, k: nat, ins: seq<Block>): Block {
    if n == 6 then Feed(job.source, k)
    else if |ins| != 1 then []
    else Map(if n == 1 then job.g1 else if n == 2 then job.g2 else job.g3, ins[0])
  }

  ghost predicate Computes(nodes: Nodes<nat>, job: Job) {
    && (forall n: nat, k: nat, ins, p: nat :: nodes.out(n, k, ins, p) == Made(job, n, k, ins))
    && (forall n: nat, k: nat, ins :: nodes.next(n, k, ins) == k + 1)
  }

  /** The nodes of the program, each with the number of its executions as its state. */
  function Program(job: Job): (nodes: Nodes<nat>)
    ensures Computes(nodes, job)
  {
    Nodes((n, k, ins, p) => Made(job, n, k, ins), (n, k, ins) => k + 1)
  }

  /** The machine over the two arrays and unused places, before the first pass. */
  function Start(myBuffer: Block, buf0: Block): (m: Machine<nat>)
    ensures Ready(m, Generated(), Buffers()) && Counted(m, 0)
  {
    Machine([myBuffer, buf0, [], [], [], []], map[0 := 0, 1 := 0, 2 := 0, 3 := 0, 4 := 0, 5 := 0, 6 := 0], [])
  }

  /** The source has been executed `k` times. */
  predicate Counted(m: Machine<nat>, k: nat) {
    6 in m.nodes && m.nodes[6] == k
  }

  /** What a node has read on its only input, execution by execution. */
  function ReadBy(log: seq<(nat, seq<Block>)>, n: nat): seq<Block> {
    if log == [] then []
    else
      var last := log[|log| - 1];
      ReadBy(log[..|log| - 1], n) + if last.0 == n && |last.1| == 1 then last.1 else []
  }

  lemma ReadByLast(log: seq<(nat, seq<Block>)>, e: (nat, seq<Block>), n: nat)
    ensures ReadBy(log + [e], n) == ReadBy(log, n) + if e.0 == n && |e.1| == 1 then e.1 else []
  {
    assert (log + [e])[..|log|] == log;
  }

  /** One entry on the machine, for an entry with at most one input of which at most the first output is written. */
  lemma ExecuteEntry(m: Machine<nat>, nodes: Nodes<nat>, j: nat) returns (t: Machine<nat>)
    requires Ready(m, Generated(), Buffers()) && j < 7
    ensures Ready(t, Generated(), Buffers()) && t == Execute(m, Buffers(), true, nodes, Generated()[j])
    ensures var op := Generated()[j];
            var ins := if op.ins == [] then [] else [m.mem[Buffers()[op.ins[0]]]];
            && t.log == m.log + [(op.node, ins)]
            && t.mem == (if op.outs == [] then m.mem
                         else m.mem[Buffers()[op.outs[0]] := Output(nodes, op, m.nodes[op.node], ins, 0)])
            && t.nodes == m.nodes[op.node := nodes.next(op.node, m.nodes[op.node], ins)]
  {
    var op := Generated()[j];
    var ins := Read(m.mem, Places(Buffers(), true, op.ins));
    assert ins == if op.ins == [] then [] else [m.mem[Buffers()[op.ins[0]]]];
    t := Execute(m, Buffers(), true, nodes, op);
    WriteEntry(m.mem, nodes, op, m.nodes[op.node], ins, j);
  }

  lemma WriteEntry(mem: seq<Block>, nodes: Nodes<nat>, op: Op, k: nat, ins: seq<Block>, j: nat)
    requires j < 7 && op == Generated()[j] && |mem| == 6
    ensures Write(mem, Buffers(), true, nodes, op, k, ins, |op.outs|)
         == if op.outs == [] then mem else mem[Buffers()[op.outs[0]] := Output(nodes, op, k, ins, 0)]
  {
    if op.outs != [] {
      assert op.written[0];
      assert Write(mem, Buffers(), true, nodes, op, k, ins, 0) == mem;
      assert Write(mem, Buffers(), true, nodes, op, k, ins, 1) == mem[Buffers()[op.outs[0]] := Output(nodes, op, k, ins, 0)];
      if |op.outs| == 2 {
        assert !op.written[1];
      }
    }
  }

  // ---------------------------------------------------------------------- the generated loops

  /** The arrays are the two places the machine uses. */
  ghost predicate Mirrors(m: Machine<nat>, myBuffer: array<real>, buf0: array<real>)
    reads myBuffer, buf0
  {
    && Ready(m, Generated(), Buffers()) && myBuffer.Length == buf0.Length == SAMPLES && myBuffer != buf0
    && m.mem[MY_BUFFER] == myBuffer[..] && m.mem[BUF0] == buf0[..]
  }

  /** The block the entries of a pass have made of the source's, and the place it is in, before entry `j`. */
  predicate Stage(mem: seq<Block>, j: nat, feed: Block, job: Job)
    requires |mem| == 6
  {
    match j
    case 0 => true
    case 1 => mem[MY_BUFFER] == feed
    case 2 => mem[BUF0] == Map(job.g1, feed)
    case 3 => mem[MY_BUFFER] == Map(job.g1, feed)
    case 4 => mem[MY_BUFFER] == Map(job.g1, feed)
    case 5 => mem[BUF0] == Map(job.g2, Map(job.g1, feed))
    case _ => mem[MY_BUFFER] == Map(job.g3, Map(job.g2, Map(job.g1, feed)))
  }

  /** What entry `j` does to the two places. */
  function Effect(j: nat, mem: seq<Block>, feed: Block, job: Job): (r: seq<Block>)
    requires |mem| == 6
    ensures |r| == 6
  {
    match j
    case 0 => mem[MY_BUFFER := feed]
    case 1 => mem[BUF0 := Map(job.g1, mem[MY_BUFFER])]
    case 2 => mem[MY_BUFFER := mem[BUF0]]
    case 4 => mem[BUF0 := Map(job.g2, mem[MY_BUFFER])]
    case 5 => mem[MY_BUFFER := Map(job.g3, mem[BUF0])]
    case _ => mem
  }

  lemma EntryEffect(m: Machine<nat>, j: nat, nodes: Nodes<nat>, job: Job, pass: nat) returns (t: Machine<nat>)
    requires Ready(m, Generated(), Buffers()) && j < 7 && Counted(m, if j == 0 then pass else pass + 1)
    requires Computes(nodes, job)
    ensures Ready(t, Generated(), Buffers()) && Counted(t, pass + 1)
    ensures t == Execute(m, Buffers(), true, nodes, Generated()[j])
    ensures t.mem == Effect(j, m.mem, Feed(job.source, pass), job)
    ensures ReadBy(t.log, 5) == ReadBy(m.log, 5) + if j == 3 then [m.mem[MY_BUFFER]] else []
    ensures ReadBy(t.log, 4) == ReadBy(m.log, 4) + if j == 6 then [m.mem[MY_BUFFER]] else []
  {
    t := ExecuteEntry(m, nodes, j);
    var e := t.log[|m.log|];
    assert t.log == m.log + [e];
    ReadByLast(m.log, e, 4);
    ReadByLast(m.log, e, 5);
  }

  /** The switch of the scheduler, at entry `j`. A sink gives out what it reads. */
  method RunEntry(j: nat, myBuffer: array<real>, buf0: array<real>, job: Job, pass: nat) returns (sunk: seq<Block>)
    requires j < 7 && myBuffer.Length == buf0.Length == SAMPLES && myBuffer != buf0
    modifies myBuffer, buf0
    ensures var mem := Effect(j, [old(myBuffer[..]), old(buf0[..]), [], [], [], []], Feed(job.source, pass), job);
            myBuffer[..] == mem[MY_BUFFER] && buf0[..] == mem[BUF0]
    ensures sunk == if j == 3 || j == 6 then [old(myBuffer[..])] else []
  {
    sunk := [];
    match Generated()[j].node {
      case 0 => RunDuplicate(buf0, myBuffer);
      case 1 => RunProcessing(myBuffer, buf0, job.g1);
      case 2 => RunProcessing(myBuffer, buf0, job.g2);
      case 3 => RunProcessing(buf0, myBuffer, job.g3);
      case 4 => sunk := [myBuffer[..]];
      case 5 => sunk := [myBuffer[..]];
      case _ => RunSource(myBuffer, job.source, pass);
    }
  }

  /** What the entries of a pass have given out before entry `j`: sink2's block, sink1's. */
  predicate Sunk(j: nat, feed: Block, job: Job, all1: seq<Block>, all2: seq<Block>) {
    && all2 == (if j > 3 then [Map(job.g1, feed)] else [])
    && all1 == (if j > 6 then [Map(job.g3, Map(job.g2, Map(job.g1, feed)))] else [])
  }

  lemma StageStep(j: nat, mem: seq<Block>, feed: Block, job: Job, all1: seq<Block>, all2: seq<Block>)
    requires j < 7 && |mem| == 6 && Stage(mem, j, feed, job) && Sunk(j, feed, job, all1, all2)
    ensures Stage(Effect(j, mem, feed, job), j + 1, feed, job)
    ensures Sunk(j + 1, feed, job, all1 + if j == 6 then [mem[MY_BUFFER]] else [],
                 all2 + if j == 3 then [mem[MY_BUFFER]] else [])
  {
  }

  lemma EffectLocal(j: nat, mem: seq<Block>, other: seq<Block>, feed: Block, job: Job)
    requires |mem| == |other| == 6 && mem[MY_BUFFER] == other[MY_BUFFER] && mem[BUF0] == other[BUF0]
    ensures var r, s := Effect(j, mem, feed, job), Effect(j, other, feed, job);
            r[MY_BUFFER] == s[MY_BUFFER] && r[BUF0] == s[BUF0]
  {
  }

  /** Between two states the two sinks have read these blocks. */
  predicate Gave(m: Machine<nat>, t: Machine<nat>, all1: seq<Block>, all2: seq<Block>) {
    ReadBy(t.log, 4) == ReadBy(m.log, 4) + all1 && ReadBy(t.log, 5) == ReadBy(m.log, 5) + all2
  }

  lemma GaveMore(m: Machine<nat>, u: Machine<nat>, t: Machine<nat>, all1: seq<Block>, all2: seq<Block>,
                 more1: seq<Block>, more2: seq<Block>)
    requires Gave(m, u, all1, all2) && Gave(u, t, more1, more2)
    ensures Gave(m, t, all1 + more1, all2 + more2)
  {
  }

  lemma PassStep(m: Machine<nat>, nodes: Nodes<nat>, j: nat, u: Machine<nat>, t: Machine<nat>)
    requires Ready(m, Generated(), Buffers()) && j < 7 && u == Pass(m, Generated(), Buffers(), true, nodes, j)
    requires t == Execute(u, Buffers(), true, nodes, Generated()[j])
    ensures t == Pass(m, Generated(), Buffers(), true, nodes, j + 1)
  {
  }

  /** The same, with what it keeps. */
  lemma EntryKeeps(j: nat, m: Machine<nat>, nodes: Nodes<nat>, job: Job, pass: nat, all1: seq<Block>, all2: seq<Block>)
    returns (t: Machine<nat>, sunk: seq<Block>)
    requires Ready(m, Generated(), Buffers()) && j < 7 && Counted(m, if j == 0 then pass else pass + 1)
    requires Computes(nodes, job) && Stage(m.mem, j, Feed(job.source, pass), job)
    requires Sunk(j, Feed(job.source, pass), job, all1, all2)
    ensures Ready(t, Generated(), Buffers()) && Counted(t, pass + 1)
    ensures t == Execute(m, Buffers(), true, nodes, Generated()[j])
    ensures t.mem == Effect(j, m.mem, Feed(job.source, pass), job)
    ensures Stage(t.mem, j + 1, Feed(job.source, pass), job)
    ensures sunk == if j == 3 || j == 6 then [m.mem[MY_BUFFER]] else []
    ensures Sunk(j + 1, Feed(job.source, pass), job, all1 + if j == 6 then sunk else [], all2 + if j == 3 then sunk else [])
    ensures Gave(m, t, if j == 6 then sunk else [], if j == 3 then sunk else [])
  {
    t := EntryEffect(m, j, nodes, job, pass);
    sunk := if j == 3 || j == 6 then [m.mem[MY_BUFFER]] else [];
    StageStep(j, m.mem, Feed(job.source, pass), job, all1, all2);
  }

  /** The arrays go on mirroring the machine, whose entry `j` leads from `m` to `t`. */
  method RunMirrored(j: nat, myBuffer: array<real>, buf0: array<real>, job: Job, pass: nat, ghost m: Machine<nat>,
                     ghost t: Machine<nat>) returns (sunk: seq<Block>)
    requires j < 7 && Mirrors(m, myBuffer, buf0) && Ready(t, Generated(), Buffers())
    requires t.mem == Effect(j, m.mem, Feed(job.source, pass), job)
    modifies myBuffer, buf0
    ensures Mirrors(t, myBuffer, buf0) && sunk == if j == 3 || j == 6 then [m.mem[MY_BUFFER]] else []
  {
    EffectLocal(j, m.mem, [myBuffer[..], buf0[..], [], [], [], []], Feed(job.source, pass), job);
    sunk := RunEntry(j, myBuffer, buf0, job, pass);
  }

  /** One entry, with what it keeps: the arrays mirror the machine, the block of the source is so far on its way,
      and what the sinks give out is what their nodes read in the machine. */
  method EntryStep(j: nat, myBuffer: array<real>, buf0: array<real>, job: Job, pass: nat,
                   ghost nodes: Nodes<nat>, ghost m: Machine<nat>, ghost all1: seq<Block>, ghost all2: seq<Block>)
    returns (sunk: seq<Block>, ghost t: Machine<nat>)
    requires j < 7 && Mirrors(m, myBuffer, buf0) && Counted(m, if j == 0 then pass else pass + 1)
    requires Computes(nodes, job) && Stage(m.mem, j, Feed(job.source, pass), job)
    requires Sunk(j, Feed(job.source, pass), job, all1, all2)
    modifies myBuffer, buf0
    ensures Mirrors(t, myBuffer, buf0) && Counted(t, pass + 1)
    ensures t == Execute(m, Buffers(), true, nodes, Generated()[j])
    ensures Stage(t.mem, j + 1, Feed(job.source, pass), job)
    ensures Sunk(j + 1, Feed(job.source, pass), job, all1 + if j == 6 then sunk else [], all2 + if j == 3 then sunk else [])
    ensures Gave(m, t, if j == 6 then sunk else [], if j == 3 then sunk else [])
  {
    ghost var given;
    t, given := EntryKeeps(j, m, nodes, job, pass, all1, all2);
    sunk := RunMirrored(j, myBuffer, buf0, job, pass, m, t);
  }

  /** The inner loop: the machine makes a pass over the generated schedule. */
  method RunPass(myBuffer: array<real>, buf0: array<real>, job: Job, pass: nat, ghost nodes: Nodes<nat>,
                 ghost m: Machine<nat>) returns (sunk1: seq<Block>, sunk2: seq<Block>, ghost t: Machine<nat>)
    requires Mirrors(m, myBuffer, buf0) && Counted(m, pass) && Computes(nodes, job)
    modifies myBuffer, buf0
    ensures Mirrors(t, myBuffer, buf0) && Counted(t, pass + 1)
    ensures t == Pass(m, Generated(), Buffers(), true, nodes, 7)
    ensures Sunk(7, Feed(job.source, pass), job, sunk1, sunk2)
    ensures Gave(m, t, sunk1, sunk2)
  {
    t := m;
    sunk1, sunk2 := [], [];
    for j := 0 to 7
      invariant t == Pass(m, Generated(), Buffers(), true, nodes, j)
      invariant Mirrors(t, myBuffer, buf0) && Counted(t, if j == 0 then pass else pass + 1)
      invariant Stage(t.mem, j, Feed(job.source, pass), job) && Sunk(j, Feed(job.source, pass), job, sunk1, sunk2)
      invariant Gave(m, t, sunk1, sunk2)
    {
      ghost var u := t;
      var sunk;
      sunk, t := EntryStep(j, myBuffer, buf0, job, pass, nodes, u, sunk1, sunk2);
      PassStep(m, nodes, j, u, t);
      var more1, more2 := if j == 6 then sunk else [], if j == 3 then sunk else [];
      GaveMore(m, u, t, sunk1, sunk2, more1, more2);
      sunk1, sunk2 := sunk1 + more1, sunk2 + more2;
    }
  }

  /** At every pass sink2 gets the source's block through the first function, sink1 through all three. */
  predicate Composed(job: Job, k: nat, sunk1: seq<Block>, sunk2: seq<Block>) {
    && |sunk1| == |sunk2| == k
    && (forall i :: 0 <= i < k ==> sunk2[i] == Map(job.g1, Feed(job.source, i)))
    && (forall i :: 0 <= i < k ==> sunk1[i] == Map(job.g3, Map(job.g2, Map(job.g1, Feed(job.source, i)))))
  }

  lemma ComposedStep(job: Job, k: nat, sunk1: seq<Block>, sunk2: seq<Block>, more1: seq<Block>, more2: seq<Block>)
    requires Composed(job, k, sunk1, sunk2) && Sunk(7, Feed(job.source, k), job, more1, more2)
    ensures Composed(job, k + 1, sunk1 + more1, sunk2 + more2)
  {
  }

  /** The generated loops over the two buffers, for any processing functions and any source, with `nodes` computing
      the same. What the sinks get is what their nodes read in the machine of SharedMemory, over the generated
      schedule and its shared buffers. */
  method Scheduler(myBuffer: array<real>, buf0: array<real>, job: Job, iterations: nat, ghost nodes: Nodes<nat>)
    returns (nbSchedule: nat, sunk1: seq<Block>, sunk2: seq<Block>)
    requires myBuffer.Length == buf0.Length == SAMPLES && myBuffer != buf0 && Computes(nodes, job)
    modifies myBuffer, buf0
    ensures nbSchedule == iterations && Composed(job, iterations, sunk1, sunk2)
    ensures var m := Passes(Start(old(myBuffer[..]), old(buf0[..])), Generated(), Buffers(), true, nodes, iterations);
            sunk1 == ReadBy(m.log, 4) && sunk2 == ReadBy(m.log, 5)
  {
    nbSchedule, sunk1, sunk2 := 0, [], [];
    ghost var start := Start(myBuffer[..], buf0[..]);
    ghost var m := start;
    while nbSchedule < iterations
      invariant nbSchedule <= iterations && Composed(job, nbSchedule, sunk1, sunk2)
      invariant m == Passes(start, Generated(), Buffers(), true, nodes, nbSchedule)
      invariant Mirrors(m, myBuffer, buf0) && Counted(m, nbSchedule) && Gave(start, m, sunk1, sunk2)
    {
      var more1, more2;
      ghost var u := m;
      more1, more2, m := RunPass(myBuffer, buf0, job, nbSchedule, nodes, u);
      GaveMore(start, u, m, sunk1, sunk2, more1, more2);
      ComposedStep(job, nbSchedule, sunk1, sunk2, more1, more2);
      sunk1, sunk2 := sunk1 + more1, sunk2 + more2;
      nbSchedule := nbSchedule + 1;
    }
  }

  /** The program in two buffers gives its sinks what the schedule gives them with six separate ones. */
  method SchedulerIsFaithful(myBuffer: array<real>, buf0: array<real>, job: Job, iterations: nat)
    returns (sunk1: seq<Block>, sunk2: seq<Block>)
    requires myBuffer.Length == buf0.Length == SAMPLES && myBuffer != buf0
    modifies myBuffer, buf0
    ensures Composed(job, iterations, sunk1, sunk2)
    ensures var m := Passes(Start(old(myBuffer[..]), old(buf0[..])), Generated(), Buffers(), false, Program(job), iterations);
            sunk1 == ReadBy(m.log, 4) && sunk2 == ReadBy(m.log, 5)
  {
    ghost var start := Start(myBuffer[..], buf0[..]);
    GeneratedSharingIsInvisible(Program(job), start, start, iterations);
    var nbSchedule;
    nbSchedule, sunk1, sunk2 := Scheduler(myBuffer, buf0, job, iterations, Program(job));
  }
}
