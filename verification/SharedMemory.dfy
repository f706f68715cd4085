/** Generated schedules in which several FIFOs use the same memory. Each FIFO is a plain block that is written
    once and read in the same pass; the generator gives FIFOs one buffer when their data is not needed at the
    same time, or is the same. */
module SharedMemory {

  type Block = seq<real>

  /** One schedule entry. A duplicate copies its input to all its outputs; the generated code writes only the
      outputs in `written`, since the others share a buffer with one of those. */
  datatype Op = Op(node: nat, ins: seq<nat>, outs: seq<nat>, written: seq<bool>, duplicate: bool)

  /** `out(n, s, ins, p)` is what node n writes on its p-th output in state s, `next` its next state. */
  datatype Nodes<!N> = Nodes(out: (nat, N, seq<Block>, nat) -> Block, next: (nat, N, seq<Block>) -> N)

  /** `log` is what every node has read, in the order of the executions: for the sinks, the result. */
  datatype Machine<N> = Machine(mem: seq<Block>, nodes: map<nat, N>, log: seq<(nat, seq<Block>)>)

  type Schedule = seq<Op>

  /** Where FIFO e is: its own place, or its buffer. */
  function Place(buf: seq<nat>, shared: bool, e: nat): nat {
    if shared && e < |buf| then buf[e] else e
  }

  predicate OpOk(op: Op, fifos: nat) {
    && (forall i :: 0 <= i < |op.ins| ==> op.ins[i] < fifos)
    && (forall p :: 0 <= p < |op.outs| ==> op.outs[p] < fifos)
    && (forall p, q :: 0 <= p < q < |op.outs| ==> op.outs[p] != op.outs[q])
    && |op.written| == |op.outs| && (op.duplicate ==> |op.ins| == 1)
  }

  predicate Shape(sched: Schedule, buf: seq<nat>) {
    && (forall j :: 0 <= j < |sched| ==> OpOk(sched[j], |buf|))
    && (forall e :: 0 <= e < |buf| ==> buf[e] < |buf|)
  }

  // ------------------------------------------------------------------------- running

  function Read(mem: seq<Block>, places: seq<nat>): seq<Block>
    requires forall i :: 0 <= i < |places| ==> places[i] < |mem|
  {
    seq(|places|, i requires 0 <= i < |places| => mem[places[i]])
  }

  function Places(buf: seq<nat>, shared: bool, es: seq<nat>): (ps: seq<nat>)
    ensures |ps| == |es|
  {
    seq(|es|, i requires 0 <= i < |es| => Place(buf, shared, es[i]))
  }

  function Output<N>(nodes: Nodes<N>, op: Op, s: N, ins: seq<Block>, p: nat): Block {
    if op.duplicate && |ins| == 1 then ins[0] else nodes.out(op.node, s, ins, p)
  }

  /** The first `p` outputs are written, one after the other. */
  function Write<N>(mem: seq<Block>, buf: seq<nat>, shared: bool, nodes: Nodes<N>, op: Op, s: N, ins: seq<Block>,
                    p: nat): (m: seq<Block>)
    requires OpOk(op, |buf|) && p <= |op.outs| && |mem| == |buf|
    requires forall e :: 0 <= e < |buf| ==> buf[e] < |buf|
    ensures |m| == |mem|
  {
    if p == 0 then mem
    else
      var m := Write(mem, buf, shared, nodes, op, s, ins, p - 1);
      if shared && !op.written[p - 1] then m
      else m[Place(buf, shared, op.outs[p - 1]) := Output(nodes, op, s, ins, p - 1)]
  }

  predicate Ready<N>(m: Machine<N>, sched: Schedule, buf: seq<nat>) {
    |m.mem| == |buf| && forall j :: 0 <= j < |sched| ==> sched[j].node in m.nodes
  }

  function Execute<N>(m: Machine<N>, buf: seq<nat>, shared: bool, nodes: Nodes<N>, op: Op): (t: Machine<N>)
    requires OpOk(op, |buf|) && |m.mem| == |buf| && op.node in m.nodes
    requires forall e :: 0 <= e < |buf| ==> buf[e] < |buf|
    ensures |t.mem| == |buf| && t.nodes.Keys == m.nodes.Keys
  {
    var ins := Read(m.mem, Places(buf, shared, op.ins));
    var s := m.nodes[op.node];
    Machine(Write(m.mem, buf, shared, nodes, op, s, ins, |op.outs|),
            m.nodes[op.node := nodes.next(op.node, s, ins)],
            m.log + [(op.node, ins)])
  }

  /** The first `j` entries of a pass. */
  function Pass<N>(m: Machine<N>, sched: Schedule, buf: seq<nat>, shared: bool, nodes: Nodes<N>, j: nat): (t: Machine<N>)
    requires Shape(sched, buf) && Ready(m, sched, buf) && j <= |sched|
    ensures Ready(t, sched, buf) && t.nodes.Keys == m.nodes.Keys
  {
    if j == 0 then m else Execute(Pass(m, sched, buf, shared, nodes, j - 1), buf, shared, nodes, sched[j - 1])
  }

  function Passes<N>(m: Machine<N>, sched: Schedule, buf: seq<nat>, shared: bool, nodes: Nodes<N>, k: nat): (t: Machine<N>)
    requires Shape(sched, buf) && Ready(m, sched, buf)
    ensures Ready(t, sched, buf)
  {
    if k == 0 then m else Pass(Passes(m, sched, buf, shared, nodes, k - 1), sched, buf, shared, nodes, |sched|)
  }

  // ------------------------------------------------------------------- when it is right

  /** A FIFO is only read after it has been written in the same pass. */
  predicate WrittenBeforeRead(sched: Schedule) {
    forall j :: 0 <= j < |sched| ==> InputsWritten(sched, j)
  }

  predicate InputsWritten(sched: Schedule, j: nat)
    requires j < |sched|
  {
    forall e :: e in sched[j].ins ==> exists i :: 0 <= i < j && e in sched[i].outs
  }

  /** Between the write of a FIFO and any read of it, that read included, nothing else is written to its buffer. */
  predicate DisjointRanges(sched: Schedule, buf: seq<nat>)
    requires Shape(sched, buf)
  {
    forall i, j, k :: 0 <= i < j <= k < |sched| ==> NoClash(sched[i], sched[j], sched[k], buf)
  }

  predicate NoClash(writer: Op, other: Op, reader: Op, buf: seq<nat>)
    requires OpOk(writer, |buf|) && OpOk(other, |buf|)
  {
    forall e, d :: e in writer.outs && e in reader.ins && d in other.outs ==> buf[d] != buf[e]
  }

  /** Two outputs of one entry have one buffer only if they are copies, and an output that is not written has
      the buffer of one that is. */
  predicate OnlyCopiesMeet(sched: Schedule, buf: seq<nat>)
    requires Shape(sched, buf)
  {
    forall j, p :: 0 <= j < |sched| && 0 <= p < |sched[j].outs| ==> OutputOk(sched[j], buf, p)
  }

  predicate OutputOk(op: Op, buf: seq<nat>, p: nat)
    requires OpOk(op, |buf|) && p < |op.outs|
  {
    && (!op.written[p] ==>
          op.duplicate && exists q :: 0 <= q < |op.outs| && op.written[q] && buf[op.outs[q]] == buf[op.outs[p]])
    && (!op.duplicate ==> forall q :: 0 <= q < |op.outs| && q != p ==> buf[op.outs[q]] != buf[op.outs[p]])
  }

  /** After `j` entries of a pass, FIFO e has been written and will be read. */
  predicate Live(sched: Schedule, e: nat, j: nat) {
    exists i, k :: 0 <= i < j <= k < |sched| && e in sched[i].outs && e in sched[k].ins
  }

  /** A shared run after `j` entries looks like the separate one to all that is still to come. */
  ghost predicate Agree<N>(sched: Schedule, buf: seq<nat>, a: Machine<N>, b: Machine<N>, j: nat)
    requires Ready(a, sched, buf) && Ready(b, sched, buf) && Shape(sched, buf)
  {
    && a.nodes == b.nodes && a.log == b.log
    && forall e :: 0 <= e < |buf| && Live(sched, e, j) ==> b.mem[buf[e]] == a.mem[e]
  }

  /** What is in a place after an entry: untouched, or one of the outputs. */
  lemma {:induction false} WriteKeeps<N>(mem: seq<Block>, buf: seq<nat>, shared: bool, nodes: Nodes<N>, op: Op, s: N,
                                         ins: seq<Block>, p: nat, x: nat)
    requires OpOk(op, |buf|) && p <= |op.outs| && |mem| == |buf| && x < |mem|
    requires forall e :: 0 <= e < |buf| ==> buf[e] < |buf|
    requires forall q :: 0 <= q < p ==> Place(buf, shared, op.outs[q]) != x
    ensures Write(mem, buf, shared, nodes, op, s, ins, p)[x] == mem[x]
  {
    if p > 0 {
      WriteKeeps(mem, buf, shared, nodes, op, s, ins, p - 1, x);
    }
  }

  /** An output that is alone in its place, or meets only copies, is there after the entry. */
  lemma {:induction false} WritePuts<N>(mem: seq<Block>, buf: seq<nat>, shared: bool, nodes: Nodes<N>, op: Op, s: N,
                                        ins: seq<Block>, p: nat, q: nat)
    requires OpOk(op, |buf|) && q < p <= |op.outs| && |mem| == |buf| && (shared ==> op.written[q])
    requires forall e :: 0 <= e < |buf| ==> buf[e] < |buf|
    requires op.duplicate ==> |ins| == 1
    requires !op.duplicate ==> forall r :: 0 <= r < |op.outs| && r != q ==>
               Place(buf, shared, op.outs[r]) != Place(buf, shared, op.outs[q])
    ensures Write(mem, buf, shared, nodes, op, s, ins, p)[Place(buf, shared, op.outs[q])] == Output(nodes, op, s, ins, q)
  {
    if q < p - 1 {
      WritePuts(mem, buf, shared, nodes, op, s, ins, p - 1, q);
    }
  }

  /** In the shared run every output, written or not, is found in its buffer. */
  lemma OutputsArrive<N>(mem: seq<Block>, buf: seq<nat>, nodes: Nodes<N>, op: Op, s: N, ins: seq<Block>, q: nat)
    requires OpOk(op, |buf|) && q < |op.outs| && |mem| == |buf| && OutputOk(op, buf, q)
    requires forall e :: 0 <= e < |buf| ==> buf[e] < |buf|
    requires op.duplicate ==> |ins| == 1
    ensures Write(mem, buf, true, nodes, op, s, ins, |op.outs|)[buf[op.outs[q]]] == Output(nodes, op, s, ins, q)
  {
    if op.written[q] {
      WritePuts(mem, buf, true, nodes, op, s, ins, |op.outs|, q);
    } else {
      var r :| 0 <= r < |op.outs| && op.written[r] && buf[op.outs[r]] == buf[op.outs[q]];
      WritePuts(mem, buf, true, nodes, op, s, ins, |op.outs|, r);
    }
  }

  /** What an entry reads is live, so both runs read the same. */
  lemma SameInputs<N>(sched: Schedule, buf: seq<nat>, a: Machine<N>, b: Machine<N>, j: nat)
    requires Shape(sched, buf) && Ready(a, sched, buf) && Ready(b, sched, buf) && WrittenBeforeRead(sched)
    requires Agree(sched, buf, a, b, j) && j < |sched|
    ensures Read(b.mem, Places(buf, true, sched[j].ins)) == Read(a.mem, Places(buf, false, sched[j].ins))
  {
    var op := sched[j];
    assert InputsWritten(sched, j);
    forall i | 0 <= i < |op.ins| ensures b.mem[buf[op.ins[i]]] == a.mem[op.ins[i]] {
      assert op.ins[i] in op.ins;
      assert Live(sched, op.ins[i], j);
    }
  }

  lemma Apart(writer: Op, other: Op, reader: Op, buf: seq<nat>, e: nat)
    requires OpOk(writer, |buf|) && OpOk(other, |buf|) && NoClash(writer, other, reader, buf)
    requires e in writer.outs && e in reader.ins
    ensures forall q :: 0 <= q < |other.outs| ==> buf[other.outs[q]] != buf[e]
  {
    forall q | 0 <= q < |other.outs| ensures buf[other.outs[q]] != buf[e] {
      assert other.outs[q] in other.outs;
    }
  }

  /** A FIFO that is live after an entry that did not write it was live before, and is not overwritten. */
  lemma StillThere(sched: Schedule, buf: seq<nat>, j: nat, e: nat)
    requires Shape(sched, buf) && DisjointRanges(sched, buf)
    requires j < |sched| && e < |buf| && Live(sched, e, j + 1) && e !in sched[j].outs
    ensures Live(sched, e, j)
    ensures forall q :: 0 <= q < |sched[j].outs| ==> buf[sched[j].outs[q]] != buf[e]
  {
    var i, k :| 0 <= i < j + 1 <= k < |sched| && e in sched[i].outs && e in sched[k].ins;
    assert i < j;
    Apart(sched[i], sched[j], sched[k], buf, e);
  }

  /** The two runs leave the same in a FIFO and its buffer: either it was just written, or it was kept. */
  lemma WrittenAgrees<N>(buf: seq<nat>, nodes: Nodes<N>, op: Op, amem: seq<Block>, bmem: seq<Block>, s: N,
                         ins: seq<Block>, q: nat)
    requires OpOk(op, |buf|) && |amem| == |bmem| == |buf| && |ins| == |op.ins| && q < |op.outs|
    requires (forall e :: 0 <= e < |buf| ==> buf[e] < |buf|) && OutputOk(op, buf, q)
    ensures Write(bmem, buf, true, nodes, op, s, ins, |op.outs|)[buf[op.outs[q]]]
         == Write(amem, buf, false, nodes, op, s, ins, |op.outs|)[op.outs[q]]
  {
    OutputsArrive(bmem, buf, nodes, op, s, ins, q);
    WritePuts(amem, buf, false, nodes, op, s, ins, |op.outs|, q);
  }

  lemma AgreeAt<N>(sched: Schedule, buf: seq<nat>, nodes: Nodes<N>, amem: seq<Block>, bmem: seq<Block>, j: nat, e: nat,
                   s: N, ins: seq<Block>)
    requires Shape(sched, buf) && DisjointRanges(sched, buf) && OnlyCopiesMeet(sched, buf)
    requires |amem| == |bmem| == |buf| && j < |sched| && e < |buf| && Live(sched, e, j + 1)
    requires |ins| == |sched[j].ins| && (Live(sched, e, j) ==> bmem[buf[e]] == amem[e])
    ensures Write(bmem, buf, true, nodes, sched[j], s, ins, |sched[j].outs|)[buf[e]]
         == Write(amem, buf, false, nodes, sched[j], s, ins, |sched[j].outs|)[e]
  {
    var op := sched[j];
    if e in op.outs {
      var q :| 0 <= q < |op.outs| && op.outs[q] == e;
      assert OutputOk(op, buf, q);
      WrittenAgrees(buf, nodes, op, amem, bmem, s, ins, q);
    } else {
      StillThere(sched, buf, j, e);
      WriteKeeps(bmem, buf, true, nodes, op, s, ins, |op.outs|, buf[e]);
      WriteKeeps(amem, buf, false, nodes, op, s, ins, |op.outs|, e);
    }
  }

  lemma AgreeStep<N>(sched: Schedule, buf: seq<nat>, nodes: Nodes<N>, a: Machine<N>, b: Machine<N>, j: nat)
    returns (c: Machine<N>, d: Machine<N>)
    requires Shape(sched, buf) && Ready(a, sched, buf) && Ready(b, sched, buf)
    requires WrittenBeforeRead(sched) && DisjointRanges(sched, buf) && OnlyCopiesMeet(sched, buf)
    requires Agree(sched, buf, a, b, j) && j < |sched|
    ensures c == Execute(a, buf, false, nodes, sched[j]) && d == Execute(b, buf, true, nodes, sched[j])
    ensures Ready(c, sched, buf) && Ready(d, sched, buf) && Agree(sched, buf, c, d, j + 1)
  {
    SameInputs(sched, buf, a, b, j);
    c, d := Execute(a, buf, false, nodes, sched[j]), Execute(b, buf, true, nodes, sched[j]);
    var ins := Read(a.mem, Places(buf, false, sched[j].ins));
    var s := a.nodes[sched[j].node];
    forall e | 0 <= e < |buf| && Live(sched, e, j + 1) ensures d.mem[buf[e]] == c.mem[e] {
      AgreeAt(sched, buf, nodes, a.mem, b.mem, j, e, s, ins);
    }
  }

  /** The states of the two runs after the first `j` entries of a pass. */
  ghost predicate After<N>(sched: Schedule, buf: seq<nat>, nodes: Nodes<N>, a: Machine<N>, b: Machine<N>, j: nat,
                           c: Machine<N>, d: Machine<N>)
    requires Shape(sched, buf) && Ready(a, sched, buf) && Ready(b, sched, buf) && j <= |sched|
  {
    && c == Pass(a, sched, buf, false, nodes, j) && d == Pass(b, sched, buf, true, nodes, j)
    && Ready(c, sched, buf) && Ready(d, sched, buf) && Agree(sched, buf, c, d, j)
  }

  lemma AfterStep<N>(sched: Schedule, buf: seq<nat>, nodes: Nodes<N>, a: Machine<N>, b: Machine<N>, j: nat,
                     e: Machine<N>, f: Machine<N>) returns (c: Machine<N>, d: Machine<N>)
    requires Shape(sched, buf) && Ready(a, sched, buf) && Ready(b, sched, buf) && j < |sched|
    requires WrittenBeforeRead(sched) && DisjointRanges(sched, buf) && OnlyCopiesMeet(sched, buf)
    requires After(sched, buf, nodes, a, b, j, e, f)
    ensures After(sched, buf, nodes, a, b, j + 1, c, d)
  {
    c, d := AgreeStep(sched, buf, nodes, e, f, j);
  }

  lemma {:induction false} PassAgrees<N>(sched: Schedule, buf: seq<nat>, nodes: Nodes<N>, a: Machine<N>, b: Machine<N>,
                                          j: nat) returns (c: Machine<N>, d: Machine<N>)
    requires Shape(sched, buf) && Ready(a, sched, buf) && Ready(b, sched, buf) && j <= |sched|
    requires WrittenBeforeRead(sched) && DisjointRanges(sched, buf) && OnlyCopiesMeet(sched, buf)
    requires a.nodes == b.nodes && a.log == b.log
    ensures After(sched, buf, nodes, a, b, j, c, d)
  {
    c, d := a, b;
    if j == 0 {
      NothingLive(sched, buf, a, b);
    } else {
      var e, f := PassAgrees(sched, buf, nodes, a, b, j - 1);
      c, d := AfterStep(sched, buf, nodes, a, b, j - 1, e, f);
    }
  }

  /** At the start of a pass nothing that is in memory matters. */
  lemma NothingLive<N>(sched: Schedule, buf: seq<nat>, a: Machine<N>, b: Machine<N>)
    requires Shape(sched, buf) && Ready(a, sched, buf) && Ready(b, sched, buf)
    requires a.nodes == b.nodes && a.log == b.log
    ensures Agree(sched, buf, a, b, 0)
  {
  }

  /** Sharing memory preserves meaning: if FIFOs that share a buffer are not needed at the same time, or are
      copies, then for all node functions, all source data, any number of passes and whatever the memory held
      before, every node, the sinks among them, reads the same in the shared run as with separate buffers. */
  lemma {:induction false} SharingIsInvisible<N>(sched: Schedule, buf: seq<nat>, nodes: Nodes<N>, a: Machine<N>,
                                                 b: Machine<N>, k: nat)
    requires Shape(sched, buf) && Ready(a, sched, buf) && Ready(b, sched, buf)
    requires WrittenBeforeRead(sched) && DisjointRanges(sched, buf) && OnlyCopiesMeet(sched, buf)
    requires a.nodes == b.nodes && a.log == b.log
    ensures Passes(a, sched, buf, false, nodes, k).log == Passes(b, sched, buf, true, nodes, k).log
    ensures Passes(a, sched, buf, false, nodes, k).nodes == Passes(b, sched, buf, true, nodes, k).nodes
  {
    if k > 0 {
      SharingIsInvisible(sched, buf, nodes, a, b, k - 1);
      var c, d := Passes(a, sched, buf, false, nodes, k - 1), Passes(b, sched, buf, true, nodes, k - 1);
      c, d := PassAgrees(sched, buf, nodes, c, d, |sched|);
    }
  }
}
