/** The compacting FIFO between two nodes. Its buffer never wraps: before a write, what is still to be read
    is moved to the start of the buffer. */
module Fifo {

  /** What memcpy does on this platform: an ascending copy, correct here although the regions overlap. */
  method CopyDown<T>(a: array<T>, from: nat, count: nat)
    requires from + count <= a.Length
    modifies a
    ensures a[..] == old(a[from..from + count]) + old(a[count..])
  {
    var i := 0;
    while i < count
      invariant 0 <= i <= count
      invariant forall k :: 0 <= k < i ==> a[k] == old(a[from + k])
      invariant forall k :: i <= k < a.Length ==> a[k] == old(a[k])
    {
      a[i] := a[from + i];
      i := i + 1;
    }
  }

  /** A node fills the region it asked for. */
  method Fill<T>(a: array<T>, pos: nat, samples: seq<T>)
    requires pos + |samples| <= a.Length
    modifies a
    ensures a[..] == old(a[..pos]) + samples + old(a[pos + |samples|..])
  {
    var i := 0;
    while i < |samples|
      invariant 0 <= i <= |samples|
      invariant forall k :: 0 <= k < a.Length ==> a[k] == if pos <= k < pos + i then samples[k - pos] else old(a[k])
    {
      a[pos + i] := samples[i];
      i := i + 1;
    }
  }

  /** The first samples of a region, and the rest of it. */
  lemma Parted<T>(cells: seq<T>, from: nat, to: nat, nb: nat)
    requires from + nb <= to <= |cells|
    ensures cells[from..from + nb] == cells[from..to][..nb] && cells[from + nb..to] == cells[from..to][nb..]
  {
  }

  // ------------------------------------------------------------- the buffer, cell by cell

  /** The cells of the buffer and the two positions. */
  datatype Memory<T> = Memory(cells: seq<T>, read: nat, write: nat) {
    predicate Ok() {
      read <= write <= |cells|
    }

    /** Before a write, what is pending moves to the start. */
    function Compacted(): (m: Memory<T>)
      requires Ok()
      ensures m.Ok() && |m.cells| == |cells| && m.read == 0 && m.write == write - read
    {
      Memory(cells[read..write] + cells[write - read..], 0, write - read)
    }

    function Stored(samples: seq<T>): (m: Memory<T>)
      requires Ok() && write - read + |samples| <= |cells|
      ensures m.Ok() && |m.cells| == |cells|
    {
      var m := Compacted();
      Memory(m.cells[..m.write] + samples + m.cells[m.write + |samples|..], 0, m.write + |samples|)
    }

    function Fetched(nb: nat): (m: Memory<T>)
      requires Ok() && nb <= write - read
      ensures m.Ok()
    {
      this.(read := read + nb)
    }
  }

  class Fifo<T(0)> {
    const buffer: array<T>
    const length: nat
    const delay: nat
    var readPos: nat
    var writePos: nat
    /** The samples the FIFO started with and those written since, and how many of them have been read. */
    ghost var stream: seq<T>
    ghost var taken: nat

    ghost predicate Valid()
      reads this, buffer
    {
      && readPos <= writePos <= length <= buffer.Length && delay <= length
      && taken <= |stream| && Contents() == stream[taken..]
    }

    ghost function Contents(): seq<T>
      requires readPos <= writePos <= buffer.Length
      reads this, buffer
    {
      buffer[readPos..writePos]
    }

    function Mem(): (m: Memory<T>)
      reads this, buffer
    {
      Memory(buffer[..], readPos, writePos)
    }

    constructor (buffer: array<T>, length: nat, delay: nat)
      requires delay <= length <= buffer.Length
      ensures Valid() && this.buffer == buffer && this.length == length && this.delay == delay
      ensures stream == buffer[..delay] && taken == 0 && Mem() == Memory(buffer[..], 0, delay)
    {
      this.buffer := buffer;
      this.length := length;
      this.delay := delay;
      readPos := 0;
      writePos := delay;
      stream := buffer[..delay];
      taken := 0;
    }

    predicate WillUnderflowWith(nb: nat)
      reads this
    {
      writePos - readPos - nb < 0
    }

    predicate WillOverflowWith(nb: nat)
      reads this
    {
      writePos - readPos + nb > length
    }

    function NbSamplesInFifo(): int
      reads this
    {
      writePos - readPos
    }

    function NbOfFreeSamplesInFifo(): int
      reads this
    {
      length - writePos + readPos
    }

    /** The tests and the two counts are about the queue, whatever the positions. */
    lemma GuardsMeanRoom(nb: nat)
      requires Valid()
      ensures WillUnderflowWith(nb) <==> |stream| - taken < nb
      ensures WillOverflowWith(nb) <==> |stream| - taken + nb > length
      ensures NbSamplesInFifo() == |stream| - taken && NbOfFreeSamplesInFifo() == length - (|stream| - taken)
    {
      assert |Contents()| == |stream[taken..]|;
    }

    /** Room for `nb` samples behind what is pending, which may have moved but is the same. */
    method GetWriteBuffer(nb: nat) returns (pos: nat)
      requires Valid() && !WillOverflowWith(nb)
      modifies `readPos, `writePos, buffer
      ensures readPos == 0 && pos + nb == writePos <= length
      ensures buffer[readPos..pos] == old(Contents())
      ensures buffer[..] == old(Mem()).Compacted().cells && pos == old(Mem()).Compacted().write
    {
      ghost var contents, m := Contents(), Mem().Compacted();
      if readPos > 0 {
        CopyDown(buffer, readPos, writePos - readPos);
        writePos := writePos - readPos;
        readPos := 0;
      }
      assert buffer[readPos..writePos] == contents;
      assert buffer[..] == m.cells;
      pos := writePos;
      writePos := writePos + nb;
    }

    /** The oldest `nb` samples, in place. */
    method GetReadBuffer(nb: nat) returns (pos: nat)
      requires Valid() && !WillUnderflowWith(nb)
      modifies `readPos, `taken
      ensures Valid() && taken == old(taken) + nb
      ensures pos + nb <= length && buffer[pos..pos + nb] == stream[old(taken)..taken]
      ensures Mem() == old(Mem()).Fetched(nb)
    {
      ghost var contents := Contents();
      pos := readPos;
      readPos := readPos + nb;
      taken := taken + nb;
      Parted(buffer[..], pos, writePos, nb);
      assert buffer[pos..pos + nb] == contents[..nb] && Contents() == contents[nb..];
    }

    /** A producer's turn: it asks for room and fills it. */
    method Write(samples: seq<T>)
      requires Valid() && !WillOverflowWith(|samples|)
      modifies `readPos, `writePos, `stream, buffer
      ensures Valid() && stream == old(stream) + samples && taken == old(taken)
      ensures Mem() == old(Mem()).Stored(samples)
    {
      var pos := GetWriteBuffer(|samples|);
      Fill(buffer, pos, samples);
      assert Contents() == buffer[readPos..pos] + buffer[pos..pos + |samples|];
      assert (stream + samples)[taken..] == stream[taken..] + samples;
      stream := stream + samples;
    }

    /** A consumer's turn: it asks for samples and uses them. */
    method Read(nb: nat) returns (samples: seq<T>)
      requires Valid() && !WillUnderflowWith(nb)
      modifies `readPos, `taken
      ensures Valid() && taken == old(taken) + nb && samples == stream[old(taken)..taken]
      ensures Mem() == old(Mem()).Fetched(nb)
    {
      var pos := GetReadBuffer(nb);
      samples := buffer[pos..pos + nb];
    }

    /** The positions go back to their start; the delay samples are whatever the buffer holds there now. */
    method Reset()
      requires Valid()
      modifies `readPos, `writePos, `stream, `taken
      ensures Valid() && stream == buffer[..delay] && taken == 0 && Mem() == Memory(buffer[..], 0, delay)
    {
      readPos := 0;
      writePos := delay;
      stream := buffer[..delay];
      taken := 0;
    }
  }

  // ------------------------------------------------------------- any use of a FIFO

  datatype Use<T> = Put(samples: seq<T>) | Get(nb: nat)

  /** What a use that comes after its test, as in the nodes, appends: one that does not fit is skipped. */
  function Appended<T>(length: nat, pending: nat, use: Use<T>): seq<T> {
    if use.Put? && pending + |use.samples| <= length then use.samples else []
  }

  function PendingAfter<T>(length: nat, pending: nat, use: Use<T>): nat {
    match use
    case Put(samples) => if pending + |samples| <= length then pending + |samples| else pending
    case Get(nb) => if pending < nb then pending else pending - nb
  }

  /** The same for the buffer; the tests are on the positions. */
  function UseOn<T>(length: nat, m: Memory<T>, use: Use<T>): (n: Memory<T>)
    requires m.Ok() && length <= |m.cells|
    ensures n.Ok() && |n.cells| == |m.cells|
  {
    match use
    case Put(samples) => if m.write - m.read + |samples| <= length then m.Stored(samples) else m
    case Get(nb) => if m.write - m.read < nb then m else m.Fetched(nb)
  }

  function Written<T>(length: nat, pending: nat, uses: seq<Use<T>>): seq<T>
    decreases |uses|
  {
    if uses == [] then []
    else Appended(length, pending, uses[0]) + Written(length, PendingAfter(length, pending, uses[0]), uses[1..])
  }

  method GuardedUse<T(0)>(f: Fifo<T>, use: Use<T>) returns (got: seq<T>)
    requires f.Valid()
    modifies f, f.buffer
    ensures f.Valid() && f.taken <= |f.stream|
    ensures f.stream == old(f.stream) + Appended(f.length, old(|f.stream| - f.taken), use)
    ensures f.taken == old(f.taken) + |got| && got == f.stream[old(f.taken)..f.taken]
    ensures |f.stream| - f.taken == PendingAfter(f.length, old(|f.stream| - f.taken), use)
    ensures f.Mem() == UseOn(f.length, old(f.Mem()), use)
  {
    got := [];
    f.GuardsMeanRoom(if use.Put? then |use.samples| else use.nb);
    match use {
      case Put(samples) =>
        if !f.WillOverflowWith(|samples|) {
          f.Write(samples);
        }
      case Get(nb) =>
        if !f.WillUnderflowWith(nb) {
          got := f.Read(nb);
        }
    }
  }

  /** The same, for the queue alone. */
  method NextUse<T(0)>(f: Fifo<T>, use: Use<T>) returns (got: seq<T>)
    requires f.Valid()
    modifies f, f.buffer
    ensures f.Valid() && f.taken <= |f.stream|
    ensures f.stream == old(f.stream) + Appended(f.length, old(|f.stream| - f.taken), use)
    ensures f.taken == old(f.taken) + |got| && got == f.stream[old(f.taken)..f.taken]
    ensures |f.stream| - f.taken == PendingAfter(f.length, old(|f.stream| - f.taken), use)
  {
    got := GuardedUse(f, use);
  }

  /** One use more of the script has been made. */
  lemma WrittenStep<T>(length: nat, pending: nat, uses: seq<Use<T>>, i: nat, sofar: seq<T>, all: seq<T>)
    requires i < |uses| && sofar + Written(length, pending, uses[i..]) == all
    ensures sofar + Appended(length, pending, uses[i])
            + Written(length, PendingAfter(length, pending, uses[i]), uses[i + 1..]) == all
  {
    assert uses[i..][1..] == uses[i + 1..];
  }

  /** The first `i` uses have been made and have read `read`; with those to come `all` is written. */
  ghost predicate SoFar<T(0)>(f: Fifo<T>, uses: seq<Use<T>>, i: nat, first: nat, read: seq<T>, all: seq<T>)
    reads f, f.buffer
  {
    && i <= |uses| && f.Valid() && f.taken == first + |read| <= |f.stream| && read == f.stream[first..f.taken]
    && f.stream + Written(f.length, |f.stream| - f.taken, uses[i..]) == all
  }

  method ReadOn<T(0)>(f: Fifo<T>, uses: seq<Use<T>>, i: nat, ghost first: nat, read: seq<T>, ghost all: seq<T>)
    returns (now: seq<T>)
    requires i < |uses| && SoFar(f, uses, i, first, read, all)
    modifies f, f.buffer
    ensures SoFar(f, uses, i + 1, first, now, all)
  {
    WrittenStep(f.length, |f.stream| - f.taken, uses, i, f.stream, all);
    var got := NextUse(f, uses[i]);
    now := read + got;
  }

  /** The compacting FIFO is a bounded queue: for every sequence of uses, what has been read is, in order, a
      prefix of the delay samples followed by everything written, and the rest is what is still pending. */
  method RefinesQueue<T(0)>(f: Fifo<T>, uses: seq<Use<T>>) returns (read: seq<T>)
    requires f.Valid()
    modifies f, f.buffer
    ensures f.Valid()
    ensures f.stream == old(f.stream) + Written(f.length, old(|f.stream| - f.taken), uses)
    ensures f.taken == old(f.taken) + |read| <= |f.stream| && read == f.stream[old(f.taken)..f.taken]
  {
    read := [];
    ghost var first, all := f.taken, f.stream + Written(f.length, |f.stream| - f.taken, uses);
    assert uses[0..] == uses;
    for i := 0 to |uses|
      invariant SoFar(f, uses, i, first, read, all)
    {
      read := ReadOn(f, uses, i, first, read, all);
    }
  }
}
