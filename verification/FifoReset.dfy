/** What reset() of a FIFO gives back. It only moves the positions to their start, so the delay samples are
    there again exactly as long as no write has come over them. */
module FifoReset {
  import opened Blocks
  import opened Fifo

  function UsesOn<T>(length: nat, m: Memory<T>, uses: seq<Use<T>>): (n: Memory<T>)
    requires m.Ok() && length <= |m.cells|
    ensures n.Ok() && |n.cells| == |m.cells|
  {
    if uses == [] then m else UseOn(length, UsesOn(length, m, uses[..|uses| - 1]), uses[|uses| - 1])
  }

  /** A use without its data. */
  datatype Size = PutOf(nb: nat) | GetOf(nb: nat)

  function SizeOf<T>(use: Use<T>): Size {
    match use
    case Put(samples) => PutOf(|samples|)
    case Get(nb) => GetOf(nb)
  }

  /** The uses are of these sizes, whatever their data. */
  predicate Sized<T>(uses: seq<Use<T>>, sizes: seq<Size>) {
    |uses| == |sizes| && forall i :: 0 <= i < |uses| ==> SizeOf(uses[i]) == sizes[i]
  }

  /** Where a FIFO stands without its data: the samples in it, whether any has been read, and whether a write
      that moves or stores anything has come after that. */
  datatype Standing = Standing(pending: nat, consumed: bool, overwritten: bool)

  function StandingAfter(length: nat, s: Standing, size: Size): Standing {
    match size
    case PutOf(nb) =>
      if s.pending + nb > length then s
      else Standing(s.pending + nb, s.consumed, s.overwritten || (s.consumed && s.pending + nb > 0))
    case GetOf(nb) =>
      if s.pending < nb then s else Standing(s.pending - nb, s.consumed || nb > 0, s.overwritten)
  }

  function StandingOf(length: nat, delay: nat, sizes: seq<Size>): Standing {
    if sizes == [] then Standing(delay, false, false)
    else StandingAfter(length, StandingOf(length, delay, sizes[..|sizes| - 1]), sizes[|sizes| - 1])
  }

  /** After a sample has been read, a write moves or stores something. */
  predicate Overwrites(length: nat, delay: nat, sizes: seq<Size>) {
    StandingOf(length, delay, sizes).overwritten
  }

  // --------------------------------------------------------------- the cells and the standing

  /** Positions and standing: the first write after a read starts from cell 0 again. */
  predicate Placed<T>(m: Memory<T>, delay: nat, s: Standing) {
    && m.Ok() && m.write - m.read == s.pending
    && (!s.consumed ==> m.read == 0 && m.write >= delay)
    && (s.consumed && !s.overwritten && m.read == 0 ==> m.write == 0)
  }

  lemma PutKeepsPlaced<T>(length: nat, delay: nat, m: Memory<T>, samples: seq<T>, s: Standing)
    requires Placed(m, delay, s) && s.pending + |samples| <= length <= |m.cells|
    ensures Placed(m.Stored(samples), delay, StandingAfter(length, s, PutOf(|samples|)))
  {
    var now := m.Stored(samples);
    assert now.read == 0 && now.write == s.pending + |samples|;
  }

  lemma UseKeepsPlaced<T>(length: nat, delay: nat, m: Memory<T>, use: Use<T>, s: Standing)
    requires Placed(m, delay, s) && length <= |m.cells|
    ensures Placed(UseOn(length, m, use), delay, StandingAfter(length, s, SizeOf(use)))
  {
    match use {
      case Put(samples) =>
        if s.pending + |samples| <= length {
          PutKeepsPlaced(length, delay, m, samples, s);
        }
      case Get(nb) =>
    }
  }

  /** As long as nothing is overwritten the first `delay` cells are as they were. */
  lemma UseKeepsDelay<T>(length: nat, delay: nat, m: Memory<T>, use: Use<T>, s: Standing)
    requires Placed(m, delay, s) && delay <= length <= |m.cells|
    requires !StandingAfter(length, s, SizeOf(use)).overwritten
    ensures UseOn(length, m, use).cells[..delay] == m.cells[..delay]
  {
  }

  lemma {:induction false} UsesKeepDelay<T>(length: nat, delay: nat, cells: seq<T>, uses: seq<Use<T>>, sizes: seq<Size>)
    requires delay <= length <= |cells| && Sized(uses, sizes)
    ensures Placed(UsesOn(length, Memory(cells, 0, delay), uses), delay, StandingOf(length, delay, sizes))
    ensures !Overwrites(length, delay, sizes) ==> UsesOn(length, Memory(cells, 0, delay), uses).cells[..delay] == cells[..delay]
  {
    if uses != [] {
      var k := |uses| - 1;
      UsesKeepDelay(length, delay, cells, uses[..k], sizes[..k]);
      var m, s := UsesOn(length, Memory(cells, 0, delay), uses[..k]), StandingOf(length, delay, sizes[..k]);
      UseKeepsPlaced(length, delay, m, uses[k], s);
      if !Overwrites(length, delay, sizes) {
        UseKeepsDelay(length, delay, m, uses[k], s);
      }
    }
  }

  // ------------------------------------------------------------------- data that is lost

  /** Only the first cell holds `x`, until it is overwritten; all others hold `y`. */
  predicate Marked<T(==)>(cells: seq<T>, x: T, y: T, overwritten: bool) {
    forall i :: 0 <= i < |cells| ==> cells[i] == if i == 0 && !overwritten then x else y
  }

  predicate Plain<T(==)>(use: Use<T>, y: T) {
    use.Put? ==> forall i :: 0 <= i < |use.samples| ==> use.samples[i] == y
  }

  /** Unless it starts behind a first cell that it does not touch, a write leaves only `y` behind. */
  lemma PutMarks<T>(m: Memory<T>, samples: seq<T>, overwritten: bool, x: T, y: T)
    requires m.Ok() && Marked(m.cells, x, y, overwritten) && m.write - m.read + |samples| <= |m.cells|
    requires forall i :: 0 <= i < |samples| ==> samples[i] == y
    ensures Marked(m.Stored(samples).cells, x, y,
                   overwritten || (m.write - m.read + |samples| > 0 && (m.read > 0 || m.write == 0)))
  {
  }

  lemma UseMarks<T>(length: nat, delay: nat, m: Memory<T>, use: Use<T>, s: Standing, x: T, y: T)
    requires Placed(m, delay, s) && 0 < delay <= length <= |m.cells|
    requires Marked(m.cells, x, y, s.overwritten) && Plain(use, y)
    ensures Marked(UseOn(length, m, use).cells, x, y, StandingAfter(length, s, SizeOf(use)).overwritten)
  {
    if use.Put? && m.write - m.read + |use.samples| <= length {
      PutMarks(m, use.samples, s.overwritten, x, y);
    }
  }

  lemma {:induction false} UsesMark<T>(length: nat, delay: nat, cells: seq<T>, uses: seq<Use<T>>, sizes: seq<Size>, x: T, y: T)
    requires 0 < delay <= length <= |cells| && Sized(uses, sizes)
    requires Marked(cells, x, y, false) && forall i :: 0 <= i < |uses| ==> Plain(uses[i], y)
    ensures Marked(UsesOn(length, Memory(cells, 0, delay), uses).cells, x, y, Overwrites(length, delay, sizes))
  {
    if uses != [] {
      var k := |uses| - 1;
      UsesMark(length, delay, cells, uses[..k], sizes[..k], x, y);
      UsesKeepDelay(length, delay, cells, uses[..k], sizes[..k]);
      var m := UsesOn(length, Memory(cells, 0, delay), uses[..k]);
      UseMarks(length, delay, m, uses[k], StandingOf(length, delay, sizes[..k]), x, y);
    }
  }

  /** Uses of the given sizes that write `y` only. */
  function PlainUses<T>(sizes: seq<Size>, y: T): (uses: seq<Use<T>>)
    ensures Sized(uses, sizes) && forall i :: 0 <= i < |uses| ==> Plain(uses[i], y)
  {
    seq(|sizes|, i requires 0 <= i < |sizes| => match sizes[i] case PutOf(nb) => Put(seq(nb, _ => y)) case GetOf(nb) => Get(nb))
  }

  // ----------------------------------------------------------------------------- reset

  /** A FIFO that starts over these cells holds its delay samples again when it is reset after the uses. */
  predicate GivesBack<T(==)>(length: nat, delay: nat, cells: seq<T>, uses: seq<Use<T>>)
    requires delay <= length <= |cells|
  {
    UsesOn(length, Memory(cells, 0, delay), uses).cells[..delay] == cells[..delay]
  }

  ghost predicate AlwaysGivesBack<T(!new)>(length: nat, delay: nat, capacity: nat, sizes: seq<Size>)
    requires delay <= length <= capacity
  {
    forall cells: seq<T>, uses: seq<Use<T>> :: |cells| == capacity && Sized(uses, sizes) ==>
      GivesBack(length, delay, cells, uses)
  }

  /** reset() gives the delay samples back, whatever the data, if and only if no write that moves or stores
      anything has come after the first sample was read. (`x` and `y` are any two different samples.) */
  lemma ResetExact<T(!new)>(length: nat, delay: nat, capacity: nat, sizes: seq<Size>, x: T, y: T)
    requires 0 < delay <= length <= capacity && x != y
    ensures AlwaysGivesBack<T>(length, delay, capacity, sizes) <==> !Overwrites(length, delay, sizes)
  {
    if Overwrites(length, delay, sizes) {
      var cells := seq(capacity, i => if i == 0 then x else y);
      var uses := PlainUses(sizes, y);
      UsesMark(length, delay, cells, uses, sizes, x, y);
      var after := UsesOn(length, Memory(cells, 0, delay), uses).cells;
      assert after[..delay][0] == y && cells[..delay][0] == x;
      assert !GivesBack(length, delay, cells, uses);
    } else {
      forall cells: seq<T>, uses: seq<Use<T>> | |cells| == capacity && Sized(uses, sizes)
        ensures GivesBack(length, delay, cells, uses)
      {
        UsesKeepDelay(length, delay, cells, uses, sizes);
      }
    }
  }

  method UseAll<T(0)>(f: Fifo<T>, uses: seq<Use<T>>)
    requires f.Valid()
    modifies f, f.buffer
    ensures f.Valid() && f.Mem() == UsesOn(f.length, old(f.Mem()), uses)
  {
    ghost var before := f.Mem();
    for i := 0 to |uses|
      invariant f.Valid() && f.Mem() == UsesOn(f.length, before, uses[..i])
    {
      assert uses[..i + 1][..i] == uses[..i];
      var got := GuardedUse(f, uses[i]);
    }
    assert uses[..|uses|] == uses;
  }

  /** A new FIFO, any guarded uses, and a reset. */
  method UseAndReset<T(0)>(f: Fifo<T>, uses: seq<Use<T>>, ghost sizes: seq<Size>)
    requires f.Valid() && f.Mem() == Memory(f.buffer[..], 0, f.delay) && Sized(uses, sizes)
    modifies f, f.buffer
    ensures f.Valid() && f.taken == 0 && f.Mem() == Memory(f.buffer[..], 0, f.delay)
    ensures f.stream == UsesOn(f.length, old(f.Mem()), uses).cells[..f.delay]
    ensures !Overwrites(f.length, f.delay, sizes) ==> f.stream == old(f.buffer[..f.delay])
  {
    ghost var cells := f.buffer[..];
    UseAll(f, uses);
    UsesKeepDelay(f.length, f.delay, cells, uses, sizes);
    f.Reset();
  }

  /** The delay sample 0.0 is read, 5.0 is written: after the reset the FIFO starts with 5.0. */
  method ResetLosesDelay() returns (f: Fifo<real>)
    ensures f.Valid() && f.delay == 1 && f.stream == [5.0]
  {
    var buffer := new real[2](_ => 0.0);
    f := new Fifo(buffer, 2, 1);
    assert f.stream == [0.0];
    f.GuardsMeanRoom(1);
    var samples := f.Read(1);
    f.GuardsMeanRoom(1);
    f.Write([5.0]);
    f.Reset();
  }

  /** What generated code does for one FIFO: with `all`, as the runtime calls it, the buffer is filled with
      zeros, and the FIFO is as new over a zeroed buffer whatever it was used for. */
  method ResetFifo(f: Fifo<real>, all: bool)
    requires f.Valid()
    modifies f, f.buffer
    ensures f.Valid() && f.taken == 0 && f.Mem() == Memory(f.buffer[..], 0, f.delay)
    ensures f.buffer[..] == if all then Zeros(f.buffer.Length) else old(f.buffer[..])
    ensures f.stream == f.buffer[..f.delay] && (all ==> f.stream == Zeros(f.delay))
  {
    f.Reset();
    if all {
      Fill(f.buffer, 0, Zeros(f.buffer.Length));
      f.stream := f.buffer[..f.delay];
    }
  }
}
