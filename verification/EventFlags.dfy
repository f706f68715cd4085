/** The flag words the runtime's actors synchronise through, on the bits the code uses, and the proof
    that the words of the state machine in RuntimeModel behave like them. */
module EventFlags {
  import opened RuntimeModel

  const STREAM_PAUSE_EVENT: bv32 := 1
  const STREAM_RESUME_EVENT: bv32 := 2
  const EVENT_RESUME_EVENT: bv32 := 4
  const STREAM_DONE_EVENT: bv32 := 8

  const STREAM_PAUSED_EVENT: bv32 := 1
  const STREAM_RESUMED_EVENT: bv32 := 2
  const EVENT_PAUSED_EVENT: bv32 := 4
  const EVENT_RESUMED_EVENT: bv32 := 8

  /** Which of the four flags of a word are up. */
  datatype Quad = Quad(bit0: bool, bit1: bool, bit2: bool, bit3: bool) {
    function Raise(m: Quad): Quad {
      Quad(bit0 || m.bit0, bit1 || m.bit1, bit2 || m.bit2, bit3 || m.bit3)
    }

    function Lower(m: Quad): Quad {
      Quad(bit0 && !m.bit0, bit1 && !m.bit1, bit2 && !m.bit2, bit3 && !m.bit3)
    }

    function Common(m: Quad): Quad {
      Quad(bit0 && m.bit0, bit1 && m.bit1, bit2 && m.bit2, bit3 && m.bit3)
    }
  }

  function Bit(up: bool, bit: bv32): bv32 {
    if up then bit else 0
  }

  function Word(q: Quad): bv32 {
    Bit(q.bit0, 1) | Bit(q.bit1, 2) | Bit(q.bit2, 4) | Bit(q.bit3, 8)
  }

  function StreamBits(w: StreamWord): bv32 {
    Word(Quad(w.pause, w.resume, w.evResume, w.done))
  }

  function ReplyBits(w: ReplyWord): bv32 {
    Word(Quad(w.sPaused, w.sResumed, w.ePaused, w.eResumed))
  }

  /** The operations on words are those on flags, and words tell flags apart. */
  lemma WordOps(w: Quad, m: Quad)
    ensures Word(w) | Word(m) == Word(w.Raise(m))
    ensures Word(w) & !Word(m) == Word(w.Lower(m))
    ensures Word(w) & Word(m) == Word(w.Common(m))
    ensures Word(w) == Word(m) ==> w == m
  {
  }

  // ------------------------------------------------------------------ waiting for flags

  /** What happens to a word while a thread waits: others post and clear, and now and then the waiting thread
      is woken, or its time is over, and it gets to look. */
  datatype FlagOp = Posts(mask: bv32) | Clears(mask: bv32) | Looks

  function Does(flags: bv32, op: FlagOp): bv32 {
    match op
    case Posts(mask) => flags | mask
    case Clears(mask) => flags & !mask
    case Looks => flags
  }

  function AfterOps(flags: bv32, ops: seq<FlagOp>): bv32 {
    if ops == [] then flags else Does(AfterOps(flags, ops[..|ops| - 1]), ops[|ops| - 1])
  }

  lemma AfterOneMore(flags: bv32, ops: seq<FlagOp>, k: nat)
    requires k < |ops|
    ensures AfterOps(flags, ops[..k + 1]) == Does(AfterOps(flags, ops[..k]), ops[k])
  {
    assert ops[..k + 1][..k] == ops[..k];
  }

  /** One of the flags of `mask` is up. */
  predicate Ready(flags: bv32, mask: bv32) {
    flags & mask != 0
  }

  predicate Raises(op: FlagOp, mask: bv32) {
    op.Posts? && op.mask & mask != 0
  }

  lemma RaisedIsReady(before: bv32, op: FlagOp, mask: bv32)
    requires Raises(op, mask)
    ensures Ready(Does(before, op), mask)
  {
  }

  predicate Lowers(op: FlagOp, mask: bv32) {
    op.Clears? && op.mask & mask != 0
  }

  lemma StaysReady(before: bv32, op: FlagOp, mask: bv32)
    requires Ready(before, mask) && !Lowers(op, mask)
    ensures Ready(Does(before, op), mask)
  {
  }

  /** The waiting thread has the mutex and can look at the flags before operation `k`. */
  predicate LooksAt(ops: seq<FlagOp>, k: nat)
    requires k <= |ops|
  {
    k == 0 || ops[k - 1].Looks?
  }

  /** An awaited flag is raised, not lowered again, and looked at. */
  predicate RaisedAndSeen(ops: seq<FlagOp>, mask: bv32, i: nat, j: nat)
    requires i < j < |ops|
  {
    Raises(ops[i], mask) && ops[j].Looks? && forall k :: i < k < j ==> !Lowers(ops[k], mask)
  }

  /** An awaited flag was raised before operation `k` and has not been lowered since. */
  predicate Pending(ops: seq<FlagOp>, mask: bv32, i: int, k: nat)
    requires k <= |ops|
  {
    0 <= i < k && Raises(ops[i], mask) && forall j :: i < j < k ==> !Lowers(ops[j], mask)
  }

  lemma PendingStep(flags: bv32, ops: seq<FlagOp>, mask: bv32, k: nat, next: nat)
    requires k < |ops| && next == k + 1 && forall i :: Pending(ops, mask, i, k) ==> Ready(flags, mask)
    ensures forall i :: Pending(ops, mask, i, next) ==> Ready(Does(flags, ops[k]), mask)
    ensures forall i :: 0 <= i < k && RaisedAndSeen(ops, mask, i, k) ==> Pending(ops, mask, i, k)
  {
    forall i | Pending(ops, mask, i, next) ensures Ready(Does(flags, ops[k]), mask) {
      if i == k {
        RaisedIsReady(flags, ops[k], mask);
      } else {
        assert Pending(ops, mask, i, k);
        StaysReady(flags, ops[k], mask);
      }
    }
  }

  /** A sticky flag word. Each method is one critical section, a wait one for each look at the flags. */
  class StreamEventFlags {
    var flags: bv32

    constructor ()
      ensures flags == 0
    {
      flags := 0;
    }

    method Post(mask: bv32)
      modifies this
      ensures flags == old(flags) | mask
      ensures forall w: Quad, m: Quad :: old(flags) == Word(w) && mask == Word(m) ==> flags == Word(w.Raise(m))
    {
      flags := flags | mask;
      forall w: Quad, m: Quad | old(flags) == Word(w) && mask == Word(m) ensures flags == Word(w.Raise(m)) {
        WordOps(w, m);
      }
    }

    method Clear(mask: bv32)
      modifies this
      ensures flags == old(flags) & !mask
      ensures forall w: Quad, m: Quad :: old(flags) == Word(w) && mask == Word(m) ==> flags == Word(w.Lower(m))
    {
      flags := flags & !mask;
      forall w: Quad, m: Quad | old(flags) == Word(w) && mask == Word(m) ensures flags == Word(w.Lower(m)) {
        WordOps(w, m);
      }
    }

    /** Waiting while `ops` happens: with a timeout of zero nothing, with a longer one what comes before it, the
        last look included, and without one any number of things. It is over when the thread first looks while
        one of the flags is up, at once if it was up before; a flag that is raised and lowered between two
        looks is missed. */
    method Await(mask: bv32, ops: seq<FlagOp>) returns (ready: bool, ghost used: nat)
      modifies this
      ensures used <= |ops| && flags == AfterOps(old(flags), ops[..used])
      ensures forall k :: 0 <= k < used && LooksAt(ops, k) ==> !Ready(AfterOps(old(flags), ops[..k]), mask)
      ensures ready ==> LooksAt(ops, used) && Ready(flags, mask)
      ensures !ready ==> used == |ops| && (LooksAt(ops, used) ==> !Ready(flags, mask))
      ensures (exists i, j :: 0 <= i < j < |ops| && RaisedAndSeen(ops, mask, i, j)) ==> ready
    {
      used := 0;
      var k := 0;
      ready := Ready(flags, mask);
      while !ready && k < |ops|
        invariant k == used <= |ops| && flags == AfterOps(old(flags), ops[..k])
        invariant ready == (LooksAt(ops, k) && Ready(flags, mask))
        invariant forall i :: 0 <= i < k && LooksAt(ops, i) ==> !Ready(AfterOps(old(flags), ops[..i]), mask)
        invariant forall i :: Pending(ops, mask, i, k) ==> Ready(flags, mask)
        invariant !ready ==> forall i, j :: 0 <= i < j < k ==> !RaisedAndSeen(ops, mask, i, j)
      {
        AfterOneMore(old(flags), ops, k);
        PendingStep(flags, ops, mask, k, k + 1);
        flags := Does(flags, ops[k]);
        k := k + 1;
        used := k;
        ready := ops[k - 1].Looks? && Ready(flags, mask);
      }
    }

    /** The end of a wait takes the flags that are up. */
    method Take(mask: bv32, clearFlags: bool) returns (res: bv32)
      modifies this
      ensures forall w: Quad, m: Quad :: old(flags) == Word(w) && mask == Word(m) ==>
                res == Word(w.Common(m)) && flags == Word(if clearFlags then w.Lower(m) else w)
    {
      res := flags & mask;
      if clearFlags {
        flags := flags & !res;
      }
      forall w: Quad, m: Quad | old(flags) == Word(w) && mask == Word(m)
        ensures res == Word(w.Common(m)) && flags == Word(if clearFlags then w.Lower(m) else w)
      {
        WordOps(w, m);
        WordOps(w, w.Common(m));
        assert w.Lower(w.Common(m)) == w.Lower(m);
      }
    }

    method Wait(mask: bv32, clearFlags: bool, ops: seq<FlagOp>) returns (res: bv32, ready: bool, ghost used: nat)
      modifies this
      ensures used <= |ops|
      ensures forall k :: 0 <= k < used && LooksAt(ops, k) ==> !Ready(AfterOps(old(flags), ops[..k]), mask)
      ensures ready ==> LooksAt(ops, used) && Ready(AfterOps(old(flags), ops[..used]), mask)
      ensures (exists i, j :: 0 <= i < j < |ops| && RaisedAndSeen(ops, mask, i, j)) ==> ready
      ensures !ready ==> used == |ops| && res == 0 && flags == AfterOps(old(flags), ops)
      ensures !ready && LooksAt(ops, |ops|) ==> !Ready(flags, mask)
      ensures ready ==> forall w: Quad, m: Quad :: AfterOps(old(flags), ops[..used]) == Word(w) && mask == Word(m) ==>
                          res == Word(w.Common(m)) && flags == Word(if clearFlags then w.Lower(m) else w)
    {
      ready, used := Await(mask, ops);
      res := 0;
      if ready {
        res := Take(mask, clearFlags);
      } else {
        assert ops[..|ops|] == ops;
      }
    }

    /** What generated schedulers do before each node, with no time to wait: it does to the word what the
        state machine does to its record, and decides the same. */
    method Poll(ghost w: StreamWord) returns (done: bool, pause: bool)
      requires flags == StreamBits(w)
      modifies this
      ensures done == w.done && pause == w.pause
      ensures flags == StreamBits(w.(pause := false, done := false))
    {
      var res, ready;
      ghost var used;
      ghost var q, m := Quad(w.pause, w.resume, w.evResume, w.done), Quad(true, false, false, true);
      WordOps(q, m);
      assert Word(m) == STREAM_PAUSE_EVENT | STREAM_DONE_EVENT;
      assert AfterOps(flags, []) == Word(q);
      res, ready, used := Wait(STREAM_PAUSE_EVENT | STREAM_DONE_EVENT, true, []);
      done, pause := res & STREAM_DONE_EVENT != 0, res & STREAM_PAUSE_EVENT != 0;
    }
  }

  /** Posting to cg_streamEvent. */
  lemma StreamPosts(w: StreamWord)
    ensures StreamBits(w) | STREAM_PAUSE_EVENT == StreamBits(w.(pause := true))
    ensures StreamBits(w) | STREAM_RESUME_EVENT == StreamBits(w.(resume := true))
    ensures StreamBits(w) | EVENT_RESUME_EVENT == StreamBits(w.(evResume := true))
    ensures StreamBits(w) | (STREAM_DONE_EVENT | STREAM_RESUME_EVENT | EVENT_RESUME_EVENT)
            == StreamBits(w.(done := true, resume := true, evResume := true))
  {
  }

  /** Waiting on cg_streamEvent: the resume waits of the two threads, and the poll of the scheduler,
      which takes both of its flags at once. */
  lemma StreamWaits(w: StreamWord)
    ensures StreamBits(w) & STREAM_RESUME_EVENT != 0 <==> w.resume
    ensures StreamBits(w) & EVENT_RESUME_EVENT != 0 <==> w.evResume
    ensures StreamBits(w) & !(StreamBits(w) & STREAM_RESUME_EVENT) == StreamBits(w.(resume := false))
    ensures StreamBits(w) & !(StreamBits(w) & EVENT_RESUME_EVENT) == StreamBits(w.(evResume := false))
    ensures var res := StreamBits(w) & (STREAM_PAUSE_EVENT | STREAM_DONE_EVENT);
            && (res & STREAM_DONE_EVENT != 0 <==> w.done)
            && (res & STREAM_PAUSE_EVENT != 0 <==> w.pause)
            && StreamBits(w) & !res == StreamBits(w.(pause := false, done := false))
  {
  }

  /** Waiting on cg_streamReplyEvent for one reply, or for a reply or its failure. */
  lemma ReplyWaits(w: ReplyWord)
    ensures ReplyBits(w) & STREAM_PAUSED_EVENT != 0 <==> w.sPaused
    ensures ReplyBits(w) & EVENT_PAUSED_EVENT != 0 <==> w.ePaused
    ensures ReplyBits(w) & !(ReplyBits(w) & STREAM_PAUSED_EVENT) == ReplyBits(w.(sPaused := false))
    ensures ReplyBits(w) & !(ReplyBits(w) & EVENT_PAUSED_EVENT) == ReplyBits(w.(ePaused := false))
    ensures var res := ReplyBits(w) & (STREAM_RESUMED_EVENT | STREAM_PAUSED_EVENT);
            && (res != 0 <==> w.sPaused || w.sResumed) && (res & STREAM_PAUSED_EVENT != 0 <==> w.sPaused)
            && ReplyBits(w) & !res == ReplyBits(w.(sPaused := false, sResumed := false))
    ensures var res := ReplyBits(w) & (EVENT_RESUMED_EVENT | EVENT_PAUSED_EVENT);
            && (res != 0 <==> w.ePaused || w.eResumed) && (res & EVENT_PAUSED_EVENT != 0 <==> w.ePaused)
            && ReplyBits(w) & !res == ReplyBits(w.(ePaused := false, eResumed := false))
  {
  }

  /** Posting a reply, and the final clear of a resume. */
  lemma ReplyPosts(w: ReplyWord)
    ensures ReplyBits(w) | STREAM_PAUSED_EVENT == ReplyBits(w.(sPaused := true))
    ensures ReplyBits(w) | STREAM_RESUMED_EVENT == ReplyBits(w.(sResumed := true))
    ensures ReplyBits(w) | EVENT_PAUSED_EVENT == ReplyBits(w.(ePaused := true))
    ensures ReplyBits(w) | EVENT_RESUMED_EVENT == ReplyBits(w.(eResumed := true))
    ensures ReplyBits(w) & !(STREAM_PAUSED_EVENT | EVENT_PAUSED_EVENT) == ReplyBits(w.(sPaused := false, ePaused := false))
  {
  }
}
