/** The POSIX event queue: three ring buffers, the pause, end and error flags, and the broadcast of an
    event to the subscribers of an output. Every method is tied to the queue's history, whose meaning is
    in QueueSpec. Each method is one critical section or atomic step. */
module EventQueue {
  import opened EventModel
  import opened QueueSpec

  const CG_SUCCESS: int := 0
  const CG_EVENT_QUEUE_FULL: int := -10
  const CG_UNIDENTIFIED_NODE: int := -1

  /** What a handler returned is reported against the node, or the source of a distant event. */
  function ErrorStatus(m: Message, status: int): int {
    if m.dest.Local? then status else CG_EVENT_QUEUE_FULL
  }

  function ErrorNode(m: Message): int {
    if m.dest.Local? then m.dest.node else m.dest.source
  }

  /** The requests made to the consumer, its wake-up flag, and the error that may have caused a pause. */
  datatype Flags = Flags(paused: bool, ending: bool, awake: bool, pending: bool, status: int, node: int, info: int)

  function WithError(f: Flags, status: int, node: int, info: int): Flags {
    Flags(true, f.ending, true, true, status, node, info)
  }

  /** The flags after a push that reached its critical section. */
  function Notified(f: Flags, stored: bool): Flags {
    if stored then f.(awake := true) else WithError(f, CG_EVENT_QUEUE_FULL, CG_UNIDENTIFIED_NODE, 0)
  }

  predicate AllSucceed(handled: seq<Message>, handler: Message -> int) {
    forall m :: m in handled ==> handler(m) == CG_SUCCESS
  }

  /** The last message handled, and only that one, failed, and the recorded error says so. */
  predicate StoppedBy(handled: seq<Message>, handler: Message -> int, before: Flags, after: Flags) {
    && handled != [] && AllSucceed(handled[..|handled| - 1], handler)
    && var m := handled[|handled| - 1];
       handler(m) != CG_SUCCESS && after == WithError(before, ErrorStatus(m, handler(m)), ErrorNode(m), 0)
  }

  /** How a drained queue stands: nothing was asked of it, or it was stopped by an error, or by a pause or
      an end requested before. */
  predicate Outcome(before: Flags, after: Flags, taken: seq<Message>, handled: seq<Message>, handler: Message -> int) {
    if before.paused || before.ending then taken == [] && after == before
    else if after.paused then StoppedBy(handled, handler, before, after)
    else AllSucceed(handled, handler) && after == before
  }

  lemma OutcomeStep(before: Flags, f: Flags, g: Flags, taken: seq<Message>, handled: seq<Message>,
                    handler: Message -> int, m: Message, live: bool)
    requires Outcome(before, f, taken, handled, handler) && !f.paused && !f.ending
    requires g == if live && handler(m) != CG_SUCCESS then WithError(f, ErrorStatus(m, handler(m)), ErrorNode(m), 0)
                  else f
    ensures Outcome(before, g, taken + [m], if live then handled + [m] else handled, handler)
  {
    if live {
      assert (handled + [m])[..|handled|] == handled;
    }
  }

  /** The elements of a circular buffer from `read` on. */
  function Circular<T>(slots: seq<T>, read: nat, count: nat): (s: seq<T>)
    requires read < |slots| && count <= |slots|
    ensures |s| == count
  {
    if read + count <= |slots| then slots[read..read + count] else slots[read..] + slots[..read + count - |slots|]
  }

  lemma CircularPut<T>(slots: seq<T>, read: nat, count: nat, write: nat, x: T)
    requires read < |slots| && count < |slots|
    requires write == if read + count >= |slots| then read + count - |slots| else read + count
    ensures Circular(slots[write := x], read, count + 1) == Circular(slots, read, count) + [x]
  {
  }

  lemma CircularGet<T>(slots: seq<T>, read: nat, count: nat, next: nat)
    requires read < |slots| && 0 < count <= |slots|
    requires next == if read + 1 == |slots| then 0 else read + 1
    ensures [slots[read]] + Circular(slots, next, count - 1) == Circular(slots, read, count)
  {
  }

  /** queue[p], read[p], write[p] and nb_elems[p] for one priority. */
  class Ring {
    const slots: array<Message>
    var read: nat
    var write: nat
    var nbElems: nat

    ghost predicate Valid()
      reads this, slots
    {
      && read < slots.Length && write < slots.Length && nbElems <= slots.Length
      && write == if read + nbElems >= slots.Length then read + nbElems - slots.Length else read + nbElems
    }

    ghost function Contents(): (s: seq<Message>)
      requires Valid()
      reads this, slots
      ensures |s| == nbElems
    {
      Circular(slots[..], read, nbElems)
    }

    ghost predicate Holds(ms: seq<Message>)
      reads this, slots
    {
      Valid() && Contents() == ms
    }

    constructor (capacity: nat)
      requires capacity > 0
      ensures Holds([]) && slots.Length == capacity && fresh(slots)
    {
      slots := new Message[capacity];
      read, write, nbElems := 0, 0, 0;
    }

    method Put(m: Message)
      requires Valid() && nbElems < slots.Length
      modifies slots, `write, `nbElems
      ensures Holds(old(Contents()) + [m])
    {
      CircularPut(slots[..], read, nbElems, write, m);
      ghost var s := slots[..][write := m];
      slots[write] := m;
      assert slots[..] == s;
      write := write + 1;
      if write == slots.Length {
        write := 0;
      }
      nbElems := nbElems + 1;
    }

    method Get() returns (m: Message)
      requires Valid() && nbElems > 0
      modifies `read, `nbElems
      ensures Valid() && [m] + Contents() == old(Contents())
      ensures Holds(old(Contents())[1..])
    {
      CircularGet(slots[..], read, nbElems, if read + 1 == slots.Length then 0 else read + 1);
      m := slots[read];
      read := read + 1;
      if read == slots.Length {
        read := 0;
      }
      nbElems := nbElems - 1;
    }

    method Empty()
      requires Valid()
      modifies `read, `nbElems
      ensures Holds([])
    {
      while nbElems != 0
        invariant Valid()
      {
        var m := Get();
      }
    }
  }

  class PosixEventQueue {
    const capacity: nat
    const rings: seq<Ring>
    var mustPause: bool
    var mustEnd: bool
    var errorPending: bool
    var errorStatus: int
    var errorNode: int
    var errorInfo: int
    /** The flag behind the condition variable of the consumer. */
    var wake: bool
    ghost var ops: seq<Op>

    /** Everything push, clear and the consumer change besides the flags. */
    ghost function Rings(): set<object>
      requires |rings| == 3
      ensures this !in Rings()
    {
      {rings[0], rings[1], rings[2], rings[0].slots, rings[1].slots, rings[2].slots}
    }

    ghost predicate Shape() {
      && capacity > 0 && |rings| == 3
      && rings[0] != rings[1] && rings[0] != rings[2] && rings[1] != rings[2]
      && rings[0].slots != rings[1].slots && rings[0].slots != rings[2].slots && rings[1].slots != rings[2].slots
      && forall p :: 0 <= p < NB_PRIORITIES ==> rings[p].slots.Length == capacity
    }

    /** The rings hold the pending messages of the lanes. */
    ghost predicate Hold(ls: Lanes)
      requires Shape()
      reads Rings()
    {
      rings[0].Holds(ls[0].pending) && rings[1].Holds(ls[1].pending) && rings[2].Holds(ls[2].pending)
    }

    /** The rings hold what the queue's history says. */
    ghost predicate Valid()
      reads `ops, if |rings| == 3 then Rings() else {}
    {
      Shape() && Hold(Lanes())
    }

    ghost function Lanes(): Lanes
      reads `ops
    {
      History(capacity, ops)
    }

    function State(): Flags
      reads `mustPause, `mustEnd, `wake, `errorPending, `errorStatus, `errorNode, `errorInfo
    {
      Flags(mustPause, mustEnd, wake, errorPending, errorStatus, errorNode, errorInfo)
    }

    constructor (capacity: nat)
      requires capacity > 0
      ensures Valid() && fresh(Rings()) && this.capacity == capacity && ops == []
      ensures State() == Flags(false, false, false, false, CG_SUCCESS, CG_UNIDENTIFIED_NODE, 0)
    {
      var empty := NewRings(capacity);
      this.capacity := capacity;
      rings := empty;
      mustPause, mustEnd, errorPending, wake := false, false, false, false;
      errorStatus, errorNode, errorInfo := CG_SUCCESS, CG_UNIDENTIFIED_NODE, 0;
      ops := [];
      new;
      NothingPending(capacity);
    }

    /** One empty ring for each priority. */
    static method NewRings(capacity: nat) returns (rs: seq<Ring>)
      requires capacity > 0
      ensures |rs| == 3 && fresh(rs) && fresh(rs[0].slots) && fresh(rs[1].slots) && fresh(rs[2].slots)
      ensures rs[0] != rs[1] && rs[0] != rs[2] && rs[1] != rs[2]
      ensures rs[0].slots != rs[1].slots && rs[0].slots != rs[2].slots && rs[1].slots != rs[2].slots
      ensures rs[0].slots.Length == rs[1].slots.Length == rs[2].slots.Length == capacity
      ensures rs[0].Holds([]) && rs[1].Holds([]) && rs[2].Holds([])
    {
      var low := new Ring(capacity);
      var normal := new Ring(capacity);
      var high := new Ring(capacity);
      rs := [low, normal, high];
    }

    method NotifyQueue()
      modifies `wake
      ensures wake
    {
      wake := true;
    }

    method Pause()
      modifies `mustPause, `wake
      ensures mustPause && wake
    {
      mustPause := true;
      NotifyQueue();
    }

    method End()
      modifies `mustEnd, `wake
      ensures mustEnd && wake
    {
      mustEnd := true;
      NotifyQueue();
    }

    method SetError(status: int, node: int, info: int)
      modifies `errorStatus, `errorNode, `errorInfo, `errorPending, `mustPause, `wake
      ensures State() == WithError(old(State()), status, node, info)
    {
      errorStatus := status;
      errorNode := node;
      errorInfo := info;
      errorPending := true;
      Pause();
    }

    /** Only one of several callers is given an error. */
    method ConsumeError() returns (found: bool, status: int, node: int, info: int)
      modifies `errorPending
      ensures !errorPending && found == old(errorPending)
      ensures found ==> status == errorStatus && node == errorNode && info == errorInfo
    {
      found, status, node, info := errorPending, CG_SUCCESS, CG_UNIDENTIFIED_NODE, 0;
      errorPending := false;
      if found {
        status, node, info := errorStatus, errorNode, errorInfo;
      }
    }

    method Resume()
      modifies `mustPause, `errorPending, `errorStatus, `errorNode, `errorInfo
      ensures State() == Flags(false, mustEnd, wake, false, CG_SUCCESS, CG_UNIDENTIFIED_NODE, 0)
    {
      mustPause := false;
      errorPending := false;
      errorStatus := CG_SUCCESS;
      errorNode := CG_UNIDENTIFIED_NODE;
      errorInfo := 0;
    }

    /** A message reaches its ring exactly when the queue is neither paused nor ended and the ring has
        room. A full ring is an error that pauses the queue; a paused queue refuses without a wake-up. */
    method Push(dest: Destination, event: Event, now: uint32, ghost sender: nat) returns (ok: bool)
      requires Valid()
      modifies this, Rings()
      ensures Valid()
      ensures ok <==> !old(mustPause) && !old(mustEnd)
                      && |old(Lanes())[Clamp(event.priority)].pending| < capacity
      ensures Lanes() == if ok then Accept(old(Lanes()), Message(dest, event, now)) else old(Lanes())
      ensures ops == if old(mustPause) || old(mustEnd) then old(ops)
                     else old(ops) + [Op.Push(sender, Message(dest, event, now))]
      ensures State() == if old(mustPause) || old(mustEnd) then old(State()) else Notified(old(State()), ok)
    {
      if mustPause || mustEnd {
        return false;
      }
      var p := event.priority;
      if p >= NB_PRIORITIES {
        p := NB_PRIORITIES - 1;
      }
      ok := Store(p, Message(dest, event, now), sender);
      PushDone(ok);
    }

    method PushDone(ok: bool)
      requires Valid()
      modifies `errorStatus, `errorNode, `errorInfo, `errorPending, `mustPause, `wake
      ensures Valid() && Lanes() == old(Lanes()) && State() == Notified(old(State()), ok)
    {
      if !ok {
        SetError(CG_EVENT_QUEUE_FULL, CG_UNIDENTIFIED_NODE, 0);
      }
      NotifyQueue();
    }

    /** The critical section of push. */
    method Store(p: nat, m: Message, ghost sender: nat) returns (ok: bool)
      requires Valid() && p == Clamp(m.event.priority)
      modifies Rings(), `ops
      ensures Valid() && ops == old(ops) + [Op.Push(sender, m)] && State() == old(State())
      ensures ok <==> |old(Lanes())[p].pending| < capacity
      ensures Lanes() == if ok then Accept(old(Lanes()), m) else old(Lanes())
    {
      ghost var ls := Lanes();
      ok := StoreIn(p, m, ls);
      Log(ls, Op.Push(sender, m));
    }

    /** The history grows by one entry. */
    ghost method Log(ls: Lanes, op: Op)
      requires Shape() && ls == Lanes() && Hold(Apply(ls, capacity, op))
      modifies `ops
      ensures Valid() && ops == old(ops) + [op] && Lanes() == Apply(ls, capacity, op)
    {
      HistoryStep(capacity, ops, op);
      ops := ops + [op];
    }

    method StoreIn(p: nat, m: Message, ghost ls: Lanes) returns (ok: bool)
      requires Shape() && Hold(ls) && p == Clamp(m.event.priority)
      modifies Rings()
      ensures ok <==> |ls[p].pending| < capacity
      ensures Hold(if ok then Accept(ls, m) else ls)
    {
      ok := rings[p].nbElems < capacity;
      if ok {
        Insert(p, m, ls);
      }
    }

    method Insert(p: nat, m: Message, ghost ls: Lanes)
      requires Shape() && Hold(ls) && p == Clamp(m.event.priority) && rings[p].nbElems < capacity
      modifies Rings()
      ensures Hold(Accept(ls, m))
    {
      rings[p].Put(m);
    }

    method IsEmpty() returns (r: bool)
      requires Valid()
      ensures r <==> forall p :: 0 <= p < NB_PRIORITIES ==> Lanes()[p].pending == []
      ensures r <==> Highest(Lanes()) < 0
      ensures Valid()
    {
      r := true;
      var p := 0;
      while p < NB_PRIORITIES
        invariant 0 <= p <= NB_PRIORITIES
        invariant r && forall q :: 0 <= q < p ==> Lanes()[q].pending == []
      {
        assert |rings[p].Contents()| == rings[p].nbElems;
        if rings[p].nbElems != 0 {
          return false;
        }
        p := p + 1;
      }
    }

    /** The critical section of execute(): the oldest message of the highest priority that has one. What
        becomes of it is decided by the caller, who has the clock. */
    method TakeNext(ghost fate: Fate) returns (found: bool, m: Message)
      requires Valid()
      modifies Rings(), `ops
      ensures Valid() && ops == old(ops) + [Next(fate)] && State() == old(State())
      ensures Lanes() == Take(old(Lanes()), fate)
      ensures found <==> Highest(old(Lanes())) >= 0
      ensures found ==> m == old(Lanes())[Highest(old(Lanes()))].pending[0]
    {
      ghost var before := Lanes();
      found, m := Remove(before, fate);
      Log(before, Next(fate));
    }

    method Remove(ghost ls: Lanes, ghost fate: Fate) returns (found: bool, m: Message)
      requires Shape() && Hold(ls)
      modifies Rings()
      ensures Hold(Take(ls, fate))
      ensures found <==> Highest(ls) >= 0
      ensures found ==> m == ls[Highest(ls)].pending[0]
    {
      var p := NB_PRIORITIES - 1;
      while p >= 0
        invariant -1 <= p < NB_PRIORITIES
        invariant forall q :: p < q < NB_PRIORITIES ==> ls[q].pending == []
        invariant unchanged(Rings())
      {
        assert |rings[p].Contents()| == |ls[p].pending|;
        if rings[p].nbElems != 0 {
          m := RemoveFrom(p, ls, fate);
          return true, m;
        }
        p := p - 1;
      }
      return false, Message(Distant(0), Event(NO_EVENT, 0, Single(NoValue), 0), 0);
    }

    method RemoveFrom(p: nat, ghost ls: Lanes, ghost fate: Fate) returns (m: Message)
      requires Shape() && Hold(ls) && p == Highest(ls)
      modifies Rings()
      ensures Hold(Take(ls, fate)) && m == ls[p].pending[0]
    {
      m := rings[p].Get();
    }

    /** Every pending message leaves its ring. */
    method Clear()
      requires Valid()
      modifies Rings(), `ops
      ensures Valid() && ops == old(ops) + [ClearOp] && State() == old(State())
      ensures Lanes() == QueueSpec.Clear(old(Lanes()))
    {
      ghost var ls := Lanes();
      var p := 0;
      while p < NB_PRIORITIES
        invariant 0 <= p <= NB_PRIORITIES && unchanged(this)
        invariant forall q :: 0 <= q < p ==> rings[q].Holds([])
        invariant forall q :: p <= q < NB_PRIORITIES ==> rings[q].Holds(ls[q].pending)
      {
        ClearRing(p, ls);
        p := p + 1;
      }
      Log(ls, ClearOp);
    }

    method ClearRing(p: nat, ghost ls: Lanes)
      requires Shape() && p < NB_PRIORITIES
      requires forall q :: 0 <= q < p ==> rings[q].Holds([])
      requires forall q :: p <= q < NB_PRIORITIES ==> rings[q].Holds(ls[q].pending)
      modifies rings[p], rings[p].slots
      ensures forall q :: 0 <= q <= p ==> rings[q].Holds([])
      ensures forall q :: p < q < NB_PRIORITIES ==> rings[q].Holds(ls[q].pending)
    {
      rings[p].Empty();
    }

    /** The next message of the backlog, whose fate depends on the clock. */
    method TakeOne(now: uint32) returns (m: Message)
      requires Valid() && Highest(Lanes()) >= 0
      modifies Rings(), `ops
      ensures Valid() && State() == old(State())
      ensures m == old(Lanes()[Highest(Lanes())].pending[0])
      ensures [m] + Backlog(Lanes()) == Backlog(old(Lanes()))
      ensures ops == old(ops) + [Next(FateOf(m, now))]
    {
      ghost var ls := Lanes();
      ghost var fate := FateOf(ls[Highest(ls)].pending[0], now);
      BacklogTake(ls, fate);
      var found;
      found, m := TakeNext(fate);
    }

    /** One turn of the inner loop of execute(), which finds the queue neither paused nor empty. */
    method HandleOne(now: uint32, handler: Message -> int) returns (m: Message, live: bool)
      requires Valid() && Highest(Lanes()) >= 0 && !mustPause
      modifies this, Rings()
      ensures Valid()
      ensures m == old(Lanes()[Highest(Lanes())].pending[0]) && live == !IsExpired(m, now)
      ensures [m] + Backlog(Lanes()) == Backlog(old(Lanes()))
      ensures ops == old(ops) + [Next(FateOf(m, now))]
      ensures State() == if live && handler(m) != CG_SUCCESS
                         then WithError(old(State()), ErrorStatus(m, handler(m)), ErrorNode(m), 0)
                         else old(State())
    {
      m := TakeOne(now);
      live := !IsExpired(m, now);
      Report(m, if live then handler(m) else CG_SUCCESS);
    }

    method Report(m: Message, status: int)
      requires Valid()
      modifies `errorStatus, `errorNode, `errorInfo, `errorPending, `mustPause, `wake
      ensures Valid() && Lanes() == old(Lanes())
      ensures State() == if status != CG_SUCCESS
                         then WithError(old(State()), ErrorStatus(m, status), ErrorNode(m), 0)
                         else old(State())
    {
      if status != CG_SUCCESS {
        SetError(ErrorStatus(m, status), ErrorNode(m), 0);
      }
    }

    /** The body of the inner loop, with what it keeps. */
    method DrainOne(clock: nat -> uint32, handler: Message -> int, handled: seq<Message>, taken: seq<Message>,
                    ghost start: Lanes, ghost log: seq<Op>, ghost flags: Flags)
      returns (handled': seq<Message>, taken': seq<Message>)
      requires Valid() && Highest(Lanes()) >= 0 && !mustPause && !mustEnd
      requires Drained(clock, start, Lanes(), log, ops, taken, handled)
      requires Outcome(flags, State(), taken, handled, handler)
      modifies this, Rings()
      ensures Valid() && |Backlog(Lanes())| < |Backlog(old(Lanes()))|
      ensures Drained(clock, start, Lanes(), log, ops, taken', handled')
      ensures Outcome(flags, State(), taken', handled', handler)
    {
      ghost var ls, log', f := Lanes(), ops, State();
      var m, live := HandleOne(clock(|taken|), handler);
      handled', taken' := if live then handled + [m] else handled, taken + [m];
      DrainedStep(clock, start, ls, Lanes(), log, log', ops, taken, handled, m);
      OutcomeStep(flags, f, State(), taken, handled, handler, m, live);
    }

    /** The inner loop of execute(), with nothing pushed meanwhile: `clock(k)` is the time read for the
        k-th message, `handler(m)` what processing `m` returns. Messages are handled by decreasing priority
        and in order of arrival, those that waited too long excepted, up to the first failure, which is
        recorded and pauses the queue. */
    method Drain(clock: nat -> uint32, handler: Message -> int) returns (handled: seq<Message>, taken: seq<Message>)
      requires Valid()
      modifies this, Rings()
      ensures Valid() && Drained(clock, old(Lanes()), Lanes(), old(ops), ops, taken, handled)
      ensures Outcome(old(State()), State(), taken, handled, handler)
      ensures !mustPause && !mustEnd ==> Backlog(Lanes()) == []
    {
      handled, taken := [], [];
      ghost var start, log, flags := Lanes(), ops, State();
      var empty := IsEmpty();
      while !mustEnd && !mustPause && !empty
        invariant Valid() && (empty <==> Highest(Lanes()) < 0)
        invariant Drained(clock, start, Lanes(), log, ops, taken, handled)
        invariant Outcome(flags, State(), taken, handled, handler)
        decreases |Backlog(Lanes())|
      {
        handled, taken := DrainOne(clock, handler, handled, taken, start, log, flags);
        empty := IsEmpty();
      }
    }
  }
}
