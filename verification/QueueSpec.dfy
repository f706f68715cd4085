/** What the priority event queue means: three FIFO queues with a history. Every accepted message is in
    exactly one place, and a message never overtakes an older one of its priority. */
module QueueSpec {
  import opened EventModel

  datatype Destination = Local(node: nat, port: nat) | Distant(source: int)

  datatype Message = Message(dest: Destination, event: Event, timestamp: uint32)

  const NB_PRIORITIES: nat := 3

  /** Priorities above the highest are treated as the highest. */
  function Clamp(priority: nat): (p: nat)
    ensures p < NB_PRIORITIES
  {
    if priority >= NB_PRIORITIES then NB_PRIORITIES - 1 else priority
  }

  datatype Fate = Dispatched | Expired | Cleared

  datatype Gone = Gone(msg: Message, fate: Fate)

  /** One priority: what was accepted, what has left the ring and how, and what is pending. */
  datatype Lane = Lane(accepted: seq<Message>, gone: seq<Gone>, pending: seq<Message>)

  type Lanes = ls: seq<Lane> | |ls| == 3 witness [Lane([], [], []), Lane([], [], []), Lane([], [], [])]

  const EMPTY_LANES: Lanes := [Lane([], [], []), Lane([], [], []), Lane([], [], [])]

  /** push() of a message that is accepted. */
  function Accept(ls: Lanes, m: Message): Lanes {
    var p := Clamp(m.event.priority);
    ls[p := ls[p].(accepted := ls[p].accepted + [m], pending := ls[p].pending + [m])]
  }

  /** The highest priority with a pending message. */
  function Highest(ls: Lanes): (p: int)
    ensures -1 <= p < NB_PRIORITIES
    ensures p >= 0 ==> ls[p].pending != []
    ensures forall q :: p < q < NB_PRIORITIES ==> ls[q].pending == []
  {
    if ls[2].pending != [] then 2 else if ls[1].pending != [] then 1 else if ls[0].pending != [] then 0 else -1
  }

  /** One turn of the inner loop of execute(): the oldest message of the highest priority leaves. */
  function Take(ls: Lanes, fate: Fate): Lanes {
    var p := Highest(ls);
    if p < 0 then ls
    else ls[p := ls[p].(gone := ls[p].gone + [Gone(ls[p].pending[0], fate)], pending := ls[p].pending[1..])]
  }

  function ClearedAll(ms: seq<Message>): (gs: seq<Gone>)
    ensures |gs| == |ms| && forall i :: 0 <= i < |ms| ==> gs[i] == Gone(ms[i], Cleared)
  {
    seq(|ms|, i requires 0 <= i < |ms| => Gone(ms[i], Cleared))
  }

  function ClearLane(l: Lane): Lane {
    l.(gone := l.gone + ClearedAll(l.pending), pending := [])
  }

  function Clear(ls: Lanes): Lanes {
    [ClearLane(ls[0]), ClearLane(ls[1]), ClearLane(ls[2])]
  }

  // -------------------------------------------------------------------- any history

  /** What happens to a queue over time, whatever threads are behind it; `sender` names the one that pushes. */
  datatype Op = Push(sender: nat, msg: Message) | Next(fate: Fate) | ClearOp

  /** push() refuses a message when the ring of its priority is full. */
  function Apply(ls: Lanes, capacity: nat, op: Op): Lanes {
    match op
    case Push(_, m) => if |ls[Clamp(m.event.priority)].pending| < capacity then Accept(ls, m) else ls
    case Next(fate) => Take(ls, fate)
    case ClearOp => Clear(ls)
  }

  function History(capacity: nat, ops: seq<Op>): Lanes {
    if ops == [] then EMPTY_LANES else Apply(History(capacity, ops[..|ops| - 1]), capacity, ops[|ops| - 1])
  }

  lemma NothingPending(capacity: nat)
    ensures var ls := History(capacity, []); ls[0].pending == [] && ls[1].pending == [] && ls[2].pending == []
  {
  }

  lemma HistoryStep(capacity: nat, ops: seq<Op>, op: Op)
    ensures History(capacity, ops + [op]) == Apply(History(capacity, ops), capacity, op)
  {
    assert (ops + [op])[..|ops|] == ops;
  }

  function Messages(gs: seq<Gone>): (ms: seq<Message>)
    ensures |ms| == |gs| && forall i :: 0 <= i < |gs| ==> ms[i] == gs[i].msg
  {
    seq(|gs|, i requires 0 <= i < |gs| => gs[i].msg)
  }

  /** Conservation: what was accepted is, in order, what has left followed by what is pending. */
  predicate Conserved(l: Lane) {
    l.accepted == Messages(l.gone) + l.pending
  }

  predicate LanesOk(ls: Lanes, capacity: nat) {
    forall p :: 0 <= p < NB_PRIORITIES ==>
      Conserved(ls[p]) && |ls[p].pending| <= capacity && InLane(ls[p].accepted, p)
  }

  /** A lane holds the messages of its own (clamped) priority. */
  predicate InLane(ms: seq<Message>, p: nat) {
    forall i :: 0 <= i < |ms| ==> Clamp(ms[i].event.priority) == p
  }

  lemma AcceptKeepsOk(ls: Lanes, capacity: nat, m: Message)
    requires LanesOk(ls, capacity) && |ls[Clamp(m.event.priority)].pending| < capacity
    ensures LanesOk(Accept(ls, m), capacity)
  {
    var l := ls[Clamp(m.event.priority)];
    assert l.accepted + [m] == Messages(l.gone) + (l.pending + [m]);
  }

  lemma TakeKeepsOk(ls: Lanes, capacity: nat, fate: Fate)
    requires LanesOk(ls, capacity)
    ensures LanesOk(Take(ls, fate), capacity)
  {
    var p := Highest(ls);
    if p >= 0 {
      var l := ls[p];
      assert Messages(l.gone + [Gone(l.pending[0], fate)]) + l.pending[1..] == Messages(l.gone) + l.pending;
    }
  }

  lemma ClearKeepsOk(ls: Lanes, capacity: nat)
    requires LanesOk(ls, capacity)
    ensures LanesOk(Clear(ls), capacity)
  {
    forall p | 0 <= p < NB_PRIORITIES
      ensures Conserved(Clear(ls)[p]) && Clear(ls)[p].accepted == ls[p].accepted && Clear(ls)[p].pending == []
    {
      var l := ls[p];
      assert Clear(ls)[p] == ClearLane(l);
      assert Messages(l.gone + ClearedAll(l.pending)) == Messages(l.gone) + l.pending;
    }
  }

  /** For every history of pushes, dispatches and clears, in every priority: accepted messages are
      conserved and in order, a ring never holds more than its capacity, and none is in a wrong ring. */
  lemma {:induction false} HistoryConserves(capacity: nat, ops: seq<Op>)
    ensures LanesOk(History(capacity, ops), capacity)
  {
    if ops != [] {
      var before := History(capacity, ops[..|ops| - 1]);
      HistoryConserves(capacity, ops[..|ops| - 1]);
      match ops[|ops| - 1]
      case Push(_, m) =>
        if |before[Clamp(m.event.priority)].pending| < capacity {
          AcceptKeepsOk(before, capacity, m);
        }
      case Next(fate) => TakeKeepsOk(before, capacity, fate);
      case ClearOp => ClearKeepsOk(before, capacity);
    }
  }

  // -------------------------------------------------------------------------- order

  /** A message with the thread that pushed it. */
  datatype Sent = Sent(sender: nat, msg: Message)

  /** The accepted pushes of a history, by priority. */
  function Pushed(capacity: nat, ops: seq<Op>, p: nat): seq<Sent> {
    if ops == [] then []
    else
      var before := ops[..|ops| - 1];
      var op := ops[|ops| - 1];
      Pushed(capacity, before, p) +
      if op.Push? && Clamp(op.msg.event.priority) == p && |History(capacity, before)[p].pending| < capacity
      then [Sent(op.sender, op.msg)] else []
  }

  lemma PushedStep(capacity: nat, ops: seq<Op>, op: Op, p: nat)
    requires p < NB_PRIORITIES
    ensures Pushed(capacity, ops + [op], p)
            == Pushed(capacity, ops, p) +
               if op.Push? && Clamp(op.msg.event.priority) == p && |History(capacity, ops)[p].pending| < capacity
               then [Sent(op.sender, op.msg)] else []
  {
    assert (ops + [op])[..|ops|] == ops;
  }

  predicate Carries(ms: seq<Message>, sent: seq<Sent>) {
    |ms| == |sent| && forall i :: 0 <= i < |ms| ==> ms[i] == sent[i].msg
  }

  /** The lane's accepted messages are those pushes, in order. */
  lemma {:induction false} AcceptedIsPushed(capacity: nat, ops: seq<Op>, p: nat)
    requires p < NB_PRIORITIES
    ensures Carries(History(capacity, ops)[p].accepted, Pushed(capacity, ops, p))
  {
    if ops != [] {
      AcceptedIsPushed(capacity, ops[..|ops| - 1], p);
    }
  }

  /** What was handed to a handler, in the order of the calls. */
  function Delivered(gs: seq<Gone>): seq<Message> {
    if gs == [] then []
    else Delivered(gs[..|gs| - 1]) + if gs[|gs| - 1].fate.Dispatched? then [gs[|gs| - 1].msg] else []
  }

  /** The same with the senders, the i-th message that left being the i-th that was accepted. */
  function Received(sent: seq<Sent>, gs: seq<Gone>): seq<Sent>
    requires |gs| <= |sent|
  {
    if gs == [] then []
    else
      var k := |gs| - 1;
      Received(sent, gs[..k]) + if gs[k].fate.Dispatched? then [sent[k]] else []
  }

  lemma {:induction false} ReceivedIsDelivered(sent: seq<Sent>, gs: seq<Gone>)
    requires |gs| <= |sent| && Carries(Messages(gs), sent[..|gs|])
    ensures Carries(Delivered(gs), Received(sent, gs))
  {
    if gs != [] {
      var k := |gs| - 1;
      assert gs[k].msg == Messages(gs)[k] == sent[..|gs|][k].msg;
      ReceivedIsDelivered(sent, gs[..k]);
    }
  }

  /** The elements a predicate selects, for instance those of one sender to one destination. */
  function Select<T>(xs: seq<T>, f: T -> bool): seq<T> {
    if xs == [] then [] else Select(xs[..|xs| - 1], f) + if f(xs[|xs| - 1]) then [xs[|xs| - 1]] else []
  }

  lemma SelectLast<T>(xs: seq<T>, x: T, f: T -> bool)
    ensures Select(xs + [x], f) == Select(xs, f) + if f(x) then [x] else []
  {
    assert (xs + [x])[..|xs|] == xs;
  }

  lemma {:induction false} SelectAppend<T>(a: seq<T>, b: seq<T>, f: T -> bool)
    ensures Select(a + b, f) == Select(a, f) + Select(b, f)
  {
    if b == [] {
      assert a + b == a;
    } else {
      SelectAppend(a, b[..|b| - 1], f);
      assert (a + b)[..|a + b| - 1] == a + b[..|b| - 1];
    }
  }

  /** The place a selected element has among the selected ones. */
  function Place<T>(xs: seq<T>, f: T -> bool, i: nat): nat
    requires i <= |xs|
  {
    |Select(xs[..i], f)|
  }

  lemma PlaceNext<T>(xs: seq<T>, f: T -> bool, i: nat)
    requires i < |xs|
    ensures Place(xs, f, i + 1) == Place(xs, f, i) + if f(xs[i]) then 1 else 0
  {
    assert xs[..i + 1] == xs[..i] + [xs[i]];
    SelectLast(xs[..i], xs[i], f);
  }

  lemma {:induction false} PlaceGrows<T>(xs: seq<T>, f: T -> bool, i: nat, k: nat)
    requires i < k <= |xs|
    ensures Place(xs, f, i) + (if f(xs[i]) then 1 else 0) <= Place(xs, f, k)
    decreases k
  {
    PlaceNext(xs, f, k - 1);
    if i < k - 1 {
      PlaceGrows(xs, f, i, k - 1);
    }
  }

  lemma PlaceHolds<T>(xs: seq<T>, f: T -> bool, i: nat)
    requires i < |xs| && f(xs[i])
    ensures Place(xs, f, i) < |Select(xs, f)| && Select(xs, f)[Place(xs, f, i)] == xs[i]
  {
    assert xs == (xs[..i] + [xs[i]]) + xs[i + 1..];
    SelectAppend(xs[..i] + [xs[i]], xs[i + 1..], f);
    SelectLast(xs[..i], xs[i], f);
  }

  predicate Increasing(at: seq<nat>) {
    forall j, k :: 0 <= j < k < |at| ==> at[j] < at[k]
  }

  predicate Picks<T(==)>(chosen: seq<T>, all: seq<T>, at: seq<nat>) {
    |at| == |chosen| && forall j :: 0 <= j < |at| ==> at[j] < |all| && chosen[j] == all[at[j]]
  }

  /** Of the selected messages exactly those that were dispatched are picked. */
  predicate PicksDispatched(sent: seq<Sent>, gs: seq<Gone>, f: Sent -> bool, at: seq<nat>) {
    forall i :: 0 <= i < |sent| && f(sent[i]) ==> (Place(sent, f, i) in at <==> i < |gs| && gs[i].fate.Dispatched?)
  }

  lemma PicksOneMore(sent: seq<Sent>, gs: seq<Gone>, f: Sent -> bool, before: seq<nat>, at: seq<nat>)
    requires 0 < |gs| <= |sent| && PicksDispatched(sent, gs[..|gs| - 1], f, before)
    requires var k := |gs| - 1;
             at == before + if gs[k].fate.Dispatched? && f(sent[k]) then [Place(sent, f, k)] else []
    ensures PicksDispatched(sent, gs, f, at)
  {
    var k := |gs| - 1;
    forall i | 0 <= i < |sent| && f(sent[i])
      ensures Place(sent, f, i) in at <==> i < |gs| && gs[i].fate.Dispatched?
    {
      if i < k {
        PlaceGrows(sent, f, i, k);
      } else if i > k && f(sent[k]) {
        PlaceGrows(sent, f, k, i);
      }
    }
  }

  /** One message more has left; it is received and selected, or not. */
  lemma SelectReceived(sent: seq<Sent>, gs: seq<Gone>, f: Sent -> bool)
    requires 0 < |gs| <= |sent|
    ensures var k := |gs| - 1;
            Select(Received(sent, gs), f)
            == Select(Received(sent, gs[..k]), f) + if gs[k].fate.Dispatched? && f(sent[k]) then [sent[k]] else []
  {
    var k := |gs| - 1;
    if gs[k].fate.Dispatched? {
      SelectLast(Received(sent, gs[..k]), sent[k], f);
    } else {
      assert Received(sent, gs) == Received(sent, gs[..k]);
    }
  }

  lemma {:induction false} ReceivedPicks(sent: seq<Sent>, gs: seq<Gone>, f: Sent -> bool) returns (at: seq<nat>)
    requires |gs| <= |sent|
    ensures Increasing(at) && Picks(Select(Received(sent, gs), f), Select(sent, f), at)
    ensures PicksDispatched(sent, gs, f, at)
    ensures forall j :: 0 <= j < |at| ==> at[j] < Place(sent, f, |gs|)
  {
    at := [];
    if gs != [] {
      var k := |gs| - 1;
      var before := ReceivedPicks(sent, gs[..k], f);
      PlaceNext(sent, f, k);
      SelectReceived(sent, gs, f);
      at := before;
      if gs[k].fate.Dispatched? && f(sent[k]) {
        PlaceHolds(sent, f, k);
        at := before + [Place(sent, f, k)];
      }
      PicksOneMore(sent, gs, f, before, at);
    }
  }

  lemma {:induction false} AllReceived(sent: seq<Sent>, gs: seq<Gone>, f: Sent -> bool)
    requires |gs| <= |sent|
    requires forall i :: 0 <= i < |gs| && f(sent[i]) ==> gs[i].fate.Dispatched?
    ensures Select(Received(sent, gs), f) == Select(sent[..|gs|], f)
  {
    if gs != [] {
      var k := |gs| - 1;
      AllReceived(sent, gs[..k], f);
      SelectReceived(sent, gs, f);
      assert sent[..k + 1] == sent[..k] + [sent[k]];
      SelectLast(sent[..k], sent[k], f);
    }
  }

  /** First come, first served. Take any of the messages pushed at one priority (those of one sender to one
      destination, say). In every history, whatever other threads push in between and whatever expires or is
      cleared, those handed over are, in the order of the handler calls, the images of those sent under an
      increasing map `at`, which leaves out exactly those that were not dispatched. As long as none of them
      expired or was cleared they are simply the first ones. */
  lemma DeliveryOrder(capacity: nat, ops: seq<Op>, p: nat, f: Sent -> bool) returns (sent: seq<Sent>, at: seq<nat>)
    requires p < NB_PRIORITIES
    ensures sent == Pushed(capacity, ops, p)
    ensures var gone := History(capacity, ops)[p].gone;
            && |gone| <= |sent| && Carries(Delivered(gone), Received(sent, gone))
            && Increasing(at) && Picks(Select(Received(sent, gone), f), Select(sent, f), at)
            && PicksDispatched(sent, gone, f, at)
            && ((forall i :: 0 <= i < |gone| && f(sent[i]) ==> gone[i].fate.Dispatched?) ==>
                  Select(Received(sent, gone), f) <= Select(sent, f))
  {
    sent := Pushed(capacity, ops, p);
    var l := History(capacity, ops)[p];
    HistoryConserves(capacity, ops);
    AcceptedIsPushed(capacity, ops, p);
    assert Messages(l.gone) == l.accepted[..|l.gone|];
    ReceivedIsDelivered(sent, l.gone);
    at := ReceivedPicks(sent, l.gone, f);
    if forall i :: 0 <= i < |l.gone| && f(sent[i]) ==> l.gone[i].fate.Dispatched? {
      AllReceived(sent, l.gone, f);
      assert sent == sent[..|l.gone|] + sent[|l.gone|..];
      SelectAppend(sent[..|l.gone|], sent[|l.gone|..], f);
    }
  }

  // ---------------------------------------------------------------------- expiry

  /** The test of execute(), in 32-bit arithmetic. */
  predicate HasExpired(timestamp: uint32, ttl: uint32, now: uint32) {
    ttl != 0 && now > (timestamp + ttl) % TWO_32
  }

  /** A message is dropped exactly when it has waited longer than its time to live, provided that the
      clock and the limit wrap around together or not at all; otherwise the answer is the opposite. */
  lemma ExpiryExact(timestamp: uint32, ttl: uint32, waited: uint32)
    requires ttl != 0
    ensures (HasExpired(timestamp, ttl, (timestamp + waited) % TWO_32) <==> waited > ttl)
            <==> (timestamp + ttl < TWO_32 <==> timestamp + waited < TWO_32)
  {
  }

  /** A message that has waited 5 of its 20 ms is dropped when only its limit wraps around, and one that has
      waited 12 of 5 ms is handed over when only the clock does. */
  lemma ExpiryFails()
    ensures HasExpired(TWO_32 - 10, 20, TWO_32 - 5)
    ensures !HasExpired(TWO_32 - 10, 5, (TWO_32 - 10 + 12) % TWO_32)
  {
  }

  predicate IsExpired(m: Message, now: uint32) {
    HasExpired(m.timestamp, m.event.ttl, now)
  }

  function FateOf(m: Message, now: uint32): Fate {
    if IsExpired(m, now) then Expired else Dispatched
  }

  // --------------------------------------------------------------------- draining

  /** Everything pending, in the order in which an undisturbed consumer takes it. */
  function Backlog(ls: Lanes): seq<Message> {
    ls[2].pending + ls[1].pending + ls[0].pending
  }

  lemma BacklogTake(ls: Lanes, fate: Fate)
    requires Highest(ls) >= 0
    ensures Backlog(ls) == [ls[Highest(ls)].pending[0]] + Backlog(Take(ls, fate))
  {
    var p := Highest(ls);
    var t := Take(ls, fate);
    assert ls[p].pending == [ls[p].pending[0]] + t[p].pending;
  }

  /** The messages that have not expired, the k-th being looked at when the clock shows `clock(k)`. */
  function Live(taken: seq<Message>, clock: nat -> uint32): seq<Message> {
    if taken == [] then []
    else
      var k := |taken| - 1;
      Live(taken[..k], clock) + if IsExpired(taken[k], clock(k)) then [] else [taken[k]]
  }

  /** The entries that draining leaves in the history. */
  function Takes(taken: seq<Message>, clock: nat -> uint32): seq<Op> {
    if taken == [] then []
    else
      var k := |taken| - 1;
      Takes(taken[..k], clock) + [Next(FateOf(taken[k], clock(k)))]
  }

  lemma LiveLast(taken: seq<Message>, m: Message, clock: nat -> uint32)
    ensures Live(taken + [m], clock)
            == Live(taken, clock) + if IsExpired(m, clock(|taken|)) then [] else [m]
    ensures Takes(taken + [m], clock) == Takes(taken, clock) + [Next(FateOf(m, clock(|taken|)))]
  {
    assert (taken + [m])[..|taken|] == taken;
  }

  /** `taken` left the queue in the order of the backlog, what had expired was dropped and the rest handled. */
  predicate Drained(clock: nat -> uint32, start: Lanes, now: Lanes, before: seq<Op>, after: seq<Op>,
                    taken: seq<Message>, handled: seq<Message>) {
    && taken + Backlog(now) == Backlog(start)
    && handled == Live(taken, clock)
    && after == before + Takes(taken, clock)
  }

  lemma DrainedStep(clock: nat -> uint32, start: Lanes, now: Lanes, next: Lanes, before: seq<Op>, after: seq<Op>,
                    later: seq<Op>, taken: seq<Message>, handled: seq<Message>, m: Message)
    requires Drained(clock, start, now, before, after, taken, handled)
    requires [m] + Backlog(next) == Backlog(now)
    requires later == after + [Next(FateOf(m, clock(|taken|)))]
    ensures Drained(clock, start, next, before, later, taken + [m],
                    if IsExpired(m, clock(|taken|)) then handled else handled + [m])
  {
    LiveLast(taken, m, clock);
    Regroup(taken, m, Backlog(next));
    assert before + (Takes(taken, clock) + [Next(FateOf(m, clock(|taken|)))]) == later;
  }

  lemma Regroup(a: seq<Message>, m: Message, b: seq<Message>)
    ensures a + ([m] + b) == (a + [m]) + b
  {
  }
}
