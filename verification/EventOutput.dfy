/** Asynchronous sending: one event goes to every subscriber of an output through the event queue. */
module EventOutput {
  import opened EventModel
  import opened QueueSpec
  import opened EventQueue

  /** Messages of one priority behind what is pending there. */
  function Queued(ls: Lanes, p: nat, ms: seq<Message>): Lanes
    requires p < NB_PRIORITIES
  {
    ls[p := ls[p].(accepted := ls[p].accepted + ms, pending := ls[p].pending + ms)]
  }

  lemma QueuedNone(ls: Lanes, p: nat)
    requires p < NB_PRIORITIES
    ensures Queued(ls, p, []) == ls
  {
    assert ls[p].accepted + [] == ls[p].accepted && ls[p].pending + [] == ls[p].pending;
  }

  lemma QueuedOneMore(ls: Lanes, ms: seq<Message>, m: Message)
    ensures var p := Clamp(m.event.priority); Accept(Queued(ls, p, ms), m) == Queued(ls, p, ms + [m])
  {
    var p := Clamp(m.event.priority);
    assert ls[p].accepted + ms + [m] == ls[p].accepted + (ms + [m]);
    assert ls[p].pending + ms + [m] == ls[p].pending + (ms + [m]);
  }

  /** The i-th message is for the i-th subscriber and carries an equal event. */
  predicate CopiesFor(ms: seq<Message>, nodes: seq<Destination>, event: Event)
    requires WellFormedData(event.data)
  {
    && |ms| <= |nodes|
    && forall i :: 0 <= i < |ms| ==>
         ms[i].dest == nodes[i] && WellFormedData(ms[i].event.data) && SameEvent(event, ms[i].event)
  }

  /** Where the loop over the subscribers stands when `sent` has been pushed. */
  ghost predicate Sending(nodes: seq<Destination>, capacity: nat, event: Event, start: Lanes, flags: Flags,
                          sent: seq<Message>, now: Lanes, f: Flags)
    requires WellFormedData(event.data)
  {
    && CopiesFor(sent, nodes, event)
    && now == Queued(start, Clamp(event.priority), sent)
    && f == (if sent == [] then flags else flags.(awake := true))
    && !flags.ending && (sent != [] ==> !flags.paused)
    && (sent != [] ==> |start[Clamp(event.priority)].pending| + |sent| <= capacity)
  }

  lemma SendingStep(nodes: seq<Destination>, capacity: nat, event: Event, start: Lanes, flags: Flags,
                    sent: seq<Message>, now: Lanes, f: Flags, copy: Event, time: uint32)
    requires WellFormedData(event.data) && WellFormedData(copy.data) && SameEvent(event, copy)
    requires Sending(nodes, capacity, event, start, flags, sent, now, f) && |sent| < |nodes|
    requires !f.paused && |now[Clamp(event.priority)].pending| < capacity
    ensures var m := Message(nodes[|sent|], copy, time);
            Sending(nodes, capacity, event, start, flags, sent + [m], Accept(now, m), f.(awake := true))
  {
    QueuedOneMore(start, sent, Message(nodes[|sent|], copy, time));
  }

  class EventOutput {
    const nodes: seq<Destination>
    const queue: PosixEventQueue?

    constructor (nodes: seq<Destination>, queue: PosixEventQueue?)
      ensures this.nodes == nodes && this.queue == queue
    {
      this.nodes := nodes;
      this.queue := queue;
    }

    /** The queue is not paused and takes a copy for every subscriber. */
    predicate HasRoom(flags: Flags, ls: Lanes, event: Event)
      requires queue != null
    {
      !flags.paused && |ls[Clamp(event.priority)].pending| + |nodes| <= queue.capacity
    }

    /** sendEventToAllNodes in its asynchronous mode, `clock(i)` being the time of the i-th push. It
        succeeds exactly when the queue has room for a copy for every subscriber, and `sent` tells which
        copies it got: one for every subscriber on success, one for the first few on failure. */
    method SendAsync(event: Event, clock: nat -> uint32, ghost sender: nat) returns (ok: bool, ghost sent: seq<Message>)
      requires WellFormedData(event.data) && (queue != null ==> queue.Valid())
      modifies queue, if queue != null && queue.Shape() then queue.Rings() else {}
      ensures queue == null ==> !ok
      ensures queue != null ==>
        && queue.Valid() && CopiesFor(sent, nodes, event)
        && queue.Lanes() == Queued(old(queue.Lanes()), Clamp(event.priority), sent)
        && ok == (!old(queue.mustEnd)
                  && (event.id == NO_EVENT || nodes == [] || HasRoom(old(queue.State()), old(queue.Lanes()), event)))
        && (ok && event.id != NO_EVENT ==> |sent| == |nodes|)
        && (ok && event.id == NO_EVENT ==> sent == [])
        && (!ok && !old(queue.mustEnd) ==> |sent| < |nodes|)
        && (!ok && !old(queue.mustEnd) && !old(queue.mustPause) ==>
              queue.State() == WithError(old(queue.State()), CG_EVENT_QUEUE_FULL, CG_UNIDENTIFIED_NODE, 0))
    {
      sent := [];
      if queue == null {
        return false, sent;
      }
      ghost var start := queue.Lanes();
      QueuedNone(start, Clamp(event.priority));
      if queue.mustEnd {
        return false, sent;
      }
      if event.id == NO_EVENT {
        return true, sent;
      }
      if |nodes| == 1 {
        ok, sent := SendOnly(event, clock(0), sender);
      } else {
        ok, sent := SendClones(event, clock, sender);
      }
    }

    /** The event itself goes to the only subscriber. */
    method SendOnly(event: Event, now: uint32, ghost sender: nat) returns (ok: bool, ghost sent: seq<Message>)
      requires WellFormedData(event.data) && queue != null && queue.Valid() && !queue.mustEnd && |nodes| == 1
      modifies queue, if queue != null && queue.Shape() then queue.Rings() else {}
      ensures queue.Valid() && CopiesFor(sent, nodes, event)
      ensures queue.Lanes() == Queued(old(queue.Lanes()), Clamp(event.priority), sent)
      ensures ok <==> HasRoom(old(queue.State()), old(queue.Lanes()), event)
      ensures if ok then |sent| == |nodes| else |sent| < |nodes|
      ensures !ok && !old(queue.mustPause) ==>
        queue.State() == WithError(old(queue.State()), CG_EVENT_QUEUE_FULL, CG_UNIDENTIFIED_NODE, 0)
    {
      ghost var start := queue.Lanes();
      QueuedNone(start, Clamp(event.priority));
      ghost var m := Message(nodes[0], event, now);
      QueuedOneMore(start, [], m);
      ok := queue.Push(nodes[0], event, now, sender);
      sent := if ok then [m] else [];
    }

    method SendClones(event: Event, clock: nat -> uint32, ghost sender: nat) returns (ok: bool, ghost sent: seq<Message>)
      requires WellFormedData(event.data) && queue != null && queue.Valid() && !queue.mustEnd
      modifies queue, if queue != null && queue.Shape() then queue.Rings() else {}
      ensures queue.Valid() && CopiesFor(sent, nodes, event)
      ensures queue.Lanes() == Queued(old(queue.Lanes()), Clamp(event.priority), sent)
      ensures ok <==> nodes == [] || HasRoom(old(queue.State()), old(queue.Lanes()), event)
      ensures if ok then |sent| == |nodes| else |sent| < |nodes|
      ensures !ok && !old(queue.mustPause) ==>
        queue.State() == WithError(old(queue.State()), CG_EVENT_QUEUE_FULL, CG_UNIDENTIFIED_NODE, 0)
    {
      sent := [];
      ghost var start, flags := queue.Lanes(), queue.State();
      QueuedNone(start, Clamp(event.priority));
      var i := 0;
      while i < |nodes|
        invariant 0 <= i <= |nodes| && queue.Valid() && |sent| == i
        invariant Sending(nodes, queue.capacity, event, start, flags, sent, queue.Lanes(), queue.State())
      {
        ok, sent := SendNext(event, i, clock(i), start, flags, sent, sender);
        if !ok {
          return;
        }
        i := i + 1;
      }
      return true, sent;
    }

    /** The body of the loop: a clone for subscriber `i`. */
    method SendNext(event: Event, i: nat, now: uint32, ghost start: Lanes, ghost flags: Flags,
                    ghost sent: seq<Message>, ghost sender: nat) returns (ok: bool, ghost sent': seq<Message>)
      requires WellFormedData(event.data) && queue != null && queue.Valid() && i == |sent| < |nodes|
      requires Sending(nodes, queue.capacity, event, start, flags, sent, queue.Lanes(), queue.State())
      modifies queue, if queue != null && queue.Shape() then queue.Rings() else {}
      ensures queue.Valid()
      ensures ok ==>
        |sent'| == i + 1
        && Sending(nodes, queue.capacity, event, start, flags, sent', queue.Lanes(), queue.State())
      ensures !ok ==>
        && |sent'| == i && CopiesFor(sent', nodes, event) && !HasRoom(flags, start, event)
        && queue.Lanes() == Queued(start, Clamp(event.priority), sent')
        && (!flags.paused ==> queue.State() == WithError(flags, CG_EVENT_QUEUE_FULL, CG_UNIDENTIFIED_NODE, 0))
    {
      var copy := Clone(event);
      ok, sent' := PushCopy(event, copy, i, now, start, flags, sent, sender);
    }

    method PushCopy(event: Event, copy: Event, i: nat, now: uint32, ghost start: Lanes, ghost flags: Flags,
                    ghost sent: seq<Message>, ghost sender: nat) returns (ok: bool, ghost sent': seq<Message>)
      requires WellFormedData(event.data) && WellFormedData(copy.data) && SameEvent(event, copy)
      requires queue != null && queue.Valid() && i == |sent| < |nodes|
      requires Sending(nodes, queue.capacity, event, start, flags, sent, queue.Lanes(), queue.State())
      modifies queue, if queue != null && queue.Shape() then queue.Rings() else {}
      ensures queue.Valid()
      ensures ok ==>
        |sent'| == i + 1
        && Sending(nodes, queue.capacity, event, start, flags, sent', queue.Lanes(), queue.State())
      ensures !ok ==> sent' == sent && queue.Lanes() == Queued(start, Clamp(event.priority), sent)
      ensures !ok && !flags.paused ==>
        && |start[Clamp(event.priority)].pending| + i >= queue.capacity
        && queue.State() == WithError(flags, CG_EVENT_QUEUE_FULL, CG_UNIDENTIFIED_NODE, 0)
    {
      ghost var m := Message(nodes[i], copy, now);
      ghost var ls, f := queue.Lanes(), queue.State();
      ok := queue.Push(nodes[i], copy, now, sender);
      if ok {
        SendingStep(nodes, queue.capacity, event, start, flags, sent, ls, f, copy, now);
      }
      sent' := if ok then sent + [m] else sent;
    }
  }

  // ------------------------------------------------------------- with other threads

  /** A turn of another thread, or of the broadcast's next push, which may meet a pause or an end. */
  datatype Turn = Other(op: Op) | Mine(refused: bool)

  datatype Broadcast = Broadcast(ops: seq<Op>, sent: nat, failed: bool)

  /** The loop goes on to the next subscriber until a push is refused. */
  function TakeTurn(capacity: nat, sender: nat, copies: seq<Message>, b: Broadcast, t: Turn): Broadcast {
    match t
    case Other(op) => if op.Push? && op.sender == sender then b else b.(ops := b.ops + [op])
    case Mine(refused) =>
      if b.failed || b.sent >= |copies| then b
      else if refused then b.(failed := true)
      else
        var m := copies[b.sent];
        var room := |History(capacity, b.ops)[Clamp(m.event.priority)].pending| < capacity;
        Broadcast(b.ops + [Op.Push(sender, m)], if room then b.sent + 1 else b.sent, !room)
  }

  function Turns(capacity: nat, sender: nat, copies: seq<Message>, start: seq<Op>, turns: seq<Turn>): Broadcast {
    if turns == [] then Broadcast(start, 0, false)
    else TakeTurn(capacity, sender, copies, Turns(capacity, sender, copies, start, turns[..|turns| - 1]), turns[|turns| - 1])
  }

  function By(sender: nat): Sent -> bool {
    (x: Sent) => x.sender == sender
  }

  /** What a sender has got into a queue at one priority. */
  function SentBy(capacity: nat, ops: seq<Op>, p: nat, sender: nat): seq<Sent> {
    Select(Pushed(capacity, ops, p), By(sender))
  }

  function Tagged(sender: nat, ms: seq<Message>): (s: seq<Sent>)
    ensures Carries(ms, s) && forall i :: 0 <= i < |s| ==> s[i].sender == sender
  {
    seq(|ms|, i requires 0 <= i < |ms| => Sent(sender, ms[i]))
  }

  lemma SentByStep(capacity: nat, ops: seq<Op>, op: Op, p: nat, sender: nat)
    requires p < NB_PRIORITIES
    ensures SentBy(capacity, ops + [op], p, sender) ==
            SentBy(capacity, ops, p, sender) +
            if op.Push? && op.sender == sender && Clamp(op.msg.event.priority) == p
               && |History(capacity, ops)[p].pending| < capacity
            then [Sent(sender, op.msg)] else []
  {
    var before, after := Pushed(capacity, ops, p), Pushed(capacity, ops + [op], p);
    PushedStep(capacity, ops, op, p);
    if op.Push? && Clamp(op.msg.event.priority) == p && |History(capacity, ops)[p].pending| < capacity {
      SelectLast(before, Sent(op.sender, op.msg), By(sender));
    } else {
      assert after == before;
    }
  }

  lemma TurnStep(capacity: nat, sender: nat, copies: seq<Message>, b: Broadcast, t: Turn, p: nat, q: nat)
    returns (next: Broadcast)
    requires q < NB_PRIORITIES && b.sent <= |copies| && (b.failed ==> b.sent < |copies|)
    requires forall i :: 0 <= i < |copies| ==> Clamp(copies[i].event.priority) == p
    ensures next == TakeTurn(capacity, sender, copies, b, t)
    ensures b.sent <= next.sent <= |copies| && next.sent <= b.sent + 1 && (next.failed ==> next.sent < |copies|)
    ensures SentBy(capacity, next.ops, q, sender)
            == SentBy(capacity, b.ops, q, sender)
               + if q == p && next.sent > b.sent then [Sent(sender, copies[b.sent])] else []
  {
    next := TakeTurn(capacity, sender, copies, b, t);
    match t
    case Other(op) => SentByStep(capacity, b.ops, op, q, sender);
    case Mine(refused) =>
      if !b.failed && !refused && b.sent < |copies| {
        SentByStep(capacity, b.ops, Op.Push(sender, copies[b.sent]), q, sender);
      }
  }

  /** What a sender has added at priority `p`, seen at priority `q`. */
  predicate Added(start: seq<Sent>, now: seq<Sent>, sender: nat, ms: seq<Message>, here: bool) {
    now == start + if here then Tagged(sender, ms) else []
  }

  lemma AddedNext(start: seq<Sent>, now: seq<Sent>, next: seq<Sent>, sender: nat, ms: seq<Message>, k: nat, here: bool)
    requires k < |ms| && Added(start, now, sender, ms[..k], here)
    requires next == now + if here then [Sent(sender, ms[k])] else []
    ensures Added(start, next, sender, ms[..k + 1], here)
  {
    assert Tagged(sender, ms[..k]) + [Sent(sender, ms[k])] == Tagged(sender, ms[..k + 1]);
  }

  lemma TurnAdds(capacity: nat, sender: nat, copies: seq<Message>, b: Broadcast, t: Turn, p: nat, q: nat,
                 start: seq<Sent>) returns (next: Broadcast)
    requires q < NB_PRIORITIES && b.sent <= |copies| && (b.failed ==> b.sent < |copies|)
    requires forall i :: 0 <= i < |copies| ==> Clamp(copies[i].event.priority) == p
    requires Added(start, SentBy(capacity, b.ops, q, sender), sender, copies[..b.sent], q == p)
    ensures next == TakeTurn(capacity, sender, copies, b, t)
    ensures next.sent <= |copies| && (next.failed ==> next.sent < |copies|)
    ensures Added(start, SentBy(capacity, next.ops, q, sender), sender, copies[..next.sent], q == p)
  {
    next := TurnStep(capacity, sender, copies, b, t, p, q);
    var was, now := SentBy(capacity, b.ops, q, sender), SentBy(capacity, next.ops, q, sender);
    if next.sent > b.sent {
      AddedNext(start, was, now, sender, copies, b.sent, q == p);
    } else {
      assert now == was;
    }
  }

  lemma {:induction false} TurnsAdd(capacity: nat, sender: nat, copies: seq<Message>, start: seq<Op>,
                                    turns: seq<Turn>, p: nat, q: nat) returns (b: Broadcast)
    requires q < NB_PRIORITIES
    requires forall i :: 0 <= i < |copies| ==> Clamp(copies[i].event.priority) == p
    ensures b == Turns(capacity, sender, copies, start, turns)
    ensures b.sent <= |copies| && (b.failed ==> b.sent < |copies|)
    ensures Added(SentBy(capacity, start, q, sender), SentBy(capacity, b.ops, q, sender), sender, copies[..b.sent], q == p)
  {
    b := Broadcast(start, 0, false);
    if turns != [] {
      var before := TurnsAdd(capacity, sender, copies, start, turns[..|turns| - 1], p, q);
      b := TurnAdds(capacity, sender, copies, before, turns[|turns| - 1], p, q, SentBy(capacity, start, q, sender));
    }
  }

  /** However other threads push, take and clear between the pushes of one broadcast: what the sender adds to
      the event's priority is one equal copy for each of the first `sent` subscribers, in their order, it adds
      nothing to other priorities, and it fails only if a subscriber is left out. */
  lemma BroadcastInterleaved(capacity: nat, sender: nat, nodes: seq<Destination>, event: Event, copies: seq<Message>,
                             start: seq<Op>, turns: seq<Turn>, q: nat) returns (b: Broadcast, added: seq<Message>)
    requires WellFormedData(event.data) && q < NB_PRIORITIES
    requires CopiesFor(copies, nodes, event) && |copies| == |nodes|
    ensures b == Turns(capacity, sender, copies, start, turns)
    ensures b.sent <= |nodes| && (b.failed ==> b.sent < |nodes|)
    ensures |added| == (if q == Clamp(event.priority) then b.sent else 0) && CopiesFor(added, nodes, event)
    ensures SentBy(capacity, b.ops, q, sender) == SentBy(capacity, start, q, sender) + Tagged(sender, added)
  {
    b := TurnsAdd(capacity, sender, copies, start, turns, Clamp(event.priority), q);
    added := if q == Clamp(event.priority) then copies[..b.sent] else [];
  }
}
