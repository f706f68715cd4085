/** Waking the consumer of an event queue. Any number of threads push, pause, end, resume and clear while
    one thread runs execute(). A step is one access to shared state: an actor changes the queue in one step
    and raises the wake-up flag in a later one, so the consumer can look at the queue in between. */
module WakeUp {
  import opened QueueSpec

  /** Posix takes the flag in one step; Zephyr waits for it and lowers it in two. */
  datatype Variant = Posix | Zephyr

  datatype ConsumerPc =
    | OuterEnd | OuterPause
    | InnerEnd | InnerPause | InnerEmpty
    | TakeOne | Handle | HandleNotify
    | ExitEnd | ExitPause
    | Wait | Lower
    | Returned

  datatype ActorPc = Idle | PushEnd(p: nat) | PushInsert(p: nat) | PushError | Notify

  datatype State = State(counts: seq<nat>, mustPause: bool, mustEnd: bool, wake: bool,
                         consumer: ConsumerPc, actors: map<nat, ActorPc>)

  datatype Request = RPush(p: nat) | RPause | REnd | RResume | RClear

  /** A consumer step chooses what a handler does next; an idle actor chooses its next call. */
  datatype Choice = Push(p: nat) | Fail | Finish

  datatype Move = Consumer(ch: Choice) | Actor(a: nat, req: Request) | Execute

  predicate Valid(s: State) {
    |s.counts| == NB_PRIORITIES
  }

  predicate AllEmpty(s: State) {
    forall p :: 0 <= p < |s.counts| ==> s.counts[p] == 0
  }

  function At(s: State, a: nat): ActorPc {
    if a in s.actors then s.actors[a] else Idle
  }

  function Initial(): State {
    State([0, 0, 0], false, false, false, Returned, map[])
  }

  // ---------------------------------------------------------------------- consumer

  /** The test that follows the inner test of mustEnd, and the one that follows that. */
  function AfterInnerEnd(v: Variant): ConsumerPc {
    if v.Posix? then InnerPause else InnerEmpty
  }

  function InnerTestStep(v: Variant, s: State): State
    requires s.consumer.InnerEnd? || s.consumer.InnerPause? || s.consumer.InnerEmpty?
  {
    match s.consumer
    case InnerEnd => s.(consumer := if s.mustEnd then ExitEnd else AfterInnerEnd(v))
    case InnerPause => s.(consumer := if s.mustPause then ExitEnd else if v.Posix? then InnerEmpty else TakeOne)
    case InnerEmpty => s.(consumer := if AllEmpty(s) then ExitEnd else if v.Posix? then TakeOne else InnerPause)
  }

  /** The highest ring that holds a message loses its oldest one. */
  function Taken(counts: seq<nat>): (t: seq<nat>)
    requires |counts| == NB_PRIORITIES
    ensures |t| == NB_PRIORITIES
  {
    if counts[2] != 0 then counts[2 := counts[2] - 1]
    else if counts[1] != 0 then counts[1 := counts[1] - 1]
    else if counts[0] != 0 then counts[0 := counts[0] - 1]
    else counts
  }

  /** A ring with room takes a message. */
  function Stored(counts: seq<nat>, capacity: nat, priority: nat): (t: seq<nat>)
    requires |counts| == NB_PRIORITIES
    ensures |t| == NB_PRIORITIES
  {
    var p := Clamp(priority);
    if counts[p] < capacity then counts[p := counts[p] + 1] else counts
  }

  /** What this model and the runtime's (one number for the three rings) keep of a queue. */
  function CountsOf(ls: Lanes): (counts: seq<nat>)
    ensures |counts| == NB_PRIORITIES
  {
    [|ls[0].pending|, |ls[1].pending|, |ls[2].pending|]
  }

  function Total(counts: seq<nat>): nat
    requires |counts| == NB_PRIORITIES
  {
    counts[0] + counts[1] + counts[2]
  }

  /** The counts of a queue change as those of its lanes, whose messages the rings of the queue hold. */
  lemma CountsRefine(ls: Lanes, capacity: nat, op: Op)
    ensures var counts, after := CountsOf(ls), CountsOf(Apply(ls, capacity, op));
            match op
            case Push(_, m) =>
              && after == Stored(counts, capacity, m.event.priority)
              && (after != counts ==> Total(after) == Total(counts) + 1)
            case Next(_) =>
              && after == Taken(counts)
              && Total(after) == if Total(counts) == 0 then 0 else Total(counts) - 1
            case ClearOp => after == [0, 0, 0] && Total(after) == 0
    ensures Total(CountsOf(ls)) == 0 <==> Highest(ls) < 0
  {
    var p := Highest(ls);
    match op
    case Push(_, m) =>
      var q := Clamp(m.event.priority);
      assert q == 0 || q == 1 || q == 2;
    case Next(fate) =>
      if p >= 0 {
        assert Take(ls, fate)[p].pending == ls[p].pending[1..];
      }
    case ClearOp =>
  }

  /** A handler may push and fail, on the consumer's own thread. */
  function HandleStep(v: Variant, s: State, capacity: nat, ch: Choice): State
    requires Valid(s)
  {
    match ch
    case Finish => s.(consumer := InnerEnd)
    case Fail => s.(mustPause := true, consumer := HandleNotify)
    case Push(q) =>
      if s.mustPause || s.mustEnd then s
      else if s.counts[Clamp(q)] < capacity then
        s.(counts := Stored(s.counts, capacity, q), consumer := HandleNotify)
      else s.(mustPause := s.mustPause || v.Posix?, consumer := HandleNotify)
  }

  function WaitStep(v: Variant, s: State): State
    requires s.consumer.Wait? || s.consumer.Lower?
  {
    if s.consumer.Lower? then s.(wake := false, consumer := OuterEnd)
    else if !s.wake then s
    else if v.Posix? then s.(wake := false, consumer := OuterEnd)
    else s.(consumer := Lower)
  }

  function ConsumerStep(v: Variant, capacity: nat, s: State, ch: Choice): State
    requires Valid(s)
  {
    match s.consumer
    case OuterEnd => s.(consumer := if s.mustEnd then Returned else OuterPause)
    case OuterPause => s.(consumer := if s.mustPause then Returned else InnerEnd)
    case TakeOne => s.(counts := Taken(s.counts), consumer := Handle)
    case Handle => HandleStep(v, s, capacity, ch)
    case HandleNotify => s.(wake := true, consumer := Handle)
    case ExitEnd => s.(consumer := if s.mustEnd then Returned else ExitPause)
    case ExitPause =>
      s.(consumer := if !s.mustPause then Wait else if v.Posix? then Returned else OuterEnd)
    case Wait => WaitStep(v, s)
    case Lower => WaitStep(v, s)
    case Returned => s
    case _ => InnerTestStep(v, s)
  }

  // ------------------------------------------------------------------------ actors

  /** A call starts with its first access to shared state. */
  function StartStep(s: State, a: nat, req: Request): State {
    match req
    case RPush(p) => if s.mustPause then s else s.(actors := s.actors[a := PushEnd(p)])
    case RPause => s.(mustPause := true, actors := s.actors[a := Notify])
    case REnd => s.(mustEnd := true, actors := s.actors[a := Notify])
    case RResume => s.(mustPause := false)
    case RClear => s.(counts := [0, 0, 0])
  }

  /** The critical section of push. A full ring is an error on POSIX only. */
  function InsertStep(v: Variant, capacity: nat, s: State, a: nat, q: nat): State
    requires Valid(s)
  {
    if s.counts[Clamp(q)] < capacity then
      s.(counts := Stored(s.counts, capacity, q), actors := s.actors[a := Notify])
    else s.(actors := s.actors[a := if v.Posix? then PushError else Notify])
  }

  function ActorStep(v: Variant, capacity: nat, s: State, a: nat, req: Request): State
    requires Valid(s)
  {
    match At(s, a)
    case Idle => StartStep(s, a, req)
    case PushEnd(p) => s.(actors := s.actors[a := if s.mustEnd then Idle else PushInsert(p)])
    case PushInsert(p) => InsertStep(v, capacity, s, a, p)
    case PushError => s.(mustPause := true, actors := s.actors[a := Notify])
    case Notify => s.(wake := true, actors := s.actors[a := Idle])
  }

  function Step(v: Variant, capacity: nat, s: State, m: Move): (t: State)
    requires Valid(s)
    ensures Valid(t)
  {
    match m
    case Consumer(ch) => ConsumerStep(v, capacity, s, ch)
    case Actor(a, req) => ActorStep(v, capacity, s, a, req)
    case Execute => if s.consumer.Returned? then s.(consumer := OuterEnd) else s
  }

  function Run(v: Variant, capacity: nat, moves: seq<Move>): (s: State)
    ensures Valid(s)
  {
    if moves == [] then Initial()
    else Step(v, capacity, Run(v, capacity, moves[..|moves| - 1]), moves[|moves| - 1])
  }

  // --------------------------------------------------------------------- invariant

  /** Some actor has changed the queue and still has to notify. */
  predicate Owed(s: State) {
    exists a :: a in s.actors && s.actors[a].Notify?
  }

  /** The consumer is going to be woken. */
  predicate Debt(s: State) {
    s.wake || Owed(s) || s.consumer.HandleNotify?
  }

  /** What the consumer knows of a request it has tested, or of the rings, at its current point: if the
      answer has changed since, then a wake-up is due. */
  predicate EndTested(c: ConsumerPc) {
    !(c.OuterEnd? || c.Lower? || c.Returned?)
  }

  predicate PauseTested(c: ConsumerPc) {
    EndTested(c) && !c.OuterPause?
  }

  predicate EmptyTested(c: ConsumerPc) {
    c.ExitEnd? || c.ExitPause? || c.Wait?
  }

  predicate Inv(s: State) {
    && Valid(s)
    && (EndTested(s.consumer) && s.mustEnd ==> Debt(s))
    && (PauseTested(s.consumer) && s.mustPause ==> Debt(s))
    && (EmptyTested(s.consumer) && !AllEmpty(s) ==> Debt(s))
  }

  lemma HandleKeepsInv(v: Variant, capacity: nat, s: State, ch: Choice)
    requires Inv(s) && s.consumer.Handle?
    ensures Inv(HandleStep(v, s, capacity, ch))
  {
  }

  lemma InnerTestKeepsInv(v: Variant, s: State)
    requires Inv(s) && (s.consumer.InnerEnd? || s.consumer.InnerPause? || s.consumer.InnerEmpty?)
    ensures Inv(InnerTestStep(v, s))
  {
    assert Owed(InnerTestStep(v, s)) == Owed(s);
  }

  lemma WaitKeepsInv(v: Variant, s: State)
    requires Inv(s) && (s.consumer.Wait? || s.consumer.Lower?)
    ensures Inv(WaitStep(v, s))
  {
  }

  lemma OtherKeepsInv(v: Variant, capacity: nat, s: State, ch: Choice)
    requires Inv(s) && (s.consumer.OuterEnd? || s.consumer.OuterPause? || s.consumer.TakeOne? || s.consumer.HandleNotify?
                        || s.consumer.ExitEnd? || s.consumer.ExitPause? || s.consumer.Returned?)
    ensures Inv(ConsumerStep(v, capacity, s, ch))
  {
    assert ConsumerStep(v, capacity, s, ch).actors == s.actors;
  }

  lemma ConsumerKeepsInv(v: Variant, capacity: nat, s: State, ch: Choice)
    requires Inv(s)
    ensures Inv(ConsumerStep(v, capacity, s, ch))
  {
    match s.consumer
    case Handle => HandleKeepsInv(v, capacity, s, ch);
    case Wait => WaitKeepsInv(v, s);
    case Lower => WaitKeepsInv(v, s);
    case InnerEnd => InnerTestKeepsInv(v, s);
    case InnerPause => InnerTestKeepsInv(v, s);
    case InnerEmpty => InnerTestKeepsInv(v, s);
    case _ => OtherKeepsInv(v, capacity, s, ch);
  }

  /** A step of actor `a` touches no other actor, never lowers the flag, and raises it in place of a due
      notification. */
  predicate ActorFrame(s: State, t: State, a: nat) {
    && t.consumer == s.consumer && (s.wake ==> t.wake) && (At(s, a).Notify? ==> t.wake)
    && (t.actors == s.actors || t.actors == s.actors[a := At(t, a)])
  }

  lemma StartFrames(s: State, a: nat, req: Request)
    requires At(s, a).Idle?
    ensures ActorFrame(s, StartStep(s, a, req), a)
  {
  }

  lemma InsertFrames(v: Variant, capacity: nat, s: State, a: nat, p: nat)
    requires Valid(s) && At(s, a) == PushInsert(p)
    ensures ActorFrame(s, InsertStep(v, capacity, s, a, p), a)
  {
  }

  lemma ActorFrames(v: Variant, capacity: nat, s: State, a: nat, req: Request)
    requires Valid(s)
    ensures ActorFrame(s, ActorStep(v, capacity, s, a, req), a)
  {
    match At(s, a)
    case Idle => StartFrames(s, a, req);
    case PushInsert(p) => InsertFrames(v, capacity, s, a, p);
    case _ =>
  }

  lemma FrameKeepsDebt(s: State, t: State, a: nat)
    requires ActorFrame(s, t, a)
    ensures (Debt(s) ==> Debt(t)) && (At(t, a).Notify? ==> Debt(t))
  {
    if At(t, a).Notify? {
      assert a in t.actors && t.actors[a].Notify?;
    } else if Owed(s) && !t.wake {
      var b :| b in s.actors && s.actors[b].Notify?;
      assert b in t.actors && t.actors[b].Notify?;
    }
  }

  predicate AsksNothing(s: State, t: State) {
    (t.mustEnd ==> s.mustEnd) && (t.mustPause ==> s.mustPause) && (AllEmpty(s) ==> AllEmpty(t))
  }

  lemma StartAsksNothing(s: State, a: nat, req: Request)
    requires Valid(s)
    ensures var t := StartStep(s, a, req); At(t, a).Notify? || AsksNothing(s, t)
  {
  }

  lemma ActorAsksNothing(v: Variant, capacity: nat, s: State, a: nat, req: Request)
    requires Valid(s)
    ensures var t := ActorStep(v, capacity, s, a, req); At(t, a).Notify? || AsksNothing(s, t)
  {
    if At(s, a).Idle? {
      StartAsksNothing(s, a, req);
    }
  }

  /** Nothing an actor does takes a due wake-up away, and whatever changes the queue leaves one due. */
  lemma ActorKeepsInv(v: Variant, capacity: nat, s: State, a: nat, req: Request)
    requires Inv(s)
    ensures Inv(ActorStep(v, capacity, s, a, req))
  {
    var t := ActorStep(v, capacity, s, a, req);
    ActorFrames(v, capacity, s, a, req);
    FrameKeepsDebt(s, t, a);
    ActorAsksNothing(v, capacity, s, a, req);
  }

  lemma {:induction false} RunKeepsInv(v: Variant, capacity: nat, moves: seq<Move>)
    ensures Inv(Run(v, capacity, moves))
  {
    if moves != [] {
      var s := Run(v, capacity, moves[..|moves| - 1]);
      RunKeepsInv(v, capacity, moves[..|moves| - 1]);
      match moves[|moves| - 1]
      case Consumer(ch) => ConsumerKeepsInv(v, capacity, s, ch);
      case Actor(a, req) => ActorKeepsInv(v, capacity, s, a, req);
      case Execute =>
    }
  }

  predicate Blocked(s: State) {
    s.consumer.Wait? && !s.wake
  }

  /** No lost wake-up: in every run, with any number of other threads and with either way of taking the
      flag, a consumer that is blocked has nothing to do, except for what an actor has done and not yet
      notified. */
  lemma NoLostWakeUp(v: Variant, capacity: nat, moves: seq<Move>)
    ensures var s := Run(v, capacity, moves);
            Blocked(s) ==> Owed(s) || (AllEmpty(s) && !s.mustPause && !s.mustEnd)
  {
    RunKeepsInv(v, capacity, moves);
  }

  /** A step of an actor, then one of the consumer, take the consumer out of its wait. */
  predicate Wakes(v: Variant, capacity: nat, s: State, a: nat, req: Request, ch: Choice)
    requires Valid(s)
  {
    var t := Step(v, capacity, s, Actor(a, req));
    !Blocked(t) && !Step(v, capacity, t, Consumer(ch)).consumer.Wait?
  }

  /** And it does not stay blocked: when there is something to do, an actor is about to raise the flag, and
      once it has, the consumer goes on to look at the requests and the rings again. */
  lemma WokenByNextNotify(v: Variant, capacity: nat, moves: seq<Move>) returns (a: nat)
    requires var s := Run(v, capacity, moves);
             Blocked(s) && (!AllEmpty(s) || s.mustPause || s.mustEnd)
    ensures forall req, ch :: Wakes(v, capacity, Run(v, capacity, moves), a, req, ch)
  {
    var s := Run(v, capacity, moves);
    NoLostWakeUp(v, capacity, moves);
    a :| a in s.actors && s.actors[a].Notify?;
    forall req, ch ensures Wakes(v, capacity, s, a, req, ch) {
    }
  }
}
