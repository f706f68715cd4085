/** Threads outside of the runtime that push events, statement by statement, and exactly when an event of
    theirs survives a pause: a push tests the pause request before it takes the lock, so one that is past
    the test can still insert after the queue was cleared. */
module RuntimeOutside {
  import opened RuntimeModel
  import opened RuntimeInvariant
  import opened RuntimeStop
  import opened RuntimeSwitch
  import opened RuntimeHandshake

  /** Program counter of a thread that pushes to a queue. */
  datatype PushPc =
    | AtPauseTest(q: QueueId) | AtEndTest(q: QueueId) | AtInsert(q: QueueId)
    | AtErrPending(q: QueueId) | AtErrPause(q: QueueId) | AtNotify(q: QueueId)

  /** The runtime and the outside threads that are in a push. */
  datatype World = World(s: State, pushers: map<nat, PushPc>)

  /** One move: of the runtime, or of outside thread `i`, which starts its next push on queue `q`;
      `full` says whether it finds no room. */
  datatype Act = Inside(m: Move) | Outside(i: nat, q: QueueId, full: bool)

  function Start(c: Context): World {
    World(Initial(c), map[])
  }

  /** One statement of push(). */
  function PushStep(cfg: Config, w: World, i: nat, pc: PushPc, full: bool): World {
    var v := QueueAt(w.s, pc.q);
    match pc
    case AtPauseTest(q) =>
      w.(pushers := if v.mustPause then w.pushers - {i} else w.pushers[i := AtEndTest(q)])
    case AtEndTest(q) =>
      w.(pushers := if v.mustEnd then w.pushers - {i} else w.pushers[i := AtInsert(q)])
    case AtInsert(q) =>
      if cfg.errors && full then w.(pushers := w.pushers[i := AtErrPending(q)])
      else World(ExternalStep(cfg, w.s, q, XInsert), w.pushers[i := AtNotify(q)])
    case AtErrPending(q) => World(ExternalStep(cfg, w.s, q, XErrPending), w.pushers[i := AtErrPause(q)])
    case AtErrPause(q) => World(ExternalStep(cfg, w.s, q, XErrPause), w.pushers[i := AtNotify(q)])
    case AtNotify(q) => World(ExternalStep(cfg, w.s, q, XNotify), w.pushers - {i})
  }

  function WorldStep(cfg: Config, w: World, a: Act): World {
    match a
    case Inside(m) => if m.External? then w else w.(s := Step(cfg, w.s, m))
    case Outside(i, q, full) =>
      if !cfg.external then w
      else if i in w.pushers then PushStep(cfg, w, i, w.pushers[i], full)
      else w.(pushers := w.pushers[i := AtPauseTest(q)])
  }

  function WorldRun(cfg: Config, w: World, acts: seq<Act>): World {
    if acts == [] then w else WorldStep(cfg, WorldRun(cfg, w, acts[..|acts| - 1]), acts[|acts| - 1])
  }

  lemma RunOneMore(cfg: Config, w: World, acts: seq<Act>, a: Act)
    ensures WorldRun(cfg, w, acts + [a]) == WorldStep(cfg, WorldRun(cfg, w, acts), a)
  {
    assert (acts + [a])[..|acts|] == acts;
  }

  // -------------------------------------------------------------------- refinement

  /** What a move of the world does to the runtime is a move of the state machine, or nothing. */
  lemma ActRefines(cfg: Config, w: World, a: Act) returns (did: bool, m: Move)
    ensures WorldStep(cfg, w, a).s == if did then Step(cfg, w.s, m) else w.s
  {
    did, m := false, Control(StartPause);
    match a
    case Inside(im) => did, m := !im.External?, im;
    case Outside(i, q, full) =>
      if cfg.external && i in w.pushers {
        match w.pushers[i]
        case AtInsert(p) => did, m := !(cfg.errors && full), External(p, XInsert);
        case AtErrPending(p) => did, m := true, External(p, XErrPending);
        case AtErrPause(p) => did, m := true, External(p, XErrPause);
        case AtNotify(p) => did, m := true, External(p, XNotify);
        case _ =>
      }
  }

  lemma RunExtends(cfg: Config, s: State, moves: seq<Move>, m: Move)
    ensures Run(cfg, s, moves + [m]) == Step(cfg, Run(cfg, s, moves), m)
  {
    assert (moves + [m])[..|moves|] == moves;
  }

  /** Every run with outside threads is a run of the state machine, so all its theorems hold here. */
  lemma {:induction false} WorldRefines(cfg: Config, c: Context, acts: seq<Act>) returns (moves: seq<Move>)
    ensures Run(cfg, Initial(c), moves) == WorldRun(cfg, Start(c), acts).s
  {
    moves := [];
    if acts != [] {
      var before, a := acts[..|acts| - 1], acts[|acts| - 1];
      moves := WorldRefines(cfg, c, before);
      var did, m := ActRefines(cfg, WorldRun(cfg, Start(c), before), a);
      if did {
        RunExtends(cfg, Initial(c), moves, m);
        moves := moves + [m];
      }
    }
  }

  lemma WorldGood(cfg: Config, c: Context, acts: seq<Act>)
    requires ErrorFree(cfg)
    ensures var s := WorldRun(cfg, Start(c), acts).s; Linked(cfg, s) && Hand(cfg, s)
  {
    var moves := WorldRefines(cfg, c, acts);
    ReachableHand(cfg, c, moves);
  }

  // ---------------------------------------------------------------------- the pause

  /** The thread has seen that queue `q` is not paused and has not inserted its event yet. */
  predicate PastTest(pc: PushPc, q: QueueId) {
    pc == AtEndTest(q) || pc == AtInsert(q)
  }

  ghost predicate NobodyPast(w: World, q: QueueId) {
    forall i :: i in w.pushers ==> !PastTest(w.pushers[i], q)
  }

  /** The controller makes no call but the pause: at rest a pause of a paused runtime does nothing. */
  predicate NoNewCall(acts: seq<Act>) {
    forall i :: 0 <= i < |acts| ==> acts[i].Inside? && acts[i].m.Control? ==> acts[i].m.cmd.StartPause?
  }

  /** Inside a pause call that has set the pause request, or after it has returned. */
  predicate InPause(c: ControlPc) {
    c.PNotify? || c.PPost? || c.PWaitStream? || c.PWaitEvent? || c.PClear? || c == CIdle(true)
  }

  /** Nothing can get into the queue any more that the clear of the pause will not take out. */
  ghost predicate Calm(cfg: Config, w: World, q: QueueId) {
    && InPause(w.s.cpc) && CurrentQueue(cfg, w.s) == q && NobodyPast(w, q)
    && (w.s.cpc.CIdle? ==> QueueAt(w.s, q).count == 0)
  }

  lemma RequestUp(cfg: Config, s: State)
    requires Hand(cfg, s) && InPause(s.cpc)
    ensures QueueAt(s, CurrentQueue(cfg, s)).mustPause && !QueueAt(s, CurrentQueue(cfg, s)).mustEnd
  {
  }

  lemma ControlKeepsCalm(cfg: Config, w: World, q: QueueId)
    requires Calm(cfg, w, q)
    ensures Calm(cfg, w.(s := ControlStep(cfg, w.s, StartPause)), q)
  {
  }

  lemma ThreadKeepsCalm(cfg: Config, w: World, q: QueueId, m: Move)
    requires Calm(cfg, w, q) && Hand(cfg, w.s) && (m.Stream? || m.Event?)
    ensures Calm(cfg, w.(s := Step(cfg, w.s, m)), q)
  {
    if w.s.cpc.CIdle? {
      IdleFlags(cfg, w.s);
      ParkedThreads(cfg, w.s, m.ch);
    }
  }

  lemma PushKeepsCalm(cfg: Config, w: World, q: QueueId, i: nat, full: bool)
    requires Calm(cfg, w, q) && QueueAt(w.s, q).mustPause && i in w.pushers
    ensures Calm(cfg, PushStep(cfg, w, i, w.pushers[i], full), q)
  {
  }

  lemma ActKeepsCalm(cfg: Config, w: World, q: QueueId, a: Act)
    requires Hand(cfg, w.s) && Calm(cfg, w, q) && NoNewCall([a])
    ensures Calm(cfg, WorldStep(cfg, w, a), q)
  {
    assert a == [a][0];
    match a
    case Outside(i, _, full) =>
      if i in w.pushers {
        RequestUp(cfg, w.s);
        PushKeepsCalm(cfg, w, q, i, full);
      }
    case Inside(m) =>
      if m.Control? {
        ControlKeepsCalm(cfg, w, q);
      } else if !m.External? {
        ThreadKeepsCalm(cfg, w, q, m);
      }
  }

  lemma ActKeepsGood(cfg: Config, w: World, a: Act)
    requires ErrorFree(cfg) && Linked(cfg, w.s) && Hand(cfg, w.s)
    ensures var t := WorldStep(cfg, w, a).s; Linked(cfg, t) && Hand(cfg, t)
  {
    var did, m := ActRefines(cfg, w, a);
    if did {
      StepKeepsLinked(cfg, w.s, m);
      StepKeepsHand(cfg, w.s, m);
    }
  }

  /** From a calm state every run without a new call stays calm. */
  lemma {:induction false} StaysCalm(cfg: Config, w: World, q: QueueId, rest: seq<Act>)
    requires ErrorFree(cfg) && Linked(cfg, w.s) && Hand(cfg, w.s) && Calm(cfg, w, q) && NoNewCall(rest)
    ensures var t := WorldRun(cfg, w, rest); Linked(cfg, t.s) && Hand(cfg, t.s) && Calm(cfg, t, q)
  {
    if rest != [] {
      var before, a := rest[..|rest| - 1], rest[|rest| - 1];
      StaysCalm(cfg, w, q, before);
      ActKeepsGood(cfg, WorldRun(cfg, w, before), a);
      ActKeepsCalm(cfg, WorldRun(cfg, w, before), q, a);
    }
  }

  /** One move towards the end of the pause: the controller's, or if it waits the awaited thread's. */
  function NextMove(s: State): Move {
    if !ControlBlocked(s) then Control(StartPause)
    else if Awaited(s.cpc) == StreamActor then Stream(Choice(0, Success, false))
    else Event(Choice(0, Success, false))
  }

  lemma PauseAdvances(cfg: Config, s: State) returns (t: State)
    requires Good(cfg, s) && InPause(s.cpc) && !s.cpc.CIdle?
    ensures t == Step(cfg, s, NextMove(s)) && Good(cfg, t) && InPause(t.cpc)
    ensures CurrentQueue(cfg, t) == CurrentQueue(cfg, s)
    ensures CallRank(t.cpc) < CallRank(s.cpc)
            || (t.cpc == s.cpc && AwaitRank(cfg, t) < AwaitRank(cfg, s))
  {
    t := Step(cfg, s, NextMove(s));
    StepKeepsLinked(cfg, s, NextMove(s));
    StepKeepsHand(cfg, s, NextMove(s));
    if ControlBlocked(s) {
      WaitMove(cfg, s, NextMove(s));
    } else {
      CallAdvances(cfg, s, StartPause);
    }
  }

  /** A pause that is under way can return without a move of the outside threads. */
  lemma {:induction false} PauseReturns(cfg: Config, w: World, done: seq<Act>) returns (rest: seq<Act>)
    requires NoNewCall(done)
    requires var u := WorldRun(cfg, w, done); Good(cfg, u.s) && InPause(u.s.cpc)
    ensures NoNewCall(rest)
    ensures var u, t := WorldRun(cfg, w, done), WorldRun(cfg, w, rest);
            && Good(cfg, t.s) && t.s.cpc == CIdle(true) && t.pushers == u.pushers
            && CurrentQueue(cfg, t.s) == CurrentQueue(cfg, u.s)
    decreases CallRank(WorldRun(cfg, w, done).s.cpc), AwaitRank(cfg, WorldRun(cfg, w, done).s)
  {
    var u := WorldRun(cfg, w, done);
    if u.s.cpc.CIdle? {
      rest := done;
    } else {
      var t := PauseAdvances(cfg, u.s);
      RunOneMore(cfg, w, done, Inside(NextMove(u.s)));
      rest := PauseReturns(cfg, w, done + [Inside(NextMove(u.s))]);
    }
  }

  /** A thread past the test inserts its event, paused or not. */
  lemma InsertLands(cfg: Config, w: World, done: seq<Act>, i: nat, q: QueueId) returns (rest: seq<Act>)
    requires cfg.external && !cfg.errors && NoNewCall(done)
    requires var u := WorldRun(cfg, w, done);
             i in u.pushers && PastTest(u.pushers[i], q) && !QueueAt(u.s, q).mustEnd
    ensures NoNewCall(rest)
    ensures WorldRun(cfg, w, rest).s.cpc == WorldRun(cfg, w, done).s.cpc
    ensures QueueAt(WorldRun(cfg, w, rest).s, q).count > 0
  {
    var push := Outside(i, q, false);
    rest := done;
    if WorldRun(cfg, w, done).pushers[i].AtEndTest? {
      RunOneMore(cfg, w, done, push);
      rest := done + [push];
    }
    RunOneMore(cfg, w, rest, push);
    rest := rest + [push];
  }

  /** Whatever happens, once the pause has returned the queue is empty until the next call. */
  ghost predicate StaysEmpty(cfg: Config, w: World, q: QueueId) {
    forall rest :: NoNewCall(rest) && WorldRun(cfg, w, rest).s.cpc == CIdle(true) ==>
      QueueAt(WorldRun(cfg, w, rest).s, q).count == 0
  }

  lemma CalmIsEnough(cfg: Config, w: World, q: QueueId)
    requires Good(cfg, w.s) && Calm(cfg, w, q)
    ensures StaysEmpty(cfg, w, q)
  {
    forall rest | NoNewCall(rest) && WorldRun(cfg, w, rest).s.cpc == CIdle(true)
      ensures QueueAt(WorldRun(cfg, w, rest).s, q).count == 0
    {
      StaysCalm(cfg, w, q, rest);
    }
  }

  lemma CalmIsNeeded(cfg: Config, w: World, q: QueueId)
    requires Good(cfg, w.s) && cfg.external && InPause(w.s.cpc) && q == CurrentQueue(cfg, w.s)
    requires StaysEmpty(cfg, w, q)
    ensures Calm(cfg, w, q)
  {
    if w.s.cpc.CIdle? {
      assert WorldRun(cfg, w, []) == w;
    }
    if i :| i in w.pushers && PastTest(w.pushers[i], q) {
      var returned := PauseReturns(cfg, w, []);
      RequestUp(cfg, WorldRun(cfg, w, returned).s);
      var rest := InsertLands(cfg, w, returned, i, q);
      assert false;
    }
  }

  /** From the moment the pause request is set: the queue is sure to be empty once the pause has returned, and
      until the next call, if and only if no outside thread is past the pause test of a push to it without
      having inserted its event, and, if the pause has returned already, the queue is empty now. */
  lemma PauseLeavesEmpty(cfg: Config, c: Context, past: seq<Act>)
    requires ErrorFree(cfg) && cfg.external
    requires InPause(WorldRun(cfg, Start(c), past).s.cpc)
    ensures var w := WorldRun(cfg, Start(c), past);
            var q := CurrentQueue(cfg, w.s);
            StaysEmpty(cfg, w, q) <==> NobodyPast(w, q) && (w.s.cpc.CIdle? ==> QueueAt(w.s, q).count == 0)
  {
    var w := WorldRun(cfg, Start(c), past);
    WorldGood(cfg, c, past);
    if NobodyPast(w, CurrentQueue(cfg, w.s)) && (w.s.cpc.CIdle? ==> QueueAt(w.s, CurrentQueue(cfg, w.s)).count == 0) {
      CalmIsEnough(cfg, w, CurrentQueue(cfg, w.s));
    } else if StaysEmpty(cfg, w, CurrentQueue(cfg, w.s)) {
      CalmIsNeeded(cfg, w, CurrentQueue(cfg, w.s));
    }
  }

  // --------------------------------------------------------------- a run that shows it

  const CALL := Inside(Control(StartPause))
  const STREAM := Inside(Stream(Choice(0, Success, false)))
  const EVENT := Inside(Event(Choice(0, Success, false)))

  const STREAM_REPLIES := [STREAM, STREAM, STREAM, STREAM]
  const EVENT_REPLIES := [EVENT, EVENT, EVENT, EVENT, EVENT, EVENT, EVENT, EVENT, EVENT]

  /** A thread passes both tests of a push; the application asks for a pause; the two threads reply; the
      pause takes the replies, clears the queue and returns; the thread inserts its event. */
  function Overtaking(push: Act): seq<Act> {
    [push, push, push] + [CALL] + [CALL] + [CALL] + [CALL] + STREAM_REPLIES + [CALL]
    + EVENT_REPLIES + [CALL] + [CALL] + [push]
  }

  lemma {:induction false} RunAppends(cfg: Config, w: World, a: seq<Act>, b: seq<Act>)
    ensures WorldRun(cfg, w, a + b) == WorldRun(cfg, WorldRun(cfg, w, a), b)
  {
    if b == [] {
      assert a + b == a;
    } else {
      RunAppends(cfg, w, a, b[..|b| - 1]);
      assert (a + b)[..|a + b| - 1] == a + b[..|b| - 1];
    }
  }

  /** Three moves of a thread while nothing is to pause or to end. */
  lemma TestsPass(cfg: Config, c: Context, acts: seq<Act>, push: Act) returns (t: World)
    requires cfg.external && push.Outside? && acts == [push, push, push]
    ensures t == WorldRun(cfg, Start(c), acts) && t == World(Initial(c), map[push.i := AtInsert(push.q)])
  {
    t := Start(c);
    assert WorldRun(cfg, t, []) == t;
    RunOneMore(cfg, t, [], push);
    RunOneMore(cfg, t, [push], push);
    RunOneMore(cfg, t, [push, push], push);
    assert [] + [push] == [push] && [push] + [push] == [push, push] && [push, push] + [push] == acts;
    t := WorldStep(cfg, WorldStep(cfg, WorldStep(cfg, t, push), push), push);
  }

  /** The next statement of a pause call, which leaves the threads where they are. */
  predicate NextStatement(cfg: Config, s: State, t: State) {
    && t.spc == s.spc && t.epc == s.epc && t.current == s.current
    && match s.cpc
       case CIdle(_) => t.cpc.PPause?
       case PPause => t.cpc.PNotify?
       case PNotify => t.cpc.PPost?
       case PPost => t.cpc.PWaitStream?
       case PWaitStream => t.cpc.PWaitEvent?
       case PWaitEvent => t.cpc.PClear?
       case _ => t.cpc == CIdle(true) && QueueAt(t, CurrentQueue(cfg, t)).count == 0
  }

  lemma CallMove(cfg: Config, w: World, acts: seq<Act>, u: World) returns (t: World)
    requires WorldRun(cfg, w, acts) == u && CurrentLength(cfg, u.s) > 0 && !ControlBlocked(u.s)
    requires u.s.cpc == CIdle(false) || InQueuePause(u.s.cpc) || InPauseWait(u.s.cpc)
    ensures t == WorldRun(cfg, w, acts + [CALL]) && t.pushers == u.pushers
    ensures NextStatement(cfg, u.s, t.s)
  {
    RunOneMore(cfg, w, acts, CALL);
    t := WorldStep(cfg, u, CALL);
  }

  predicate MovesOf(actor: Actor, acts: seq<Act>) {
    forall i :: 0 <= i < |acts| ==>
      acts[i].Inside? && (acts[i].m.Stream? || acts[i].m.Event?) && ActorOf(acts[i].m) == actor
  }

  /** Moves of the awaited thread alone, while a call waits. */
  lemma {:induction false} AwaitedReplies(cfg: Config, w: World, acts: seq<Act>) returns (t: World)
    requires Good(cfg, w.s) && Waits(w.s.cpc) && MovesOf(Awaited(w.s.cpc), acts)
    ensures t == WorldRun(cfg, w, acts) && Good(cfg, t.s)
    ensures t.s.cpc == w.s.cpc && t.pushers == w.pushers && t.s.current == w.s.current
    ensures Awaited(w.s.cpc) == StreamActor ==> t.s.epc == w.s.epc
    ensures ControlBlocked(t.s) ==> AwaitRank(cfg, t.s) + |acts| <= AwaitRank(cfg, w.s)
    ensures |acts| >= AwaitRank(cfg, w.s) ==> !ControlBlocked(t.s)
  {
    t := WorldRun(cfg, w, acts);
    if acts != [] {
      var a := acts[|acts| - 1];
      var u := AwaitedReplies(cfg, w, acts[..|acts| - 1]);
      ActKeepsGood(cfg, u, a);
      if ControlBlocked(u.s) {
        WaitMove(cfg, u.s, a.m);
      } else {
        ReplyStays(cfg, u.s, a.m);
      }
    }
    if ControlBlocked(t.s) {
      BlockedRank(cfg, t.s, Choice(0, Success, false));
    }
  }

  lemma AsksPass(cfg: Config, c: Context, acts: seq<Act>, w: World) returns (t: World)
    requires cfg.length(c) > 0 && w == WorldRun(cfg, Start(c), acts) && w.s == Initial(c)
    ensures t == WorldRun(cfg, Start(c), acts + [CALL] + [CALL] + [CALL] + [CALL]) && t.pushers == w.pushers
    ensures t.s.cpc.PWaitStream? && t.s.spc.SLoad? && t.s.epc.ELoad? && t.s.current == Some(c)
  {
    t := CallMove(cfg, Start(c), acts, w);
    t := CallMove(cfg, Start(c), acts + [CALL], t);
    t := CallMove(cfg, Start(c), acts + [CALL] + [CALL], t);
    t := CallMove(cfg, Start(c), acts + [CALL] + [CALL] + [CALL], t);
  }

  lemma StreamParks(cfg: Config, c: Context, acts: seq<Act>, w: World) returns (t: World)
    requires ErrorFree(cfg) && w == WorldRun(cfg, Start(c), acts)
    requires w.s.cpc.PWaitStream? && w.s.spc.SLoad? && w.s.current.Some?
    ensures t == WorldRun(cfg, Start(c), acts + STREAM_REPLIES + [CALL]) && t.pushers == w.pushers
    ensures t.s.cpc.PWaitEvent? && t.s.epc == w.s.epc && t.s.current == w.s.current
  {
    WorldGood(cfg, c, acts);
    t := AwaitedReplies(cfg, w, STREAM_REPLIES);
    RunAppends(cfg, Start(c), acts, STREAM_REPLIES);
    t := CallMove(cfg, Start(c), acts + STREAM_REPLIES, t);
  }

  lemma EventParks(cfg: Config, c: Context, acts: seq<Act>, w: World) returns (t: World)
    requires ErrorFree(cfg) && w == WorldRun(cfg, Start(c), acts)
    requires w.s.cpc.PWaitEvent? && w.s.epc.ELoad? && w.s.current.Some?
    ensures t == WorldRun(cfg, Start(c), acts + EVENT_REPLIES + [CALL] + [CALL]) && t.pushers == w.pushers
    ensures t.s.cpc == CIdle(true) && t.s.current == w.s.current && QueueAt(t.s, CurrentQueue(cfg, t.s)).count == 0
  {
    WorldGood(cfg, c, acts);
    t := AwaitedReplies(cfg, w, EVENT_REPLIES);
    RunAppends(cfg, Start(c), acts, EVENT_REPLIES);
    t := CallMove(cfg, Start(c), acts + EVENT_REPLIES, t);
    t := CallMove(cfg, Start(c), acts + EVENT_REPLIES + [CALL], t);
  }

  /** From the initial state, in every configuration without errors: the pause has returned, and there is
      an event in the queue. */
  lemma PushOvertakesPause(cfg: Config, c: Context, push: Act)
    requires ErrorFree(cfg) && cfg.external && push.Outside? && push.q == cfg.queueOf(c)
    ensures var t := WorldRun(cfg, Start(c), Overtaking(push));
            t.s.cpc == CIdle(true) && QueueAt(t.s, CurrentQueue(cfg, t.s)).count == 1
  {
    var acts := [push, push, push];
    var w := TestsPass(cfg, c, acts, push);
    w := AsksPass(cfg, c, acts, w);
    acts := acts + [CALL] + [CALL] + [CALL] + [CALL];
    w := StreamParks(cfg, c, acts, w);
    acts := acts + STREAM_REPLIES + [CALL];
    w := EventParks(cfg, c, acts, w);
    acts := acts + EVENT_REPLIES + [CALL] + [CALL];
    RunOneMore(cfg, Start(c), acts, push);
  }
}
