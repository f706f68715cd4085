/** When a node and a handler fail at the same time the two threads wait for each other's reply, and only stop
    gets them out of it. */
module RuntimeMutualWait {
  import opened RuntimeModel
  import opened RuntimeInvariant
  import opened RuntimeStop

  // ---------------------------------------------------------------------- a run that leads there

  /** The points of the two threads, the queue, and whether a pause is posted. */
  datatype Pose = Pose(p: StreamPc, e: EventPc, v: QueueState, pause: bool)

  /** What matters of a state in which the application makes no call and only context `c` is used. */
  predicate Looks(cfg: Config, c: Context, s: State, a: Pose) {
    && s.spc == a.p && s.epc == a.e && QueueAt(s, cfg.queueOf(c)) == a.v
    && s.se == NO_MESSAGE.(pause := a.pause) && s.re == NO_REPLY
    && s.current == Some(c) && !s.stop && s.cpc == CIdle(false)
    && (!a.p.SLoad? ==> s.sCtx == c) && (!a.e.ELoad? ==> s.eCtx == c)
  }

  /** The stream thread: a node pushes one event and then fails. */
  function NextStream(p: StreamPc): StreamPc {
    match p
    case SLoad => SPoll
    case SPoll => SNode(1)
    case SNode(k) => if k > 0 then SPushPause(k - 1) else SQueuePause
    case SPushPause(k) => SPushEnd(k)
    case SPushEnd(k) => SPushInsert(k)
    case SPushInsert(k) => SPushNotify(k)
    case SPushNotify(k) => SNode(k)
    case SQueuePause => SQueueNotify
    case SQueueNotify => SPauseAll(true)
    case _ => SWaitEvent
  }

  function StreamQueue(p: StreamPc, v: QueueState): QueueState {
    match p
    case SPushInsert(_) => v.(count := v.count + 1)
    case SPushNotify(_) => v.(wake := true)
    case SQueuePause => v.(mustPause := true)
    case SQueueNotify => v.(wake := true)
    case _ => v
  }

  /** The choices: one push, no full queue, and then a failure. */
  function StreamChoice(p: StreamPc): Choice {
    Choice(1, RuntimeError, p.SNode?)
  }

  predicate StreamMay(a: Pose) {
    && (a.p.SLoad? || InScheduler(a.p) || InNodePush(a.p) || a.p.SQueuePause? || a.p.SQueueNotify? || a.p == SPauseAll(true))
    && (a.p.SPoll? ==> !a.pause) && (a.p.SPushPause? ==> !a.v.mustPause) && (a.p.SPushEnd? ==> !a.v.mustEnd)
  }

  predicate Failing(cfg: Config, c: Context) {
    cfg.errors && cfg.budget > 0 && cfg.length(c) > 0
  }

  lemma PushGoes(cfg: Config, c: Context, s: State, a: Pose)
    requires Failing(cfg, c) && Looks(cfg, c, s, a) && StreamMay(a) && InNodePush(a.p)
    ensures Looks(cfg, c, StreamStep(cfg, s, StreamChoice(a.p)), a.(p := NextStream(a.p), v := StreamQueue(a.p, a.v)))
  {
  }

  lemma StreamGoes(cfg: Config, c: Context, s: State, a: Pose)
    requires Failing(cfg, c) && Looks(cfg, c, s, a) && StreamMay(a)
    ensures Looks(cfg, c, StreamStep(cfg, s, StreamChoice(a.p)), a.(p := NextStream(a.p), v := StreamQueue(a.p, a.v)))
  {
    if InNodePush(a.p) {
      PushGoes(cfg, c, s, a);
    }
  }

  /** The event thread: it takes a message, its handler fails, and it asks the stream thread to pause. */
  function NextEvent(e: EventPc, v: QueueState): EventPc {
    match e
    case ELoad => EOuterEnd
    case EOuterEnd => EOuterPause
    case EOuterPause => EInnerEnd
    case EInnerEnd => EInnerPause
    case EInnerPause => if v.mustPause then EExitEnd else EInnerEmpty
    case EInnerEmpty => EPop
    case EPop => EHandle(0)
    case EHandle(_) => EErrPending(0, true)
    case EErrPending(_, _) => EErrPause(0, true)
    case EErrPause(_, _) => EErrNotify(0, true)
    case EErrNotify(_, _) => EInnerEnd
    case EExitEnd => EExitPause
    case EExitPause => EAfterEnd
    case EAfterEnd => EConsume
    case EConsume => EPeerPost
    case _ => EPeerWait
  }

  function EventQueueState(e: EventPc, v: QueueState): QueueState {
    match e
    case EPop => v.(count := if v.count > 0 then v.count - 1 else 0)
    case EErrPending(_, _) => v.(errPending := true)
    case EErrPause(_, _) => v.(mustPause := true)
    case EErrNotify(_, _) => v.(wake := true)
    case EConsume => v.(errPending := false)
    case _ => v
  }

  function EventChoice(e: EventPc): Choice {
    Choice(0, Success, e.EHandle?)
  }

  predicate EventMay(a: Pose) {
    && (InLoopTest(a.e) || a.e.EPop? || a.e == EHandle(0) || a.e == EErrPending(0, true) || a.e == EErrPause(0, true)
        || a.e == EErrNotify(0, true) || a.e.EExitEnd? || a.e.EExitPause? || a.e.EAfterEnd? || a.e.EConsume?
        || a.e.EPeerPost? || a.e.ELoad?)
    && !a.v.mustEnd && (a.e.EOuterPause? ==> !a.v.mustPause) && (a.e.EInnerEmpty? || a.e.EPop? ==> a.v.count > 0)
    && (a.e.EExitPause? ==> a.v.mustPause) && (a.e.EConsume? ==> a.v.errPending)
  }

  lemma EventGoesRound(cfg: Config, c: Context, s: State, a: Pose)
    requires Failing(cfg, c) && Looks(cfg, c, s, a) && EventMay(a)
    requires InLoopTest(a.e) || a.e.ELoad?
    ensures Looks(cfg, c, EventStep(cfg, s, EventChoice(a.e)), PoseStep(a, false))
  {
  }

  lemma EventTakes(cfg: Config, c: Context, s: State, a: Pose)
    requires Failing(cfg, c) && Looks(cfg, c, s, a) && EventMay(a) && InTake(a.e)
    ensures Looks(cfg, c, EventStep(cfg, s, EventChoice(a.e)), PoseStep(a, false))
  {
  }

  lemma EventGoesOut(cfg: Config, c: Context, s: State, a: Pose)
    requires Failing(cfg, c) && Looks(cfg, c, s, a) && EventMay(a)
    requires !InLoopTest(a.e) && !InTake(a.e) && !a.e.ELoad?
    ensures Looks(cfg, c, EventStep(cfg, s, EventChoice(a.e)), PoseStep(a, false))
  {
  }

  lemma EventGoes(cfg: Config, c: Context, s: State, a: Pose)
    requires Failing(cfg, c) && Looks(cfg, c, s, a) && EventMay(a)
    ensures Looks(cfg, c, EventStep(cfg, s, EventChoice(a.e)), PoseStep(a, false))
  {
    if InLoopTest(a.e) || a.e.ELoad? {
      EventGoesRound(cfg, c, s, a);
    } else if InTake(a.e) {
      EventTakes(cfg, c, s, a);
    } else {
      EventGoesOut(cfg, c, s, a);
    }
  }

  function PoseStep(a: Pose, stream: bool): Pose {
    if stream then a.(p := NextStream(a.p), v := StreamQueue(a.p, a.v))
    else a.(e := NextEvent(a.e, a.v), v := EventQueueState(a.e, a.v), pause := a.pause || a.e.EPeerPost?)
  }

  /** No call of the application, and no thread from outside. */
  predicate ThreadsOnly(moves: seq<Move>) {
    forall i :: 0 <= i < |moves| ==> moves[i].Stream? || moves[i].Event?
  }

  function MoveOf(a: Pose, stream: bool): Move {
    if stream then Stream(StreamChoice(a.p)) else Event(EventChoice(a.e))
  }

  /** `n` moves of one thread are possible, and lead to `b`. */
  predicate Leads(a: Pose, stream: bool, n: nat, b: Pose)
    decreases n
  {
    if n == 0 then a == b
    else (if stream then StreamMay(a) else EventMay(a)) && Leads(PoseStep(a, stream), stream, n - 1, b)
  }

  /** A run with the states it goes through. */
  datatype Trace = Trace(states: seq<State>, moves: seq<Move>)

  predicate Taken(cfg: Config, tr: Trace, i: nat)
    requires i < |tr.moves| && |tr.states| == |tr.moves| + 1
  {
    tr.states[i + 1] == Step(cfg, tr.states[i], tr.moves[i])
  }

  predicate IsTrace(cfg: Config, c: Context, tr: Trace) {
    && |tr.states| == |tr.moves| + 1 && tr.states[0] == Initial(c) && ThreadsOnly(tr.moves)
    && forall i :: 0 <= i < |tr.moves| ==> Taken(cfg, tr, i)
  }

  /** The trace ends in a state that looks like `a`. */
  predicate EndsIn(cfg: Config, c: Context, tr: Trace, a: Pose) {
    IsTrace(cfg, c, tr) && Looks(cfg, c, tr.states[|tr.moves|], a)
  }

  lemma {:induction false} TraceIsRun(cfg: Config, c: Context, tr: Trace, n: nat)
    requires IsTrace(cfg, c, tr) && n <= |tr.moves|
    ensures Run(cfg, Initial(c), tr.moves[..n]) == tr.states[n]
  {
    if n > 0 {
      TraceIsRun(cfg, c, tr, n - 1);
      assert tr.moves[..n][..n - 1] == tr.moves[..n - 1];
      assert Taken(cfg, tr, n - 1);
    }
  }

  lemma Extend(cfg: Config, c: Context, tr: Trace, m: Move, t: State) returns (longer: Trace)
    requires IsTrace(cfg, c, tr) && t == Step(cfg, tr.states[|tr.moves|], m) && (m.Stream? || m.Event?)
    ensures IsTrace(cfg, c, longer) && longer.moves == tr.moves + [m] && longer.states[|longer.moves|] == t
  {
    longer := Trace(tr.states + [t], tr.moves + [m]);
    forall i | 0 <= i < |longer.moves| ensures Taken(cfg, longer, i) {
      if i < |tr.moves| {
        assert Taken(cfg, tr, i);
      }
    }
  }

  lemma PoseMove(cfg: Config, c: Context, s: State, a: Pose, stream: bool) returns (t: State)
    requires Failing(cfg, c) && Looks(cfg, c, s, a) && if stream then StreamMay(a) else EventMay(a)
    ensures t == Step(cfg, s, MoveOf(a, stream)) && Looks(cfg, c, t, PoseStep(a, stream))
  {
    t := Step(cfg, s, MoveOf(a, stream));
    if stream {
      StreamGoes(cfg, c, s, a);
    } else {
      EventGoes(cfg, c, s, a);
    }
  }

  lemma OneMove(cfg: Config, c: Context, tr: Trace, a: Pose, stream: bool) returns (longer: Trace)
    requires Failing(cfg, c) && EndsIn(cfg, c, tr, a) && if stream then StreamMay(a) else EventMay(a)
    ensures EndsIn(cfg, c, longer, PoseStep(a, stream)) && |longer.moves| == |tr.moves| + 1
  {
    var t := PoseMove(cfg, c, tr.states[|tr.moves|], a, stream);
    longer := Extend(cfg, c, tr, MoveOf(a, stream), t);
  }

  lemma {:induction false} Leg(cfg: Config, c: Context, tr: Trace, a: Pose, stream: bool, n: nat, b: Pose)
    returns (longer: Trace)
    requires Failing(cfg, c) && EndsIn(cfg, c, tr, a) && Leads(a, stream, n, b)
    ensures EndsIn(cfg, c, longer, b) && |longer.moves| == |tr.moves| + n
    decreases n
  {
    longer := tr;
    if n > 0 {
      longer := OneMove(cfg, c, tr, a, stream);
      longer := Leg(cfg, c, longer, PoseStep(a, stream), stream, n - 1, b);
    }
  }

  const START := Pose(SLoad, ELoad, FRESH_QUEUE, false)
  const PUSHED := Pose(SNode(0), ELoad, QueueState(false, false, false, true, 1), false)
  const LOOKED := Pose(SNode(0), EInnerEmpty, QueueState(false, false, false, true, 1), false)
  const FAILED := Pose(SNode(0), EErrPause(0, true), QueueState(false, false, true, true, 0), false)
  const SET := Pose(SNode(0), EInnerEnd, QueueState(true, false, true, true, 0), false)
  const LEAVING := Pose(SNode(0), EExitPause, QueueState(true, false, true, true, 0), false)
  const LEFT := Pose(SNode(0), EPeerWait, QueueState(true, false, false, true, 0), true)
  const WAITING := Pose(SWaitEvent, EPeerWait, QueueState(true, false, false, true, 0), true)

  lemma NodePushes()
    ensures Leads(START, true, 7, PUSHED)
  {
  }

  lemma EventLooks()
    ensures Leads(PUSHED, false, 5, LOOKED)
  {
  }

  lemma HandlerFails()
    ensures Leads(LOOKED, false, 4, FAILED)
  {
  }

  lemma ErrorIsSet()
    ensures Leads(FAILED, false, 2, SET)
  {
  }

  lemma EventLeaves()
    ensures Leads(SET, false, 3, LEAVING)
  {
  }

  lemma EventWaits()
    ensures Leads(LEAVING, false, 4, LEFT)
  {
  }

  lemma NodeFails()
    ensures Leads(LEFT, true, 4, WAITING)
  {
  }

  /** Each thread waits for the reply of the other, and neither reply is up. */
  predicate MutualWait(cfg: Config, s: State) {
    s.spc.SWaitEvent? && s.epc.EPeerWait? && EventBlocked(cfg, s) && StreamBlocked(s)
  }

  /** 29 moves of the two threads from the initial state, in every configuration in which nodes and handlers may
      fail: a node pushes an event, its handler fails, and before the next poll a node fails, too. */
  lemma MutualWaitHappens(cfg: Config, c: Context) returns (moves: seq<Move>)
    requires Failing(cfg, c)
    ensures |moves| == 29 && ThreadsOnly(moves)
    ensures MutualWait(cfg, Run(cfg, Initial(c), moves)) && Run(cfg, Initial(c), moves).cpc == CIdle(false)
  {
    var tr := WholeTrace(cfg, c);
    moves := tr.moves;
    TraceIsRun(cfg, c, tr, 29);
    assert moves[..29] == moves;
  }

  lemma WholeTrace(cfg: Config, c: Context) returns (tr: Trace)
    requires Failing(cfg, c)
    ensures EndsIn(cfg, c, tr, WAITING) && |tr.moves| == 29
  {
    tr := Trace([Initial(c)], []);
    NodePushes();
    tr := Leg(cfg, c, tr, START, true, 7, PUSHED);
    EventLooks();
    tr := Leg(cfg, c, tr, PUSHED, false, 5, LOOKED);
    HandlerFails();
    tr := Leg(cfg, c, tr, LOOKED, false, 4, FAILED);
    ErrorIsSet();
    tr := Leg(cfg, c, tr, FAILED, false, 2, SET);
    EventLeaves();
    tr := Leg(cfg, c, tr, SET, false, 3, LEAVING);
    EventWaits();
    tr := Leg(cfg, c, tr, LEAVING, false, 4, LEFT);
    NodeFails();
    tr := Leg(cfg, c, tr, LEFT, true, 4, WAITING);
  }

  // -------------------------------------------------------------------------- and lasts

  /** The application has made no call, or one of pause that waits for the stream thread. */
  predicate Stuck(cfg: Config, s: State) {
    MutualWait(cfg, s) && (s.cpc == CIdle(false) || InQueuePause(s.cpc) || s.cpc.PPost? || s.cpc.PWaitStream?)
  }

  lemma StuckThreads(cfg: Config, s: State, ch: Choice)
    requires Stuck(cfg, s)
    ensures StreamStep(cfg, s, ch) == s && EventStep(cfg, s, ch) == s
  {
  }

  lemma StuckControl(cfg: Config, s: State, cmd: Command)
    requires Stuck(cfg, s) && !cmd.StartStop? && (forall c :: cfg.length(c) > 0) && s.current.Some?
    ensures Stuck(cfg, ControlStep(cfg, s, cmd)) && ControlStep(cfg, s, cmd).current == s.current
  {
  }

  lemma StuckOutside(cfg: Config, s: State, q: QueueId, eff: Effect)
    requires Stuck(cfg, s)
    ensures Stuck(cfg, ExternalStep(cfg, s, q, eff)) && ExternalStep(cfg, s, q, eff).current == s.current
  {
  }

  lemma StuckMove(cfg: Config, s: State, m: Move) returns (t: State)
    requires Stuck(cfg, s) && s.current.Some? && (forall c :: cfg.length(c) > 0) && !(m.Control? && m.cmd.StartStop?)
    ensures t == Step(cfg, s, m) && Stuck(cfg, t) && t.current == s.current
  {
    t := Step(cfg, s, m);
    match m
    case Control(cmd) => StuckControl(cfg, s, cmd);
    case Stream(ch) => StuckThreads(cfg, s, ch);
    case Event(ch) => StuckThreads(cfg, s, ch);
    case External(q, eff) => StuckOutside(cfg, s, q, eff);
  }

  /** Whatever happens but a call of stop, the threads go on waiting, and a call of pause never returns. */
  lemma {:induction false} MutualWaitLasts(cfg: Config, s: State, moves: seq<Move>)
    requires Stuck(cfg, s) && s.current.Some? && forall c :: cfg.length(c) > 0
    requires forall i :: 0 <= i < |moves| ==> !(moves[i].Control? && moves[i].cmd.StartStop?)
    ensures Stuck(cfg, Run(cfg, s, moves)) && Run(cfg, s, moves).current == s.current
  {
    if moves != [] {
      var u, m := Run(cfg, s, moves[..|moves| - 1]), moves[|moves| - 1];
      MutualWaitLasts(cfg, s, moves[..|moves| - 1]);
      var t := StuckMove(cfg, u, m);
    }
  }
}
