/** The pause / resume handshake of error-free runs over streaming contexts: what a returned pause
    guarantees, that no call ever fails or leaves a flag up, and that every call makes progress. */
module RuntimeHandshake {
  import opened RuntimeModel
  import opened RuntimeInvariant
  import opened RuntimeStop
  import opened RuntimeSwitch

  // -------------------------------------------------------------------- invariants

  /** The event thread is in execute(), or about to enter it. */
  predicate EventLoops(e: EventPc) {
    InLoopTest(e) || InTake(e) || InHandler(e) || e.ELoad?
  }

  /** The event thread has seen the pause request and has not replied yet. */
  predicate EventPauses(e: EventPc) {
    e.EAfterEnd? || e.EConsume? || InEventReply(e)
  }

  predicate StreamRuns(p: StreamPc) {
    InStreamLoop(p) || InScheduler(p) || InNodePush(p)
  }

  predicate StreamPauses(p: StreamPc) {
    p == SPauseAll(false) || p.SPostPaused?
  }

  /** The controller is in no call, or in one that has not asked the threads for anything yet, or is done. */
  predicate Running(c: ControlPc) {
    (c.CIdle? && !c.paused) || c.PPause? || c.RClear?
  }

  /** Both threads are parked and nothing is posted. */
  predicate Paused(c: ControlPc) {
    c.PClear? || (c.CIdle? && c.paused) || (InResumeStream(c) && !c.RWaitStream?)
  }

  /** Where the stream thread can be, and which of its messages are up, for each statement of the controller. */
  predicate StreamSide(s: State) {
    var c, p := s.cpc, s.spc;
    var none := !s.se.pause && !s.se.resume && !s.re.sPaused && !s.re.sResumed;
    if Running(c) || c.PNotify? || c.PPost? || c.RPostEvent? || c.RWaitEvent? then none && StreamRuns(p)
    else if c.PWaitEvent? || Paused(c) then none && p.SResumeWait?
    else if c.PWaitStream? then
      !s.se.resume && !s.re.sResumed &&
      if s.se.pause then StreamRuns(p) && !s.re.sPaused
      else if s.re.sPaused then p.SResumeWait? else StreamPauses(p)
    else if c.RWaitStream? then
      !s.se.pause && !s.re.sPaused &&
      if s.se.resume then p.SResumeWait? && !s.re.sResumed
      else if s.re.sResumed then StreamRuns(p) else InStreamWake(p)
    else Stopping(c)
  }

  /** The same for the event thread and the pause request of the current queue. */
  predicate EventSide(cfg: Config, s: State) {
    var c, e := s.cpc, s.epc;
    var v := QueueAt(s, CurrentQueue(cfg, s));
    var none := !s.se.evResume && !s.re.ePaused && !s.re.eResumed;
    if Running(c) then none && EventLoops(e) && !v.mustPause
    else if c.PNotify? || c.PPost? || c.PWaitStream? || c.PWaitEvent? then
      && !s.se.evResume && !s.re.eResumed && v.mustPause
      && (if s.re.ePaused then e.EResumeWait? else EventLoops(e) || EventPauses(e))
      && (e.EWait? ==> v.wake || c.PNotify?)
    else if c.PClear? || (c.CIdle? && c.paused) || c.RSet? || c.RUnpause? then
      && none && e.EResumeWait?
      && (c.PClear? || c.CIdle? ==> v.mustPause)
      && (c.CIdle? && !cfg.external ==> v.count == 0)
    else if c.RClearError? || c.RPostStream? || c.RWaitStream? || c.RPostEvent? then
      none && e.EResumeWait? && !v.mustPause
    else if c.RWaitEvent? then
      !s.re.ePaused && !v.mustPause &&
      if s.se.evResume then e.EResumeWait? && !s.re.eResumed
      else if s.re.eResumed then EventLoops(e) else e.EPostResumed?
    else Stopping(c)
  }

  /** No queue holds an error or an end request. */
  ghost predicate Clean(s: State) {
    !s.stop && !s.se.done && forall q :: q in s.queues ==> !s.queues[q].errPending && !s.queues[q].mustEnd
  }

  ghost predicate Hand(cfg: Config, s: State) {
    !Stopping(s.cpc) ==> Clean(s) && StreamSide(s) && EventSide(cfg, s)
  }

  ghost predicate ErrorFree(cfg: Config) {
    AllStreaming(cfg) && !cfg.errors
  }

  /** A move of the event thread leaves the stream thread's side alone. */
  predicate SameStream(s: State, t: State) {
    && t.se.pause == s.se.pause && t.se.resume == s.se.resume
    && t.re.sPaused == s.re.sPaused && t.re.sResumed == s.re.sResumed
  }

  /** A move of the stream thread, or of a thread outside, leaves the event thread's side alone. */
  predicate SameEvent(cfg: Config, s: State, t: State) {
    var v, w := QueueAt(s, CurrentQueue(cfg, s)), QueueAt(t, CurrentQueue(cfg, s));
    && t.se.evResume == s.se.evResume && t.re.ePaused == s.re.ePaused && t.re.eResumed == s.re.eResumed
    && w.mustPause == v.mustPause && (v.wake ==> w.wake) && (s.spc.SResumeWait? ==> w.count == v.count)
  }

  lemma LoopTestKeepsHand(cfg: Config, s: State)
    requires ErrorFree(cfg) && Linked(cfg, s) && Hand(cfg, s) && !Stopping(s.cpc) && InLoopTest(s.epc)
    ensures var t := LoopTestStep(cfg, s); Clean(t) && EventSide(cfg, t) && SameStream(s, t)
  {
  }

  lemma PopKeepsHand(cfg: Config, s: State, ch: Choice)
    requires ErrorFree(cfg) && Linked(cfg, s) && Hand(cfg, s) && !Stopping(s.cpc) && s.epc.EPop?
    ensures var t := TakeStep(cfg, s, ch); Clean(t) && EventSide(cfg, t) && SameStream(s, t)
  {
  }

  lemma ExitKeepsHand(cfg: Config, s: State, ch: Choice)
    requires ErrorFree(cfg) && Linked(cfg, s) && Hand(cfg, s) && !Stopping(s.cpc) && InTake(s.epc) && !s.epc.EPop?
    ensures var t := TakeStep(cfg, s, ch); Clean(t) && EventSide(cfg, t) && SameStream(s, t)
  {
  }

  lemma TakeKeepsHand(cfg: Config, s: State, ch: Choice)
    requires ErrorFree(cfg) && Linked(cfg, s) && Hand(cfg, s) && !Stopping(s.cpc) && InTake(s.epc)
    ensures var t := TakeStep(cfg, s, ch); Clean(t) && EventSide(cfg, t) && SameStream(s, t)
  {
    if s.epc.EPop? {
      PopKeepsHand(cfg, s, ch);
    } else {
      ExitKeepsHand(cfg, s, ch);
    }
  }

  lemma HandlerInsertKeepsHand(cfg: Config, s: State, ch: Choice)
    requires ErrorFree(cfg) && Linked(cfg, s) && Hand(cfg, s) && !Stopping(s.cpc) && (s.epc.EPushInsert? || s.epc.EPushNotify?)
    ensures var t := HandlerStep(cfg, s, ch); Clean(t) && EventSide(cfg, t) && SameStream(s, t)
  {
  }

  lemma HandlerTestKeepsHand(cfg: Config, s: State, ch: Choice)
    requires ErrorFree(cfg) && Linked(cfg, s) && Hand(cfg, s) && !Stopping(s.cpc) && InHandler(s.epc) && !s.epc.EPushInsert? && !s.epc.EPushNotify?
    ensures var t := HandlerStep(cfg, s, ch); Clean(t) && EventSide(cfg, t) && SameStream(s, t)
  {
  }

  lemma HandlerKeepsHand(cfg: Config, s: State, ch: Choice)
    requires ErrorFree(cfg) && Linked(cfg, s) && Hand(cfg, s) && !Stopping(s.cpc) && InHandler(s.epc)
    ensures var t := HandlerStep(cfg, s, ch); Clean(t) && EventSide(cfg, t) && SameStream(s, t)
  {
    if (s.epc.EPushInsert? || s.epc.EPushNotify?) {
      HandlerInsertKeepsHand(cfg, s, ch);
    } else {
      HandlerTestKeepsHand(cfg, s, ch);
    }
  }

  lemma ReturnKeepsHand(cfg: Config, s: State)
    requires ErrorFree(cfg) && Linked(cfg, s) && Hand(cfg, s) && !Stopping(s.cpc) && InReturn(s.epc)
    ensures var t := ReturnStep(cfg, s); Clean(t) && EventSide(cfg, t) && SameStream(s, t)
  {
  }

  lemma EventReplyKeepsHand(cfg: Config, s: State)
    requires ErrorFree(cfg) && Linked(cfg, s) && Hand(cfg, s) && !Stopping(s.cpc) && InEventReply(s.epc)
    ensures var t := EventReplyStep(cfg, s); Clean(t) && EventSide(cfg, t) && SameStream(s, t)
  {
  }

  lemma EventWakeKeepsHand(cfg: Config, s: State)
    requires ErrorFree(cfg) && Linked(cfg, s) && Hand(cfg, s) && !Stopping(s.cpc) && InEventWake(s.epc)
    ensures var t := EventWakeStep(cfg, s); Clean(t) && EventSide(cfg, t) && SameStream(s, t)
  {
  }

  lemma StreamLoopKeepsHand(cfg: Config, s: State)
    requires ErrorFree(cfg) && Linked(cfg, s) && Hand(cfg, s) && !Stopping(s.cpc) && InStreamLoop(s.spc)
    ensures var t := StreamLoopStep(s); Clean(t) && StreamSide(t) && SameEvent(cfg, s, t)
  {
  }

  lemma PollKeepsHand(cfg: Config, s: State, ch: Choice)
    requires ErrorFree(cfg) && Linked(cfg, s) && Hand(cfg, s) && !Stopping(s.cpc) && s.spc.SPoll?
    ensures var t := SchedulerStep(cfg, s, ch); Clean(t) && StreamSide(t) && SameEvent(cfg, s, t)
  {
  }

  lemma NodeKeepsHand(cfg: Config, s: State, ch: Choice)
    requires ErrorFree(cfg) && Linked(cfg, s) && Hand(cfg, s) && !Stopping(s.cpc) && s.spc.SNode?
    ensures var t := SchedulerStep(cfg, s, ch); Clean(t) && StreamSide(t) && SameEvent(cfg, s, t)
  {
  }

  lemma SchedulerKeepsHand(cfg: Config, s: State, ch: Choice)
    requires ErrorFree(cfg) && Linked(cfg, s) && Hand(cfg, s) && !Stopping(s.cpc) && InScheduler(s.spc)
    ensures var t := SchedulerStep(cfg, s, ch); Clean(t) && StreamSide(t) && SameEvent(cfg, s, t)
  {
    if s.spc.SPoll? {
      PollKeepsHand(cfg, s, ch);
    } else {
      NodeKeepsHand(cfg, s, ch);
    }
  }

  lemma NodeInsertKeepsHand(cfg: Config, s: State, ch: Choice)
    requires ErrorFree(cfg) && Linked(cfg, s) && Hand(cfg, s) && !Stopping(s.cpc) && (s.spc.SPushInsert? || s.spc.SPushNotify?)
    ensures var t := NodePushStep(cfg, s, ch); Clean(t) && StreamSide(t) && SameEvent(cfg, s, t)
  {
  }

  lemma NodeTestKeepsHand(cfg: Config, s: State, ch: Choice)
    requires ErrorFree(cfg) && Linked(cfg, s) && Hand(cfg, s) && !Stopping(s.cpc) && (s.spc.SPushPause? || s.spc.SPushEnd?)
    ensures var t := NodePushStep(cfg, s, ch); Clean(t) && StreamSide(t) && SameEvent(cfg, s, t)
  {
  }

  lemma NodePushKeepsHand(cfg: Config, s: State, ch: Choice)
    requires ErrorFree(cfg) && Linked(cfg, s) && Hand(cfg, s) && !Stopping(s.cpc) && InNodePush(s.spc)
    ensures var t := NodePushStep(cfg, s, ch); Clean(t) && StreamSide(t) && SameEvent(cfg, s, t)
  {
    if (s.spc.SPushInsert? || s.spc.SPushNotify?) {
      NodeInsertKeepsHand(cfg, s, ch);
    } else {
      NodeTestKeepsHand(cfg, s, ch);
    }
  }

  lemma StreamPauseKeepsHand(cfg: Config, s: State)
    requires ErrorFree(cfg) && Linked(cfg, s) && Hand(cfg, s) && !Stopping(s.cpc) && InStreamPause(s.spc)
    ensures var t := StreamPauseStep(cfg, s); Clean(t) && StreamSide(t) && SameEvent(cfg, s, t)
  {
  }

  lemma StreamReplyKeepsHand(cfg: Config, s: State)
    requires ErrorFree(cfg) && Linked(cfg, s) && Hand(cfg, s) && !Stopping(s.cpc) && InStreamReply(s.spc)
    ensures var t := StreamReplyStep(s); Clean(t) && StreamSide(t) && SameEvent(cfg, s, t)
  {
  }

  lemma StreamWakeKeepsHand(cfg: Config, s: State)
    requires ErrorFree(cfg) && Linked(cfg, s) && Hand(cfg, s) && !Stopping(s.cpc) && InStreamWake(s.spc)
    ensures var t := StreamWakeStep(s); Clean(t) && StreamSide(t) && SameEvent(cfg, s, t)
  {
  }

  lemma QueuePauseKeepsHand(cfg: Config, s: State)
    requires ErrorFree(cfg) && Linked(cfg, s) && Hand(cfg, s) && InQueuePause(s.cpc)
    ensures Hand(cfg, QueuePauseStep(cfg, s))
  {
  }

  lemma PauseWaitKeepsHand(cfg: Config, s: State)
    requires ErrorFree(cfg) && Linked(cfg, s) && Hand(cfg, s) && InPauseWait(s.cpc)
    ensures Hand(cfg, PauseWaitStep(cfg, s))
  {
  }

  lemma ResumeStreamKeepsHand(cfg: Config, s: State)
    requires ErrorFree(cfg) && Linked(cfg, s) && Hand(cfg, s) && InResumeStream(s.cpc)
    ensures Hand(cfg, ResumeStreamStep(cfg, s))
  {
  }

  lemma ResumeEventKeepsHand(cfg: Config, s: State)
    requires ErrorFree(cfg) && Linked(cfg, s) && Hand(cfg, s) && InResumeEvent(s.cpc)
    ensures Hand(cfg, ResumeEventStep(cfg, s))
  {
  }

  lemma IdleKeepsHand(cfg: Config, s: State, cmd: Command)
    requires ErrorFree(cfg) && Linked(cfg, s) && Hand(cfg, s) && s.cpc.CIdle?
    ensures Hand(cfg, IdleStep(s, cmd))
  {
  }

  /** Without errors no actor is on an error path. */
  lemma NoErrorPath(cfg: Config, s: State)
    requires ErrorFree(cfg) && Linked(cfg, s) && Hand(cfg, s)
    ensures !Stopping(s.cpc) ==> !InHandlerError(s.epc) && !InNodeError(s.spc)
    ensures !InFailPause(s.cpc) && !InResumeFail(s.cpc)
  {
  }

  lemma EventKeepsHand(cfg: Config, s: State, ch: Choice)
    requires ErrorFree(cfg) && Linked(cfg, s) && Hand(cfg, s) && !Stopping(s.cpc)
    ensures var t := EventStep(cfg, s, ch); Clean(t) && EventSide(cfg, t) && SameStream(s, t)
  {
    NoErrorPath(cfg, s);
    if InLoopTest(s.epc) {
      LoopTestKeepsHand(cfg, s);
    } else if InTake(s.epc) {
      TakeKeepsHand(cfg, s, ch);
    } else if InHandler(s.epc) {
      HandlerKeepsHand(cfg, s, ch);
    } else if InReturn(s.epc) {
      ReturnKeepsHand(cfg, s);
    } else if InEventReply(s.epc) {
      EventReplyKeepsHand(cfg, s);
    } else if InEventWake(s.epc) {
      EventWakeKeepsHand(cfg, s);
    }
  }

  lemma StreamKeepsHand(cfg: Config, s: State, ch: Choice)
    requires ErrorFree(cfg) && Linked(cfg, s) && Hand(cfg, s) && !Stopping(s.cpc)
    ensures var t := StreamStep(cfg, s, ch); Clean(t) && StreamSide(t) && SameEvent(cfg, s, t)
  {
    NoErrorPath(cfg, s);
    if InStreamLoop(s.spc) {
      StreamLoopKeepsHand(cfg, s);
    } else if InScheduler(s.spc) {
      SchedulerKeepsHand(cfg, s, ch);
    } else if InNodePush(s.spc) {
      NodePushKeepsHand(cfg, s, ch);
    } else if InStreamPause(s.spc) {
      StreamPauseKeepsHand(cfg, s);
    } else if InStreamReply(s.spc) {
      StreamReplyKeepsHand(cfg, s);
    } else if InStreamWake(s.spc) {
      StreamWakeKeepsHand(cfg, s);
    }
  }

  lemma ControlKeepsHand(cfg: Config, s: State, cmd: Command)
    requires ErrorFree(cfg) && Linked(cfg, s) && Hand(cfg, s)
    ensures Hand(cfg, ControlStep(cfg, s, cmd))
  {
    NoErrorPath(cfg, s);
    if Stopping(s.cpc) {
      StopAdvances(cfg, s, cmd);
    } else if InQueuePause(s.cpc) {
      QueuePauseKeepsHand(cfg, s);
    } else if InPauseWait(s.cpc) {
      PauseWaitKeepsHand(cfg, s);
    } else if InResumeStream(s.cpc) {
      ResumeStreamKeepsHand(cfg, s);
    } else if InResumeEvent(s.cpc) {
      ResumeEventKeepsHand(cfg, s);
    } else if s.cpc.CIdle? {
      IdleKeepsHand(cfg, s, cmd);
    }
  }

  lemma ExternalKeepsHand(cfg: Config, s: State, q: QueueId, eff: Effect)
    requires ErrorFree(cfg) && Hand(cfg, s)
    ensures Hand(cfg, ExternalStep(cfg, s, q, eff))
  {
    var t := ExternalStep(cfg, s, q, eff);
    assert t == s.(queues := t.queues);
  }

  lemma StepKeepsHand(cfg: Config, s: State, m: Move)
    requires ErrorFree(cfg) && Linked(cfg, s) && Hand(cfg, s)
    ensures Hand(cfg, Step(cfg, s, m))
  {
    match m
    case Control(cmd) => ControlKeepsHand(cfg, s, cmd);
    case Stream(ch) =>
      if !Stopping(s.cpc) {
        StreamKeepsHand(cfg, s, ch);
        KeepsEventSide(cfg, s, StreamStep(cfg, s, ch));
      }
    case Event(ch) =>
      if !Stopping(s.cpc) {
        EventKeepsHand(cfg, s, ch);
        KeepsStreamSide(cfg, s, EventStep(cfg, s, ch));
      }
    case External(q, eff) => ExternalKeepsHand(cfg, s, q, eff);
  }

  lemma KeepsStreamSide(cfg: Config, s: State, t: State)
    requires StreamSide(s) && SameStream(s, t) && EventOnly(cfg, s, t)
    ensures StreamSide(t)
  {
  }

  lemma KeepsEventSide(cfg: Config, s: State, t: State)
    requires StreamSide(s) && EventSide(cfg, s) && SameEvent(cfg, s, t) && StreamOnly(s, t)
    ensures EventSide(cfg, t)
  {
  }

  lemma {:induction false} ReachableHand(cfg: Config, c: Context, moves: seq<Move>)
    requires ErrorFree(cfg)
    ensures Linked(cfg, Run(cfg, Initial(c), moves)) && Hand(cfg, Run(cfg, Initial(c), moves))
  {
    if moves != [] {
      var before, m := moves[..|moves| - 1], moves[|moves| - 1];
      ReachableHand(cfg, c, before);
      StepKeepsLinked(cfg, Run(cfg, Initial(c), before), m);
      StepKeepsHand(cfg, Run(cfg, Initial(c), before), m);
    }
  }

  // ---------------------------------------------------------------- a returned pause

  /** What the application may rely on while the runtime is paused. */
  predicate BothParked(cfg: Config, s: State) {
    && s.cpc == CIdle(true)
    && s.spc.SResumeWait? && s.epc.EResumeWait?
    && s.se == NO_MESSAGE && s.re == NO_REPLY
    && QueueAt(s, CurrentQueue(cfg, s)).mustPause
    && (!cfg.external ==> QueueAt(s, CurrentQueue(cfg, s)).count == 0)
  }

  lemma IdleFlags(cfg: Config, s: State)
    requires Hand(cfg, s) && s.cpc.CIdle?
    ensures s.se == NO_MESSAGE && s.re == NO_REPLY
    ensures s.cpc.paused ==> BothParked(cfg, s)
  {
  }

  lemma ParkedThreads(cfg: Config, s: State, ch: Choice)
    requires s.spc.SResumeWait? && s.epc.EResumeWait? && s.se == NO_MESSAGE
    ensures StreamStep(cfg, s, ch) == s && EventStep(cfg, s, ch) == s
  {
  }

  lemma ParkedOutside(cfg: Config, s: State, q: QueueId, eff: Effect)
    requires BothParked(cfg, s)
    ensures BothParked(cfg, ExternalStep(cfg, s, q, eff)) && ExternalStep(cfg, s, q, eff).log == s.log
  {
  }

  lemma ParkedStays(cfg: Config, s: State, m: Move)
    requires BothParked(cfg, s) && !m.Control?
    ensures BothParked(cfg, Step(cfg, s, m)) && Step(cfg, s, m).log == s.log
  {
    match m
    case Stream(ch) => ParkedThreads(cfg, s, ch);
    case Event(ch) => ParkedThreads(cfg, s, ch);
    case External(q, eff) => ParkedOutside(cfg, s, q, eff);
  }

  /** When stream_pause_current_scheduler has returned, both threads wait for a resume with all flags
      down; until the application makes the next call no node and no handler runs, and if only runtime
      threads push events the queue is empty and stays empty. */
  lemma {:induction false} PauseParksBoth(cfg: Config, c: Context, past: seq<Move>, rest: seq<Move>)
    requires ErrorFree(cfg)
    requires Run(cfg, Initial(c), past).cpc == CIdle(true)
    requires forall i :: 0 <= i < |rest| ==> !rest[i].Control?
    ensures var paused := Run(cfg, Initial(c), past);
            && BothParked(cfg, Run(cfg, paused, rest))
            && Run(cfg, paused, rest).log == paused.log
  {
    var paused := Run(cfg, Initial(c), past);
    if rest == [] {
      ReachableHand(cfg, c, past);
      IdleFlags(cfg, paused);
    } else {
      PauseParksBoth(cfg, c, past, rest[..|rest| - 1]);
      ParkedStays(cfg, Run(cfg, paused, rest[..|rest| - 1]), rest[|rest| - 1]);
    }
  }

  // ------------------------------------------------------------------ no call fails

  /** In error-free runs no resume takes a failure path, and between two calls both flag words are zero. */
  lemma CallsSucceed(cfg: Config, c: Context, moves: seq<Move>)
    requires ErrorFree(cfg)
    ensures var s := Run(cfg, Initial(c), moves);
            && !InFailPause(s.cpc) && !InResumeFail(s.cpc)
            && (s.cpc.CIdle? ==> s.se == NO_MESSAGE && s.re == NO_REPLY)
  {
    ReachableHand(cfg, c, moves);
    var s := Run(cfg, Initial(c), moves);
    if s.cpc.CIdle? {
      IdleFlags(cfg, s);
    }
  }

  // ---------------------------------------------------------------------- progress

  /** Moves of the stream thread until it has replied to a pause. */
  function PauseStreamRank(p: StreamPc): nat {
    match p
    case SPostPaused => 1
    case SPauseAll(_) => 2
    case SPoll => 3
    case SLoad => 4
    case SLoopStop => 5
    case SNode(k) => 4 + 5 * k
    case SPushNotify(k) => 5 + 5 * k
    case SPushInsert(k) => 6 + 5 * k
    case SPushEnd(k) => 7 + 5 * k
    case SPushPause(k) => 8 + 5 * k
    case _ => 0
  }

  /** Moves of the event thread until it has replied to a pause. */
  function PauseEventRank(cfg: Config, e: EventPc): nat {
    match e
    case EPostPaused => 1
    case EStopCheck => 2
    case EReport => 3
    case EPauseNodes => 4
    case EConsume => 5
    case EAfterEnd => 6
    case EOuterPause => 7
    case EExitPause => 7
    case EExitEnd => 8
    case EOuterEnd => 8
    case EInnerPause => 9
    case EWait => 9
    case ELoad => 9
    case EInnerEnd => 10
    case EHandle(k) => 11 + 5 * k
    case EPushNotify(k) => 12 + 5 * k
    case EPushInsert(k) => 13 + 5 * k
    case EPushEnd(k) => 14 + 5 * k
    case EPushPause(k) => 15 + 5 * k
    case EPop => 12 + 5 * cfg.budget
    case EInnerEmpty => 13 + 5 * cfg.budget
    case _ => 0
  }

  /** Moves of the stream thread until it has replied to a resume. */
  function ResumeStreamRank(p: StreamPc): nat {
    match p
    case SPostResumed => 1
    case SResumeAll => 2
    case SReset => 3
    case SReload => 4
    case SResumeStop => 5
    case SResumeWait => 6
    case _ => 0
  }

  function ResumeEventRank(e: EventPc): nat {
    match e
    case EPostResumed => 1
    case EResumeWait => 2
    case _ => 0
  }

  /** The thread whose reply the controller waits for. */
  function Awaited(c: ControlPc): Actor {
    if c.PWaitStream? || c.RWaitStream? then StreamActor else EventActor
  }

  /** The moves the awaited thread still has to make before its reply is up. */
  function AwaitRank(cfg: Config, s: State): nat {
    match s.cpc
    case PWaitStream => if s.re.sPaused then 0 else PauseStreamRank(s.spc)
    case PWaitEvent => if s.re.ePaused then 0 else PauseEventRank(cfg, s.epc)
    case RWaitStream => if s.re.sResumed then 0 else ResumeStreamRank(s.spc)
    case RWaitEvent => if s.re.eResumed then 0 else ResumeEventRank(s.epc)
    case _ => 0
  }

  /** The statements a call still has to execute. */
  function CallRank(c: ControlPc): nat {
    match c
    case PClear => 1
    case PWaitEvent => 2
    case PWaitStream => 3
    case PPost => 4
    case PNotify => 5
    case PPause => 6
    case RClear => 1
    case RWaitEvent => 2
    case RPostEvent => 3
    case RWaitStream => 4
    case RPostStream => 5
    case RClearError => 6
    case RUnpause => 7
    case RSet(_) => 8
    case _ => 0
  }

  ghost predicate Good(cfg: Config, s: State) {
    ErrorFree(cfg) && Linked(cfg, s) && Hand(cfg, s) && !Stopping(s.cpc)
  }

  lemma StreamLoopReplies(cfg: Config, s: State)
    requires Good(cfg, s) && InStreamLoop(s.spc) && s.cpc.PWaitStream? && ControlBlocked(s)
    ensures AwaitRank(cfg, StreamLoopStep(s)) < AwaitRank(cfg, s)
  {
  }

  lemma SchedulerReplies(cfg: Config, s: State, ch: Choice)
    requires Good(cfg, s) && InScheduler(s.spc) && s.cpc.PWaitStream? && ControlBlocked(s)
    ensures AwaitRank(cfg, SchedulerStep(cfg, s, ch)) < AwaitRank(cfg, s)
  {
  }

  lemma NodePushReplies(cfg: Config, s: State, ch: Choice)
    requires Good(cfg, s) && InNodePush(s.spc) && s.cpc.PWaitStream? && ControlBlocked(s)
    ensures AwaitRank(cfg, NodePushStep(cfg, s, ch)) < AwaitRank(cfg, s)
  {
  }

  lemma StreamPauseReplies(cfg: Config, s: State)
    requires Good(cfg, s) && InStreamPause(s.spc) && s.cpc.PWaitStream? && ControlBlocked(s)
    ensures AwaitRank(cfg, StreamPauseStep(cfg, s)) < AwaitRank(cfg, s)
  {
  }

  lemma StreamReplyReplies(cfg: Config, s: State)
    requires Good(cfg, s) && InStreamReply(s.spc) && (s.cpc.PWaitStream? || s.cpc.RWaitStream?) && ControlBlocked(s)
    ensures AwaitRank(cfg, StreamReplyStep(s)) < AwaitRank(cfg, s)
  {
  }

  lemma StreamWakeReplies(cfg: Config, s: State)
    requires Good(cfg, s) && InStreamWake(s.spc) && s.cpc.RWaitStream? && ControlBlocked(s)
    ensures AwaitRank(cfg, StreamWakeStep(s)) < AwaitRank(cfg, s)
  {
  }

  lemma LoopTestReplies(cfg: Config, s: State)
    requires Good(cfg, s) && InLoopTest(s.epc) && s.cpc.PWaitEvent? && ControlBlocked(s)
    ensures AwaitRank(cfg, LoopTestStep(cfg, s)) < AwaitRank(cfg, s)
  {
  }

  lemma TakeReplies(cfg: Config, s: State, ch: Choice)
    requires Good(cfg, s) && InTake(s.epc) && s.cpc.PWaitEvent? && ControlBlocked(s)
    ensures AwaitRank(cfg, TakeStep(cfg, s, ch)) < AwaitRank(cfg, s)
  {
  }

  lemma HandlerReplies(cfg: Config, s: State, ch: Choice)
    requires Good(cfg, s) && InHandler(s.epc) && s.cpc.PWaitEvent? && ControlBlocked(s)
    ensures AwaitRank(cfg, HandlerStep(cfg, s, ch)) < AwaitRank(cfg, s)
  {
  }

  lemma ReturnReplies(cfg: Config, s: State)
    requires Good(cfg, s) && InReturn(s.epc) && s.cpc.PWaitEvent? && ControlBlocked(s)
    ensures AwaitRank(cfg, ReturnStep(cfg, s)) < AwaitRank(cfg, s)
  {
  }

  lemma EventReplyReplies(cfg: Config, s: State)
    requires Good(cfg, s) && InEventReply(s.epc) && s.cpc.PWaitEvent? && ControlBlocked(s)
    ensures AwaitRank(cfg, EventReplyStep(cfg, s)) < AwaitRank(cfg, s)
  {
  }

  lemma EventWakeReplies(cfg: Config, s: State)
    requires Good(cfg, s) && InEventWake(s.epc) && (s.cpc.PWaitEvent? || s.cpc.RWaitEvent?) && ControlBlocked(s)
    ensures AwaitRank(cfg, EventWakeStep(cfg, s)) < AwaitRank(cfg, s)
  {
  }

  lemma StreamReplies(cfg: Config, s: State, ch: Choice)
    requires Good(cfg, s) && ControlBlocked(s) && Awaited(s.cpc) == StreamActor
    ensures AwaitRank(cfg, StreamStep(cfg, s, ch)) < AwaitRank(cfg, s)
  {
    if InStreamLoop(s.spc) {
      StreamLoopReplies(cfg, s);
    } else if InScheduler(s.spc) {
      SchedulerReplies(cfg, s, ch);
    } else if InNodePush(s.spc) {
      NodePushReplies(cfg, s, ch);
    } else if InStreamPause(s.spc) {
      StreamPauseReplies(cfg, s);
    } else if InStreamReply(s.spc) {
      StreamReplyReplies(cfg, s);
    } else if InStreamWake(s.spc) {
      StreamWakeReplies(cfg, s);
    }
  }

  lemma EventReplies(cfg: Config, s: State, ch: Choice)
    requires Good(cfg, s) && ControlBlocked(s) && Awaited(s.cpc) == EventActor
    ensures AwaitRank(cfg, EventStep(cfg, s, ch)) < AwaitRank(cfg, s)
  {
    if InLoopTest(s.epc) {
      LoopTestReplies(cfg, s);
    } else if InTake(s.epc) {
      TakeReplies(cfg, s, ch);
    } else if InHandler(s.epc) {
      HandlerReplies(cfg, s, ch);
    } else if InReturn(s.epc) {
      ReturnReplies(cfg, s);
    } else if InEventReply(s.epc) {
      EventReplyReplies(cfg, s);
    } else if InEventWake(s.epc) {
      EventWakeReplies(cfg, s);
    }
  }

  /** A controller that does not wait executes its next statement. */
  lemma CallAdvances(cfg: Config, s: State, cmd: Command)
    requires Good(cfg, s) && !s.cpc.CIdle? && !ControlBlocked(s)
    ensures CallRank(ControlStep(cfg, s, cmd).cpc) < CallRank(s.cpc)
  {
  }

  predicate Waits(c: ControlPc) {
    c.PWaitStream? || c.PWaitEvent? || c.RWaitStream? || c.RWaitEvent?
  }

  lemma SameReplies(cfg: Config, s: State, t: State)
    requires Waits(s.cpc) && t.cpc == s.cpc
    requires Awaited(s.cpc) == StreamActor ==> t.spc == s.spc && SameStream(s, t)
    requires Awaited(s.cpc) == EventActor ==> t.epc == s.epc && SameEvent(cfg, s, t)
    ensures AwaitRank(cfg, t) == AwaitRank(cfg, s) && (ControlBlocked(t) <==> ControlBlocked(s))
  {
  }

  lemma ExternalKeepsReply(cfg: Config, s: State, q: QueueId, eff: Effect)
    requires !Stopping(s.cpc)
    ensures var t := ExternalStep(cfg, s, q, eff);
            && t.cpc == s.cpc && AwaitRank(cfg, t) == AwaitRank(cfg, s)
            && (ControlBlocked(t) <==> ControlBlocked(s))
  {
    var t := ExternalStep(cfg, s, q, eff);
    assert t == s.(queues := t.queues);
  }

  /** While the controller waits, the moves of the awaited thread bring the reply nearer and no other
      move takes it further away. */
  lemma WaitMove(cfg: Config, s: State, m: Move)
    requires Good(cfg, s) && ControlBlocked(s) && !m.Control?
    ensures var t := Step(cfg, s, m);
            && t.cpc == s.cpc
            && AwaitRank(cfg, t) + (if ActorOf(m) == Awaited(s.cpc) then 1 else 0) <= AwaitRank(cfg, s)
  {
    BlockedWaits(cfg, s);
    match m
    case Stream(ch) =>
      if Awaited(s.cpc) == StreamActor {
        StreamReplies(cfg, s, ch);
      } else {
        StreamKeepsHand(cfg, s, ch);
        SameReplies(cfg, s, StreamStep(cfg, s, ch));
      }
    case Event(ch) =>
      if Awaited(s.cpc) == EventActor {
        EventReplies(cfg, s, ch);
      } else {
        EventKeepsHand(cfg, s, ch);
        SameReplies(cfg, s, EventStep(cfg, s, ch));
      }
    case External(q, eff) =>
      ExternalKeepsReply(cfg, s, q, eff);
  }

  lemma BlockedWaits(cfg: Config, s: State)
    requires Good(cfg, s) && ControlBlocked(s)
    ensures Waits(s.cpc)
  {
  }

  /** A reply that is up stays up until the controller takes it. */
  lemma ReplyStays(cfg: Config, s: State, m: Move)
    requires Good(cfg, s) && Waits(s.cpc) && !ControlBlocked(s) && !m.Control?
    ensures Step(cfg, s, m).cpc == s.cpc && !ControlBlocked(Step(cfg, s, m))
  {
    var t := Step(cfg, s, m);
    match m
    case Stream(ch) =>
      StreamKeepsHand(cfg, s, ch);
      ReplyKept(cfg, s, t);
    case Event(ch) =>
      EventKeepsHand(cfg, s, ch);
      ReplyKept(cfg, s, t);
    case External(q, eff) => ExternalKeepsReply(cfg, s, q, eff);
  }

  lemma ReplyKept(cfg: Config, s: State, t: State)
    requires Waits(s.cpc) && !ControlBlocked(s)
    requires (StreamOnly(s, t) && SameEvent(cfg, s, t)) || (EventOnly(cfg, s, t) && SameStream(s, t))
    ensures !ControlBlocked(t)
  {
  }

  lemma BlockedRank(cfg: Config, s: State, ch: Choice)
    requires Good(cfg, s) && ControlBlocked(s)
    ensures AwaitRank(cfg, s) > 0
  {
    BlockedWaits(cfg, s);
    if Awaited(s.cpc) == StreamActor {
      StreamReplies(cfg, s, ch);
    } else {
      EventReplies(cfg, s, ch);
    }
  }

  /** No wait of a pause or resume call lasts: however the actors interleave, once the awaited thread has
      made AwaitRank moves its reply is up, and it stays up until the controller goes on. */
  lemma {:induction false} WaitEnds(cfg: Config, c: Context, past: seq<Move>, rest: seq<Move>)
    requires ErrorFree(cfg)
    requires var s := Run(cfg, Initial(c), past); Waits(s.cpc)
    requires forall i :: 0 <= i < |rest| ==> !rest[i].Control?
    ensures var s := Run(cfg, Initial(c), past);
            var t := Run(cfg, s, rest);
            && Good(cfg, t) && t.cpc == s.cpc
            && (!ControlBlocked(t) || AwaitRank(cfg, t) + Count(rest, Awaited(s.cpc)) <= AwaitRank(cfg, s))
            && (Count(rest, Awaited(s.cpc)) >= AwaitRank(cfg, s) ==> !ControlBlocked(t))
  {
    var s := Run(cfg, Initial(c), past);
    if rest == [] {
      ReachableHand(cfg, c, past);
    } else {
      var before, m := rest[..|rest| - 1], rest[|rest| - 1];
      WaitEnds(cfg, c, past, before);
      var u := Run(cfg, s, before);
      StepKeepsLinked(cfg, u, m);
      StepKeepsHand(cfg, u, m);
      if ControlBlocked(u) {
        WaitMove(cfg, u, m);
      } else {
        ReplyStays(cfg, u, m);
      }
    }
    if ControlBlocked(Run(cfg, s, rest)) {
      BlockedRank(cfg, Run(cfg, s, rest), Choice(0, Success, false));
    }
  }
}
