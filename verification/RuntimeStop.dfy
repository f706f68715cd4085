/** stream_stop_threads ends both threads from every state, reachable or not, in which the event thread works on
    the current queue or is not at work, and for no other reason. */
module RuntimeStop {
  import opened RuntimeModel
  import opened RuntimeInvariant

  // ------------------------------------------------------------- what a call of stop starts from

  /** The event thread, if it is at work, works on the queue that stop ends. */
  predicate InvActive(cfg: Config, s: State) {
    EventActive(s.epc) ==> s.current.Some? && cfg.queueOf(s.eCtx) == CurrentQueue(cfg, s)
  }

  predicate Halting(cfg: Config, s: State) {
    Stopping(s.cpc) && InvActive(cfg, s) && InvContext(s) && InvEnd(cfg, s)
  }

  lemma LoopTestKeepsHalting(cfg: Config, s: State)
    requires Halting(cfg, s) && InLoopTest(s.epc)
    ensures Halting(cfg, LoopTestStep(cfg, s))
  {
  }

  lemma TakeKeepsHalting(cfg: Config, s: State, ch: Choice)
    requires Halting(cfg, s) && InTake(s.epc)
    ensures Halting(cfg, TakeStep(cfg, s, ch))
  {
  }

  lemma HandlerKeepsHalting(cfg: Config, s: State, ch: Choice)
    requires Halting(cfg, s) && InHandler(s.epc)
    ensures Halting(cfg, HandlerStep(cfg, s, ch))
  {
  }

  lemma HandlerErrorKeepsHalting(cfg: Config, s: State)
    requires Halting(cfg, s) && InHandlerError(s.epc)
    ensures Halting(cfg, HandlerErrorStep(cfg, s))
  {
  }

  lemma ReturnKeepsHalting(cfg: Config, s: State)
    requires Halting(cfg, s) && InReturn(s.epc)
    ensures Halting(cfg, ReturnStep(cfg, s))
  {
  }

  lemma EventReplyKeepsHalting(cfg: Config, s: State)
    requires Halting(cfg, s) && InEventReply(s.epc)
    ensures Halting(cfg, EventReplyStep(cfg, s))
  {
  }

  lemma EventWakeKeepsHalting(cfg: Config, s: State)
    requires Halting(cfg, s) && InEventWake(s.epc)
    ensures Halting(cfg, EventWakeStep(cfg, s))
  {
  }

  lemma EventKeepsHalting(cfg: Config, s: State, ch: Choice)
    requires Halting(cfg, s)
    ensures Halting(cfg, EventStep(cfg, s, ch))
  {
    if InLoopTest(s.epc) {
      LoopTestKeepsHalting(cfg, s);
    } else if InTake(s.epc) {
      TakeKeepsHalting(cfg, s, ch);
    } else if InHandler(s.epc) {
      HandlerKeepsHalting(cfg, s, ch);
    } else if InHandlerError(s.epc) {
      HandlerErrorKeepsHalting(cfg, s);
    } else if InReturn(s.epc) {
      ReturnKeepsHalting(cfg, s);
    } else if InEventReply(s.epc) {
      EventReplyKeepsHalting(cfg, s);
    } else if InEventWake(s.epc) {
      EventWakeKeepsHalting(cfg, s);
    }
  }

  /** What a move of the stream thread does to queues: it asks none to end and lowers no wake-up. */
  ghost predicate KeepsEnds(s: State, t: State) {
    && (forall q: QueueId :: QueueAt(t, q).mustEnd == QueueAt(s, q).mustEnd)
    && (forall q: QueueId :: QueueAt(s, q).wake ==> QueueAt(t, q).wake)
  }

  lemma SchedulerKeepsEnds(cfg: Config, s: State, ch: Choice)
    requires InScheduler(s.spc)
    ensures KeepsEnds(s, SchedulerStep(cfg, s, ch))
  {
  }

  lemma NodePushKeepsEnds(cfg: Config, s: State, ch: Choice)
    requires InNodePush(s.spc)
    ensures KeepsEnds(s, NodePushStep(cfg, s, ch))
  {
  }

  lemma NodeErrorKeepsEnds(cfg: Config, s: State)
    requires InNodeError(s.spc)
    ensures KeepsEnds(s, NodeErrorStep(cfg, s))
  {
  }

  lemma StreamPauseKeepsEnds(cfg: Config, s: State)
    requires InStreamPause(s.spc)
    ensures KeepsEnds(s, StreamPauseStep(cfg, s))
  {
  }

  lemma SameQueues(cfg: Config, s: State, ch: Choice)
    requires !InScheduler(s.spc) && !InNodePush(s.spc) && !InNodeError(s.spc) && !InStreamPause(s.spc)
    ensures StreamStep(cfg, s, ch).queues == s.queues
  {
  }

  lemma StreamKeepsEnds(cfg: Config, s: State, ch: Choice)
    ensures KeepsEnds(s, StreamStep(cfg, s, ch))
  {
    if InScheduler(s.spc) {
      SchedulerKeepsEnds(cfg, s, ch);
    } else if InNodePush(s.spc) {
      NodePushKeepsEnds(cfg, s, ch);
    } else if InNodeError(s.spc) {
      NodeErrorKeepsEnds(cfg, s);
    } else if InStreamPause(s.spc) {
      StreamPauseKeepsEnds(cfg, s);
    } else {
      SameQueues(cfg, s, ch);
    }
  }

  lemma StreamStaysDone(cfg: Config, s: State, ch: Choice)
    ensures s.spc.SDone? ==> StreamStep(cfg, s, ch).spc.SDone?
  {
  }

  lemma KeepsHalting(cfg: Config, s: State, t: State)
    requires Halting(cfg, s) && StreamOnly(s, t) && KeepsEnds(s, t) && (s.spc.SDone? ==> t.spc.SDone?)
    ensures Halting(cfg, t)
  {
  }

  lemma ControlKeepsHalting(cfg: Config, s: State, cmd: Command)
    requires Halting(cfg, s)
    ensures Halting(cfg, ControlStep(cfg, s, cmd))
  {
    if InStopRequest(s.cpc) {
      StopRequestKeepsHalting(cfg, s);
    } else if InStopPost(s.cpc) {
      StopPostKeepsHalting(cfg, s);
    } else {
      StopJoinKeepsHalting(cfg, s);
    }
  }

  lemma StopRequestKeepsHalting(cfg: Config, s: State)
    requires Halting(cfg, s) && InStopRequest(s.cpc)
    ensures Halting(cfg, StopRequestStep(cfg, s))
  {
  }

  lemma StopPostKeepsHalting(cfg: Config, s: State)
    requires Halting(cfg, s) && InStopPost(s.cpc)
    ensures Halting(cfg, StopPostStep(s))
  {
  }

  lemma StopJoinKeepsHalting(cfg: Config, s: State)
    requires Halting(cfg, s) && InStopJoin(s.cpc)
    ensures Halting(cfg, StopJoinStep(s))
  {
  }

  lemma StreamKeepsHalting(cfg: Config, s: State, ch: Choice)
    requires Halting(cfg, s)
    ensures Halting(cfg, StreamStep(cfg, s, ch))
  {
    StreamKeepsEnds(cfg, s, ch);
    StreamStaysDone(cfg, s, ch);
    KeepsHalting(cfg, s, StreamStep(cfg, s, ch));
  }

  lemma ExternalKeepsHalting(cfg: Config, s: State, q: QueueId, eff: Effect)
    requires Halting(cfg, s)
    ensures Halting(cfg, ExternalStep(cfg, s, q, eff))
  {
    var t := ExternalStep(cfg, s, q, eff);
    assert t == s.(queues := t.queues) && KeepsEnds(s, t);
  }

  lemma StepKeepsHalting(cfg: Config, s: State, m: Move)
    requires Halting(cfg, s)
    ensures Halting(cfg, Step(cfg, s, m))
  {
    match m
    case Control(cmd) => ControlKeepsHalting(cfg, s, cmd);
    case Stream(ch) => StreamKeepsHalting(cfg, s, ch);
    case Event(ch) => EventKeepsHalting(cfg, s, ch);
    case External(q, eff) => ExternalKeepsHalting(cfg, s, q, eff);
  }

  // ------------------------------------------------- what the wake-ups of stop reach

  /** Between the return of execute() and the wait for a resume. */
  predicate EventLeaving(e: EventPc) {
    e.EConsume? || e.EPeerPost? || e.EPeerWait? || InEventReply(e) || e.EResumeWait?
  }

  predicate StreamRunning(p: StreamPc) {
    p.SLoad? || InScheduler(p) || InNodePush(p) || InNodeError(p)
  }

  /** The stream thread may still wait for the event thread's reply. */
  predicate BeforeReply(p: StreamPc) {
    StreamRunning(p) || p.SQueuePause? || p.SQueueNotify? || (p.SPauseAll? && p.failed) || p.SWaitEvent?
  }

  /** The stream thread may still wait for a resume message. */
  predicate BeforeResume(p: StreamPc) {
    BeforeReply(p) || p.SPauseAll? || InStreamReply(p)
  }

  /** Once stop has posted its messages, every wait a thread can still reach finds its flag up. */
  predicate Posted(s: State) {
    && (PostedStream(s.cpc) ==>
          && (StreamRunning(s.spc) ==> s.se.done)
          && (BeforeResume(s.spc) ==> s.se.resume)
          && (EventLeaving(s.epc) ==> s.se.evResume))
    && (InStopJoin(s.cpc) ==>
          && (BeforeReply(s.spc) ==> s.re.ePaused)
          && (s.epc.EConsume? || s.epc.EPeerPost? || s.epc.EPeerWait? ==> s.re.sPaused))
  }

  predicate Stopped(cfg: Config, s: State) {
    Halting(cfg, s) && Posted(s)
  }

  lemma LoopTestKeepsPosted(cfg: Config, s: State)
    requires Halting(cfg, s) && Posted(s) && InLoopTest(s.epc)
    ensures Posted(LoopTestStep(cfg, s))
  {
  }

  lemma TakeKeepsPosted(cfg: Config, s: State, ch: Choice)
    requires Halting(cfg, s) && Posted(s) && InTake(s.epc)
    ensures Posted(TakeStep(cfg, s, ch))
  {
  }

  lemma HandlerKeepsPosted(cfg: Config, s: State, ch: Choice)
    requires Halting(cfg, s) && Posted(s) && InHandler(s.epc)
    ensures Posted(HandlerStep(cfg, s, ch))
  {
  }

  lemma HandlerErrorKeepsPosted(cfg: Config, s: State)
    requires Halting(cfg, s) && Posted(s) && InHandlerError(s.epc)
    ensures Posted(HandlerErrorStep(cfg, s))
  {
  }

  lemma ReturnKeepsPosted(cfg: Config, s: State)
    requires Halting(cfg, s) && Posted(s) && InReturn(s.epc)
    ensures Posted(ReturnStep(cfg, s))
  {
  }

  lemma EventReplyKeepsPosted(cfg: Config, s: State)
    requires Halting(cfg, s) && Posted(s) && InEventReply(s.epc)
    ensures Posted(EventReplyStep(cfg, s))
  {
  }

  lemma EventWakeKeepsPosted(cfg: Config, s: State)
    requires Halting(cfg, s) && Posted(s) && InEventWake(s.epc)
    ensures Posted(EventWakeStep(cfg, s))
  {
  }

  lemma StreamLoopKeepsPosted(cfg: Config, s: State)
    requires Halting(cfg, s) && Posted(s) && InStreamLoop(s.spc)
    ensures Posted(StreamLoopStep(s))
  {
  }

  lemma SchedulerKeepsPosted(cfg: Config, s: State, ch: Choice)
    requires Halting(cfg, s) && Posted(s) && InScheduler(s.spc)
    ensures Posted(SchedulerStep(cfg, s, ch))
  {
  }

  lemma NodePushKeepsPosted(cfg: Config, s: State, ch: Choice)
    requires Halting(cfg, s) && Posted(s) && InNodePush(s.spc)
    ensures Posted(NodePushStep(cfg, s, ch))
  {
  }

  lemma NodeErrorKeepsPosted(cfg: Config, s: State)
    requires Halting(cfg, s) && Posted(s) && InNodeError(s.spc)
    ensures Posted(NodeErrorStep(cfg, s))
  {
  }

  lemma StreamPauseKeepsPosted(cfg: Config, s: State)
    requires Halting(cfg, s) && Posted(s) && InStreamPause(s.spc)
    ensures Posted(StreamPauseStep(cfg, s))
  {
  }

  lemma StreamReplyKeepsPosted(cfg: Config, s: State)
    requires Halting(cfg, s) && Posted(s) && InStreamReply(s.spc)
    ensures Posted(StreamReplyStep(s))
  {
  }

  lemma StreamWakeKeepsPosted(cfg: Config, s: State)
    requires Halting(cfg, s) && Posted(s) && InStreamWake(s.spc)
    ensures Posted(StreamWakeStep(s))
  {
  }

  lemma EventKeepsPosted(cfg: Config, s: State, ch: Choice)
    requires Halting(cfg, s) && Posted(s)
    ensures Posted(EventStep(cfg, s, ch))
  {
    if InLoopTest(s.epc) {
      LoopTestKeepsPosted(cfg, s);
    } else if InTake(s.epc) {
      TakeKeepsPosted(cfg, s, ch);
    } else if InHandler(s.epc) {
      HandlerKeepsPosted(cfg, s, ch);
    } else if InHandlerError(s.epc) {
      HandlerErrorKeepsPosted(cfg, s);
    } else if InReturn(s.epc) {
      ReturnKeepsPosted(cfg, s);
    } else if InEventReply(s.epc) {
      EventReplyKeepsPosted(cfg, s);
    } else if InEventWake(s.epc) {
      EventWakeKeepsPosted(cfg, s);
    }
  }

  lemma StreamKeepsPosted(cfg: Config, s: State, ch: Choice)
    requires Halting(cfg, s) && Posted(s)
    ensures Posted(StreamStep(cfg, s, ch))
  {
    if InStreamLoop(s.spc) {
      StreamLoopKeepsPosted(cfg, s);
    } else if InScheduler(s.spc) {
      SchedulerKeepsPosted(cfg, s, ch);
    } else if InNodePush(s.spc) {
      NodePushKeepsPosted(cfg, s, ch);
    } else if InNodeError(s.spc) {
      NodeErrorKeepsPosted(cfg, s);
    } else if InStreamPause(s.spc) {
      StreamPauseKeepsPosted(cfg, s);
    } else if InStreamReply(s.spc) {
      StreamReplyKeepsPosted(cfg, s);
    } else if InStreamWake(s.spc) {
      StreamWakeKeepsPosted(cfg, s);
    }
  }

  lemma StopPostKeepsPosted(s: State)
    requires InStopPost(s.cpc) && Posted(s)
    ensures Posted(StopPostStep(s))
  {
  }

  lemma StopJoinKeepsPosted(s: State)
    requires InStopJoin(s.cpc) && Posted(s)
    ensures Posted(StopJoinStep(s))
  {
  }

  lemma ControlKeepsPosted(cfg: Config, s: State, cmd: Command)
    requires Posted(s) && Stopping(s.cpc)
    ensures Posted(ControlStep(cfg, s, cmd))
  {
    if InStopPost(s.cpc) {
      StopPostKeepsPosted(s);
    } else if InStopJoin(s.cpc) {
      StopJoinKeepsPosted(s);
    } else {
      assert ControlStep(cfg, s, cmd) == StopRequestStep(cfg, s);
    }
  }

  lemma StepKeepsPosted(cfg: Config, s: State, m: Move)
    requires Stopped(cfg, s)
    ensures Posted(Step(cfg, s, m))
  {
    match m
    case Control(cmd) => ControlKeepsPosted(cfg, s, cmd);
    case Stream(ch) => StreamKeepsPosted(cfg, s, ch);
    case Event(ch) => EventKeepsPosted(cfg, s, ch);
    case External(q, eff) =>
      var t := ExternalStep(cfg, s, q, eff);
      assert t == s.(queues := t.queues);
  }

  lemma StepKeepsStopped(cfg: Config, s: State, m: Move)
    requires Stopped(cfg, s)
    ensures Stopped(cfg, Step(cfg, s, m))
  {
    StepKeepsHalting(cfg, s, m);
    StepKeepsPosted(cfg, s, m);
  }

  /** The context pointer is set, the event thread is not at work on another queue than the current one, and if
      that was asked to end before, its wake-up is up. */
  predicate MayStop(cfg: Config, s: State) {
    && s.cpc.TFlag? && s.current.Some? && InvActive(cfg, s)
    && var v := QueueAt(s, cfg.queueOf(s.eCtx)); v.mustEnd && (s.epc.EExitPause? || s.epc.EWait?) ==> v.wake
  }

  lemma StartsStopped(cfg: Config, s: State)
    requires MayStop(cfg, s)
    ensures Stopped(cfg, s)
  {
  }

  lemma ReachableMayStop(cfg: Config, s: State)
    requires Linked(cfg, s) && s.cpc.TFlag?
    ensures MayStop(cfg, s)
  {
  }

  lemma PauseDoesNotStop(cfg: Config, s: State)
    ensures InQueuePause(s.cpc) ==> !Stopping(QueuePauseStep(cfg, s).cpc)
    ensures InPauseWait(s.cpc) ==> !Stopping(PauseWaitStep(cfg, s).cpc)
  {
  }

  lemma ResumeStreamDoesNotStop(cfg: Config, s: State)
    ensures InResumeStream(s.cpc) ==> !Stopping(ResumeStreamStep(cfg, s).cpc)
  {
  }

  lemma ResumeDoesNotStop(cfg: Config, s: State)
    ensures InResumeEvent(s.cpc) ==> !Stopping(ResumeEventStep(cfg, s).cpc)
    ensures InFailPause(s.cpc) ==> !Stopping(FailPauseStep(cfg, s).cpc)
    ensures InResumeFail(s.cpc) ==> !Stopping(ResumeFailStep(cfg, s).cpc)
  {
  }

  lemma CallStartsWithFlag(cfg: Config, s: State, cmd: Command)
    requires !Stopping(s.cpc) && Stopping(ControlStep(cfg, s, cmd).cpc)
    ensures ControlStep(cfg, s, cmd).cpc.TFlag?
  {
    PauseDoesNotStop(cfg, s);
    ResumeStreamDoesNotStop(cfg, s);
    ResumeDoesNotStop(cfg, s);
  }

  lemma StartsWithFlag(cfg: Config, s: State, m: Move)
    requires !Stopping(s.cpc) && Stopping(Step(cfg, s, m).cpc)
    ensures Step(cfg, s, m).cpc.TFlag?
  {
    if m.Control? {
      CallStartsWithFlag(cfg, s, m.cmd);
    }
  }

  /** In every run Stopped holds from the call of stop on. */
  lemma {:induction false} ReachableStopped(cfg: Config, c: Context, moves: seq<Move>)
    ensures var s := Run(cfg, Initial(c), moves);
            (Stopping(s.cpc) ==> Stopped(cfg, s)) && (s.cpc.TFlag? ==> MayStop(cfg, s))
  {
    ReachableLinked(cfg, c, moves);
    var t := Run(cfg, Initial(c), moves);
    if t.cpc.TFlag? {
      ReachableMayStop(cfg, t);
      StartsStopped(cfg, t);
    } else if moves != [] && Stopping(t.cpc) {
      var before, m := moves[..|moves| - 1], moves[|moves| - 1];
      ReachableStopped(cfg, c, before);
      if Stopping(Run(cfg, Initial(c), before).cpc) {
        StepKeepsStopped(cfg, Run(cfg, Initial(c), before), m);
      } else {
        StartsWithFlag(cfg, Run(cfg, Initial(c), before), m);
      }
    }
  }

  // ------------------------------------------------------------------ termination

  /** How many moves the event thread can still make once stop has posted its messages. */
  function EventRank(cfg: Config, e: EventPc): nat {
    match e
    case EDone => 0
    case EAfterEnd => 1
    case EStopCheck => 1
    case EOuterEnd => 2
    case EExitEnd => 2
    case EReport => 2
    case ELoad => 3
    case EInnerEnd => 3
    case EWait => 3
    case EPauseNodes => 3
    case EPostResumed => 4
    case EOuterPause => 4
    case EExitPause => 4
    case EPeerWait => 4
    case EResumeWait => 5
    case EPeerPost => 5
    case EPostPaused => 6
    case EConsume => 6
    case EHandle(k) => 7 + 8 * k
    case EPushNotify(k) => 8 + 8 * k
    case EErrNotify(k, last) => if last then 4 else 9 + 8 * k
    case EErrPause(k, last) => if last then 5 else 10 + 8 * k
    case EErrPending(k, last) => if last then 6 else 11 + 8 * k
    case EPushInsert(k) => 12 + 8 * k
    case EPushEnd(k) => 13 + 8 * k
    case EPushPause(k) => 14 + 8 * k
    case EPop => 8 + 8 * cfg.budget
    case EInnerEmpty => 9 + 8 * cfg.budget
    case EInnerPause => 10 + 8 * cfg.budget
  }

  /** How many moves the stream thread can still make once stop has posted its messages. */
  function StreamRank(p: StreamPc): nat {
    match p
    case SDone => 0
    case SLoopStop => 1
    case SResumeStop => 2
    case SPostResumed => 2
    case SStopCheck => 2
    case SResumeWait => 3
    case SResumeAll => 3
    case SReport => 3
    case SPostPaused => 4
    case SReset => 4
    case SWaitEvent => 4
    case SReload => 5
    case SPauseAll(_) => 5
    case SQueueNotify => 6
    case SQueuePause => 7
    case SPoll => 8
    case SLoad => 9
    case SNode(k) => 9 + 8 * k
    case SPushNotify(k) => 10 + 8 * k
    case SErrNotify(k) => 11 + 8 * k
    case SErrPause(k) => 12 + 8 * k
    case SErrPending(k) => 13 + 8 * k
    case SPushInsert(k) => 14 + 8 * k
    case SPushEnd(k) => 15 + 8 * k
    case SPushPause(k) => 16 + 8 * k
  }

  lemma LoopTestDescends(cfg: Config, s: State)
    requires Stopped(cfg, s) && InStopJoin(s.cpc) && InLoopTest(s.epc)
    ensures EventRank(cfg, LoopTestStep(cfg, s).epc) < EventRank(cfg, s.epc)
  {
  }

  lemma TakeDescends(cfg: Config, s: State, ch: Choice)
    requires Stopped(cfg, s) && InStopJoin(s.cpc) && InTake(s.epc)
    ensures EventRank(cfg, TakeStep(cfg, s, ch).epc) < EventRank(cfg, s.epc)
  {
  }

  lemma HandlerDescends(cfg: Config, s: State, ch: Choice)
    requires Stopped(cfg, s) && InStopJoin(s.cpc) && InHandler(s.epc)
    ensures EventRank(cfg, HandlerStep(cfg, s, ch).epc) < EventRank(cfg, s.epc)
  {
  }

  lemma HandlerErrorDescends(cfg: Config, s: State)
    requires Stopped(cfg, s) && InStopJoin(s.cpc) && InHandlerError(s.epc)
    ensures EventRank(cfg, HandlerErrorStep(cfg, s).epc) < EventRank(cfg, s.epc)
  {
  }

  lemma ReturnDescends(cfg: Config, s: State)
    requires Stopped(cfg, s) && InStopJoin(s.cpc) && InReturn(s.epc)
    ensures EventRank(cfg, ReturnStep(cfg, s).epc) < EventRank(cfg, s.epc)
  {
  }

  lemma EventReplyDescends(cfg: Config, s: State)
    requires Stopped(cfg, s) && InStopJoin(s.cpc) && InEventReply(s.epc)
    ensures EventRank(cfg, EventReplyStep(cfg, s).epc) < EventRank(cfg, s.epc)
  {
  }

  lemma EventWakeDescends(cfg: Config, s: State)
    requires Stopped(cfg, s) && InStopJoin(s.cpc) && InEventWake(s.epc)
    ensures EventRank(cfg, EventWakeStep(cfg, s).epc) < EventRank(cfg, s.epc)
  {
  }

  lemma StreamLoopDescends(cfg: Config, s: State)
    requires Stopped(cfg, s) && InStopJoin(s.cpc) && InStreamLoop(s.spc)
    ensures StreamRank(StreamLoopStep(s).spc) < StreamRank(s.spc)
  {
  }

  lemma SchedulerDescends(cfg: Config, s: State, ch: Choice)
    requires Stopped(cfg, s) && InStopJoin(s.cpc) && InScheduler(s.spc)
    ensures StreamRank(SchedulerStep(cfg, s, ch).spc) < StreamRank(s.spc)
  {
  }

  lemma NodePushDescends(cfg: Config, s: State, ch: Choice)
    requires Stopped(cfg, s) && InStopJoin(s.cpc) && InNodePush(s.spc)
    ensures StreamRank(NodePushStep(cfg, s, ch).spc) < StreamRank(s.spc)
  {
  }

  lemma NodeErrorDescends(cfg: Config, s: State)
    requires Stopped(cfg, s) && InStopJoin(s.cpc) && InNodeError(s.spc)
    ensures StreamRank(NodeErrorStep(cfg, s).spc) < StreamRank(s.spc)
  {
  }

  lemma StreamPauseDescends(cfg: Config, s: State)
    requires Stopped(cfg, s) && InStopJoin(s.cpc) && InStreamPause(s.spc)
    ensures StreamRank(StreamPauseStep(cfg, s).spc) < StreamRank(s.spc)
  {
  }

  lemma StreamReplyDescends(cfg: Config, s: State)
    requires Stopped(cfg, s) && InStopJoin(s.cpc) && InStreamReply(s.spc)
    ensures StreamRank(StreamReplyStep(s).spc) < StreamRank(s.spc)
  {
  }

  lemma ReloadDescends(cfg: Config, s: State)
    requires Stopped(cfg, s) && InStopJoin(s.cpc) && s.spc.SReload?
    ensures StreamRank(StreamWakeStep(s).spc) < StreamRank(s.spc)
  {
  }

  lemma StreamWakeDescends(cfg: Config, s: State)
    requires Stopped(cfg, s) && InStopJoin(s.cpc) && InStreamWake(s.spc)
    ensures StreamRank(StreamWakeStep(s).spc) < StreamRank(s.spc)
  {
    if s.spc.SReload? {
      ReloadDescends(cfg, s);
    }
  }

  lemma EventDescends(cfg: Config, s: State, ch: Choice)
    requires Stopped(cfg, s) && InStopJoin(s.cpc) && !s.epc.EDone?
    ensures EventRank(cfg, EventStep(cfg, s, ch).epc) < EventRank(cfg, s.epc)
  {
    if InLoopTest(s.epc) {
      LoopTestDescends(cfg, s);
    } else if InTake(s.epc) {
      TakeDescends(cfg, s, ch);
    } else if InHandler(s.epc) {
      HandlerDescends(cfg, s, ch);
    } else if InHandlerError(s.epc) {
      HandlerErrorDescends(cfg, s);
    } else if InReturn(s.epc) {
      ReturnDescends(cfg, s);
    } else if InEventReply(s.epc) {
      EventReplyDescends(cfg, s);
    } else if InEventWake(s.epc) {
      EventWakeDescends(cfg, s);
    }
  }

  lemma StreamDescends(cfg: Config, s: State, ch: Choice)
    requires Stopped(cfg, s) && InStopJoin(s.cpc) && !s.spc.SDone?
    ensures StreamRank(StreamStep(cfg, s, ch).spc) < StreamRank(s.spc)
  {
    if InStreamLoop(s.spc) {
      StreamLoopDescends(cfg, s);
    } else if InScheduler(s.spc) {
      SchedulerDescends(cfg, s, ch);
    } else if InNodePush(s.spc) {
      NodePushDescends(cfg, s, ch);
    } else if InNodeError(s.spc) {
      NodeErrorDescends(cfg, s);
    } else if InStreamPause(s.spc) {
      StreamPauseDescends(cfg, s);
    } else if InStreamReply(s.spc) {
      StreamReplyDescends(cfg, s);
    } else if InStreamWake(s.spc) {
      StreamWakeDescends(cfg, s);
    }
  }

  /** The number of moves of one actor in a run. */
  datatype Actor = ControlActor | StreamActor | EventActor | ExternalActor

  function ActorOf(m: Move): Actor {
    match m
    case Control(_) => ControlActor
    case Stream(_) => StreamActor
    case Event(_) => EventActor
    case External(_, _) => ExternalActor
  }

  function Count(moves: seq<Move>, who: Actor): nat {
    if moves == [] then 0
    else Count(moves[..|moves| - 1], who) + if ActorOf(moves[|moves| - 1]) == who then 1 else 0
  }

  /** Statements of stream_stop_threads left before its last post. */
  function StatementsLeft(c: ControlPc): nat {
    match c
    case TFlag => 5
    case TEnd => 4
    case TNotify => 3
    case TPostStream => 2
    case TPostReply => 1
    case _ => 0
  }

  lemma StopAdvances(cfg: Config, s: State, cmd: Command)
    requires Stopping(s.cpc)
    ensures var t := ControlStep(cfg, s, cmd);
            Stopping(t.cpc) && (InStopJoin(t.cpc) || StatementsLeft(t.cpc) < StatementsLeft(s.cpc))
  {
    if InStopRequest(s.cpc) {
      RequestAdvances(cfg, s);
      assert ControlStep(cfg, s, cmd) == StopRequestStep(cfg, s);
    } else if InStopPost(s.cpc) {
      assert ControlStep(cfg, s, cmd) == StopPostStep(s);
    } else {
      assert ControlStep(cfg, s, cmd) == StopJoinStep(s);
    }
  }

  lemma RequestAdvances(cfg: Config, s: State)
    requires InStopRequest(s.cpc)
    ensures var t := StopRequestStep(cfg, s);
            Stopping(t.cpc) && StatementsLeft(t.cpc) < StatementsLeft(s.cpc)
  {
  }

  lemma PostsMove(cfg: Config, s: State, m: Move) returns (t: State)
    requires Stopping(s.cpc)
    ensures t == Step(cfg, s, m) && Stopping(t.cpc)
    ensures InStopJoin(t.cpc) || StatementsLeft(t.cpc) + (if m.Control? then 1 else 0) <= StatementsLeft(s.cpc)
  {
    t := Step(cfg, s, m);
    if m.Control? {
      StopAdvances(cfg, s, m.cmd);
    }
  }

  /** No statement of stream_stop_threads before the joins waits: five moves of the caller post everything. */
  lemma {:induction false} StopPosts(cfg: Config, s: State, moves: seq<Move>)
    requires Stopping(s.cpc)
    ensures var t := Run(cfg, s, moves);
            && Stopping(t.cpc)
            && (InStopJoin(t.cpc) || StatementsLeft(t.cpc) + Count(moves, ControlActor) <= StatementsLeft(s.cpc))
  {
    if moves != [] {
      var before, m := moves[..|moves| - 1], moves[|moves| - 1];
      StopPosts(cfg, s, before);
      var t := PostsMove(cfg, Run(cfg, s, before), m);
    }
  }

  /** The event thread's own moves bring it nearer to its end; no other move touches it. */
  lemma EventMove(cfg: Config, s: State, m: Move)
    requires Stopped(cfg, s) && InStopJoin(s.cpc)
    ensures var t := Step(cfg, s, m);
            if s.epc.EDone? then t.epc.EDone?
            else EventRank(cfg, t.epc) + (if m.Event? then 1 else 0) <= EventRank(cfg, s.epc)
  {
    if m.Event? && !s.epc.EDone? {
      EventDescends(cfg, s, m.ch);
    }
  }

  lemma StreamMove(cfg: Config, s: State, m: Move)
    requires Stopped(cfg, s) && InStopJoin(s.cpc)
    ensures var t := Step(cfg, s, m);
            if s.spc.SDone? then t.spc.SDone?
            else StreamRank(t.spc) + (if m.Stream? then 1 else 0) <= StreamRank(s.spc)
  {
    if m.Stream? && !s.spc.SDone? {
      StreamDescends(cfg, s, m.ch);
    }
  }

  /** Statements of stream_stop_threads left from the first join on. */
  function JoinsLeft(c: ControlPc): nat {
    match c
    case TJoinEvent => 3
    case TJoinStream => 2
    case TNull => 1
    case _ => 0
  }

  lemma JoinStatement(cfg: Config, s: State, cmd: Command)
    requires InStopJoin(s.cpc)
    ensures var t := ControlStep(cfg, s, cmd);
            && InStopJoin(t.cpc) && JoinsLeft(t.cpc) <= JoinsLeft(s.cpc)
            && (s.epc.EDone? && s.spc.SDone? && !s.cpc.CStopped? ==> JoinsLeft(t.cpc) < JoinsLeft(s.cpc))
  {
    assert ControlStep(cfg, s, cmd) == StopJoinStep(s);
  }

  lemma JoinMove(cfg: Config, s: State, m: Move)
    requires InStopJoin(s.cpc)
    ensures var t := Step(cfg, s, m);
            && InStopJoin(t.cpc)
            && JoinsLeft(t.cpc) <= JoinsLeft(s.cpc)
            && (m.Control? && s.epc.EDone? && s.spc.SDone? && !s.cpc.CStopped? ==> JoinsLeft(t.cpc) < JoinsLeft(s.cpc))
  {
    if m.Control? {
      JoinStatement(cfg, s, m.cmd);
    }
  }

  /** After the posts each thread is ended, or every one of its moves brings it nearer to its end. */
  lemma {:induction false} ThreadsEnd(cfg: Config, s: State, moves: seq<Move>)
    requires Stopped(cfg, s) && InStopJoin(s.cpc)
    ensures var t := Run(cfg, s, moves);
            && Stopped(cfg, t) && InStopJoin(t.cpc)
            && (t.epc.EDone? || EventRank(cfg, t.epc) + Count(moves, EventActor) <= EventRank(cfg, s.epc))
            && (t.spc.SDone? || StreamRank(t.spc) + Count(moves, StreamActor) <= StreamRank(s.spc))
  {
    if moves != [] {
      var before, m := moves[..|moves| - 1], moves[|moves| - 1];
      ThreadsEnd(cfg, s, before);
      var u := Run(cfg, s, before);
      StepKeepsStopped(cfg, u, m);
      EventMove(cfg, u, m);
      StreamMove(cfg, u, m);
      JoinMove(cfg, u, m);
    }
  }

  lemma EndedMove(cfg: Config, s: State, m: Move) returns (t: State)
    requires Stopped(cfg, s) && InStopJoin(s.cpc) && s.epc.EDone? && s.spc.SDone?
    ensures t == Step(cfg, s, m)
    ensures Stopped(cfg, t) && InStopJoin(t.cpc) && t.epc.EDone? && t.spc.SDone? && (s.cpc.CStopped? ==> t.cpc.CStopped?)
    ensures s.cpc.CStopped? || JoinsLeft(t.cpc) + (if m.Control? then 1 else 0) <= JoinsLeft(s.cpc)
  {
    t := Step(cfg, s, m);
    StepKeepsStopped(cfg, s, m);
    EventMove(cfg, s, m);
    StreamMove(cfg, s, m);
    JoinMove(cfg, s, m);
  }

  /** With both threads ended the caller of stop returns after three more moves of its own. */
  lemma {:induction false} StopReturns(cfg: Config, s: State, moves: seq<Move>) returns (t: State)
    requires Stopped(cfg, s) && InStopJoin(s.cpc) && s.epc.EDone? && s.spc.SDone?
    ensures t == Run(cfg, s, moves) && Stopped(cfg, t) && InStopJoin(t.cpc) && t.epc.EDone? && t.spc.SDone?
    ensures t.cpc.CStopped? || JoinsLeft(t.cpc) + Count(moves, ControlActor) <= JoinsLeft(s.cpc)
  {
    t := s;
    if moves != [] {
      var u := StopReturns(cfg, s, moves[..|moves| - 1]);
      t := EndedMove(cfg, u, moves[|moves| - 1]);
    }
  }

  lemma RankZero(cfg: Config, s: State)
    ensures EventRank(cfg, s.epc) == 0 ==> s.epc.EDone?
    ensures StreamRank(s.spc) == 0 ==> s.spc.SDone?
    ensures InStopJoin(s.cpc) && JoinsLeft(s.cpc) == 0 ==> s.cpc.CStopped?
  {
  }

  lemma {:induction false} RunKeepsStopped(cfg: Config, s: State, moves: seq<Move>)
    requires Stopped(cfg, s)
    ensures Stopped(cfg, Run(cfg, s, moves))
  {
    if moves != [] {
      RunKeepsStopped(cfg, s, moves[..|moves| - 1]);
      StepKeepsStopped(cfg, Run(cfg, s, moves[..|moves| - 1]), moves[|moves| - 1]);
    }
  }

  /** From any such state: five moves of the caller of stream_stop_threads post its messages, from then on the
      event thread ends after at most EventRank and the stream thread after at most StreamRank of its own
      moves, and then the call returns with the context pointer reset. */
  lemma StopEnds(cfg: Config, called: State, posting: seq<Move>, ending: seq<Move>, returning: seq<Move>)
    requires MayStop(cfg, called) && Count(posting, ControlActor) >= 5
    ensures var posted := Run(cfg, called, posting);
            var ended := Run(cfg, posted, ending);
            && InStopJoin(posted.cpc)
            && (Count(ending, EventActor) >= EventRank(cfg, posted.epc) ==> ended.epc.EDone?)
            && (Count(ending, StreamActor) >= StreamRank(posted.spc) ==> ended.spc.SDone?)
            && (ended.epc.EDone? && ended.spc.SDone? && Count(returning, ControlActor) >= 3 ==>
                  Run(cfg, ended, returning).cpc.CStopped? && Run(cfg, ended, returning).current.None?)
  {
    StartsStopped(cfg, called);
    RunKeepsStopped(cfg, called, posting);
    StopPosts(cfg, called, posting);
    var posted := Run(cfg, called, posting);
    ThreadsEnd(cfg, posted, ending);
    var ended := Run(cfg, posted, ending);
    RankZero(cfg, ended);
    if ended.epc.EDone? && ended.spc.SDone? {
      var returned := StopReturns(cfg, ended, returning);
      RankZero(cfg, returned);
    }
  }

  /** In particular whatever happened before the call (`past`), including errors that made the threads wait for
      each other. */
  lemma StopEndsBothThreads(cfg: Config, c: Context, past: seq<Move>, posting: seq<Move>, ending: seq<Move>,
                            returning: seq<Move>)
    requires Run(cfg, Initial(c), past).cpc.TFlag? && Count(posting, ControlActor) >= 5
    ensures var posted := Run(cfg, Run(cfg, Initial(c), past), posting);
            var ended := Run(cfg, posted, ending);
            && InStopJoin(posted.cpc)
            && (Count(ending, EventActor) >= EventRank(cfg, posted.epc) ==> ended.epc.EDone?)
            && (Count(ending, StreamActor) >= StreamRank(posted.spc) ==> ended.spc.SDone?)
            && (ended.epc.EDone? && ended.spc.SDone? && Count(returning, ControlActor) >= 3 ==>
                  Run(cfg, ended, returning).cpc.CStopped? && Run(cfg, ended, returning).current.None?)
  {
    ReachableStopped(cfg, c, past);
    StopEnds(cfg, Run(cfg, Initial(c), past), posting, ending, returning);
  }

  // ------------------------------------------------------------ when stop does not end

  /** In execute(), and not on its way out after an error. */
  predicate InExecute(e: EventPc) {
    InLoopTest(e) || InTake(e) || InHandler(e)
  }

  /** Stop has been called; the event thread is at work on another queue than the current one, of which
      nobody asks anything. */
  predicate Elsewhere(cfg: Config, s: State) {
    && s.current.Some? && InExecute(s.epc) && cfg.queueOf(s.eCtx) != CurrentQueue(cfg, s) && s.spc.SDone?
    && (InStopRequest(s.cpc) || InStopPost(s.cpc) || s.cpc.TJoinEvent?)
    && var v := QueueAt(s, cfg.queueOf(s.eCtx)); !v.mustEnd && !v.mustPause
  }

  /** No handler fails, and no thread from outside moves. */
  predicate Quiet(m: Move) {
    !m.External? && (m.Event? ==> !m.ch.flag)
  }

  lemma LoopTestStaysElsewhere(cfg: Config, s: State)
    requires Elsewhere(cfg, s) && InLoopTest(s.epc)
    ensures Elsewhere(cfg, LoopTestStep(cfg, s))
  {
  }

  lemma TakeStaysElsewhere(cfg: Config, s: State, ch: Choice)
    requires Elsewhere(cfg, s) && InTake(s.epc)
    ensures Elsewhere(cfg, TakeStep(cfg, s, ch))
  {
  }

  lemma HandlerStaysElsewhere(cfg: Config, s: State, ch: Choice)
    requires Elsewhere(cfg, s) && InHandler(s.epc) && !ch.flag
    ensures Elsewhere(cfg, HandlerStep(cfg, s, ch))
  {
  }

  lemma EventStaysElsewhere(cfg: Config, s: State, ch: Choice)
    requires Elsewhere(cfg, s) && !ch.flag
    ensures Elsewhere(cfg, EventStep(cfg, s, ch))
  {
    if InLoopTest(s.epc) {
      LoopTestStaysElsewhere(cfg, s);
    } else if InTake(s.epc) {
      TakeStaysElsewhere(cfg, s, ch);
    } else {
      HandlerStaysElsewhere(cfg, s, ch);
    }
  }

  lemma ControlStaysElsewhere(cfg: Config, s: State, cmd: Command)
    requires Elsewhere(cfg, s)
    ensures Elsewhere(cfg, ControlStep(cfg, s, cmd))
  {
  }

  /** The event thread never ends then, and stop waits for it forever. */
  lemma {:induction false} StopHangs(cfg: Config, s: State, moves: seq<Move>)
    requires Elsewhere(cfg, s) && forall i :: 0 <= i < |moves| ==> Quiet(moves[i])
    ensures Elsewhere(cfg, Run(cfg, s, moves))
  {
    if moves != [] {
      var u, m := Run(cfg, s, moves[..|moves| - 1]), moves[|moves| - 1];
      StopHangs(cfg, s, moves[..|moves| - 1]);
      match m
      case Control(cmd) => ControlStaysElsewhere(cfg, u, cmd);
      case Stream(ch) => assert StreamStep(cfg, u, ch) == u;
      case Event(ch) => EventStaysElsewhere(cfg, u, ch);
    }
  }

  /** Wherever the threads are when stop is called with the event thread at point `e` of context `d` and the
      context pointer at `c`, the event thread ends. */
  ghost predicate AlwaysEnds(cfg: Config, e: EventPc, d: Context, c: Context) {
    forall s: State, posting: seq<Move>, ending: seq<Move> ::
      CalledAt(cfg, s, e, d, c) && Count(posting, ControlActor) >= 5
      && Count(ending, EventActor) >= EventRank(cfg, Run(cfg, s, posting).epc) ==>
        Run(cfg, Run(cfg, s, posting), ending).epc.EDone?
  }

  predicate CalledAt(cfg: Config, s: State, e: EventPc, d: Context, c: Context) {
    && s.cpc.TFlag? && s.epc == e && s.eCtx == d && s.current == Some(c)
    && var v := QueueAt(s, cfg.queueOf(d)); v.mustEnd && (e.EExitPause? || e.EWait?) ==> v.wake
  }

  lemma {:induction false} CountRepeat(m: Move, n: nat)
    ensures Count(seq(n, _ => m), ActorOf(m)) == n
  {
    if n > 0 {
      CountRepeat(m, n - 1);
      assert seq(n, _ => m)[..n - 1] == seq(n - 1, _ => m);
    }
  }

  /** Called while the event thread is at work, stop is sure to end it if and only if it works on the queue of
      the current context. */
  lemma StopEndsExactly(cfg: Config, e: EventPc, d: Context, c: Context)
    requires InExecute(e)
    ensures AlwaysEnds(cfg, e, d, c) <==> cfg.queueOf(d) == cfg.queueOf(c)
  {
    if cfg.queueOf(d) == cfg.queueOf(c) {
      forall s: State, posting: seq<Move>, ending: seq<Move> |
        CalledAt(cfg, s, e, d, c) && Count(posting, ControlActor) >= 5
        && Count(ending, EventActor) >= EventRank(cfg, Run(cfg, s, posting).epc)
        ensures Run(cfg, Run(cfg, s, posting), ending).epc.EDone?
      {
        StopEnds(cfg, s, posting, ending, []);
      }
    } else {
      var s := State(NO_MESSAGE, NO_REPLY, Some(c), false, map[], e, d, false, SDone, d, d, TFlag, []);
      NeverEnds(cfg, s, e, d, c);
    }
  }

  /** Any number of moves of one kind. */
  lemma HangsAtLeast(cfg: Config, s: State, m: Move, n: nat) returns (moves: seq<Move>)
    requires Elsewhere(cfg, s) && Quiet(m)
    ensures Count(moves, ActorOf(m)) == n && Elsewhere(cfg, Run(cfg, s, moves))
  {
    moves := seq(n, _ => m);
    CountRepeat(m, n);
    StopHangs(cfg, s, moves);
  }

  lemma NeverEnds(cfg: Config, s: State, e: EventPc, d: Context, c: Context)
    requires Elsewhere(cfg, s) && CalledAt(cfg, s, e, d, c)
    ensures !AlwaysEnds(cfg, e, d, c)
  {
    var posting := HangsAtLeast(cfg, s, Control(StartStop), 5);
    var posted := Run(cfg, s, posting);
    var ending := HangsAtLeast(cfg, posted, Event(Choice(0, Success, false)), EventRank(cfg, posted.epc));
  }
}
