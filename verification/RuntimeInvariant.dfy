/** What holds in every run of the runtime, errors, stops and outside pushes included: the event thread
    works on the current context, and the context pointer is null only after both threads have been joined. */
module RuntimeInvariant {
  import opened RuntimeModel

  /** The event thread uses the context it loaded at the top of its loop. */
  predicate EventActive(e: EventPc) {
    !e.ELoad? && !e.EResumeWait? && !e.EPostResumed? && !e.EDone?
  }

  /** The controller relies on the event thread being parked, its reply consumed, its wake-up not yet posted. */
  predicate HoldsEvent(c: ControlPc) {
    c.PClear? || (c.CIdle? && c.paused) || InResumeStream(c) || c.RPostEvent?
  }

  predicate Stopping(c: ControlPc) {
    InStopRequest(c) || InStopPost(c) || InStopJoin(c)
  }

  /** stream_stop_threads has posted its messages to the threads, and to those waiting for a reply. */
  predicate PostedStream(c: ControlPc) {
    c.TPostReply? || InStopJoin(c)
  }

  predicate InvEvent(s: State) {
    && (EventActive(s.epc) ==> s.current == Some(s.eCtx))
    && (!PostedStream(s.cpc) && s.re.ePaused ==> s.epc.EResumeWait? && !s.se.evResume)
    && (!PostedStream(s.cpc) && s.se.evResume ==> s.epc.EResumeWait?)
    && (HoldsEvent(s.cpc) ==> s.epc.EResumeWait? && !s.se.evResume && !s.re.ePaused)
  }

  predicate InvContext(s: State) {
    && (s.current.None? <==> s.cpc.CStopped?)
    && (InStopJoin(s.cpc) && !s.cpc.TJoinEvent? ==> s.epc.EDone?)
    && (s.cpc.TNull? || s.cpc.CStopped? ==> s.spc.SDone?)
  }

  /** The end request reaches the queue the event thread works on, and wakes it up. */
  predicate InvEnd(cfg: Config, s: State) {
    var v := QueueAt(s, cfg.queueOf(s.eCtx));
    && (Stopping(s.cpc) && !s.cpc.TFlag? ==> s.stop)
    && (Stopping(s.cpc) && !s.cpc.TFlag? && !s.cpc.TEnd? && s.current.Some? ==>
          QueueAt(s, CurrentQueue(cfg, s)).mustEnd)
    && (v.mustEnd && (s.epc.EExitPause? || s.epc.EWait?) ==> v.wake || s.cpc.TNotify?)
  }

  predicate Linked(cfg: Config, s: State) {
    InvEvent(s) && InvContext(s) && InvEnd(cfg, s)
  }

  lemma LoopTestKeepsLinked(cfg: Config, s: State)
    requires Linked(cfg, s)
    requires InLoopTest(s.epc)
    ensures Linked(cfg, LoopTestStep(cfg, s))
  {
  }

  lemma TakeKeepsLinked(cfg: Config, s: State, ch: Choice)
    requires Linked(cfg, s)
    requires InTake(s.epc)
    ensures Linked(cfg, TakeStep(cfg, s, ch))
  {
  }

  lemma HandlerKeepsLinked(cfg: Config, s: State, ch: Choice)
    requires Linked(cfg, s)
    requires InHandler(s.epc)
    ensures Linked(cfg, HandlerStep(cfg, s, ch))
  {
  }

  lemma HandlerErrorKeepsLinked(cfg: Config, s: State)
    requires Linked(cfg, s)
    requires InHandlerError(s.epc)
    ensures Linked(cfg, HandlerErrorStep(cfg, s))
  {
  }

  lemma ReturnKeepsLinked(cfg: Config, s: State)
    requires Linked(cfg, s)
    requires InReturn(s.epc)
    ensures Linked(cfg, ReturnStep(cfg, s))
  {
  }

  lemma EventReplyKeepsLinked(cfg: Config, s: State)
    requires Linked(cfg, s)
    requires InEventReply(s.epc)
    ensures Linked(cfg, EventReplyStep(cfg, s))
  {
  }

  lemma EventWakeKeepsLinked(cfg: Config, s: State)
    requires Linked(cfg, s)
    requires InEventWake(s.epc)
    ensures Linked(cfg, EventWakeStep(cfg, s))
  {
  }

  lemma StreamLoopKeepsLinked(cfg: Config, s: State)
    requires Linked(cfg, s)
    requires InStreamLoop(s.spc)
    ensures Linked(cfg, StreamLoopStep(s))
  {
  }

  lemma SchedulerKeepsLinked(cfg: Config, s: State, ch: Choice)
    requires Linked(cfg, s)
    requires InScheduler(s.spc)
    ensures Linked(cfg, SchedulerStep(cfg, s, ch))
  {
  }

  lemma NodePushKeepsLinked(cfg: Config, s: State, ch: Choice)
    requires Linked(cfg, s)
    requires InNodePush(s.spc)
    ensures Linked(cfg, NodePushStep(cfg, s, ch))
  {
  }

  lemma NodeErrorKeepsLinked(cfg: Config, s: State)
    requires Linked(cfg, s)
    requires InNodeError(s.spc)
    ensures Linked(cfg, NodeErrorStep(cfg, s))
  {
  }

  lemma StreamPauseKeepsLinked(cfg: Config, s: State)
    requires Linked(cfg, s)
    requires InStreamPause(s.spc)
    ensures Linked(cfg, StreamPauseStep(cfg, s))
  {
  }

  lemma StreamReplyKeepsLinked(cfg: Config, s: State)
    requires Linked(cfg, s)
    requires InStreamReply(s.spc)
    ensures Linked(cfg, StreamReplyStep(s))
  {
  }

  lemma StreamWakeKeepsLinked(cfg: Config, s: State)
    requires Linked(cfg, s)
    requires InStreamWake(s.spc)
    ensures Linked(cfg, StreamWakeStep(s))
  {
  }

  lemma QueuePauseKeepsLinked(cfg: Config, s: State)
    requires Linked(cfg, s)
    requires InQueuePause(s.cpc)
    ensures Linked(cfg, QueuePauseStep(cfg, s))
  {
  }

  lemma PauseWaitKeepsLinked(cfg: Config, s: State)
    requires Linked(cfg, s)
    requires InPauseWait(s.cpc)
    ensures Linked(cfg, PauseWaitStep(cfg, s))
  {
  }

  lemma ResumeStreamKeepsLinked(cfg: Config, s: State)
    requires Linked(cfg, s)
    requires InResumeStream(s.cpc)
    ensures Linked(cfg, ResumeStreamStep(cfg, s))
  {
  }

  lemma ResumeEventKeepsLinked(cfg: Config, s: State)
    requires Linked(cfg, s)
    requires InResumeEvent(s.cpc)
    ensures Linked(cfg, ResumeEventStep(cfg, s))
  {
  }

  lemma FailPauseKeepsLinked(cfg: Config, s: State)
    requires Linked(cfg, s)
    requires InFailPause(s.cpc)
    ensures Linked(cfg, FailPauseStep(cfg, s))
  {
  }

  lemma ResumeFailKeepsLinked(cfg: Config, s: State)
    requires Linked(cfg, s)
    requires InResumeFail(s.cpc)
    ensures Linked(cfg, ResumeFailStep(cfg, s))
  {
  }

  lemma StopRequestKeepsLinked(cfg: Config, s: State)
    requires Linked(cfg, s)
    requires InStopRequest(s.cpc)
    ensures Linked(cfg, StopRequestStep(cfg, s))
  {
  }

  lemma StopPostKeepsLinked(cfg: Config, s: State)
    requires Linked(cfg, s)
    requires InStopPost(s.cpc)
    ensures Linked(cfg, StopPostStep(s))
  {
  }

  lemma StopJoinKeepsLinked(cfg: Config, s: State)
    requires Linked(cfg, s)
    requires InStopJoin(s.cpc)
    ensures Linked(cfg, StopJoinStep(s))
  {
  }

  lemma IdleKeepsLinked(cfg: Config, s: State, cmd: Command)
    requires Linked(cfg, s)
    requires s.cpc.CIdle?
    ensures Linked(cfg, IdleStep(s, cmd))
  {
  }

  lemma EventKeepsLinked(cfg: Config, s: State, ch: Choice)
    requires Linked(cfg, s)
    ensures Linked(cfg, EventStep(cfg, s, ch))
  {
    if InLoopTest(s.epc) {
      LoopTestKeepsLinked(cfg, s);
    } else if InTake(s.epc) {
      TakeKeepsLinked(cfg, s, ch);
    } else if InHandler(s.epc) {
      HandlerKeepsLinked(cfg, s, ch);
    } else if InHandlerError(s.epc) {
      HandlerErrorKeepsLinked(cfg, s);
    } else if InReturn(s.epc) {
      ReturnKeepsLinked(cfg, s);
    } else if InEventReply(s.epc) {
      EventReplyKeepsLinked(cfg, s);
    } else if InEventWake(s.epc) {
      EventWakeKeepsLinked(cfg, s);
    }
  }

  lemma StreamKeepsLinked(cfg: Config, s: State, ch: Choice)
    requires Linked(cfg, s)
    ensures Linked(cfg, StreamStep(cfg, s, ch))
  {
    if InStreamLoop(s.spc) {
      StreamLoopKeepsLinked(cfg, s);
    } else if InScheduler(s.spc) {
      SchedulerKeepsLinked(cfg, s, ch);
    } else if InNodePush(s.spc) {
      NodePushKeepsLinked(cfg, s, ch);
    } else if InNodeError(s.spc) {
      NodeErrorKeepsLinked(cfg, s);
    } else if InStreamPause(s.spc) {
      StreamPauseKeepsLinked(cfg, s);
    } else if InStreamReply(s.spc) {
      StreamReplyKeepsLinked(cfg, s);
    } else if InStreamWake(s.spc) {
      StreamWakeKeepsLinked(cfg, s);
    }
  }

  lemma ControlKeepsLinked(cfg: Config, s: State, cmd: Command)
    requires Linked(cfg, s)
    ensures Linked(cfg, ControlStep(cfg, s, cmd))
  {
    if InQueuePause(s.cpc) {
      QueuePauseKeepsLinked(cfg, s);
    } else if InPauseWait(s.cpc) {
      PauseWaitKeepsLinked(cfg, s);
    } else if InResumeStream(s.cpc) {
      ResumeStreamKeepsLinked(cfg, s);
    } else if InResumeEvent(s.cpc) {
      ResumeEventKeepsLinked(cfg, s);
    } else if InFailPause(s.cpc) {
      FailPauseKeepsLinked(cfg, s);
    } else if InResumeFail(s.cpc) {
      ResumeFailKeepsLinked(cfg, s);
    } else if InStopRequest(s.cpc) {
      StopRequestKeepsLinked(cfg, s);
    } else if InStopPost(s.cpc) {
      StopPostKeepsLinked(cfg, s);
    } else if InStopJoin(s.cpc) {
      StopJoinKeepsLinked(cfg, s);
    } else if s.cpc.CIdle? {
      IdleKeepsLinked(cfg, s, cmd);
    }
  }

  lemma ExternalKeepsLinked(cfg: Config, s: State, q: QueueId, eff: Effect)
    requires Linked(cfg, s)
    ensures Linked(cfg, ExternalStep(cfg, s, q, eff))
  {
  }

  lemma StepKeepsLinked(cfg: Config, s: State, m: Move)
    requires Linked(cfg, s)
    ensures Linked(cfg, Step(cfg, s, m))
  {
    match m
    case Control(cmd) => ControlKeepsLinked(cfg, s, cmd);
    case Stream(ch) => StreamKeepsLinked(cfg, s, ch);
    case Event(ch) => EventKeepsLinked(cfg, s, ch);
    case External(q, eff) => ExternalKeepsLinked(cfg, s, q, eff);
  }

  lemma {:induction false} ReachableLinked(cfg: Config, c: Context, moves: seq<Move>)
    ensures Linked(cfg, Run(cfg, Initial(c), moves))
  {
    if moves != [] {
      var before := moves[..|moves| - 1];
      ReachableLinked(cfg, c, before);
      StepKeepsLinked(cfg, Run(cfg, Initial(c), before), moves[|moves| - 1]);
    }
  }
}
