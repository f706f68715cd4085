/** Context switches: in every run over streaming contexts, errors and stops included, the nodes of at
    most one context are un-paused, and a context is reset before its first node runs. */
module RuntimeSwitch {
  import opened RuntimeModel
  import opened RuntimeInvariant

  /** No pure event graph. */
  ghost predicate AllStreaming(cfg: Config) {
    forall c :: cfg.length(c) > 0
  }

  // ------------------------------------------------------- the order of what is seen

  /** What the nodes of the contexts may do next: the nodes of `c` run (Active), they are paused and only
      a handler still running may finish (Quiet), or the FIFOs of `c` have just been reset (Fresh). */
  datatype Phase = Active(c: Context) | Quiet(c: Context) | Fresh(c: Context) | Broken

  function PhaseStep(p: Phase, v: Visible): Phase {
    match (p, v)
    case (Active(c), NodeRun(d)) => if c == d then p else Broken
    case (Active(c), HandlerRun(d)) => if c == d then p else Broken
    case (Active(c), PauseAll(d)) => if c == d then Quiet(c) else Broken
    case (Quiet(c), HandlerRun(d)) => if c == d then p else Broken
    case (Quiet(c), ResetFifos(d)) => Fresh(d)
    case (Fresh(c), ResumeAll(d)) => if c == d then Active(c) else Broken
    case _ => Broken
  }

  function PhaseOf(c: Context, log: seq<Visible>): Phase {
    if log == [] then Active(c) else PhaseStep(PhaseOf(c, log[..|log| - 1]), log[|log| - 1])
  }

  lemma PhaseAppend(c: Context, log: seq<Visible>, v: Visible)
    ensures PhaseOf(c, log + [v]) == PhaseStep(PhaseOf(c, log), v)
  {
    assert (log + [v])[..|log|] == log;
  }

  // -------------------------------------------------------------------- invariants

  predicate Waking(p: StreamPc) {
    p.SReload? || p.SReset? || p.SResumeAll? || p.SPostResumed?
  }

  /** The controller relies on the stream thread being parked, its reply consumed. */
  predicate HoldsStream(c: ControlPc) {
    c.PWaitEvent? || c.PClear? || (c.CIdle? && c.paused) || (InResumeStream(c) && !c.RWaitStream?)
  }

  predicate Parked(s: State) {
    && (!PostedStream(s.cpc) && s.re.sPaused ==> s.spc.SResumeWait? && !s.se.resume)
    && (!PostedStream(s.cpc) && s.se.resume ==> s.spc.SResumeWait? && s.cpc.RWaitStream?)
    && (HoldsStream(s.cpc) ==> s.spc.SResumeWait? && !s.se.resume && !s.re.sPaused)
    && (Waking(s.spc) ==> s.cpc.RWaitStream?)
    && (s.spc.SResumeStop? ==> s.cpc.RWaitStream? || PostedStream(s.cpc))
    && (!InStopJoin(s.cpc) && s.re.sResumed ==>
          s.cpc.RWaitStream? && !s.se.resume && !s.spc.SResumeStop? && !Waking(s.spc))
  }

  /** The controller has set the new context and the stream thread may not have prepared it yet. */
  predicate Switching(c: ControlPc) {
    c.RUnpause? || c.RClearError? || c.RPostStream? || c.RWaitStream?
  }

  predicate Matches(s: State, p: Phase) {
    (p.Active? || p.Quiet?) && Some(p.c) == s.current
  }

  predicate RunsNodes(p: StreamPc) {
    InScheduler(p) || InNodePush(p) || InNodeError(p) || p.SQueuePause? || p.SQueueNotify? || p.SPauseAll?
  }

  predicate InPhase(s: State, p: Phase) {
    && !p.Broken?
    && (s.current.Some? && !Switching(s.cpc) ==> Matches(s, p))
    && (s.current.Some? && (s.re.sResumed || s.re.sPaused) ==> Matches(s, p))
    && (s.spc.SLoad? || RunsNodes(s.spc) ==> p.Active? && Matches(s, p))
    && (RunsNodes(s.spc) ==> p.c == s.sCtx)
    && (s.spc.SLoopStop? ==> s.stop || (p.Active? && Matches(s, p)))
    && (s.spc.SWaitEvent? || s.spc.SReport? || s.spc.SStopCheck? || s.spc.SPostPaused? ==> p.Quiet? && Matches(s, p))
    && (s.spc.SResumeWait? || s.spc.SResumeStop? || s.spc.SReload? || s.spc.SReset? ==> p.Quiet?)
    && (s.spc.SReset? || s.spc.SResumeAll? || s.spc.SPostResumed? ==> Some(s.sNew) == s.current)
    && (s.spc.SResumeAll? ==> p == Fresh(s.sNew))
    && (s.spc.SPostResumed? ==> p == Active(s.sNew))
  }

  predicate Switched(cfg: Config, s: State, p: Phase) {
    Linked(cfg, s) && Parked(s) && InPhase(s, p)
  }

  /** The invariant after a move from a state in phase `p`, which may have been seen as `v`. */
  predicate Unseen(s: State, t: State, p: Phase) {
    t.log == s.log && Parked(t) && InPhase(t, p)
  }

  predicate Seen(s: State, t: State, p: Phase, v: Visible) {
    t.log == s.log + [v] && Parked(t) && InPhase(t, PhaseStep(p, v))
  }

  lemma StreamLoopKeepsSwitched(cfg: Config, s: State, p: Phase)
    requires AllStreaming(cfg) && Switched(cfg, s, p) && InStreamLoop(s.spc)
    ensures var t := StreamLoopStep(s); Unseen(s, t, p)
  {
  }

  lemma PollKeepsSwitched(cfg: Config, s: State, p: Phase, ch: Choice)
    requires AllStreaming(cfg) && Switched(cfg, s, p) && s.spc.SPoll?
    ensures var t := SchedulerStep(cfg, s, ch); Unseen(s, t, p) || Seen(s, t, p, NodeRun(s.sCtx))
  {
    if s.se.done || s.se.pause {
      StopKeepsSwitched(cfg, s, p, ch);
    } else {
      RunKeepsSwitched(cfg, s, p, ch);
    }
  }

  lemma StopKeepsSwitched(cfg: Config, s: State, p: Phase, ch: Choice)
    requires AllStreaming(cfg) && Switched(cfg, s, p) && s.spc.SPoll? && (s.se.done || s.se.pause)
    ensures var t := SchedulerStep(cfg, s, ch); Unseen(s, t, p)
  {
  }

  lemma RunKeepsSwitched(cfg: Config, s: State, p: Phase, ch: Choice)
    requires AllStreaming(cfg) && Switched(cfg, s, p) && s.spc.SPoll? && !s.se.done && !s.se.pause
    ensures var t := SchedulerStep(cfg, s, ch); Seen(s, t, p, NodeRun(s.sCtx))
  {
  }

  lemma NodeKeepsSwitched(cfg: Config, s: State, p: Phase, ch: Choice)
    requires AllStreaming(cfg) && Switched(cfg, s, p) && s.spc.SNode?
    ensures var t := SchedulerStep(cfg, s, ch); Unseen(s, t, p)
  {
  }

  lemma SchedulerKeepsSwitched(cfg: Config, s: State, p: Phase, ch: Choice)
    requires AllStreaming(cfg) && Switched(cfg, s, p) && InScheduler(s.spc)
    ensures var t := SchedulerStep(cfg, s, ch); Unseen(s, t, p) || Seen(s, t, p, NodeRun(s.sCtx))
  {
    if s.spc.SPoll? {
      PollKeepsSwitched(cfg, s, p, ch);
    } else {
      NodeKeepsSwitched(cfg, s, p, ch);
    }
  }

  lemma NodePushKeepsSwitched(cfg: Config, s: State, p: Phase, ch: Choice)
    requires AllStreaming(cfg) && Switched(cfg, s, p) && InNodePush(s.spc)
    ensures var t := NodePushStep(cfg, s, ch); Unseen(s, t, p)
  {
  }

  lemma NodeErrorKeepsSwitched(cfg: Config, s: State, p: Phase)
    requires AllStreaming(cfg) && Switched(cfg, s, p) && InNodeError(s.spc)
    ensures var t := NodeErrorStep(cfg, s); Unseen(s, t, p)
  {
  }

  lemma PauseAllKeepsSwitched(cfg: Config, s: State, p: Phase)
    requires AllStreaming(cfg) && Switched(cfg, s, p) && s.spc.SPauseAll?
    ensures Seen(s, StreamPauseStep(cfg, s), p, PauseAll(s.sCtx))
  {
  }

  lemma ErrorPauseKeepsSwitched(cfg: Config, s: State, p: Phase)
    requires Switched(cfg, s, p) && InStreamPause(s.spc) && !s.spc.SPauseAll?
    ensures Unseen(s, StreamPauseStep(cfg, s), p)
  {
  }

  lemma StreamPauseKeepsSwitched(cfg: Config, s: State, p: Phase)
    requires AllStreaming(cfg) && Switched(cfg, s, p) && InStreamPause(s.spc)
    ensures var t := StreamPauseStep(cfg, s); Unseen(s, t, p) || Seen(s, t, p, PauseAll(s.sCtx))
  {
    if s.spc.SPauseAll? {
      PauseAllKeepsSwitched(cfg, s, p);
    } else {
      ErrorPauseKeepsSwitched(cfg, s, p);
    }
  }

  lemma ReportKeepsSwitched(cfg: Config, s: State, p: Phase)
    requires Switched(cfg, s, p) && (s.spc.SReport? || s.spc.SStopCheck?)
    ensures Unseen(s, StreamReplyStep(s), p)
  {
  }

  lemma PostPausedKeepsSwitched(cfg: Config, s: State, p: Phase)
    requires Switched(cfg, s, p) && s.spc.SPostPaused?
    ensures Unseen(s, StreamReplyStep(s), p)
  {
  }

  lemma ResumeWaitKeepsSwitched(cfg: Config, s: State, p: Phase)
    requires Switched(cfg, s, p) && s.spc.SResumeWait?
    ensures Unseen(s, StreamReplyStep(s), p)
  {
  }

  lemma StreamReplyKeepsSwitched(cfg: Config, s: State, p: Phase)
    requires Switched(cfg, s, p) && InStreamReply(s.spc)
    ensures Unseen(s, StreamReplyStep(s), p)
  {
    match s.spc
    case SPostPaused => PostPausedKeepsSwitched(cfg, s, p);
    case SResumeWait => ResumeWaitKeepsSwitched(cfg, s, p);
    case _ => ReportKeepsSwitched(cfg, s, p);
  }

  lemma ResumeStopKeepsSwitched(cfg: Config, s: State, p: Phase)
    requires Switched(cfg, s, p) && s.spc.SResumeStop?
    ensures Unseen(s, StreamWakeStep(s), p)
  {
  }

  lemma ReloadKeepsSwitched(cfg: Config, s: State, p: Phase)
    requires Switched(cfg, s, p) && s.spc.SReload?
    ensures Unseen(s, StreamWakeStep(s), p)
  {
  }

  lemma ResetKeepsSwitched(cfg: Config, s: State, p: Phase)
    requires Switched(cfg, s, p) && s.spc.SReset?
    ensures Seen(s, StreamWakeStep(s), p, ResetFifos(s.sNew))
  {
  }

  lemma ResumeAllKeepsSwitched(cfg: Config, s: State, p: Phase)
    requires Switched(cfg, s, p) && s.spc.SResumeAll?
    ensures Seen(s, StreamWakeStep(s), p, ResumeAll(s.sNew))
  {
  }

  lemma PostResumedKeepsSwitched(cfg: Config, s: State, p: Phase)
    requires Switched(cfg, s, p) && s.spc.SPostResumed?
    ensures Unseen(s, StreamWakeStep(s), p)
  {
  }

  lemma StreamWakeKeepsSwitched(cfg: Config, s: State, p: Phase)
    requires Switched(cfg, s, p) && InStreamWake(s.spc)
    ensures var t := StreamWakeStep(s); Unseen(s, t, p) || Seen(s, t, p, ResetFifos(s.sNew)) || Seen(s, t, p, ResumeAll(s.sNew))
  {
    match s.spc
    case SResumeStop => ResumeStopKeepsSwitched(cfg, s, p);
    case SReload => ReloadKeepsSwitched(cfg, s, p);
    case SReset => ResetKeepsSwitched(cfg, s, p);
    case SResumeAll => ResumeAllKeepsSwitched(cfg, s, p);
    case _ => PostResumedKeepsSwitched(cfg, s, p);
  }

  lemma QueuePauseKeepsSwitched(cfg: Config, s: State, p: Phase)
    requires AllStreaming(cfg) && Switched(cfg, s, p) && InQueuePause(s.cpc)
    ensures var t := QueuePauseStep(cfg, s); Unseen(s, t, p)
  {
  }

  lemma PauseWaitKeepsSwitched(cfg: Config, s: State, p: Phase)
    requires AllStreaming(cfg) && Switched(cfg, s, p) && InPauseWait(s.cpc)
    ensures var t := PauseWaitStep(cfg, s); Unseen(s, t, p)
  {
  }

  lemma ResumeStreamKeepsSwitched(cfg: Config, s: State, p: Phase)
    requires AllStreaming(cfg) && Switched(cfg, s, p) && InResumeStream(s.cpc)
    ensures var t := ResumeStreamStep(cfg, s); Unseen(s, t, p)
  {
  }

  lemma ResumeEventKeepsSwitched(cfg: Config, s: State, p: Phase)
    requires AllStreaming(cfg) && Switched(cfg, s, p) && InResumeEvent(s.cpc)
    ensures var t := ResumeEventStep(cfg, s); Unseen(s, t, p)
  {
  }

  lemma FailPauseKeepsSwitched(cfg: Config, s: State, p: Phase)
    requires AllStreaming(cfg) && Switched(cfg, s, p) && InFailPause(s.cpc)
    ensures var t := FailPauseStep(cfg, s); Unseen(s, t, p)
  {
  }

  lemma ResumeFailKeepsSwitched(cfg: Config, s: State, p: Phase)
    requires AllStreaming(cfg) && Switched(cfg, s, p) && InResumeFail(s.cpc)
    ensures var t := ResumeFailStep(cfg, s); Unseen(s, t, p)
  {
  }

  lemma StopRequestKeepsSwitched(cfg: Config, s: State, p: Phase)
    requires AllStreaming(cfg) && Switched(cfg, s, p) && InStopRequest(s.cpc)
    ensures var t := StopRequestStep(cfg, s); Unseen(s, t, p)
  {
  }

  lemma StopPostKeepsSwitched(cfg: Config, s: State, p: Phase)
    requires AllStreaming(cfg) && Switched(cfg, s, p) && InStopPost(s.cpc)
    ensures var t := StopPostStep(s); Unseen(s, t, p)
  {
  }

  lemma StopJoinKeepsSwitched(cfg: Config, s: State, p: Phase)
    requires AllStreaming(cfg) && Switched(cfg, s, p) && InStopJoin(s.cpc)
    ensures var t := StopJoinStep(s); Unseen(s, t, p)
  {
  }

  lemma IdleKeepsSwitched(cfg: Config, s: State, p: Phase, cmd: Command)
    requires AllStreaming(cfg) && Switched(cfg, s, p) && s.cpc.CIdle?
    ensures var t := IdleStep(s, cmd); Unseen(s, t, p)
  {
  }

  lemma EventKeepsSwitched(cfg: Config, s: State, p: Phase, ch: Choice)
    requires AllStreaming(cfg) && Switched(cfg, s, p)
    ensures var t := EventStep(cfg, s, ch); Unseen(s, t, p) || Seen(s, t, p, HandlerRun(s.eCtx))
  {
  }

  predicate Follows(s: State, t: State, p: Phase) {
    Unseen(s, t, p) || Seen(s, t, p, HandlerRun(s.eCtx))
    || Seen(s, t, p, NodeRun(s.sCtx)) || Seen(s, t, p, PauseAll(s.sCtx))
    || Seen(s, t, p, ResetFifos(s.sNew)) || Seen(s, t, p, ResumeAll(s.sNew))
  }

  lemma StreamFollows(cfg: Config, s: State, p: Phase, ch: Choice)
    requires AllStreaming(cfg) && Switched(cfg, s, p)
    ensures Follows(s, StreamStep(cfg, s, ch), p)
  {
    if InStreamLoop(s.spc) {
      StreamLoopKeepsSwitched(cfg, s, p);
    } else if InScheduler(s.spc) {
      SchedulerKeepsSwitched(cfg, s, p, ch);
    } else if InNodePush(s.spc) {
      NodePushKeepsSwitched(cfg, s, p, ch);
    } else if InNodeError(s.spc) {
      NodeErrorKeepsSwitched(cfg, s, p);
    } else if InStreamPause(s.spc) {
      StreamPauseKeepsSwitched(cfg, s, p);
    } else if InStreamReply(s.spc) {
      StreamReplyKeepsSwitched(cfg, s, p);
    } else if InStreamWake(s.spc) {
      StreamWakeKeepsSwitched(cfg, s, p);
    }
  }

  lemma ControlFollows(cfg: Config, s: State, p: Phase, cmd: Command)
    requires AllStreaming(cfg) && Switched(cfg, s, p)
    ensures Follows(s, ControlStep(cfg, s, cmd), p)
  {
    if InQueuePause(s.cpc) {
      QueuePauseKeepsSwitched(cfg, s, p);
    } else if InPauseWait(s.cpc) {
      PauseWaitKeepsSwitched(cfg, s, p);
    } else if InResumeStream(s.cpc) {
      ResumeStreamKeepsSwitched(cfg, s, p);
    } else if InResumeEvent(s.cpc) {
      ResumeEventKeepsSwitched(cfg, s, p);
    } else if InFailPause(s.cpc) {
      FailPauseKeepsSwitched(cfg, s, p);
    } else if InResumeFail(s.cpc) {
      ResumeFailKeepsSwitched(cfg, s, p);
    } else if InStopRequest(s.cpc) {
      StopRequestKeepsSwitched(cfg, s, p);
    } else if InStopPost(s.cpc) {
      StopPostKeepsSwitched(cfg, s, p);
    } else if InStopJoin(s.cpc) {
      StopJoinKeepsSwitched(cfg, s, p);
    } else if s.cpc.CIdle? {
      IdleKeepsSwitched(cfg, s, p, cmd);
    }
  }

  lemma StepFollows(cfg: Config, s: State, p: Phase, m: Move)
    requires AllStreaming(cfg) && Switched(cfg, s, p)
    ensures Follows(s, Step(cfg, s, m), p)
  {
    match m
    case Control(cmd) => ControlFollows(cfg, s, p, cmd);
    case Stream(ch) => StreamFollows(cfg, s, p, ch);
    case Event(ch) => EventKeepsSwitched(cfg, s, p, ch);
    case External(q, eff) => ExternalFollows(cfg, s, p, q, eff);
  }

  lemma ExternalFollows(cfg: Config, s: State, p: Phase, q: QueueId, eff: Effect)
    requires Switched(cfg, s, p)
    ensures Follows(s, ExternalStep(cfg, s, q, eff), p)
  {
    var t := ExternalStep(cfg, s, q, eff);
    assert t == s.(queues := t.queues);
  }

  lemma FollowsPhase(c: Context, s: State, t: State)
    requires Follows(s, t, PhaseOf(c, s.log))
    ensures Parked(t) && InPhase(t, PhaseOf(c, t.log))
  {
    PhaseAppend(c, s.log, HandlerRun(s.eCtx));
    PhaseAppend(c, s.log, NodeRun(s.sCtx));
    PhaseAppend(c, s.log, PauseAll(s.sCtx));
    PhaseAppend(c, s.log, ResetFifos(s.sNew));
    PhaseAppend(c, s.log, ResumeAll(s.sNew));
  }

  lemma {:induction false} ReachableSwitched(cfg: Config, c: Context, moves: seq<Move>)
    requires AllStreaming(cfg)
    ensures var t := Run(cfg, Initial(c), moves); Switched(cfg, t, PhaseOf(c, t.log))
  {
    if moves != [] {
      var before, m := moves[..|moves| - 1], moves[|moves| - 1];
      ReachableSwitched(cfg, c, before);
      var s := Run(cfg, Initial(c), before);
      StepKeepsLinked(cfg, s, m);
      StepFollows(cfg, s, PhaseOf(c, s.log), m);
      FollowsPhase(c, s, Step(cfg, s, m));
    }
  }

  // ------------------------------------------------------------------ main results

  /** The contexts whose nodes are un-paused: those of the first context are from the start. */
  function Unpaused(c: Context, log: seq<Visible>): set<Context> {
    if log == [] then {c} else
    var before := Unpaused(c, log[..|log| - 1]);
    match log[|log| - 1]
    case PauseAll(d) => before - {d}
    case ResumeAll(d) => before + {d}
    case _ => before
  }

  /** The phase gives the set of un-paused contexts. */
  lemma {:induction false} PhaseUnpaused(c: Context, log: seq<Visible>)
    requires !PhaseOf(c, log).Broken?
    ensures Unpaused(c, log) == if PhaseOf(c, log).Active? then {PhaseOf(c, log).c} else {}
  {
    if log != [] {
      PhaseUnpaused(c, log[..|log| - 1]);
    }
  }

  lemma {:induction false} PhasePrefix(c: Context, log: seq<Visible>, n: nat)
    requires n <= |log| && !PhaseOf(c, log).Broken?
    ensures !PhaseOf(c, log[..n]).Broken?
  {
    if n < |log| {
      assert log[..|log| - 1][..n] == log[..n];
      PhasePrefix(c, log[..|log| - 1], n);
    } else {
      assert log[..n] == log;
    }
  }

  lemma PhaseAt(c: Context, log: seq<Visible>, i: nat)
    requires i < |log| && !PhaseOf(c, log).Broken?
    ensures PhaseOf(c, log[..i + 1]) == PhaseStep(PhaseOf(c, log[..i]), log[i])
    ensures !PhaseOf(c, log[..i]).Broken? && !PhaseOf(c, log[..i + 1]).Broken?
    ensures i == 0 ==> PhaseOf(c, log[..i]) == Active(c)
  {
    PhasePrefix(c, log, i);
    PhasePrefix(c, log, i + 1);
    assert log[..i + 1] == log[..i] + [log[i]];
    PhaseAppend(c, log[..i], log[i]);
  }

  /** In a log that follows the automaton, what happens at i fits the un-paused contexts before. */
  lemma LogRuns(c: Context, log: seq<Visible>, i: nat)
    requires i < |log| && !PhaseOf(c, log).Broken?
    ensures |Unpaused(c, log[..i])| <= 1
    ensures log[i].NodeRun? || log[i].PauseAll? ==> Unpaused(c, log[..i]) == {log[i].c}
    ensures log[i].ResetFifos? || log[i].ResumeAll? ==> Unpaused(c, log[..i]) == {}
  {
    PhaseAt(c, log, i);
    PhaseUnpaused(c, log[..i]);
  }

  lemma LogResets(c: Context, log: seq<Visible>, i: nat)
    requires i < |log| && !PhaseOf(c, log).Broken? && log[i].ResumeAll?
    ensures i > 0 && log[i - 1] == ResetFifos(log[i].c)
  {
    PhaseAt(c, log, i);
    if i > 0 {
      PhaseAt(c, log, i - 1);
    }
  }

  lemma RunPhase(cfg: Config, c: Context, moves: seq<Move>)
    requires AllStreaming(cfg)
    ensures !PhaseOf(c, Run(cfg, Initial(c), moves).log).Broken?
  {
    ReachableSwitched(cfg, c, moves);
  }

  /** At most one context has un-paused nodes, and only its nodes run. */
  lemma OneContextRuns(cfg: Config, c: Context, moves: seq<Move>, i: nat)
    requires AllStreaming(cfg)
    requires i < |Run(cfg, Initial(c), moves).log|
    ensures var log := Run(cfg, Initial(c), moves).log;
            && |Unpaused(c, log[..i])| <= 1
            && (log[i].NodeRun? || log[i].PauseAll? ==> Unpaused(c, log[..i]) == {log[i].c})
            && (log[i].ResetFifos? || log[i].ResumeAll? ==> Unpaused(c, log[..i]) == {})
  {
    RunPhase(cfg, c, moves);
    LogRuns(c, Run(cfg, Initial(c), moves).log, i);
  }

  /** A context is resumed right after its FIFOs were reset, so no node of it runs before. */
  lemma ResetBeforeResume(cfg: Config, c: Context, moves: seq<Move>, i: nat)
    requires AllStreaming(cfg)
    requires i < |Run(cfg, Initial(c), moves).log| && Run(cfg, Initial(c), moves).log[i].ResumeAll?
    ensures var log := Run(cfg, Initial(c), moves).log;
            i > 0 && log[i - 1] == ResetFifos(log[i].c)
  {
    RunPhase(cfg, c, moves);
    LogResets(c, Run(cfg, Initial(c), moves).log, i);
  }

  lemma {:induction false} NoResumeShrinks(c: Context, log: seq<Visible>, i: nat, j: nat)
    requires i <= j <= |log|
    requires forall k :: i <= k < j ==> !log[k].ResumeAll?
    ensures Unpaused(c, log[..j]) <= Unpaused(c, log[..i])
  {
    if i < j {
      NoResumeShrinks(c, log, i, j - 1);
      assert log[..j][..j - 1] == log[..j - 1];
    }
  }

  lemma {:induction false} NoPauseGrows(c: Context, log: seq<Visible>, i: nat, j: nat)
    requires i <= j <= |log|
    requires forall k :: i <= k < j ==> !log[k].PauseAll?
    ensures Unpaused(c, log[..i]) <= Unpaused(c, log[..j])
  {
    if i < j {
      NoPauseGrows(c, log, i, j - 1);
      assert log[..j][..j - 1] == log[..j - 1];
    }
  }

  lemma PausesApart(c: Context, log: seq<Visible>, i: nat, j: nat)
    requires i < j < |log| && !PhaseOf(c, log).Broken? && log[i].PauseAll? && log[j].PauseAll?
    ensures exists k :: i < k < j && log[k].ResumeAll?
  {
    LogRuns(c, log, i);
    LogRuns(c, log, j);
    assert log[..i + 1][..i] == log[..i];
    assert Unpaused(c, log[..i + 1]) == {};
    if forall k :: i < k < j ==> !log[k].ResumeAll? {
      NoResumeShrinks(c, log, i + 1, j);
      assert false;
    }
  }

  lemma ResumesApart(c: Context, log: seq<Visible>, i: nat, j: nat)
    requires i < j < |log| && !PhaseOf(c, log).Broken? && log[i].ResumeAll? && log[j].ResumeAll?
    ensures exists k :: i < k < j && log[k].PauseAll?
  {
    LogRuns(c, log, i);
    LogRuns(c, log, j);
    assert log[..i + 1][..i] == log[..i];
    assert Unpaused(c, log[..i + 1]) == {log[i].c};
    if forall k :: i < k < j ==> !log[k].PauseAll? {
      NoPauseGrows(c, log, i + 1, j);
      assert false;
    }
  }

  /** pause_all_nodes and resume_all_nodes strictly alternate: between two calls of the one there is a
      call of the other. */
  lemma PauseAndResumeAlternate(cfg: Config, c: Context, moves: seq<Move>, i: nat, j: nat)
    requires AllStreaming(cfg)
    requires i < j < |Run(cfg, Initial(c), moves).log|
    ensures var log := Run(cfg, Initial(c), moves).log;
            && (log[i].PauseAll? && log[j].PauseAll? ==> exists k :: i < k < j && log[k].ResumeAll?)
            && (log[i].ResumeAll? && log[j].ResumeAll? ==> exists k :: i < k < j && log[k].PauseAll?)
  {
    var log := Run(cfg, Initial(c), moves).log;
    RunPhase(cfg, c, moves);
    if log[i].PauseAll? && log[j].PauseAll? {
      PausesApart(c, log, i, j);
    }
    if log[i].ResumeAll? && log[j].ResumeAll? {
      ResumesApart(c, log, i, j);
    }
  }

  /** No thread reads the context pointer while it is null, whatever the application and the nodes do. */
  lemma NeverLoadsNull(cfg: Config, c: Context, moves: seq<Move>)
    ensures var s := Run(cfg, Initial(c), moves);
            && (s.current.None? <==> s.cpc.CStopped?)
            && (!s.epc.EDone? || !s.spc.SDone? ==> s.current.Some?)
  {
    ReachableLinked(cfg, c, moves);
  }
}
