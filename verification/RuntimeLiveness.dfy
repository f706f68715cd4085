/** Whole calls of pause, resume and stop in endless runs: if no actor is left out forever every call returns,
    however the moves of the actors are ordered. */
module RuntimeLiveness {
  import opened RuntimeModel
  import opened RuntimeInvariant
  import opened RuntimeStop
  import opened RuntimeHandshake

  /** An endless run: the states and the moves between them. */
  datatype Endless = Endless(states: nat -> State, moves: nat -> Move)

  predicate StepAt(cfg: Config, run: Endless, n: nat) {
    run.states(n + 1) == Step(cfg, run.states(n), run.moves(n))
  }

  ghost predicate IsRun(cfg: Config, run: Endless) {
    forall n: nat :: StepAt(cfg, run, n)
  }

  predicate IsMoveOf(run: Endless, n: nat, who: Actor) {
    ActorOf(run.moves(n)) == who
  }

  ghost predicate Later(run: Endless, n: nat, who: Actor) {
    exists m: nat :: n <= m && IsMoveOf(run, m, who)
  }

  /** A run in which the controller and the two threads are never left out forever. */
  ghost predicate Fair(cfg: Config, run: Endless) {
    IsRun(cfg, run) && forall n: nat, who: Actor :: !who.ExternalActor? ==> Later(run, n, who)
  }

  lemma GoodStep(cfg: Config, run: Endless, n: nat)
    requires ErrorFree(cfg) && StepAt(cfg, run, n) && Linked(cfg, run.states(n)) && Hand(cfg, run.states(n))
    ensures Linked(cfg, run.states(n + 1)) && Hand(cfg, run.states(n + 1))
  {
    StepKeepsLinked(cfg, run.states(n), run.moves(n));
    StepKeepsHand(cfg, run.states(n), run.moves(n));
  }

  lemma {:induction false} GoodAt(cfg: Config, c: Context, run: Endless, n: nat)
    requires ErrorFree(cfg) && IsRun(cfg, run) && run.states(0) == Initial(c)
    ensures Linked(cfg, run.states(n)) && Hand(cfg, run.states(n))
  {
    if n == 0 {
      InitialGood(cfg, c);
    } else {
      GoodAt(cfg, c, run, n - 1);
      assert StepAt(cfg, run, n - 1);
      GoodStep(cfg, run, n - 1);
    }
  }

  lemma InitialGood(cfg: Config, c: Context)
    requires ErrorFree(cfg)
    ensures Linked(cfg, Initial(c)) && Hand(cfg, Initial(c))
  {
    ReachableHand(cfg, c, []);
    assert Run(cfg, Initial(c), []) == Initial(c);
  }

  // ---------------------------------------------------------------------- pause and resume

  predicate InCall(c: ControlPc) {
    InQueuePause(c) || InPauseWait(c) || InResumeStream(c) || InResumeEvent(c)
  }

  /** The actor whose move brings the call on. */
  function Mover(s: State): Actor {
    if ControlBlocked(s) then Awaited(s.cpc) else ControlActor
  }

  function Left(cfg: Config, s: State): nat {
    if ControlBlocked(s) then AwaitRank(cfg, s) else 0
  }

  lemma PauseStays(cfg: Config, s: State)
    ensures InQueuePause(s.cpc) ==> InCall(QueuePauseStep(cfg, s).cpc)
    ensures InPauseWait(s.cpc) ==> var c := PauseWaitStep(cfg, s).cpc; c.CIdle? || InCall(c)
  {
  }

  lemma ResumeStays(cfg: Config, s: State)
    ensures InResumeStream(s.cpc) ==> var c := ResumeStreamStep(cfg, s).cpc; InCall(c) || InFailPause(c)
    ensures InResumeEvent(s.cpc) ==> var c := ResumeEventStep(cfg, s).cpc; c.CIdle? || InCall(c) || InFailPause(c)
  {
  }

  lemma ControlStays(cfg: Config, s: State, cmd: Command)
    requires Good(cfg, s) && InCall(s.cpc)
    ensures var c := ControlStep(cfg, s, cmd).cpc; c.CIdle? || InCall(c)
  {
    PauseStays(cfg, s);
    ResumeStays(cfg, s);
    ControlKeepsLinked(cfg, s, cmd);
    ControlKeepsHand(cfg, s, cmd);
    NoErrorPath(cfg, ControlStep(cfg, s, cmd));
  }

  lemma BlockedStutters(cfg: Config, s: State, cmd: Command)
    requires InCall(s.cpc) && ControlBlocked(s)
    ensures ControlStep(cfg, s, cmd) == s
  {
  }

  /** What one move does to a call: the mover brings it on, and no other move sets it back. */
  predicate Onward(cfg: Config, s: State, t: State, who: Actor) {
    || CallRank(t.cpc) < CallRank(s.cpc)
    || (t.cpc == s.cpc && Left(cfg, t) < Left(cfg, s))
    || (t.cpc == s.cpc && Left(cfg, t) == Left(cfg, s) && Mover(t) == Mover(s) && who != Mover(s))
  }

  lemma ControlOnward(cfg: Config, s: State, cmd: Command)
    requires Good(cfg, s) && InCall(s.cpc)
    ensures Onward(cfg, s, ControlStep(cfg, s, cmd), ControlActor)
  {
    if ControlBlocked(s) {
      BlockedStutters(cfg, s, cmd);
    } else {
      CallAdvances(cfg, s, cmd);
    }
  }

  lemma WaitOnward(cfg: Config, s: State, m: Move)
    requires Good(cfg, s) && ControlBlocked(s) && !m.Control?
    ensures Step(cfg, s, m).cpc == s.cpc && Onward(cfg, s, Step(cfg, s, m), ActorOf(m))
  {
    WaitMove(cfg, s, m);
    BlockedRank(cfg, s, Choice(0, Success, false));
  }

  lemma OtherOnward(cfg: Config, s: State, m: Move)
    requires Good(cfg, s) && InCall(s.cpc) && !ControlBlocked(s) && !m.Control?
    ensures Step(cfg, s, m).cpc == s.cpc && Onward(cfg, s, Step(cfg, s, m), ActorOf(m))
  {
    if Waits(s.cpc) {
      ReplyStays(cfg, s, m);
    }
  }

  lemma CallMove(cfg: Config, s: State, m: Move) returns (t: State)
    requires Good(cfg, s) && InCall(s.cpc)
    ensures t == Step(cfg, s, m) && Good(cfg, t)
    ensures (t.cpc.CIdle? || InCall(t.cpc)) && Onward(cfg, s, t, ActorOf(m))
  {
    t := Step(cfg, s, m);
    StepKeepsLinked(cfg, s, m);
    StepKeepsHand(cfg, s, m);
    match m
    case Control(cmd) =>
      ControlStays(cfg, s, cmd);
      ControlOnward(cfg, s, cmd);
    case _ =>
      if ControlBlocked(s) {
        WaitOnward(cfg, s, m);
      } else {
        OtherOnward(cfg, s, m);
      }
  }

  /** The call that is in progress at time `n` has returned at time `m`. */
  ghost predicate Returned(run: Endless, n: nat, m: nat) {
    && n <= m && run.states(m).cpc.CIdle?
    && forall k :: n <= k < m ==> InCall(run.states(k).cpc)
  }

  lemma NextOf(cfg: Config, run: Endless, n: nat, who: Actor) returns (m: nat)
    requires Fair(cfg, run) && !who.ExternalActor?
    ensures n <= m && IsMoveOf(run, m, who)
  {
    assert Later(run, n, who);
    m :| n <= m && IsMoveOf(run, m, who);
  }

  lemma ReturnedLater(run: Endless, n: nat, m: nat)
    requires InCall(run.states(n).cpc)
    requires if m == n + 1 then run.states(m).cpc.CIdle? else Returned(run, n + 1, m)
    ensures Returned(run, n, m)
  {
  }

  /** What is left of the call at time `n`, and the time of the next move that brings it on. */
  ghost predicate At(cfg: Config, run: Endless, n: nat, rank: nat, left: nat, next: nat) {
    var s := run.states(n);
    && InCall(s.cpc) && rank == CallRank(s.cpc) && left == Left(cfg, s)
    && n <= next && IsMoveOf(run, next, Mover(s))
  }

  lemma AtStart(cfg: Config, run: Endless, n: nat) returns (rank: nat, left: nat, next: nat)
    requires Fair(cfg, run) && InCall(run.states(n).cpc)
    ensures At(cfg, run, n, rank, left, next)
  {
    var s := run.states(n);
    rank, left := CallRank(s.cpc), Left(cfg, s);
    next := NextOf(cfg, run, n, Mover(s));
  }

  lemma OnwardAt(cfg: Config, c: Context, run: Endless, n: nat) returns (s: State, t: State)
    requires ErrorFree(cfg) && IsRun(cfg, run) && run.states(0) == Initial(c) && InCall(run.states(n).cpc)
    ensures s == run.states(n) && t == run.states(n + 1)
    ensures (t.cpc.CIdle? || InCall(t.cpc)) && Onward(cfg, s, t, ActorOf(run.moves(n)))
  {
    GoodAt(cfg, c, run, n);
    assert StepAt(cfg, run, n);
    s := run.states(n);
    t := CallMove(cfg, s, run.moves(n));
  }

  /** One move later the call has returned, or less is left of it, or its next move is nearer. */
  lemma AtNext(cfg: Config, c: Context, run: Endless, n: nat, rank: nat, left: nat, next: nat)
    returns (idle: bool, rank': nat, left': nat, next': nat)
    requires ErrorFree(cfg) && Fair(cfg, run) && run.states(0) == Initial(c)
    requires At(cfg, run, n, rank, left, next)
    ensures InCall(run.states(n).cpc)
    ensures if idle then run.states(n + 1).cpc.CIdle? else At(cfg, run, n + 1, rank', left', next')
    ensures !idle ==>
      rank' < rank || (rank' == rank && left' < left) || (rank' == rank && left' == left && next' == next && n < next)
  {
    var s, t := OnwardAt(cfg, c, run, n);
    idle, rank', left', next' := t.cpc.CIdle?, CallRank(t.cpc), Left(cfg, t), next;
    if !idle && (rank' != rank || left' != left) {
      next' := NextOf(cfg, run, n + 1, Mover(t));
    }
  }

  lemma {:induction false} CallEnds(cfg: Config, c: Context, run: Endless, n: nat, rank: nat, left: nat, next: nat)
    returns (m: nat)
    requires ErrorFree(cfg) && Fair(cfg, run) && run.states(0) == Initial(c)
    requires At(cfg, run, n, rank, left, next)
    ensures Returned(run, n, m)
    decreases rank, left, next - n
  {
    var idle, rank', left', next' := AtNext(cfg, c, run, n, rank, left, next);
    if idle {
      m := n + 1;
    } else {
      m := CallEnds(cfg, c, run, n + 1, rank', left', next');
    }
    ReturnedLater(run, n, m);
  }

  /** In every fair error-free run every pause and every resume returns. */
  lemma CallReturns(cfg: Config, c: Context, run: Endless, n: nat) returns (m: nat)
    requires ErrorFree(cfg) && Fair(cfg, run) && run.states(0) == Initial(c) && InCall(run.states(n).cpc)
    ensures Returned(run, n, m)
  {
    var rank, left, next := AtStart(cfg, run, n);
    m := CallEnds(cfg, c, run, n, rank, left, next);
  }

  // ---------------------------------------------------------------------- stop

  /** What is left of a call of stop: its statements up to the joins, the moves of the two threads, the joins. */
  datatype Rest = Rest(posts: nat, event: nat, stream: nat, joins: nat)

  function RestOf(cfg: Config, s: State): Rest {
    var joining := InStopJoin(s.cpc);
    Rest(StatementsLeft(s.cpc),
         if joining && !s.epc.EDone? then EventRank(cfg, s.epc) else 0,
         if joining && !s.spc.SDone? then StreamRank(s.spc) else 0,
         JoinsLeft(s.cpc))
  }

  function StopMover(s: State): Actor {
    if !InStopJoin(s.cpc) then ControlActor
    else if !s.epc.EDone? then EventActor
    else if !s.spc.SDone? then StreamActor
    else ControlActor
  }

  predicate Shorter(a: Rest, b: Rest) {
    || a.posts < b.posts
    || (a.posts == b.posts && a.event < b.event)
    || (a.posts == b.posts && a.event == b.event && a.stream < b.stream)
    || (a.posts == b.posts && a.event == b.event && a.stream == b.stream && a.joins < b.joins)
  }

  predicate StopOnward(cfg: Config, s: State, t: State, who: Actor) {
    || Shorter(RestOf(cfg, t), RestOf(cfg, s))
    || (RestOf(cfg, t) == RestOf(cfg, s) && StopMover(t) == StopMover(s) && who != StopMover(s))
  }

  lemma PostsOnward(cfg: Config, s: State, m: Move) returns (t: State)
    requires Stopped(cfg, s) && !InStopJoin(s.cpc)
    ensures t == Step(cfg, s, m) && StopOnward(cfg, s, t, ActorOf(m))
  {
    t := PostsMove(cfg, s, m);
  }

  lemma JoinOnward(cfg: Config, s: State, m: Move) returns (t: State)
    requires Stopped(cfg, s) && InStopJoin(s.cpc) && !s.cpc.CStopped?
    ensures t == Step(cfg, s, m) && StopOnward(cfg, s, t, ActorOf(m))
  {
    t := Step(cfg, s, m);
    EventMove(cfg, s, m);
    StreamMove(cfg, s, m);
    JoinMove(cfg, s, m);
    RankZero(cfg, s);
  }

  lemma StoppedNext(cfg: Config, run: Endless, n: nat)
    requires StepAt(cfg, run, n) && Stopped(cfg, run.states(n))
    ensures Stopped(cfg, run.states(n + 1))
  {
    StepKeepsStopped(cfg, run.states(n), run.moves(n));
  }

  lemma {:induction false} StoppedAt(cfg: Config, run: Endless, n: nat)
    requires IsRun(cfg, run) && Stopped(cfg, run.states(0))
    ensures Stopped(cfg, run.states(n))
  {
    if n > 0 {
      StoppedAt(cfg, run, n - 1);
      assert StepAt(cfg, run, n - 1);
      StoppedNext(cfg, run, n - 1);
    }
  }

  /** What is left of the call of stop at time `n`, and the time of the next move that brings it on. */
  ghost predicate StopAt(cfg: Config, run: Endless, n: nat, rest: Rest, next: nat) {
    var s := run.states(n);
    !s.cpc.CStopped? && rest == RestOf(cfg, s) && n <= next && IsMoveOf(run, next, StopMover(s))
  }

  lemma StopOnwardAt(cfg: Config, run: Endless, n: nat) returns (s: State, t: State)
    requires IsRun(cfg, run) && Stopped(cfg, run.states(0)) && !run.states(n).cpc.CStopped?
    ensures s == run.states(n) && t == run.states(n + 1)
    ensures StopOnward(cfg, s, t, ActorOf(run.moves(n)))
  {
    StoppedAt(cfg, run, n);
    assert StepAt(cfg, run, n);
    s := run.states(n);
    if InStopJoin(s.cpc) {
      t := JoinOnward(cfg, s, run.moves(n));
    } else {
      t := PostsOnward(cfg, s, run.moves(n));
    }
  }

  lemma StopNext(cfg: Config, run: Endless, n: nat, rest: Rest, next: nat)
    returns (stopped: bool, rest': Rest, next': nat)
    requires Stopped(cfg, run.states(0)) && Fair(cfg, run) && StopAt(cfg, run, n, rest, next)
    ensures if stopped then run.states(n + 1).cpc.CStopped? else StopAt(cfg, run, n + 1, rest', next')
    ensures !stopped ==> Shorter(rest', rest) || (rest' == rest && next' == next && n < next)
  {
    var s, t := StopOnwardAt(cfg, run, n);
    stopped, rest', next' := t.cpc.CStopped?, RestOf(cfg, t), next;
    if !stopped && rest' != rest {
      next' := NextOf(cfg, run, n + 1, StopMover(t));
    }
  }

  lemma {:induction false} StopEndsAt(cfg: Config, run: Endless, n: nat, rest: Rest, next: nat) returns (m: nat)
    requires Stopped(cfg, run.states(0)) && Fair(cfg, run) && StopAt(cfg, run, n, rest, next)
    ensures run.states(m).cpc.CStopped?
    decreases rest.posts, rest.event, rest.stream, rest.joins, next - n
  {
    var stopped, rest', next' := StopNext(cfg, run, n, rest, next);
    m := n + 1;
    if !stopped {
      m := StopEndsAt(cfg, run, n + 1, rest', next');
    }
  }

  /** From every state in which the event thread is not at work on another queue than the current one: in every
      fair run, errors included, the call of stop returns, with both threads ended and the pointer null. */
  lemma StopCallReturns(cfg: Config, run: Endless) returns (m: nat)
    requires Fair(cfg, run) && MayStop(cfg, run.states(0))
    ensures var t := run.states(m);
            t.cpc.CStopped? && t.epc.EDone? && t.spc.SDone? && t.current.None?
  {
    StartsStopped(cfg, run.states(0));
    var next := NextOf(cfg, run, 0, StopMover(run.states(0)));
    m := StopEndsAt(cfg, run, 0, RestOf(cfg, run.states(0)), next);
    StoppedAt(cfg, run, m);
  }
}
