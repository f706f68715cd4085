/** The POSIX runtime as a state machine: a controller (the application thread that calls
    pause, resume and stop), the stream thread, the event thread and an external environment.
    One move is one shared-memory access of one actor, so a sequence of moves is an
    interleaving and every interleaving is such a sequence. */
module RuntimeModel {

  /* Contexts and event queues are named by numbers. */
  type Context = nat
  type QueueId = nat

  datatype Option<T> = None | Some(value: T)

  /** `length` is scheduler_length and `queueOf` the evtQueue of a context: two contexts may share
      a queue. `budget` bounds the event pushes of one node or handler call (calls return).
      `errors` lets nodes, handlers and full queues fail; `external` lets threads that do not
      belong to the runtime push events. */
  datatype Config = Config(length: Context -> nat, queueOf: Context -> QueueId,
                           budget: nat, errors: bool, external: bool)

  /** cg_streamEvent: messages to the two threads. */
  datatype StreamWord = StreamWord(pause: bool, resume: bool, evResume: bool, done: bool)

  /** cg_streamReplyEvent: messages from the two threads. */
  datatype ReplyWord = ReplyWord(sPaused: bool, sResumed: bool, ePaused: bool, eResumed: bool)

  const NO_MESSAGE := StreamWord(false, false, false, false)
  const NO_REPLY := ReplyWord(false, false, false, false)

  /** One event queue: the two request flags, the pending error, the sticky wake-up flag and the
      number of messages in the three rings. */
  datatype QueueState = QueueState(mustPause: bool, mustEnd: bool, errPending: bool, wake: bool, count: nat)

  /** What a call of the generated scheduler reports. */
  datatype Outcome = Success | RuntimeError | StopScheduler | PausedScheduler

  /** Program counter of the event thread. */
  datatype EventPc =
    | ELoad
    | EOuterEnd | EOuterPause | EInnerEnd | EInnerPause | EInnerEmpty | EPop
    | EHandle(k: nat) | EPushPause(k: nat) | EPushEnd(k: nat) | EPushInsert(k: nat) | EPushNotify(k: nat)
    | EErrPending(k: nat, last: bool) | EErrPause(k: nat, last: bool) | EErrNotify(k: nat, last: bool)
    | EExitEnd | EExitPause | EWait
    | EAfterEnd | EConsume | EPeerPost | EPeerWait | EPauseNodes | EReport
    | EStopCheck | EPostPaused | EResumeWait | EPostResumed | EDone

  /** Program counter of the stream thread. */
  datatype StreamPc =
    | SLoad | SPoll
    | SNode(k: nat) | SPushPause(k: nat) | SPushEnd(k: nat) | SPushInsert(k: nat) | SPushNotify(k: nat)
    | SErrPending(k: nat) | SErrPause(k: nat) | SErrNotify(k: nat)
    | SQueuePause | SQueueNotify | SPauseAll(failed: bool) | SWaitEvent | SReport | SStopCheck
    | SPostPaused | SResumeWait | SResumeStop | SReload | SReset | SResumeAll | SPostResumed
    | SLoopStop | SDone

  /** Program counter of the controller; `paused` records that the last call was a pause that returned. */
  datatype ControlPc =
    | CIdle(paused: bool)
    | PPause | PNotify | PPost | PWaitStream | PWaitEvent | PClear
    | RSet(target: Context) | RUnpause | RClearError | RPostStream | RWaitStream | RPostEvent | RWaitEvent | RClear
    | RFailPause(byEvent: bool) | RFailNotify(byEvent: bool) | RFailReport(byEvent: bool) | RFailPost | RFailWait
    | TFlag | TEnd | TNotify | TPostStream | TPostReply | TJoinEvent | TJoinStream | TNull | CStopped

  /** What the application can observe of the contexts' nodes. */
  datatype Visible =
    | NodeRun(c: Context) | HandlerRun(c: Context)
    | PauseAll(c: Context) | ResetFifos(c: Context) | ResumeAll(c: Context)

  datatype State = State(
    se: StreamWord, re: ReplyWord, current: Option<Context>, stop: bool,
    queues: map<QueueId, QueueState>,
    epc: EventPc, eCtx: Context, eErr: bool,
    spc: StreamPc, sCtx: Context, sNew: Context,
    cpc: ControlPc, log: seq<Visible>)

  /** How an actor resolves what the code leaves open: the pushes of a call, its result, a failure. */
  datatype Choice = Choice(k: nat, outcome: Outcome, flag: bool)

  datatype Command = StartPause | StartResume(target: Context) | StartStop

  datatype Move =
    | Control(cmd: Command)
    | Stream(ch: Choice)
    | Event(ch: Choice)
    | External(q: QueueId, eff: Effect)

  /** What a thread outside the runtime can do to a queue it pushes to. */
  datatype Effect = XInsert | XNotify | XErrPending | XErrPause

  const FRESH_QUEUE := QueueState(false, false, false, false, 0)

  function QueueAt(s: State, q: QueueId): QueueState {
    if q in s.queues then s.queues[q] else FRESH_QUEUE
  }

  function Initial(c: Context): State {
    State(NO_MESSAGE, NO_REPLY, Some(c), false, map[], ELoad, c, false, SLoad, c, c, CIdle(false), [])
  }

  function Clip(k: nat, bound: nat): nat {
    if k <= bound then k else bound
  }

  // ------------------------------------------------- what each actor may change

  predicate EventOnly(cfg: Config, s: State, t: State) {
    && t.cpc == s.cpc && t.spc == s.spc && t.sCtx == s.sCtx && t.sNew == s.sNew
    && t.current == s.current && t.stop == s.stop
    && t.se.resume == s.se.resume && t.se.done == s.se.done
    && t.re.sResumed == s.re.sResumed && (t.re.sPaused ==> s.re.sPaused)
    && (s.re.ePaused ==> t.re.ePaused) && (s.re.eResumed ==> t.re.eResumed)
    && (t.log == s.log || (InTake(s.epc) && t.log == s.log + [HandlerRun(s.eCtx)])
        || (cfg.length(s.eCtx) == 0 && t.log == s.log + [PauseAll(s.eCtx)]))
  }

  predicate StreamOnly(s: State, t: State) {
    && t.cpc == s.cpc && t.epc == s.epc && t.eCtx == s.eCtx && t.eErr == s.eErr
    && t.current == s.current && t.stop == s.stop
    && t.se.evResume == s.se.evResume
    && t.re.eResumed == s.re.eResumed && (t.re.ePaused ==> s.re.ePaused)
    && (s.re.sPaused ==> t.re.sPaused) && (s.re.sResumed ==> t.re.sResumed)
  }

  predicate ControlOnly(s: State, t: State) {
    && t.epc == s.epc && t.eCtx == s.eCtx && t.eErr == s.eErr
    && t.spc == s.spc && t.sCtx == s.sCtx && t.sNew == s.sNew && t.log == s.log
  }

  // ------------------------------------------------------------------ event thread

  /** The tests of the two nested loops of execute(). */
  predicate InLoopTest(e: EventPc) {
    e.EOuterEnd? || e.EOuterPause? || e.EInnerEnd? || e.EInnerPause? || e.EInnerEmpty?
  }

  function LoopTestStep(cfg: Config, s: State): (t: State)
    ensures EventOnly(cfg, s, t)
  {
    var v := QueueAt(s, cfg.queueOf(s.eCtx));
    match s.epc
    case EOuterEnd => s.(epc := if v.mustEnd then EAfterEnd else EOuterPause)
    case EOuterPause => s.(epc := if v.mustPause then EAfterEnd else EInnerEnd)
    case EInnerEnd => s.(epc := if v.mustEnd then EExitEnd else EInnerPause)
    case EInnerPause => s.(epc := if v.mustPause then EExitEnd else EInnerEmpty)
    case EInnerEmpty => s.(epc := if v.count == 0 then EExitEnd else EPop)
    case _ => s
  }

  /** Taking a message, and leaving the inner loop to return or to wait. */
  predicate InTake(e: EventPc) {
    e.EPop? || e.EExitEnd? || e.EExitPause? || e.EWait?
  }

  function TakeStep(cfg: Config, s: State, ch: Choice): (t: State)
    ensures EventOnly(cfg, s, t)
  {
    var q := cfg.queueOf(s.eCtx);
    var v := QueueAt(s, q);
    match s.epc
    case EPop =>
      if v.count == 0 then s.(epc := EInnerEnd)
      else if ch.flag then // the message has expired
        s.(queues := s.queues[q := v.(count := v.count - 1)], epc := EInnerEnd)
      else
        s.(queues := s.queues[q := v.(count := v.count - 1)], epc := EHandle(Clip(ch.k, cfg.budget)),
           log := s.log + [HandlerRun(s.eCtx)])
    case EExitEnd => s.(epc := if v.mustEnd then EAfterEnd else EExitPause)
    case EExitPause => s.(epc := if v.mustPause then EAfterEnd else EWait)
    case EWait => if v.wake then s.(queues := s.queues[q := v.(wake := false)], epc := EOuterEnd) else s
    case _ => s
  }

  /** An event handler and the events it pushes. */
  predicate InHandler(e: EventPc) {
    e.EHandle? || e.EPushPause? || e.EPushEnd? || e.EPushInsert? || e.EPushNotify?
  }

  function HandlerStep(cfg: Config, s: State, ch: Choice): (t: State)
    ensures EventOnly(cfg, s, t)
  {
    var q := cfg.queueOf(s.eCtx);
    var v := QueueAt(s, q);
    match s.epc
    case EHandle(k) =>
      if k > 0 then s.(epc := EPushPause(k - 1))
      else if cfg.errors && ch.flag then s.(epc := EErrPending(0, true))
      else s.(epc := EInnerEnd)
    case EPushPause(k) => s.(epc := if v.mustPause then EHandle(k) else EPushEnd(k))
    case EPushEnd(k) => s.(epc := if v.mustEnd then EHandle(k) else EPushInsert(k))
    case EPushInsert(k) =>
      if cfg.errors && ch.flag then s.(epc := EErrPending(k, false))
      else s.(queues := s.queues[q := v.(count := v.count + 1)], epc := EPushNotify(k))
    case EPushNotify(k) => s.(queues := s.queues[q := v.(wake := true)], epc := EHandle(k))
    case _ => s
  }

  /** setError, called after a failed handler (`last`) or by a push into a full queue. */
  predicate InHandlerError(e: EventPc) {
    e.EErrPending? || e.EErrPause? || e.EErrNotify?
  }

  function HandlerErrorStep(cfg: Config, s: State): (t: State)
    ensures EventOnly(cfg, s, t)
  {
    var q := cfg.queueOf(s.eCtx);
    var v := QueueAt(s, q);
    match s.epc
    case EErrPending(k, last) => s.(queues := s.queues[q := v.(errPending := true)], epc := EErrPause(k, last))
    case EErrPause(k, last) => s.(queues := s.queues[q := v.(mustPause := true)], epc := EErrNotify(k, last))
    case EErrNotify(k, last) =>
      s.(queues := s.queues[q := v.(wake := true)], epc := if last then EInnerEnd else EPushNotify(k))
    case _ => s
  }

  /** event_thread_function after execute() has returned: ending, or pausing the peer after an error. */
  predicate InReturn(e: EventPc) {
    e.EAfterEnd? || e.EConsume? || e.EPeerPost? || e.EPeerWait?
  }

  function ReturnStep(cfg: Config, s: State): (t: State)
    ensures EventOnly(cfg, s, t)
  {
    var q := cfg.queueOf(s.eCtx);
    var v := QueueAt(s, q);
    match s.epc
    case EAfterEnd => s.(epc := if v.mustEnd then EDone else EConsume)
    case EConsume =>
      s.(queues := s.queues[q := v.(errPending := false)], eErr := v.errPending,
         epc := if v.errPending && cfg.length(s.eCtx) > 0 then EPeerPost else EPauseNodes)
    case EPeerPost => s.(se := s.se.(pause := true), epc := EPeerWait)
    case EPeerWait => if s.re.sPaused then s.(re := s.re.(sPaused := false), epc := EPauseNodes) else s
    case _ => s
  }

  /** Reporting and posting the reply. */
  predicate InEventReply(e: EventPc) {
    e.EPauseNodes? || e.EReport? || e.EStopCheck? || e.EPostPaused?
  }

  function EventReplyStep(cfg: Config, s: State): (t: State)
    ensures EventOnly(cfg, s, t)
  {
    match s.epc
    case EPauseNodes =>
      s.(epc := EReport, log := if cfg.length(s.eCtx) == 0 then s.log + [PauseAll(s.eCtx)] else s.log)
    case EReport => s.(epc := EStopCheck)
    case EStopCheck => s.(epc := if s.stop then EDone else EPostPaused)
    case EPostPaused => s.(re := s.re.(ePaused := true), epc := EResumeWait)
    case _ => s
  }

  /** Being resumed, and the top of the loop. */
  predicate InEventWake(e: EventPc) {
    e.EResumeWait? || e.EPostResumed? || e.ELoad?
  }

  function EventWakeStep(cfg: Config, s: State): (t: State)
    ensures EventOnly(cfg, s, t)
  {
    match s.epc
    case EResumeWait => if s.se.evResume then s.(se := s.se.(evResume := false), epc := EPostResumed) else s
    case EPostResumed => s.(re := s.re.(eResumed := true), epc := ELoad)
    case ELoad => if s.current.Some? then s.(epc := EOuterEnd, eCtx := s.current.value) else s
    case _ => s
  }

  function EventStep(cfg: Config, s: State, ch: Choice): (t: State)
    ensures EventOnly(cfg, s, t)
  {
    if InLoopTest(s.epc) then LoopTestStep(cfg, s)
    else if InTake(s.epc) then TakeStep(cfg, s, ch)
    else if InHandler(s.epc) then HandlerStep(cfg, s, ch)
    else if InHandlerError(s.epc) then HandlerErrorStep(cfg, s)
    else if InReturn(s.epc) then ReturnStep(cfg, s)
    else if InEventReply(s.epc) then EventReplyStep(cfg, s)
    else if InEventWake(s.epc) then EventWakeStep(cfg, s)
    else s
  }

  // ----------------------------------------------------------------- stream thread

  /** How stream_thread_function classifies the result of a scheduler call. */
  function AfterScheduler(length: nat, outcome: Outcome): StreamPc {
    match outcome
    case RuntimeError => SQueuePause
    case StopScheduler => if length > 0 then SQueuePause else SResumeWait
    case PausedScheduler => if length > 0 then SPauseAll(false) else SResumeWait
    case Success => SDone
  }

  /** The bottom and the top of the loop of stream_thread_function. */
  predicate InStreamLoop(p: StreamPc) {
    p.SLoopStop? || p.SLoad?
  }

  function StreamLoopStep(s: State): (t: State)
    ensures StreamOnly(s, t)
  {
    match s.spc
    case SLoopStop => s.(spc := if s.stop then SDone else SLoad)
    case SLoad => if s.current.Some? then s.(spc := SPoll, sCtx := s.current.value) else s
    case _ => s
  }

  /** The generated scheduler: the polling hook before each node, and the nodes. */
  predicate InScheduler(p: StreamPc) {
    p.SPoll? || p.SNode?
  }

  function SchedulerStep(cfg: Config, s: State, ch: Choice): (t: State)
    ensures StreamOnly(s, t)
  {
    match s.spc
    case SPoll =>
      if cfg.length(s.sCtx) == 0 then s.(spc := AfterScheduler(0, ch.outcome))
      else if s.se.done || s.se.pause then
        s.(se := s.se.(pause := false, done := false),
           spc := AfterScheduler(cfg.length(s.sCtx), if s.se.done then StopScheduler else PausedScheduler))
      else s.(spc := SNode(Clip(ch.k, cfg.budget)), log := s.log + [NodeRun(s.sCtx)])
    case SNode(k) =>
      if k > 0 then s.(spc := SPushPause(k - 1))
      else if cfg.errors && ch.flag then s.(spc := AfterScheduler(cfg.length(s.sCtx), ch.outcome))
      else s.(spc := SPoll)
    case _ => s
  }

  /** A node pushing an event. */
  predicate InNodePush(p: StreamPc) {
    p.SPushPause? || p.SPushEnd? || p.SPushInsert? || p.SPushNotify?
  }

  function NodePushStep(cfg: Config, s: State, ch: Choice): (t: State)
    ensures StreamOnly(s, t)
  {
    var q := cfg.queueOf(s.sCtx);
    var v := QueueAt(s, q);
    match s.spc
    case SPushPause(k) => s.(spc := if v.mustPause then SNode(k) else SPushEnd(k))
    case SPushEnd(k) => s.(spc := if v.mustEnd then SNode(k) else SPushInsert(k))
    case SPushInsert(k) =>
      if cfg.errors && ch.flag then s.(spc := SErrPending(k))
      else s.(queues := s.queues[q := v.(count := v.count + 1)], spc := SPushNotify(k))
    case SPushNotify(k) => s.(queues := s.queues[q := v.(wake := true)], spc := SNode(k))
    case _ => s
  }

  /** setError, called by the push of a node into a full queue. */
  predicate InNodeError(p: StreamPc) {
    p.SErrPending? || p.SErrPause? || p.SErrNotify?
  }

  function NodeErrorStep(cfg: Config, s: State): (t: State)
    ensures StreamOnly(s, t)
  {
    var q := cfg.queueOf(s.sCtx);
    var v := QueueAt(s, q);
    match s.spc
    case SErrPending(k) => s.(queues := s.queues[q := v.(errPending := true)], spc := SErrPause(k))
    case SErrPause(k) => s.(queues := s.queues[q := v.(mustPause := true)], spc := SErrNotify(k))
    case SErrNotify(k) => s.(queues := s.queues[q := v.(wake := true)], spc := SPushNotify(k))
    case _ => s
  }

  /** stream_thread_function after the scheduler has returned. */
  predicate InStreamPause(p: StreamPc) {
    p.SQueuePause? || p.SQueueNotify? || p.SPauseAll? || p.SWaitEvent?
  }

  function StreamPauseStep(cfg: Config, s: State): (t: State)
    ensures StreamOnly(s, t)
  {
    var q := cfg.queueOf(s.sCtx);
    var v := QueueAt(s, q);
    match s.spc
    case SQueuePause => s.(queues := s.queues[q := v.(mustPause := true)], spc := SQueueNotify)
    case SQueueNotify => s.(queues := s.queues[q := v.(wake := true)], spc := SPauseAll(true))
    case SPauseAll(failed) =>
      s.(spc := if failed then SWaitEvent else SPostPaused,
         log := if cfg.length(s.sCtx) > 0 then s.log + [PauseAll(s.sCtx)] else s.log)
    case SWaitEvent => if s.re.ePaused then s.(re := s.re.(ePaused := false), spc := SReport) else s
    case _ => s
  }

  /** Reporting, posting the reply and parking. */
  predicate InStreamReply(p: StreamPc) {
    p.SReport? || p.SStopCheck? || p.SPostPaused? || p.SResumeWait?
  }

  function StreamReplyStep(s: State): (t: State)
    ensures StreamOnly(s, t)
  {
    match s.spc
    case SReport => s.(spc := SStopCheck)
    case SStopCheck => s.(spc := if s.stop then SLoopStop else SPostPaused)
    case SPostPaused => s.(re := s.re.(sPaused := true), spc := SResumeWait)
    case SResumeWait => if s.se.resume then s.(se := s.se.(resume := false), spc := SResumeStop) else s
    case _ => s
  }

  /** Preparing the new context. */
  predicate InStreamWake(p: StreamPc) {
    p.SResumeStop? || p.SReload? || p.SReset? || p.SResumeAll? || p.SPostResumed?
  }

  function StreamWakeStep(s: State): (t: State)
    ensures StreamOnly(s, t)
  {
    match s.spc
    case SResumeStop => s.(spc := if s.stop then SLoopStop else SReload)
    case SReload => if s.current.Some? then s.(spc := SReset, sNew := s.current.value) else s
    case SReset => s.(spc := SResumeAll, log := s.log + [ResetFifos(s.sNew)])
    case SResumeAll => s.(spc := SPostResumed, log := s.log + [ResumeAll(s.sNew)])
    case SPostResumed => s.(re := s.re.(sResumed := true), spc := SLoopStop)
    case _ => s
  }

  function StreamStep(cfg: Config, s: State, ch: Choice): (t: State)
    ensures StreamOnly(s, t)
  {
    if InStreamLoop(s.spc) then StreamLoopStep(s)
    else if InScheduler(s.spc) then SchedulerStep(cfg, s, ch)
    else if InNodePush(s.spc) then NodePushStep(cfg, s, ch)
    else if InNodeError(s.spc) then NodeErrorStep(cfg, s)
    else if InStreamPause(s.spc) then StreamPauseStep(cfg, s)
    else if InStreamReply(s.spc) then StreamReplyStep(s)
    else if InStreamWake(s.spc) then StreamWakeStep(s)
    else s
  }

  // -------------------------------------------------------------------- controller

  /** The queue of the current context; a controller only looks at it while there is one. */
  function CurrentQueue(cfg: Config, s: State): QueueId {
    if s.current.Some? then cfg.queueOf(s.current.value) else 0
  }

  function CurrentLength(cfg: Config, s: State): nat {
    if s.current.Some? then cfg.length(s.current.value) else 0
  }

  /** The evtQueue->pause() of stream_pause_current_scheduler. */
  predicate InQueuePause(c: ControlPc) {
    c.PPause? || c.PNotify?
  }

  function QueuePauseStep(cfg: Config, s: State): (t: State)
    ensures ControlOnly(s, t)
  {
    var q := CurrentQueue(cfg, s);
    var v := QueueAt(s, q);
    match s.cpc
    case PPause => s.(queues := s.queues[q := v.(mustPause := true)], cpc := PNotify)
    case PNotify =>
      s.(queues := s.queues[q := v.(wake := true)], cpc := if CurrentLength(cfg, s) > 0 then PPost else PWaitEvent)
    case _ => s
  }

  /** stream_pause_current_scheduler after the queue was asked to pause. */
  predicate InPauseWait(c: ControlPc) {
    c.PPost? || c.PWaitStream? || c.PWaitEvent? || c.PClear?
  }

  function PauseWaitStep(cfg: Config, s: State): (t: State)
    ensures ControlOnly(s, t)
  {
    var q := CurrentQueue(cfg, s);
    var v := QueueAt(s, q);
    match s.cpc
    case PPost => s.(se := s.se.(pause := true), cpc := PWaitStream)
    case PWaitStream => if s.re.sPaused then s.(re := s.re.(sPaused := false), cpc := PWaitEvent) else s
    case PWaitEvent => if s.re.ePaused then s.(re := s.re.(ePaused := false), cpc := PClear) else s
    case PClear => s.(queues := s.queues[q := v.(count := 0)], cpc := CIdle(true))
    case _ => s
  }

  /** stream_resume_scheduler up to the reply of the stream thread. */
  predicate InResumeStream(c: ControlPc) {
    c.RSet? || c.RUnpause? || c.RClearError? || c.RPostStream? || c.RWaitStream?
  }

  function ResumeStreamStep(cfg: Config, s: State): (t: State)
    ensures ControlOnly(s, t)
  {
    var q := CurrentQueue(cfg, s);
    var v := QueueAt(s, q);
    match s.cpc
    case RSet(c) => s.(current := Some(c), cpc := RUnpause)
    case RUnpause => s.(queues := s.queues[q := v.(mustPause := false)], cpc := RClearError)
    case RClearError => s.(queues := s.queues[q := v.(errPending := false)], cpc := RPostStream)
    case RPostStream => s.(se := s.se.(resume := true), cpc := RWaitStream)
    case RWaitStream =>
      if s.re.sPaused || s.re.sResumed then
        s.(re := s.re.(sPaused := false, sResumed := false),
           cpc := if s.re.sPaused then RFailPause(false) else RPostEvent)
      else s
    case _ => s
  }

  /** stream_resume_scheduler from there on. */
  predicate InResumeEvent(c: ControlPc) {
    c.RPostEvent? || c.RWaitEvent? || c.RClear?
  }

  function ResumeEventStep(cfg: Config, s: State): (t: State)
    ensures ControlOnly(s, t)
  {
    var q := CurrentQueue(cfg, s);
    var v := QueueAt(s, q);
    match s.cpc
    case RPostEvent => s.(se := s.se.(evResume := true), cpc := RWaitEvent)
    case RWaitEvent =>
      if s.re.ePaused || s.re.eResumed then
        s.(re := s.re.(ePaused := false, eResumed := false),
           cpc := if s.re.ePaused then RFailPause(true) else RClear)
      else s
    case RClear => s.(re := s.re.(sPaused := false, ePaused := false), cpc := CIdle(false))
    case _ => s
  }

  /** The evtQueue->pause() of a resume that fails, `byEvent` when the event thread did not reply. */
  predicate InFailPause(c: ControlPc) {
    c.RFailPause? || c.RFailNotify?
  }

  function FailPauseStep(cfg: Config, s: State): (t: State)
    ensures ControlOnly(s, t)
  {
    var q := CurrentQueue(cfg, s);
    var v := QueueAt(s, q);
    match s.cpc
    case RFailPause(byEvent) => s.(queues := s.queues[q := v.(mustPause := true)], cpc := RFailNotify(byEvent))
    case RFailNotify(byEvent) => s.(queues := s.queues[q := v.(wake := true)], cpc := RFailReport(byEvent))
    case _ => s
  }

  /** The end of the two failure paths of stream_resume_scheduler. */
  predicate InResumeFail(c: ControlPc) {
    c.RFailReport? || c.RFailPost? || c.RFailWait?
  }

  function ResumeFailStep(cfg: Config, s: State): (t: State)
    ensures ControlOnly(s, t)
  {
    match s.cpc
    case RFailReport(byEvent) =>
      s.(cpc := if byEvent && CurrentLength(cfg, s) > 0 then RFailPost else CIdle(false))
    case RFailPost => s.(se := s.se.(pause := true), cpc := RFailWait)
    case RFailWait => if s.re.sPaused then s.(re := s.re.(sPaused := false), cpc := CIdle(false)) else s
    case _ => s
  }

  /** stream_stop_threads called by a thread that is not a runtime thread: the requests. */
  predicate InStopRequest(c: ControlPc) {
    c.TFlag? || c.TEnd? || c.TNotify?
  }

  function StopRequestStep(cfg: Config, s: State): (t: State)
    ensures ControlOnly(s, t)
  {
    var q := CurrentQueue(cfg, s);
    var v := QueueAt(s, q);
    match s.cpc
    case TFlag => s.(stop := true, cpc := TEnd)
    case TEnd => s.(queues := s.queues[q := v.(mustEnd := true)], cpc := TNotify)
    case TNotify => s.(queues := s.queues[q := v.(wake := true)], cpc := TPostStream)
    case _ => s
  }

  /** The wake-ups of stream_stop_threads. */
  predicate InStopPost(c: ControlPc) {
    c.TPostStream? || c.TPostReply?
  }

  function StopPostStep(s: State): (t: State)
    ensures ControlOnly(s, t)
  {
    match s.cpc
    case TPostStream => s.(se := s.se.(done := true, resume := true, evResume := true), cpc := TPostReply)
    case TPostReply => s.(re := ReplyWord(true, true, true, true), cpc := TJoinEvent)
    case _ => s
  }

  /** The two joins and the reset of the context pointer. */
  predicate InStopJoin(c: ControlPc) {
    c.TJoinEvent? || c.TJoinStream? || c.TNull? || c.CStopped?
  }

  function StopJoinStep(s: State): (t: State)
    ensures ControlOnly(s, t)
  {
    match s.cpc
    case TJoinEvent => if s.epc.EDone? then s.(cpc := TJoinStream) else s
    case TJoinStream => if s.spc.SDone? then s.(cpc := TNull) else s
    case TNull => s.(current := None, cpc := CStopped)
    case _ => s
  }

  /** The discipline of the application: a resume follows a pause that returned, a pause does not,
      and stop is called while no other call is in progress. */
  function IdleStep(s: State, cmd: Command): (t: State)
    ensures ControlOnly(s, t)
  {
    if !s.cpc.CIdle? then s else
    match cmd
    case StartPause => if s.cpc.paused then s else s.(cpc := PPause)
    case StartResume(c) => if s.cpc.paused then s.(cpc := RSet(c)) else s
    case StartStop => s.(cpc := TFlag)
  }

  function ControlStep(cfg: Config, s: State, cmd: Command): (t: State)
    ensures ControlOnly(s, t)
  {
    if InQueuePause(s.cpc) then QueuePauseStep(cfg, s)
    else if InPauseWait(s.cpc) then PauseWaitStep(cfg, s)
    else if InResumeStream(s.cpc) then ResumeStreamStep(cfg, s)
    else if InResumeEvent(s.cpc) then ResumeEventStep(cfg, s)
    else if InFailPause(s.cpc) then FailPauseStep(cfg, s)
    else if InResumeFail(s.cpc) then ResumeFailStep(cfg, s)
    else if InStopRequest(s.cpc) then StopRequestStep(cfg, s)
    else if InStopPost(s.cpc) then StopPostStep(s)
    else if InStopJoin(s.cpc) then StopJoinStep(s)
    else IdleStep(s, cmd)
  }

  // ------------------------------------------------------------------- environment

  /** The accesses of threads outside of the runtime may come at any moment here; RuntimeOutside follows
      their pushes statement by statement and refines this. */
  function ExternalStep(cfg: Config, s: State, q: QueueId, eff: Effect): State {
    var v := QueueAt(s, q);
    if !cfg.external then s else
    match eff
    case XInsert => s.(queues := s.queues[q := v.(count := v.count + 1)])
    case XNotify => s.(queues := s.queues[q := v.(wake := true)])
    case XErrPending => if cfg.errors then s.(queues := s.queues[q := v.(errPending := true)]) else s
    case XErrPause => if cfg.errors then s.(queues := s.queues[q := v.(mustPause := true)]) else s
  }

  /** One move. An actor that is blocked, or for which nothing is left to do, does not change the state. */
  function Step(cfg: Config, s: State, m: Move): State {
    match m
    case Control(cmd) => ControlStep(cfg, s, cmd)
    case Stream(ch) => StreamStep(cfg, s, ch)
    case Event(ch) => EventStep(cfg, s, ch)
    case External(q, eff) => ExternalStep(cfg, s, q, eff)
  }

  /** The state after a sequence of moves. */
  function Run(cfg: Config, s: State, moves: seq<Move>): State {
    if moves == [] then s else Step(cfg, Run(cfg, s, moves[..|moves| - 1]), moves[|moves| - 1])
  }

  // ---------------------------------------------------------------------- blocking

  /** The event thread cannot move: it waits for a flag that is down, or it has ended. */
  predicate EventBlocked(cfg: Config, s: State) {
    match s.epc
    case EWait => !QueueAt(s, cfg.queueOf(s.eCtx)).wake
    case EPeerWait => !s.re.sPaused
    case EResumeWait => !s.se.evResume
    case EDone => true
    case _ => false
  }

  predicate StreamBlocked(s: State) {
    match s.spc
    case SWaitEvent => !s.re.ePaused
    case SResumeWait => !s.se.resume
    case SDone => true
    case _ => false
  }

  predicate ControlBlocked(s: State) {
    match s.cpc
    case PWaitStream => !s.re.sPaused
    case PWaitEvent => !s.re.ePaused
    case RWaitStream => !s.re.sPaused && !s.re.sResumed
    case RWaitEvent => !s.re.ePaused && !s.re.eResumed
    case RFailWait => !s.re.sPaused
    case TJoinEvent => !s.epc.EDone?
    case TJoinStream => !s.spc.SDone?
    case CStopped => true
    case _ => false
  }
}
