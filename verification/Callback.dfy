/** The generated scheduler in callback mode: a node may pause it, the scheduler then returns to its caller,
    and the next call goes on from the same node. */
module Callback {
  import opened Periodic

  const CG_SUCCESS: int := 0
  const CG_PAUSED_SCHEDULER: int := -9

  datatype CbStatus = PausedScheduler | NotStarted | Running

  /** One call of run(): the node, whether it is told that it is resumed, and its status. A node that pauses
      has left the FIFOs and its state alone; any status that is not negative is that of an execution. */
  datatype Attempt = Attempt(node: nat, resumed: bool, code: int) {
    predicate Ran() {
      code >= 0
    }

    predicate Paused() {
      code == CG_PAUSED_SCHEDULER
    }
  }

  /** The effect of executions that are not interrupted. */
  function Uninterrupted<S>(exec: (nat, S) -> S, start: S, nodes: seq<nat>): S {
    if nodes == [] then start
    else exec(nodes[|nodes| - 1], Uninterrupted(exec, start, nodes[..|nodes| - 1]))
  }

  lemma UninterruptedLast<S>(exec: (nat, S) -> S, start: S, nodes: seq<nat>, n: nat)
    ensures Uninterrupted(exec, start, nodes + [n]) == exec(n, Uninterrupted(exec, start, nodes))
  {
    assert (nodes + [n])[..|nodes|] == nodes;
  }

  /** A node is told that it is resumed exactly when the attempt before was its own and paused. */
  predicate ToldTheTruth(log: seq<Attempt>) {
    forall i :: 0 <= i < |log| ==> ToldAt(log, i)
  }

  predicate ToldAt(log: seq<Attempt>, i: nat)
    requires i < |log|
  {
    && (log[i].resumed <==> i > 0 && log[i - 1].Paused())
    && (log[i].resumed ==> log[i].node == log[i - 1].node)
  }

  /** The nodes that were executed, pauses left out. */
  function Executed(log: seq<Attempt>): seq<nat> {
    if log == [] then []
    else Executed(log[..|log| - 1]) + if log[|log| - 1].Ran() then [log[|log| - 1].node] else []
  }

  lemma ExecutedLast(log: seq<Attempt>, a: Attempt)
    ensures Executed(log + [a]) == Executed(log) + if a.Ran() then [a.node] else []
  {
    assert (log + [a])[..|log|] == log;
  }

  lemma LogOne(log: seq<Attempt>, a: Attempt)
    requires ToldTheTruth(log)
    requires a.resumed <==> log != [] && log[|log| - 1].Paused()
    requires a.resumed ==> a.node == log[|log| - 1].node
    ensures ToldTheTruth(log + [a])
  {
    forall i | 0 <= i < |log + [a]| ensures ToldAt(log + [a], i) {
      if i < |log| {
        assert ToldAt(log, i);
      }
    }
  }

  /** The executions are those of `m` passes and of the first `id` entries of the next, and the state is what
      they lead to without any pause. */
  ghost predicate Spells<S>(schedule: seq<nat>, exec: (nat, S) -> S, start: S, log: seq<Attempt>, state: S, m: nat, id: nat) {
    && id <= |schedule| && ToldTheTruth(log)
    && Executed(log) == Cycle(schedule, m) + schedule[..id]
    && state == Uninterrupted(exec, start, Executed(log))
  }

  lemma SpellsStep<S>(schedule: seq<nat>, exec: (nat, S) -> S, start: S, log: seq<Attempt>, state: S, m: nat, id: nat,
                      a: Attempt)
    requires Spells(schedule, exec, start, log, state, m, id) && id < |schedule| && a.node == schedule[id]
    requires a.resumed <==> log != [] && log[|log| - 1].Paused()
    requires a.resumed ==> log[|log| - 1].node == schedule[id]
    ensures a.Ran() ==> Spells(schedule, exec, start, log + [a], exec(a.node, state), m, id + 1)
    ensures !a.Ran() ==> Spells(schedule, exec, start, log + [a], state, m, id)
  {
    LogOne(log, a);
    ExecutedLast(log, a);
    if a.Ran() {
      UninterruptedLast(exec, start, Executed(log), a.node);
      OneMore(Cycle(schedule, m), schedule, id + 1);
    } else {
      assert Executed(log) + [] == Executed(log);
    }
  }

  lemma SpellsNextPass<S>(schedule: seq<nat>, exec: (nat, S) -> S, start: S, log: seq<Attempt>, state: S, m: nat)
    requires Spells(schedule, exec, start, log, state, m, |schedule|)
    ensures Spells(schedule, exec, start, log, state, m + 1, 0)
  {
    assert Cycle(schedule, m) + schedule[..|schedule|] == Cycle(schedule, m + 1) + schedule[..0];
  }

  // ------------------------------------------------------------------ where a call ends

  /** `answers` are the statuses of the executions of a call that are not negative. Either one of them ends it,
      after `used` executions, or it ends at the negative status that follows them. */
  datatype CallEnd = AtAnswer(used: nat) | AtStop(used: nat)

  /** The status of an execution is looked at after a whole pass only: the loop over the entries leaves at
      negative ones. The pass goes from entry `first` to the end of the `n` entries. */
  function EndOfCall(n: nat, first: nat, answers: seq<nat>, from: nat): (e: CallEnd)
    requires first < n && from <= |answers|
    ensures from <= e.used <= |answers| && (e.AtStop? ==> e.used == |answers|)
    decreases |answers| - from
  {
    var next := from + (n - first);
    if next > |answers| then AtStop(|answers|)
    else if answers[next - 1] > 0 then AtAnswer(next)
    else EndOfCall(n, 0, answers, next)
  }

  /** Whether execution `k`, with number `k + shift` in the cyclic schedule, is the last of a pass. */
  predicate EndsPass(n: nat, shift: int, k: int)
    requires n > 0
  {
    (k + shift + 1) % n == 0
  }

  lemma EndsPassWithin(n: nat, first: nat, from: nat, k: nat)
    requires first < n && from <= k < from + (n - first)
    ensures EndsPass(n, first - from, k) <==> k == from + (n - first) - 1
  {
    var x := k + (first - from) + 1;
    if x < n {
      assert x % n == x;
    } else {
      assert n % n == 0;
    }
  }

  lemma EndsPassAgain(n: nat, shift: int, k: int)
    requires n > 0
    ensures EndsPass(n, shift - n, k) <==> EndsPass(n, shift, k)
  {
    var x := k + shift + 1;
    assert x == n * (x / n) + x % n;
    assert x - n == n * (x / n - 1) + x % n;
    ModUnique(x - n, n, x / n - 1, x % n);
  }

  lemma AtLeastOnce(n: int, e: int)
    requires n >= 0
    ensures e >= 1 ==> n * e >= n
    ensures e <= -1 ==> n * e <= -n
  {
    assert n * e - n == n * (e - 1) && n * e + n == n * (e + 1);
  }

  lemma ModUnique(x: int, n: nat, d: int, r: int)
    requires 0 <= r < n && x == n * d + r
    ensures x % n == r
  {
    AtLeastOnce(n, d - x / n);
    assert n * (d - x / n) == x % n - r;
  }

  predicate SilentUpTo(n: nat, shift: int, answers: seq<nat>, from: nat, to: nat)
    requires n > 0 && to <= |answers|
  {
    forall k :: from <= k < to && EndsPass(n, shift, k) ==> answers[k] == 0
  }

  /** A call ends with an answer at the first execution that ends a pass with a status above zero; such
      statuses of other executions are lost. */
  lemma {:induction false} EndOfCallExact(n: nat, first: nat, answers: seq<nat>, from: nat)
    requires first < n && from <= |answers|
    ensures match EndOfCall(n, first, answers, from)
            case AtAnswer(used) =>
              && from < used && EndsPass(n, first - from, used - 1) && answers[used - 1] > 0
              && SilentUpTo(n, first - from, answers, from, used - 1)
            case AtStop(_) => SilentUpTo(n, first - from, answers, from, |answers|)
    decreases |answers| - from
  {
    var next, shift := from + (n - first), first - from;
    forall k | from <= k < next ensures EndsPass(n, shift, k) <==> k == next - 1 {
      EndsPassWithin(n, first, from, k);
    }
    if next <= |answers| && answers[next - 1] == 0 {
      EndOfCallExact(n, 0, answers, next);
      var again := shift - n;
      forall k: nat ensures EndsPass(n, again, k) <==> EndsPass(n, shift, k) {
        EndsPassAgain(n, shift, k);
      }
    }
  }

  /** In a schedule of three entries the status 5 of the second one is lost. */
  lemma StatusIsLost()
    ensures EndOfCall(3, 0, [0, 5, 0], 0) == AtStop(3)
  {
  }

  function Total(calls: seq<seq<nat>>): nat {
    if calls == [] then 0 else Total(calls[..|calls| - 1]) + |calls[|calls| - 1]|
  }

  function AfterAttempt<S>(exec: (nat, S) -> S, n: nat, state: S, code: int, broken: S): S {
    if code >= 0 then exec(n, state) else if code == CG_PAUSED_SCHEDULER then state else broken
  }

  /** `S` is the state of all FIFOs and nodes. */
  class CallbackScheduler<S(0)> {
    const schedule: seq<nat>
    const exec: (nat, S) -> S
    var state: S
    // cb_state
    var status: CbStatus
    var nbSched: nat
    var scheduleStateID: nat
    var resumed: bool
    /** What happened since the scheduler last started from its first entry, from which state, and how often
        it has started so. */
    ghost var log: seq<Attempt>
    ghost var start: S
    ghost var starts: nat

    ghost predicate Position(m: nat, id: nat)
      reads `state, `log, `start
    {
      Spells(schedule, exec, start, log, state, m, id)
    }

    /** The number of executions since the start. */
    ghost function NbExecuted(): nat
      reads `log
    {
      |Executed(log)|
    }

    ghost predicate LastPausedAt(id: nat)
      reads `log
      requires id < |schedule|
    {
      log != [] && log[|log| - 1].Paused() && log[|log| - 1].node == schedule[id]
    }

    ghost predicate LastNotPaused()
      reads `log
    {
      log != [] ==> !log[|log| - 1].Paused()
    }

    /** Between two calls. */
    ghost predicate Valid()
      reads this
    {
      && schedule != []
      && (status.PausedScheduler? ==>
            scheduleStateID < |schedule| && Position(nbSched, scheduleStateID) && LastPausedAt(scheduleStateID))
      && (resumed <==> status.PausedScheduler?)
    }

    /** init_scheduler. */
    constructor (schedule: seq<nat>, exec: (nat, S) -> S, state: S)
      requires schedule != []
      ensures Valid() && this.schedule == schedule && this.exec == exec && this.state == state
      ensures status == NotStarted && log == []
    {
      this.schedule := schedule;
      this.exec := exec;
      this.state := state;
      status, nbSched, scheduleStateID, resumed := NotStarted, 0, 0, false;
      log := [];
      start := state;
      starts := 0;
    }

    /** One entry of the schedule: the node, and what the loop body does up to the error check. */
    method Entry(id: nat, nbSchedule: nat, code: int, broken: S) returns (error: int)
      requires id < |schedule|
      modifies this
      ensures error == code && start == old(start) && starts == old(starts)
      ensures log == old(log) + [Attempt(schedule[id], old(resumed), code)]
      ensures state == AfterAttempt(exec, schedule[id], old(state), code, broken)
      ensures resumed == (code == CG_PAUSED_SCHEDULER)
      ensures if resumed then status == PausedScheduler && nbSched == nbSchedule && scheduleStateID == id
              else status == old(status)
    {
      log := log + [Attempt(schedule[id], resumed, code)];
      error := code;
      state := AfterAttempt(exec, schedule[id], state, code, broken);
      resumed := false;
      if error == CG_PAUSED_SCHEDULER {
        status := PausedScheduler;
        nbSched := nbSchedule;
        scheduleStateID := id;
        resumed := true;
      }
    }

    /** The same, with what it keeps. */
    method EntryAt(id: nat, nbSchedule: nat, code: int, broken: S) returns (error: int)
      requires id < |schedule| && Position(nbSchedule, id)
      requires if resumed then LastPausedAt(id) else LastNotPaused()
      modifies this
      ensures error == code && resumed == (code == CG_PAUSED_SCHEDULER)
      ensures start == old(start) && starts == old(starts)
      ensures log == old(log) + [Attempt(schedule[id], old(resumed), code)]
      ensures code >= 0 ==> Position(nbSchedule, id + 1)
      ensures resumed ==> Position(nbSchedule, id)
      ensures NbExecuted() == old(NbExecuted()) + if code >= 0 then 1 else 0
      ensures if resumed then status == PausedScheduler && nbSched == nbSchedule && scheduleStateID == id
              else status == old(status)
    {
      ghost var a := Attempt(schedule[id], resumed, code);
      SpellsStep(schedule, exec, start, log, state, nbSchedule, id, a);
      ExecutedLast(log, a);
      error := Entry(id, nbSchedule, code, broken);
    }

    /** The inner loop from entry `first` on, when the executions answer `answers[from..]` until one ends with
        the negative status `last`: it leaves at the negative status only. */
    method Pass(first: nat, nbSchedule: nat, answers: seq<nat>, from: nat, last: int, broken: S)
      returns (error: int, next: nat)
      requires Between(nbSchedule, first) && from <= |answers| && last < 0
      modifies this
      ensures start == old(start) && starts == old(starts)
      ensures from <= next <= |answers| && NbExecuted() == old(NbExecuted()) + (next - from)
      ensures from + (|schedule| - first) <= |answers| ==>
        && next == from + (|schedule| - first) && error == answers[next - 1] && Position(nbSchedule, |schedule|)
        && status == old(status) && !resumed && LastNotPaused()
      ensures from + (|schedule| - first) > |answers| ==>
        && next == |answers| && error == last && EndsWith(last)
        && Ended(last, nbSchedule)
    {
      error := CG_SUCCESS;
      next := from;
      var id := first;
      while id < |schedule|
        invariant first <= id <= |schedule| && from <= next <= |answers| && next - from == id - first
        invariant NbExecuted() == old(NbExecuted()) + (next - from)
        invariant Position(nbSchedule, id) && status == old(status) && start == old(start) && starts == old(starts)
        invariant id == first ==> resumed == old(resumed) && log == old(log)
        invariant id > first ==> !resumed && LastNotPaused() && error == answers[next - 1]
      {
        error := EntryAt(id, nbSchedule, if next < |answers| then answers[next] else last, broken);
        if error < 0 {
          return;
        }
        next := next + 1;
        id := id + 1;
      }
    }

    ghost predicate EndsWith(code: int)
      reads `log
    {
      log != [] && log[|log| - 1].code == code
    }

    /** After the negative status `last`: a pause has saved the count and the entry. */
    ghost predicate Ended(last: int, nbSchedule: nat)
      reads this
    {
      && resumed == (last == CG_PAUSED_SCHEDULER) && (resumed <==> status.PausedScheduler?)
      && (resumed ==> nbSched == nbSchedule && scheduleStateID < |schedule|
                      && Position(nbSchedule, scheduleStateID) && LastPausedAt(scheduleStateID))
    }

    /** At the top of the outer loop. */
    ghost predicate Between(nbSchedule: nat, id: nat)
      reads this
    {
      && id < |schedule| && Position(nbSchedule, id) && !status.PausedScheduler?
      && if resumed then LastPausedAt(id) else LastNotPaused()
    }

    /** One turn of the outer loop. */
    method Iteration(first: nat, nbSchedule: nat, answers: seq<nat>, from: nat, last: int, broken: S)
      returns (error: int, next: nat, passes: nat)
      requires Between(nbSchedule, first) && from <= |answers| && last < 0
      modifies this
      ensures start == old(start) && starts == old(starts)
      ensures from <= next <= |answers| && NbExecuted() == old(NbExecuted()) + (next - from)
      ensures error >= 0 ==> next > from && error == answers[next - 1] && Between(passes, 0) && !resumed
      ensures error >= 0 ==>
        EndOfCall(|schedule|, first, answers, from)
        == if error > 0 then AtAnswer(next) else EndOfCall(|schedule|, 0, answers, next)
      ensures error < 0 ==>
        && EndOfCall(|schedule|, first, answers, from) == AtStop(next)
        && error == last && EndsWith(last) && Ended(last, passes)
    {
      error, next := Pass(first, nbSchedule, answers, from, last, broken);
      if error < 0 {
        return error, next, nbSchedule;
      }
      SpellsNextPass(schedule, exec, start, log, state, nbSchedule);
      passes := nbSchedule + 1;
    }

    /** A call goes on after a pause, or starts from the first entry. */
    method Begin() returns (nbSchedule: nat, id: nat)
      requires Valid()
      modifies `status, `log, `start, `starts
      ensures Between(nbSchedule, id)
      ensures if old(status).PausedScheduler?
              then log == old(log) && start == old(start) && nbSchedule == nbSched && id == scheduleStateID
              else log == [] && start == state && nbSchedule == 0 && id == 0
      ensures starts == if old(status).PausedScheduler? then old(starts) else old(starts) + 1
    {
      nbSchedule, id := 0, 0;
      if status == PausedScheduler {
        nbSchedule := nbSched;
        id := scheduleStateID;
        status := Running;
      } else {
        start := state;
        log := [];
        starts := starts + 1;
      }
    }

    /** The entry a call begins with. */
    function Entrance(): nat
      reads `status, `scheduleStateID
    {
      if status.PausedScheduler? then scheduleStateID else 0
    }

    /** Where a call ends whose executions answer `answers` and then `last`. */
    ghost function Ending(answers: seq<nat>): CallEnd
      requires Valid()
      reads this
    {
      EndOfCall(|schedule|, Entrance(), answers, 0)
    }

    /** One call of scheduler(): the executions answer `answers`, and if they do not end it the next status is
        `last`, which is negative. It starts over (`starts`, `log` and the count of passes) if and only if
        the last call did not pause. All executions since the start spell the cyclic schedule, with nothing
        skipped or repeated wherever the pauses were, and the state is that of a run without pauses, if this
        call pauses or ends with an answer; the result is then the number of completed passes. */
    method Scheduler(answers: seq<nat>, last: int, broken: S) returns (nbSchedule: nat, error: int)
      requires Valid() && last < 0
      modifies this
      ensures Valid()
      ensures starts == old(starts) + if old(status).PausedScheduler? then 0 else 1
      ensures start == (if starts == old(starts) then old(start) else old(state))
      ensures NbExecuted() == (if starts == old(starts) then old(NbExecuted()) else 0) + old(Ending(answers)).used
      ensures status.PausedScheduler? <==> old(Ending(answers)).AtStop? && last == CG_PAUSED_SCHEDULER
      ensures match old(Ending(answers))
              case AtAnswer(used) => used > 0 && error == answers[used - 1] > 0 && Position(nbSchedule, 0)
              case AtStop(_) => error == last && EndsWith(last)
      ensures status.PausedScheduler? ==> nbSchedule == nbSched && Position(nbSchedule, scheduleStateID)
    {
      ghost var e := Ending(answers);
      error := CG_SUCCESS;
      var id: nat;
      nbSchedule, id := Begin();
      var next: nat := 0;
      ghost var before, from, begun := NbExecuted(), start, starts;
      while error == CG_SUCCESS
        invariant next <= |answers| && start == from && starts == begun && NbExecuted() == before + next
        invariant error >= 0 ==> Between(nbSchedule, id)
        invariant error == 0 ==> e == EndOfCall(|schedule|, id, answers, next)
        invariant error > 0 ==> id == 0 && !resumed && next > 0 && error == answers[next - 1] && e == AtAnswer(next)
        invariant error < 0 ==> e == AtStop(next) && error == last && EndsWith(last) && Ended(last, nbSchedule)
        decreases error == 0, |answers| - next
      {
        error, next, nbSchedule := Iteration(id, nbSchedule, answers, next, last, broken);
        id := 0;
      }
    }

    /** Pausing is invisible: any number of calls since init_scheduler, as long as each of them pauses,
        together make the executions of one call that is never interrupted. */
    method PausedCalls(calls: seq<seq<nat>>, broken: S) returns (nbSchedule: nat, paused: bool)
      requires Valid() && status == NotStarted && calls != []
      modifies this
      ensures Valid()
      ensures paused ==> status == PausedScheduler && start == old(state) && starts == old(starts) + 1
      ensures paused ==> NbExecuted() == Total(calls) && Position(nbSchedule, scheduleStateID)
    {
      var error;
      nbSchedule, error := Scheduler(calls[0], CG_PAUSED_SCHEDULER, broken);
      TotalFirst(calls);
      paused := error == CG_PAUSED_SCHEDULER;
      var i := 1;
      while i < |calls| && paused
        invariant 1 <= i <= |calls| && Valid()
        invariant paused ==> PausedAt(nbSchedule) && start == old(state) && starts == old(starts) + 1
        invariant paused ==> NbExecuted() == Total(calls[..i])
      {
        nbSchedule, paused := PausedCall(calls[i], broken);
        TotalNext(calls, i);
        i := i + 1;
      }
      assert calls[..|calls|] == calls;
    }

    ghost predicate PausedAt(nbSchedule: nat)
      reads this
    {
      Valid() && status == PausedScheduler && nbSchedule == nbSched
    }

    /** One more call. */
    method PausedCall(answers: seq<nat>, broken: S) returns (nbSchedule: nat, paused: bool)
      requires Valid() && status == PausedScheduler
      modifies this
      ensures Valid() && start == old(start) && starts == old(starts)
      ensures paused ==> PausedAt(nbSchedule) && NbExecuted() == old(NbExecuted()) + |answers|
    {
      var error;
      nbSchedule, error := Scheduler(answers, CG_PAUSED_SCHEDULER, broken);
      paused := error == CG_PAUSED_SCHEDULER;
    }
  }

  lemma TotalFirst(calls: seq<seq<nat>>)
    requires calls != []
    ensures Total(calls[..1]) == |calls[0]|
  {
    assert calls[..1][..0] == [];
  }

  lemma TotalNext(calls: seq<seq<nat>>, i: nat)
    requires i < |calls|
    ensures Total(calls[..i + 1]) == Total(calls[..i]) + |calls[i]|
  {
    assert calls[..i + 1][..i] == calls[..i];
  }
}
