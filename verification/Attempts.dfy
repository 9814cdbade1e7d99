/** One task's run: the coroutine that makes attempts, and the results that arrive meanwhile.
    Each step is the code between two suspension points; results may arrive between any two. */
module Attempts {
  import opened Graphs
  import opened Tasks

  /** Primary(i): attempt i of the retry loop. Backup: the attempt of the fallback agent. */
  datatype Kind = Primary(i: nat) | Backup

  datatype Outcome = Open | Succeeded | FailedAttempt | TimedOut

  datatype Attempt = Attempt(number: nat, kind: Kind, outcome: Outcome)

  datatype Future = Waiting | Resolved(success: bool) | CancelledFuture

  /** The entry of the task in pending_task_results. */
  datatype Slot = Slot(attemptId: string, future: Future)

  /** Where the coroutine is suspended. */
  datatype Place =
    | Loop(i: nat)
    | Acquiring(kind: Kind)
    | Connecting(kind: Kind)
    | Sending(kind: Kind)
    | Awaiting(kind: Kind)
    | Cancelling(kind: Kind)
    | Reclaiming(kind: Kind)
    | AfterLoop
    | Returned(ok: bool)
    | Escaped
    | Done

  datatype FailurePolicy = FailurePolicy(maxRetries: int, mode: Mode, hasFallbackAgent: bool)

  /** `leases` are the active leases of the task, `indexed` the one the monitor finds by task id.
      `counter` is current_attempt. `resolved` lists the attempts whose future got a result, in
      order; it is not part of the source's state. */
  datatype AState = AState(
    place: Place,
    status: Status,
    attempts: seq<Attempt>,
    counter: nat,
    slot: Option<Slot>,
    leases: set<nat>,
    indexed: Option<nat>,
    resolved: seq<nat>)

  /** What the surroundings answer in one step. `ok`: cgroup ready, lease granted, connected, sent,
      patch created. `ready`: the fallback agent is registered. `expired`: the timer of wait_for fires.
      `agentKnown`: the failed agent is still registered. */
  datatype Answer = Answer(ok: bool, ready: bool, expired: bool, agentKnown: bool)

  datatype Event = Runner(answer: Answer) | Deliver(attemptId: string, success: bool)

  // ---- ids ----

  function Digit(d: nat): char
    requires d < 10
  {
    '0' + d as char
  }

  /** Decimal notation. */
  function Decimal(n: nat): string {
    if n < 10 then [Digit(n)] else Decimal(n / 10) + [Digit(n % 10)]
  }

  function AttemptId(task: string, n: nat): string {
    task + ":attempt:" + Decimal(n)
  }

  lemma {:induction false} DecimalInjective(m: nat, n: nat)
    requires Decimal(m) == Decimal(n)
    ensures m == n
    decreases m
  {
    var a, b := Decimal(m), Decimal(n);
    assert a[|a| - 1] == Digit(m % 10) && b[|b| - 1] == Digit(n % 10);
    if m >= 10 && n >= 10 {
      assert a[..|a| - 1] == Decimal(m / 10) && b[..|b| - 1] == Decimal(n / 10);
      DecimalInjective(m / 10, n / 10);
    } else {
      DecimalLength(m);
      DecimalLength(n);
    }
  }

  lemma DecimalLength(n: nat)
    ensures n >= 10 ==> |Decimal(n)| >= 2
    ensures n < 10 ==> |Decimal(n)| == 1
  {
    if n >= 10 { assert |Decimal(n / 10)| >= 1; }
  }

  /** Attempts of one task have different ids. */
  lemma AttemptIdInjective(task: string, m: nat, n: nat)
    requires AttemptId(task, m) == AttemptId(task, n)
    ensures m == n
  {
    var prefix := task + ":attempt:";
    assert AttemptId(task, m)[|prefix|..] == Decimal(m);
    assert AttemptId(task, n)[|prefix|..] == Decimal(n);
    DecimalInjective(m, n);
  }

  // ---- task record ----

  /** active_attempt: the last attempt that is not completed. */
  function ActiveAttempt(attempts: seq<Attempt>): Option<Attempt> {
    if attempts == [] then None
    else if attempts[|attempts| - 1].outcome == Open then Some(attempts[|attempts| - 1])
    else ActiveAttempt(attempts[..|attempts| - 1])
  }

  function CreateAttempt(s: AState, kind: Kind): AState {
    s.(counter := s.counter + 1, attempts := s.attempts + [Attempt(s.counter + 1, kind, Open)])
  }

  /** finish_attempt on the latest attempt. */
  function Finish(s: AState, outcome: Outcome): AState {
    if s.attempts == [] then s
    else
      var n := |s.attempts| - 1;
      s.(attempts := s.attempts[..n] + [s.attempts[n].(outcome := outcome)])
  }

  function FinishIfOpen(s: AState, outcome: Outcome): AState {
    if s.attempts != [] && s.attempts[|s.attempts| - 1].outcome == Open then Finish(s, outcome) else s
  }

  // ---- leases of the task ----

  function AcquireLease(s: AState): AState {
    s.(leases := s.leases + {s.counter}, indexed := Some(s.counter))
  }

  /** reclaim and release by task id act on the indexed lease. */
  function DropLease(s: AState): AState {
    if s.indexed.None? then s else s.(leases := s.leases - {s.indexed.value}, indexed := None)
  }

  // ---- the coroutine ----

  function MaxAttempts(p: FailurePolicy): nat {
    if p.maxRetries + 1 > 1 then p.maxRetries + 1 else 1
  }

  predicate UsesFallback(p: FailurePolicy) {
    p.mode == FallbackMode && p.hasFallbackAgent
  }

  /** An exception in an attempt: close it, take the slot out, isolate the worker. */
  function Throw(s: AState, kind: Kind, a: Answer): AState {
    var s1 := FinishIfOpen(s, FailedAttempt).(slot := None, place := Reclaiming(kind));
    if a.agentKnown then DropLease(s1) else s1
  }

  /** The two transitions before a retry, or the one after RETRYING; None if one is forbidden. */
  function Restart(st: Status): Option<Status> {
    if st == Timeout then
      if CanMove(Timeout, Retrying) && CanMove(Retrying, Running) then Some(Running) else None
    else if st == Retrying then
      if CanMove(Retrying, Running) then Some(Running) else None
    else Some(st)
  }

  function Begin(s: AState, kind: Kind, a: Answer): AState {
    var s1 := CreateAttempt(s, kind);
    if a.ok then s1.(place := Acquiring(kind)) else Throw(s1, kind, a)
  }

  function StepLoop(p: FailurePolicy, s: AState, i: nat, a: Answer): AState {
    if i >= MaxAttempts(p) then s.(place := AfterLoop)
    else
      match Restart(s.status)
      case None => s.(place := Escaped)
      case Some(st) => Begin(s.(status := st), Primary(i), a)
  }

  function StepAcquiring(task: string, s: AState, kind: Kind, a: Answer): AState {
    if !a.ok then Throw(s, kind, a)
    else AcquireLease(s).(slot := Some(Slot(AttemptId(task, s.counter), Waiting)), place := Connecting(kind))
  }

  /** The timer fired: the attempt is closed and the task is TIMEOUT, or the transition raises. */
  function TimeOut(s: AState, kind: Kind, future: Future, a: Answer): AState {
    var s1 := Finish(s, TimedOut).(slot := if s.slot.None? then None else Some(s.slot.value.(future := future)));
    if CanMove(s.status, Timeout) then s1.(status := Timeout, place := Cancelling(kind)) else Throw(s1, kind, a)
  }

  /** wait_for. A timer that fires while the future is waiting cancels it. One that fires between the
      arrival of the result and the next move of the coroutine may win as well: newer versions of
      Python raise the timeout then and the result is lost. */
  function StepAwaiting(s: AState, kind: Kind, a: Answer): AState {
    if s.slot.None? then s
    else
      match s.slot.value.future
      case Waiting => if a.expired then TimeOut(s, kind, CancelledFuture, a) else s
      case Resolved(success) =>
        if a.expired then TimeOut(s, kind, Resolved(success), a)
        else if !success then Throw(Finish(s, FailedAttempt), kind, a)
        else if !a.ok then Throw(s, kind, a)
        else Finish(s, Succeeded).(slot := None, place := Returned(true))
      case CancelledFuture => Throw(s, kind, a)
  }

  function StepReclaiming(s: AState, kind: Kind): AState {
    var s1 := DropLease(s);
    match kind
    case Primary(i) => s1.(place := Loop(i + 1))
    case Backup => s1.(place := Returned(false))
  }

  /** `a.ready`: the fallback agent is registered; `a.ok`: its cgroup is ready. */
  function StepAfterLoop(p: FailurePolicy, s: AState, a: Answer): AState {
    if !UsesFallback(p) then s.(place := Returned(p.mode == DegradeMode))
    else if s.status == Timeout && !CanMove(Timeout, Fallback) then s.(place := Escaped)
    else
      var s1 := if s.status == Timeout then s.(status := Fallback) else s;
      if !a.ready then s1.(place := Returned(false))
      else if s1.status == Fallback && !CanMove(Fallback, Running) then CreateAttempt(s1, Backup).(place := Escaped)
      else Begin(if s1.status == Fallback then s1.(status := Running) else s1, Backup, a)
  }

  function EndStatus(st: Status, ok: bool): Status {
    if ok && CanMove(st, Success) then Success
    else if CanMove(st, Failed) then Failed
    else st
  }

  /** The end of _execute_task: the verdict, an exception on the way turned into FAILED, and the
      release in the finally block. */
  function Conclude(s: AState, ok: bool): AState {
    DropLease(s).(status := EndStatus(s.status, ok), place := Done)
  }

  function RunnerStep(task: string, p: FailurePolicy, s: AState, a: Answer): AState {
    match s.place
    case Loop(i) => StepLoop(p, s, i, a)
    case Acquiring(kind) => StepAcquiring(task, s, kind, a)
    case Connecting(kind) => if a.ok then s.(place := Sending(kind)) else Throw(s, kind, a)
    case Sending(kind) => if a.ok then s.(place := Awaiting(kind)) else Throw(s, kind, a)
    case Awaiting(kind) => StepAwaiting(s, kind, a)
    case Cancelling(kind) => Throw(DropLease(s), kind, a)
    case Reclaiming(kind) => StepReclaiming(s, kind)
    case AfterLoop => StepAfterLoop(p, s, a)
    case Returned(ok) => Conclude(s, ok)
    case Escaped => Conclude(s, false)
    case Done => s
  }

  // ---- arriving results ----

  /** The condition under which _on_task_result resolves the future. */
  predicate Accepts(task: string, s: AState, attemptId: string) {
    && s.slot.Some?
    && ActiveAttempt(s.attempts).Some?
    && attemptId == AttemptId(task, ActiveAttempt(s.attempts).value.number)
    && s.slot.value.future == Waiting
  }

  function DeliverStep(task: string, s: AState, attemptId: string, success: bool): AState {
    if !Accepts(task, s, attemptId) then s
    else s.(slot := Some(s.slot.value.(future := Resolved(success))),
            resolved := s.resolved + [ActiveAttempt(s.attempts).value.number])
  }

  function Step(task: string, p: FailurePolicy, s: AState, e: Event): AState {
    match e
    case Runner(a) => RunnerStep(task, p, s, a)
    case Deliver(id, success) => DeliverStep(task, s, id, success)
  }

  /** A task handed over by the scheduler: RUNNING, no lease, earlier attempts all completed. */
  ghost predicate Initial(s: AState) {
    && s.place == Loop(0) && s.status == Running && s.slot == None && s.leases == {} && s.indexed == None
    && (forall i :: 0 <= i < |s.attempts| ==> s.attempts[i].outcome != Open && s.attempts[i].number <= s.counter)
    && (forall i, j :: 0 <= i < j < |s.attempts| ==> s.attempts[i].number < s.attempts[j].number)
    && s.resolved == []
  }

  ghost predicate Run(task: string, p: FailurePolicy, states: seq<AState>, events: seq<Event>) {
    && |states| == |events| + 1 && Initial(states[0])
    && forall i :: 0 <= i < |events| ==> states[i + 1] == Step(task, p, states[i], events[i])
  }
}
