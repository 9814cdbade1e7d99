/** What holds in every interleaving of a task's coroutine with arriving results. */
module AttemptRuns {
  import opened Graphs
  import opened Tasks
  import opened Attempts

  // ---- invariant ----

  predicate InAttempt(p: Place) {
    p.Acquiring? || p.Connecting? || p.Sending? || p.Awaiting?
  }

  predicate HasSlot(p: Place) {
    p.Connecting? || p.Sending? || p.Awaiting? || p.Cancelling?
  }

  function Last(s: AState): Attempt
    requires s.attempts != []
  {
    s.attempts[|s.attempts| - 1]
  }

  ghost predicate Numbered(s: AState) {
    && (forall i :: 0 <= i < |s.attempts| ==> s.attempts[i].number <= s.counter)
    && (forall i, j :: 0 <= i < j < |s.attempts| ==> s.attempts[i].number < s.attempts[j].number)
  }

  /** Only the latest attempt can be open, and it is open exactly while it is being made. */
  ghost predicate OpenInv(s: AState) {
    && (forall i :: 0 <= i < |s.attempts| - 1 ==> s.attempts[i].outcome != Open)
    && (InAttempt(s.place) ==> s.attempts != [] && Last(s).outcome == Open && Last(s).number == s.counter)
    && (!InAttempt(s.place) && s.attempts != [] ==> Last(s).outcome != Open)
  }

  /** The slot carries the id of the attempt being awaited. */
  ghost predicate SlotInv(task: string, s: AState) {
    && (s.slot.Some? <==> HasSlot(s.place))
    && (s.slot.Some? ==> s.slot.value.attemptId == AttemptId(task, s.counter))
    && (s.slot.Some? && s.place.Cancelling? ==> s.slot.value.future != Waiting)
    && (s.slot.Some? && !s.place.Cancelling? ==> s.slot.value.future != CancelledFuture)
    && (s.slot.Some? ==> (s.slot.value.future.Resolved? <==> s.counter in s.resolved))
    && (s.place.Acquiring? ==> s.counter !in s.resolved)
  }

  /** Which attempts got a result. */
  ghost predicate ResolvedInv(s: AState) {
    && NoDuplicates(s.resolved)
    && (forall n :: n in s.resolved ==> n <= s.counter)
  }

  ghost predicate LeaseInv(s: AState) {
    && s.leases == (if s.indexed.Some? then {s.indexed.value} else {})
    && (s.place.Loop? || s.place.Acquiring? || s.place.AfterLoop? || s.place.Done? ==> s.indexed == None)
    && (s.place == Returned(false) ==> s.indexed == None)
  }

  /** The attempts made in this run: those after the first `base`. */
  ghost predicate CountInv(p: FailurePolicy, base: nat, s: AState) {
    && base <= |s.attempts|
    && (s.place.Loop? ==> |s.attempts| == base + s.place.i && s.place.i <= MaxAttempts(p))
    && (HasKind(s.place) ==> KindOk(p, base, s, s.place.kind))
    && (s.place.AfterLoop? ==> |s.attempts| == base + MaxAttempts(p))
    && |s.attempts| <= base + MaxAttempts(p) + (if UsesFallback(p) then 1 else 0)
    && (forall i :: base <= i < |s.attempts| ==>
          s.attempts[i].kind == if i < base + MaxAttempts(p) then Primary(i - base) else Backup)
  }

  predicate HasKind(q: Place) {
    InAttempt(q) || q.Cancelling? || q.Reclaiming?
  }

  ghost predicate KindOk(p: FailurePolicy, base: nat, s: AState, kind: Kind) {
    match kind
    case Primary(i) => |s.attempts| == base + i + 1 && i < MaxAttempts(p)
    case Backup => |s.attempts| == base + MaxAttempts(p) + 1 && UsesFallback(p)
  }

  ghost predicate NoSuccess(s: AState, base: nat, upTo: int) {
    forall i :: base <= i < |s.attempts| && i < upTo ==> s.attempts[i].outcome != Succeeded
  }

  ghost predicate SomeSuccess(s: AState, base: nat) {
    exists i :: base <= i < |s.attempts| && s.attempts[i].outcome == Succeeded
  }

  ghost predicate LastTimedOut(s: AState, base: nat) {
    |s.attempts| > base && Last(s).outcome == TimedOut
  }

  /** What the verdict will be, or is. */
  ghost predicate Deserves(p: FailurePolicy, base: nat, s: AState) {
    SomeSuccess(s, base) || (p.mode == DegradeMode && !LastTimedOut(s, base))
  }

  ghost predicate StatusInv(p: FailurePolicy, base: nat, s: AState) {
    && base <= |s.attempts| && s.place != Escaped
    && (InAttempt(s.place) ==> s.status == Running)
    && (s.place.Cancelling? ==> s.status == Timeout)
    && (s.place.Loop? || HasKind(s.place) || s.place.AfterLoop? ==> NoSuccess(s, base, |s.attempts|))
    && (s.place.Loop? || s.place.AfterLoop? || s.place.Reclaiming? || s.place.Cancelling? ==>
          s.status == if LastTimedOut(s, base) then Timeout else Running)
    && (s.place == Returned(false) ==>
          NoSuccess(s, base, |s.attempts|) && p.mode != DegradeMode && s.status in {Running, Timeout, Fallback})
    && (s.place == Returned(true) ==>
          || (s.status == Running && |s.attempts| > base && Last(s).outcome == Succeeded)
          || (p.mode == DegradeMode && NoSuccess(s, base, |s.attempts|) && !UsesFallback(p) &&
              s.status == if LastTimedOut(s, base) then Timeout else Running))
    && (s.place.Done? ==> (s.status == if Deserves(p, base, s) then Success else Failed))
  }

  ghost predicate Inv(task: string, p: FailurePolicy, base: nat, s: AState) {
    && Numbered(s) && OpenInv(s) && SlotInv(task, s) && ResolvedInv(s) && LeaseInv(s)
    && CountInv(p, base, s) && StatusInv(p, base, s)
  }

  // ---- steps ----

  lemma InitialInv(task: string, p: FailurePolicy, s: AState)
    requires Initial(s)
    ensures Inv(task, p, |s.attempts|, s)
  {
  }

  lemma LastIsActive(s: AState)
    requires OpenInv(s)
    ensures InAttempt(s.place) ==> ActiveAttempt(s.attempts) == Some(Last(s))
    ensures !InAttempt(s.place) ==> ActiveAttempt(s.attempts) == None
  {
    if !InAttempt(s.place) { NoneActive(s.attempts); }
  }

  lemma {:induction false} NoneActive(attempts: seq<Attempt>)
    requires forall i :: 0 <= i < |attempts| ==> attempts[i].outcome != Open
    ensures ActiveAttempt(attempts) == None
  {
    if attempts == [] {
    } else {
      NoneActive(attempts[..|attempts| - 1]);
    }
  }

  lemma DeliverKeeps(task: string, p: FailurePolicy, base: nat, s: AState, id: string, success: bool)
    requires Inv(task, p, base, s)
    ensures Inv(task, p, base, DeliverStep(task, s, id, success))
  {
    LastIsActive(s);
  }

  lemma ThrowKeeps(task: string, p: FailurePolicy, base: nat, s: AState, kind: Kind, a: Answer)
    requires Numbered(s) && ResolvedInv(s) && s.leases == (if s.indexed.Some? then {s.indexed.value} else {})
    requires forall i :: 0 <= i < |s.attempts| - 1 ==> s.attempts[i].outcome != Open
    requires s.attempts != [] && base < |s.attempts| && Last(s).outcome != Succeeded
    requires CountInv(p, base, s.(place := Reclaiming(kind)))
    requires NoSuccess(s, base, |s.attempts|)
    requires s.status == if Last(s).outcome == TimedOut then Timeout else Running
    ensures Inv(task, p, base, Throw(s, kind, a))
  {
    hide FinishIfOpen, NoDuplicates;
    FinishIfOpenFacts(s);
  }

  lemma FinishIfOpenFacts(s: AState)
    requires s.attempts != []
    ensures
      var s1 := FinishIfOpen(s, FailedAttempt);
      && s1 == s.(attempts := s1.attempts) && |s1.attempts| == |s.attempts|
      && (forall i :: 0 <= i < |s.attempts| ==>
            s1.attempts[i].number == s.attempts[i].number && s1.attempts[i].kind == s.attempts[i].kind)
      && (forall i :: 0 <= i < |s.attempts| - 1 ==> s1.attempts[i] == s.attempts[i])
      && Last(s1).outcome == if Last(s).outcome == Open then FailedAttempt else Last(s).outcome
  {
  }

  lemma BeginKeeps(task: string, p: FailurePolicy, base: nat, s: AState, kind: Kind, a: Answer)
    requires Numbered(s) && ResolvedInv(s) && OpenInv(s) && !InAttempt(s.place) && s.leases == {} && s.indexed == None
    requires s.slot == None && s.status == Running && base <= |s.attempts| && NoSuccess(s, base, |s.attempts|)
    requires CountInv(p, base, CreateAttempt(s, kind).(place := Acquiring(kind)))
    ensures Inv(task, p, base, Begin(s, kind, a))
  {
    var s1 := CreateAttempt(s, kind);
    if !a.ok {
      ThrowKeeps(task, p, base, s1, kind, a);
    }
  }

  /** Some parts of the invariant look neither at the status nor at the place. */
  lemma StatusOnly(p: FailurePolicy, base: nat, s: AState, s': AState)
    requires s'.attempts == s.attempts && s'.counter == s.counter && s'.resolved == s.resolved
    ensures Numbered(s) ==> Numbered(s')
    ensures ResolvedInv(s) ==> ResolvedInv(s')
    ensures NoSuccess(s, base, |s.attempts|) ==> NoSuccess(s', base, |s'.attempts|)
  {
  }

  lemma CreateCounts(p: FailurePolicy, base: nat, s: AState, kind: Kind)
    requires CountInv(p, base, s)
    requires
      || (s.place.Loop? && s.place.i < MaxAttempts(p) && kind == Primary(s.place.i))
      || (s.place.AfterLoop? && UsesFallback(p) && kind == Backup)
    ensures CountInv(p, base, CreateAttempt(s, kind).(place := Acquiring(kind)))
  {
  }

  lemma LoopKeeps(task: string, p: FailurePolicy, base: nat, s: AState, a: Answer)
    requires Inv(task, p, base, s) && s.place.Loop?
    ensures Inv(task, p, base, RunnerStep(task, p, s, a))
  {
    hide Begin, Numbered, ResolvedInv, NoSuccess;
    var i := s.place.i;
    if i < MaxAttempts(p) {
      var s0 := s.(status := Running);
      StatusOnly(p, base, s, s0);
      CreateCounts(p, base, s0, Primary(i));
      BeginKeeps(task, p, base, s0, Primary(i), a);
    } else {
      StatusOnly(p, base, s, s.(place := AfterLoop));
    }
  }

  lemma AcquiringKeeps(task: string, p: FailurePolicy, base: nat, s: AState, a: Answer)
    requires Inv(task, p, base, s) && s.place.Acquiring?
    ensures Inv(task, p, base, RunnerStep(task, p, s, a))
  {
    if !a.ok {
      ThrowKeeps(task, p, base, s, s.place.kind, a);
    }
  }

  lemma SendingKeeps(task: string, p: FailurePolicy, base: nat, s: AState, a: Answer)
    requires Inv(task, p, base, s) && (s.place.Connecting? || s.place.Sending?)
    ensures Inv(task, p, base, RunnerStep(task, p, s, a))
  {
    if !a.ok {
      ThrowKeeps(task, p, base, s, s.place.kind, a);
    }
  }

  lemma TimeoutKeeps(task: string, p: FailurePolicy, base: nat, s: AState, future: Future, a: Answer)
    requires Inv(task, p, base, s) && s.place.Awaiting? && future != Waiting
    requires s.slot.value.future == future || (s.slot.value.future == Waiting && future == CancelledFuture)
    ensures Inv(task, p, base, TimeOut(s, s.place.kind, future, a))
  {
    hide Throw;
  }

  lemma ReturnKeeps(task: string, p: FailurePolicy, base: nat, s: AState)
    requires Inv(task, p, base, s) && s.place.Awaiting? && s.slot.value.future == Resolved(true)
    ensures Inv(task, p, base, Finish(s, Succeeded).(slot := None, place := Returned(true)))
  {
    var s' := Finish(s, Succeeded).(slot := None, place := Returned(true));
    assert s'.attempts[|s.attempts| - 1].outcome == Succeeded;
  }

  lemma AwaitingKeeps(task: string, p: FailurePolicy, base: nat, s: AState, a: Answer)
    requires Inv(task, p, base, s) && s.place.Awaiting?
    ensures Inv(task, p, base, RunnerStep(task, p, s, a))
  {
    hide Throw, ResolvedInv, TimeOut;
    var kind := s.place.kind;
    if s.slot.value.future == Waiting {
      TimeoutKeeps(task, p, base, s, CancelledFuture, a);
    } else if a.expired {
      TimeoutKeeps(task, p, base, s, s.slot.value.future, a);
    } else if !s.slot.value.future.success {
      FailedIsNotTimedOut(s);
      ThrowKeeps(task, p, base, Finish(s, FailedAttempt), kind, a);
    } else if a.ok {
      ReturnKeeps(task, p, base, s);
    } else {
      ThrowKeeps(task, p, base, s, kind, a);
    }
  }

  lemma FailedIsNotTimedOut(s: AState)
    requires ResolvedInv(s)
    ensures ResolvedInv(Finish(s, FailedAttempt))
  {
  }

  lemma CancellingKeeps(task: string, p: FailurePolicy, base: nat, s: AState, a: Answer)
    requires Inv(task, p, base, s) && s.place.Cancelling?
    ensures Inv(task, p, base, RunnerStep(task, p, s, a))
  {
    ThrowKeeps(task, p, base, DropLease(s), s.place.kind, a);
  }

  lemma ReclaimingKeeps(task: string, p: FailurePolicy, base: nat, s: AState, a: Answer)
    requires Inv(task, p, base, s) && s.place.Reclaiming?
    ensures Inv(task, p, base, RunnerStep(task, p, s, a))
  {
  }

  lemma AfterLoopKeeps(task: string, p: FailurePolicy, base: nat, s: AState, a: Answer)
    requires Inv(task, p, base, s) && s.place.AfterLoop?
    ensures Inv(task, p, base, RunnerStep(task, p, s, a))
  {
    hide Throw, Numbered, ResolvedInv, NoSuccess;
    if UsesFallback(p) && a.ready {
      var s0 := s.(status := Running);
      StatusOnly(p, base, s, s0);
      CreateCounts(p, base, s0, Backup);
      BeginKeeps(task, p, base, s0, Backup, a);
    } else {
      NoBackupKeeps(task, p, base, s, a);
    }
  }

  lemma NoBackupKeeps(task: string, p: FailurePolicy, base: nat, s: AState, a: Answer)
    requires Inv(task, p, base, s) && s.place.AfterLoop? && !(UsesFallback(p) && a.ready)
    ensures Inv(task, p, base, RunnerStep(task, p, s, a))
  {
    hide Numbered, ResolvedInv, NoSuccess, Begin;
    StatusOnly(p, base, s, StepAfterLoop(p, s, a));
  }

  lemma ConcludeKeeps(task: string, p: FailurePolicy, base: nat, s: AState, a: Answer)
    requires Inv(task, p, base, s) && s.place.Returned?
    ensures Inv(task, p, base, RunnerStep(task, p, s, a))
  {
    hide Numbered, ResolvedInv, StatusInv;
    StatusOnly(p, base, s, RunnerStep(task, p, s, a));
    ConcludeStatus(p, base, s);
  }

  /** The verdict is SUCCESS exactly if the attempts deserve it. */
  lemma ConcludeStatus(p: FailurePolicy, base: nat, s: AState)
    requires StatusInv(p, base, s) && s.place.Returned?
    ensures StatusInv(p, base, Conclude(s, s.place.ok))
  {
    if s.status == Running && |s.attempts| > base && Last(s).outcome == Succeeded {
      assert s.attempts[|s.attempts| - 1].outcome == Succeeded;
    }
  }

  lemma StepKeeps(task: string, p: FailurePolicy, base: nat, s: AState, e: Event)
    requires Inv(task, p, base, s)
    ensures Inv(task, p, base, Step(task, p, s, e))
  {
    hide RunnerStep, DeliverStep, Numbered, OpenInv, SlotInv, ResolvedInv, LeaseInv, CountInv;
    match e
    case Deliver(id, success) => DeliverKeeps(task, p, base, s, id, success);
    case Runner(a) =>
      match s.place
      case Loop(_) => LoopKeeps(task, p, base, s, a);
      case Acquiring(_) => AcquiringKeeps(task, p, base, s, a);
      case Connecting(_) => SendingKeeps(task, p, base, s, a);
      case Sending(_) => SendingKeeps(task, p, base, s, a);
      case Awaiting(_) => AwaitingKeeps(task, p, base, s, a);
      case Cancelling(_) => CancellingKeeps(task, p, base, s, a);
      case Reclaiming(_) => ReclaimingKeeps(task, p, base, s, a);
      case AfterLoop => AfterLoopKeeps(task, p, base, s, a);
      case Returned(_) => ConcludeKeeps(task, p, base, s, a);
      case Done => DoneStays(task, p, s, a);
  }

  lemma DoneStays(task: string, p: FailurePolicy, s: AState, a: Answer)
    requires s.place.Done?
    ensures RunnerStep(task, p, s, a) == s
  {
  }

  lemma {:induction false} RunKeeps(task: string, p: FailurePolicy, states: seq<AState>, events: seq<Event>, k: nat)
    requires Run(task, p, states, events) && k < |states|
    ensures Inv(task, p, |states[0].attempts|, states[k])
  {
    hide Inv, Step, Initial;
    if k == 0 {
      InitialInv(task, p, states[0]);
    } else {
      RunKeeps(task, p, states, events, k - 1);
      StepKeeps(task, p, |states[0].attempts|, states[k - 1], events[k - 1]);
      assert states[k - 1 + 1] == Step(task, p, states[k - 1], events[k - 1]);
    }
  }

  // ---- fencing ----

  /** The handler compares a result's id with the active attempt of the task. In every reachable
      state that is the same as comparing it with the id the awaited future was registered under. */
  lemma Fencing(task: string, p: FailurePolicy, states: seq<AState>, events: seq<Event>, k: nat, id: string)
    requires Run(task, p, states, events) && k < |states|
    ensures
      var s := states[k];
      Accepts(task, s, id) <==> s.slot.Some? && s.slot.value.attemptId == id && s.slot.value.future == Waiting
    ensures Accepts(task, states[k], id) ==>
      states[k].attempts != [] && Last(states[k]).outcome == Open && id == AttemptId(task, Last(states[k]).number)
  {
    hide Run, Numbered, ResolvedInv, LeaseInv, CountInv, StatusInv, AttemptId;
    RunKeeps(task, p, states, events, k);
    LastIsActive(states[k]);
  }

  /** A result of any attempt but the latest, however often it is delivered, changes nothing. */
  lemma OtherResultsAreIgnored(task: string, p: FailurePolicy, states: seq<AState>, events: seq<Event>, k: nat,
                               m: nat, success: bool)
    requires Run(task, p, states, events) && k < |states|
    requires states[k].attempts == [] || m != Last(states[k]).number
    ensures DeliverStep(task, states[k], AttemptId(task, m), success) == states[k]
  {
    hide Run, AttemptId;
    Fencing(task, p, states, events, k, AttemptId(task, m));
    if states[k].attempts != [] && AttemptId(task, m) == AttemptId(task, Last(states[k]).number) {
      AttemptIdInjective(task, m, Last(states[k]).number);
    }
  }

  /** No attempt is resolved twice, and whenever one is, it is the latest, still open and carries the
      id of the result: never after its timeout or any other end. */
  lemma ResolvedAtMostOnce(task: string, p: FailurePolicy, states: seq<AState>, events: seq<Event>, k: nat)
    requires Run(task, p, states, events) && k < |events|
    ensures NoDuplicates(states[k + 1].resolved)
    ensures states[k + 1].resolved != states[k].resolved ==>
      && events[k].Deliver? && states[k].attempts != [] && Last(states[k]).outcome == Open
      && events[k].attemptId == AttemptId(task, Last(states[k]).number)
      && states[k + 1].resolved == states[k].resolved + [Last(states[k]).number]
      && Last(states[k]).number !in states[k].resolved
  {
    hide LeaseInv, CountInv, StatusInv, AttemptId, RunnerStep, Initial;
    var s, e := states[k], events[k];
    RunKeeps(task, p, states, events, k);
    RunKeeps(task, p, states, events, k + 1);
    assert states[k + 1] == Step(task, p, s, e);
    if e.Runner? {
      RunnerExtends(task, p, s, e.answer);
    } else if Accepts(task, s, e.attemptId) {
      AcceptsOpen(task, s, e.attemptId);
    }
  }

  /** How a move of the coroutine changes the attempts: not at all, the open one, or by a new one. */
  ghost predicate Extends(s: AState, s': AState) {
    && s'.resolved == s.resolved
    && (|| s'.attempts == s.attempts
        || (InAttempt(s.place) && |s'.attempts| == |s.attempts| > 0 &&
            s'.attempts[..|s.attempts| - 1] == s.attempts[..|s.attempts| - 1])
        || ((s.place.Loop? || s.place.AfterLoop?) && |s'.attempts| == |s.attempts| + 1 &&
            s'.attempts[..|s.attempts|] == s.attempts))
  }

  lemma ThrowAttempts(s: AState, kind: Kind, a: Answer)
    ensures Throw(s, kind, a).attempts == FinishIfOpen(s, FailedAttempt).attempts
    ensures Throw(s, kind, a).resolved == s.resolved
  {
  }

  lemma BeginAttempts(s: AState, kind: Kind, a: Answer)
    ensures var s' := Begin(s, kind, a);
      && s'.resolved == s.resolved && |s'.attempts| == |s.attempts| + 1
      && s'.attempts[..|s.attempts|] == s.attempts
  {
    hide Throw;
    ThrowAttempts(CreateAttempt(s, kind), kind, a);
  }

  lemma LoopExtends(task: string, p: FailurePolicy, s: AState, a: Answer)
    requires OpenInv(s) && (s.place.Loop? || s.place.AfterLoop?)
    ensures Extends(s, RunnerStep(task, p, s, a))
  {
    hide MaxAttempts, UsesFallback, Begin, OpenInv;
    var kind := if s.place.Loop? then Primary(s.place.i) else Backup;
    BeginAttempts(s, kind, a);
    BeginAttempts(s.(status := Running), kind, a);
  }

  lemma AwaitingExtends(task: string, p: FailurePolicy, s: AState, a: Answer)
    requires OpenInv(s) && s.place.Awaiting?
    ensures Extends(s, RunnerStep(task, p, s, a))
  {
    hide Allowed, Throw;
    var kind := s.place.kind;
    ThrowAttempts(s, kind, a);
    ThrowAttempts(Finish(s, FailedAttempt), kind, a);
    if s.slot.Some? {
      ThrowAttempts(Finish(s, TimedOut).(slot := Some(s.slot.value.(future := CancelledFuture))), kind, a);
      ThrowAttempts(Finish(s, TimedOut), kind, a);
      assert s.slot == Some(s.slot.value.(future := s.slot.value.future));
    }
  }

  lemma RunnerExtends(task: string, p: FailurePolicy, s: AState, a: Answer)
    requires OpenInv(s)
    ensures Extends(s, RunnerStep(task, p, s, a))
  {
    hide Allowed, AttemptId, MaxAttempts, UsesFallback, Throw;
    if s.place.Loop? || s.place.AfterLoop? {
      LoopExtends(task, p, s, a);
    } else if s.place.Awaiting? {
      AwaitingExtends(task, p, s, a);
    } else if HasKind(s.place) {
      ThrowAttempts(s, s.place.kind, a);
      ThrowAttempts(DropLease(s), s.place.kind, a);
    }
  }

  lemma ClosedStays(task: string, p: FailurePolicy, base: nat, s: AState, e: Event, i: nat)
    requires Inv(task, p, base, s) && i < |s.attempts| && s.attempts[i].outcome != Open
    ensures
      var s' := Step(task, p, s, e);
      i < |s'.attempts| && s'.attempts[i] == s.attempts[i] &&
      (s.attempts[i].number in s'.resolved <==> s.attempts[i].number in s.resolved)
  {
    hide SlotInv, ResolvedInv, LeaseInv, CountInv, StatusInv, RunnerStep, Accepts;
    if e.Runner? {
      RunnerExtends(task, p, s, e.answer);
      KeepsClosed(s, RunnerStep(task, p, s, e.answer), i);
    } else {
      if Accepts(task, s, e.attemptId) { AcceptsOpen(task, s, e.attemptId); }
    }
  }

  lemma KeepsClosed(s: AState, s': AState, i: nat)
    requires Extends(s, s') && OpenInv(s) && i < |s.attempts| && s.attempts[i].outcome != Open
    ensures i < |s'.attempts| && s'.attempts[i] == s.attempts[i]
  {
    if |s'.attempts| == |s.attempts| + 1 {
      assert s'.attempts[..|s.attempts|][i] == s.attempts[i];
    } else if s'.attempts != s.attempts {
      assert s'.attempts[..|s.attempts| - 1][i] == s.attempts[..|s.attempts| - 1][i];
    }
  }

  lemma AcceptsOpen(task: string, s: AState, id: string)
    requires OpenInv(s) && Accepts(task, s, id)
    ensures InAttempt(s.place) && ActiveAttempt(s.attempts) == Some(Last(s)) && Last(s).outcome == Open
  {
    hide AttemptId;
    LastIsActive(s);
  }

  /** A completed attempt is final: later results neither change it nor resolve it. */
  lemma {:induction false} CompletedIsFinal(task: string, p: FailurePolicy, states: seq<AState>,
                                            events: seq<Event>, j: nat, k: nat, i: nat)
    requires Run(task, p, states, events) && j <= k < |states|
    requires i < |states[j].attempts| && states[j].attempts[i].outcome != Open
    ensures i < |states[k].attempts| && states[k].attempts[i] == states[j].attempts[i]
    ensures states[j].attempts[i].number in states[k].resolved <==> states[j].attempts[i].number in states[j].resolved
    decreases k
  {
    hide Inv, Step, Initial;
    if j == k {
    } else {
      CompletedIsFinal(task, p, states, events, j, k - 1, i);
      RunKeeps(task, p, states, events, k - 1);
      ClosedStays(task, p, |states[0].attempts|, states[k - 1], events[k - 1], i);
      assert states[k - 1 + 1] == Step(task, p, states[k - 1], events[k - 1]);
    }
  }

  /** The timer wins against a result that has arrived already. */
  predicate LateTimer(s: AState, e: Event) {
    && e.Runner? && e.answer.expired && s.place.Awaiting?
    && s.slot.Some? && s.slot.value.future.Resolved?
  }

  ghost predicate TimedOutUnresolved(s: AState) {
    forall i :: 0 <= i < |s.attempts| && s.attempts[i].outcome == TimedOut ==> s.attempts[i].number !in s.resolved
  }

  /** An attempt becomes TIMEOUT in one step only. */
  lemma BecomesTimedOut(task: string, p: FailurePolicy, base: nat, s: AState, a: Answer, i: nat)
    requires Inv(task, p, base, s) && i < |RunnerStep(task, p, s, a).attempts|
    requires RunnerStep(task, p, s, a).attempts[i].outcome == TimedOut
    requires i < |s.attempts| ==> s.attempts[i].outcome == Open
    ensures s.place.Awaiting? && a.expired && i == |s.attempts| - 1
    ensures RunnerStep(task, p, s, a).attempts[i].number == s.counter
  {
    hide Numbered, ResolvedInv, LeaseInv, CountInv, StatusInv, RunnerStep;
    RunnerExtends(task, p, s, a);
    if !s.place.Awaiting? {
      NotByOthers(task, p, s, a, i);
    } else {
      AwaitingOutcome(task, p, s, a);
    }
  }

  lemma AwaitingOutcome(task: string, p: FailurePolicy, s: AState, a: Answer)
    requires OpenInv(s) && s.place.Awaiting?
    ensures
      var s' := RunnerStep(task, p, s, a);
      && |s'.attempts| == |s.attempts| && Last(s').number == s.counter
      && (Last(s').outcome == TimedOut ==> a.expired)
  {
    hide Allowed, Throw;
    var kind := s.place.kind;
    ThrowAttempts(s, kind, a);
    ThrowAttempts(Finish(s, FailedAttempt), kind, a);
    ThrowAttempts(Finish(s, TimedOut), kind, a);
    if s.slot.Some? {
      ThrowAttempts(Finish(s, TimedOut).(slot := Some(s.slot.value.(future := CancelledFuture))), kind, a);
      assert s.slot == Some(s.slot.value.(future := s.slot.value.future));
    }
  }

  lemma BeginOutcome(s: AState, kind: Kind, a: Answer)
    ensures Begin(s, kind, a).attempts != [] && Last(Begin(s, kind, a)).outcome != TimedOut
  {
    hide Throw;
    ThrowAttempts(CreateAttempt(s, kind), kind, a);
  }

  lemma LoopOutcome(task: string, p: FailurePolicy, s: AState, a: Answer)
    requires s.place.Loop? || s.place.AfterLoop?
    ensures
      var s' := RunnerStep(task, p, s, a);
      s'.attempts == s.attempts || (s'.attempts != [] && Last(s').outcome != TimedOut)
  {
    hide MaxAttempts, UsesFallback, Begin;
    var kind := if s.place.Loop? then Primary(s.place.i) else Backup;
    BeginOutcome(s, kind, a);
    BeginOutcome(s.(status := Running), kind, a);
  }

  lemma NotByOthers(task: string, p: FailurePolicy, s: AState, a: Answer, i: nat)
    requires OpenInv(s) && !s.place.Awaiting? && i < |RunnerStep(task, p, s, a).attempts|
    requires i < |s.attempts| ==> s.attempts[i].outcome == Open
    ensures RunnerStep(task, p, s, a).attempts[i].outcome != TimedOut
  {
    hide Allowed, AttemptId, MaxAttempts, UsesFallback, Throw, StepLoop, StepAfterLoop;
    RunnerExtends(task, p, s, a);
    if s.place.Loop? || s.place.AfterLoop? {
      LoopOutcome(task, p, s, a);
    } else if HasKind(s.place) {
      ThrowAttempts(s, s.place.kind, a);
      ThrowAttempts(DropLease(s), s.place.kind, a);
    }
  }

  lemma TimedOutStep(task: string, p: FailurePolicy, base: nat, s: AState, e: Event)
    requires Inv(task, p, base, s) && TimedOutUnresolved(s) && !LateTimer(s, e)
    ensures TimedOutUnresolved(Step(task, p, s, e))
  {
    hide Numbered, ResolvedInv, LeaseInv, CountInv, StatusInv, RunnerStep, DeliverStep;
    var s' := Step(task, p, s, e);
    forall i | 0 <= i < |s'.attempts| && s'.attempts[i].outcome == TimedOut
      ensures s'.attempts[i].number !in s'.resolved
    {
      if i < |s.attempts| && s.attempts[i].outcome != Open {
        ClosedStays(task, p, base, s, e, i);
      } else if e.Runner? {
        BecomesTimedOut(task, p, base, s, e.answer, i);
        RunnerExtends(task, p, s, e.answer);
      } else {
        DeliverAttempts(task, s, e.attemptId, e.success);
      }
    }
  }

  lemma DeliverAttempts(task: string, s: AState, id: string, success: bool)
    ensures DeliverStep(task, s, id, success).attempts == s.attempts
  {
  }

  /** In runs in which the timer never wins against an arrived result, an attempt that timed out was
      never resolved at all. */
  lemma {:induction false} TimedOutNeverResolved(task: string, p: FailurePolicy, states: seq<AState>,
                                                 events: seq<Event>, k: nat)
    requires Run(task, p, states, events) && k < |states|
    requires forall i :: 0 <= i < |events| ==> !LateTimer(states[i], events[i])
    ensures TimedOutUnresolved(states[k])
  {
    hide Inv, Step, LateTimer;
    if k == 0 {
    } else {
      TimedOutNeverResolved(task, p, states, events, k - 1);
      RunKeeps(task, p, states, events, k - 1);
      TimedOutStep(task, p, |states[0].attempts|, states[k - 1], events[k - 1]);
      assert states[k - 1 + 1] == Step(task, p, states[k - 1], events[k - 1]);
    }
  }

  // ---- attempts and leases ----

  /** At most max(max_retries, 0) + 1 primary attempts, in order, and one more by the fallback
      agent if the policy names one. */
  lemma AttemptBound(task: string, p: FailurePolicy, states: seq<AState>, events: seq<Event>, k: nat)
    requires Run(task, p, states, events) && k < |states|
    ensures
      var base, retries := |states[0].attempts|, if p.maxRetries > 0 then p.maxRetries else 0;
      && base <= |states[k].attempts| <= base + retries + 1 + (if UsesFallback(p) then 1 else 0)
      && (forall i :: base <= i < |states[k].attempts| ==>
            states[k].attempts[i].kind == if i < base + retries + 1 then Primary(i - base) else Backup)
  {
    hide Run, Numbered, OpenInv, SlotInv, LeaseInv, ResolvedInv, StatusInv;
    RunKeeps(task, p, states, events, k);
  }

  lemma CreatesWhenClean(task: string, p: FailurePolicy, base: nat, s: AState, e: Event)
    requires Inv(task, p, base, s) && |Step(task, p, s, e).attempts| > |s.attempts|
    ensures s.leases == {} && s.slot == None && forall i :: 0 <= i < |s.attempts| ==> s.attempts[i].outcome != Open
  {
    hide Numbered, ResolvedInv, CountInv, StatusInv, RunnerStep, Accepts;
    if e.Runner? { RunnerExtends(task, p, s, e.answer); }
  }

  /** A step that creates an attempt finds all earlier ones completed, no active lease of the task
      and no pending future. */
  lemma CleanBeforeNext(task: string, p: FailurePolicy, states: seq<AState>, events: seq<Event>, k: nat)
    requires Run(task, p, states, events) && k < |events|
    requires |states[k + 1].attempts| > |states[k].attempts|
    ensures states[k].leases == {} && states[k].slot == None
    ensures forall i :: 0 <= i < |states[k].attempts| ==> states[k].attempts[i].outcome != Open
  {
    hide Inv, Step, Initial;
    RunKeeps(task, p, states, events, k);
    CreatesWhenClean(task, p, |states[0].attempts|, states[k], events[k]);
  }

  /** At the end: no active lease, no pending future, every attempt completed, and SUCCESS exactly
      if an attempt of this run succeeded, or the policy is degrade and the last attempt did not
      time out. Otherwise FAILED. */
  lemma Verdict(task: string, p: FailurePolicy, states: seq<AState>, events: seq<Event>, k: nat)
    requires Run(task, p, states, events) && k < |states| && states[k].place.Done?
    ensures states[k].leases == {} && states[k].slot == None
    ensures forall i :: 0 <= i < |states[k].attempts| ==> states[k].attempts[i].outcome != Open
    ensures states[k].status == Success <==>
      || SomeSuccess(states[k], |states[0].attempts|)
      || (p.mode == DegradeMode && !LastTimedOut(states[k], |states[0].attempts|))
    ensures states[k].status == Success || states[k].status == Failed
  {
    hide Run, Numbered, ResolvedInv, CountInv, SomeSuccess, NoSuccess, LastTimedOut;
    RunKeeps(task, p, states, events, k);
  }

  /** No forbidden transition is asked for, but for TIMEOUT to SUCCESS at the end of a degrade run
      whose last attempt timed out. */
  lemma OnlyDegradeIsForbidden(task: string, p: FailurePolicy, states: seq<AState>, events: seq<Event>, k: nat)
    requires Run(task, p, states, events) && k < |states|
    ensures states[k].place != Escaped
    ensures states[k].place.Returned? ==>
      (CanMove(states[k].status, if states[k].place.ok then Success else Failed) <==>
       !(states[k].place.ok && p.mode == DegradeMode && LastTimedOut(states[k], |states[0].attempts|)))
  {
    hide Run, Numbered, OpenInv, SlotInv, LeaseInv, ResolvedInv, CountInv;
    RunKeeps(task, p, states, events, k);
  }

  // ---- a degrade run that fails ----

  const NO_RETRY := FailurePolicy(0, DegradeMode, false)

  /** Everything goes well, but for the timer if `expired`. */
  function Well(expired: bool): Event {
    Runner(Answer(true, true, expired, true))
  }

  function At(place: Place, status: Status, outcome: Outcome, slot: Option<Slot>, leased: bool): AState {
    AState(place, status, [Attempt(1, Primary(0), outcome)], 1, slot, if leased then {1} else {},
           if leased then Some(1) else None, [])
  }

  function DegradeStates(task: string): seq<AState> {
    var kind, id := Primary(0), AttemptId(task, 1);
    [AState(Loop(0), Running, [], 0, None, {}, None, []),
     At(Acquiring(kind), Running, Open, None, false),
     At(Connecting(kind), Running, Open, Some(Slot(id, Waiting)), true),
     At(Sending(kind), Running, Open, Some(Slot(id, Waiting)), true),
     At(Awaiting(kind), Running, Open, Some(Slot(id, Waiting)), true),
     At(Cancelling(kind), Timeout, TimedOut, Some(Slot(id, CancelledFuture)), true),
     At(Reclaiming(kind), Timeout, TimedOut, None, false),
     At(Loop(1), Timeout, TimedOut, None, false),
     At(AfterLoop, Timeout, TimedOut, None, false),
     At(Returned(true), Timeout, TimedOut, None, false),
     At(Done, Failed, TimedOut, None, false)]
  }

  function DegradeEvents(): seq<Event> {
    seq(10, i => Well(i == 4))
  }

  lemma UpToAwaiting(task: string, i: nat)
    requires i < 4
    ensures DegradeStates(task)[i + 1] == Step(task, NO_RETRY, DegradeStates(task)[i], Well(false))
  {
    hide AttemptId, Throw;
    assert [] + [Attempt(1, Primary(0), Open)] == [Attempt(1, Primary(0), Open)];
    var none: set<nat> := {};
    assert none + {1} == {1};
  }

  lemma TimerFires(task: string)
    ensures DegradeStates(task)[5] == Step(task, NO_RETRY, DegradeStates(task)[4], Well(true))
  {
    hide AttemptId, Throw;
    assert [Attempt(1, Primary(0), Open)][..0] + [Attempt(1, Primary(0), TimedOut)] ==
      [Attempt(1, Primary(0), TimedOut)];
  }

  lemma WorkerIsolated(task: string)
    ensures DegradeStates(task)[6] == Step(task, NO_RETRY, DegradeStates(task)[5], Well(false))
  {
    hide AttemptId;
    var one: set<nat> := {1};
    assert one - one == {};
  }

  lemma FromReclaiming(task: string, i: nat)
    requires 6 <= i < 10
    ensures DegradeStates(task)[i + 1] == Step(task, NO_RETRY, DegradeStates(task)[i], Well(false))
  {
    hide AttemptId, Begin;
  }

  /** The degrade policy promises a result, but after a timeout of the last attempt the transition to
      SUCCESS is forbidden, and the task ends FAILED. */
  lemma DegradeEndsFailed(task: string)
    ensures Run(task, NO_RETRY, DegradeStates(task), DegradeEvents())
    ensures DegradeStates(task)[9].place == Returned(true) && DegradeStates(task)[10].status == Failed
  {
    hide Step, AttemptId;
    forall i | 0 <= i < |DegradeEvents()|
      ensures DegradeStates(task)[i + 1] == Step(task, NO_RETRY, DegradeStates(task)[i], DegradeEvents()[i])
    {
      if i < 4 {
        UpToAwaiting(task, i);
      } else if i == 4 {
        TimerFires(task);
      } else if i == 5 {
        WorkerIsolated(task);
      } else {
        FromReclaiming(task, i);
      }
    }
  }

  // ---- the coroutine ends ----

  /** A turn of the event loop in which the coroutine does not move. */
  predicate Idle(s: AState, e: Event) {
    || e.Deliver? || s.place.Done?
    || (s.place.Awaiting? && s.slot.Some? && s.slot.value.future == Waiting && !e.answer.expired)
  }

  function StepsFrom(p: FailurePolicy, kind: Kind): int {
    match kind
    case Primary(i) => 7 * (MaxAttempts(p) - i) + 11
    case Backup => 10
  }

  /** An upper bound on the moves still to come. */
  function Left(p: FailurePolicy, q: Place): int {
    match q
    case Loop(i) => 7 * (MaxAttempts(p) - i) + 11
    case Acquiring(kind) => StepsFrom(p, kind) - 1
    case Connecting(kind) => StepsFrom(p, kind) - 2
    case Sending(kind) => StepsFrom(p, kind) - 3
    case Awaiting(kind) => StepsFrom(p, kind) - 4
    case Cancelling(kind) => StepsFrom(p, kind) - 5
    case Reclaiming(kind) => StepsFrom(p, kind) - 6
    case AfterLoop => 10
    case Returned(_) => 2
    case Escaped => 2
    case Done => 0
  }

  lemma ThrowPlace(s: AState, kind: Kind, a: Answer)
    ensures Throw(s, kind, a).place == Reclaiming(kind)
    ensures Begin(s, kind, a).place == Acquiring(kind) || Begin(s, kind, a).place == Reclaiming(kind)
  {
  }

  /** Where the coroutine can go next. */
  predicate Edge(p: FailurePolicy, from: Place, to: Place) {
    match from
    case Loop(i) => if i >= MaxAttempts(p) then to.AfterLoop? else to in {Acquiring(Primary(i)), Reclaiming(Primary(i))}
    case Acquiring(kind) => to in {Connecting(kind), Reclaiming(kind)}
    case Connecting(kind) => to in {Sending(kind), Reclaiming(kind)}
    case Sending(kind) => to in {Awaiting(kind), Reclaiming(kind)}
    case Awaiting(kind) => to in {Cancelling(kind), Reclaiming(kind), Returned(true)}
    case Cancelling(kind) => to == Reclaiming(kind)
    case Reclaiming(Primary(i)) => to == Loop(i + 1)
    case Reclaiming(Backup) => to == Returned(false)
    case AfterLoop => to in {Acquiring(Backup), Reclaiming(Backup), Returned(true), Returned(false)}
    case Returned(_) => to.Done?
    case Escaped => to.Done?
    case Done => to.Done?
  }

  lemma RunnerEdge(task: string, p: FailurePolicy, base: nat, s: AState, a: Answer)
    requires Inv(task, p, base, s) && !Idle(s, Runner(a))
    ensures Edge(p, s.place, RunnerStep(task, p, s, a).place)
  {
    hide Numbered, OpenInv, ResolvedInv, LeaseInv, CountInv, AttemptId, UsesFallback, MaxAttempts, Throw, Begin;
    if s.place.Loop? {
      ThrowPlace(s.(status := Running), Primary(s.place.i), a);
    } else if s.place.AfterLoop? {
      ThrowPlace(s.(status := Running), Backup, a);
    } else if HasKind(s.place) {
      AttemptEdge(task, p, base, s, a);
    }
  }

  lemma AttemptEdge(task: string, p: FailurePolicy, base: nat, s: AState, a: Answer)
    requires SlotInv(task, s) && StatusInv(p, base, s) && HasKind(s.place) && !Idle(s, Runner(a))
    ensures Edge(p, s.place, RunnerStep(task, p, s, a).place)
  {
    hide AttemptId, MaxAttempts, Throw;
    forall t { ThrowPlace(t, s.place.kind, a); }
  }

  lemma EdgeUsesUp(p: FailurePolicy, from: Place, to: Place)
    requires Edge(p, from, to) && from != Done
    requires from.Loop? ==> from.i <= MaxAttempts(p)
    requires HasKind(from) && from.kind.Primary? ==> from.kind.i < MaxAttempts(p)
    ensures Left(p, to) < Left(p, from)
  {
  }

  lemma MovesUseUp(task: string, p: FailurePolicy, base: nat, s: AState, e: Event)
    requires Inv(task, p, base, s)
    ensures Left(p, Step(task, p, s, e).place) <= Left(p, s.place) - if Idle(s, e) then 0 else 1
    ensures Left(p, s.place) >= 0
  {
    hide Numbered, OpenInv, ResolvedInv, LeaseInv, StatusInv, SlotInv, AttemptId, Accepts, Edge;
    if !Idle(s, e) {
      IdleUnlessRunner(s, e);
      RunnerEdge(task, p, base, s, e.answer);
      EdgeUsesUp(p, s.place, RunnerStep(task, p, s, e.answer).place);
    } else if e.Runner? {
      IdleStays(task, p, s, e.answer);
    }
  }

  lemma IdleUnlessRunner(s: AState, e: Event)
    requires !Idle(s, e)
    ensures e.Runner? && s.place != Done
  {
  }

  lemma IdleStays(task: string, p: FailurePolicy, s: AState, a: Answer)
    requires Idle(s, Runner(a))
    ensures RunnerStep(task, p, s, a) == s
  {
  }

  function Moves(states: seq<AState>, events: seq<Event>, k: nat): nat
    requires k <= |events| < |states|
  {
    if k == 0 then 0 else Moves(states, events, k - 1) + if Idle(states[k - 1], events[k - 1]) then 0 else 1
  }

  /** However results arrive, the coroutine moves at most 7 (max(max_retries, 0) + 1) + 11 times. */
  lemma {:induction false} RunsEnd(task: string, p: FailurePolicy, states: seq<AState>, events: seq<Event>, k: nat)
    requires Run(task, p, states, events) && k <= |events|
    ensures Moves(states, events, k) + Left(p, states[k].place) <= 7 * MaxAttempts(p) + 11
    ensures Moves(states, events, k) <= 7 * MaxAttempts(p) + 11
  {
    hide Inv, Step, Idle;
    if k == 0 {
    } else {
      RunsEnd(task, p, states, events, k - 1);
      RunKeeps(task, p, states, events, k - 1);
      MovesUseUp(task, p, |states[0].attempts|, states[k - 1], events[k - 1]);
      assert states[k - 1 + 1] == Step(task, p, states[k - 1], events[k - 1]);
    }
    RunKeeps(task, p, states, events, k);
    MovesUseUp(task, p, |states[0].attempts|, states[k], Deliver("", true));
  }
}
