/** How each attempt of a run ends, and the run with it, said through the results that arrived, the
    timer and the answers. */
module AttemptVerdict {
  import opened Graphs
  import opened Tasks
  import opened Attempts
  import opened AttemptRuns

  // ---- what happened to an attempt ----

  /** The result b is taken for attempt n: it carries its id, the attempt is the latest and open, and
      its future is still waiting. */
  predicate TakenAt(task: string, s: AState, e: Event, n: nat, b: bool) {
    && e == Deliver(AttemptId(task, n), b)
    && s.attempts != [] && Last(s).number == n && Last(s).outcome == Open
    && s.slot.Some? && s.slot.value.future == Waiting
  }

  /** Before the k-th event the result b has been taken for attempt n. */
  ghost predicate Reported(task: string, states: seq<AState>, events: seq<Event>, k: nat, n: nat, b: bool)
    requires k <= |events| < |states|
  {
    exists j :: 0 <= j < k && TakenAt(task, states[j], events[j], n, b)
  }

  /** The coroutine gets its turn while it awaits the result of attempt n. */
  predicate Looks(s: AState, e: Event, n: nat) {
    e.Runner? && s.place.Awaiting? && s.attempts != [] && Last(s).number == n
  }

  /** A reported success is found, the timer has not fired, and the patch could be made. */
  ghost predicate WonAt(task: string, states: seq<AState>, events: seq<Event>, m: nat, n: nat)
    requires m < |events| < |states|
  {
    && Looks(states[m], events[m], n) && !events[m].answer.expired && events[m].answer.ok
    && Reported(task, states, events, m, n, true)
  }

  /** The timer has fired. */
  predicate OverAt(states: seq<AState>, events: seq<Event>, m: nat, n: nat)
    requires m < |events| < |states|
  {
    Looks(states[m], events[m], n) && events[m].answer.expired
  }

  ghost predicate Won(task: string, states: seq<AState>, events: seq<Event>, k: nat, n: nat)
    requires k <= |events| < |states|
  {
    exists m :: 0 <= m < k && WonAt(task, states, events, m, n)
  }

  ghost predicate Overdue(states: seq<AState>, events: seq<Event>, k: nat, n: nat)
    requires k <= |events| < |states|
  {
    exists m :: 0 <= m < k && OverAt(states, events, m, n)
  }

  // ---- one event ----

  lemma TakenIs(task: string, p: FailurePolicy, base: nat, s: AState, e: Event, n: nat, b: bool)
    requires Inv(task, p, base, s)
    ensures TakenAt(task, s, e, n, b) ==>
      n == s.counter && e.Deliver? && Accepts(task, s, e.attemptId) && e.success == b
    ensures e.Deliver? && Accepts(task, s, e.attemptId) ==> TakenAt(task, s, e, s.counter, e.success)
  {
    hide Numbered, ResolvedInv, LeaseInv, CountInv, StatusInv, AttemptId;
    LastIsActive(s);
  }

  /** What an event does to the slot. */
  ghost predicate SlotMoves(s: AState, s': AState) {
    && s'.counter >= s.counter
    && (s'.place.Acquiring? ==> s'.counter == s.counter + 1)
    && (s'.slot.Some? ==>
          && s'.counter == s.counter
          && if s.slot.None? then s.place.Acquiring? && s'.slot.value.future == Waiting
             else
               || s'.slot.value.future == s.slot.value.future
               || (s.slot.value.future == Waiting && s'.slot.value.future == CancelledFuture))
  }

  lemma ThrowSlot(s: AState, kind: Kind, a: Answer)
    ensures Throw(s, kind, a).slot == None && Throw(s, kind, a).counter == s.counter
    ensures Throw(s, kind, a).place == Reclaiming(kind)
  {
  }

  lemma RunnerSlot(task: string, p: FailurePolicy, base: nat, s: AState, a: Answer)
    requires Inv(task, p, base, s)
    ensures SlotMoves(s, RunnerStep(task, p, s, a))
  {
    hide Numbered, OpenInv, ResolvedInv, LeaseInv, CountInv, AttemptId, UsesFallback, MaxAttempts, Throw, Begin;
    if s.place.Loop? {
      BeginSlot(s.(status := Running), Primary(s.place.i), a);
    } else if s.place.AfterLoop? {
      BeginSlot(s.(status := Running), Backup, a);
    } else if HasKind(s.place) {
      AttemptSlot(task, p, base, s, a);
    }
  }

  lemma BeginSlot(s: AState, kind: Kind, a: Answer)
    requires s.slot == None
    ensures Begin(s, kind, a).slot == None && Begin(s, kind, a).counter == s.counter + 1
  {
    hide Throw;
    ThrowSlot(CreateAttempt(s, kind), kind, a);
  }

  lemma AttemptSlot(task: string, p: FailurePolicy, base: nat, s: AState, a: Answer)
    requires SlotInv(task, s) && StatusInv(p, base, s) && HasKind(s.place)
    ensures SlotMoves(s, RunnerStep(task, p, s, a))
  {
    hide AttemptId, MaxAttempts, Throw;
    forall t { ThrowSlot(t, s.place.kind, a); }
  }

  /** How the awaited attempt ends. */
  function Ending(f: Future, a: Answer): Outcome {
    if a.expired then TimedOut
    else if f == Waiting then Outcome.Open
    else if f == Resolved(true) && a.ok then Outcome.Succeeded
    else FailedAttempt
  }

  lemma AwaitingEnds(task: string, p: FailurePolicy, base: nat, s: AState, a: Answer)
    requires Inv(task, p, base, s) && s.place.Awaiting?
    ensures s.slot.Some? && s.attempts != []
    ensures
      var s' := RunnerStep(task, p, s, a);
      |s'.attempts| == |s.attempts| && Last(s') == Last(s).(outcome := Ending(s.slot.value.future, a))
  {
    hide Numbered, ResolvedInv, LeaseInv, CountInv, AttemptId, Throw;
    var kind := s.place.kind;
    ThrowAttempts(s, kind, a);
    ThrowAttempts(Finish(s, FailedAttempt), kind, a);
  }

  /** Every other move leaves an attempt open, or fails it. */
  lemma OthersEnd(task: string, p: FailurePolicy, base: nat, s: AState, a: Answer, i: nat)
    requires Inv(task, p, base, s) && !s.place.Awaiting? && i < |RunnerStep(task, p, s, a).attempts|
    requires i < |s.attempts| ==> s.attempts[i].outcome == Outcome.Open
    ensures RunnerStep(task, p, s, a).attempts[i].outcome in {Outcome.Open, FailedAttempt}
  {
    hide Numbered, SlotInv, ResolvedInv, LeaseInv, CountInv, StatusInv, AttemptId, MaxAttempts, UsesFallback, Throw,
      StepLoop, StepAfterLoop;
    RunnerExtends(task, p, s, a);
    if s.place.Loop? || s.place.AfterLoop? {
      NewEnds(task, p, s, a);
    } else if HasKind(s.place) {
      ThrowAttempts(s, s.place.kind, a);
      ThrowAttempts(DropLease(s), s.place.kind, a);
    }
  }

  lemma NewEnds(task: string, p: FailurePolicy, s: AState, a: Answer)
    requires s.place.Loop? || s.place.AfterLoop?
    ensures
      var s' := RunnerStep(task, p, s, a);
      s'.attempts == s.attempts || (s'.attempts != [] && Last(s').outcome in {Outcome.Open, FailedAttempt})
  {
    hide MaxAttempts, UsesFallback, Begin;
    var kind := if s.place.Loop? then Primary(s.place.i) else Backup;
    BeginEnds(s, kind, a);
    BeginEnds(s.(status := Running), kind, a);
  }

  lemma BeginEnds(s: AState, kind: Kind, a: Answer)
    ensures Begin(s, kind, a).attempts != [] && Last(Begin(s, kind, a)).outcome in {Outcome.Open, FailedAttempt}
  {
    hide Throw;
    ThrowAttempts(CreateAttempt(s, kind), kind, a);
  }

  // ---- what has been reported ----

  /** A future is resolved with b exactly if b has been reported for its attempt. */
  ghost predicate Told(task: string, states: seq<AState>, events: seq<Event>, k: nat)
    requires k <= |events| < |states|
  {
    var s := states[k];
    && (forall n: nat, b :: Reported(task, states, events, k, n, b) ==> n <= s.counter)
    && (s.place.Acquiring? ==> forall b :: !Reported(task, states, events, k, s.counter, b))
    && (s.slot.Some? ==>
          forall b :: Reported(task, states, events, k, s.counter, b) <==> s.slot.value.future == Resolved(b))
  }

  lemma ReportedStep(task: string, states: seq<AState>, events: seq<Event>, k: nat, n: nat, b: bool)
    requires k < |events| < |states|
    ensures Reported(task, states, events, k + 1, n, b) <==>
      Reported(task, states, events, k, n, b) || TakenAt(task, states[k], events[k], n, b)
  {
    hide TakenAt;
  }

  lemma ToldStep(task: string, p: FailurePolicy, states: seq<AState>, events: seq<Event>, k: nat)
    requires Run(task, p, states, events) && k < |events| && Told(task, states, events, k)
    ensures Told(task, states, events, k + 1)
  {
    hide Inv, Initial, Reported, TakenAt, RunnerStep, Accepts;
    RunKeeps(task, p, states, events, k);
    var base, s, e, k1 := |states[0].attempts|, states[k], events[k], k + 1;
    assert states[k + 1] == Step(task, p, s, e);
    forall n: nat, b
      ensures Reported(task, states, events, k1, n, b) <==>
        || Reported(task, states, events, k, n, b)
        || (n == s.counter && e.Deliver? && Accepts(task, s, e.attemptId) && e.success == b)
    {
      ReportedStep(task, states, events, k, n, b);
      TakenIs(task, p, base, s, e, n, b);
    }
    if e.Runner? {
      RunnerSlot(task, p, base, s, e.answer);
    } else if Accepts(task, s, e.attemptId) {
      AcceptedSlot(task, p, base, s, e.attemptId);
    }
    assert Told(task, states, events, k1);
  }

  lemma AcceptedSlot(task: string, p: FailurePolicy, base: nat, s: AState, id: string)
    requires Inv(task, p, base, s) && Accepts(task, s, id)
    ensures s.slot.Some? && s.slot.value.future == Waiting && !s.place.Acquiring?
  {
    hide Numbered, OpenInv, ResolvedInv, LeaseInv, CountInv, StatusInv, AttemptId;
  }

  lemma {:induction false} ToldAlways(task: string, p: FailurePolicy, states: seq<AState>, events: seq<Event>, k: nat)
    requires Run(task, p, states, events) && k <= |events|
    ensures Told(task, states, events, k)
  {
    hide Told, Step;
    if k == 0 {
      ToldAtFirst(task, p, states, events);
    } else {
      ToldAlways(task, p, states, events, k - 1);
      ToldStep(task, p, states, events, k - 1);
    }
  }

  lemma ToldAtFirst(task: string, p: FailurePolicy, states: seq<AState>, events: seq<Event>)
    requires Run(task, p, states, events)
    ensures Told(task, states, events, 0)
  {
    hide Step;
  }

  // ---- how attempts end ----

  /** An attempt of this run has the number n and the outcome o. */
  ghost predicate Has(s: AState, base: nat, n: nat, o: Outcome) {
    exists i :: base <= i < |s.attempts| && s.attempts[i].number == n && s.attempts[i].outcome == o
  }

  /** The event that gives attempt n the outcome o. */
  predicate Gives(s: AState, e: Event, n: nat, o: Outcome) {
    Looks(s, e, n) && s.slot.Some? && Ending(s.slot.value.future, e.answer) == o
  }

  lemma HasStep(task: string, p: FailurePolicy, base: nat, s: AState, e: Event, n: nat, o: Outcome)
    requires Inv(task, p, base, s) && o in {Outcome.Succeeded, TimedOut}
    ensures Has(Step(task, p, s, e), base, n, o) <==> Has(s, base, n, o) || Gives(s, e, n, o)
  {
    hide Inv, Step, Ending;
    var s' := Step(task, p, s, e);
    if Has(s, base, n, o) {
      var i :| base <= i < |s.attempts| && s.attempts[i].number == n && s.attempts[i].outcome == o;
      ClosedStays(task, p, base, s, e, i);
    }
    if Gives(s, e, n, o) { GivesIt(task, p, base, s, e, n, o); }
    if Has(s', base, n, o) {
      var i :| base <= i < |s'.attempts| && s'.attempts[i].number == n && s'.attempts[i].outcome == o;
      if i < |s.attempts| && s.attempts[i].outcome != Outcome.Open {
        ClosedStays(task, p, base, s, e, i);
      } else {
        GivenBy(task, p, base, s, e, i);
      }
    }
  }

  lemma GivesIt(task: string, p: FailurePolicy, base: nat, s: AState, e: Event, n: nat, o: Outcome)
    requires Inv(task, p, base, s) && Gives(s, e, n, o)
    ensures Has(Step(task, p, s, e), base, n, o)
  {
    hide Numbered, OpenInv, SlotInv, ResolvedInv, LeaseInv, StatusInv, RunnerStep, Ending;
    AwaitingEnds(task, p, base, s, e.answer);
    assert Last(Step(task, p, s, e)).number == n;
  }

  /** An attempt that has just got an outcome other than FAILED got it from its future. */
  lemma GivenBy(task: string, p: FailurePolicy, base: nat, s: AState, e: Event, i: nat)
    requires Inv(task, p, base, s) && i < |Step(task, p, s, e).attempts|
    requires i < |s.attempts| ==> s.attempts[i].outcome == Outcome.Open
    requires Step(task, p, s, e).attempts[i].outcome !in {Outcome.Open, FailedAttempt}
    ensures Gives(s, e, Step(task, p, s, e).attempts[i].number, Step(task, p, s, e).attempts[i].outcome)
  {
    hide Numbered, SlotInv, ResolvedInv, LeaseInv, CountInv, StatusInv, RunnerStep, DeliverStep, Ending;
    if e.Deliver? {
      DeliverAttempts(task, s, e.attemptId, e.success);
    } else if s.place.Awaiting? {
      AwaitingEnds(task, p, base, s, e.answer);
    } else {
      OthersEnd(task, p, base, s, e.answer, i);
    }
  }

  /** What the coroutine finds at a turn while it awaits a result: the outcome is decided by the timer,
      what was reported and whether the patch could be made. */
  lemma LookDecides(task: string, p: FailurePolicy, states: seq<AState>, events: seq<Event>, m: nat, n: nat)
    requires Run(task, p, states, events) && m < |events| < |states| && Looks(states[m], events[m], n)
    ensures Gives(states[m], events[m], n, Outcome.Succeeded) <==> WonAt(task, states, events, m, n)
    ensures Gives(states[m], events[m], n, TimedOut) <==> OverAt(states, events, m, n)
    ensures Gives(states[m], events[m], n, FailedAttempt) <==>
      && !events[m].answer.expired
      && (|| Reported(task, states, events, m, n, false)
          || (Reported(task, states, events, m, n, true) && !events[m].answer.ok))
  {
    hide Run, Inv, Reported;
    RunKeeps(task, p, states, events, m);
    ToldAlways(task, p, states, events, m);
    AwaitedSlot(task, p, |states[0].attempts|, states[m]);
    assert forall b :: Reported(task, states, events, m, n, b) <==> states[m].slot.value.future == Resolved(b);
  }

  lemma AwaitedSlot(task: string, p: FailurePolicy, base: nat, s: AState)
    requires Inv(task, p, base, s) && s.place.Awaiting?
    ensures s.slot.Some? && s.slot.value.future != CancelledFuture && s.attempts != [] && Last(s).number == s.counter
  {
    hide Numbered, ResolvedInv, LeaseInv, CountInv, StatusInv, AttemptId;
  }

  /** In every run: attempt n has succeeded exactly if a success reported for it was found before the
      timer fired and the patch could be made; it has timed out exactly if the timer fired while it was
      awaited. */
  lemma {:induction false} OutcomesIff(task: string, p: FailurePolicy, states: seq<AState>, events: seq<Event>, k: nat,
                                       n: nat)
    requires Run(task, p, states, events) && k <= |events| < |states|
    ensures Has(states[k], |states[0].attempts|, n, Outcome.Succeeded) <==> Won(task, states, events, k, n)
    ensures Has(states[k], |states[0].attempts|, n, TimedOut) <==> Overdue(states, events, k, n)
  {
    hide Inv, Step, Initial, WonAt, OverAt, Gives, Looks;
    if k == 0 {
    } else {
      OutcomesIff(task, p, states, events, k - 1, n);
      RunKeeps(task, p, states, events, k - 1);
      var base, s, e := |states[0].attempts|, states[k - 1], events[k - 1];
      assert states[k - 1 + 1] == Step(task, p, s, e);
      HasStep(task, p, base, s, e, n, Outcome.Succeeded);
      HasStep(task, p, base, s, e, n, TimedOut);
      LookedOrNot(task, p, states, events, k - 1, n);
    }
  }

  lemma LookedOrNot(task: string, p: FailurePolicy, states: seq<AState>, events: seq<Event>, m: nat, n: nat)
    requires Run(task, p, states, events) && m < |events| < |states|
    ensures Gives(states[m], events[m], n, Outcome.Succeeded) <==> WonAt(task, states, events, m, n)
    ensures Gives(states[m], events[m], n, TimedOut) <==> OverAt(states, events, m, n)
  {
    hide Run, Reported, Ending;
    if Looks(states[m], events[m], n) { LookDecides(task, p, states, events, m, n); }
  }

  /** A failure reported for an attempt that the timer does not overtake fails it, and so does a success
      without a patch. */
  lemma ReportedFailureFails(task: string, p: FailurePolicy, states: seq<AState>, events: seq<Event>, m: nat, n: nat)
    requires Run(task, p, states, events) && m < |events| < |states|
    requires Looks(states[m], events[m], n) && !events[m].answer.expired
    requires
      || Reported(task, states, events, m, n, false)
      || (Reported(task, states, events, m, n, true) && !events[m].answer.ok)
    ensures Has(states[m + 1], |states[0].attempts|, n, FailedAttempt)
  {
    hide Inv, Initial, Has, Reported, Ending, Looks;
    RunKeeps(task, p, states, events, m);
    assert states[m + 1] == Step(task, p, states[m], events[m]);
    LookDecides(task, p, states, events, m, n);
    GivesIt(task, p, |states[0].attempts|, states[m], events[m], n, FailedAttempt);
  }

  // ---- how the run ends ----

  /** The number of the last attempt of the run. */
  function LastNumber(s: AState): nat {
    if s.attempts == [] then 0 else Last(s).number
  }

  /** A finished run is in SUCCESS exactly if a reported success was found in time, with its patch, for
      some attempt; or if the policy is degrade and the timer did not fire on the last attempt. */
  lemma VerdictIff(task: string, p: FailurePolicy, states: seq<AState>, events: seq<Event>, k: nat)
    requires Run(task, p, states, events) && k <= |events| < |states| && states[k].place.Done?
    ensures states[k].status == Success <==>
      || (exists n: nat :: Won(task, states, events, k, n))
      || (p.mode == DegradeMode && !Overdue(states, events, k, LastNumber(states[k])))
    ensures states[k].status == Success || states[k].status == Failed
  {
    hide Run, Inv, Won, Overdue;
    var base, s := |states[0].attempts|, states[k];
    Verdict(task, p, states, events, k);
    forall n: nat
      ensures Has(s, base, n, Outcome.Succeeded) <==> Won(task, states, events, k, n)
      ensures Has(s, base, n, TimedOut) <==> Overdue(states, events, k, n)
    {
      OutcomesIff(task, p, states, events, k, n);
    }
    SomeIsNumbered(s, base);
    RunKeeps(task, p, states, events, k);
    LastIsNumbered(task, p, s, base);
  }

  lemma SomeIsNumbered(s: AState, base: nat)
    ensures SomeSuccess(s, base) <==> exists n: nat :: Has(s, base, n, Outcome.Succeeded)
  {
    if SomeSuccess(s, base) {
      var i :| base <= i < |s.attempts| && s.attempts[i].outcome == Outcome.Succeeded;
      assert Has(s, base, s.attempts[i].number, Outcome.Succeeded);
    }
  }

  lemma LastIsNumbered(task: string, p: FailurePolicy, s: AState, base: nat)
    requires Inv(task, p, base, s)
    ensures LastTimedOut(s, base) ==> Has(s, base, LastNumber(s), TimedOut)
    ensures Has(s, base, LastNumber(s), TimedOut) ==> LastTimedOut(s, base)
  {
    hide OpenInv, SlotInv, ResolvedInv, LeaseInv, CountInv, StatusInv;
  }

  // ---- where the coroutine goes ----

  /** How often the task may be tried: once, and once more for each retry. */
  function Tries(p: FailurePolicy): nat {
    if p.maxRetries > 0 then p.maxRetries + 1 else 1
  }

  predicate HasBackup(p: FailurePolicy) {
    p.mode == FallbackMode && p.hasFallbackAgent
  }

  /** The next place at every place but the one where a result is awaited: each part of an attempt
      leads to the next if its answer is good, and else to the clean-up, from which the next try or the
      end follows. */
  predicate Goes(p: FailurePolicy, from: Place, a: Answer, to: Place) {
    match from
    case Loop(i) =>
      to == if i >= Tries(p) then AfterLoop else if a.ok then Acquiring(Primary(i)) else Reclaiming(Primary(i))
    case Acquiring(kind) => to == if a.ok then Connecting(kind) else Reclaiming(kind)
    case Connecting(kind) => to == if a.ok then Sending(kind) else Reclaiming(kind)
    case Sending(kind) => to == if a.ok then Awaiting(kind) else Reclaiming(kind)
    case Awaiting(kind) => true
    case Cancelling(kind) => to == Reclaiming(kind)
    case Reclaiming(kind) => to == if kind.Backup? then Returned(false) else Loop(kind.i + 1)
    case AfterLoop =>
      to == if !HasBackup(p) then Returned(p.mode == DegradeMode)
            else if !a.ready then Returned(false)
            else if a.ok then Acquiring(Backup) else Reclaiming(Backup)
    case Returned(_) => to == Done
    case Escaped => true
    case Done => to == Done
  }

  lemma BeginPlace(s: AState, kind: Kind, a: Answer)
    ensures Begin(s, kind, a).place == if a.ok then Acquiring(kind) else Reclaiming(kind)
  {
    hide Throw;
    ThrowSlot(CreateAttempt(s, kind), kind, a);
  }

  lemma RunnerGoes(task: string, p: FailurePolicy, base: nat, s: AState, a: Answer)
    requires Inv(task, p, base, s)
    ensures Goes(p, s.place, a, RunnerStep(task, p, s, a).place)
  {
    hide Numbered, OpenInv, ResolvedInv, LeaseInv, CountInv, AttemptId, Throw, Begin;
    if s.place.Loop? {
      BeginPlace(s.(status := Running), Primary(s.place.i), a);
    } else if s.place.AfterLoop? {
      BeginPlace(s.(status := Running), Backup, a);
    } else if HasKind(s.place) {
      forall t { ThrowSlot(t, s.place.kind, a); }
    }
  }

  /** At any turn of the coroutine in any run. */
  lemma TurnsFollowAnswers(task: string, p: FailurePolicy, states: seq<AState>, events: seq<Event>, k: nat)
    requires Run(task, p, states, events) && k < |events| < |states| && events[k].Runner?
    ensures Goes(p, states[k].place, events[k].answer, states[k + 1].place)
    ensures states[k].place.Awaiting? ==>
      var a, n, kind, to := events[k].answer, LastNumber(states[k]), states[k].place.kind, states[k + 1].place;
      && (to == Cancelling(kind) <==> a.expired)
      && (to == Returned(true) <==> WonAt(task, states, events, k, n))
      && (to == Awaiting(kind) <==>
            !a.expired && forall b :: !Reported(task, states, events, k, n, b))
      && (to in {Cancelling(kind), Returned(true), Awaiting(kind), Reclaiming(kind)})
  {
    hide Inv, Initial, Goes, Reported, WonAt;
    RunKeeps(task, p, states, events, k);
    var s, a := states[k], events[k].answer;
    assert states[k + 1] == Step(task, p, s, events[k]);
    RunnerGoes(task, p, |states[0].attempts|, s, a);
    if s.place.Awaiting? {
      AwaitedSlot(task, p, |states[0].attempts|, s);
      ToldAlways(task, p, states, events, k);
      LookDecides(task, p, states, events, k, LastNumber(s));
      AwaitingGoes(task, p, |states[0].attempts|, s, a);
      assert forall b :: Reported(task, states, events, k, s.counter, b) <==> s.slot.value.future == Resolved(b);
      if s.slot.value.future.Resolved? {
        assert Reported(task, states, events, k, s.counter, s.slot.value.future.success);
      }
    }
  }

  lemma AwaitingGoes(task: string, p: FailurePolicy, base: nat, s: AState, a: Answer)
    requires Inv(task, p, base, s) && s.place.Awaiting?
    ensures s.slot.Some?
    ensures RunnerStep(task, p, s, a).place ==
      match Ending(s.slot.value.future, a)
      case TimedOut => Cancelling(s.place.kind)
      case Open => s.place
      case Succeeded => Returned(true)
      case FailedAttempt => Reclaiming(s.place.kind)
  {
    hide Numbered, OpenInv, ResolvedInv, LeaseInv, CountInv, AttemptId, Throw;
    forall t { ThrowSlot(t, s.place.kind, a); }
  }

  // ---- how often it tries, and with what lease ----

  /** While an attempt is made and its worker may run, the task holds the lease of that attempt; only
      the last attempt can have succeeded; and a run that is over has succeeded or tried as often as
      it may. */
  ghost predicate Thorough(p: FailurePolicy, base: nat, s: AState) {
    && (s.place.Connecting? || s.place.Sending? || s.place.Awaiting? ==> s.leases == {s.counter})
    && NoSuccess(s, base, |s.attempts| - 1)
    && (s.place.Returned? || s.place.Done? ==>
          || (|s.attempts| > base && Last(s).outcome == Outcome.Succeeded)
          || |s.attempts| >= base + Tries(p))
  }

  lemma RunnerLease(task: string, p: FailurePolicy, base: nat, s: AState, a: Answer)
    requires Inv(task, p, base, s) && Thorough(p, base, s)
    ensures
      var s' := RunnerStep(task, p, s, a);
      s'.place.Connecting? || s'.place.Sending? || s'.place.Awaiting? ==> s'.leases == {s'.counter}
  {
    hide Numbered, OpenInv, ResolvedInv, CountInv, StatusInv, AttemptId, UsesFallback, MaxAttempts, Throw, Begin;
    if s.place.Loop? {
      BeginPlace(s.(status := Running), Primary(s.place.i), a);
      BeginPlace(s, Primary(s.place.i), a);
    } else if s.place.AfterLoop? {
      BeginPlace(s.(status := Running), Backup, a);
      BeginPlace(s, Backup, a);
    } else if HasKind(s.place) {
      forall t { ThrowSlot(t, s.place.kind, a); }
    }
  }

  lemma RunnerTries(task: string, p: FailurePolicy, base: nat, s: AState, a: Answer)
    requires Inv(task, p, base, s) && Thorough(p, base, s)
    ensures
      var s' := RunnerStep(task, p, s, a);
      && NoSuccess(s', base, |s'.attempts| - 1)
      && (s'.place.Returned? || s'.place.Done? ==>
            || (|s'.attempts| > base && Last(s').outcome == Outcome.Succeeded)
            || |s'.attempts| >= base + Tries(p))
  {
    hide Numbered, ResolvedInv, LeaseInv, AttemptId, RunnerStep, SlotInv;
    RunnerExtends(task, p, s, a);
    RunnerGoes(task, p, base, s, a);
    if s.place.Awaiting? {
      AwaitingEnds(task, p, base, s, a);
      AwaitingGoes(task, p, base, s, a);
    } else if s.place.Returned? || s.place.Done? {
      OverStays(task, p, s, a);
    }
    KeptPrefix(s, RunnerStep(task, p, s, a), base);
  }

  lemma OverStays(task: string, p: FailurePolicy, s: AState, a: Answer)
    requires s.place.Returned? || s.place.Done?
    ensures RunnerStep(task, p, s, a).attempts == s.attempts
  {
  }

  lemma KeptPrefix(s: AState, s': AState, base: nat)
    requires Extends(s, s') && NoSuccess(s, base, |s.attempts| - 1)
    requires s.place.Loop? || s.place.AfterLoop? ==> NoSuccess(s, base, |s.attempts|)
    ensures NoSuccess(s', base, |s'.attempts| - 1)
  {
    forall i | base <= i < |s'.attempts| - 1 ensures s'.attempts[i].outcome != Outcome.Succeeded {
      if |s'.attempts| == |s.attempts| + 1 {
        assert s'.attempts[..|s.attempts|][i] == s.attempts[i];
      } else if s'.attempts != s.attempts {
        assert s'.attempts[..|s.attempts| - 1][i] == s.attempts[..|s.attempts| - 1][i];
      }
    }
  }

  lemma {:induction false} ThoroughAlways(task: string, p: FailurePolicy, states: seq<AState>, events: seq<Event>,
                                          k: nat)
    requires Run(task, p, states, events) && k < |states|
    ensures Thorough(p, |states[0].attempts|, states[k])
  {
    hide Inv, RunnerStep, Initial, NoSuccess, Accepts;
    if k == 0 {
      ThoroughAtFirst(p, states[0]);
    } else {
      ThoroughAlways(task, p, states, events, k - 1);
      RunKeeps(task, p, states, events, k - 1);
      var base, s, e := |states[0].attempts|, states[k - 1], events[k - 1];
      assert states[k - 1 + 1] == Step(task, p, s, e);
      if e.Runner? {
        RunnerLease(task, p, base, s, e.answer);
        RunnerTries(task, p, base, s, e.answer);
      } else {
        SameAttempts(s, states[k], base);
      }
    }
  }

  lemma SameAttempts(s: AState, s': AState, base: nat)
    requires s'.attempts == s.attempts && NoSuccess(s, base, |s.attempts| - 1)
    ensures NoSuccess(s', base, |s'.attempts| - 1)
  {
  }

  lemma ThoroughAtFirst(p: FailurePolicy, s: AState)
    requires Initial(s)
    ensures Thorough(p, |s.attempts|, s)
  {
  }

  /** A finished run made one attempt after the other until one succeeded. If none did, it made one
      and one more for each retry, and at most one beyond that: the backup's. */
  lemma TriesAreMade(task: string, p: FailurePolicy, states: seq<AState>, events: seq<Event>, k: nat)
    requires Run(task, p, states, events) && k < |states| && states[k].place.Done?
    ensures
      var base, s := |states[0].attempts|, states[k];
      && (forall i :: base <= i < |s.attempts| - 1 ==> s.attempts[i].outcome != Outcome.Succeeded)
      && base < |s.attempts| <= base + Tries(p) + (if HasBackup(p) then 1 else 0)
      && (Last(s).outcome != Outcome.Succeeded ==> |s.attempts| >= base + Tries(p))
      && (forall i :: base <= i < |s.attempts| ==>
            s.attempts[i].kind == if i < base + Tries(p) then Primary(i - base) else Backup)
  {
    hide Run, Numbered, OpenInv, SlotInv, LeaseInv, ResolvedInv, StatusInv;
    RunKeeps(task, p, states, events, k);
    ThoroughAlways(task, p, states, events, k);
  }

  /** A worker that may be running works under the lease of its attempt and no other. */
  lemma LeaseIsHeld(task: string, p: FailurePolicy, states: seq<AState>, events: seq<Event>, k: nat)
    requires Run(task, p, states, events) && k < |states|
    requires states[k].place.Connecting? || states[k].place.Sending? || states[k].place.Awaiting?
    ensures states[k].attempts != [] && states[k].leases == {Last(states[k]).number}
  {
    hide Run, Numbered, SlotInv, LeaseInv, ResolvedInv, StatusInv, CountInv;
    RunKeeps(task, p, states, events, k);
    ThoroughAlways(task, p, states, events, k);
  }

  /** An attempt that fails gives its lease back at once if its agent is still registered; otherwise, a
      timeout apart, when the clean-up is over. */
  lemma LeaseIsDropped(task: string, p: FailurePolicy, states: seq<AState>, events: seq<Event>, k: nat)
    requires Run(task, p, states, events) && k < |events| < |states| && events[k].Runner?
    requires HasKind(states[k].place) && !states[k].place.Reclaiming? && states[k + 1].place.Reclaiming?
    ensures states[k + 1].leases ==
      if events[k].answer.agentKnown || states[k].place.Cancelling? then {} else states[k].leases
  {
    hide Initial, Numbered, OpenInv, ResolvedInv, CountInv, AttemptId;
    RunKeeps(task, p, states, events, k);
    var s, a := states[k], events[k].answer;
    assert states[k + 1] == Step(task, p, s, events[k]);
    ThrowLeases(s, s.place.kind, a);
    if s.place.Awaiting? { AwaitingGoes(task, p, |states[0].attempts|, s, a); }
  }

  lemma ThrowLeases(s: AState, kind: Kind, a: Answer)
    requires LeaseInv(s)
    ensures Throw(s, kind, a).leases == if a.agentKnown then {} else s.leases
    ensures DropLease(s).leases == {}
  {
  }
}
