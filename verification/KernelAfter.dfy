/** Runs that go on after an update between two attempts has raised. The endpoint answers 409 and the
    scheduler keeps the edges. */
module KernelAfter {
  import opened Graphs
  import opened Tasks
  import opened TaskGraph
  import opened KernelSpec
  import opened KernelRuns
  import opened KernelGrowth
  import opened KernelTheorems
  import opened KernelStranded
  import opened KernelTimeout

  // ---- what survives the raise ----

  function WithReopened(e: Terms, id: Id): Terms {
    e.(reopened := e.reopened + {id})
  }

  lemma HalfLinkedQueues(s: KState, s1: KState, id: Id, deps: set<Id>)
    requires QueuesAgree(s) && id in s.nodes && s.nodes[id].task.status == Timeout
    requires Grown(s.nodes, s1.nodes, id, deps) && GrownOpen(s.nodes, s1.nodes, id, deps, s.completed)
    requires s1 == s.(nodes := s1.nodes, ready := RemoveFirst(s.ready, id), waiting := RemoveFirst(s.waiting, id))
    ensures QueuesAgree(s1) && s1.ready == s.ready && s1.waiting == s.waiting
  {
    hide QueuesAgree, NoDuplicates, RemoveFirst, DeclaredBy, DependentsOf, OpenOf;
    QueueFacts(s, id);
    RemoveAbsent(s.ready, id);
    RemoveAbsent(s.waiting, id);
    MoveOne(s, s1, id);
  }

  lemma HalfLinkedSelf(s: KState, s1: KState, id: Id, deps: set<Id>, e: Terms)
    requires id in s.nodes && s.nodes[id].task.status == Timeout && OpenOk(s, id, e)
    requires Grown(s.nodes, s1.nodes, id, deps) && GrownOpen(s.nodes, s1.nodes, id, deps, s.completed)
    requires SameModes(s.nodes, s1.nodes) && s1.completed == s.completed && s1.failed == s.failed
    ensures OpenOk(s1, id, WithReopened(e, id))
  {
    hide SameModes;
    forall d ensures d in s1.nodes[id].task.declared <==> d in DeclaredBy(s.nodes, id) || d in deps {
      assert d in DeclaredBy(s1.nodes, id) <==> d in s1.nodes[id].task.declared;
    }
    forall d | d in s1.nodes[id].task.declared && d !in s1.nodes[id].open
      ensures Discharged(s1.nodes, s1.completed, s1.failed, id, d)
    {
      if d !in deps { DischargedFrame(s.nodes, s.completed, s.failed, s1.nodes, s1.completed, s1.failed, id, d); }
    }
  }

  lemma HalfLinkedOpen(s: KState, s1: KState, id: Id, deps: set<Id>, e: Terms)
    requires OpenAgree(s, Id(""), {}, e) && id in s.nodes && s.nodes[id].task.status == Timeout
    requires Grown(s.nodes, s1.nodes, id, deps) && GrownOpen(s.nodes, s1.nodes, id, deps, s.completed)
    requires s1.completed == s.completed && s1.failed == s.failed
    ensures OpenAgree(s1, Id(""), {}, WithReopened(e, id))
  {
    hide OpenOk, SameModes, DeclaredBy, DependentsOf;
    GrownModes(s.nodes, s1.nodes, id, deps);
    HalfLinkedSelf(s, s1, id, deps, e);
    forall k | k in s1.nodes ensures OpenOk(s1, k, WithReopened(e, id)) {
      if k != id {
        OpenOkFrame(s, s1, k, e);
        MoreReopened(s1, k, e, WithReopened(e, id));
      }
    }
  }

  lemma MoreReopened(s: KState, k: Id, e: Terms, e': Terms)
    requires k in s.nodes && OpenOk(s, k, e) && e'.explained == e.explained && e.reopened <= e'.reopened
    ensures OpenOk(s, k, e')
  {
  }

  /** The call raises and leaves its edges. Everything else of the invariant holds; only the task it
      was about may have something open although it runs. */
  lemma HalfLinkedKeeps(s: KState, id: Id, deps: seq<Id>, e: Terms)
    requires Inv(s, e) && MissesTimeout(s, id, deps)
    ensures Inv(HalfLinked(s, id, deps), WithReopened(e, id))
  {
    hide QueuesAgree, OpenAgree, EdgesAgree, Reaches, AddAll, FirstBad, RemoveFirst, Grown, GrownOpen;
    OpenIsLinked(s, id, e);
    AddAllGrows(s.nodes, s.completed, id, Unique(deps));
    var s1, d := HalfLinked(s, id, deps), Elements(Unique(deps));
    HalfLinkedQueues(s, s1, id, d);
    GrownEdges(s.nodes, s1.nodes, id, d);
    HalfLinkedOpen(s, s1, id, d, e);
  }

  /** A task that no longer runs, or has nothing open, need not be excepted. */
  lemma FewerReopened(s: KState, e: Terms, r: set<Id>)
    requires Inv(s, e)
    requires forall b :: b in e.reopened && b in s.nodes && s.nodes[b].task.status in {Running, Timeout, Success} ==>
      b in r || s.nodes[b].open == {}
    ensures Inv(s, e.(reopened := r))
  {
    hide QueuesAgree, EdgesAgree;
    forall b | b in s.nodes ensures OpenOk(s, b, e.(reopened := r)) {
      assert OpenOk(s, b, e);
    }
  }

  // ---- runs that go on ----

  ghost predicate HarmsNoneAt(n: Nodes, x: Id, b: Id) {
    b in n && n[b].task.status in {Running, Timeout, Success} && x in n ==>
      !Decides(FailClosed, n[b].task, x, n[x].task)
  }

  /** A failure reaches no task that runs or has succeeded over a fail-closed edge. Such edges are made
      between two attempts only. */
  ghost predicate HarmsNone(s: KState, op: Op) {
    op.FailOp? && op.id in s.nodes ==> forall b :: b in s.nodes[op.id].dependents ==> HarmsNoneAt(s.nodes, op.id, b)
  }

  /** As in Run, but a call that raises half way is answered and leaves the edges it has linked. */
  ghost predicate OnStep(s: KState, op: Op, s': KState) {
    && MayHappen(s, op) && HarmsNone(s, op)
    && match Outcome(s, op)
       case Ok(r) => s' == r
       case Err(x) =>
         if x.InvalidTransition?
         then op.AddDependenciesOp? && MissesTimeout(s, op.id, op.deps) && s' == HalfLinked(s, op.id, op.deps)
         else s' == s
  }

  ghost predicate OnRun(states: seq<KState>, ops: seq<Op>) {
    && |states| == |ops| + 1
    && states[0] == Initial(states[0].policy)
    && forall i :: 0 <= i < |ops| ==> OnStep(states[i], ops[i], states[i + 1])
  }

  /** The tasks among r that run or have succeeded. */
  ghost function StillOut(s: KState, r: set<Id>): set<Id> {
    set b | b in r && b in s.nodes && s.nodes[b].task.status in {Running, Timeout, Success}
  }

  lemma SparesWhatIsOut(s: KState, op: Op, e: Terms)
    requires op.FailOp? && op.id in s.nodes && HarmsNone(s, op)
    ensures Spares(s.nodes, op.id, s.nodes[op.id].dependents, e.(reopened := StillOut(s, e.reopened)))
  {
    forall b | b in s.nodes[op.id].dependents && b in StillOut(s, e.reopened) && b in s.nodes
      ensures EffectiveMode(s.nodes[b].task, op.id, s.nodes[op.id].task) != Some(FailClosed)
    {
      assert HarmsNoneAt(s.nodes, op.id, b);
    }
  }

  /** Operations of such a run keep the invariant, up to tasks given dependencies between attempts, and
      ask for a forbidden transition exactly if they are an update that misses TIMEOUT. */
  lemma OnStepKeeps(s: KState, op: Op, s': KState, e: Terms) returns (e': Terms)
    requires Inv(s, e) && OnStep(s, op, s') && (e.explained ==> Explained(op))
    ensures Inv(s', e') && e'.explained == e.explained
  {
    hide Inv, Outcome, Explained, HarmsNone, MissesTimeout, Spares, StillOut, Enumerates, WellFormedTask;
    var e1 := e.(reopened := StillOut(s, e.reopened));
    assert Inv(s, e1) by { OutIsEnough(s, e); }
    if op.FailOp? {
      FailsKnown(s, op);
      SparesWhatIsOut(s, op, e);
    }
    StepKeeps(s, op, e1);
    if Outcome(s, op).Err? && Outcome(s, op).error.InvalidTransition? {
      HalfLinkedKeeps(s, op.id, op.deps, e1);
      e' := WithReopened(e1, op.id);
    } else {
      e' := e1;
    }
  }

  lemma OutIsEnough(s: KState, e: Terms)
    requires Inv(s, e)
    ensures Inv(s, e.(reopened := StillOut(s, e.reopened)))
  {
    hide Inv;
    FewerReopened(s, e, StillOut(s, e.reopened));
  }

  lemma FailsKnown(s: KState, op: Op)
    requires MayHappen(s, op) && op.FailOp?
    ensures op.id in s.nodes
  {
  }

  lemma {:induction false} OnRunKeeps(states: seq<KState>, ops: seq<Op>, k: nat, explained: bool) returns (e: Terms)
    requires OnRun(states, ops) && k < |states| && (explained ==> AllExplained(ops))
    ensures Inv(states[k], e) && e.explained == explained
  {
    hide Inv, OnStep, Explained;
    if k == 0 {
      e := Terms(explained, {});
      InitialInv(states[0].policy, e);
    } else {
      var e1 := OnRunKeeps(states, ops, k - 1, explained);
      assert OnStep(states[k - 1], ops[k - 1], states[k - 1 + 1]);
      e := OnStepKeeps(states[k - 1], ops[k - 1], states[k], e1);
    }
  }

  // ---- what holds in them ----

  /** Runs are runs that go on. */
  lemma RunIsOnRun(states: seq<KState>, ops: seq<Op>)
    requires Run(states, ops)
    ensures OnRun(states, ops)
  {
    hide Inv, MayHappen, Outcome;
    forall i | 0 <= i < |ops| ensures OnStep(states[i], ops[i], states[i + 1]) {
      RunKeeps(states, ops, i, PLAIN);
      assert Step(states[i], ops[i], states[i + 1]);
      NoneHarmed(states[i], ops[i]);
    }
  }

  lemma NoneHarmed(s: KState, op: Op)
    requires Inv(s, PLAIN) && MayHappen(s, op)
    ensures HarmsNone(s, op)
  {
    hide Inv, HarmsNoneAt, Enumerates, WellFormedTask;
    if op.FailOp? {
      RunningIsOpen(s, op.id, PLAIN);
      forall b | b in s.nodes[op.id].dependents ensures HarmsNoneAt(s.nodes, op.id, b) {
        OutHasNothingOpen(s, b, op.id);
      }
    }
  }

  lemma OutHasNothingOpen(s: KState, b: Id, x: Id)
    requires Inv(s, PLAIN) && b in s.nodes && x in s.nodes[b].open
    ensures HarmsNoneAt(s.nodes, x, b)
  {
    hide QueuesAgree, EdgesAgree;
    OpenFacts(s, b, PLAIN);
  }

  /** Through any number of such answers: queues and statuses agree, what is ready has nothing open, the
      graph stays acyclic. */
  lemma AgreementGoesOn(states: seq<KState>, ops: seq<Op>, k: nat)
    requires OnRun(states, ops) && k < |states|
    ensures Distinct(states[k]) && Disjoint(states[k])
    ensures forall id :: id in states[k].nodes ==> Placed(states[k], id)
    ensures forall id :: id in states[k].ready ==>
      id in states[k].nodes && states[k].nodes[id].task.status == Ready && states[k].nodes[id].open == {}
    ensures Acyclic(DependentsGraph(states[k].nodes))
  {
    hide OnRun, QueuesAgree, OpenAgree, Disjoint, Distinct;
    var e := OnRunKeeps(states, ops, k, false);
    StateAgreement(states[k], e);
  }

  /** Tasks are handed out with every dependency completed or waived. */
  lemma DispatchSafetyGoesOn(states: seq<KState>, ops: seq<Op>, k: nat)
    requires OnRun(states, ops) && k < |ops| && ops[k].DispatchOp? && Typed(states[k])
    ensures Dispatch(states[k], ops[k].limit, ops[k].env).Ok?
    ensures AllDischarged(states[k + 1], Dispatch(states[k], ops[k].limit, ops[k].env).value.1)
  {
    hide Inv, Dispatch, MayHappen, AllDischarged;
    var e := OnRunKeeps(states, ops, k, false);
    assert OnStep(states[k], ops[k], states[k + 1]);
    DispatchKeeps(states[k], ops[k].limit, ops[k].env, e);
  }

  /** With nothing ready, running or blocked for resources, every waiting task is behind a failed one; if
      nothing has failed, every task has completed. */
  lemma NoDeadlockGoesOn(states: seq<KState>, ops: seq<Op>, k: nat)
    requires OnRun(states, ops) && k < |states| && AllExplained(ops)
    requires states[k].ready == [] && states[k].running == {}
    requires forall id :: id in states[k].waiting && id in states[k].nodes ==>
      states[k].nodes[id].task.blockReason == ""
    ensures forall b :: b in states[k].waiting ==> BehindFailure(states[k], b)
    ensures states[k].failed == {} ==> forall id :: id in states[k].nodes ==> id in states[k].completed
  {
    hide OnRun, BehindFailure, EdgesAgree;
    var s := states[k];
    var e := OnRunKeeps(states, ops, k, true);
    forall id | id in s.waiting && id in s.nodes ensures s.nodes[id].open != {} {
      QueueFacts(s, id);
      OpenFacts(s, id, e);
    }
    QuietWaitsBehindFailure(s, e);
    if s.failed == {} {
      forall id | id in s.nodes ensures id in s.completed {
        QueueFacts(s, id);
        if id in s.waiting { FailureExists(s, id); }
      }
    }
  }

  // ---- failures over edges made between attempts ----

  /** The failure of x is to fail b. */
  ghost predicate Condemns(n: Nodes, x: Id, b: Id) {
    x in n && b in n && Decides(FailClosed, n[b].task, x, n[x].task)
  }

  predicate Usual(s: KState, b: Id) {
    b in s.nodes ==>
      && s.nodes[b].task.status in {Pending, Blocked, Ready, Running, Timeout, Success, Failed}
      && (b in s.waiting ==> s.nodes[b].task.status in {Pending, Blocked})
  }

  lemma FailOneRaisesIff(s: KState, x: Id, dep: Id, env: Env)
    requires x in s.nodes && Usual(s, dep)
    ensures FailOne(s, x, dep, env).Err? <==> Condemns(s.nodes, x, dep) && s.nodes[dep].task.status == Success
    ensures FailOne(s, x, dep, env).Err? ==> FailOne(s, x, dep, env).error.InvalidTransition?
  {
    hide RemoveFirst, StableSort;
  }

  lemma {:induction false} FailAllRaisesIff(s: KState, x: Id, order: seq<Id>, env: Env)
    requires x in s.nodes && NoDuplicates(order) && x !in order && forall b :: b in order ==> Usual(s, b)
    ensures FailAll(s, x, order, env).Err? <==>
      exists b :: b in order && Condemns(s.nodes, x, b) && s.nodes[b].task.status == Success
    ensures FailAll(s, x, order, env).Err? ==> FailAll(s, x, order, env).error.InvalidTransition?
    decreases |order|
  {
    hide FailOne, EffectiveMode, NoDuplicates;
    if order == [] {
    } else {
      HeadTail(order);
      assert order == [order[0]] + order[1..];
      FailOneRaisesIff(s, x, order[0], env);
      if FailOne(s, x, order[0], env).Ok? {
        var s1 := FailOne(s, x, order[0], env).value;
        FailOneOther(s, x, order[0], env, x);
        FailOneKeys(s, x, order[0], env);
        forall b | b in order[1..]
          ensures Usual(s1, b) && (Condemns(s1.nodes, x, b) <==> Condemns(s.nodes, x, b))
          ensures b in s.nodes ==> s1.nodes[b].task == s.nodes[b].task
        {
          if b in s.nodes { FailOneOther(s, x, order[0], env, b); }
        }
        FailAllRaisesIff(s1, x, order[1..], env);
      }
    }
  }

  lemma FailOneKeys(s: KState, x: Id, dep: Id, env: Env)
    requires x in s.nodes && FailOne(s, x, dep, env).Ok?
    ensures FailOne(s, x, dep, env).value.nodes.Keys == s.nodes.Keys
    ensures FailOne(s, x, dep, env).value.running == s.running
  {
    hide RemoveFirst, StableSort, EffectiveMode;
  }

  lemma EndOfRunning(s: KState, x: Id, order: seq<Id>, e: Terms)
    requires Inv(s, e) && x in s.running && Typed(s) && Enumerates(order, s.nodes[x].dependents)
    ensures MarkFailed(s, x).Ok? && NoDuplicates(order)
    ensures
      var s1 := MarkFailed(s, x).value;
      && x in s1.nodes && s1.nodes == SetTask(s.nodes, x, s1.nodes[x].task) && s1.waiting == s.waiting
      && s1.running == s.running - {x} && s1.nodes[x].task.ownMode == s.nodes[x].task.ownMode
      && s1.nodes[x].task.status == Failed
    ensures forall b :: b in order ==> b in s.nodes && b != x && Usual(s, b) && b in s.nodes[x].dependents
    ensures forall b :: b in s.nodes[x].dependents ==> b in order
  {
    hide EdgesAgree, OpenAgree, NoDuplicates;
    RunningFacts(s, x, e);
    RunningIsOpen(s, x, e);
    forall b | b in order ensures b in s.nodes && b != x && Usual(s, b) && b in s.nodes[x].dependents {
      assert b in Elements(order);
      QueueFacts(s, b);
    }
    forall b | b in s.nodes[x].dependents ensures b in order {
      assert b in Elements(order);
    }
  }

  /** Failing a running task asks for a forbidden transition exactly if it is to fail a task that has
      succeeded, in whatever order its dependents are visited. */
  lemma FailRaisesIff(s: KState, x: Id, order: seq<Id>, env: Env, e: Terms)
    requires Inv(s, e) && x in s.running && Typed(s) && Enumerates(order, s.nodes[x].dependents)
    ensures Fail(s, x, order, env).Err? <==>
      exists b :: b in s.nodes[x].dependents && Condemns(s.nodes, x, b) && s.nodes[b].task.status == Success
    ensures Fail(s, x, order, env).Err? ==> Fail(s, x, order, env).error.InvalidTransition?
  {
    hide Inv, FailAll, NoDuplicates, Enumerates;
    EndOfRunning(s, x, order, e);
    var s1 := MarkFailed(s, x).value.(failed := MarkFailed(s, x).value.failed + {x});
    forall b | b in order ensures Usual(s1, b) && (Condemns(s1.nodes, x, b) <==> Condemns(s.nodes, x, b)) {
    }
    FailAllRaisesIff(s1, x, order, env);
  }

  lemma {:induction false} FailAllFails(s: KState, x: Id, order: seq<Id>, env: Env, b: Id)
    requires x in s.nodes && NoDuplicates(order) && x !in order && b in order && Condemns(s.nodes, x, b)
    requires FailAll(s, x, order, env).Ok?
    ensures
      var s' := FailAll(s, x, order, env).value;
      b in s'.nodes && s'.nodes[b].task.status == Failed && s'.running == s.running
    decreases |order|
  {
    hide FailOne, EffectiveMode, NoDuplicates;
    HeadTail(order);
    assert order == [order[0]] + order[1..];
    var s1 := FailOne(s, x, order[0], env).value;
    FailOneKeys(s, x, order[0], env);
    FailOneOther(s, x, order[0], env, x);
    if b == order[0] {
      CondemnedFails(s, x, b, env);
      FailAllOther(s1, x, order[1..], env, b);
      FailAllRunning(s1, x, order[1..], env);
    } else {
      FailOneOther(s, x, order[0], env, b);
      FailAllFails(s1, x, order[1..], env, b);
    }
  }

  lemma CondemnedFails(s: KState, x: Id, b: Id, env: Env)
    requires Condemns(s.nodes, x, b) && FailOne(s, x, b, env).Ok?
    ensures b in FailOne(s, x, b, env).value.nodes && FailOne(s, x, b, env).value.nodes[b].task.status == Failed
  {
    hide RemoveFirst, ReleaseOne;
  }

  lemma {:induction false} FailAllRunning(s: KState, x: Id, order: seq<Id>, env: Env)
    requires x in s.nodes && FailAll(s, x, order, env).Ok?
    ensures FailAll(s, x, order, env).value.running == s.running
    decreases |order|
  {
    hide FailOne;
    if order == [] {
    } else {
      FailOneKeys(s, x, order[0], env);
      FailAllRunning(FailOne(s, x, order[0], env).value, x, order[1..], env);
    }
  }

  /** Over such an edge a failure that returns leaves a running task FAILED in the running table. */
  lemma FailsWhatRuns(s: KState, x: Id, order: seq<Id>, env: Env, e: Terms, b: Id)
    requires Inv(s, e) && x in s.running && Typed(s) && Enumerates(order, s.nodes[x].dependents)
    requires Fail(s, x, order, env).Ok? && b in s.nodes[x].dependents && Condemns(s.nodes, x, b) && b in s.running
    ensures
      var s' := Fail(s, x, order, env).value;
      b in s'.nodes && s'.nodes[b].task.status == Failed && b in s'.running
  {
    hide Inv, FailAll, NoDuplicates, Enumerates;
    EndOfRunning(s, x, order, e);
    var s1 := MarkFailed(s, x).value.(failed := MarkFailed(s, x).value.failed + {x});
    FailAllFails(s1, x, order, env, b);
  }

  /** At any point of such a run: an operation asks for a forbidden transition exactly if it is an update
      that misses TIMEOUT, or a failure that is to fail a task that has succeeded. */
  lemma ForbiddenGoesOn(states: seq<KState>, ops: seq<Op>, op: Op)
    requires OnRun(states, ops) && MayHappen(states[|ops|], op)
    ensures
      var s, r := states[|ops|], Outcome(states[|ops|], op);
      r.Err? && r.error.InvalidTransition? <==>
        || (op.AddDependenciesOp? && MissesTimeout(s, op.id, op.deps))
        || (op.FailOp? && op.id in s.nodes && exists b ::
              b in s.nodes[op.id].dependents && Condemns(s.nodes, op.id, b) && s.nodes[b].task.status == Success)
  {
    hide Inv, MissesTimeout, Spares, Enumerates, WellFormedTask, Enqueue, AddDependencies, Dispatch, Complete, Fail,
      TimeOut, Restart, Condemns;
    var s := states[|ops|];
    var e := OnRunKeeps(states, ops, |ops|, false);
    if op.FailOp? {
      FailRaisesIff(s, op.id, op.order, op.env, e);
    } else {
      StepKeeps(s, op, e);
    }
  }

  // ---- a run in which a failure raises ----

  /** a depends on d. */
  function Pair(a: Id, ta: Task, sa: Status, d: Id, td: Task, sd: Status): Nodes {
    map[a := Node(ta.(status := sa, declared := [d]), {d}, {}), d := Node(td.(status := sd), {}, {a})]
  }

  function Answered(a: Id, ta: Task, d: Id, td: Task): KState {
    Initial(Fifo).(nodes := Pair(a, ta, Timeout, d, td, Ready), running := {a}, ready := [d])
  }

  function Again(a: Id, ta: Task, d: Id, td: Task): KState {
    Initial(Fifo).(nodes := Pair(a, ta, Running, d, td, Ready), running := {a}, ready := [d])
  }

  function Ended(a: Id, ta: Task, d: Id, td: Task): KState {
    Initial(Fifo).(nodes := Pair(a, ta, Success, d, td, Ready), ready := [d], completedQ := [a], completed := {a})
  }

  function DRuns(a: Id, ta: Task, d: Id, td: Task): KState {
    Initial(Fifo).(nodes := Pair(a, ta, Success, d, td, Running), running := {d}, completedQ := [a], completed := {a})
  }

  lemma AnswerIs(a: Id, ta: Task, d: Id, td: Task)
    requires Fresh(ta, []) && Fresh(td, []) && a != d && MissesTimeout(Joined(a, ta, d, td), a, [d])
    ensures HalfLinked(Joined(a, ta, d, td), a, [d]) == Answered(a, ta, d, td)
  {
    hide FirstBad, Reaches, RemoveFirst;
    var s := Joined(a, ta, d, td);
    Singleton(d);
    assert [d][..0] == [] && ta.declared + [d] == [d];
    var none: set<Id> := {};
    assert none + {d} == {d} && none + {a} == {a};
    assert AddAll(s.nodes, s.completed, a, []) == s.nodes;
    assert AddOne(s.nodes, s.completed, a, d) == Answered(a, ta, d, td).nodes;
    assert AddAll(s.nodes, s.completed, a, [d]) == Answered(a, ta, d, td).nodes;
    RemoveAbsent([d], a);
    RemoveAbsent([], a);
  }

  lemma RestartA(a: Id, ta: Task, d: Id, td: Task)
    requires Fresh(ta, []) && a != d
    ensures a in Answered(a, ta, d, td).nodes && Restart(Answered(a, ta, d, td), a) == Ok(Again(a, ta, d, td))
  {
    assert SetTask(Answered(a, ta, d, td).nodes, a, ta.(status := Running, declared := [d])) ==
      Again(a, ta, d, td).nodes;
  }

  lemma CompleteA(a: Id, ta: Task, d: Id, td: Task, env: Env)
    requires Fresh(ta, []) && a != d
    ensures Typed(Again(a, ta, d, td)) && Complete(Again(a, ta, d, td), a, [], env) == Ok(Ended(a, ta, d, td))
  {
    var s := Again(a, ta, d, td);
    assert SetTask(s.nodes, a, ta.(status := Success, declared := [d])) == Ended(a, ta, d, td).nodes;
    assert s.running - {a} == {} && s.completedQ + [a] == [a] && s.completed + {a} == {a};
    assert ReleaseAll(Ended(a, ta, d, td), a, [], env) == Ok(Ended(a, ta, d, td));
  }

  lemma DispatchD(a: Id, ta: Task, d: Id, td: Task, env: Env)
    requires Fresh(td, []) && a != d && !env.agentMissing(d) && env.grant(d) == Granted
    ensures Typed(Ended(a, ta, d, td)) && Dispatch(Ended(a, ta, d, td), None, env) == Ok((DRuns(a, ta, d, td), [d]))
  {
    var s, s' := Ended(a, ta, d, td), DRuns(a, ta, d, td);
    assert StableSort(s, env, env.sortClock, [d]) == [d];
    assert BeforeDispatch(s, env) == Ok(s);
    assert SetTask(s.nodes, d, td.(status := Running)) == s'.nodes;
    assert s.ready[1..] == [] && {} + {d} == {d};
    assert MarkRunning(s.(ready := []), d) == Ok(s');
    assert DispatchOne(s, env) == Ok((s', true));
    assert [] + [d] == [d];
    assert DispatchLoop(s', None, env, [d]) == Ok((s', [d]));
  }

  lemma FailD(a: Id, ta: Task, d: Id, td: Task, env: Env)
    requires Fresh(td, []) && a != d && ta.edgeModes == map[d := FailClosed]
    ensures Typed(DRuns(a, ta, d, td))
    ensures Fail(DRuns(a, ta, d, td), d, [a], env) == Err(InvalidTransition(Success, Failed))
  {
    hide FailAll;
    var s := DRuns(a, ta, d, td);
    FailAllA(MarkFailed(s, d).value.(failed := s.failed + {d}), a, d, env);
  }

  /** The one dependent is to fail and has succeeded. */
  lemma FailAllA(s: KState, a: Id, d: Id, env: Env)
    requires a in s.nodes && d in s.nodes && s.nodes[a].task.status == Success
    requires Decides(FailClosed, s.nodes[a].task, d, s.nodes[d].task)
    ensures FailAll(s, d, [a], env) == Err(InvalidTransition(Success, Failed))
  {
    hide ReleaseOne, RemoveFirst;
  }

  lemma AnswerStep(a: Id, ta: Task, d: Id, td: Task, env: Env)
    requires Fresh(ta, []) && Fresh(td, []) && a != d && !env.agentMissing(a) && env.grant(a) == Granted
    ensures OnStep(Joined(a, ta, d, td), AddDependenciesOp(a, [d], env), Answered(a, ta, d, td))
  {
    hide AddDependencies, HalfLinked, MissesTimeout, Run, Inv, Joined, Answered;
    UpdateBetweenAttemptsRaises(a, ta, d, td, env);
    AnswerIs(a, ta, d, td);
  }

  lemma EndSteps(a: Id, ta: Task, d: Id, td: Task, env: Env)
    requires Fresh(ta, []) && a != d
    ensures OnStep(Answered(a, ta, d, td), RestartOp(a), Again(a, ta, d, td))
    ensures OnStep(Again(a, ta, d, td), CompleteOp(a, [], env), Ended(a, ta, d, td))
  {
    hide Complete, Restart;
    RestartA(a, ta, d, td);
    CompleteA(a, ta, d, td, env);
    assert Enumerates([], Again(a, ta, d, td).nodes[a].dependents);
  }

  lemma DispatchStep(a: Id, ta: Task, d: Id, td: Task, env: Env)
    requires Fresh(td, []) && a != d && !env.agentMissing(d) && env.grant(d) == Granted
    ensures OnStep(Ended(a, ta, d, td), DispatchOp(None, env), DRuns(a, ta, d, td))
  {
    hide Dispatch;
    DispatchD(a, ta, d, td, env);
  }

  /** The run of UpdateBetweenAttemptsRaises goes on: a is tried again and succeeds, d is handed out and
      fails. Failing a, which the edge asks for, is forbidden. */
  lemma FailureRaisesLater(a: Id, ta: Task, d: Id, td: Task, env: Env)
    requires Fresh(ta, []) && Fresh(td, []) && a != d && ta.edgeModes == map[d := FailClosed]
    requires !env.agentMissing(a) && env.grant(a) == Granted && !env.agentMissing(d) && env.grant(d) == Granted
    ensures
      OnRun([Initial(Fifo), OneReady(a, ta), Dispatched(a, ta), BetweenAttempts(a, ta), Joined(a, ta, d, td),
             Answered(a, ta, d, td), Again(a, ta, d, td), Ended(a, ta, d, td), DRuns(a, ta, d, td)],
            [EnqueueOp(a, ta, env), DispatchOp(None, env), TimeOutOp(a), EnqueueOp(d, td, env),
             AddDependenciesOp(a, [d], env), RestartOp(a), CompleteOp(a, [], env), DispatchOp(None, env)])
    ensures MayHappen(DRuns(a, ta, d, td), FailOp(d, [a], env))
    ensures Fail(DRuns(a, ta, d, td), d, [a], env) == Err(InvalidTransition(Success, Failed))
  {
    hide OnStep, Fail, OneReady, Dispatched, BetweenAttempts, Joined, Answered, Again, Ended;
    FirstHalf(a, ta, d, td, env);
    AnswerStep(a, ta, d, td, env);
    EndSteps(a, ta, d, td, env);
    DispatchStep(a, ta, d, td, env);
    FailD(a, ta, d, td, env);
    assert Enumerates([a], {a});
  }

  lemma FirstHalf(a: Id, ta: Task, d: Id, td: Task, env: Env)
    requires Fresh(ta, []) && Fresh(td, []) && a != d && !env.agentMissing(a) && env.grant(a) == Granted
    ensures OnStep(Initial(Fifo), EnqueueOp(a, ta, env), OneReady(a, ta))
    ensures OnStep(OneReady(a, ta), DispatchOp(None, env), Dispatched(a, ta))
    ensures OnStep(Dispatched(a, ta), TimeOutOp(a), BetweenAttempts(a, ta))
    ensures OnStep(BetweenAttempts(a, ta), EnqueueOp(d, td, env), Joined(a, ta, d, td))
  {
    hide OnStep, MissesTimeout, Inv, HalfLinked, AddDependencies, Run;
    UpdateBetweenAttemptsRaises(a, ta, d, td, env);
    var states := [Initial(Fifo), OneReady(a, ta), Dispatched(a, ta), BetweenAttempts(a, ta), Joined(a, ta, d, td)];
    var ops := [EnqueueOp(a, ta, env), DispatchOp(None, env), TimeOutOp(a), EnqueueOp(d, td, env)];
    RunIsOnRun(states, ops);
    assert OnStep(states[0], ops[0], states[0 + 1]);
    assert OnStep(states[1], ops[1], states[1 + 1]);
    assert OnStep(states[2], ops[2], states[2 + 1]);
    assert OnStep(states[3], ops[3], states[3 + 1]);
  }
}
