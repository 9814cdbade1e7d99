/** Tasks that wait for good: behind a failed task, or refused without a reason. */
module KernelStranded {
  import opened Graphs
  import opened Tasks
  import opened TaskGraph
  import opened KernelSpec
  import opened KernelRuns
  import opened KernelGrowth
  import opened KernelTheorems

  // ---- done or not ----

  /** With refusals of any kind: a state in which nothing is ready or running, nothing failed and
      nobody is blocked with a reason is done exactly if every waiting task has something open. */
  lemma StuckIsDoneIff(states: seq<KState>, ops: seq<Op>, k: nat)
    requires Run(states, ops) && k < |states| && Stuck(states[k])
    ensures states[k].waiting == [] <==>
      forall id :: id in states[k].waiting && id in states[k].nodes ==> states[k].nodes[id].open != {}
  {
    hide Run, Inv, BehindFailure;
    var s := states[k];
    RunKeeps(states, ops, k, PLAIN);
    if forall id :: id in s.waiting && id in s.nodes ==> s.nodes[id].open != {} {
      QuietWaitsBehindFailure(s, PLAIN);
      if s.waiting != [] { FailureExists(s, s.waiting[0]); }
    }
  }

  // ---- refused without a reason ----

  /** The task waits with nothing open and nothing written down to wake it for. */
  predicate SilentlyRefused(s: KState, a: Id) {
    && a in s.nodes && a in s.waiting && a !in s.ready
    && s.nodes[a].open == {} && s.nodes[a].task.blockReason == ""
  }

  /** Between the two states nothing about `a` changed. */
  predicate Untouched(s: KState, s': KState, a: Id) {
    && a in s.nodes && a in s'.nodes
    && s'.nodes[a].task == s.nodes[a].task && s'.nodes[a].open == s.nodes[a].open
    && SameQueues(s, s', a)
  }

  predicate SameQueues(s: KState, s': KState, a: Id) {
    && (a in s'.waiting <==> a in s.waiting) && (a in s'.ready <==> a in s.ready)
    && (a in s'.running <==> a in s.running) && (a in s'.failedQ <==> a in s.failedQ)
    && (a in s'.completedQ <==> a in s.completedQ) && (a in s'.failed <==> a in s.failed)
    && (a in s'.completed <==> a in s.completed)
  }

  lemma PlaceOther(s: KState, id: Id, env: Env, a: Id)
    requires id in s.nodes && a in s.nodes && a != id && Place(s, id, env).Ok?
    ensures Untouched(s, Place(s, id, env).value, a)
  {
    hide StableSort;
    if s.nodes[id].open == {} {
      var t := Transition(s.nodes[id].task, Ready).value;
      SortPermutes(s.(nodes := SetTask(s.nodes, id, t)), env, env.clock(id), s.ready + [id]);
    }
  }

  lemma ReleaseOther(s: KState, id: Id, env: Env, a: Id)
    requires id in s.nodes && a in s.nodes && a != id && Release(s, id, env).Ok?
    ensures Untouched(s, Release(s, id, env).value, a)
  {
    hide StableSort, RemoveFirst;
    OthersSurvive(s.waiting, id, a);
    var s1 := s.(nodes := SetTask(s.nodes, id, Unblock(s.nodes[id].task).value), waiting := RemoveFirst(s.waiting, id));
    SortPermutes(s1, env, env.clock(id), s1.ready + [id]);
  }

  lemma ReleaseOneOther(s: KState, x: Id, dep: Id, env: Env, a: Id)
    requires a in s.nodes && a != dep && ReleaseOne(s, x, dep, env).Ok?
    ensures Untouched(s, ReleaseOne(s, x, dep, env).value, a)
  {
    hide Release;
    if dep in s.nodes {
      var s1 := s.(nodes := SetOpen(s.nodes, dep, s.nodes[dep].open - {x}));
      if s1.nodes[dep].open == {} && dep in s1.waiting { ReleaseOther(s1, dep, env, a); }
    }
  }

  lemma {:induction false} ReleaseAllOther(s: KState, x: Id, order: seq<Id>, env: Env, a: Id)
    requires a in s.nodes && a !in order && ReleaseAll(s, x, order, env).Ok?
    ensures Untouched(s, ReleaseAll(s, x, order, env).value, a)
    decreases |order|
  {
    hide ReleaseOne;
    if order == [] {
    } else {
      ReleaseOneOther(s, x, order[0], env, a);
      ReleaseAllOther(ReleaseOne(s, x, order[0], env).value, x, order[1..], env, a);
    }
  }

  lemma FailOneOther(s: KState, x: Id, dep: Id, env: Env, a: Id)
    requires x in s.nodes && a in s.nodes && a != dep && FailOne(s, x, dep, env).Ok?
    ensures Untouched(s, FailOne(s, x, dep, env).value, a)
    ensures x in FailOne(s, x, dep, env).value.nodes
  {
    hide ReleaseOne, RemoveFirst;
    if dep in s.nodes {
      OthersSurvive(s.waiting, dep, a);
      OthersSurvive(s.ready, dep, a);
      OthersSurvive(AppendOnce(s.failedQ, dep), dep, a);
      OthersSurvive(s.completedQ, dep, a);
      if Waives(EffectiveMode(s.nodes[dep].task, x, s.nodes[x].task)) {
        ReleaseOneOther(s, x, dep, env, a);
        ReleaseOneKeys(s, x, dep, env);
      }
    }
  }

  lemma ReleaseOneKeys(s: KState, x: Id, dep: Id, env: Env)
    requires ReleaseOne(s, x, dep, env).Ok?
    ensures ReleaseOne(s, x, dep, env).value.nodes.Keys == s.nodes.Keys
  {
  }

  lemma {:induction false} FailAllOther(s: KState, x: Id, order: seq<Id>, env: Env, a: Id)
    requires x in s.nodes && a in s.nodes && a !in order && FailAll(s, x, order, env).Ok?
    ensures Untouched(s, FailAll(s, x, order, env).value, a)
    decreases |order|
  {
    hide FailOne;
    if order == [] {
    } else {
      FailOneOther(s, x, order[0], env, a);
      FailAllOther(FailOne(s, x, order[0], env).value, x, order[1..], env, a);
    }
  }

  lemma WakeOneStays(s: KState, id: Id, env: Env, a: Id)
    requires SilentlyRefused(s, a) && id in s.nodes && WakeOne(s, id, env).Ok?
    ensures SilentlyRefused(WakeOne(s, id, env).value, a)
  {
    hide Release;
    if a != id && s.nodes[id].open == {} && s.nodes[id].task.blockReason != "" && env.wake(id).Granted? {
      ReleaseOther(s, id, env, a);
    }
  }

  lemma {:induction false} WakeStays(s: KState, todo: seq<Id>, env: Env, a: Id)
    requires SilentlyRefused(s, a) && (forall id :: id in todo ==> id in s.nodes) && Wake(s, todo, env).Ok?
    ensures SilentlyRefused(Wake(s, todo, env).value, a)
    decreases |todo|
  {
    hide SilentlyRefused;
    if todo == [] {
    } else {
      WakeOneStays(s, todo[0], env, a);
      WakeStays(WakeOne(s, todo[0], env).value, todo[1..], env, a);
    }
  }

  lemma DispatchOneStays(s: KState, env: Env, a: Id)
    requires SilentlyRefused(s, a) && s.ready != [] && s.ready[0] in s.nodes && DispatchOne(s, env).Ok?
    ensures SilentlyRefused(DispatchOne(s, env).value.0, a)
  {
    hide RemoveFirst;
    var id := s.ready[0];
    assert id in s.ready;
    OthersSurvive(s.waiting, id, a);
    OthersSurvive(s.ready[1..], id, a);
  }

  lemma {:induction false} DispatchLoopStays(s: KState, limit: Option<int>, env: Env, out: seq<Id>, a: Id)
    requires SilentlyRefused(s, a) && (forall id :: id in s.ready ==> id in s.nodes)
    requires DispatchLoop(s, limit, env, out).Ok?
    ensures SilentlyRefused(DispatchLoop(s, limit, env, out).value.0, a)
    decreases |s.ready|
  {
    hide SilentlyRefused, DispatchOne;
    if s.ready == [] || (limit.Some? && |out| >= limit.value) {
    } else {
      DispatchOneStays(s, env, a);
      ReadyShrinks(s, env);
      var r := DispatchOne(s, env).value;
      DispatchLoopStays(r.0, limit, env, if r.1 then out + [s.ready[0]] else out, a);
    }
  }

  lemma DispatchStays(s: KState, limit: Option<int>, env: Env, a: Id)
    requires SilentlyRefused(s, a) && Typed(s) && Dispatch(s, limit, env).Ok?
    ensures SilentlyRefused(Dispatch(s, limit, env).value.0, a)
  {
    hide DispatchLoop, Wake, StableSort;
    WakeTyped(s, s.waiting, env);
    if s.ready == [] { WakeStays(s, s.waiting, env, a); }
    var s1 := if s.ready == [] then Wake(s, s.waiting, env).value else s;
    SortPermutes(s1, env, env.sortClock, s1.ready);
    DispatchLoopStays(BeforeDispatch(s, env).value, limit, env, [], a);
  }

  /** A running task has no silently refused dependent. */
  lemma NotADependent(s: KState, x: Id, order: seq<Id>, a: Id)
    requires Inv(s, PLAIN) && SilentlyRefused(s, a) && x in s.running && x in s.nodes
    requires Enumerates(order, s.nodes[x].dependents)
    ensures a !in order && a != x
  {
    hide Inv, NoDuplicates;
    RunningIsOpen(s, x, PLAIN);
    RunningIsNotWaiting(s, x);
  }

  lemma RunningIsNotWaiting(s: KState, x: Id)
    requires Inv(s, PLAIN) && x in s.running && x in s.nodes
    ensures x !in s.waiting
  {
    hide EdgesAgree, OpenAgree;
    QueueFacts(s, x);
  }

  lemma CompleteStays(s: KState, x: Id, order: seq<Id>, env: Env, a: Id)
    requires Inv(s, PLAIN) && SilentlyRefused(s, a) && Typed(s)
    requires x in s.running && Enumerates(order, s.nodes[x].dependents)
    requires Complete(s, x, order, env).Ok?
    ensures SilentlyRefused(Complete(s, x, order, env).value, a)
  {
    hide Inv, ReleaseAll, Enumerates;
    NotADependent(s, x, order, a);
    ReleaseAllOther(MarkCompleted(s, x).value.(completed := s.completed + {x}), x, order, env, a);
  }

  lemma FailStays(s: KState, x: Id, order: seq<Id>, env: Env, a: Id)
    requires Inv(s, PLAIN) && SilentlyRefused(s, a) && Typed(s)
    requires x in s.running && Enumerates(order, s.nodes[x].dependents)
    requires Fail(s, x, order, env).Ok?
    ensures SilentlyRefused(Fail(s, x, order, env).value, a)
  {
    hide Inv, FailAll, Enumerates;
    NotADependent(s, x, order, a);
    FailAllOther(MarkFailed(s, x).value.(failed := s.failed + {x}), x, order, env, a);
  }

  lemma EnqueueStays(s: KState, id: Id, task: Task, env: Env, a: Id)
    requires SilentlyRefused(s, a) && WellFormedTask(s, id, task) && Enqueue(s, id, task, env).Ok?
    ensures SilentlyRefused(Enqueue(s, id, task, env).value, a)
  {
    hide Place, EnqueueNodes;
    EnqueueGrows(s.nodes, s.completed, id, task);
    PlaceOther(s.(nodes := EnqueueNodes(s.nodes, s.completed, id, task)), id, env, a);
  }

  lemma AddDependenciesStays(s: KState, id: Id, deps: seq<Id>, env: Env, a: Id)
    requires Inv(s, PLAIN) && SilentlyRefused(s, a) && id != a && AddDependencies(s, id, deps, env).Ok?
    ensures SilentlyRefused(AddDependencies(s, id, deps, env).value, a)
  {
    hide QueuesAgree, OpenAgree, EdgesAgree, Place, AddAll, RemoveFirst, FirstBad;
    QueueFacts(s, id);
    OpenIsLinked(s, id, PLAIN);
    AddAllGrows(s.nodes, s.completed, id, Unique(deps));
    OthersSurvive(s.waiting, id, a);
    OthersSurvive(s.ready, id, a);
    var s1 := HalfLinked(s, id, deps);
    PlaceOther(s1, id, env, a);
  }

  /** An accepted add_dependencies on the task itself, even with no dependency, frees it: it is
      ready, or waits for something. */
  lemma AddDependenciesFrees(s: KState, a: Id, deps: seq<Id>, env: Env)
    requires AddDependencies(s, a, deps, env).Ok?
    ensures
      var s' := AddDependencies(s, a, deps, env).value;
      a in s'.nodes && (if s'.nodes[a].open == {} then a in s'.ready else a in s'.waiting)
    ensures !SilentlyRefused(AddDependencies(s, a, deps, env).value, a)
  {
    hide AddAll, RemoveFirst, FirstBad, StableSort;
    var s1 := HalfLinked(s, a, deps);
    if s1.nodes[a].open == {} {
      var t := Transition(s1.nodes[a].task, Ready).value;
      SortPermutes(s1.(nodes := SetTask(s1.nodes, a, t)), env, env.clock(a), s1.ready + [a]);
    }
  }

  /** Such a call is at hand: adding nothing makes a silently refused task ready. */
  lemma EmptyUpdateFrees(s: KState, a: Id, env: Env)
    requires Inv(s, PLAIN) && SilentlyRefused(s, a)
    ensures AddDependencies(s, a, [], env).Ok? && a in AddDependencies(s, a, [], env).value.ready
  {
    hide EdgesAgree, OpenAgree, Place;
    QueueFacts(s, a);
    assert Unique([]) == [];
    AddDependenciesKeeps(s, a, [], env, PLAIN);
    AddDependenciesFrees(s, a, [], env);
    PlaceKeepsOpen(s.(ready := RemoveFirst(s.ready, a), waiting := RemoveFirst(s.waiting, a)), a, env);
  }

  lemma PlaceKeepsOpen(s: KState, id: Id, env: Env)
    requires id in s.nodes && Place(s, id, env).Ok?
    ensures id in Place(s, id, env).value.nodes && Place(s, id, env).value.nodes[id].open == s.nodes[id].open
  {
  }

  lemma WriteStays(s: KState, s': KState, id: Id, a: Id)
    requires Inv(s, PLAIN) && SilentlyRefused(s, a) && id in s.running && id in s.nodes
    requires s' == s || TimeOut(s, id) == Ok(s') || Restart(s, id) == Ok(s')
    ensures SilentlyRefused(s', a)
  {
    hide Inv;
    RunningIsNotWaiting(s, id);
  }

  predicate IsAbout(op: Op, a: Id) {
    op.AddDependenciesOp? && op.id == a
  }

  lemma StepStays(s: KState, op: Op, s': KState, a: Id)
    requires Inv(s, PLAIN) && Step(s, op, s') && SilentlyRefused(s, a) && !IsAbout(op, a)
    ensures SilentlyRefused(s', a)
  {
    hide Inv, SilentlyRefused, Enqueue, AddDependencies, Dispatch, Complete, Fail, WellFormedTask, Enumerates;
    match op
    case EnqueueOp(id, task, env) => if Outcome(s, op).Ok? { EnqueueStays(s, id, task, env, a); }
    case AddDependenciesOp(id, deps, env) => if Outcome(s, op).Ok? { AddDependenciesStays(s, id, deps, env, a); }
    case DispatchOp(limit, env) => if Outcome(s, op).Ok? { DispatchStays(s, limit, env, a); }
    case CompleteOp(id, order, env) => if Outcome(s, op).Ok? { CompleteStays(s, id, order, env, a); }
    case FailOp(id, order, env) => if Outcome(s, op).Ok? { FailStays(s, id, order, env, a); }
    case TimeOutOp(id) => WriteStays(s, s', id, a);
    case RestartOp(id) => WriteStays(s, s', id, a);
  }

  /** A task refused without a reason stays where it is through every run in which nobody calls
      add_dependencies on it. */
  lemma {:induction false} OnlyAddDependenciesFrees(states: seq<KState>, ops: seq<Op>, i: nat, j: nat, a: Id)
    requires Run(states, ops) && i <= j < |states| && SilentlyRefused(states[i], a)
    requires forall m :: i <= m < j ==> !IsAbout(ops[m], a)
    ensures SilentlyRefused(states[j], a)
    decreases j
  {
    hide Inv, Step, SilentlyRefused;
    if i == j {
    } else {
      OnlyAddDependenciesFrees(states, ops, i, j - 1, a);
      RunKeeps(states, ops, j - 1, PLAIN);
      assert Step(states[j - 1], ops[j - 1], states[j - 1 + 1]);
      StepStays(states[j - 1], ops[j - 1], states[j], a);
    }
  }

  // ---- how it comes about ----

  /** The state after the only task, new and without dependencies, was enqueued as `a`. */
  function OneReady(a: Id, task: Task): KState {
    Initial(Fifo).(nodes := map[a := Node(task.(status := Ready), {}, {})], ready := [a])
  }

  function OneSilentlyBlocked(a: Id, task: Task): KState {
    Initial(Fifo).(nodes := map[a := Node(task.(status := Blocked), {}, {})], waiting := [a])
  }

  lemma EnqueueOne(a: Id, task: Task, env: Env)
    requires Fresh(task, [])
    ensures Enqueue(Initial(Fifo), a, task, env) == Ok(OneReady(a, task))
  {
    var s := Initial(Fifo);
    var n := map[a := Node(task, {}, {})];
    var n' := map[a := Node(task.(status := Ready), {}, {})];
    assert Elements(task.declared) == {};
    assert s.nodes[a := Node(task, {}, {})] == n;
    assert Linked(n, a, {}) == n;
    assert Elements(task.declared) - Elements(task.declared) * s.completed == {};
    assert SetOpen(n, a, {}) == n;
    assert EnqueueNodes(s.nodes, s.completed, a, task) == n;
    assert SetTask(n, a, task.(status := Ready)) == n';
    assert StableSort(s.(nodes := n'), env, env.clock(a), [a]) == [a];
  }

  lemma DispatchOneSilently(a: Id, task: Task, env: Env)
    requires Fresh(task, []) && !env.agentMissing(a) && env.grant(a) == Refused("")
    ensures Dispatch(OneReady(a, task), None, env) == Ok((OneSilentlyBlocked(a, task), []))
  {
    var s, s' := OneReady(a, task), OneSilentlyBlocked(a, task);
    assert StableSort(s, env, env.sortClock, [a]) == [a];
    assert BeforeDispatch(s, env) == Ok(s);
    assert SetTask(s.nodes, a, task.(status := Blocked)) == s'.nodes;
    assert DispatchOne(s, env) == Ok((s', false));
    assert DispatchLoop(s', None, env, []) == Ok((s', []));
  }

  /** The resource checker may refuse with an empty reason. Enqueueing one new task and dispatching
      then leads to a state that is stuck although the task has not completed. */
  lemma SilentRefusalStrands(a: Id, task: Task, env: Env)
    requires Fresh(task, []) && !env.agentMissing(a) && env.grant(a) == Refused("")
    ensures
      var states := [Initial(Fifo), OneReady(a, task), OneSilentlyBlocked(a, task)];
      && Run(states, [EnqueueOp(a, task, env), DispatchOp(None, env)])
      && Stuck(states[2]) && SilentlyRefused(states[2], a)
  {
    hide Enqueue, Dispatch;
    EnqueueOne(a, task, env);
    DispatchOneSilently(a, task, env);
    assert Step(Initial(Fifo), EnqueueOp(a, task, env), OneReady(a, task));
    assert Step(OneReady(a, task), DispatchOp(None, env), OneSilentlyBlocked(a, task));
  }
}
