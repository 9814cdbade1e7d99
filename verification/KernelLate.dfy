/** A task enqueued before one of its dependencies. No edge is recorded for a dependency the
    scheduler does not know yet, so nothing ever tells the task that it has completed. */
module KernelLate {
  import opened Graphs
  import opened Tasks
  import opened TaskGraph
  import opened KernelSpec
  import opened KernelRuns
  import opened KernelGrowth
  import opened KernelTheorems

  // ---- when the invariant survives ----

  lemma EnqueuedNode(s: KState, id: Id, task: Task, env: Env)
    requires id !in s.nodes && task.status in {Pending, Ready, Blocked}
    ensures Enqueue(s, id, task, env).Ok?
    ensures
      var n := Enqueue(s, id, task, env).value.nodes;
      && n.Keys == s.nodes.Keys + {id} && n[id].task.declared == task.declared
      && n[id].open == Elements(task.declared) - Elements(task.declared) * s.completed
      && n[id].dependents == if id in task.declared then {id} else {}
  {
    hide StableSort, EnqueueNodes;
    NewNode(s.nodes, s.completed, id, task);
  }

  /** Enqueueing a new task keeps the invariant exactly if its dependencies are known. */
  lemma EnqueueKeepsIff(s: KState, id: Id, task: Task, env: Env, e: Terms)
    requires Inv(s, e) && id !in s.nodes && task.status in {Pending, Ready, Blocked}
    ensures Enqueue(s, id, task, env).Ok?
    ensures Inv(Enqueue(s, id, task, env).value, e) <==> forall d :: d in task.declared ==> d in s.nodes
  {
    hide QueuesAgree, OpenAgree, Enqueue;
    EnqueuedNode(s, id, task, env);
    var n := Enqueue(s, id, task, env).value.nodes;
    if forall d :: d in task.declared ==> d in s.nodes {
      EnqueueKeeps(s, id, task, env, e);
    } else {
      var d :| d in task.declared && d !in s.nodes;
      UnknownBreaksEdges(n, id, d);
    }
  }

  // ---- a dependency that was not recorded ----

  predicate Overdue(s: KState, id: Id, d: Id) {
    Unlinked(s.nodes, id, d) && id !in s.ready && id !in s.running
  }

  /** How it comes about. */
  lemma EnqueuedTooEarly(s: KState, id: Id, task: Task, env: Env, d: Id)
    requires Typed(s) && id !in s.nodes && task.status in {Pending, Ready, Blocked}
    requires d in task.declared && d != id && d !in s.nodes && d !in s.completed
    ensures Enqueue(s, id, task, env).Ok? && Overdue(Enqueue(s, id, task, env).value, id, d)
  {
    hide StableSort;
    EnqueuedNode(s, id, task, env);
  }

  // ---- every operation leaves it so ----

  lemma PlaceLate(s: KState, k: Id, env: Env, id: Id, d: Id)
    requires Overdue(s, id, d) && k in s.nodes && Place(s, k, env).Ok?
    ensures Overdue(Place(s, k, env).value, id, d)
  {
    hide StableSort;
    if s.nodes[k].open == {} {
      var t := Transition(s.nodes[k].task, Ready).value;
      SortPermutes(s.(nodes := SetTask(s.nodes, k, t)), env, env.clock(k), s.ready + [k]);
    }
  }

  lemma EnqueueLate(s: KState, k: Id, task: Task, env: Env, id: Id, d: Id)
    requires Overdue(s, id, d) && k !in s.nodes && Enqueue(s, k, task, env).Ok?
    ensures Overdue(Enqueue(s, k, task, env).value, id, d)
  {
    hide Place, EnqueueNodes;
    TaskGraph.EnqueueLate(s.nodes, s.completed, k, task, id, d);
    NewNode(s.nodes, s.completed, k, task);
    PlaceLate(s.(nodes := EnqueueNodes(s.nodes, s.completed, k, task)), k, env, id, d);
  }

  lemma AddDependenciesLate(s: KState, k: Id, deps: seq<Id>, env: Env, id: Id, d: Id)
    requires Overdue(s, id, d) && AddDependencies(s, k, deps, env).Ok?
    ensures Overdue(AddDependencies(s, k, deps, env).value, id, d)
  {
    hide Place, AddAll, RemoveFirst, FirstBad;
    var s1 := HalfLinked(s, k, deps);
    AddAllLate(s.nodes, s.completed, k, Unique(deps), id, d);
    RemoveFirstKeeps(s.ready, k);
    PlaceLate(s1, k, env, id, d);
  }

  lemma ReleaseLate(s: KState, k: Id, env: Env, id: Id, d: Id)
    requires Overdue(s, id, d) && k in s.nodes && k != id && Release(s, k, env).Ok?
    ensures Overdue(Release(s, k, env).value, id, d)
  {
    hide StableSort, RemoveFirst;
    var s1 := s.(nodes := SetTask(s.nodes, k, Unblock(s.nodes[k].task).value), waiting := RemoveFirst(s.waiting, k));
    SortPermutes(s1, env, env.clock(k), s1.ready + [k]);
  }

  lemma ReleaseOneLate(s: KState, x: Id, k: Id, env: Env, id: Id, d: Id)
    requires Overdue(s, id, d) && !(k == id && x == d) && ReleaseOne(s, x, k, env).Ok?
    ensures Overdue(ReleaseOne(s, x, k, env).value, id, d)
  {
    hide Release;
    if k in s.nodes {
      var s1 := s.(nodes := SetOpen(s.nodes, k, s.nodes[k].open - {x}));
      assert Overdue(s1, id, d);
      if s1.nodes[k].open == {} && k in s1.waiting { ReleaseLate(s1, k, env, id, d); }
    }
  }

  lemma {:induction false} ReleaseAllLate(s: KState, x: Id, order: seq<Id>, env: Env, id: Id, d: Id)
    requires Overdue(s, id, d) && (x == d ==> id !in order) && ReleaseAll(s, x, order, env).Ok?
    ensures Overdue(ReleaseAll(s, x, order, env).value, id, d)
    decreases |order|
  {
    hide ReleaseOne, Overdue;
    if order == [] {
    } else {
      ReleaseOneLate(s, x, order[0], env, id, d);
      ReleaseAllLate(ReleaseOne(s, x, order[0], env).value, x, order[1..], env, id, d);
    }
  }

  lemma FailOneLate(s: KState, x: Id, k: Id, env: Env, id: Id, d: Id)
    requires Overdue(s, id, d) && x in s.nodes && !(k == id && x == d) && FailOne(s, x, k, env).Ok?
    ensures Overdue(FailOne(s, x, k, env).value, id, d) && x in FailOne(s, x, k, env).value.nodes
  {
    hide ReleaseOne, RemoveFirst, EffectiveMode;
    if k in s.nodes {
      RemoveFirstKeeps(s.ready, k);
      if Waives(EffectiveMode(s.nodes[k].task, x, s.nodes[x].task)) {
        ReleaseOneLate(s, x, k, env, id, d);
        ReleaseOneKnows(s, x, k, env);
      }
    }
  }

  lemma ReleaseOneKnows(s: KState, x: Id, k: Id, env: Env)
    requires ReleaseOne(s, x, k, env).Ok?
    ensures ReleaseOne(s, x, k, env).value.nodes.Keys == s.nodes.Keys
  {
    hide StableSort;
  }

  lemma {:induction false} FailAllLate(s: KState, x: Id, order: seq<Id>, env: Env, id: Id, d: Id)
    requires Overdue(s, id, d) && x in s.nodes && (x == d ==> id !in order) && FailAll(s, x, order, env).Ok?
    ensures Overdue(FailAll(s, x, order, env).value, id, d)
    decreases |order|
  {
    hide FailOne, Overdue;
    if order == [] {
    } else {
      FailOneLate(s, x, order[0], env, id, d);
      FailAllLate(FailOne(s, x, order[0], env).value, x, order[1..], env, id, d);
    }
  }

  lemma WakeOneLate(s: KState, k: Id, env: Env, id: Id, d: Id)
    requires Overdue(s, id, d) && k in s.nodes && WakeOne(s, k, env).Ok?
    ensures Overdue(WakeOne(s, k, env).value, id, d)
  {
    hide Release;
    if s.nodes[k].open == {} && s.nodes[k].task.blockReason != "" && env.wake(k).Granted? {
      ReleaseLate(s, k, env, id, d);
    }
  }

  lemma {:induction false} WakeLate(s: KState, todo: seq<Id>, env: Env, id: Id, d: Id)
    requires Overdue(s, id, d) && (forall k :: k in todo ==> k in s.nodes) && Wake(s, todo, env).Ok?
    ensures Overdue(Wake(s, todo, env).value, id, d)
    decreases |todo|
  {
    hide Overdue;
    if todo == [] {
    } else {
      WakeOneLate(s, todo[0], env, id, d);
      WakeLate(WakeOne(s, todo[0], env).value, todo[1..], env, id, d);
    }
  }

  lemma DispatchOneLate(s: KState, env: Env, id: Id, d: Id)
    requires Overdue(s, id, d) && s.ready != [] && s.ready[0] in s.nodes && DispatchOne(s, env).Ok?
    ensures Overdue(DispatchOne(s, env).value.0, id, d)
  {
    hide RemoveFirst;
    assert s.ready[0] in s.ready;
    RemoveFirstKeeps(s.ready[1..], s.ready[0]);
  }

  /** The task is not handed out either. */
  lemma {:induction false} DispatchLoopLate(
    s: KState, limit: Option<int>, env: Env, out: seq<Id>, id: Id, d: Id)
    requires Overdue(s, id, d) && (forall k :: k in s.ready ==> k in s.nodes) && id !in out
    requires DispatchLoop(s, limit, env, out).Ok?
    ensures Overdue(DispatchLoop(s, limit, env, out).value.0, id, d)
    ensures id !in DispatchLoop(s, limit, env, out).value.1
    decreases |s.ready|
  {
    hide DispatchOne, Unlinked;
    if s.ready == [] || (limit.Some? && |out| >= limit.value) {
    } else {
      assert s.ready[0] in s.ready;
      DispatchOneLate(s, env, id, d);
      ReadyShrinks(s, env);
      var r := DispatchOne(s, env).value;
      DispatchLoopLate(r.0, limit, env, if r.1 then out + [s.ready[0]] else out, id, d);
    }
  }

  lemma DispatchLate(s: KState, limit: Option<int>, env: Env, id: Id, d: Id)
    requires Overdue(s, id, d) && Typed(s) && Dispatch(s, limit, env).Ok?
    ensures Overdue(Dispatch(s, limit, env).value.0, id, d) && id !in Dispatch(s, limit, env).value.1
  {
    hide DispatchLoop, Wake, StableSort, Unlinked;
    WakeTyped(s, s.waiting, env);
    if s.ready == [] { WakeLate(s, s.waiting, env, id, d); }
    var s1 := if s.ready == [] then Wake(s, s.waiting, env).value else s;
    SortPermutes(s1, env, env.sortClock, s1.ready);
    DispatchLoopLate(BeforeDispatch(s, env).value, limit, env, [], id, d);
  }

  lemma CompleteLate(s: KState, x: Id, order: seq<Id>, env: Env, id: Id, d: Id)
    requires Overdue(s, id, d) && Typed(s) && Complete(s, x, order, env).Ok?
    requires x in s.nodes ==> Enumerates(order, s.nodes[x].dependents)
    ensures Overdue(Complete(s, x, order, env).value, id, d)
  {
    hide ReleaseAll, NoDuplicates;
    var s1 := MarkCompleted(s, x).value;
    if x in s.nodes {
      ReleaseAllLate(s1.(completed := s1.completed + {x}), x, order, env, id, d);
    }
  }

  lemma FailLate(s: KState, x: Id, order: seq<Id>, env: Env, id: Id, d: Id)
    requires Overdue(s, id, d) && Typed(s) && Fail(s, x, order, env).Ok?
    requires x in s.nodes ==> Enumerates(order, s.nodes[x].dependents)
    ensures Overdue(Fail(s, x, order, env).value, id, d)
  {
    hide FailAll, NoDuplicates;
    var s1 := MarkFailed(s, x).value;
    if x in s.nodes {
      FailAllLate(s1.(failed := s1.failed + {x}), x, order, env, id, d);
    }
  }

  // ---- wake_blocked and block_task ----

  function WakeBlocked(s: KState, k: Id, env: Env): Result<KState>
    requires Typed(s)
  {
    if k in s.waiting then Release(s, k, env) else Ok(s)
  }

  function BlockTask(s: KState, k: Id): Result<KState>
    requires k in s.nodes
  {
    var t :- Block(s.nodes[k].task, "blocked");
    var s1 := RemoveFromQueues(s.(running := s.running - {k}), k);
    Ok(s1.(nodes := SetTask(s.nodes, k, t), waiting := s1.waiting + [k]))
  }

  lemma BlockTaskLate(s: KState, k: Id, id: Id, d: Id)
    requires Overdue(s, id, d) && k in s.nodes && BlockTask(s, k).Ok?
    ensures Overdue(BlockTask(s, k).value, id, d)
  {
    hide RemoveFirst;
    RemoveFirstKeeps(s.ready, k);
  }

  /** wake_blocked does not look at dependencies. */
  lemma WakeBlockedHandsItOver(s: KState, id: Id, env: Env, d: Id)
    requires Typed(s) && Overdue(s, id, d) && id in s.waiting && WakeBlocked(s, id, env).Ok?
    ensures
      var s' := WakeBlocked(s, id, env).value;
      id in s'.ready && id in s'.nodes && d in s'.nodes[id].open
  {
    hide StableSort, RemoveFirst;
    var s1 := s.(nodes := SetTask(s.nodes, id, Unblock(s.nodes[id].task).value), waiting := RemoveFirst(s.waiting, id));
    SortPermutes(s1, env, env.clock(id), s1.ready + [id]);
  }

  // ---- runs ----

  datatype Call =
    | Usual(op: Op)
    | Wakes(id: Id, env: Env)
    | Blocks(id: Id)

  /** Any call: tasks may come before their dependencies, and ends may be reported of tasks that do
      not run. */
  ghost predicate Permitted(s: KState, c: Call) {
    match c
    case Wakes(_, _) => Typed(s)
    case Blocks(k) => k in s.nodes
    case Usual(op) =>
      && (op.EnqueueOp? ==> op.id !in s.nodes)
      && (op.DispatchOp? || op.CompleteOp? || op.FailOp? ==> Typed(s))
      && (op.TimeOutOp? || op.RestartOp? ==> op.id in s.nodes)
      && ((op.CompleteOp? || op.FailOp?) && op.id in s.nodes ==> Enumerates(op.order, s.nodes[op.id].dependents))
  }

  ghost function Effect(s: KState, c: Call): Result<KState>
    requires Permitted(s, c)
  {
    match c
    case Usual(op) => Outcome(s, op)
    case Wakes(k, env) => WakeBlocked(s, k, env)
    case Blocks(k) => BlockTask(s, k)
  }

  ghost predicate AnyStep(s: KState, c: Call, s': KState) {
    && Permitted(s, c)
    && match Effect(s, c)
       case Ok(r) => s' == r
       case Err(x) => !x.InvalidTransition? && s' == s
  }

  lemma AnyStepLate(s: KState, c: Call, s': KState, id: Id, d: Id)
    requires AnyStep(s, c, s') && Overdue(s, id, d) && !(c.Wakes? && c.id == id)
    ensures Overdue(s', id, d)
  {
    hide Overdue, Enqueue, AddDependencies, Dispatch, Complete, Fail, Enumerates, WakeBlocked, BlockTask, TimeOut,
      Restart;
    if Effect(s, c).Ok? {
      match c
      case Wakes(k, env) => WakeBlockedLate(s, k, env, id, d);
      case Blocks(k) => BlockTaskLate(s, k, id, d);
      case Usual(op) =>
        match op
        case EnqueueOp(k, task, env) => EnqueueLate(s, k, task, env, id, d);
        case AddDependenciesOp(k, deps, env) => AddDependenciesLate(s, k, deps, env, id, d);
        case DispatchOp(limit, env) => DispatchLate(s, limit, env, id, d);
        case CompleteOp(x, order, env) => CompleteLate(s, x, order, env, id, d);
        case FailOp(x, order, env) => FailLate(s, x, order, env, id, d);
        case TimeOutOp(x) => WriteLate(s, s', x, id, d);
        case RestartOp(x) => WriteLate(s, s', x, id, d);
    }
  }

  lemma WakeBlockedLate(s: KState, k: Id, env: Env, id: Id, d: Id)
    requires Typed(s) && Overdue(s, id, d) && k != id && WakeBlocked(s, k, env).Ok?
    ensures Overdue(WakeBlocked(s, k, env).value, id, d)
  {
    hide Release, Overdue;
    if k in s.waiting { ReleaseLate(s, k, env, id, d); }
  }

  lemma WriteLate(s: KState, s': KState, x: Id, id: Id, d: Id)
    requires Overdue(s, id, d) && x in s.nodes && (TimeOut(s, x) == Ok(s') || Restart(s, x) == Ok(s'))
    ensures Overdue(s', id, d)
  {
  }

  /** A task enqueued before a dependency is never handed out, whatever is called afterwards except
      wake_blocked on it: not when the dependency completes, and not after naming it once more in
      add_dependencies. */
  lemma {:induction false} LateDependencyIsNeverMet(states: seq<KState>, calls: seq<Call>, k: nat, id: Id, d: Id)
    requires |states| == |calls| + 1 && k < |states| && Overdue(states[0], id, d)
    requires forall i :: 0 <= i < |calls| ==> AnyStep(states[i], calls[i], states[i + 1])
    requires forall i :: 0 <= i < |calls| ==> !(calls[i].Wakes? && calls[i].id == id)
    ensures Overdue(states[k], id, d)
    ensures k < |calls| && calls[k].Usual? && calls[k].op.DispatchOp? && Typed(states[k]) ==>
      var r := Dispatch(states[k], calls[k].op.limit, calls[k].op.env);
      r.Ok? ==> id !in r.value.1
  {
    hide Overdue, Dispatch;
    if k == 0 {
    } else {
      LateDependencyIsNeverMet(states[..k], calls[..k - 1], k - 1, id, d);
      assert AnyStep(states[k - 1], calls[k - 1], states[k - 1 + 1]);
      AnyStepLate(states[k - 1], calls[k - 1], states[k], id, d);
    }
    if k < |calls| && calls[k].Usual? && calls[k].op.DispatchOp? && Typed(states[k]) {
      if Dispatch(states[k], calls[k].op.limit, calls[k].op.env).Ok? {
        DispatchLate(states[k], calls[k].op.limit, calls[k].op.env, id, d);
      }
    }
  }
}
