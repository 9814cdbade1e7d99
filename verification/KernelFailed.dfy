/** Which failed tasks the failed queue holds. */
module KernelFailed {
  import opened Graphs
  import opened Tasks
  import opened TaskGraph
  import opened KernelSpec
  import opened KernelRuns
  import opened KernelGrowth
  import opened KernelTheorems

  /** A failed dependency that no edge waives is still open. */
  ghost predicate HeldBack(s: KState, id: Id)
    requires id in s.nodes
  {
    exists d :: d in s.nodes[id].open && Blocks(s, id, d)
  }

  ghost predicate Blocks(s: KState, id: Id, d: Id)
    requires id in s.nodes
  {
    d in s.failed && d in s.nodes && !Excused(s.nodes[id].task, d, s.nodes[d].task)
  }

  /** A failed task that ran is in the failed queue; one failed by a dependency is in none. */
  ghost predicate FailedOk(s: KState, id: Id)
    requires id in s.nodes
  {
    s.nodes[id].task.status == Failed ==>
      if s.nodes[id].open == {} then id in s.failedQ else id !in s.failedQ && HeldBack(s, id)
  }

  ghost predicate FailedInv(s: KState) {
    forall id :: id in s.nodes ==> FailedOk(s, id)
  }

  lemma BlocksFrame(s: KState, s': KState, id: Id, d: Id)
    requires id in s.nodes && id in s'.nodes && SameModes(s.nodes, s'.nodes) && s.failed <= s'.failed
    requires Blocks(s, id, d)
    ensures Blocks(s', id, d)
  {
  }

  /** One task changes, the others keep status, open set and place in the failed queue. */
  lemma FailedFrame(s: KState, s': KState, id: Id)
    requires FailedInv(s) && SameModes(s.nodes, s'.nodes) && s.failed <= s'.failed
    requires s'.nodes.Keys == s.nodes.Keys + {id}
    requires forall k :: k in s.nodes && k != id ==>
      && s'.nodes[k].task.status == s.nodes[k].task.status && s'.nodes[k].open == s.nodes[k].open
      && (k in s'.failedQ <==> k in s.failedQ)
    requires FailedOk(s', id)
    ensures FailedInv(s')
  {
    hide SameModes, Blocks;
    forall k | k in s'.nodes ensures FailedOk(s', k) {
      if k != id {
        assert FailedOk(s, k);
        if s.nodes[k].task.status == Failed && s.nodes[k].open != {} {
          var d :| d in s.nodes[k].open && Blocks(s, k, d);
          BlocksFrame(s, s', k, d);
        }
      }
    }
  }

  lemma SameGraphModes(n: Nodes, n': Nodes)
    requires SameGraph(n, n')
    ensures SameModes(n, n')
  {
  }

  // ---- complete_task and fail_task ----

  lemma ReleaseKeepsFailed(s: KState, id: Id, env: Env)
    requires FailedInv(s) && id in s.nodes && Release(s, id, env).Ok?
    ensures FailedInv(Release(s, id, env).value)
  {
    hide FailedInv, StableSort;
    var s' := Release(s, id, env).value;
    FailedFrame(s, s', id);
  }

  /** x, no longer open for dep, is not what holds dep back. */
  lemma ReleaseOneKeepsFailed(s: KState, x: Id, dep: Id, env: Env)
    requires FailedInv(s) && ReleaseOne(s, x, dep, env).Ok?
    requires dep in s.nodes ==> !Blocks(s, dep, x)
    ensures FailedInv(ReleaseOne(s, x, dep, env).value)
  {
    hide FailedInv, Blocks, Release;
    if dep in s.nodes {
      var s1 := s.(nodes := SetOpen(s.nodes, dep, s.nodes[dep].open - {x}));
      OpenShrinks(s, s1, x, dep);
      FailedFrame(s, s1, dep);
      if s1.nodes[dep].open == {} && dep in s1.waiting { ReleaseKeepsFailed(s1, dep, env); }
    }
  }

  lemma OpenShrinks(s: KState, s1: KState, x: Id, dep: Id)
    requires FailedInv(s) && dep in s.nodes && !Blocks(s, dep, x)
    requires s1 == s.(nodes := SetOpen(s.nodes, dep, s.nodes[dep].open - {x}))
    ensures FailedOk(s1, dep) && SameModes(s.nodes, s1.nodes)
  {
    hide Blocks;
    assert FailedOk(s, dep);
    if s.nodes[dep].task.status == Failed && s.nodes[dep].open != {} {
      var d :| d in s.nodes[dep].open && Blocks(s, dep, d);
      assert d in s1.nodes[dep].open;
      BlocksFrame(s, s1, dep, d);
    }
  }

  lemma {:induction false} ReleaseAllKeepsFailed(s: KState, x: Id, order: seq<Id>, env: Env, e: Terms)
    requires NoDuplicates(order) && InvDuring(s, x, Elements(order), e) && x in s.completed && FailedInv(s)
    requires x !in s.failed
    ensures ReleaseAll(s, x, order, env).Ok?
    ensures FailedInv(ReleaseAll(s, x, order, env).value)
    decreases |order|
  {
    hide InvDuring, FailedInv, SameGraph, ReleaseOne;
    if order == [] {
    } else {
      TailElements(order);
      ReleaseOneKeeps(s, x, order[0], env, Elements(order), e);
      ReleaseOneKeepsFailed(s, x, order[0], env);
      ReleaseAllKeepsFailed(ReleaseOne(s, x, order[0], env).value, x, order[1..], env, e);
    }
  }

  lemma CompleteKeepsFailed(s: KState, x: Id, order: seq<Id>, env: Env)
    requires Inv(s, PLAIN) && FailedInv(s) && x in s.running && s.nodes[x].task.status == Running
    requires Enumerates(order, s.nodes[x].dependents)
    ensures Complete(s, x, order, env).Ok? && FailedInv(Complete(s, x, order, env).value)
  {
    hide InvDuring, FailedInv, ReleaseAll, SameGraph;
    RunningFacts(s, x, PLAIN);
    var s1 := MarkCompleted(s, x).value.(completed := s.completed + {x});
    EndedKeeps(s, s1, x, PLAIN);
    SameGraphModes(s.nodes, s1.nodes);
    FailedFrame(s, s1, x);
    assert Elements(order) == s.nodes[x].dependents;
    ReleaseAllKeepsFailed(s1, x, order, env, PLAIN);
  }

  lemma FailClosedKeepsFailed(s: KState, x: Id, dep: Id, env: Env)
    requires FailedInv(s) && x in s.nodes && dep in s.nodes && x in s.failed && x in s.nodes[dep].open
    requires NoDuplicates(s.failedQ) && FailOne(s, x, dep, env).Ok?
    requires EffectiveMode(s.nodes[dep].task, x, s.nodes[x].task) == Some(FailClosed)
    ensures FailedInv(FailOne(s, x, dep, env).value)
  {
    hide FailedInv, NoDuplicates, RemoveFirst;
    var s' := FailOne(s, x, dep, env).value;
    AppendOnceDistinct(s.failedQ, dep);
    RemoveFirstDistinct(AppendOnce(s.failedQ, dep), dep);
    assert Blocks(s', dep, x);
    FailedFrame(s, s', dep);
  }

  lemma FailOneKeepsFailed(s: KState, x: Id, dep: Id, env: Env)
    requires FailedInv(s) && x in s.nodes && dep in s.nodes && x in s.failed && x in s.nodes[dep].open
    requires NoDuplicates(s.failedQ) && FailOne(s, x, dep, env).Ok?
    ensures FailedInv(FailOne(s, x, dep, env).value)
  {
    hide FailedInv, ReleaseOne, NoDuplicates;
    var mode := EffectiveMode(s.nodes[dep].task, x, s.nodes[x].task);
    if mode == Some(FailClosed) {
      FailClosedKeepsFailed(s, x, dep, env);
    } else if Waives(mode) {
      ReleaseOneKeepsFailed(s, x, dep, env);
    }
  }

  lemma DuringFacts(s: KState, x: Id, rest: set<Id>, e: Terms, dep: Id)
    requires InvDuring(s, x, rest, e) && dep in rest
    ensures NoDuplicates(s.failedQ) && dep in s.nodes && x in s.nodes[dep].open
  {
  }

  lemma {:induction false} FailAllKeepsFailed(s: KState, x: Id, order: seq<Id>, env: Env, e: Terms)
    requires NoDuplicates(order) && InvDuring(s, x, Elements(order), e) && x in s.failed && x in s.nodes && FailedInv(s)
    requires e.reopened == {}
    ensures FailAll(s, x, order, env).Ok?
    ensures FailedInv(FailAll(s, x, order, env).value)
    decreases |order|
  {
    hide InvDuring, FailedInv, SameGraph, FailOne;
    if order == [] {
    } else {
      TailElements(order);
      DuringFacts(s, x, Elements(order), e, order[0]);
      FailOneKeeps(s, x, order[0], env, Elements(order), e);
      FailOneKeepsFailed(s, x, order[0], env);
      FailAllKeepsFailed(FailOne(s, x, order[0], env).value, x, order[1..], env, e);
    }
  }

  lemma FailKeepsFailed(s: KState, x: Id, order: seq<Id>, env: Env)
    requires Inv(s, PLAIN) && FailedInv(s) && x in s.running && Enumerates(order, s.nodes[x].dependents)
    ensures Fail(s, x, order, env).Ok? && FailedInv(Fail(s, x, order, env).value)
  {
    hide InvDuring, FailedInv, FailAll, SameGraph;
    RunningFacts(s, x, PLAIN);
    var s1 := MarkFailed(s, x).value.(failed := s.failed + {x});
    EndedKeeps(s, s1, x, PLAIN);
    SameGraphModes(s.nodes, s1.nodes);
    FailedFrame(s, s1, x);
    assert Elements(order) == s.nodes[x].dependents;
    FailAllKeepsFailed(s1, x, order, env, PLAIN);
  }

  // ---- dispatch_ready ----

  lemma WakeOneKeepsFailed(s: KState, id: Id, env: Env)
    requires FailedInv(s) && id in s.nodes && WakeOne(s, id, env).Ok?
    requires s.nodes[id].task.status in {Pending, Blocked}
    ensures FailedInv(WakeOne(s, id, env).value)
  {
    hide FailedInv, Release;
    if s.nodes[id].open == {} && s.nodes[id].task.blockReason != "" {
      if env.wake(id).Granted? {
        ReleaseKeepsFailed(s, id, env);
      } else {
        FailedFrame(s, WakeOne(s, id, env).value, id);
      }
    }
  }

  lemma WaitingStatus(s: KState, id: Id)
    requires Inv(s, PLAIN) && id in s.waiting && id in s.nodes
    ensures s.nodes[id].task.status in {Pending, Blocked}
  {
    hide EdgesAgree, OpenAgree;
    QueueFacts(s, id);
  }

  lemma {:induction false} WakeKeepsFailed(s: KState, todo: seq<Id>, env: Env)
    requires Inv(s, PLAIN) && FailedInv(s) && NoDuplicates(todo)
    requires forall id :: id in todo ==> id in s.waiting && id in s.nodes
    ensures Wake(s, todo, env).Ok? && FailedInv(Wake(s, todo, env).value)
    decreases |todo|
  {
    hide Inv, FailedInv, SameGraph, WakeOne;
    if todo == [] {
    } else {
      TailElements(todo);
      WakeOneKeeps(s, todo[0], env, PLAIN);
      WaitingStatus(s, todo[0]);
      WakeOneKeepsFailed(s, todo[0], env);
      var s1 := WakeOne(s, todo[0], env).value;
      SameGraphKeys(s.nodes, s1.nodes);
      WakeKeepsFailed(s1, todo[1..], env);
    }
  }

  /** A pop of the dispatch loop changes one task, and not to FAILED. */
  lemma DispatchOneShape(s: KState, env: Env)
    requires s.ready != [] && s.ready[0] in s.nodes && DispatchOne(s, env).Ok? && s.ready[0] !in s.failedQ
    ensures
      var id, s' := s.ready[0], DispatchOne(s, env).value.0;
      && id in s'.nodes && s'.nodes == SetTask(s.nodes, id, s'.nodes[id].task) && s'.nodes[id].task.status != Failed
      && s'.failedQ == s.failedQ && s'.failed == s.failed
      && s'.nodes[id].task.edgeModes == s.nodes[id].task.edgeModes
      && s'.nodes[id].task.ownMode == s.nodes[id].task.ownMode
  {
    hide RemoveFirst;
    RemoveAbsent(s.failedQ, s.ready[0]);
  }

  lemma DispatchOneKeepsFailed(s: KState, env: Env)
    requires FailedInv(s) && s.ready != [] && s.ready[0] in s.nodes && DispatchOne(s, env).Ok?
    requires s.ready[0] !in s.failedQ
    ensures FailedInv(DispatchOne(s, env).value.0)
  {
    hide FailedInv, DispatchOne;
    DispatchOneShape(s, env);
    FailedFrame(s, DispatchOne(s, env).value.0, s.ready[0]);
  }

  lemma ReadyNotFailed(s: KState, id: Id)
    requires Inv(s, PLAIN) && id in s.ready && id in s.nodes
    ensures id !in s.failedQ
  {
    hide EdgesAgree, OpenAgree;
    QueueFacts(s, id);
  }

  lemma {:induction false} DispatchLoopKeepsFailed(s: KState, limit: Option<int>, env: Env, out: seq<Id>)
    requires Inv(s, PLAIN) && FailedInv(s) && (forall id :: id in s.ready ==> id in s.nodes)
    ensures DispatchLoop(s, limit, env, out).Ok? ==> FailedInv(DispatchLoop(s, limit, env, out).value.0)
    decreases |s.ready|
  {
    hide Inv, FailedInv, SameGraph, DispatchOne;
    if s.ready == [] || (limit.Some? && |out| >= limit.value) {
    } else {
      DispatchOneKeeps(s, env, PLAIN);
      ReadyNotFailed(s, s.ready[0]);
      DispatchOneKeepsFailed(s, env);
      ReadyShrinks(s, env);
      var r := DispatchOne(s, env).value;
      DispatchLoopKeepsFailed(r.0, limit, env, if r.1 then out + [s.ready[0]] else out);
    }
  }

  lemma DispatchKeepsFailed(s: KState, limit: Option<int>, env: Env)
    requires Inv(s, PLAIN) && FailedInv(s) && Typed(s)
    ensures Dispatch(s, limit, env).Ok? ==> FailedInv(Dispatch(s, limit, env).value.0)
  {
    hide Inv, FailedInv, DispatchLoop, Wake, StableSort;
    InvFacts(s, PLAIN);
    if s.ready == [] { WakeKeepsFailed(s, s.waiting, env); }
    BeforeDispatchKeeps(s, env, PLAIN);
    var s1 := if s.ready == [] then Wake(s, s.waiting, env).value else s;
    var q := BeforeDispatch(s, env).value;
    SortKeepsFailed(s1, q.ready);
    DispatchLoopKeepsFailed(q, limit, env, []);
  }

  lemma SortKeepsFailed(s: KState, ready: seq<Id>)
    requires FailedInv(s)
    ensures FailedInv(s.(ready := ready))
  {
    hide Blocks;
    var s' := s.(ready := ready);
    forall id | id in s'.nodes ensures FailedOk(s', id) {
      assert FailedOk(s, id);
      if s.nodes[id].task.status == Failed && s.nodes[id].open != {} {
        var d :| d in s.nodes[id].open && Blocks(s, id, d);
        BlocksFrame(s, s', id, d);
      }
    }
  }

  // ---- growth ----

  lemma PlaceShape(s: KState, id: Id, env: Env)
    requires id in s.nodes && Place(s, id, env).Ok?
    ensures
      var s' := Place(s, id, env).value;
      && id in s'.nodes && s'.nodes == SetTask(s.nodes, id, s'.nodes[id].task) && s'.nodes[id].task.status != Failed
      && s'.failedQ == s.failedQ && s'.failed == s.failed
      && s'.nodes[id].task.edgeModes == s.nodes[id].task.edgeModes
      && s'.nodes[id].task.ownMode == s.nodes[id].task.ownMode
  {
    hide StableSort;
  }

  lemma LiftedOthers(s: KState, s1: KState, id: Id, deps: set<Id>)
    requires Lifted(s, s1, id, deps)
    ensures id in s1.nodes && s1.nodes.Keys == s.nodes.Keys + {id}
    ensures SameModes(s.nodes, s1.nodes) && s1.failedQ == s.failedQ && s1.failed == s.failed
    ensures forall k :: k in s.nodes && k != id ==>
      s1.nodes[k].task == s.nodes[k].task && s1.nodes[k].open == s.nodes[k].open
  {
    hide RemoveFirst, OpenOf, DeclaredBy;
    GrownModes(s.nodes, s1.nodes, id, deps);
  }

  lemma PlaceKeepsFailed(s: KState, s1: KState, id: Id, deps: set<Id>, env: Env)
    requires FailedInv(s) && Lifted(s, s1, id, deps) && id in s1.nodes && Place(s1, id, env).Ok?
    ensures FailedInv(Place(s1, id, env).value)
  {
    hide FailedInv, Lifted, Place;
    LiftedOthers(s, s1, id, deps);
    PlaceShape(s1, id, env);
    FailedFrame(s, Place(s1, id, env).value, id);
  }

  lemma EnqueueKeepsFailed(s: KState, id: Id, task: Task, env: Env)
    requires Inv(s, PLAIN) && FailedInv(s) && WellFormedTask(s, id, task) && Enqueue(s, id, task, env).Ok?
    ensures FailedInv(Enqueue(s, id, task, env).value)
  {
    hide QueuesAgree, OpenAgree, EdgesAgree, FailedInv, Place, EnqueueNodes, Lifted;
    EnqueueLifts(s, id, task);
    LiftedOthers(s, s.(nodes := EnqueueNodes(s.nodes, s.completed, id, task)), id, Elements(task.declared));
    PlaceKeepsFailed(s, s.(nodes := EnqueueNodes(s.nodes, s.completed, id, task)), id, Elements(task.declared), env);
  }

  lemma AddDependenciesKeepsFailed(s: KState, id: Id, deps: seq<Id>, env: Env)
    requires Inv(s, PLAIN) && FailedInv(s) && AddDependencies(s, id, deps, env).Ok?
    ensures FailedInv(AddDependencies(s, id, deps, env).value)
  {
    hide QueuesAgree, OpenAgree, EdgesAgree, FailedInv, Place, AddAll, FirstBad, RemoveFirst;
    AddDependenciesOutcome(s, id, deps, env, PLAIN);
    QueueFacts(s, id);
    OpenIsLinked(s, id, PLAIN);
    AddAllGrows(s.nodes, s.completed, id, Unique(deps));
    var s1 := HalfLinked(s, id, deps);
    PlaceKeepsFailed(s, s1, id, Elements(Unique(deps)), env);
  }

  // ---- runs ----

  lemma StepKeepsFailed(s: KState, op: Op, s': KState)
    requires Inv(s, PLAIN) && FailedInv(s) && Step(s, op, s')
    ensures FailedInv(s')
  {
    hide Inv, FailedInv, Enqueue, AddDependencies, Dispatch, Complete, Fail, WellFormedTask, Enumerates;
    match op
    case EnqueueOp(id, task, env) => if Outcome(s, op).Ok? { EnqueueKeepsFailed(s, id, task, env); }
    case AddDependenciesOp(id, deps, env) => if Outcome(s, op).Ok? { AddDependenciesKeepsFailed(s, id, deps, env); }
    case DispatchOp(limit, env) => DispatchKeepsFailed(s, limit, env);
    case CompleteOp(id, order, env) => CompleteKeepsFailed(s, id, order, env);
    case FailOp(id, order, env) => FailKeepsFailed(s, id, order, env);
    case TimeOutOp(id) => WriteKeepsFailed(s, s', id);
    case RestartOp(id) => WriteKeepsFailed(s, s', id);
  }

  lemma WriteKeepsFailed(s: KState, s': KState, id: Id)
    requires FailedInv(s) && id in s.nodes && s.nodes[id].task.status in {Running, Timeout}
    requires TimeOut(s, id) == Ok(s') || Restart(s, id) == Ok(s')
    ensures FailedInv(s')
  {
    hide FailedInv, SameGraph, TimeOut, Restart;
    WriteShape(s, s', id);
    SameGraphModes(s.nodes, s'.nodes);
    FailedFrame(s, s', id);
  }

  lemma WriteShape(s: KState, s': KState, id: Id)
    requires id in s.nodes && (TimeOut(s, id) == Ok(s') || Restart(s, id) == Ok(s'))
    ensures id in s'.nodes && s' == s.(nodes := SetTask(s.nodes, id, s'.nodes[id].task))
    ensures SameGraph(s.nodes, s'.nodes) && s'.nodes[id].task.status in {Running, Timeout}
  {
  }

  lemma {:induction false} RunKeepsFailed(states: seq<KState>, ops: seq<Op>, k: nat)
    requires Run(states, ops) && k < |states|
    ensures FailedInv(states[k])
  {
    hide Inv, Step, FailedOk;
    if k == 0 {
    } else {
      RunKeepsFailed(states, ops, k - 1);
      RunKeeps(states, ops, k - 1, PLAIN);
      assert Step(states[k - 1], ops[k - 1], states[k - 1 + 1]);
      StepKeepsFailed(states[k - 1], ops[k - 1], states[k]);
    }
  }

  predicate InSomeQueue(s: KState, id: Id) {
    id in s.ready || id in s.waiting || id in s.running || id in s.failedQ || id in s.completedQ
  }

  /** In every reachable state the failed queue holds exactly the failed tasks with nothing open, so
      a known task is in no queue exactly if it failed with a dependency open. */
  lemma FailedQueueIsExact(states: seq<KState>, ops: seq<Op>, k: nat, id: Id)
    requires Run(states, ops) && k < |states| && id in states[k].nodes
    ensures
      var s := states[k];
      && (id in s.failedQ <==> s.nodes[id].task.status == Failed && s.nodes[id].open == {})
      && (!InSomeQueue(s, id) <==> s.nodes[id].task.status == Failed && s.nodes[id].open != {})
  {
    hide Run, EdgesAgree, OpenAgree, HeldBack;
    RunKeeps(states, ops, k, PLAIN);
    RunKeepsFailed(states, ops, k);
    QueueFacts(states[k], id);
    assert FailedOk(states[k], id);
  }

  // ---- a run that leaves a task in no queue ----

  /** Two new tasks: `a` without dependencies, `b` after it over a fail-closed edge. */
  predicate Pair(a: Id, b: Id, ta: Task, tb: Task) {
    && a != b && ta.declared == [] && tb.declared == [a] && tb.edgeModes == map[a := FailClosed]
    && ta.status == tb.status == Pending
    && ta.blockReason == ta.tcbReason == tb.blockReason == tb.tcbReason == ""
  }

  function First(a: Id, ta: Task): KState {
    Initial(Fifo).(nodes := map[a := Node(ta.(status := Ready), {}, {})], ready := [a])
  }

  function Both(a: Id, b: Id, ta: Task, tb: Task, status: Status): Nodes {
    map[a := Node(ta.(status := status), {}, {b}), b := Node(tb, {a}, {})]
  }

  function Second(a: Id, b: Id, ta: Task, tb: Task): KState {
    Initial(Fifo).(nodes := Both(a, b, ta, tb, Ready), ready := [a], waiting := [b])
  }

  function Third(a: Id, b: Id, ta: Task, tb: Task): KState {
    Initial(Fifo).(nodes := Both(a, b, ta, tb, Running), waiting := [b], running := {a})
  }

  function Fourth(a: Id, b: Id, ta: Task, tb: Task): KState {
    Initial(Fifo).(nodes := Both(a, b, ta, tb.(status := Failed), Failed), failedQ := [a], failed := {a, b})
  }

  lemma EnqueueFirst(a: Id, b: Id, ta: Task, tb: Task, env: Env)
    requires Pair(a, b, ta, tb)
    ensures Enqueue(Initial(Fifo), a, ta, env) == Ok(First(a, ta))
  {
    var s := Initial(Fifo);
    var n := map[a := Node(ta, {}, {})];
    assert Elements(ta.declared) == {};
    assert s.nodes[a := Node(ta, {}, {})] == n;
    assert Linked(n, a, {}) == n;
    assert Elements(ta.declared) - Elements(ta.declared) * s.completed == {};
    assert SetOpen(n, a, {}) == n;
    assert EnqueueNodes(s.nodes, s.completed, a, ta) == n;
    assert SetTask(n, a, ta.(status := Ready)) == First(a, ta).nodes;
    assert StableSort(s.(nodes := First(a, ta).nodes), env, env.clock(a), [a]) == [a];
  }

  lemma EnqueueSecond(a: Id, b: Id, ta: Task, tb: Task, env: Env)
    requires Pair(a, b, ta, tb)
    ensures Enqueue(First(a, ta), b, tb, env) == Ok(Second(a, b, ta, tb))
  {
    var s, s' := First(a, ta), Second(a, b, ta, tb);
    assert a in tb.declared;
    assert Elements(tb.declared) == {a};
    EnqueueGrows(s.nodes, s.completed, b, tb);
    var n := EnqueueNodes(s.nodes, s.completed, b, tb);
    assert n[a] == Node(ta.(status := Ready), {}, {b});
    assert n[b].open == {a} && n[b].task == tb && n[b].dependents == {};
    assert n == s'.nodes;
    assert SetTask(n, b, tb) == n;
    assert Transition(tb, Pending) == Ok(tb);
    assert s.waiting + [b] == [b];
    assert Place(s.(nodes := n), b, env) == Ok(s');
  }

  lemma DispatchThird(a: Id, b: Id, ta: Task, tb: Task, env: Env)
    requires Pair(a, b, ta, tb) && !env.agentMissing(a) && env.grant(a) == Granted
    ensures Dispatch(Second(a, b, ta, tb), None, env) == Ok((Third(a, b, ta, tb), [a]))
  {
    var s, s' := Second(a, b, ta, tb), Third(a, b, ta, tb);
    assert StableSort(s, env, env.sortClock, [a]) == [a];
    assert BeforeDispatch(s, env) == Ok(s);
    assert SetTask(s.nodes, a, ta.(status := Running)) == s'.nodes;
    assert s.ready[1..] == [] && s.running + {a} == {a};
    assert MarkRunning(s.(ready := []), a) == Ok(s');
    assert DispatchOne(s, env) == Ok((s', true));
    assert [] + [a] == [a];
    assert DispatchLoop(s', None, env, [a]) == Ok((s', [a]));
  }

  function Halfway(a: Id, b: Id, ta: Task, tb: Task): KState {
    Initial(Fifo).(nodes := Both(a, b, ta, tb, Failed), waiting := [b], failedQ := [a], failed := {a})
  }

  lemma MarkHalfway(a: Id, b: Id, ta: Task, tb: Task)
    requires Pair(a, b, ta, tb)
    ensures Typed(Third(a, b, ta, tb))
    ensures MarkFailed(Third(a, b, ta, tb), a) == Ok(Halfway(a, b, ta, tb).(failed := {}))
  {
    hide NoDuplicates;
    var s, s1 := Third(a, b, ta, tb), Halfway(a, b, ta, tb);
    assert s.nodes[a].task == ta.(status := Running);
    assert SetTask(s.nodes, a, ta.(status := Failed)) == s1.nodes;
    assert s.running - {a} == {} && s.failedQ + [a] == [a];
  }

  lemma CloseHalfway(a: Id, b: Id, ta: Task, tb: Task, env: Env)
    requires Pair(a, b, ta, tb)
    ensures FailOne(Halfway(a, b, ta, tb), a, b, env) == Ok(Fourth(a, b, ta, tb))
  {
    var s1, s' := Halfway(a, b, ta, tb), Fourth(a, b, ta, tb);
    assert SetTask(s1.nodes, b, tb.(status := Failed)) == s'.nodes;
    assert s1.failedQ + [b] == [a, b] && s1.failed + {b} == {a, b};
    assert RemoveFirst([b], b) == [];
    assert [a, b][1..] == [b] && RemoveFirst([a, b], b) == [a];
  }

  lemma FailFourth(a: Id, b: Id, ta: Task, tb: Task, env: Env)
    requires Pair(a, b, ta, tb)
    ensures Typed(Third(a, b, ta, tb)) && Fail(Third(a, b, ta, tb), a, [b], env) == Ok(Fourth(a, b, ta, tb))
  {
    hide FailOne, MarkFailed, Both;
    var s1, s' := Halfway(a, b, ta, tb), Fourth(a, b, ta, tb);
    MarkHalfway(a, b, ta, tb);
    CloseHalfway(a, b, ta, tb, env);
    assert FailAll(s', a, [], env) == Ok(s') by { BothHave(a, b, ta, tb); }
    assert [b][1..] == [] && {} + {a} == {a};
    BothHave(a, b, ta, tb);
    assert FailAll(s1, a, [b], env) == Ok(s');
  }

  lemma BothHave(a: Id, b: Id, ta: Task, tb: Task)
    ensures a in Halfway(a, b, ta, tb).nodes && a in Fourth(a, b, ta, tb).nodes
  {
  }

  /** Failing the first of the two leaves the second, failed by the edge, in no queue. */
  lemma FailClosedLeavesAllQueues(a: Id, b: Id, ta: Task, tb: Task, env: Env)
    requires Pair(a, b, ta, tb) && !env.agentMissing(a) && env.grant(a) == Granted
    ensures
      var states := [Initial(Fifo), First(a, ta), Second(a, b, ta, tb), Third(a, b, ta, tb), Fourth(a, b, ta, tb)];
      && Run(states, [EnqueueOp(a, ta, env), EnqueueOp(b, tb, env), DispatchOp(None, env), FailOp(a, [b], env)])
      && states[4].nodes[b].task.status == Failed && !InSomeQueue(states[4], b)
  {
    hide Enqueue, Dispatch, Fail;
    EnqueueFirst(a, b, ta, tb, env);
    EnqueueSecond(a, b, ta, tb, env);
    DispatchThird(a, b, ta, tb, env);
    FailFourth(a, b, ta, tb, env);
    assert Step(Initial(Fifo), EnqueueOp(a, ta, env), First(a, ta));
    assert Step(First(a, ta), EnqueueOp(b, tb, env), Second(a, b, ta, tb));
    assert Step(Second(a, b, ta, tb), DispatchOp(None, env), Third(a, b, ta, tb));
    assert Step(Third(a, b, ta, tb), FailOp(a, [b], env), Fourth(a, b, ta, tb));
  }
}
