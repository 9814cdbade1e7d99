/** The queue scheduler as a state and one function per operation.
    A function yields Err(InvalidTransition) where the operation raises half way; the state an
    operation leaves behind in that case is not modelled. */
module KernelSpec {
  import opened Graphs
  import opened Tasks
  import opened TaskGraph

  /** The eight named policies sort by one of three kinds of key: creation time; aged priority,
      then creation time; or a score that depends on the policy (deadline, dispatch count,
      resource weight, capability, cost, reliability), then aged priority, then creation time. */
  datatype Policy = Fifo | Priority | Scored

  datatype Answer = Granted | Refused(reason: string)

  /** What the surroundings answer during one operation. `clock(id)` is the time of the sort that
      follows the insertion of `id` into the ready queue, `sortClock` that of the sort before a
      dispatch. `agentMissing` says that a task needs an agent and none matches. No operation
      asks the same question about a task twice, so functions of the id lose nothing. */
  datatype Env = Env(
    clock: Id -> real,
    sortClock: real,
    score: Id -> real,
    agentMissing: Id -> bool,
    wake: Id -> Answer,
    grant: Id -> Answer)

  /** The resource checker always says why it refuses. */
  ghost predicate RefusalsExplained(env: Env) {
    && (forall id :: env.wake(id).Refused? ==> env.wake(id).reason != "")
    && (forall id :: env.grant(id).Refused? ==> env.grant(id).reason != "")
  }

  datatype KState = KState(
    policy: Policy,
    nodes: Nodes,
    ready: seq<Id>,
    waiting: seq<Id>,
    running: set<Id>,
    failedQ: seq<Id>,
    completedQ: seq<Id>,
    completed: set<Id>,
    failed: set<Id>)

  function Initial(policy: Policy): KState {
    KState(policy, map[], [], [], {}, [], [], {}, {})
  }

  /** Queues hold tasks that have a node. */
  predicate Typed(s: KState) {
    && (forall id :: id in s.ready ==> id in s.nodes)
    && (forall id :: id in s.waiting ==> id in s.nodes)
    && (forall id :: id in s.running ==> id in s.nodes)
  }

  // ---- ready order ----

  datatype Key = Key(major: real, minor: real, created: real)

  predicate Less(a: Key, b: Key) {
    a.major < b.major || (a.major == b.major &&
      (a.minor < b.minor || (a.minor == b.minor && a.created < b.created)))
  }

  function Aged(t: Task, now: real): real {
    var waited := now - t.createdAt;
    t.priority as real + (if waited > 0.0 then waited else 0.0) / 30.0
  }

  function SortKey(policy: Policy, t: Task, score: real, now: real): Key {
    match policy
    case Fifo => Key(t.createdAt, 0.0, 0.0)
    case Priority => Key(0.0, -Aged(t, now), t.createdAt)
    case Scored => Key(score, -Aged(t, now), t.createdAt)
  }

  predicate GoesBefore(s: KState, env: Env, now: real, a: Id, b: Id) {
    && a in s.nodes && b in s.nodes
    && Less(SortKey(s.policy, s.nodes[a].task, env.score(a), now),
            SortKey(s.policy, s.nodes[b].task, env.score(b), now))
  }

  /** One insertion of a stable sort: x goes after every element that it does not precede. */
  function Insert(s: KState, env: Env, now: real, q: seq<Id>, x: Id): (r: seq<Id>)
    ensures |r| == |q| + 1
  {
    if q == [] || !GoesBefore(s, env, now, x, q[|q| - 1]) then q + [x]
    else Insert(s, env, now, q[..|q| - 1], x) + [q[|q| - 1]]
  }

  function StableSort(s: KState, env: Env, now: real, q: seq<Id>): (r: seq<Id>)
    ensures |r| == |q|
  {
    if q == [] then []
    else Insert(s, env, now, StableSort(s, env, now, q[..|q| - 1]), q[|q| - 1])
  }

  function AppendReady(s: KState, id: Id, env: Env): KState {
    s.(ready := StableSort(s, env, env.clock(id), s.ready + [id]))
  }

  // ---- enqueue and add_dependencies ----

  /** Ready queue if nothing is open, else waiting queue. */
  function Place(s: KState, id: Id, env: Env): Result<KState>
    requires id in s.nodes
  {
    if s.nodes[id].open == {} then
      var t :- Transition(s.nodes[id].task, Ready);
      Ok(AppendReady(s.(nodes := SetTask(s.nodes, id, t)), id, env))
    else
      var t :- Transition(s.nodes[id].task, Pending);
      Ok(s.(nodes := SetTask(s.nodes, id, t), waiting := s.waiting + [id]))
  }

  function Enqueue(s: KState, id: Id, task: Task, env: Env): Result<KState> {
    Place(s.(nodes := EnqueueNodes(s.nodes, s.completed, id, task)), id, env)
  }

  ghost function AddDependencies(s: KState, id: Id, deps: seq<Id>, env: Env): Result<KState> {
    if id !in s.nodes then Err(UnknownTask(id))
    else if s.nodes[id].task.status in {Running, Success, Failed, Cancelled} then Err(StateForbidsUpdate)
    else if id in deps then Err(SelfDependency)
    else
      match FirstBad(s.nodes, id, Unique(deps))
      case Some(e) => Err(e)
      case None => Place(HalfLinked(s, id, deps), id, env)
  }

  /** The state add_dependencies leaves behind when placing the task raises: the edges are linked. */
  ghost function HalfLinked(s: KState, id: Id, deps: seq<Id>): KState
    requires id in s.nodes && FirstBad(s.nodes, id, Unique(deps)) == None
  {
    s.(nodes := AddAll(s.nodes, s.completed, id, Unique(deps)),
       ready := RemoveFirst(s.ready, id), waiting := RemoveFirst(s.waiting, id))
  }

  // ---- what the daemon writes into a running task ----

  /** An attempt has timed out. */
  function TimeOut(s: KState, id: Id): Result<KState>
    requires id in s.nodes
  {
    var t :- Transition(s.nodes[id].task, Timeout);
    Ok(s.(nodes := SetTask(s.nodes, id, t)))
  }

  /** The next attempt begins. */
  function Restart(s: KState, id: Id): Result<KState>
    requires id in s.nodes
  {
    var t :- Restarted(s.nodes[id].task);
    Ok(s.(nodes := SetTask(s.nodes, id, t)))
  }

  // ---- dispatch_ready ----

  function RemoveFromQueues(s: KState, id: Id): KState {
    s.(ready := RemoveFirst(s.ready, id),
       waiting := RemoveFirst(s.waiting, id),
       failedQ := RemoveFirst(s.failedQ, id),
       completedQ := RemoveFirst(s.completedQ, id))
  }

  function MoveToWaiting(s: KState, id: Id, reason: string): Result<KState>
    requires id in s.nodes
  {
    var t :- Block(s.nodes[id].task, reason);
    var s1 := RemoveFromQueues(s, id);
    Ok(s1.(nodes := SetTask(s.nodes, id, t), waiting := s1.waiting + [id]))
  }

  /** From the waiting queue to the ready queue. */
  function Release(s: KState, id: Id, env: Env): Result<KState>
    requires id in s.nodes
  {
    var t :- Unblock(s.nodes[id].task);
    Ok(AppendReady(s.(nodes := SetTask(s.nodes, id, t), waiting := RemoveFirst(s.waiting, id)), id, env))
  }

  function WakeOne(s: KState, id: Id, env: Env): Result<KState>
    requires id in s.nodes
  {
    var node := s.nodes[id];
    if node.open != {} || node.task.blockReason == "" then Ok(s)
    else
      match env.wake(id)
      case Refused(reason) => Ok(s.(nodes := SetTask(s.nodes, id, node.task.(blockReason := reason))))
      case Granted => Release(s, id, env)
  }

  /** wake_waiting over a snapshot of the waiting queue. */
  function Wake(s: KState, todo: seq<Id>, env: Env): (r: Result<KState>)
    requires forall id :: id in todo ==> id in s.nodes
    ensures r.Ok? ==> r.value.nodes.Keys == s.nodes.Keys
    decreases |todo|
  {
    if todo == [] then Ok(s)
    else
      var s1 :- WakeOne(s, todo[0], env);
      Wake(s1, todo[1..], env)
  }

  function MarkRunning(s: KState, id: Id): Result<KState>
    requires id in s.nodes
  {
    var t :- Transition(s.nodes[id].task, Running);
    Ok(s.(nodes := SetTask(s.nodes, id, t.(blockReason := "")), running := s.running + {id}))
  }

  /** One pop of the dispatch loop: the state after it and whether the task was dispatched. */
  function DispatchOne(s: KState, env: Env): Result<(KState, bool)>
    requires s.ready != [] && s.ready[0] in s.nodes
  {
    var id := s.ready[0];
    var s1 := s.(ready := s.ready[1..]);
    if env.agentMissing(id) then
      var s2 :- MoveToWaiting(s1, id, "no_capability_match");
      Ok((s2, false))
    else
      match env.grant(id)
      case Refused(reason) => var s2 :- MoveToWaiting(s1, id, reason); Ok((s2, false))
      case Granted => var s2 :- MarkRunning(s1, id); Ok((s2, true))
  }

  function DispatchLoop(s: KState, limit: Option<int>, env: Env, out: seq<Id>): Result<(KState, seq<Id>)>
    requires forall id :: id in s.ready ==> id in s.nodes
    decreases |s.ready|
  {
    if s.ready == [] || (limit.Some? && |out| >= limit.value) then Ok((s, out))
    else
      var (s1, taken) :- DispatchOne(s, env);
      ReadyShrinks(s, env);
      DispatchLoop(s1, limit, env, if taken then out + [s.ready[0]] else out)
  }

  lemma {:induction false} RemoveFirstKeeps(q: seq<Id>, id: Id)
    ensures forall x :: x in RemoveFirst(q, id) ==> x in q
  {
    if q == [] {
    } else {
      RemoveFirstKeeps(q[1..], id);
    }
  }

  lemma ReadyShrinks(s: KState, env: Env)
    requires s.ready != [] && forall id :: id in s.ready ==> id in s.nodes
    ensures DispatchOne(s, env).Ok? ==>
      var s1 := DispatchOne(s, env).value.0;
      && |s1.ready| < |s.ready|
      && s1.nodes.Keys == s.nodes.Keys
      && forall id :: id in s1.ready ==> id in s1.nodes
  {
    RemoveFirstKeeps(s.ready[1..], s.ready[0]);
  }

  /** The state at the head of the dispatch loop: woken if idle, and sorted. */
  function BeforeDispatch(s: KState, env: Env): (r: Result<KState>)
    requires Typed(s)
    ensures r.Ok? ==> Typed(r.value)
  {
    WakeTyped(s, s.waiting, env);
    var s1 :- if s.ready == [] then Wake(s, s.waiting, env) else Ok(s);
    SortPermutes(s1, env, env.sortClock, s1.ready);
    Ok(s1.(ready := StableSort(s1, env, env.sortClock, s1.ready)))
  }

  // ---- complete_task and fail_task ----

  /** What the completion of `id` does to one dependent. */
  function ReleaseOne(s: KState, id: Id, dep: Id, env: Env): Result<KState> {
    if dep !in s.nodes then Ok(s)
    else
      var s1 := s.(nodes := SetOpen(s.nodes, dep, s.nodes[dep].open - {id}));
      if s1.nodes[dep].open == {} && dep in s1.waiting then Release(s1, dep, env) else Ok(s1)
  }

  function ReleaseAll(s: KState, id: Id, order: seq<Id>, env: Env): Result<KState>
    decreases |order|
  {
    if order == [] then Ok(s)
    else
      var s1 :- ReleaseOne(s, id, order[0], env);
      ReleaseAll(s1, id, order[1..], env)
  }

  function MarkCompleted(s: KState, id: Id): Result<KState>
    requires Typed(s)
  {
    if id !in s.running then Ok(s)
    else
      var t :- Transition(s.nodes[id].task, Success);
      Ok(s.(nodes := SetTask(s.nodes, id, t), running := s.running - {id},
            completedQ := if id in s.completedQ then s.completedQ else s.completedQ + [id]))
  }

  function Complete(s: KState, id: Id, order: seq<Id>, env: Env): Result<KState>
    requires Typed(s)
  {
    var s1 :- MarkCompleted(s, id);
    if id !in s1.nodes then Ok(s1)
    else ReleaseAll(s1.(completed := s1.completed + {id}), id, order, env)
  }

  /** What the failure of `id` does to one dependent. */
  function FailOne(s: KState, id: Id, dep: Id, env: Env): Result<KState>
    requires id in s.nodes
  {
    if dep !in s.nodes then Ok(s)
    else
      var mode := EffectiveMode(s.nodes[dep].task, id, s.nodes[id].task);
      if mode == Some(FailClosed) then
        var t :- Transition(s.nodes[dep].task, Failed);
        var s1 := s.(nodes := SetTask(s.nodes, dep, t), failed := s.failed + {dep},
                     failedQ := if dep in s.failedQ then s.failedQ else s.failedQ + [dep]);
        Ok(RemoveFromQueues(s1, dep))
      else if Waives(mode) then ReleaseOne(s, id, dep, env)
      else Ok(s)
  }

  function FailAll(s: KState, id: Id, order: seq<Id>, env: Env): Result<KState>
    requires id in s.nodes
    decreases |order|
  {
    if order == [] then Ok(s)
    else
      var s1 :- FailOne(s, id, order[0], env);
      FailAll(s1, id, order[1..], env)
  }

  function MarkFailed(s: KState, id: Id): Result<KState>
    requires Typed(s)
  {
    if id !in s.running then Ok(s)
    else
      var t :- Transition(s.nodes[id].task, Failed);
      Ok(s.(nodes := SetTask(s.nodes, id, t), running := s.running - {id},
            failedQ := if id in s.failedQ then s.failedQ else s.failedQ + [id]))
  }

  function Fail(s: KState, id: Id, order: seq<Id>, env: Env): Result<KState>
    requires Typed(s)
  {
    var s1 :- MarkFailed(s, id);
    var s2 := s1.(failed := s1.failed + {id});
    if id !in s2.nodes then Ok(s2)
    else FailAll(s2, id, order, env)
  }

  function Dispatch(s: KState, limit: Option<int>, env: Env): Result<(KState, seq<Id>)>
    requires Typed(s)
  {
    var s1 :- BeforeDispatch(s, env);
    DispatchLoop(s1, limit, env, [])
  }

  // ---- sorting is a permutation ----

  /** Sorting looks at task records only, not at what the queue held. */
  lemma {:induction false} InsertIgnoresQueue(s: KState, ready: seq<Id>, env: Env, now: real, q: seq<Id>, x: Id)
    ensures Insert(s.(ready := ready), env, now, q, x) == Insert(s, env, now, q, x)
  {
    if q == [] {
    } else {
      InsertIgnoresQueue(s, ready, env, now, q[..|q| - 1], x);
    }
  }

  lemma {:induction false} SortIgnoresQueue(s: KState, ready: seq<Id>, env: Env, now: real, q: seq<Id>)
    ensures StableSort(s.(ready := ready), env, now, q) == StableSort(s, env, now, q)
  {
    if q == [] {
    } else {
      SortIgnoresQueue(s, ready, env, now, q[..|q| - 1]);
      InsertIgnoresQueue(s, ready, env, now, StableSort(s, env, now, q[..|q| - 1]), q[|q| - 1]);
    }
  }

  lemma {:induction false} InsertPermutes(s: KState, env: Env, now: real, q: seq<Id>, x: Id)
    ensures multiset(Insert(s, env, now, q, x)) == multiset(q) + multiset{x}
  {
    if q == [] {
    } else {
      assert q == q[..|q| - 1] + [q[|q| - 1]];
      InsertPermutes(s, env, now, q[..|q| - 1], x);
    }
  }

  lemma {:induction false} SortPermutes(s: KState, env: Env, now: real, q: seq<Id>)
    ensures multiset(StableSort(s, env, now, q)) == multiset(q)
    ensures forall x :: x in StableSort(s, env, now, q) <==> x in q
  {
    if q == [] {
    } else {
      assert q == q[..|q| - 1] + [q[|q| - 1]];
      SortPermutes(s, env, now, q[..|q| - 1]);
      InsertPermutes(s, env, now, StableSort(s, env, now, q[..|q| - 1]), q[|q| - 1]);
    }
    var r := StableSort(s, env, now, q);
    forall x ensures x in r <==> x in q {
      assert x in r <==> x in multiset(r);
      assert x in q <==> x in multiset(q);
    }
  }

  lemma {:induction false} WakeTyped(s: KState, todo: seq<Id>, env: Env)
    requires Typed(s) && forall id :: id in todo ==> id in s.nodes
    ensures Wake(s, todo, env).Ok? ==> Typed(Wake(s, todo, env).value)
    decreases |todo|
  {
    if todo == [] || WakeOne(s, todo[0], env).Err? {
    } else {
      var s1 := WakeOne(s, todo[0], env).value;
      SortPermutes(s.(nodes := s1.nodes, waiting := s1.waiting), env, env.clock(todo[0]), s.ready + [todo[0]]);
      RemoveFirstKeeps(s.waiting, todo[0]);
      WakeTyped(s1, todo[1..], env);
    }
  }
}
