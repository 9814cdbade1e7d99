/** Properties of whole runs of the queue scheduler. */
module KernelTheorems {
  import opened Graphs
  import opened Tasks
  import opened TaskGraph
  import opened KernelSpec
  import opened KernelRuns
  import opened KernelGrowth
  import opened KernelOrder

  /** The operations of a run. `order` is the iteration order of the ended task's dependents. */
  datatype Op =
    | EnqueueOp(id: Id, task: Task, env: Env)
    | AddDependenciesOp(id: Id, deps: seq<Id>, env: Env)
    | DispatchOp(limit: Option<int>, env: Env)
    | CompleteOp(id: Id, order: seq<Id>, env: Env)
    | FailOp(id: Id, order: seq<Id>, env: Env)
    | TimeOutOp(id: Id)
    | RestartOp(id: Id)

  /** Fresh tasks whose dependencies are known, ends of running tasks, and what the daemon writes
      into a running task: TIMEOUT when an attempt times out, RUNNING when the next one begins. A
      task in TIMEOUT only fails, the daemon's own transition to SUCCESS being forbidden then.
      add_dependencies and dispatch_ready may be called with any arguments at any time. */
  ghost predicate MayHappen(s: KState, op: Op) {
    match op
    case EnqueueOp(id, task, _) => WellFormedTask(s, id, task)
    case AddDependenciesOp(_, _, _) => true
    case DispatchOp(_, _) => Typed(s)
    case CompleteOp(id, order, _) =>
      && Typed(s) && id in s.running && s.nodes[id].task.status == Running
      && Enumerates(order, s.nodes[id].dependents)
    case FailOp(id, order, _) => Typed(s) && id in s.running && Enumerates(order, s.nodes[id].dependents)
    case TimeOutOp(id) => id in s.running && id in s.nodes && s.nodes[id].task.status == Running
    case RestartOp(id) => id in s.running && id in s.nodes && s.nodes[id].task.status == Timeout
  }

  ghost function Outcome(s: KState, op: Op): Result<KState>
    requires op.DispatchOp? || op.CompleteOp? || op.FailOp? ==> Typed(s)
    requires op.TimeOutOp? || op.RestartOp? ==> op.id in s.nodes
  {
    match op
    case EnqueueOp(id, task, env) => Enqueue(s, id, task, env)
    case AddDependenciesOp(id, deps, env) => AddDependencies(s, id, deps, env)
    case DispatchOp(limit, env) =>
      (match Dispatch(s, limit, env) case Ok(r) => Ok(r.0) case Err(x) => Err(x))
    case CompleteOp(id, order, env) => Complete(s, id, order, env)
    case FailOp(id, order, env) => Fail(s, id, order, env)
    case TimeOutOp(id) => TimeOut(s, id)
    case RestartOp(id) => Restart(s, id)
  }

  /** A rejected call leaves the state alone; an invalid transition would end the run. */
  ghost predicate Step(s: KState, op: Op, s': KState) {
    && MayHappen(s, op)
    && match Outcome(s, op)
       case Ok(r) => s' == r
       case Err(x) => !x.InvalidTransition? && s' == s
  }

  ghost predicate Explained(op: Op) {
    op.TimeOutOp? || op.RestartOp? || RefusalsExplained(op.env)
  }

  /** states[0] is a fresh scheduler and ops[i] leads from states[i] to states[i + 1]. */
  ghost predicate Run(states: seq<KState>, ops: seq<Op>) {
    && |states| == |ops| + 1
    && states[0] == Initial(states[0].policy)
    && forall i :: 0 <= i < |ops| ==> Step(states[i], ops[i], states[i + 1])
  }

  ghost predicate AllExplained(ops: seq<Op>) {
    forall i :: 0 <= i < |ops| ==> Explained(ops[i])
  }

  lemma EmptyAcyclic()
    ensures Acyclic(DependentsGraph(map[]))
  {
    var g := DependentsGraph(map[]);
    forall p ensures !(IsPath(g, p) && |p| >= 2) {
      if |p| >= 2 { assert !Edge(g, p[0], p[1]); }
    }
  }

  lemma InitialInv(policy: Policy, e: Terms)
    ensures Inv(Initial(policy), e)
  {
    EmptyAcyclic();
  }

  /** add_dependencies is called on a task between two attempts and finds nothing else wrong. */
  ghost predicate MissesTimeout(s: KState, id: Id, deps: seq<Id>) {
    && id in s.nodes && s.nodes[id].task.status == Timeout && id !in deps
    && FirstBad(s.nodes, id, Unique(deps)) == None
  }

  /** The guard does not list TIMEOUT. That, and nothing else, makes add_dependencies raise half way. */
  lemma AddDependenciesOutcome(s: KState, id: Id, deps: seq<Id>, env: Env, e: Terms)
    requires Inv(s, e)
    ensures
      match AddDependencies(s, id, deps, env)
      case Ok(s') => Inv(s', e) && !MissesTimeout(s, id, deps)
      case Err(x) => x.InvalidTransition? <==> MissesTimeout(s, id, deps)
  {
    hide Inv, FirstBad, Place, HalfLinked;
    if id in s.nodes && s.nodes[id].task.status !in {Running, Success, Failed, Cancelled} && id !in deps {
      if FirstBad(s.nodes, id, Unique(deps)).Some? {
        BadIsNoTransition(s.nodes, id, Unique(deps));
      } else if s.nodes[id].task.status == Timeout {
        TimeoutRaises(s, id, deps, env);
      } else {
        AddDependenciesKeeps(s, id, deps, env, e);
      }
    }
  }

  lemma TimeoutRaises(s: KState, id: Id, deps: seq<Id>, env: Env)
    requires MissesTimeout(s, id, deps)
    ensures AddDependencies(s, id, deps, env) ==
      Err(InvalidTransition(Timeout, if HalfLinked(s, id, deps).nodes[id].open == {} then Ready else Pending))
  {
    hide FirstBad, RemoveFirst;
    AddAllStatus(s.nodes, s.completed, id, Unique(deps));
  }

  lemma {:induction false} AddAllStatus(n: Nodes, completed: set<Id>, id: Id, deps: seq<Id>)
    requires id in n && forall d :: d in deps ==> d in n
    ensures AddAll(n, completed, id, deps)[id].task.status == n[id].task.status
  {
    if deps == [] {
    } else {
      AddAllStatus(n, completed, id, deps[..|deps| - 1]);
    }
  }

  /** One step keeps the invariant, and asks for a forbidden transition exactly if it is an
      add_dependencies call that misses TIMEOUT. */
  lemma StepKeeps(s: KState, op: Op, e: Terms)
    requires Inv(s, e) && MayHappen(s, op)
    requires e.explained ==> Explained(op)
    requires op.FailOp? ==> Spares(s.nodes, op.id, s.nodes[op.id].dependents, e)
    ensures
      match Outcome(s, op)
      case Ok(s') => Inv(s', e) && !(op.AddDependenciesOp? && MissesTimeout(s, op.id, op.deps))
      case Err(x) => x.InvalidTransition? <==> op.AddDependenciesOp? && MissesTimeout(s, op.id, op.deps)
  {
    hide Inv, Enqueue, AddDependencies, Dispatch, Complete, Fail, WellFormedTask, RefusalsExplained, TimeOut, Restart,
      MissesTimeout, Spares;
    match op
    case EnqueueOp(id, task, env) => EnqueueKeeps(s, id, task, env, e);
    case AddDependenciesOp(id, deps, env) => AddDependenciesOutcome(s, id, deps, env, e);
    case DispatchOp(limit, env) => DispatchKeeps(s, limit, env, e);
    case CompleteOp(id, order, env) => CompleteKeeps(s, id, order, env, e);
    case FailOp(id, order, env) => FailKeeps(s, id, order, env, e);
    case TimeOutOp(id) => TimeOutKeeps(s, id, e);
    case RestartOp(id) => RestartKeeps(s, id, e);
  }

  /** Every reachable state satisfies the invariant. */
  lemma {:induction false} RunKeeps(states: seq<KState>, ops: seq<Op>, k: nat, e: Terms)
    requires Run(states, ops) && k < |states|
    requires (e.explained ==> AllExplained(ops)) && e.reopened == {}
    ensures Inv(states[k], e)
  {
    hide Inv, MayHappen, Outcome, Explained;
    if k == 0 {
      InitialInv(states[0].policy, e);
    } else {
      RunKeeps(states, ops, k - 1, e);
      assert Step(states[k - 1], ops[k - 1], states[k - 1 + 1]);
      StepKeeps(states[k - 1], ops[k - 1], e);
    }
  }

  /** Whatever legal operation comes next in a run, it asks for a forbidden transition exactly if it
      is a call of add_dependencies on a task in TIMEOUT that passes the other checks. */
  lemma ForbiddenTransitionIff(states: seq<KState>, ops: seq<Op>, op: Op)
    requires Run(states, ops) && MayHappen(states[|ops|], op)
    ensures
      var r := Outcome(states[|ops|], op);
      r.Err? && r.error.InvalidTransition? <==>
        op.AddDependenciesOp? && MissesTimeout(states[|ops|], op.id, op.deps)
  {
    hide Inv, MayHappen, Outcome;
    RunKeeps(states, ops, |ops|, PLAIN);
    StepKeeps(states[|ops|], op, PLAIN);
  }

  // ---- queue and status agreement ----

  ghost predicate Disjoint(s: KState) {
    forall id ::
      && !(id in s.ready && (id in s.waiting || id in s.running || id in s.failedQ || id in s.completedQ))
      && !(id in s.waiting && (id in s.running || id in s.failedQ || id in s.completedQ))
      && !(id in s.running && (id in s.failedQ || id in s.completedQ))
      && !(id in s.failedQ && id in s.completedQ)
  }

  /** In every reachable state the queues are duplicate-free and pairwise disjoint, the status of a
      task names its queue, a ready task has nothing open, and a task in no queue failed. */
  lemma QueueStatusAgreement(states: seq<KState>, ops: seq<Op>, k: nat)
    requires Run(states, ops) && k < |states|
    ensures Distinct(states[k]) && Disjoint(states[k])
    ensures forall id :: id in states[k].nodes ==> Placed(states[k], id)
    ensures forall id :: id in states[k].ready ==>
      id in states[k].nodes && states[k].nodes[id].task.status == Ready && states[k].nodes[id].open == {}
  {
    RunKeeps(states, ops, k, PLAIN);
    StateAgreement(states[k], PLAIN);
  }

  lemma StateAgreement(s: KState, e: Terms)
    requires Inv(s, e)
    ensures Distinct(s) && Disjoint(s)
    ensures forall id :: id in s.nodes ==> Placed(s, id)
    ensures forall id :: id in s.ready ==> id in s.nodes && s.nodes[id].task.status == Ready && s.nodes[id].open == {}
  {
    hide EdgesAgree, NoDuplicates;
    forall id ensures
      && !(id in s.ready && (id in s.waiting || id in s.running || id in s.failedQ || id in s.completedQ))
      && !(id in s.waiting && (id in s.running || id in s.failedQ || id in s.completedQ))
      && !(id in s.running && (id in s.failedQ || id in s.completedQ))
      && !(id in s.failedQ && id in s.completedQ)
    {
      if id in s.nodes { assert Placed(s, id); }
    }
    forall id | id in s.ready ensures id in s.nodes && s.nodes[id].task.status == Ready && s.nodes[id].open == {} {
      assert Placed(s, id) && OpenOk(s, id, e);
    }
  }

  // ---- dispatch safety ----

  /** Every task handed out, at any point of any run, has each of its dependencies completed, or
      failed over an edge whose effective mode waives it. */
  lemma DispatchSafety(states: seq<KState>, ops: seq<Op>, k: nat, t: Id, d: Id)
    requires Run(states, ops) && k < |ops| && ops[k].DispatchOp?
    requires Typed(states[k]) && Dispatch(states[k], ops[k].limit, ops[k].env).Ok?
    requires t in Dispatch(states[k], ops[k].limit, ops[k].env).value.1
    requires Depends(states[k + 1].nodes, t, d)
    ensures d in states[k + 1].completed
      || (d in states[k + 1].failed && d in states[k + 1].nodes &&
          Excused(states[k + 1].nodes[t].task, d, states[k + 1].nodes[d].task))
  {
    hide Inv, Dispatch, MayHappen;
    RunKeeps(states, ops, k, PLAIN);
    assert Step(states[k], ops[k], states[k + 1]);
    DispatchKeeps(states[k], ops[k].limit, ops[k].env, PLAIN);
    assert Discharged(states[k + 1].nodes, states[k + 1].completed, states[k + 1].failed, t, d);
  }

  // ---- waiting behind a failure ----

  /** Nothing can be handed out: nothing is ready or running, and whoever waits has something open. */
  ghost predicate Quiet(s: KState) {
    && s.ready == [] && s.running == {}
    && forall id :: id in s.waiting && id in s.nodes ==> s.nodes[id].open != {}
  }

  ghost predicate BehindFailure(s: KState, b: Id) {
    Behind(DependentsGraph(s.nodes), s.failed, b)
  }

  /** What an open dependency of a waiting task can be when nothing is ready or running. */
  lemma OpenWaitsOrFailed(s: KState, b: Id, e: Terms) returns (d: Id)
    requires Inv(s, e) && Quiet(s) && b in s.waiting
    ensures d in s.nodes && Edge(DependentsGraph(s.nodes), d, b)
    ensures d in s.waiting || d in s.failed
  {
    hide NoDuplicates, Acyclic;
    QueueFacts(s, b);
    OpenIsLinked(s, b, e);
    d :| d in s.nodes[b].open;
    QueueFacts(s, d);
  }

  lemma QuietWaitsBehindFailure(s: KState, e: Terms)
    requires Inv(s, e) && Quiet(s)
    ensures forall b :: b in s.waiting ==> BehindFailure(s, b)
  {
    hide QueuesAgree, OpenAgree, Quiet, Behind;
    var n := set b | b in s.waiting && !BehindFailure(s, b);
    if n != {} {
      var g := DependentsGraph(s.nodes);
      forall b | b in n ensures HasPredecessorIn(g, n, b) {
        var d := OpenWaitsOrFailed(s, b, e);
        if d in s.failed || BehindFailure(s, d) { BehindGrows(g, s.failed, d, b); }
      }
      NoSourceMeansCycle(g, n);
      assert false;
    }
    forall b | b in s.waiting ensures BehindFailure(s, b) {
      assert b !in n;
    }
  }

  /** When nothing is ready or running and no waiting task is blocked for resources, every waiting
      task depends, over any number of steps, on a failed one. */
  lemma WaitingIsBehindFailure(states: seq<KState>, ops: seq<Op>, k: nat)
    requires Run(states, ops) && k < |states| && AllExplained(ops)
    requires states[k].ready == [] && states[k].running == {}
    requires forall id :: id in states[k].waiting && id in states[k].nodes ==>
      states[k].nodes[id].task.blockReason == ""
    ensures forall b :: b in states[k].waiting ==> BehindFailure(states[k], b)
  {
    hide Run, BehindFailure, EdgesAgree;
    var s := states[k];
    RunKeeps(states, ops, k, EXPLAINED);
    RunKeeps(states, ops, k, PLAIN);
    forall id | id in s.waiting && id in s.nodes ensures s.nodes[id].open != {} {
      QueueFacts(s, id);
      OpenFacts(s, id, EXPLAINED);
    }
    QuietWaitsBehindFailure(s, PLAIN);
  }

  // ---- deadlock freedom ----

  ghost predicate Stuck(s: KState) {
    && s.ready == [] && s.running == {} && s.failed == {}
    && forall id :: id in s.waiting && id in s.nodes ==> s.nodes[id].task.blockReason == ""
  }

  /** If nothing is ready or running, nothing has failed and no waiting task is blocked for
      resources, then nothing waits and every task ever enqueued has completed. */
  lemma DeadlockFreedom(states: seq<KState>, ops: seq<Op>, k: nat)
    requires Run(states, ops) && k < |states| && AllExplained(ops)
    requires Stuck(states[k])
    ensures states[k].waiting == []
    ensures forall id :: id in states[k].nodes ==>
      id in states[k].completed && states[k].nodes[id].task.status == Success
  {
    hide Run, BehindFailure, EdgesAgree, OpenAgree;
    var s := states[k];
    WaitingIsBehindFailure(states, ops, k);
    if s.waiting != [] {
      assert BehindFailure(s, s.waiting[0]);
      FailureExists(s, s.waiting[0]);
      assert false;
    }
    RunKeeps(states, ops, k, EXPLAINED);
    forall id | id in s.nodes ensures id in s.completed && s.nodes[id].task.status == Success {
      assert Placed(s, id);
    }
  }

  lemma FailureExists(s: KState, b: Id)
    requires BehindFailure(s, b)
    ensures s.failed != {}
  {
  }

  // ---- online acyclicity ----

  /** At any point of any run: an accepted call leaves the graph acyclic, whatever batch it added,
      and a rejection for a cycle names a dependency that would have closed one. */
  lemma OnlineAcyclicity(states: seq<KState>, ops: seq<Op>, id: Id, deps: seq<Id>, env: Env)
    requires Run(states, ops)
    ensures
      match AddDependencies(states[|ops|], id, deps, env)
      case Ok(s') => Acyclic(DependentsGraph(s'.nodes))
      case Err(CyclicDependency(d)) =>
        d in deps && d in states[|ops|].nodes && d != id &&
        !Acyclic(DependentsGraph(Linked(states[|ops|].nodes, id, {d})))
      case Err(_) => true
  {
    hide QueuesAgree, OpenAgree, Acyclic, Reaches, FirstBad, Place, AddAll, RemoveFirst, MayHappen, Outcome;
    var s := states[|ops|];
    RunKeeps(states, ops, |ops|, PLAIN);
    AddDependenciesOutcome(s, id, deps, env, PLAIN);
    if id in s.nodes && s.nodes[id].task.status !in {Running, Success, Failed, Cancelled} && id !in deps {
      if FirstBad(s.nodes, id, Unique(deps)).Some? {
        var d :| d in Unique(deps) && Complaint(s.nodes, id, d, FirstBad(s.nodes, id, Unique(deps)).value);
        if d in s.nodes { CycleCheckExact(s.nodes, id, d); }
      } else if s.nodes[id].task.status == Timeout {
        TimeoutRaises(s, id, deps, env);
      } else {
        AddDependenciesKeeps(s, id, deps, env, PLAIN);
      }
    }
  }

  // ---- bounded overtaking ----

  lemma {:induction false} WakePolicy(s: KState, todo: seq<Id>, env: Env)
    requires (forall id :: id in todo ==> id in s.nodes) && Wake(s, todo, env).Ok?
    ensures Wake(s, todo, env).value.policy == s.policy
    decreases |todo|
  {
    if todo == [] {
    } else {
      WakePolicy(WakeOne(s, todo[0], env).value, todo[1..], env);
    }
  }

  /** At any dispatch of any run under the priority policy: when the i-th task is handed out, every
      other task of the ready queue has been handed out or refused before, or is, if older, so by
      less than 30 * (difference of priorities) seconds, as far as the clock has got. */
  lemma OvertakingIsBounded(states: seq<KState>, ops: seq<Op>, k: nat, i: nat, t: Id)
    requires Run(states, ops) && k < |ops| && ops[k].DispatchOp? && states[k].policy == Priority
    requires Typed(states[k]) && Dispatch(states[k], ops[k].limit, ops[k].env).Ok?
    requires i < |Dispatch(states[k], ops[k].limit, ops[k].env).value.1|
    requires BeforeDispatch(states[k], ops[k].env).Ok? && t in BeforeDispatch(states[k], ops[k].env).value.ready
    requires t != Dispatch(states[k], ops[k].limit, ops[k].env).value.1[i]
    ensures
      var queue, out := BeforeDispatch(states[k], ops[k].env).value.ready,
        Dispatch(states[k], ops[k].limit, ops[k].env).value.1;
      var u := out[i];
      && u in states[k].nodes && t in states[k].nodes
      && if Precedes(queue, t, u) then t in out[..i] || Refuses(ops[k].env, t)
         else
           && Precedes(queue, u, t)
           && Within(states[k].nodes[u].task, states[k].nodes[t].task, ops[k].env.sortClock)
  {
    hide Inv, Dispatch, DispatchLoop, Wake, StableSort, MayHappen, Outcome, Precedes, Refuses;
    var s, env := states[k], ops[k].env;
    RunKeeps(states, ops, k, PLAIN);
    BeforeDispatchKeeps(s, env, PLAIN);
    InvFacts(BeforeDispatch(s, env).value, PLAIN);
    if s.ready == [] { WakeTyped(s, s.waiting, env); WakePolicy(s, s.waiting, env); }
    BoundedOvertaking(s, ops[k].limit, env, i, t);
  }
}
