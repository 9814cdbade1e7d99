/** The queue scheduler as an object that changes its queues in place. Every method is tied to the
    function of the same name in KernelSpec. */
module Kernel {
  import opened Graphs
  import opened Tasks
  import opened TaskGraph
  import opened KernelSpec
  import KernelRuns
  import KernelGrowth
  import KernelTheorems

  class KernelScheduler {
    const policy: Policy
    var nodes: Nodes
    var ready: seq<Id>
    var waiting: seq<Id>
    var running: set<Id>
    var failedQ: seq<Id>
    var completedQ: seq<Id>
    var completed: set<Id>
    var failed: set<Id>

    function State(): KState
      reads this
    {
      KState(policy, nodes, ready, waiting, running, failedQ, completedQ, completed, failed)
    }

    /** Every queued task has a node. */
    ghost predicate Valid()
      reads this
    {
      Typed(State())
    }

    /** The invariant of runs: queues, statuses, open dependencies and edges agree. */
    ghost predicate InRun()
      reads this
    {
      KernelRuns.Inv(State(), KernelRuns.PLAIN)
    }

    constructor (policy: Policy)
      ensures Valid() && InRun() && State() == Initial(policy)
    {
      this.policy := policy;
      nodes, ready, waiting, running := map[], [], [], {};
      failedQ, completedQ, completed, failed := [], [], {}, {};
      new;
      KernelTheorems.InitialInv(policy, KernelRuns.PLAIN);
    }

    method AppendReady(id: Id, env: Env)
      requires Valid() && id in nodes
      modifies this`ready
      ensures Valid()
      ensures State() == KernelSpec.AppendReady(old(State()), id, env)
    {
      ready := ready + [id];
      ready := StableSort(State(), env, env.clock(id), ready);
      SortPermutes(old(State()), env, env.clock(id), old(ready) + [id]);
      SortIgnoresQueue(old(State()), old(ready) + [id], env, env.clock(id), old(ready) + [id]);
    }

    /** Queue `id` by whether anything is open for it. */
    method Place(id: Id, env: Env) returns (r: Result<()>)
      requires Valid() && id in nodes
      modifies this
      ensures Valid()
      ensures match KernelSpec.Place(old(State()), id, env)
              case Ok(s) => r == Ok(()) && State() == s
              case Err(e) => r == Err(e) && State() == old(State())
    {
      var t :- Transition(nodes[id].task, if nodes[id].open == {} then Ready else Pending);
      var isReady := nodes[id].open == {};
      nodes := SetTask(nodes, id, t);
      if isReady {
        AppendReady(id, env);
      } else {
        waiting := waiting + [id];
      }
      r := Ok(());
    }

    /** The id must be new: nodes are keyed by it and a second task would replace the first. */
    method Enqueue(id: Id, task: Task, env: Env) returns (r: Result<()>)
      requires Valid() && id !in nodes
      modifies this
      ensures Valid()
      ensures match KernelSpec.Enqueue(old(State()), id, task, env)
              case Ok(s) => r == Ok(()) && State() == s
              case Err(e) => r == Err(e)
      ensures old(InRun()) && KernelGrowth.WellFormedTask(old(State()), id, task) ==> r.Ok? && InRun()
    {
      hide KernelRuns.Inv, KernelSpec.Place;
      if InRun() && KernelGrowth.WellFormedTask(State(), id, task) {
        KernelGrowth.EnqueueKeeps(State(), id, task, env, KernelRuns.PLAIN);
      }
      nodes := LinkNew(nodes, completed, id, task);
      r := Place(id, env);
    }

    /** Complaints are raised before anything is written. A forbidden transition is raised after the
        edges have been linked; in runs that happens exactly for tasks in TIMEOUT. */
    method AddDependencies(id: Id, deps: seq<Id>, env: Env) returns (r: Result<()>)
      requires Valid()
      modifies this
      ensures Valid()
      ensures match KernelSpec.AddDependencies(old(State()), id, deps, env)
              case Ok(s) => r == Ok(()) && State() == s
              case Err(e) =>
                && r == Err(e)
                && (if e.InvalidTransition? && id in old(nodes) && FirstBad(old(nodes), id, Unique(deps)) == None
                    then State() == HalfLinked(old(State()), id, deps) else State() == old(State()))
      ensures old(InRun()) ==>
        if old(KernelTheorems.MissesTimeout(State(), id, deps)) then r.Err? && r.error.InvalidTransition?
        else InRun() && (r.Err? ==> !r.error.InvalidTransition?)
    {
      hide KernelRuns.Inv, KernelSpec.AppendReady, AddAll, FirstBad, RemoveFirst;
      if InRun() {
        KernelTheorems.AddDependenciesOutcome(State(), id, deps, env, KernelRuns.PLAIN);
      }
      if id !in nodes {
        return Err(UnknownTask(id));
      }
      if nodes[id].task.status in {Running, Success, Failed, Cancelled} {
        return Err(StateForbidsUpdate);
      }
      var unique := Unique(deps);
      if id in unique {
        return Err(SelfDependency);
      }
      var bad := CheckDependencies(nodes, id, unique);
      if bad.Some? {
        return Err(bad.value);
      }
      nodes := LinkDependencies(nodes, completed, id, unique);
      RemoveFirstKeeps(ready, id);
      RemoveFirstKeeps(waiting, id);
      ready := RemoveFirst(ready, id);
      waiting := RemoveFirst(waiting, id);
      r := Place(id, env);
    }

    method RemoveFromQueues(id: Id)
      requires Valid()
      modifies this`ready, this`waiting, this`failedQ, this`completedQ
      ensures Valid()
      ensures State() == KernelSpec.RemoveFromQueues(old(State()), id)
    {
      RemoveFirstKeeps(ready, id);
      RemoveFirstKeeps(waiting, id);
      ready := RemoveFirst(ready, id);
      waiting := RemoveFirst(waiting, id);
      failedQ := RemoveFirst(failedQ, id);
      completedQ := RemoveFirst(completedQ, id);
    }

    method MoveToWaiting(id: Id, reason: string) returns (r: Result<()>)
      requires Valid() && id in nodes
      modifies this
      ensures Valid()
      ensures match KernelSpec.MoveToWaiting(old(State()), id, reason)
              case Ok(s) => r == Ok(()) && State() == s
              case Err(e) => r == Err(e)
    {
      RemoveFromQueues(id);
      var t :- Block(nodes[id].task, reason);
      nodes := SetTask(nodes, id, t);
      waiting := waiting + [id];
      r := Ok(());
    }

    method Release(id: Id, env: Env) returns (r: Result<()>)
      requires Valid() && id in nodes
      modifies this
      ensures Valid()
      ensures match KernelSpec.Release(old(State()), id, env)
              case Ok(s) => r == Ok(()) && State() == s
              case Err(e) => r == Err(e)
    {
      RemoveFirstKeeps(waiting, id);
      waiting := RemoveFirst(waiting, id);
      var t :- Unblock(nodes[id].task);
      nodes := SetTask(nodes, id, t);
      AppendReady(id, env);
      r := Ok(());
    }

    /** Looks at a snapshot of the waiting queue, because the loop shortens it. */
    method WakeWaiting(env: Env) returns (r: Result<()>)
      requires Valid()
      modifies this
      ensures Valid()
      ensures match Wake(old(State()), old(waiting), env)
              case Ok(s) => r == Ok(()) && State() == s
              case Err(e) => r == Err(e)
    {
      var snapshot := waiting;
      var i := 0;
      while i < |snapshot|
        invariant 0 <= i <= |snapshot| && snapshot == old(waiting) && Valid()
        invariant nodes.Keys == old(nodes).Keys
        invariant Wake(State(), snapshot[i..], env) == Wake(old(State()), snapshot, env)
      {
        var id := snapshot[i];
        assert snapshot[i..] == [id] + snapshot[i + 1..];
        if nodes[id].open == {} && nodes[id].task.blockReason != "" {
          match env.wake(id) {
            case Refused(reason) =>
              nodes := SetTask(nodes, id, nodes[id].task.(blockReason := reason));
            case Granted =>
              var _ :- Release(id, env);
          }
        }
        i := i + 1;
      }
      r := Ok(());
    }

    method MarkRunning(id: Id) returns (r: Result<()>)
      requires Valid() && id in nodes
      modifies this
      ensures Valid()
      ensures match KernelSpec.MarkRunning(old(State()), id)
              case Ok(s) => r == Ok(()) && State() == s
              case Err(e) => r == Err(e)
    {
      var t :- Transition(nodes[id].task, Running);
      nodes := SetTask(nodes, id, t.(blockReason := ""));
      running := running + {id};
      r := Ok(());
    }

    /** One turn of the dispatch loop. */
    method DispatchOne(env: Env) returns (r: Result<bool>)
      requires Valid() && ready != [] && ready[0] in nodes
      modifies this
      ensures Valid()
      ensures match KernelSpec.DispatchOne(old(State()), env)
              case Ok(p) => r == Ok(p.1) && State() == p.0
              case Err(e) => r == Err(e)
    {
      var id := ready[0];
      ready := ready[1..];
      if env.agentMissing(id) {
        var _ :- MoveToWaiting(id, "no_capability_match");
        return Ok(false);
      }
      match env.grant(id) {
        case Refused(reason) =>
          var _ :- MoveToWaiting(id, reason);
          return Ok(false);
        case Granted =>
          var _ :- MarkRunning(id);
          return Ok(true);
      }
    }

    /** Wakes waiting tasks if nothing is ready, and sorts. */
    method Prepare(env: Env) returns (r: Result<()>)
      requires Valid()
      modifies this
      ensures Valid()
      ensures match BeforeDispatch(old(State()), env)
              case Ok(s) => r == Ok(()) && State() == s
              case Err(e) => r == Err(e)
    {
      hide StableSort, Wake;
      if ready == [] {
        var _ :- WakeWaiting(env);
      }
      SortPermutes(State(), env, env.sortClock, ready);
      ready := StableSort(State(), env, env.sortClock, ready);
      r := Ok(());
    }

    method DispatchReady(limit: Option<int>, env: Env) returns (r: Result<seq<Id>>)
      requires Valid()
      modifies this
      ensures Valid()
      ensures match Dispatch(old(State()), limit, env)
              case Ok(p) => r == Ok(p.1) && State() == p.0
              case Err(e) => r == Err(e)
      ensures old(InRun()) ==> r.Ok? && InRun() && KernelRuns.AllDischarged(State(), r.value)
    {
      hide KernelRuns.Inv, KernelRuns.AllDischarged, BeforeDispatch, KernelSpec.DispatchOne;
      if InRun() {
        KernelRuns.DispatchKeeps(State(), limit, env, KernelRuns.PLAIN);
      }
      var dispatched: seq<Id> := [];
      var _ :- Prepare(env);
      ghost var start := State();
      while ready != [] && (limit.None? || |dispatched| < limit.value)
        invariant Valid()
        invariant DispatchLoop(State(), limit, env, dispatched) == DispatchLoop(start, limit, env, [])
        decreases |ready|
      {
        var id := ready[0];
        ReadyShrinks(State(), env);
        var taken :- DispatchOne(env);
        if taken {
          dispatched := dispatched + [id];
        }
      }
      r := Ok(dispatched);
    }

    /** What the end of `id` does to a dependent that no longer has to wait for it. */
    method ReleaseOne(id: Id, dep: Id, env: Env) returns (r: Result<()>)
      requires Valid()
      modifies this
      ensures Valid()
      ensures match KernelSpec.ReleaseOne(old(State()), id, dep, env)
              case Ok(s) => r == Ok(()) && State() == s
              case Err(e) => r == Err(e)
    {
      if dep !in nodes {
        return Ok(());
      }
      nodes := SetOpen(nodes, dep, nodes[dep].open - {id});
      if nodes[dep].open == {} && dep in waiting {
        var _ :- Release(dep, env);
      }
      r := Ok(());
    }

    method ReleaseAll(id: Id, todo: seq<Id>, env: Env) returns (r: Result<()>)
      requires Valid()
      modifies this
      ensures Valid()
      ensures match KernelSpec.ReleaseAll(old(State()), id, todo, env)
              case Ok(s) => r == Ok(()) && State() == s
              case Err(e) => r == Err(e)
    {
      hide KernelSpec.ReleaseOne;
      var i := 0;
      while i < |todo|
        invariant 0 <= i <= |todo| && Valid()
        invariant KernelSpec.ReleaseAll(State(), id, todo[i..], env) ==
          KernelSpec.ReleaseAll(old(State()), id, todo, env)
      {
        assert todo[i..][1..] == todo[i + 1..];
        var _ :- ReleaseOne(id, todo[i], env);
        i := i + 1;
      }
      r := Ok(());
    }

    method MarkCompleted(id: Id) returns (r: Result<()>)
      requires Valid()
      modifies this
      ensures Valid()
      ensures match KernelSpec.MarkCompleted(old(State()), id)
              case Ok(s) => r == Ok(()) && State() == s
              case Err(e) => r == Err(e)
    {
      if id in running {
        var t :- Transition(nodes[id].task, Success);
        running := running - {id};
        nodes := SetTask(nodes, id, t);
        completedQ := if id in completedQ then completedQ else completedQ + [id];
      }
      r := Ok(());
    }

    /** `order` is the order in which the dependents happened to be visited. */
    method CompleteTask(id: Id, env: Env) returns (r: Result<()>, ghost order: seq<Id>)
      requires Valid()
      modifies this
      ensures Valid()
      ensures id in old(nodes) ==> Enumerates(order, old(nodes)[id].dependents)
      ensures match Complete(old(State()), id, order, env)
              case Ok(s) => r == Ok(()) && State() == s
              case Err(e) => r == Err(e)
      ensures old(InRun()) && id in old(running) && old(nodes)[id].task.status == Running ==> r.Ok? && InRun()
    {
      hide KernelRuns.Inv, KernelSpec.ReleaseAll, Enumerates;
      var todo := Listed(if id in nodes then nodes[id].dependents else {});
      order := todo;
      if InRun() && id in running && nodes[id].task.status == Running {
        KernelRuns.CompleteKeeps(State(), id, order, env, KernelRuns.PLAIN);
      }
      r := MarkCompleted(id);
      if r.Ok? && id in nodes {
        completed := completed + {id};
        r := ReleaseAll(id, todo, env);
      }
    }

    method FailAll(id: Id, todo: seq<Id>, env: Env) returns (r: Result<()>)
      requires Valid() && id in nodes
      modifies this
      ensures Valid()
      ensures match KernelSpec.FailAll(old(State()), id, todo, env)
              case Ok(s) => r == Ok(()) && State() == s
              case Err(e) => r == Err(e)
    {
      hide KernelSpec.FailOne;
      var i := 0;
      while i < |todo|
        invariant 0 <= i <= |todo| && id in nodes && Valid()
        invariant KernelSpec.FailAll(State(), id, todo[i..], env) == KernelSpec.FailAll(old(State()), id, todo, env)
      {
        assert todo[i..][1..] == todo[i + 1..];
        var _ :- FailOne(id, todo[i], env);
        i := i + 1;
      }
      r := Ok(());
    }

    method MarkFailed(id: Id) returns (r: Result<()>)
      requires Valid()
      modifies this
      ensures Valid()
      ensures match KernelSpec.MarkFailed(old(State()), id)
              case Ok(s) => r == Ok(()) && State() == s
              case Err(e) => r == Err(e)
    {
      if id in running {
        var t :- Transition(nodes[id].task, Failed);
        running := running - {id};
        nodes := SetTask(nodes, id, t);
        failedQ := if id in failedQ then failedQ else failedQ + [id];
      }
      r := Ok(());
    }

    method FailTask(id: Id, env: Env) returns (r: Result<()>, ghost order: seq<Id>)
      requires Valid()
      modifies this
      ensures Valid()
      ensures id in old(nodes) ==> Enumerates(order, old(nodes)[id].dependents)
      ensures match Fail(old(State()), id, order, env)
              case Ok(s) => r == Ok(()) && State() == s
              case Err(e) => r == Err(e)
      ensures old(InRun()) && id in old(running) ==> r.Ok? && InRun()
    {
      hide KernelRuns.Inv, KernelSpec.FailAll, Enumerates;
      var todo := Listed(if id in nodes then nodes[id].dependents else {});
      order := todo;
      if InRun() && id in running {
        KernelRuns.FailKeeps(State(), id, order, env, KernelRuns.PLAIN);
      }
      r := MarkFailed(id);
      if r.Ok? {
        failed := failed + {id};
        if id in nodes {
          r := FailAll(id, todo, env);
        }
      }
    }

    method FailOne(id: Id, dep: Id, env: Env) returns (r: Result<()>)
      requires Valid() && id in nodes
      modifies this
      ensures Valid()
      ensures match KernelSpec.FailOne(old(State()), id, dep, env)
              case Ok(s) => r == Ok(()) && State() == s && id in nodes
              case Err(e) => r == Err(e)
    {
      if dep !in nodes {
        return Ok(());
      }
      var mode := EffectiveMode(nodes[dep].task, id, nodes[id].task);
      if mode == Some(FailClosed) {
        var t :- Transition(nodes[dep].task, Failed);
        nodes := SetTask(nodes, dep, t);
        failedQ := if dep in failedQ then failedQ else failedQ + [dep];
        failed := failed + {dep};
        RemoveFromQueues(dep);
      } else if Waives(mode) {
        var _ :- ReleaseOne(id, dep, env);
      }
      r := Ok(());
    }
  }
}
