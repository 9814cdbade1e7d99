/** The dependency scheduler as an object that changes its graph and queues in place. Every method
    is tied to the function of the same name in DagSpec. */
module Dag {
  import opened Graphs
  import opened Tasks
  import opened TaskGraph
  import opened DagSpec
  import DagFailures
  import DagRuns
  import DagSort
  import DagTheorems

  class DagScheduler {
    var nodes: Nodes
    var queue: seq<Id>
    var waiting: seq<Id>
    var completed: set<Id>
    var failed: set<Id>

    function State(): DState
      reads this
    {
      DState(nodes, queue, waiting, completed, failed)
    }

    /** The invariant of runs: statuses, queue, open dependencies and edges agree. */
    ghost predicate InRun()
      reads this
    {
      DagRuns.Inv(State())
    }

    constructor ()
      ensures InRun() && State() == Initial()
    {
      nodes, queue, waiting, completed, failed := map[], [], [], {}, {};
      new;
      DagTheorems.InitialInv();
    }

    /** The id must be new: nodes are keyed by it and a second task would replace the first. */
    method Enqueue(id: Id, task: Task) returns (r: Result<()>)
      requires id !in nodes
      modifies this
      ensures match DagSpec.Enqueue(old(State()), id, task)
              case Ok(s) => r == Ok(()) && State() == s
              case Err(e) => r == Err(e)
      ensures old(InRun()) && DagTheorems.WellFormedTask(old(State()), id, task) ==> r.Ok? && InRun()
    {
      hide DagRuns.Inv;
      if InRun() && DagTheorems.WellFormedTask(State(), id, task) {
        DagTheorems.EnqueueKeeps(State(), id, task);
      }
      nodes := LinkNew(nodes, completed, id, task);
      if nodes[id].open == {} {
        var t :- Transition(nodes[id].task, Ready);
        nodes := SetTask(nodes, id, t);
      } else {
        var t :- Transition(nodes[id].task, Pending);
        nodes := SetTask(nodes, id, t);
        waiting := waiting + [id];
      }
      queue := queue + [id];
      r := Ok(());
    }

    /** Errors are raised before anything is written. */
    method AddDependencies(id: Id, deps: seq<Id>) returns (r: Result<()>)
      modifies this
      ensures match DagSpec.AddDependencies(old(State()), id, deps)
              case Ok(s) => r == Ok(()) && State() == s
              case Err(e) => r == Err(e) && (!e.InvalidTransition? ==> State() == old(State()))
      ensures old(InRun()) ==> InRun() && (r.Err? ==> !r.error.InvalidTransition?)
    {
      hide DagRuns.Inv, AddAll, FirstBad;
      if InRun() {
        DagTheorems.AddDependenciesKeeps(State(), id, deps);
      }
      if id !in nodes {
        return Err(UnknownTask(id));
      }
      if nodes[id].task.status in {Running, Success, Failed, Cancelled} {
        return Err(StateForbidsUpdate);
      }
      var unique := Unique(deps);
      if id in unique {
        return Err(SelfDependency);
      }
      var bad := CheckDependencies(nodes, id, unique);
      if bad.Some? {
        return Err(bad.value);
      }
      nodes := LinkDependencies(nodes, completed, id, unique);
      if id in queue && nodes[id].open != {} {
        var t :- Transition(nodes[id].task, Pending);
        nodes := SetTask(nodes, id, t);
        if id !in waiting {
          waiting := waiting + [id];
        }
      }
      r := Ok(());
    }

    method Dequeue() returns (r: Result<Option<Id>>)
      modifies this
      ensures match DagSpec.Dequeue(old(State()))
              case Ok(p) => r == Ok(p.1) && State() == p.0
              case Err(e) => r == Err(e)
      ensures old(InRun()) ==> r.Ok? && InRun()
    {
      hide DagRuns.Inv, RemoveFirst, FirstReady;
      if InRun() {
        DagRuns.DequeueKeeps(State());
      }
      var found := FindReady();
      if found.Some? {
        var id := found.value;
        queue := RemoveFirst(queue, id);
        waiting := RemoveFirst(waiting, id);
        var t :- Transition(nodes[id].task, Running);
        nodes := SetTask(nodes, id, t);
      }
      return Ok(found);
    }

    /** The first queued task with nothing open. */
    method FindReady() returns (r: Option<Id>)
      ensures r == FirstReady(State(), queue)
      ensures r.Some? ==> r.value in nodes && nodes[r.value].open == {}
    {
      var i := 0;
      while i < |queue|
        invariant 0 <= i <= |queue|
        invariant FirstReady(State(), queue[i..]) == FirstReady(State(), queue)
      {
        var id := queue[i];
        if id in nodes && nodes[id].open == {} {
          return Some(id);
        }
        i := i + 1;
      }
      return None;
    }

    /** `order` is the order in which the dependents happened to be visited. */
    method CompleteTask(id: Id) returns (r: Result<()>, ghost order: seq<Id>)
      modifies this
      ensures id in old(nodes) ==> Enumerates(order, old(nodes)[id].dependents)
      ensures match Complete(old(State()), id, order)
              case Ok(s) => r == Ok(()) && State() == s
              case Err(e) => r == Err(e)
    {
      hide DagSpec.ReleaseOne, Enumerates;
      order := [];
      if id !in nodes {
        return Ok(()), order;
      }
      completed := completed + {id};
      var todo := Listed(nodes[id].dependents);
      order := todo;
      ghost var start := State();
      var i := 0;
      while i < |todo|
        invariant 0 <= i <= |todo|
        invariant ReleaseAll(State(), id, todo[i..]) == ReleaseAll(start, id, todo)
      {
        assert todo[i..][1..] == todo[i + 1..];
        r := ReleaseOne(id, todo[i]);
        if r.Err? {
          return;
        }
        i := i + 1;
      }
      r := Ok(());
    }

    method ReleaseOne(id: Id, dep: Id) returns (r: Result<()>)
      modifies this
      ensures match DagSpec.ReleaseOne(old(State()), id, dep)
              case Ok(s) => r == Ok(()) && State() == s
              case Err(e) => r == Err(e)
    {
      if dep in nodes && id in nodes[dep].open {
        nodes := SetOpen(nodes, dep, nodes[dep].open - {id});
        if nodes[dep].open == {} {
          var t :- Transition(nodes[dep].task, Ready);
          nodes := SetTask(nodes, dep, t);
          waiting := RemoveFirst(waiting, dep);
        }
      }
      r := Ok(());
    }

    /** Terminates on any graph: each recursive call is made for a task that has not failed yet. */
    method FailTask(id: Id, orders: Id -> seq<Id>) returns (r: Result<()>)
      requires OrdersOk(nodes, orders)
      modifies this
      ensures match Fail(old(State()), id, orders)
              case Ok(s) => r == Ok(()) && State() == s && OrdersOk(nodes, orders)
              case Err(e) => r == Err(e)
      decreases nodes.Keys - failed - {id}
    {
      hide OrdersOk, CloseOne, DagSpec.WaiveOne;
      if id !in nodes {
        return Ok(());
      }
      failed := failed + {id};
      var todo := orders(id);
      ghost var start := State();
      var i := 0;
      while i < |todo|
        invariant 0 <= i <= |todo| && id in nodes
        invariant nodes.Keys == start.nodes.Keys && start.failed <= failed && OrdersOk(nodes, orders)
        invariant Cascade(State(), id, todo[i..], orders) == Cascade(start, id, todo, orders)
      {
        var dep := todo[i];
        assert todo[i..][1..] == todo[i + 1..];
        if dep in nodes && dep !in failed {
          var mode := EffectiveMode(nodes[dep].task, id, nodes[id].task);
          if mode == Some(FailClosed) {
            CloseThenFail(State(), dep, orders);
            var t :- Transition(nodes[dep].task, Failed);
            nodes := SetTask(nodes, dep, t);
            assert dep in old(nodes.Keys - failed - {id}) && dep !in nodes.Keys - failed - {dep};
            var _ :- FailTask(dep, orders);
          } else if Waives(mode) {
            WaiveKeepsOrders(State(), id, dep, orders);
            var _ :- WaiveOne(id, dep);
          }
        }
        i := i + 1;
      }
      r := Ok(());
    }

    method WaiveOne(id: Id, dep: Id) returns (r: Result<()>)
      requires dep in nodes
      modifies this`nodes
      ensures match DagSpec.WaiveOne(old(State()), id, dep)
              case Ok(s) => r == Ok(()) && State() == s
              case Err(e) => r == Err(e)
    {
      nodes := SetOpen(nodes, dep, nodes[dep].open - {id});
      if nodes[dep].open == {} {
        var t :- Transition(nodes[dep].task, Ready);
        nodes := SetTask(nodes, dep, t);
      }
      r := Ok(());
    }

    /** A running task has succeeded: its status is set, then complete_task is called. */
    method ReportSuccess(id: Id) returns (r: Result<()>, ghost order: seq<Id>)
      requires id in nodes
      modifies this
      ensures Enumerates(order, old(nodes)[id].dependents)
      ensures match DagRuns.Succeed(old(State()), id, order)
              case Ok(s) => r == Ok(()) && State() == s
              case Err(e) => r == Err(e)
      ensures old(InRun()) && old(nodes)[id].task.status == Running ==>
        && (r.Ok? ==> InRun())
        && (r.Ok? <==> forall b :: b in old(nodes)[id].dependents ==> !DagRuns.Wakes(old(nodes), id, b))
    {
      hide DagRuns.Inv, Complete, Enumerates;
      ghost var before := State();
      var t := Transition(nodes[id].task, Success);
      if t.Err? {
        order := Listed(nodes[id].dependents);
        return Err(t.error), order;
      }
      nodes := SetTask(nodes, id, t.value);
      r, order := CompleteTask(id);
      if DagRuns.Inv(before) && before.nodes[id].task.status == Running {
        DagRuns.SucceedKeeps(before, id, order);
      }
    }

    /** A running task has failed: its status is set, then fail_task is called. */
    method ReportFailure(id: Id, orders: Id -> seq<Id>) returns (r: Result<()>)
      requires id in nodes && OrdersOk(nodes, orders)
      modifies this
      ensures match DagRuns.Break(old(State()), id, orders)
              case Ok(s) => r == Ok(()) && State() == s
              case Err(e) => r == Err(e)
      ensures old(InRun() && DagRuns.BeingRun(State(), id)) ==>
        (r.Ok? ==> InRun()) && (r.Ok? <==> !old(DagFailures.FailureRaises(State(), id)))
    {
      hide DagRuns.Inv, Fail, DagRuns.BeingRun, DagRuns.NoneReopened, DagFailures.FailureRaises;
      if InRun() && DagRuns.BeingRun(State(), id) {
        DagFailures.BreakKeeps(State(), id, orders);
      }
      var t :- Transition(nodes[id].task, Failed);
      nodes := SetTask(nodes, id, t);
      r := FailTask(id, orders);
    }

    /** See DagSort.TopologicalSort: the scheduler's graph is only read. */
    method TopologicalSort(order: seq<Id>, orders: Id -> seq<Id>) returns (r: Option<seq<Id>>)
      requires DagSort.KnownDependents(nodes) && Enumerates(order, nodes.Keys) && OrdersOk(nodes, orders)
      ensures r == DagSort.Sort(nodes, order, orders)
    {
      r := DagSort.TopologicalSort(nodes, order, orders);
    }
  }

  /** Setting the status and calling fail_task is one closing step of the cascade. */
  lemma CloseThenFail(s: DState, dep: Id, orders: Id -> seq<Id>)
    requires dep in s.nodes && OrdersOk(s.nodes, orders)
    ensures
      var t := Transition(s.nodes[dep].task, Failed);
      match t
      case Ok(v) =>
        && CloseOne(s, dep) == Ok(s.(nodes := SetTask(s.nodes, dep, v), failed := s.failed + {dep}))
        && OrdersOk(SetTask(s.nodes, dep, v), orders)
      case Err(e) => CloseOne(s, dep) == Err(e)
  {
  }

  lemma WaiveKeepsOrders(s: DState, id: Id, dep: Id, orders: Id -> seq<Id>)
    requires dep in s.nodes && OrdersOk(s.nodes, orders)
    ensures DagSpec.WaiveOne(s, id, dep).Ok? ==>
      var s' := DagSpec.WaiveOne(s, id, dep).value;
      OrdersOk(s'.nodes, orders) && s'.nodes.Keys == s.nodes.Keys && s'.failed == s.failed
  {
  }
}
