/** The dependency scheduler on a task enqueued before one of its dependencies. */
module DagLate {
  import opened Graphs
  import opened Tasks
  import opened TaskGraph
  import opened DagSpec
  import opened DagCascade
  import opened DagRuns
  import opened DagTheorems

  // ---- when the invariant survives ----

  lemma EnqueuedNode(s: DState, id: Id, task: Task)
    requires id !in s.nodes && task.status in {Pending, Ready, Blocked}
    ensures Enqueue(s, id, task).Ok?
    ensures
      var n := Enqueue(s, id, task).value.nodes;
      && n.Keys == s.nodes.Keys + {id} && n[id].task.declared == task.declared
      && n[id].open == Elements(task.declared) - Elements(task.declared) * s.completed
      && n[id].dependents == if id in task.declared then {id} else {}
  {
    hide EnqueueNodes;
    NewNode(s.nodes, s.completed, id, task);
  }

  /** Enqueueing a new task keeps the invariant exactly if its dependencies are known. */
  lemma EnqueueKeepsIff(s: DState, id: Id, task: Task)
    requires Inv(s) && id !in s.nodes && task.status in {Pending, Ready, Blocked}
    ensures Enqueue(s, id, task).Ok?
    ensures Inv(Enqueue(s, id, task).value) <==> forall d :: d in task.declared ==> d in s.nodes
  {
    hide QueueAgrees, OpenAgrees, Enqueue;
    EnqueuedNode(s, id, task);
    if forall d :: d in task.declared ==> d in s.nodes {
      EnqueueKeeps(s, id, task);
    } else {
      var d :| d in task.declared && d !in s.nodes;
      UnknownBreaksEdges(Enqueue(s, id, task).value.nodes, id, d);
    }
  }

  /** A dependency that is not known yet is left open and unrecorded. */
  lemma EnqueuedTooEarly(s: DState, id: Id, task: Task, d: Id)
    requires id !in s.nodes && task.status in {Pending, Ready, Blocked}
    requires d in task.declared && d != id && d !in s.nodes && d !in s.completed
    ensures Enqueue(s, id, task).Ok? && Unlinked(Enqueue(s, id, task).value.nodes, id, d)
  {
    hide Enqueue;
    EnqueuedNode(s, id, task);
  }

  // ---- every operation leaves it so ----

  lemma EnqueueStays(s: DState, k: Id, task: Task, id: Id, d: Id)
    requires Unlinked(s.nodes, id, d) && k !in s.nodes && Enqueue(s, k, task).Ok?
    ensures Unlinked(Enqueue(s, k, task).value.nodes, id, d)
  {
    hide EnqueueNodes;
    EnqueueLate(s.nodes, s.completed, k, task, id, d);
    NewNode(s.nodes, s.completed, k, task);
  }

  lemma AddDependenciesStays(s: DState, k: Id, deps: seq<Id>, id: Id, d: Id)
    requires Unlinked(s.nodes, id, d) && AddDependencies(s, k, deps).Ok?
    ensures Unlinked(AddDependencies(s, k, deps).value.nodes, id, d)
  {
    hide AddAll, FirstBad;
    AddAllLate(s.nodes, s.completed, k, Unique(deps), id, d);
  }

  /** It is not handed out either. */
  lemma DequeueStays(s: DState, id: Id, d: Id)
    requires Unlinked(s.nodes, id, d) && Dequeue(s).Ok?
    ensures Unlinked(Dequeue(s).value.0.nodes, id, d) && Dequeue(s).value.1 != Some(id)
  {
    hide RemoveFirst;
  }

  lemma {:induction false} ReleaseAllStays(s: DState, x: Id, order: seq<Id>, id: Id, d: Id)
    requires Unlinked(s.nodes, id, d) && (x == d ==> id !in order) && ReleaseAll(s, x, order).Ok?
    ensures Unlinked(ReleaseAll(s, x, order).value.nodes, id, d)
    decreases |order|
  {
    hide RemoveFirst;
    if order == [] {
    } else {
      ReleaseAllStays(ReleaseOne(s, x, order[0]).value, x, order[1..], id, d);
    }
  }

  lemma CompleteStays(s: DState, x: Id, order: seq<Id>, id: Id, d: Id)
    requires Unlinked(s.nodes, id, d) && Complete(s, x, order).Ok?
    requires x in s.nodes ==> Enumerates(order, s.nodes[x].dependents)
    ensures Unlinked(Complete(s, x, order).value.nodes, id, d)
  {
    hide ReleaseAll, NoDuplicates;
    if x in s.nodes { ReleaseAllStays(s.(completed := s.completed + {x}), x, order, id, d); }
  }

  lemma WaiveStays(s: DState, y: Id, dep: Id, id: Id, d: Id)
    requires Unlinked(s.nodes, id, d) && dep in s.nodes && !(y == d && dep == id) && WaiveOne(s, y, dep).Ok?
    ensures Unlinked(WaiveOne(s, y, dep).value.nodes, id, d)
  {
  }

  lemma CloseStays(s: DState, dep: Id, id: Id, d: Id)
    requires Unlinked(s.nodes, id, d) && dep in s.nodes && CloseOne(s, dep).Ok?
    ensures Unlinked(CloseOne(s, dep).value.nodes, id, d)
  {
  }

  lemma NotListed(n: Nodes, orders: Id -> seq<Id>, id: Id, d: Id)
    requires Unlinked(n, id, d) && OrdersOk(n, orders)
    ensures d in n ==> id !in orders(d)
  {
  }

  lemma {:induction false} CascadeStays(s: DState, y: Id, todo: seq<Id>, orders: Id -> seq<Id>, id: Id, d: Id)
    requires Unlinked(s.nodes, id, d) && y in s.nodes && OrdersOk(s.nodes, orders) && (y == d ==> id !in todo)
    requires Cascade(s, y, todo, orders).Ok?
    ensures Unlinked(Cascade(s, y, todo, orders).value.nodes, id, d)
    ensures SameGraph(s.nodes, Cascade(s, y, todo, orders).value.nodes)
    decreases s.nodes.Keys - s.failed, |todo|
  {
    hide Unlinked, OrdersOk, SameGraph, WaiveOne, CloseOne, EffectiveMode;
    if todo == [] {
      SameGraphSelf(s.nodes);
    } else {
      var dep := todo[0];
      assert todo == [dep] + todo[1..];
      if dep !in s.nodes || dep in s.failed {
        CascadeStays(s, y, todo[1..], orders, id, d);
      } else {
        var mode := EffectiveMode(s.nodes[dep].task, y, s.nodes[y].task);
        CascadeSteps(s, y, dep);
        if mode == Some(FailClosed) {
          var s1 := CloseOne(s, dep).value;
          CloseStays(s, dep, id, d);
          OrdersFrame(s.nodes, s1.nodes, orders);
          SameGraphKeys(s.nodes, s1.nodes);
          NotListed(s1.nodes, orders, id, d);
          assert dep in s.nodes.Keys - s.failed && dep !in s1.nodes.Keys - s1.failed;
          CascadeStays(s1, dep, orders(dep), orders, id, d);
          var s2 := Cascade(s1, dep, orders(dep), orders).value;
          SameGraphTrans(s.nodes, s1.nodes, s2.nodes);
          OrdersFrame(s.nodes, s2.nodes, orders);
          assert dep !in s2.nodes.Keys - s2.failed;
          CascadeStays(s2, y, todo[1..], orders, id, d);
          SameGraphTrans(s.nodes, s2.nodes, Cascade(s2, y, todo[1..], orders).value.nodes);
        } else if Waives(mode) {
          var s1 := WaiveOne(s, y, dep).value;
          WaiveStays(s, y, dep, id, d);
          OrdersFrame(s.nodes, s1.nodes, orders);
          SameGraphKeys(s.nodes, s1.nodes);
          assert s1.nodes.Keys - s1.failed == s.nodes.Keys - s.failed;
          CascadeStays(s1, y, todo[1..], orders, id, d);
          SameGraphTrans(s.nodes, s1.nodes, Cascade(s1, y, todo[1..], orders).value.nodes);
        } else {
          CascadeStays(s, y, todo[1..], orders, id, d);
        }
      }
    }
  }

  lemma FailStays(s: DState, x: Id, orders: Id -> seq<Id>, id: Id, d: Id)
    requires Unlinked(s.nodes, id, d) && OrdersOk(s.nodes, orders) && Fail(s, x, orders).Ok?
    ensures Unlinked(Fail(s, x, orders).value.nodes, id, d)
  {
    hide Unlinked, OrdersOk, Cascade;
    if x in s.nodes {
      NotListed(s.nodes, orders, id, d);
      CascadeStays(s.(failed := s.failed + {x}), x, orders(x), orders, id, d);
    }
  }

  // ---- runs ----

  /** Any call on the scheduler, and any status written by others. */
  datatype Call =
    | EnqueueCall(id: Id, task: Task)
    | AddCall(id: Id, deps: seq<Id>)
    | DequeueCall
    | CompleteCall(id: Id, order: seq<Id>)
    | FailCall(id: Id, orders: Id -> seq<Id>)
    | WriteCall(id: Id, status: Status)

  ghost predicate Permitted(s: DState, c: Call) {
    match c
    case EnqueueCall(k, _) => k !in s.nodes
    case AddCall(_, _) => true
    case DequeueCall => true
    case CompleteCall(x, order) => x in s.nodes ==> Enumerates(order, s.nodes[x].dependents)
    case FailCall(_, orders) => OrdersOk(s.nodes, orders)
    case WriteCall(k, _) => k in s.nodes
  }

  ghost function Effect(s: DState, c: Call): Result<DState>
    requires Permitted(s, c)
  {
    match c
    case EnqueueCall(k, task) => Enqueue(s, k, task)
    case AddCall(k, deps) => AddDependencies(s, k, deps)
    case DequeueCall => (match Dequeue(s) case Ok(r) => Ok(r.0) case Err(e) => Err(e))
    case CompleteCall(x, order) => Complete(s, x, order)
    case FailCall(x, orders) => Fail(s, x, orders)
    case WriteCall(k, status) => Ok(s.(nodes := SetTask(s.nodes, k, s.nodes[k].task.(status := status))))
  }

  ghost predicate AnyStep(s: DState, c: Call, s': DState) {
    && Permitted(s, c)
    && match Effect(s, c)
       case Ok(r) => s' == r
       case Err(x) => !x.InvalidTransition? && s' == s
  }

  lemma AnyStepStays(s: DState, c: Call, s': DState, id: Id, d: Id)
    requires AnyStep(s, c, s') && Unlinked(s.nodes, id, d)
    ensures Unlinked(s'.nodes, id, d)
  {
    hide Enqueue, AddDependencies, Dequeue, Complete, Fail, Enumerates, OrdersOk;
    if Effect(s, c).Ok? {
      match c
      case EnqueueCall(k, task) => EnqueueStays(s, k, task, id, d);
      case AddCall(k, deps) => AddDependenciesStays(s, k, deps, id, d);
      case DequeueCall => DequeueStays(s, id, d);
      case CompleteCall(x, order) => CompleteStays(s, x, order, id, d);
      case FailCall(x, orders) => FailStays(s, x, orders, id, d);
      case WriteCall(k, status) =>
    }
  }

  /** A task enqueued before a dependency is never dequeued, whatever is called afterwards. */
  lemma {:induction false} LateDependencyIsNeverMet(states: seq<DState>, calls: seq<Call>, k: nat, id: Id, d: Id)
    requires |states| == |calls| + 1 && k < |states| && Unlinked(states[0].nodes, id, d)
    requires forall i :: 0 <= i < |calls| ==> AnyStep(states[i], calls[i], states[i + 1])
    ensures Unlinked(states[k].nodes, id, d)
    ensures Dequeue(states[k]).Ok? ==> Dequeue(states[k]).value.1 != Some(id)
  {
    hide Unlinked, Dequeue;
    if k == 0 {
    } else {
      LateDependencyIsNeverMet(states[..k], calls[..k - 1], k - 1, id, d);
      assert AnyStep(states[k - 1], calls[k - 1], states[k - 1 + 1]);
      AnyStepStays(states[k - 1], calls[k - 1], states[k], id, d);
    }
    if Dequeue(states[k]).Ok? { DequeueStays(states[k], id, d); }
  }
}
