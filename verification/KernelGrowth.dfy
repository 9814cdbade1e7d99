/** How enqueue and add_dependencies enlarge the dependency graph. */
module KernelGrowth {
  import opened Graphs
  import opened Tasks
  import opened TaskGraph
  import opened KernelSpec
  import opened KernelRuns

  /** s1 is s with `id` taken out of its queue and its graph grown by deps. */
  ghost predicate Lifted(s: KState, s1: KState, id: Id, deps: set<Id>) {
    && Grown(s.nodes, s1.nodes, id, deps)
    && GrownOpen(s.nodes, s1.nodes, id, deps, s.completed) && s1.nodes[id].task.status in {Pending, Ready, Blocked}
    && s1 == s.(nodes := s1.nodes, ready := RemoveFirst(s.ready, id), waiting := RemoveFirst(s.waiting, id))
  }

  lemma NotQueued(s: KState, id: Id)
    requires QueuesAgree(s)
    requires id in s.nodes ==> s.nodes[id].task.status in {Pending, Ready, Blocked}
    ensures id !in s.running && id !in s.failedQ && id !in s.completedQ && id !in s.completed && id !in s.failed
    ensures Distinct(s) && Typed(s)
  {
    if id in s.nodes { QueueFacts(s, id); }
  }

  ghost predicate SameStatuses(n: Nodes, n': Nodes, id: Id) {
    && OthersKeepStatus(n, n', id) && id in n'
    && n'[id].task.status in {Pending, Ready, Blocked}
    && (id in n ==> n'[id].task.status == n[id].task.status)
  }

  lemma LiftedStatuses(s: KState, s1: KState, id: Id, deps: set<Id>)
    requires Lifted(s, s1, id, deps)
    ensures SameStatuses(s.nodes, s1.nodes, id)
    ensures s1 == s.(nodes := s1.nodes, ready := RemoveFirst(s.ready, id), waiting := RemoveFirst(s.waiting, id))
  {
  }

  lemma PlaceReadyQueues(s: KState, s1: KState, id: Id, env: Env)
    requires QueuesAgree(s) && SameStatuses(s.nodes, s1.nodes, id) && s1.nodes[id].open == {}
    requires s1 == s.(nodes := s1.nodes, ready := RemoveFirst(s.ready, id), waiting := RemoveFirst(s.waiting, id))
    ensures Place(s1, id, env).Ok?
    ensures QueuesAgree(Place(s1, id, env).value)
    ensures SameGraph(s1.nodes, Place(s1, id, env).value.nodes)
  {
    hide QueuesAgree, NoDuplicates, RemoveFirst, OthersKeepStatus, Place;
    NotQueued(s, id);
    RemoveFirstDistinct(s.ready, id);
    RemoveFirstDistinct(s.waiting, id);
    PlaceReady(s1, id, env);
    var s' := Place(s1, id, env).value;
    SetTaskStatuses(s.nodes, s1.nodes, id, s'.nodes[id].task);
    assert Placed(s', id) && Distinct(s');
    ReadyOthersStay(s, s', id);
    MoveOne(s, s', id);
  }

  /** Only `id` changes between the two queues. */
  lemma ReadyOthersStay(s: KState, s': KState, id: Id)
    requires s' == s.(nodes := s'.nodes, ready := s'.ready, waiting := s'.waiting)
    requires forall k :: k != id ==> (k in s'.ready <==> k in s.ready) && (k in s'.waiting <==> k in s.waiting)
    ensures OthersStay(s, s', id)
  {
  }

  /** Placing a task with nothing open appends it to the ready queue and sorts. */
  lemma PlaceReady(s: KState, id: Id, env: Env)
    requires id in s.nodes && s.nodes[id].open == {} && s.nodes[id].task.status in {Pending, Ready, Blocked}
    requires NoDuplicates(s.ready) && id !in s.ready
    ensures Place(s, id, env).Ok?
    ensures
      var s' := Place(s, id, env).value;
      && s' == s.(nodes := SetTask(s.nodes, id, Readied(s.nodes[id].task)), ready := s'.ready)
      && NoDuplicates(s'.ready) && (forall k :: k in s'.ready <==> k in s.ready || k == id)
  {
    hide NoDuplicates, StableSort;
    var s1 := s.(nodes := SetTask(s.nodes, id, Readied(s.nodes[id].task)));
    AppendOnceDistinct(s.ready, id);
    assert AppendOnce(s.ready, id) == s.ready + [id];
    SortDistinct(s1, env, env.clock(id), AppendOnce(s.ready, id));
  }

  lemma PlaceWaitingQueues(s: KState, s1: KState, id: Id, env: Env)
    requires QueuesAgree(s) && SameStatuses(s.nodes, s1.nodes, id) && s1.nodes[id].open != {}
    requires s1 == s.(nodes := s1.nodes, ready := RemoveFirst(s.ready, id), waiting := RemoveFirst(s.waiting, id))
    ensures Place(s1, id, env).Ok?
    ensures QueuesAgree(Place(s1, id, env).value)
    ensures SameGraph(s1.nodes, Place(s1, id, env).value.nodes)
  {
    hide QueuesAgree, NoDuplicates, RemoveFirst, StableSort, OthersKeepStatus;
    var s' := Place(s1, id, env).value;
    SetTaskStatuses(s.nodes, s1.nodes, id, s'.nodes[id].task);
    NotQueued(s, id);
    RemoveFirstDistinct(s.ready, id);
    RemoveFirstDistinct(s.waiting, id);
    AppendOnceDistinct(s1.waiting, id);
    ReadyOthersStay(s, s', id);
    MoveOne(s, s', id);
  }

  lemma PlaceQueues(s: KState, s1: KState, id: Id, env: Env)
    requires QueuesAgree(s) && SameStatuses(s.nodes, s1.nodes, id)
    requires s1 == s.(nodes := s1.nodes, ready := RemoveFirst(s.ready, id), waiting := RemoveFirst(s.waiting, id))
    ensures Place(s1, id, env).Ok?
    ensures QueuesAgree(Place(s1, id, env).value)
    ensures SameGraph(s1.nodes, Place(s1, id, env).value.nodes)
  {
    hide QueuesAgree, SameGraph, RemoveFirst, Place;
    if s1.nodes[id].open == {} {
      PlaceReadyQueues(s, s1, id, env);
    } else {
      PlaceWaitingQueues(s, s1, id, env);
    }
  }

  lemma PlaceOpenSelf(s: KState, s1: KState, s': KState, id: Id, deps: set<Id>, e: Terms)
    requires id in s.nodes ==> OpenOk(s, id, e)
    requires Lifted(s, s1, id, deps) && id in s'.nodes
    requires SameModes(s.nodes, s'.nodes) && s'.completed == s.completed && s'.failed == s.failed
    requires id in s1.nodes && s'.nodes[id].open == s1.nodes[id].open
    requires s'.nodes[id].task.declared == s1.nodes[id].task.declared
    requires s'.nodes[id].task.status == if s1.nodes[id].open == {} then Ready else Pending
    ensures OpenOk(s', id, e)
  {
    hide RemoveFirst, SameModes;
    forall d ensures d in s'.nodes[id].task.declared <==> d in DeclaredBy(s.nodes, id) || d in deps {
      assert d in DeclaredBy(s1.nodes, id) <==> d in s1.nodes[id].task.declared;
    }
    forall d | d in s'.nodes[id].task.declared && d !in s'.nodes[id].open
      ensures Discharged(s'.nodes, s'.completed, s'.failed, id, d)
    {
      if d !in deps { DischargedFrame(s.nodes, s.completed, s.failed, s'.nodes, s'.completed, s'.failed, id, d); }
    }
  }

  lemma LiftedFrames(s: KState, s1: KState, s': KState, id: Id, deps: set<Id>, k: Id)
    requires Lifted(s, s1, id, deps) && SameGraph(s1.nodes, s'.nodes) && k in s1.nodes
    requires s'.nodes == SetTask(s1.nodes, id, s'.nodes[id].task)
    ensures SameModes(s.nodes, s'.nodes)
    ensures k != id ==> k in s.nodes && s'.nodes[k].task == s.nodes[k].task && s'.nodes[k].open == s.nodes[k].open
    ensures s'.nodes[id].open == OpenOf(s.nodes, id) + (deps - s.completed)
    ensures s'.nodes[id].task.declared == s1.nodes[id].task.declared
  {
    hide RemoveFirst;
  }

  lemma PlaceOpen(s: KState, s1: KState, s': KState, id: Id, deps: set<Id>, t: Task, e: Terms)
    requires OpenAgree(s, Id(""), {}, e) && Lifted(s, s1, id, deps)
    requires id in s1.nodes && s'.nodes == SetTask(s1.nodes, id, t) && SameGraph(s1.nodes, s'.nodes)
    requires s'.completed == s.completed && s'.failed == s.failed
    requires t.status == if s1.nodes[id].open == {} then Ready else Pending
    ensures OpenAgree(s', Id(""), {}, e)
  {
    hide Lifted, OpenOk, SameGraph, SameModes;
    LiftedFrames(s, s1, s', id, deps, id);
    PlaceOpenSelf(s, s1, s', id, deps, e);
    forall k | k in s'.nodes ensures OpenOk(s', k, e) {
      LiftedFrames(s, s1, s', id, deps, k);
      if k != id { OpenOkFrame(s, s', k, e); }
    }
    forall b, d | b in s'.nodes && d in s'.nodes[b].open ensures d !in s'.completed {
      LiftedFrames(s, s1, s', id, deps, b);
    }
  }

  lemma PlaceKeeps(s: KState, s1: KState, id: Id, deps: set<Id>, env: Env, e: Terms)
    requires Inv(s, e) && Lifted(s, s1, id, deps)
    requires forall d :: d in deps ==> !Reaches(DependentsGraph(s.nodes), id, d)
    ensures Place(s1, id, env).Ok?
    ensures Inv(Place(s1, id, env).value, e)
    ensures SameGraph(s1.nodes, Place(s1, id, env).value.nodes)
  {
    hide QueuesAgree, OpenAgree, EdgesAgree, SameGraph, Reaches, Grown, RemoveFirst, StableSort, DependentsGraph;
    LiftedStatuses(s, s1, id, deps);
    PlaceQueues(s, s1, id, env);
    var s' := Place(s1, id, env).value;
    GrownEdges(s.nodes, s1.nodes, id, deps);
    SameGraphKeepsEdges(s1.nodes, s'.nodes);
    PlaceOpen(s, s1, s', id, deps, s'.nodes[id].task, e);
  }

  // ---- enqueue ----

  /** A fresh task whose dependencies are already known. */
  ghost predicate WellFormedTask(s: KState, id: Id, task: Task) {
    && id !in s.nodes
    && (forall d :: d in task.declared ==> d in s.nodes)
    && task.status in {Pending, Ready, Blocked}
  }

  lemma EnqueueLifts(s: KState, id: Id, task: Task)
    requires QueuesAgree(s) && WellFormedTask(s, id, task)
    ensures Lifted(s, s.(nodes := EnqueueNodes(s.nodes, s.completed, id, task)), id, Elements(task.declared))
  {
    hide QueuesAgree, EnqueueNodes;
    NotQueued(s, id);
    RemoveAbsent(s.ready, id);
    RemoveAbsent(s.waiting, id);
    EnqueueGrows(s.nodes, s.completed, id, task);
  }

  lemma EnqueueKeeps(s: KState, id: Id, task: Task, env: Env, e: Terms)
    requires Inv(s, e) && WellFormedTask(s, id, task)
    ensures Enqueue(s, id, task, env).Ok?
    ensures Inv(Enqueue(s, id, task, env).value, e)
    ensures Enqueue(s, id, task, env).value.nodes.Keys == s.nodes.Keys + {id}
  {
    hide QueuesAgree, OpenAgree, EdgesAgree, Reaches, Place, EnqueueNodes;
    EnqueueLifts(s, id, task);
    forall d | d in Elements(task.declared) ensures !Reaches(DependentsGraph(s.nodes), id, d) {
      NewReachesNothing(DependentsGraph(s.nodes), id, d);
    }
    PlaceKeeps(s, s.(nodes := EnqueueNodes(s.nodes, s.completed, id, task)), id, Elements(task.declared), env, e);
  }

  // ---- add_dependencies ----

  lemma OpenIsLinked(s: KState, id: Id, e: Terms)
    requires Inv(s, e) && id in s.nodes
    ensures forall d :: d in s.nodes[id].open ==>
      d in s.nodes[id].task.declared && d in s.nodes && id in s.nodes[d].dependents && d !in s.completed
  {
    hide QueuesAgree, Acyclic;
    OpenFacts(s, id, e);
    forall d | d in s.nodes[id].open ensures d in s.nodes && id in s.nodes[d].dependents {
      assert Depends(s.nodes, id, d);
    }
  }

  lemma AddDependenciesKeeps(s: KState, id: Id, deps: seq<Id>, env: Env, e: Terms)
    requires Inv(s, e) && FirstBad(s.nodes, id, Unique(deps)) == None
    requires id in s.nodes && id !in deps && s.nodes[id].task.status !in {Running, Timeout, Success, Failed, Cancelled}
    ensures AddDependencies(s, id, deps, env).Ok?
    ensures Inv(AddDependencies(s, id, deps, env).value, e)
    ensures AddDependencies(s, id, deps, env).value.nodes.Keys == s.nodes.Keys
  {
    hide QueuesAgree, OpenAgree, EdgesAgree, Reaches, Place, AddAll, FirstBad, RemoveFirst;
    QueueFacts(s, id);
    OpenIsLinked(s, id, e);
    AddAllGrows(s.nodes, s.completed, id, Unique(deps));
    var s1 := HalfLinked(s, id, deps);
    PlaceKeeps(s, s1, id, Elements(Unique(deps)), env, e);
  }
}
