/** What enqueue and add_dependencies do, said through the graph and the queues. */
module KernelAdds {
  import opened Graphs
  import opened Tasks
  import opened TaskGraph
  import opened Additions
  import opened KernelSpec
  import opened KernelRuns
  import opened KernelGrowth
  import opened KernelTheorems
  import opened KernelStranded
  import opened KernelEnds

  /** `id` depends on deps as well, and waits for those that have not completed. With nothing open
      it is READY and in the ready queue, else PENDING and in the waiting queue. Everybody else is
      where it was, and knows its new dependent. */
  ghost predicate Added(s: KState, s': KState, id: Id, deps: set<Id>) {
    && Grown(s.nodes, s'.nodes, id, deps)
    && id in s'.nodes && s'.nodes[id].open == OpenOf(s.nodes, id) + (deps - s.completed)
    && s'.nodes[id].task.status == (if s'.nodes[id].open == {} then Ready else Pending)
    && (id in s'.ready <==> s'.nodes[id].open == {}) && (id in s'.waiting <==> s'.nodes[id].open != {})
    && id !in s'.running && id !in s'.failedQ && id !in s'.completedQ && id !in s'.failed && id !in s'.completed
    && forall a :: a in s.nodes && a != id ==> Untouched(s, s', a)
  }

  /** Of the record only the declared dependencies, the status and the reason have changed. */
  predicate Rewritten(t: Task, t': Task, deps: seq<Id>) {
    t' == t.(declared := Extended(t.declared, deps), status := t'.status, blockReason := t.tcbReason)
  }

  lemma PlaceAdds(s: KState, s1: KState, id: Id, deps: set<Id>, env: Env)
    requires Inv(s, PLAIN) && Lifted(s, s1, id, deps)
    requires forall d :: d in deps ==> !Reaches(DependentsGraph(s.nodes), id, d)
    ensures Place(s1, id, env).Ok? && Added(s, Place(s1, id, env).value, id, deps)
    ensures Place(s1, id, env).value.nodes[id].task ==
      s1.nodes[id].task.(status := Place(s1, id, env).value.nodes[id].task.status,
                         blockReason := s1.nodes[id].task.tcbReason)
  {
    hide Inv, Lifted, Grown, SameGraph, Reaches, DependentsGraph, RemoveFirst, StableSort, Untouched;
    PlaceKeeps(s, s1, id, deps, env, PLAIN);
    LiftedMeans(s, s1, id, deps);
    var s' := Place(s1, id, env).value;
    GrownRetask(s.nodes, s1.nodes, id, deps, s'.nodes[id].task);
    LivesInQueue(s', id);
    forall a | a in s.nodes && a != id ensures Untouched(s, s', a) {
      LiftedOther(s, s1, id, deps, a);
      PlaceOther(s1, id, env, a);
      UntouchedTrans(s, s1, s', a);
    }
  }

  lemma LiftedMeans(s: KState, s1: KState, id: Id, deps: set<Id>)
    requires Lifted(s, s1, id, deps)
    ensures Grown(s.nodes, s1.nodes, id, deps) && id in s1.nodes
    ensures s1.nodes[id].open == OpenOf(s.nodes, id) + (deps - s.completed)
  {
  }

  lemma LiftedOther(s: KState, s1: KState, id: Id, deps: set<Id>, a: Id)
    requires Lifted(s, s1, id, deps) && a in s.nodes && a != id
    ensures a in s1.nodes && Untouched(s, s1, a)
  {
    hide RemoveFirst;
    OthersSurvive(s.ready, id, a);
    OthersSurvive(s.waiting, id, a);
  }

  lemma LivesInQueue(s: KState, id: Id)
    requires Inv(s, PLAIN) && id in s.nodes && s.nodes[id].task.status in {Ready, Pending}
    ensures id in s.ready <==> s.nodes[id].task.status == Ready
    ensures id in s.waiting <==> s.nodes[id].task.status == Pending
    ensures id !in s.running && id !in s.failedQ && id !in s.completedQ && id !in s.failed && id !in s.completed
  {
    hide EdgesAgree, OpenAgree;
    assert Placed(s, id);
  }

  /** Any enqueue of any run adds the task as it was given, but for its status. */
  lemma EnqueueAdds(states: seq<KState>, ops: seq<Op>, k: nat)
    requires Run(states, ops) && k < |ops| && ops[k].EnqueueOp?
    ensures
      var s, s', id, task := states[k], states[k + 1], ops[k].id, ops[k].task;
      && id !in s.nodes && Added(s, s', id, Elements(task.declared))
      && s'.nodes[id].task == task.(status := s'.nodes[id].task.status, blockReason := task.tcbReason)
  {
    hide Run, Inv, Added, Reaches, DependentsGraph, EnqueueNodes, Place, Lifted;
    StepOf(states, ops, k);
    var s, id, task, env := states[k], ops[k].id, ops[k].task, ops[k].env;
    LiftedByEnqueue(s, id, task);
    forall d | d in Elements(task.declared) ensures !Reaches(DependentsGraph(s.nodes), id, d) {
      NewReaches(s.nodes, id, d);
    }
    PlaceAdds(s, s.(nodes := EnqueueNodes(s.nodes, s.completed, id, task)), id, Elements(task.declared), env);
    EnqueueGrows(s.nodes, s.completed, id, task);
  }

  lemma NewReaches(n: Nodes, id: Id, d: Id)
    requires id !in n && d in n
    ensures !Reaches(DependentsGraph(n), id, d)
  {
    hide Reaches;
    NewReachesNothing(DependentsGraph(n), id, d);
  }

  lemma LiftedByEnqueue(s: KState, id: Id, task: Task)
    requires Inv(s, PLAIN) && WellFormedTask(s, id, task)
    ensures Lifted(s, s.(nodes := EnqueueNodes(s.nodes, s.completed, id, task)), id, Elements(task.declared))
  {
    hide QueuesAgree, EdgesAgree, OpenAgree, EnqueueNodes, Lifted;
    EnqueueLifts(s, id, task);
  }

  lemma KnownIsAcyclic(s: KState)
    requires Inv(s, PLAIN)
    ensures Acyclic(DependentsGraph(s.nodes))
  {
    hide QueuesAgree, OpenAgree, Acyclic;
  }

  /** add_dependencies at any point of any run: it accepts exactly the calls that are in order, and
      raises half way on those of them that find the task in TIMEOUT; every other call it refuses,
      for the first thing that is wrong. An accepted call adds the dependencies. */
  lemma AddDependenciesIff(states: seq<KState>, ops: seq<Op>, id: Id, deps: seq<Id>, env: Env)
    requires Run(states, ops)
    ensures
      var s := states[|ops|];
      match AddDependencies(s, id, deps, env)
      case Ok(s') =>
        && MayAdd(s.nodes, id, deps) && s.nodes[id].task.status != Timeout && Added(s, s', id, Elements(deps))
        && Rewritten(s.nodes[id].task, s'.nodes[id].task, deps)
      case Err(e) =>
        if e.InvalidTransition? then MayAdd(s.nodes, id, deps) && s.nodes[id].task.status == Timeout
        else RefusedWith(s.nodes, id, deps, e)
  {
    hide Run, Inv, Acyclic, Added, FirstBad, Place, HalfLinked, MayAdd, FirstObjection, Unique,
      DependentsGraph, Reaches;
    InvAt(states, ops);
    var s := states[|ops|];
    AddDependenciesOutcome(s, id, deps, env, PLAIN);
    KnownIsAcyclic(s);
    if id in s.nodes && s.nodes[id].task.status !in {Running, Success, Failed, Cancelled} && id !in deps {
      FirstBadMeans(s.nodes, id, deps);
      if FirstBad(s.nodes, id, Unique(deps)) == None && s.nodes[id].task.status != Timeout {
        LiftedByAdd(s, id, deps);
        PlaceAdds(s, HalfLinked(s, id, deps), id, Elements(deps), env);
        RecordExtends(s, id, deps);
      }
    }
  }

  lemma InvAt(states: seq<KState>, ops: seq<Op>)
    requires Run(states, ops)
    ensures |states| == |ops| + 1 && Inv(states[|ops|], PLAIN)
  {
    hide Inv, Step;
    RunKeeps(states, ops, |ops|, PLAIN);
  }

  lemma LiftedByAdd(s: KState, id: Id, deps: seq<Id>)
    requires Inv(s, PLAIN) && id in s.nodes && id !in deps && FirstBad(s.nodes, id, Unique(deps)) == None
    requires s.nodes[id].task.status !in {Running, Timeout, Success, Failed, Cancelled}
    ensures Lifted(s, HalfLinked(s, id, deps), id, Elements(deps))
    ensures forall d :: d in Elements(deps) ==> !Reaches(DependentsGraph(s.nodes), id, d)
  {
    hide Inv, Reaches, AddAll, FirstBad, RemoveFirst, Grown, GrownOpen, Unique, DependentsGraph;
    AddGrows(s, id, deps);
    StaysLive(s, id, deps);
  }

  lemma RecordExtends(s: KState, id: Id, deps: seq<Id>)
    requires Inv(s, PLAIN) && id in s.nodes && id !in deps && FirstBad(s.nodes, id, Unique(deps)) == None
    ensures id in HalfLinked(s, id, deps).nodes
    ensures HalfLinked(s, id, deps).nodes[id].task ==
      s.nodes[id].task.(declared := Extended(s.nodes[id].task.declared, deps))
  {
    hide Inv, AddAll, FirstBad, RemoveFirst, Extended;
    OpenIsLinked(s, id, PLAIN);
    AddAllDeclares(s.nodes, s.completed, id, Unique(deps));
    ExtendedUnique(s.nodes[id].task.declared, deps);
  }

  lemma StaysLive(s: KState, id: Id, deps: seq<Id>)
    requires Inv(s, PLAIN) && id in s.nodes && FirstBad(s.nodes, id, Unique(deps)) == None
    requires s.nodes[id].task.status !in {Running, Timeout, Success, Failed, Cancelled}
    ensures id in HalfLinked(s, id, deps).nodes
    ensures HalfLinked(s, id, deps).nodes[id].task.status in {Pending, Ready, Blocked}
  {
    hide EdgesAgree, OpenAgree, FirstBad, RemoveFirst, AddAll;
    QueueFacts(s, id);
    AddAllStatus(s.nodes, s.completed, id, Unique(deps));
  }

  lemma AddGrows(s: KState, id: Id, deps: seq<Id>)
    requires Inv(s, PLAIN) && id in s.nodes && id !in deps && FirstBad(s.nodes, id, Unique(deps)) == None
    ensures Grown(s.nodes, HalfLinked(s, id, deps).nodes, id, Elements(deps))
    ensures GrownOpen(s.nodes, HalfLinked(s, id, deps).nodes, id, Elements(deps), s.completed)
  {
    hide Inv, AddAll, FirstBad, RemoveFirst, Grown, GrownOpen;
    OpenIsLinked(s, id, PLAIN);
    AddAllGrows(s.nodes, s.completed, id, Unique(deps));
    assert Elements(Unique(deps)) == Elements(deps);
  }
}
