/** What enqueue, add_dependencies, dequeue and a completion do at any point of any run, said through
    the graph, the queue and the waiting list. */
module DagSteps {
  import opened Graphs
  import opened Tasks
  import opened TaskGraph
  import opened Additions
  import opened DagSpec
  import opened DagRuns
  import opened DagFailures
  import opened DagTheorems
  import opened DagEnds

  // ---- enqueue and add_dependencies ----

  /** `id` depends on deps as well and waits for those that have not completed; everybody else is as it
      was, and knows its new dependent. */
  ghost predicate Added(s: DState, s': DState, id: Id, deps: set<Id>) {
    && Grown(s.nodes, s'.nodes, id, deps)
    && id in s'.nodes && s'.nodes[id].open == OpenOf(s.nodes, id) + (deps - s.completed)
    && s'.completed == s.completed && s'.failed == s.failed
  }

  /** The new dependencies are appended to the declared ones. */
  predicate Declares(t: Task, t': Task, deps: seq<Id>) {
    t'.declared == Extended(t.declared, deps)
  }

  /** Any enqueue of any run puts the task, as it was given but for its status, at the end of the queue;
      with something open also at the end of the waiting list. */
  lemma EnqueueAdds(states: seq<DState>, ops: seq<Op>, j: nat)
    requires Run(states, ops) && j < |ops| && ops[j].EnqueueOp?
    ensures
      var s, s', id, task := states[j], states[j + 1], ops[j].id, ops[j].task;
      && id !in s.nodes && Added(s, s', id, Elements(task.declared))
      && s'.queue == s.queue + [id]
      && s'.nodes[id].task ==
           task.(status := if s'.nodes[id].open == {} then Ready else Pending, blockReason := task.tcbReason)
      && s'.waiting == if s'.nodes[id].open == {} then s.waiting else s.waiting + [id]
  {
    hide Run, Inv, EnqueueNodes, Grown;
    StepOf(states, ops, j);
    var s, s', id, task := states[j], states[j + 1], ops[j].id, ops[j].task;
    EnqueueKeeps(s, id, task);
    EnqueueGrows(s.nodes, s.completed, id, task);
    var n := EnqueueNodes(s.nodes, s.completed, id, task);
    EnqueueShape(s, id, task, n);
    GrownRetask(s.nodes, n, id, Elements(task.declared), s'.nodes[id].task);
  }

  /** add_dependencies at any point of any run accepts exactly the calls that are in order and refuses
      every other for the first thing that is wrong. An accepted call adds the dependencies; a queued
      task that then waits for something is PENDING and on the waiting list. */
  lemma AddDependenciesIff(states: seq<DState>, ops: seq<Op>, id: Id, deps: seq<Id>)
    requires Run(states, ops)
    ensures
      var s := states[|ops|];
      match AddDependencies(s, id, deps)
      case Err(e) => RefusedWith(s.nodes, id, deps, e)
      case Ok(s') =>
        && MayAdd(s.nodes, id, deps) && Added(s, s', id, Elements(deps)) && s'.queue == s.queue
        && s'.nodes[id].task.status ==
             (if id in s.queue && s'.nodes[id].open != {} then Pending else s.nodes[id].task.status)
        && Declares(s.nodes[id].task, s'.nodes[id].task, deps)
        && s'.waiting ==
             (if id in s.queue && s'.nodes[id].open != {} && id !in s.waiting then s.waiting + [id] else s.waiting)
  {
    hide Run, Inv, Acyclic, Added, FirstBad, Repend, MayAdd, FirstObjection, Unique, DependentsGraph, AddAll;
    InvAt(states, ops);
    var s := states[|ops|];
    AddDependenciesKeeps(s, id, deps);
    KnownIsAcyclic(s);
    if id in s.nodes && s.nodes[id].task.status !in {Running, Success, Failed, Cancelled} && id !in deps {
      FirstBadMeans(s.nodes, id, deps);
      if FirstBad(s.nodes, id, Unique(deps)) == None {
        RependAdds(s, id, deps);
        RecordExtends(s, id, deps);
      }
    }
  }

  lemma InvAt(states: seq<DState>, ops: seq<Op>)
    requires Run(states, ops)
    ensures |states| == |ops| + 1 && Inv(states[|ops|])
  {
    hide Inv, Step;
    RunKeeps(states, ops, |ops|);
  }

  lemma KnownIsAcyclic(s: DState)
    requires Inv(s)
    ensures Acyclic(DependentsGraph(s.nodes))
  {
    hide Inv, Acyclic;
    GraphIsAcyclic(s);
  }

  lemma RependAdds(s: DState, id: Id, deps: seq<Id>)
    requires Inv(s) && id in s.nodes && id !in deps && FirstBad(s.nodes, id, Unique(deps)) == None
    requires s.nodes[id].task.status !in {Running, Success, Failed, Cancelled}
    ensures
      var r := Repend(s.(nodes := AddAll(s.nodes, s.completed, id, Unique(deps))), id);
      && r.Ok? && Added(s, r.value, id, Elements(deps)) && r.value.queue == s.queue
      && r.value.nodes[id].task.status ==
           (if id in s.queue && r.value.nodes[id].open != {} then Pending else s.nodes[id].task.status)
      && r.value.waiting ==
           (if id in s.queue && r.value.nodes[id].open != {} && id !in s.waiting then s.waiting + [id] else s.waiting)
  {
    hide Inv, AddAll, FirstBad, Unique, Grown, GrownOpen, Added, Repend, HasFailedDependency;
    AddGrows(s, id, deps);
    QueuedIsLive(s, id);
    RependShape(s, AddAll(s.nodes, s.completed, id, Unique(deps)), id, Elements(deps));
  }

  lemma RecordExtends(s: DState, id: Id, deps: seq<Id>)
    requires Inv(s) && id in s.nodes && id !in deps && FirstBad(s.nodes, id, Unique(deps)) == None
    ensures
      var r := Repend(s.(nodes := AddAll(s.nodes, s.completed, id, Unique(deps))), id);
      r.Ok? ==> id in r.value.nodes && r.value.nodes[id].task.declared == Extended(s.nodes[id].task.declared, deps)
  {
    hide Inv, AddAll, FirstBad, Extended;
    OpenIsLinked(s, id);
    AddAllDeclares(s.nodes, s.completed, id, Unique(deps));
    ExtendedUnique(s.nodes[id].task.declared, deps);
  }

  lemma AddGrows(s: DState, id: Id, deps: seq<Id>)
    requires Inv(s) && id in s.nodes && id !in deps && FirstBad(s.nodes, id, Unique(deps)) == None
    ensures Grown(s.nodes, AddAll(s.nodes, s.completed, id, Unique(deps)), id, Elements(deps))
    ensures GrownOpen(s.nodes, AddAll(s.nodes, s.completed, id, Unique(deps)), id, Elements(deps), s.completed)
  {
    hide Inv, AddAll, FirstBad, Grown, GrownOpen;
    OpenIsLinked(s, id);
    AddAllGrows(s.nodes, s.completed, id, Unique(deps));
    assert Elements(Unique(deps)) == Elements(deps);
  }

  lemma QueuedIsLive(s: DState, id: Id)
    requires Inv(s) && id in s.nodes && s.nodes[id].task.status !in {Running, Success, Failed, Cancelled}
    ensures id in s.queue ==> s.nodes[id].task.status in {Pending, Ready}
  {
    hide OpenAgrees, EdgesAgree, NoDuplicates, HasFailedDependency;
    Facts(s, id);
  }

  lemma RependShape(s: DState, n: Nodes, id: Id, deps: set<Id>)
    requires id in s.nodes && (id in s.queue ==> s.nodes[id].task.status in {Pending, Ready})
    requires Grown(s.nodes, n, id, deps) && GrownOpen(s.nodes, n, id, deps, s.completed)
    ensures
      var r := Repend(s.(nodes := n), id);
      && r.Ok? && Added(s, r.value, id, deps) && r.value.queue == s.queue
      && r.value.nodes[id].task.status ==
           (if id in s.queue && r.value.nodes[id].open != {} then Pending else s.nodes[id].task.status)
      && r.value.waiting ==
           (if id in s.queue && r.value.nodes[id].open != {} && id !in s.waiting then s.waiting + [id] else s.waiting)
  {
    hide Grown;
    GrownRetask(s.nodes, n, id, deps, n[id].task.(status := Pending, blockReason := n[id].task.tcbReason));
  }

  // ---- dequeue ----

  /** Any dequeue of any run returns the first task of the queue that waits for nothing, if there is
      one, takes it off the queue and the waiting list, and sets it RUNNING. Nothing else changes. */
  lemma DequeueTakesFirst(states: seq<DState>, ops: seq<Op>, j: nat)
    requires Run(states, ops) && j < |ops| && ops[j].DequeueOp?
    ensures
      var s, s' := states[j], states[j + 1];
      && Dequeue(s).Ok? && Dequeue(s).value.0 == s'
      && match Dequeue(s).value.1
         case None => s' == s && forall id :: id in s.queue && id in s.nodes ==> s.nodes[id].open != {}
         case Some(id) => exists i :: TakesAt(s, s', id, i)
  {
    hide Run, Inv, FirstReady, TakesAt;
    StepOf(states, ops, j);
    var s, s' := states[j], states[j + 1];
    DequeueKeeps(s);
    if FirstReady(s, s.queue).Some? { var i := FirstIsTaken(s); }
  }

  /** The i-th of the queue waits for nothing, all before it do, and it alone has been taken. */
  ghost predicate TakesAt(s: DState, s': DState, id: Id, i: nat) {
    && i < |s.queue| && s.queue[i] == id && id in s.nodes && s.nodes[id].open == {}
    && (forall k :: 0 <= k < i && s.queue[k] in s.nodes ==> s.nodes[s.queue[k]].open != {})
    && s'.queue == s.queue[..i] + s.queue[i + 1..]
    && s'.nodes == s.nodes[id := s.nodes[id].(task := s.nodes[id].task.(status := Running,
                                                                      blockReason := s.nodes[id].task.tcbReason))]
    && s' == s.(queue := s'.queue, nodes := s'.nodes, waiting := s'.waiting)
    && (forall k :: k != id ==> (k in s'.waiting <==> k in s.waiting))
  }

  lemma {:induction false} FirstReadyAt(s: DState, q: seq<Id>) returns (i: nat)
    requires FirstReady(s, q).Some?
    ensures i < |q| && q[i] == FirstReady(s, q).value && q[i] in s.nodes && s.nodes[q[i]].open == {}
    ensures forall k :: 0 <= k < i && q[k] in s.nodes ==> s.nodes[q[k]].open != {}
  {
    if q[0] in s.nodes && s.nodes[q[0]].open == {} {
      i := 0;
    } else {
      var i1 := FirstReadyAt(s, q[1..]);
      i := i1 + 1;
      forall k | 0 <= k < i && q[k] in s.nodes ensures s.nodes[q[k]].open != {} {
        if k > 0 { assert q[k] == q[1..][k - 1]; }
      }
    }
  }

  lemma {:induction false} RemoveAt(q: seq<Id>, i: nat)
    requires i < |q| && q[i] !in q[..i]
    ensures RemoveFirst(q, q[i]) == q[..i] + q[i + 1..]
  {
    if i == 0 {
    } else {
      assert q[0] == q[..i][0];
      assert q[1..][..i - 1] == q[..i][1..];
      RemoveAt(q[1..], i - 1);
      assert q[..i] + q[i + 1..] == [q[0]] + (q[1..][..i - 1] + q[1..][i..]);
    }
  }

  lemma FirstIsTaken(s: DState) returns (i: nat)
    requires Dequeue(s).Ok? && FirstReady(s, s.queue).Some?
    ensures Dequeue(s).value.1 == FirstReady(s, s.queue)
    ensures TakesAt(s, Dequeue(s).value.0, FirstReady(s, s.queue).value, i)
  {
    hide FirstReady, RemoveFirst;
    i := FirstReadyAt(s, s.queue);
    var id := FirstReady(s, s.queue).value;
    forall k | 0 <= k < i ensures s.queue[..i][k] != id {
    }
    RemoveAt(s.queue, i);
    forall k | k != id ensures k in RemoveFirst(s.waiting, id) <==> k in s.waiting {
      OthersSurvive(s.waiting, id, k);
    }
  }

  // ---- the waiting list ----

  /** The waiting list names each task once, only queued tasks, and every PENDING one. */
  ghost predicate WaitingAgrees(s: DState) {
    && NoDuplicates(s.waiting)
    && (forall id :: id in s.waiting ==> id in s.queue)
    && (forall id :: id in s.nodes && s.nodes[id].task.status == Pending ==> id in s.waiting)
  }

  lemma EnqueueWaiting(s: DState, s': DState, id: Id, deps: set<Id>)
    requires WaitingAgrees(s) && Typed(s) && id !in s.nodes && Added(s, s', id, deps) && s'.queue == s.queue + [id]
    requires s'.nodes[id].task.status == (if s'.nodes[id].open == {} then Ready else Pending)
    requires s'.waiting == if s'.nodes[id].open == {} then s.waiting else s.waiting + [id]
    ensures WaitingAgrees(s')
  {
    if s'.nodes[id].open != {} { AppendDistinct(s.waiting, id); }
  }

  lemma AddWaiting(s: DState, s': DState, id: Id, deps: set<Id>)
    requires WaitingAgrees(s) && id in s.nodes && Added(s, s', id, deps) && s'.queue == s.queue
    requires s'.nodes[id].task.status ==
      (if id in s.queue && s'.nodes[id].open != {} then Pending else s.nodes[id].task.status)
    requires s'.waiting ==
      (if id in s.queue && s'.nodes[id].open != {} && id !in s.waiting then s.waiting + [id] else s.waiting)
    ensures WaitingAgrees(s')
  {
    if id !in s.waiting { AppendDistinct(s.waiting, id); }
  }

  lemma DequeueWaiting(s: DState)
    requires WaitingAgrees(s) && NoDuplicates(s.queue) && Dequeue(s).Ok?
    ensures WaitingAgrees(Dequeue(s).value.0)
  {
    hide RemoveFirst, NoDuplicates, FirstReady;
    if FirstReady(s, s.queue).Some? {
      var id := FirstReady(s, s.queue).value;
      RemoveFirstDistinct(s.queue, id);
      RemoveFirstDistinct(s.waiting, id);
    }
  }

  lemma {:induction false} ReleaseWaiting(s: DState, x: Id, order: seq<Id>)
    requires WaitingAgrees(s) && ReleaseAll(s, x, order).Ok?
    ensures WaitingAgrees(ReleaseAll(s, x, order).value)
    decreases |order|
  {
    hide WaitingAgrees, ReleaseOne;
    if order == [] {
    } else {
      ReleaseOneWaiting(s, x, order[0]);
      ReleaseWaiting(ReleaseOne(s, x, order[0]).value, x, order[1..]);
    }
  }

  lemma ReleaseOneWaiting(s: DState, x: Id, dep: Id)
    requires WaitingAgrees(s) && ReleaseOne(s, x, dep).Ok?
    ensures WaitingAgrees(ReleaseOne(s, x, dep).value)
  {
    hide RemoveFirst, NoDuplicates, ReleaseOne;
    if dep in s.nodes && x in s.nodes[dep].open {
      ReleasedNode(s, x, dep);
      RemoveFirstDistinct(s.waiting, dep);
    } else {
      ReleaseNothing(s, x, dep);
    }
  }

  lemma SucceedWaiting(s: DState, x: Id, order: seq<Id>)
    requires WaitingAgrees(s) && x in s.nodes && Succeed(s, x, order).Ok?
    ensures WaitingAgrees(Succeed(s, x, order).value)
  {
    hide ReleaseAll;
    var t := Transition(s.nodes[x].task, Success).value;
    ReleaseWaiting(s.(nodes := SetTask(s.nodes, x, t), completed := s.completed + {x}), x, order);
  }

  lemma BreakWaiting(s: DState, x: Id, orders: Id -> seq<Id>)
    requires Inv(s) && WaitingAgrees(s) && BeingRun(s, x) && OrdersOk(s.nodes, orders) && x in s.nodes
    requires Break(s, x, orders).Ok?
    ensures WaitingAgrees(Break(s, x, orders).value)
  {
    hide Inv, BeingRun, OrdersOk, Break, Tied, NoDuplicates, SameGraph;
    var s' := Break(s, x, orders).value;
    BreakAt(s, x, orders, x);
    SameGraphKeys(s.nodes, s'.nodes);
    BreakIsTied(s, x, orders);
    forall id | id in s'.nodes && s'.nodes[id].task.status == Pending ensures id in s'.waiting {
      TiedOpen(s, s', x, id);
    }
  }

  lemma WriteWaiting(s: DState, s': DState, x: Id)
    requires WaitingAgrees(s) && x in s.nodes && (TimeOut(s, x) == Ok(s') || Restart(s, x) == Ok(s'))
    ensures WaitingAgrees(s')
  {
  }

  lemma KnownQueue(s: DState)
    requires Inv(s)
    ensures NoDuplicates(s.queue) && Typed(s)
  {
    hide OpenAgrees, EdgesAgree, NoDuplicates, Placed;
  }

  /** In every reachable state. A READY task may still be on the list: a failure that frees it does not
      take it off. */
  lemma {:induction false} WaitingListAgrees(states: seq<DState>, ops: seq<Op>, k: nat)
    requires Run(states, ops) && k < |states|
    ensures WaitingAgrees(states[k])
  {
    hide Inv, WaitingAgrees, Dequeue, Succeed, Break, TimeOut, Restart, AddDependencies, Enqueue, Added, WellFormedTask,
      BeingRun, OrdersOk;
    if k == 0 {
      NothingWaits();
    } else {
      WaitingListAgrees(states, ops, k - 1);
      StepOf(states, ops, k - 1);
      var s, op, s' := states[k - 1], ops[k - 1], states[k];
      KnownQueue(s);
      match op
      case EnqueueOp(id, task) =>
        EnqueueAdds(states, ops, k - 1);
        EnqueueWaiting(s, s', id, Elements(task.declared));
      case AddDependenciesOp(id, deps) =>
        AddStepWaiting(states, ops, k - 1);
      case DequeueOp => DequeueKeeps(s); DequeueWaiting(s);
      case SucceedOp(id, order) => SucceedKeeps(s, id, order); SucceedWaiting(s, id, order);
      case BreakOp(id, orders) => BeingRunFacts(s, id); BreakGives(s, id, orders); BreakWaiting(s, id, orders);
      case TimeOutOp(id) => TimeOutReturns(s, id); WriteWaiting(s, s', id);
      case RestartOp(id) => RestartReturns(s, id); WriteWaiting(s, s', id);
    }
  }

  lemma AddStepWaiting(states: seq<DState>, ops: seq<Op>, j: nat)
    requires Run(states, ops) && j < |ops| && ops[j].AddDependenciesOp? && WaitingAgrees(states[j])
    ensures WaitingAgrees(states[j + 1])
  {
    hide Inv, AddDependencies, WaitingAgrees, Added, MayAdd, RefusedWith;
    StepOf(states, ops, j);
    var s, id, deps := states[j], ops[j].id, ops[j].deps;
    PrefixRun(states, ops, j);
    AddDependenciesIff(states[..j + 1], ops[..j], id, deps);
    if AddDependencies(s, id, deps).Ok? {
      MayAddKnown(s.nodes, id, deps);
      AddWaiting(s, states[j + 1], id, Elements(deps));
    }
  }

  lemma MayAddKnown(n: Nodes, id: Id, deps: seq<Id>)
    requires MayAdd(n, id, deps)
    ensures id in n
  {
  }

  lemma PrefixRun(states: seq<DState>, ops: seq<Op>, j: nat)
    requires Run(states, ops) && j <= |ops|
    ensures Run(states[..j + 1], ops[..j])
  {
    hide Step, Initial;
  }

  lemma NothingWaits()
    ensures WaitingAgrees(Initial())
  {
  }

  // ---- completions ----

  /** Any completion of any run: the task is in SUCCESS and among the completed, each task that waits
      for it is let go, and every other is as it was. */
  lemma CompletionLetsGo(states: seq<DState>, ops: seq<Op>, j: nat, b: Id)
    requires Run(states, ops) && j < |ops| && ops[j].SucceedOp? && b in states[j].nodes
    ensures
      var s, s', x := states[j], states[j + 1], ops[j].id;
      && s'.queue == s.queue && s'.failed == s.failed && s'.completed == s.completed + {x}
      && b in s'.nodes
      && if b == x then s'.nodes[b].task.status == Success
         else if x in s.nodes[b].open then LetGo(s, s', x, b)
         else s'.nodes[b] == s.nodes[b] && (b in s'.waiting <==> b in s.waiting)
  {
    hide Run, Inv, LetGo, ReleaseAll, NoDuplicates, WaitingAgrees;
    StepOf(states, ops, j);
    var s, s', x, order := states[j], states[j + 1], ops[j].id, ops[j].order;
    SucceedKeeps(s, x, order);
    WaitingListAgrees(states, ops, j);
    WaitingDistinct(s);
    var t := Transition(s.nodes[x].task, Success).value;
    var s1 := s.(nodes := SetTask(s.nodes, x, t), completed := s.completed + {x});
    ReleaseTables(s1, x, order);
    NotItsOwn(s, x);
    if b != x && x in s.nodes[b].open {
      OpenIsLinked(s, b);
      assert b in Elements(order);
      ReleaseAllAt(s1, x, order, b);
      LetGoHead(s, s1, s', x, b);
    } else {
      ReleaseAllOther(s1, x, order, b);
    }
  }

  lemma WaitingDistinct(s: DState)
    requires WaitingAgrees(s)
    ensures NoDuplicates(s.waiting)
  {
  }
}
