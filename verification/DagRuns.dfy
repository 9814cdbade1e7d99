/** What every run of the dependency scheduler keeps, and what follows for dequeue. */
module DagRuns {
  import opened Graphs
  import opened Tasks
  import opened TaskGraph
  import opened DagSpec

  // ---- invariant ----

  ghost predicate HasFailedDependency(s: DState, id: Id)
    requires id in s.nodes
  {
    exists p :: p in s.nodes[id].open && p in s.failed
  }

  /** A task's status says where it is. A queued task waits for something, is READY, or was failed
      by a cascade and keeps a failed dependency open. A task out of the queue has been handed out;
      add_dependencies may give it new dependencies between two attempts, whence its open set can be
      anything. READY outside the queue means that it had failed and that the last of these
      dependencies has completed since. */
  ghost predicate Placed(s: DState, id: Id)
    requires id in s.nodes
  {
    var status, open := s.nodes[id].task.status, s.nodes[id].open;
    && (id in s.completed <==> status == Success)
    && if id in s.queue then
         && (id in s.failed <==> status == Failed)
         && status in {Pending, Ready, Failed}
         && (status == Pending ==> open != {})
         && (status == Ready ==> open == {})
         && (status == Failed ==> HasFailedDependency(s, id))
       else
         && status in {Running, Timeout, Success, Failed, Ready}
         && (id in s.failed <==> status in {Failed, Ready})
  }

  ghost predicate QueueAgrees(s: DState) {
    && NoDuplicates(s.queue) && Typed(s)
    && s.completed <= s.nodes.Keys && s.failed <= s.nodes.Keys
    && forall id :: id in s.nodes ==> Placed(s, id)
  }

  ghost predicate OpenOk(s: DState, b: Id)
    requires b in s.nodes
  {
    var node := s.nodes[b];
    && (forall d :: d in node.open ==> d in node.task.declared)
    && (forall d :: d in node.task.declared && d !in node.open ==> Discharged(s.nodes, s.completed, s.failed, b, d))
  }

  /** As in the queue scheduler: while x, just completed, is still to be taken off the open sets of
      `rest`, only those have a completed dependency open. */
  ghost predicate OpenAgrees(s: DState, x: Id, rest: set<Id>) {
    && (forall b :: b in s.nodes ==> OpenOk(s, b))
    && (forall b, d :: b in s.nodes && d in s.nodes[b].open && d in s.completed ==> d == x && b in rest)
    && (forall b :: b in rest ==> b in s.nodes && x in s.nodes[b].open)
  }

  ghost predicate InvDuring(s: DState, x: Id, rest: set<Id>) {
    QueueAgrees(s) && EdgesAgree(s.nodes) && OpenAgrees(s, x, rest)
  }

  ghost predicate Inv(s: DState) {
    InvDuring(s, Id(""), {})
  }

  // ---- frames ----

  lemma OpenOkFrame(s: DState, s': DState, k: Id)
    requires k in s.nodes && SameModes(s.nodes, s'.nodes) && OpenOk(s, k)
    requires s.completed <= s'.completed && s.failed <= s'.failed
    requires s'.nodes[k].open == s.nodes[k].open && s'.nodes[k].task.declared == s.nodes[k].task.declared
    ensures OpenOk(s', k)
  {
    forall d | d in s'.nodes[k].task.declared && d !in s'.nodes[k].open
      ensures Discharged(s'.nodes, s'.completed, s'.failed, k, d)
    {
      DischargedFrame(s.nodes, s.completed, s.failed, s'.nodes, s'.completed, s'.failed, k, d);
    }
  }

  /** The record of `id` alone changes; its open set may only shrink by x. */
  ghost predicate OneChanges(s: DState, s': DState, id: Id, x: Id) {
    && SameGraph(s.nodes, s'.nodes)
    && s.completed <= s'.completed && s.failed <= s'.failed
    && (forall k :: k in s.nodes && k != id ==> s'.nodes[k] == s.nodes[k])
    && id in s.nodes && (s'.nodes[id].open == s.nodes[id].open || s'.nodes[id].open == s.nodes[id].open - {x})
  }

  lemma OneChangesOpen(s: DState, s': DState, id: Id, x: Id, k: Id)
    requires OneChanges(s, s', id, x) && k in s.nodes && OpenOk(s, k)
    requires x in s.nodes[id].open && x !in s'.nodes[id].open ==>
      Discharged(s'.nodes, s'.completed, s'.failed, id, x)
    ensures OpenOk(s', k)
  {
    if k != id {
      OpenOkFrame(s, s', k);
    } else {
      forall d | d in s'.nodes[k].task.declared && d !in s'.nodes[k].open
        ensures Discharged(s'.nodes, s'.completed, s'.failed, k, d)
      {
        if d !in s.nodes[k].open {
          DischargedFrame(s.nodes, s.completed, s.failed, s'.nodes, s'.completed, s'.failed, k, d);
        }
      }
    }
  }

  ghost predicate OthersStay(s: DState, s': DState, id: Id) {
    forall k :: k != id ==>
      && (k in s'.queue <==> k in s.queue) && (k in s'.completed <==> k in s.completed)
      && (k in s'.failed <==> k in s.failed)
  }

  /** Queue and status stay in step when only `id` moves. */
  lemma OneMoves(s: DState, s': DState, id: Id, x: Id)
    requires QueueAgrees(s) && OneChanges(s, s', id, x) && OthersStay(s, s', id)
    requires NoDuplicates(s'.queue) && Placed(s', id)
    ensures QueueAgrees(s')
  {
    hide NoDuplicates;
    forall k | k in s'.nodes ensures Placed(s', k) {
      if k != id {
        assert Placed(s, k);
        if s.nodes[k].task.status == Failed && k in s.queue {
          var p :| p in s.nodes[k].open && p in s.failed;
          assert p in s'.nodes[k].open && p in s'.failed;
        }
      }
    }
  }

  lemma OneClosesOpen(s: DState, s': DState, id: Id, x: Id, z: Id, rest: set<Id>, rest': set<Id>)
    requires OpenAgrees(s, z, rest) && OneChanges(s, s', id, x) && s'.completed == s.completed
    requires x in s.nodes[id].open && x !in s'.nodes[id].open ==>
      Discharged(s'.nodes, s'.completed, s'.failed, id, x)
    requires rest' == rest || (rest' == rest - {id} && z !in s'.nodes[id].open)
    requires id in rest' ==> z in s'.nodes[id].open
    ensures OpenAgrees(s', z, rest')
  {
    hide OpenOk, Discharged;
    forall k | k in s'.nodes ensures OpenOk(s', k) {
      OneChangesOpen(s, s', id, x, k);
    }
  }

  /** One task changes: its record, its place in the queue, and x taken off its open set. */
  lemma OneStepKeeps(s: DState, s': DState, id: Id, x: Id, z: Id, rest: set<Id>, rest': set<Id>)
    requires InvDuring(s, z, rest) && OneChanges(s, s', id, x) && OthersStay(s, s', id)
    requires s'.completed == s.completed && NoDuplicates(s'.queue) && Placed(s', id)
    requires x in s.nodes[id].open && x !in s'.nodes[id].open ==>
      Discharged(s'.nodes, s'.completed, s'.failed, id, x)
    requires rest' == rest || (rest' == rest - {id} && z !in s'.nodes[id].open)
    requires id in rest' ==> z in s'.nodes[id].open
    ensures InvDuring(s', z, rest')
  {
    hide QueueAgrees, EdgesAgree, OpenAgrees, Placed, OthersStay, NoDuplicates, Discharged;
    OneMoves(s, s', id, x);
    SameGraphKeepsEdges(s.nodes, s'.nodes);
    OneClosesOpen(s, s', id, x, z, rest, rest');
  }

  /** A changed status, and perhaps a new member of the failed set, changes one task. */
  lemma RetaskOne(s: DState, s': DState, x: Id, t: Task)
    requires x in s.nodes && t == s.nodes[x].task.(status := t.status, blockReason := t.blockReason)
    requires s' == s.(nodes := SetTask(s.nodes, x, t), failed := s'.failed)
    requires s.failed <= s'.failed <= s.failed + {x}
    ensures OneChanges(s, s', x, x) && OthersStay(s, s', x) && SameGraph(s.nodes, s'.nodes)
    ensures s'.nodes[x].open == s.nodes[x].open
  {
  }

  lemma InvFacts(s: DState, z: Id, rest: set<Id>, id: Id)
    requires InvDuring(s, z, rest) && id in s.nodes
    ensures Placed(s, id) && NoDuplicates(s.queue) && Typed(s)
    ensures id in rest ==> z in s.nodes[id].open
  {
  }

  lemma Facts(s: DState, id: Id)
    requires QueueAgrees(s) && id in s.nodes
    ensures Placed(s, id) && NoDuplicates(s.queue) && Typed(s)
  {
  }

  // ---- dequeue ----

  /** dequeue raises nothing; the task it returns was READY, so it had not failed, and each of its
      dependencies is completed or waived. */
  lemma DequeueKeeps(s: DState)
    requires Inv(s)
    ensures Dequeue(s).Ok?
    ensures Inv(Dequeue(s).value.0)
    ensures
      match Dequeue(s).value.1
      case Some(id) =>
        && id in s.nodes && s.nodes[id].task.status == Ready && id !in s.failed && id !in s.completed
        && forall d :: d in s.nodes[id].task.declared ==> Discharged(s.nodes, s.completed, s.failed, id, d)
      case None => true
  {
    hide EdgesAgree;
    if FirstReady(s, s.queue).Some? {
      var id := FirstReady(s, s.queue).value;
      Facts(s, id);
      assert OpenOk(s, id);
      DequeueOne(s, id);
    }
  }

  lemma DequeueOne(s: DState, id: Id)
    requires Inv(s) && FirstReady(s, s.queue) == Some(id) && id in s.nodes && s.nodes[id].task.status == Ready
    requires id in s.queue && s.nodes[id].open == {}
    ensures Dequeue(s).Ok? && Inv(Dequeue(s).value.0)
  {
    hide InvDuring, NoDuplicates, RemoveFirst, FirstReady;
    InvFacts(s, Id(""), {}, id);
    RemoveFirstDistinct(s.queue, id);
    OneStepKeeps(s, Dequeue(s).value.0, id, id, Id(""), {}, {});
  }

  // ---- complete_task ----

  /** x is the last dependency of a task that was handed out before and has not failed. */
  predicate Wakes(nodes: Nodes, x: Id, b: Id) {
    b in nodes && nodes[b].open == {x} && nodes[b].task.status in {Running, Timeout, Success}
  }

  lemma ReleaseOneKeeps(s: DState, x: Id, dep: Id, rest: set<Id>)
    requires InvDuring(s, x, rest) && dep in rest && x in s.completed && x in s.nodes
    ensures ReleaseOne(s, x, dep).Ok? <==> !Wakes(s.nodes, x, dep)
    ensures
      match ReleaseOne(s, x, dep)
      case Err(e) => e.InvalidTransition?
      case Ok(s') =>
        && InvDuring(s', x, rest - {dep}) && SameGraph(s.nodes, s'.nodes) && s'.completed == s.completed
        && (forall b :: b in s.nodes && b != dep ==> s'.nodes[b] == s.nodes[b])
  {
    hide InvDuring, NoDuplicates, OneChanges, OthersStay, SameGraph, ReleaseOne, HasFailedDependency;
    RestKnown(s, x, rest, dep);
    InvFacts(s, x, rest, dep);
    InvFacts(s, x, rest, x);
    ReleaseShape(s, x, dep);
    if ReleaseOne(s, x, dep).Ok? {
      var s' := ReleaseOne(s, x, dep).value;
      ReleasedPlaced(s, s', x, dep);
      OneStepKeeps(s, s', dep, x, x, rest, rest - {dep});
    }
  }

  /** What a completion does to one dependent, and when it raises. */
  lemma ReleaseShape(s: DState, x: Id, dep: Id)
    requires dep in s.nodes && x in s.nodes[dep].open && Placed(s, dep)
    ensures ReleaseOne(s, x, dep).Ok? <==> !Wakes(s.nodes, x, dep)
    ensures
      match ReleaseOne(s, x, dep)
      case Err(e) => e.InvalidTransition?
      case Ok(s') =>
        && OneChanges(s, s', dep, x) && OthersStay(s, s', dep) && SameGraph(s.nodes, s'.nodes)
        && s'.queue == s.queue && s'.completed == s.completed && s'.failed == s.failed
        && s'.nodes[dep].open == s.nodes[dep].open - {x}
        && (forall b :: b in s.nodes && b != dep ==> s'.nodes[b] == s.nodes[b])
  {
    hide ReleaseOne, HasFailedDependency;
    ReleasedNode(s, x, dep);
  }

  lemma ReleasedNode(s: DState, x: Id, dep: Id)
    requires dep in s.nodes && x in s.nodes[dep].open
    ensures
      var n := s.nodes[dep];
      ReleaseOne(s, x, dep) ==
        if n.open == {x} && !CanMove(n.task.status, Ready) then Err(InvalidTransition(n.task.status, Ready))
        else
          Ok(s.(nodes := s.nodes[dep := Node(if n.open == {x} then Readied(n.task) else n.task, n.open - {x},
                                             n.dependents)],
                waiting := if n.open == {x} then RemoveFirst(s.waiting, dep) else s.waiting))
  {
    hide RemoveFirst;
    var n := s.nodes[dep];
    assert n.open - {x} == {} <==> n.open == {x};
    var n1 := n.(open := n.open - {x});
    assert s.nodes[dep := n1][dep := n1.(task := Readied(n.task))] == s.nodes[dep := n1.(task := Readied(n.task))];
  }

  lemma RestKnown(s: DState, z: Id, rest: set<Id>, id: Id)
    requires InvDuring(s, z, rest) && id in rest
    ensures id in s.nodes
  {
  }

  lemma ReleasedPlaced(s: DState, s': DState, x: Id, dep: Id)
    requires dep in s.nodes && x in s.nodes[dep].open && Placed(s, dep) && x !in s.failed
    requires ReleaseOne(s, x, dep) == Ok(s')
    ensures Placed(s', dep)
  {
    hide RemoveFirst;
    if s.nodes[dep].task.status == Failed && dep in s.queue {
      var p :| p in s.nodes[dep].open && p in s.failed;
      assert p in s.nodes[dep].open - {x};
      assert p in s'.nodes[dep].open && p in s'.failed;
    }
  }

  lemma NothingLeft(s: DState, x: Id)
    requires InvDuring(s, x, {})
    ensures Inv(s)
  {
    hide QueueAgrees, EdgesAgree, OpenOk;
  }

  lemma {:induction false} ReleaseAllKeeps(s: DState, x: Id, order: seq<Id>)
    requires NoDuplicates(order) && InvDuring(s, x, Elements(order)) && x in s.completed && x in s.nodes
    ensures ReleaseAll(s, x, order).Ok? <==> forall b :: b in order ==> !Wakes(s.nodes, x, b)
    ensures
      match ReleaseAll(s, x, order)
      case Ok(s') => Inv(s')
      case Err(e) => e.InvalidTransition?
    decreases |order|
  {
    hide InvDuring, Inv, SameGraph, ReleaseOne;
    if order == [] {
      assert Elements(order) == {};
      NothingLeft(s, x);
    } else {
      TailElements(order);
      HeadTail(order);
      ReleaseOneKeeps(s, x, order[0], Elements(order));
      if ReleaseOne(s, x, order[0]).Ok? {
        var s1 := ReleaseOne(s, x, order[0]).value;
        SameGraphKeys(s.nodes, s1.nodes);
        ReleaseAllKeeps(s1, x, order[1..]);
        forall b | b in order[1..] ensures Wakes(s1.nodes, x, b) <==> Wakes(s.nodes, x, b) {
        }
      }
    }
  }

  /** A task that has neither completed nor failed is open for each of its dependents. */
  lemma UnfinishedIsOpen(s: DState, x: Id)
    requires Inv(s) && x in s.nodes && x !in s.completed && x !in s.failed
    ensures forall b :: b in s.nodes[x].dependents ==> b in s.nodes && x in s.nodes[b].open && b != x
  {
    hide QueueAgrees, Acyclic;
    forall b | b in s.nodes[x].dependents ensures b in s.nodes && x in s.nodes[b].open && b != x {
      assert Depends(s.nodes, b, x);
      assert OpenOk(s, b);
      NoSelfEdge(s.nodes, b, x);
    }
  }

  /** The worker reports success: the status is set, then complete_task is called. */
  function Succeed(s: DState, x: Id, order: seq<Id>): Result<DState>
    requires x in s.nodes
  {
    var t :- Transition(s.nodes[x].task, Success);
    Complete(s.(nodes := SetTask(s.nodes, x, t)), x, order)
  }

  /** Completing a running task raises exactly if it is the last dependency of a task that has been
      handed out. */
  lemma SucceedKeeps(s: DState, x: Id, order: seq<Id>)
    requires Inv(s) && x in s.nodes && s.nodes[x].task.status == Running
    requires Enumerates(order, s.nodes[x].dependents)
    ensures Succeed(s, x, order).Ok? <==> forall b :: b in s.nodes[x].dependents ==> !Wakes(s.nodes, x, b)
    ensures
      match Succeed(s, x, order)
      case Ok(s') => Inv(s')
      case Err(e) => e.InvalidTransition?
  {
    hide ReleaseAll, EdgesAgree, OpenAgrees, QueueAgrees, NoDuplicates;
    Facts(s, x);
    UnfinishedIsOpen(s, x);
    NotItsOwn(s, x);
    var t := Transition(s.nodes[x].task, Success).value;
    var s1 := s.(nodes := SetTask(s.nodes, x, t), completed := s.completed + {x});
    OneMoves(s, s1, x, x);
    SameGraphKeepsEdges(s.nodes, s1.nodes);
    SucceedOpen(s, s1, x);
    assert Elements(order) == s.nodes[x].dependents;
    ReleaseAllKeeps(s1, x, order);
    forall b | b in order ensures Wakes(s1.nodes, x, b) <==> Wakes(s.nodes, x, b) {
      assert b in Elements(order);
    }
    forall b ensures b in s.nodes[x].dependents <==> b in order {
      assert b in Elements(order) <==> b in order;
    }
  }

  lemma NotItsOwn(s: DState, x: Id)
    requires Inv(s) && x in s.nodes
    ensures x !in s.nodes[x].open
  {
    hide QueueAgrees, Acyclic;
    assert OpenOk(s, x);
    if x in s.nodes[x].open {
      assert Depends(s.nodes, x, x);
      NoSelfEdge(s.nodes, x, x);
    }
  }

  lemma SucceedOpen(s: DState, s1: DState, x: Id)
    requires OpenAgrees(s, Id(""), {}) && EdgesAgree(s.nodes) && OneChanges(s, s1, x, x) && x !in s.nodes[x].open
    requires s1.completed == s.completed + {x}
    requires forall b :: b in s.nodes[x].dependents ==> b in s.nodes && x in s.nodes[b].open && b != x
    ensures OpenAgrees(s1, x, s.nodes[x].dependents)
  {
    hide Acyclic;
    forall k | k in s1.nodes ensures OpenOk(s1, k) {
      OneChangesOpen(s, s1, x, x, k);
    }
    forall b, d | b in s1.nodes && d in s1.nodes[b].open && d in s1.completed
      ensures d == x && b in s.nodes[x].dependents
    {
      assert OpenOk(s, b);
      assert Depends(s.nodes, b, d);
    }
  }

  // ---- fail_task ----

  /** What a waiver does to the one task it concerns, and when it raises. */
  lemma WaiveShape(s: DState, id: Id, dep: Id)
    requires dep in s.nodes && Placed(s, dep) && dep !in s.failed
    ensures WaiveOne(s, id, dep).Ok? <==>
      !(s.nodes[dep].open - {id} == {} && s.nodes[dep].task.status in {Running, Timeout, Success})
    ensures
      match WaiveOne(s, id, dep)
      case Err(e) => e.InvalidTransition?
      case Ok(s') =>
        && OneChanges(s, s', dep, id) && Placed(s', dep) && s' == s.(nodes := s'.nodes)
        && s'.nodes[dep].open == s.nodes[dep].open - {id}
        && (dep !in s.queue ==> s'.nodes[dep].task.status != Ready)
  {
    hide HasFailedDependency, WaiveOne;
    WaivedNode(s, id, dep);
  }

  lemma WaivedNode(s: DState, id: Id, dep: Id)
    requires dep in s.nodes
    ensures
      var n := s.nodes[dep];
      var open := n.open - {id};
      WaiveOne(s, id, dep) ==
        if open == {} && !CanMove(n.task.status, Ready) then Err(InvalidTransition(n.task.status, Ready))
        else
          Ok(s.(nodes := s.nodes[dep := Node(if open == {} then Readied(n.task) else n.task, open, n.dependents)]))
  {
    var n := s.nodes[dep];
    var n1 := n.(open := n.open - {id});
    assert s.nodes[dep := n1][dep := n1.(task := Readied(n.task))] == s.nodes[dep := n1.(task := Readied(n.task))];
  }

  lemma WaiveKeeps(s: DState, id: Id, dep: Id)
    requires Inv(s) && id in s.failed && id in s.nodes && dep in s.nodes && dep !in s.failed
    requires Waives(EffectiveMode(s.nodes[dep].task, id, s.nodes[id].task))
    ensures dep in s.queue ==> WaiveOne(s, id, dep).Ok?
    ensures
      match WaiveOne(s, id, dep)
      case Err(e) => e.InvalidTransition?
      case Ok(s') =>
        && Inv(s') && SameGraph(s.nodes, s'.nodes) && s' == s.(nodes := s'.nodes)
        && (NoneReopened(s) ==> NoneReopened(s'))
  {
    hide InvDuring, NoDuplicates, WaiveOne, SameGraph, EffectiveMode, HasFailedDependency;
    InvFacts(s, Id(""), {}, dep);
    WaiveShape(s, id, dep);
    if WaiveOne(s, id, dep).Ok? {
      var s' := WaiveOne(s, id, dep).value;
      SameGraphKeys(s.nodes, s'.nodes);
      assert Discharged(s'.nodes, s'.completed, s'.failed, dep, id) by { WaivedIsDischarged(s, s', dep, id); }
      OneStepKeeps(s, s', dep, id, Id(""), {}, {});
    }
  }

  lemma WaivedIsDischarged(s: DState, s': DState, dep: Id, id: Id)
    requires SameGraph(s.nodes, s'.nodes) && id in s.failed && s'.failed == s.failed && id in s.nodes && dep in s.nodes
    requires Waives(EffectiveMode(s.nodes[dep].task, id, s.nodes[id].task))
    ensures Discharged(s'.nodes, s'.completed, s'.failed, dep, id)
  {
  }

  lemma CloseKeeps(s: DState, id: Id, dep: Id)
    requires Inv(s) && id in s.failed && id in s.nodes && dep in s.nodes && id in s.nodes[dep].open && dep !in s.failed
    ensures dep in s.queue ==> CloseOne(s, dep).Ok?
    ensures
      match CloseOne(s, dep)
      case Err(e) => e.InvalidTransition?
      case Ok(s') =>
        && Inv(s') && SameGraph(s.nodes, s'.nodes) && s'.failed == s.failed + {dep} && s'.queue == s.queue
        && (NoneReopened(s) ==> NoneReopened(s')) && dep !in s.completed
  {
    hide InvDuring, NoDuplicates, OneChanges, OthersStay, SameGraph;
    InvFacts(s, Id(""), {}, dep);
    if CloseOne(s, dep).Ok? {
      var s' := CloseOne(s, dep).value;
      RetaskOne(s, s', dep, Transition(s.nodes[dep].task, Failed).value);
      assert id in s'.nodes[dep].open && id in s'.failed;
      OneStepKeeps(s, s', dep, dep, Id(""), {}, {});
    }
  }

  /** A failed task stays open for those who would fail with it. */
  lemma FailClosedIsOpen(s: DState, id: Id, dep: Id)
    requires Inv(s) && id in s.failed && id in s.nodes && dep in s.nodes && Depends(s.nodes, dep, id)
    requires EffectiveMode(s.nodes[dep].task, id, s.nodes[id].task) == Some(FailClosed)
    ensures id in s.nodes[dep].open
  {
    hide EdgesAgree, NoDuplicates, HasFailedDependency;
    Facts(s, id);
    assert OpenOk(s, dep);
  }

  // ---- tasks that got new dependencies after they were handed out ----

  /** No task that has been handed out waits for anything. */
  ghost predicate NoneReopened(s: DState) {
    forall b :: b in s.nodes && b !in s.queue ==> s.nodes[b].open == {} && s.nodes[b].task.status != Ready
  }

  lemma DependentsQueued(s: DState, dep: Id)
    requires Inv(s) && NoneReopened(s) && dep in s.nodes && dep !in s.completed && dep !in s.failed
    ensures forall b :: b in s.nodes[dep].dependents ==> b in s.queue
  {
    hide Inv;
    UnfinishedIsOpen(s, dep);
  }

  // ---- the cascade ----

  /** Every listed task depends on the failed one. */
  ghost predicate AllDepend(s: DState, id: Id, todo: seq<Id>) {
    forall b :: b in todo ==> Depends(s.nodes, b, id)
  }

  /** What a call of the cascade gives: the invariant, unless a transition is forbidden. That does
      not happen if nobody was reopened and the listed dependents are queued. */
  ghost predicate CascadeOk(s: DState, todo: seq<Id>, r: Result<DState>) {
    && (NoneReopened(s) && (forall b :: b in todo ==> b in s.queue) ==> r.Ok?)
    && match r
       case Err(e) => e.InvalidTransition?
       case Ok(s') =>
         && Inv(s') && SameGraph(s.nodes, s'.nodes) && s'.queue == s.queue
         && (NoneReopened(s) ==> NoneReopened(s'))
  }

  /** One of the steps, then the rest. */
  lemma CascadeOkThen(s: DState, s1: DState, todo: seq<Id>, r: Result<DState>)
    requires todo != [] && CascadeOk(s1, todo[1..], r) && SameGraph(s.nodes, s1.nodes) && s1.queue == s.queue
    requires NoneReopened(s) ==> NoneReopened(s1)
    ensures CascadeOk(s, todo, r)
  {
    hide Inv, NoneReopened, SameGraph;
    if r.Ok? { SameGraphTrans(s.nodes, s1.nodes, r.value.nodes); }
  }

  lemma AllDependFrame(s: DState, s1: DState, id: Id, todo: seq<Id>)
    requires AllDepend(s, id, todo) && SameGraph(s.nodes, s1.nodes)
    ensures AllDepend(s1, id, todo)
  {
  }

  lemma DependentsDepend(s: DState, dep: Id, orders: Id -> seq<Id>)
    requires Inv(s) && dep in s.nodes && OrdersOk(s.nodes, orders)
    ensures AllDepend(s, dep, orders(dep)) && NoDuplicates(orders(dep))
    ensures forall b :: b in orders(dep) <==> b in s.nodes[dep].dependents
  {
    hide QueueAgrees, OpenAgrees, Acyclic, NoDuplicates;
    forall b ensures b in orders(dep) <==> b in s.nodes[dep].dependents {
      assert b in Elements(orders(dep)) <==> b in orders(dep);
    }
  }

  lemma {:induction false} CascadeKeeps(s: DState, id: Id, todo: seq<Id>, orders: Id -> seq<Id>)
    requires Inv(s) && id in s.nodes && id in s.failed && AllDepend(s, id, todo) && OrdersOk(s.nodes, orders)
    ensures CascadeOk(s, todo, Cascade(s, id, todo, orders))
    decreases s.nodes.Keys - s.failed, |todo|
  {
    hide Inv, SameGraph, OrdersOk, CloseOne, WaiveOne, NoneReopened, CascadeOk, AllDepend;
    if todo == [] {
      CascadeOkSelf(s);
    } else {
      var dep := todo[0];
      AllDependTail(s, id, todo);
      if dep in s.failed {
        SameGraphSelf(s.nodes);
        CascadeKeeps(s, id, todo[1..], orders);
        CascadeOkThen(s, s, todo, Cascade(s, id, todo[1..], orders));
      } else {
        var mode := EffectiveMode(s.nodes[dep].task, id, s.nodes[id].task);
        if mode == Some(FailClosed) {
          CascadeKeepsClosed(s, id, todo, orders);
        } else if Waives(mode) {
          CascadeKeepsWaived(s, id, todo, orders);
        } else {
          SameGraphSelf(s.nodes);
          CascadeKeeps(s, id, todo[1..], orders);
          CascadeOkThen(s, s, todo, Cascade(s, id, todo[1..], orders));
        }
      }
    }
  }

  lemma CascadeOkSelf(s: DState)
    requires Inv(s)
    ensures CascadeOk(s, [], Ok(s))
  {
    hide Inv;
  }

  lemma AllDependTail(s: DState, id: Id, todo: seq<Id>)
    requires AllDepend(s, id, todo) && todo != []
    ensures todo[0] in s.nodes && Depends(s.nodes, todo[0], id) && AllDepend(s, id, todo[1..])
  {
    assert todo[0] in todo;
    forall b | b in todo[1..] ensures Depends(s.nodes, b, id) {
      assert b in todo;
    }
  }

  lemma {:induction false} CascadeKeepsWaived(s: DState, id: Id, todo: seq<Id>, orders: Id -> seq<Id>)
    requires Inv(s) && id in s.nodes && id in s.failed && AllDepend(s, id, todo) && OrdersOk(s.nodes, orders)
    requires todo != [] && todo[0] in s.nodes && todo[0] !in s.failed
    requires Waives(EffectiveMode(s.nodes[todo[0]].task, id, s.nodes[id].task))
    ensures CascadeOk(s, todo, Cascade(s, id, todo, orders))
    decreases s.nodes.Keys - s.failed, |todo|, 0
  {
    hide Inv, SameGraph, OrdersOk, WaiveOne, CloseOne, NoneReopened, CascadeOk, AllDepend, EffectiveMode;
    var dep := todo[0];
    AllDependTail(s, id, todo);
    WaiveKeeps(s, id, dep);
    if WaiveOne(s, id, dep).Ok? {
      var s1 := WaiveOne(s, id, dep).value;
      SameGraphKeys(s.nodes, s1.nodes);
      OrdersFrame(s.nodes, s1.nodes, orders);
      AllDependFrame(s, s1, id, todo[1..]);
      assert s1.nodes.Keys - s1.failed == s.nodes.Keys - s.failed;
      CascadeKeeps(s1, id, todo[1..], orders);
      CascadeOkThen(s, s1, todo, Cascade(s1, id, todo[1..], orders));
    } else {
      CascadeRaises(s, todo, WaiveOne(s, id, dep));
    }
  }

  /** A step that raises is not taken for a queued task. */
  lemma CascadeRaises(s: DState, todo: seq<Id>, r: Result<DState>)
    requires todo != [] && todo[0] !in s.queue && r.Err? && r.error.InvalidTransition?
    ensures CascadeOk(s, todo, r)
  {
    assert todo[0] in todo;
  }

  lemma OrdersFrame(n: Nodes, n': Nodes, orders: Id -> seq<Id>)
    requires SameGraph(n, n') && OrdersOk(n, orders)
    ensures OrdersOk(n', orders)
  {
  }

  lemma {:induction false} CascadeKeepsClosed(s: DState, id: Id, todo: seq<Id>, orders: Id -> seq<Id>)
    requires Inv(s) && id in s.nodes && id in s.failed && AllDepend(s, id, todo) && OrdersOk(s.nodes, orders)
    requires todo != [] && todo[0] in s.nodes && todo[0] !in s.failed
    requires EffectiveMode(s.nodes[todo[0]].task, id, s.nodes[id].task) == Some(FailClosed)
    ensures CascadeOk(s, todo, Cascade(s, id, todo, orders))
    decreases s.nodes.Keys - s.failed, |todo|, 0
  {
    hide Inv, SameGraph, OrdersOk, CloseOne, NoneReopened, CascadeOk, AllDepend, EffectiveMode;
    var dep := todo[0];
    AllDependTail(s, id, todo);
    FailClosedIsOpen(s, id, dep);
    CloseKeeps(s, id, dep);
    if CloseOne(s, dep).Err? {
      CascadeRaises(s, todo, CloseOne(s, dep));
    } else {
      var s1 := CloseOne(s, dep).value;
      if NoneReopened(s) { DependentsQueued(s, dep); }
      SameGraphKeys(s.nodes, s1.nodes);
      OrdersFrame(s.nodes, s1.nodes, orders);
      DependentsDepend(s, dep, orders);
      AllDependFrame(s, s1, dep, orders(dep));
      assert dep in s.nodes.Keys - s.failed && dep !in s1.nodes.Keys - s1.failed;
      CascadeKeeps(s1, dep, orders(dep), orders);
      CloseThenRest(s, s1, id, todo, orders);
    }
  }

  lemma {:induction false} CloseThenRest(s: DState, s1: DState, id: Id, todo: seq<Id>, orders: Id -> seq<Id>)
    requires id in s.nodes && id in s.failed && AllDepend(s, id, todo) && OrdersOk(s.nodes, orders)
    requires todo != [] && todo[0] in s.nodes && todo[0] !in s.failed
    requires EffectiveMode(s.nodes[todo[0]].task, id, s.nodes[id].task) == Some(FailClosed)
    requires CloseOne(s, todo[0]) == Ok(s1) && SameGraph(s.nodes, s1.nodes) && s1.queue == s.queue
    requires s1.failed == s.failed + {todo[0]} && todo[0] in s1.nodes && (NoneReopened(s) ==> NoneReopened(s1))
    requires CascadeOk(s1, orders(todo[0]), Cascade(s1, todo[0], orders(todo[0]), orders))
    requires NoneReopened(s) ==> forall b :: b in orders(todo[0]) ==> b in s.queue
    ensures CascadeOk(s, todo, Cascade(s, id, todo, orders))
    decreases s.nodes.Keys - s.failed, |todo|, 0, 0
  {
    hide Inv, SameGraph, OrdersOk, CloseOne, NoneReopened, AllDepend, EffectiveMode;
    var dep := todo[0];
    var r := Cascade(s1, dep, orders(dep), orders);
    if r.Ok? {
      var s2 := r.value;
      SameGraphTrans(s.nodes, s1.nodes, s2.nodes);
      SameGraphKeys(s.nodes, s2.nodes);
      OrdersFrame(s.nodes, s2.nodes, orders);
      AllDependTail(s, id, todo);
      AllDependFrame(s, s2, id, todo[1..]);
      assert dep in s.nodes.Keys - s.failed && dep !in s2.nodes.Keys - s2.failed;
      CascadeKeeps(s2, id, todo[1..], orders);
      CascadeOkThen(s, s2, todo, Cascade(s2, id, todo[1..], orders));
    }
  }

  /** The worker reports failure: the status is set, then fail_task is called. */
  function Break(s: DState, x: Id, orders: Id -> seq<Id>): Result<DState>
    requires x in s.nodes
  {
    var t :- Transition(s.nodes[x].task, Failed);
    Fail(s.(nodes := SetTask(s.nodes, x, t)), x, orders)
  }

  /** A task that the daemon is working on: also one that a cascade failed meanwhile, over a
      dependency it got between two attempts. The state does not tell the latter from a task whose
      end has been reported and whose dependency failed afterwards, so that runs contain failures of
      such tasks too, which nobody reports. */
  ghost predicate BeingRun(s: DState, x: Id) {
    && x in s.nodes && x !in s.queue
    && (s.nodes[x].task.status in {Running, Timeout}
        || (s.nodes[x].task.status == Failed && HasFailedDependency(s, x)))
  }

  /** What a failure leaves behind if it returns; DagFailures says when it does. */
  lemma BreakGives(s: DState, x: Id, orders: Id -> seq<Id>)
    requires Inv(s) && BeingRun(s, x) && OrdersOk(s.nodes, orders)
    ensures NoneReopened(s) ==> Break(s, x, orders).Ok?
    ensures
      match Break(s, x, orders)
      case Err(e) => e.InvalidTransition?
      case Ok(s') => Inv(s') && s'.queue == s.queue && (NoneReopened(s) ==> NoneReopened(s'))
  {
    hide InvDuring, NoDuplicates, OrdersOk, Cascade, OneChanges, OthersStay, SameGraph;
    InvFacts(s, Id(""), {}, x);
    var t := Transition(s.nodes[x].task, Failed).value;
    var s1 := s.(nodes := SetTask(s.nodes, x, t), failed := s.failed + {x});
    RetaskOne(s, s1, x, t);
    OneStepKeeps(s, s1, x, x, Id(""), {}, {});
    OrdersFrame(s.nodes, s1.nodes, orders);
    DependentsDepend(s1, x, orders);
    if NoneReopened(s) { DependentsQueued(s, x); }
    CascadeKeeps(s1, x, orders(x), orders);
  }

  // ---- writes of the daemon ----

  /** An attempt has timed out. */
  function TimeOut(s: DState, x: Id): Result<DState>
    requires x in s.nodes
  {
    var t :- Transition(s.nodes[x].task, Timeout);
    Ok(s.(nodes := SetTask(s.nodes, x, t)))
  }

  /** The next attempt begins. */
  function Restart(s: DState, x: Id): Result<DState>
    requires x in s.nodes
  {
    var t :- Restarted(s.nodes[x].task);
    Ok(s.(nodes := SetTask(s.nodes, x, t)))
  }

  lemma WriteKeeps(s: DState, s': DState, x: Id)
    requires Inv(s) && x in s.nodes && s.nodes[x].task.status in {Running, Timeout}
    requires (s.nodes[x].task.status == Running && TimeOut(s, x) == Ok(s')) ||
      (s.nodes[x].task.status == Timeout && Restart(s, x) == Ok(s'))
    ensures Inv(s') && (NoneReopened(s) ==> NoneReopened(s'))
  {
    hide InvDuring, NoDuplicates, HasFailedDependency, OneChanges, OthersStay, SameGraph;
    InvFacts(s, Id(""), {}, x);
    RetaskOne(s, s', x, s'.nodes[x].task);
    OneStepKeeps(s, s', x, x, Id(""), {}, {});
  }
}
