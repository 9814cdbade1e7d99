/** Properties of whole runs of the dependency scheduler. */
module DagTheorems {
  import opened Graphs
  import opened Tasks
  import opened TaskGraph
  import opened DagSpec
  import opened DagCascade
  import opened DagRuns
  import opened DagFailures
  import DagSort

  // ---- enqueue and add_dependencies keep the invariant ----

  ghost predicate WellFormedTask(s: DState, id: Id, task: Task) {
    && id !in s.nodes
    && (forall d :: d in task.declared ==> d in s.nodes)
    && task.status in {Pending, Ready, Blocked}
  }

  /** s' is s grown by deps, with `id` in its place. */
  ghost predicate Regrown(s: DState, s': DState, id: Id, deps: set<Id>) {
    && Grown(s.nodes, s'.nodes, id, deps)
    && OpenGrown(s, s'.nodes, id, deps)
    && s'.completed == s.completed && s'.failed == s.failed
    && NoDuplicates(s'.queue) && (forall k :: k != id ==> (k in s'.queue <==> k in s.queue))
    && Placed(s', id)
  }

  ghost predicate OpenGrown(s: DState, n: Nodes, id: Id, deps: set<Id>) {
    && id in n && OpenOf(n, id) == OpenOf(s.nodes, id) + (deps - s.completed)
    && (id in s.nodes ==>
      n[id].task.edgeModes == s.nodes[id].task.edgeModes && n[id].task.ownMode == s.nodes[id].task.ownMode)
  }

  lemma RegrownQueue(s: DState, s': DState, id: Id, deps: set<Id>)
    requires QueueAgrees(s) && Regrown(s, s', id, deps)
    ensures QueueAgrees(s')
  {
    hide NoDuplicates, DeclaredBy, OpenOf, DependentsOf;
    forall k | k in s'.nodes ensures Placed(s', k) {
      if k != id {
        Facts(s, k);
        if s.nodes[k].task.status == Failed && k in s.queue {
          var p :| p in s.nodes[k].open && p in s.failed;
          assert p in s'.nodes[k].open && p in s'.failed;
        }
      }
    }
  }

  lemma RegrownOpen(s: DState, s': DState, id: Id, deps: set<Id>)
    requires OpenAgrees(s, Id(""), {}) && Regrown(s, s', id, deps)
    ensures OpenAgrees(s', Id(""), {})
  {
    hide NoDuplicates, OpenOk, SameModes, DeclaredBy, DependentsOf, Placed;
    GrownModes(s.nodes, s'.nodes, id, deps);
    RegrownSelf(s, s', id, deps);
    forall k | k in s'.nodes ensures OpenOk(s', k) {
      if k != id { OpenOkFrame(s, s', k); }
    }
  }

  lemma RegrownSelf(s: DState, s': DState, id: Id, deps: set<Id>)
    requires (id in s.nodes ==> OpenOk(s, id)) && Regrown(s, s', id, deps) && SameModes(s.nodes, s'.nodes)
    ensures OpenOk(s', id)
  {
    hide NoDuplicates, SameModes, Placed;
    forall d ensures d in s'.nodes[id].task.declared <==> d in DeclaredBy(s.nodes, id) || d in deps {
      assert d in DeclaredBy(s'.nodes, id) <==> d in s'.nodes[id].task.declared;
    }
    forall d | d in s'.nodes[id].task.declared && d !in s'.nodes[id].open
      ensures Discharged(s'.nodes, s'.completed, s'.failed, id, d)
    {
      if d !in deps {
        DischargedFrame(s.nodes, s.completed, s.failed, s'.nodes, s'.completed, s'.failed, id, d);
      }
    }
  }

  lemma RegrownKeeps(s: DState, s': DState, id: Id, deps: set<Id>)
    requires Inv(s) && Regrown(s, s', id, deps)
    requires forall d :: d in deps ==> !Reaches(DependentsGraph(s.nodes), id, d)
    ensures Inv(s')
  {
    hide QueueAgrees, OpenAgrees, EdgesAgree, Reaches, Grown, OpenGrown, NoDuplicates;
    RegrownQueue(s, s', id, deps);
    RegrownOpen(s, s', id, deps);
    GrownEdges(s.nodes, s'.nodes, id, deps);
  }

  lemma EnqueueKeeps(s: DState, id: Id, task: Task)
    requires Inv(s) && WellFormedTask(s, id, task)
    ensures Enqueue(s, id, task).Ok? && Inv(Enqueue(s, id, task).value)
  {
    hide QueueAgrees, OpenAgrees, EdgesAgree, Reaches;
    var deps := Elements(task.declared);
    forall d | d in deps ensures !Reaches(DependentsGraph(s.nodes), id, d) {
      NewReachesNothing(DependentsGraph(s.nodes), id, d);
    }
    EnqueueRegrows(s, id, task);
    RegrownKeeps(s, Enqueue(s, id, task).value, id, deps);
  }

  lemma EnqueueShape(s: DState, id: Id, task: Task, n: Nodes)
    requires n == EnqueueNodes(s.nodes, s.completed, id, task) && id in n && n[id].task == task
    requires task.status in {Pending, Ready, Blocked}
    ensures Enqueue(s, id, task).Ok?
    ensures
      var s' := Enqueue(s, id, task).value;
      && id in s'.nodes && s'.nodes == SetTask(n, id, s'.nodes[id].task)
      && s' == s.(nodes := s'.nodes, queue := s.queue + [id], waiting := s'.waiting)
      && s'.nodes[id].open == n[id].open && s'.nodes[id].dependents == n[id].dependents
      && s'.nodes[id].task == task.(status := s'.nodes[id].task.status, blockReason := task.tcbReason)
      && s'.nodes[id].task.status == if n[id].open == {} then Ready else Pending
  {
    hide EnqueueNodes;
  }

  lemma NewIsPlaced(s: DState, s': DState, id: Id)
    requires QueueAgrees(s) && id !in s.nodes && id in s'.nodes && id in s'.queue
    requires s'.completed == s.completed && s'.failed == s.failed
    requires s'.nodes[id].task.status == if s'.nodes[id].open == {} then Ready else Pending
    ensures Placed(s', id) && NoDuplicates(s.queue) && id !in s.queue
  {
    hide NoDuplicates, HasFailedDependency;
  }

  lemma EnqueueRegrows(s: DState, id: Id, task: Task)
    requires QueueAgrees(s) && WellFormedTask(s, id, task)
    ensures Enqueue(s, id, task).Ok? && Regrown(s, Enqueue(s, id, task).value, id, Elements(task.declared))
    ensures id in Enqueue(s, id, task).value.queue
  {
    hide QueueAgrees, Placed, Grown, EnqueueNodes, Enqueue, NoDuplicates;
    EnqueueGrows(s.nodes, s.completed, id, task);
    var n := EnqueueNodes(s.nodes, s.completed, id, task);
    EnqueueShape(s, id, task, n);
    var s' := Enqueue(s, id, task).value;
    GrownRetask(s.nodes, n, id, Elements(task.declared), s'.nodes[id].task);
    NewIsPlaced(s, s', id);
    AppendDistinct(s.queue, id);
  }

  /** What an accepted call of add_dependencies leaves behind. It never raises half way. A task that
      has been handed out can only be given dependencies between two attempts. */
  lemma AddDependenciesKeeps(s: DState, id: Id, deps: seq<Id>)
    requires Inv(s)
    ensures
      match AddDependencies(s, id, deps)
      case Ok(s') =>
        Inv(s') && (NoneReopened(s) && id in s.nodes && s.nodes[id].task.status != Timeout ==> NoneReopened(s'))
      case Err(x) => !x.InvalidTransition?
  {
    hide QueueAgrees, OpenAgrees, EdgesAgree, Reaches, AddAll, FirstBad, Repend, HasFailedDependency, Regrown;
    if id in s.nodes && s.nodes[id].task.status !in {Running, Success, Failed, Cancelled} && id !in deps {
      if FirstBad(s.nodes, id, Unique(deps)).Some? {
        BadIsNoTransition(s.nodes, id, Unique(deps));
      } else {
        Facts(s, id);
        OpenIsLinked(s, id);
        AddAllGrows(s.nodes, s.completed, id, Unique(deps));
        var n := AddAll(s.nodes, s.completed, id, Unique(deps));
        RependRegrows(s, n, id, Elements(Unique(deps)));
        var s' := Repend(s.(nodes := n), id).value;
        RegrownKeeps(s, s', id, Elements(Unique(deps)));
        if NoneReopened(s) && s.nodes[id].task.status != Timeout {
          RegrownReopensNone(s, s', id, Elements(Unique(deps)));
        }
      }
    }
  }

  lemma RependRegrows(s: DState, n: Nodes, id: Id, deps: set<Id>)
    requires id in s.nodes && NoDuplicates(s.queue) && Placed(s, id)
    requires s.nodes[id].task.status !in {Running, Success, Failed, Cancelled}
    requires Grown(s.nodes, n, id, deps) && GrownOpen(s.nodes, n, id, deps, s.completed)
    ensures Repend(s.(nodes := n), id).Ok?
    ensures Regrown(s, Repend(s.(nodes := n), id).value, id, deps)
    ensures Repend(s.(nodes := n), id).value.queue == s.queue
  {
    hide NoDuplicates, Grown, HasFailedDependency;
    var t := n[id].task.(status := Pending, blockReason := n[id].task.tcbReason);
    GrownRetask(s.nodes, n, id, deps, t);
  }

  lemma RegrownReopensNone(s: DState, s': DState, id: Id, deps: set<Id>)
    requires NoneReopened(s) && Regrown(s, s', id, deps) && id in s'.queue
    ensures NoneReopened(s')
  {
    hide NoDuplicates, DeclaredBy, OpenOf, DependentsOf, Placed;
  }

  lemma OpenIsLinked(s: DState, id: Id)
    requires Inv(s) && id in s.nodes
    ensures forall d :: d in s.nodes[id].open ==>
      d in s.nodes[id].task.declared && d in s.nodes && id in s.nodes[d].dependents && d !in s.completed
  {
    hide QueueAgrees, Acyclic;
    assert OpenOk(s, id);
    forall d | d in s.nodes[id].open ensures d in s.nodes && id in s.nodes[d].dependents {
      assert Depends(s.nodes, id, d);
    }
  }

  // ---- runs ----

  datatype Op =
    | EnqueueOp(id: Id, task: Task)
    | AddDependenciesOp(id: Id, deps: seq<Id>)
    | DequeueOp
    | SucceedOp(id: Id, order: seq<Id>)
    | BreakOp(id: Id, orders: Id -> seq<Id>)
    | TimeOutOp(id: Id)
    | RestartOp(id: Id)

  /** Fresh tasks whose dependencies are known, ends of tasks the daemon works on, and its writes
      between attempts. A task in TIMEOUT, or failed meanwhile, only fails: the daemon's own
      transition to SUCCESS is forbidden then. */
  ghost predicate MayHappen(s: DState, op: Op) {
    match op
    case EnqueueOp(id, task) => WellFormedTask(s, id, task)
    case AddDependenciesOp(_, _) => true
    case DequeueOp => true
    case SucceedOp(id, order) =>
      id in s.nodes && s.nodes[id].task.status == Running && Enumerates(order, s.nodes[id].dependents)
    case BreakOp(id, orders) => BeingRun(s, id) && OrdersOk(s.nodes, orders)
    case TimeOutOp(id) => id in s.nodes && s.nodes[id].task.status == Running
    case RestartOp(id) => id in s.nodes && s.nodes[id].task.status == Timeout
  }

  ghost function Outcome(s: DState, op: Op): Result<DState>
    requires MayHappen(s, op)
  {
    match op
    case EnqueueOp(id, task) => Enqueue(s, id, task)
    case AddDependenciesOp(id, deps) => AddDependencies(s, id, deps)
    case DequeueOp => (match Dequeue(s) case Ok(r) => Ok(r.0) case Err(x) => Err(x))
    case SucceedOp(id, order) => Succeed(s, id, order)
    case BreakOp(id, orders) => Break(s, id, orders)
    case TimeOutOp(id) => TimeOut(s, id)
    case RestartOp(id) => Restart(s, id)
  }

  ghost predicate Forbidden(r: Result<DState>) {
    r.Err? && r.error.InvalidTransition?
  }

  /** A rejected call leaves the state alone; a forbidden transition ends the run. */
  ghost predicate Step(s: DState, op: Op, s': DState) {
    && MayHappen(s, op)
    && match Outcome(s, op)
       case Ok(r) => s' == r
       case Err(x) => !x.InvalidTransition? && s' == s
  }

  ghost predicate Run(states: seq<DState>, ops: seq<Op>) {
    && |states| == |ops| + 1
    && states[0] == Initial()
    && forall i :: 0 <= i < |ops| ==> Step(states[i], ops[i], states[i + 1])
  }

  lemma InitialInv()
    ensures Inv(Initial())
  {
    var g := DependentsGraph(map[]);
    forall p ensures !(IsPath(g, p) && |p| >= 2) {
      if |p| >= 2 { assert !Edge(g, p[0], p[1]); }
    }
  }

  /** What one operation does, and when it asks for a forbidden transition. */
  lemma StepKeeps(s: DState, op: Op)
    requires Inv(s) && MayHappen(s, op)
    ensures Outcome(s, op).Ok? ==> Inv(Outcome(s, op).value)
    ensures op.SucceedOp? ==>
      (Forbidden(Outcome(s, op)) <==> exists b :: b in s.nodes[op.id].dependents && Wakes(s.nodes, op.id, b))
    ensures op.BreakOp? ==> (Forbidden(Outcome(s, op)) <==> FailureRaises(s, op.id))
    ensures op.BreakOp? && NoneReopened(s) ==> !Forbidden(Outcome(s, op))
    ensures !op.SucceedOp? && !op.BreakOp? ==> !Forbidden(Outcome(s, op))
  {
    hide Inv, Enqueue, AddDependencies, Dequeue, Succeed, Break, WellFormedTask, OrdersOk, BeingRun, NoneReopened,
      TimeOut, Restart, Wakes, FailureRaises;
    match op
    case EnqueueOp(id, task) => EnqueueKeeps(s, id, task);
    case AddDependenciesOp(id, deps) => AddDependenciesKeeps(s, id, deps);
    case DequeueOp => DequeueKeeps(s);
    case SucceedOp(id, order) => SucceedKeeps(s, id, order);
    case BreakOp(id, orders) => BreakKeeps(s, id, orders);
    case TimeOutOp(id) => TimeOutReturns(s, id); WriteKeeps(s, TimeOut(s, id).value, id);
    case RestartOp(id) => RestartReturns(s, id); WriteKeeps(s, Restart(s, id).value, id);
  }

  lemma TimeOutReturns(s: DState, id: Id)
    requires id in s.nodes && s.nodes[id].task.status == Running
    ensures TimeOut(s, id).Ok?
  {
  }

  lemma RestartReturns(s: DState, id: Id)
    requires id in s.nodes && s.nodes[id].task.status == Timeout
    ensures Restart(s, id).Ok?
  {
  }

  /** Every reachable state satisfies the invariant. */
  lemma {:induction false} RunKeeps(states: seq<DState>, ops: seq<Op>, k: nat)
    requires Run(states, ops) && k < |states|
    ensures Inv(states[k])
  {
    hide Inv, MayHappen, Outcome, Initial, NoneReopened, Wakes;
    if k == 0 {
      InitialInv();
    } else {
      RunKeeps(states, ops, k - 1);
      assert Step(states[k - 1], ops[k - 1], states[k - 1 + 1]);
      StepKeeps(states[k - 1], ops[k - 1]);
    }
  }

  // ---- forbidden transitions ----

  /** The exact condition at any point of any run: completing a task asks for a forbidden transition
      exactly if the task is the last dependency of one that was handed out before and has not
      failed. Failing a task asks for one exactly if it would fail one that has succeeded, or take
      off everything that one waits for that was handed out and does not fail with it. Nothing else
      ever does. */
  lemma ForbiddenTransitionIff(states: seq<DState>, ops: seq<Op>, op: Op)
    requires Run(states, ops) && MayHappen(states[|ops|], op)
    ensures
      var s := states[|ops|];
      var forbidden := Forbidden(Outcome(s, op));
      && (op.SucceedOp? ==>
            (forbidden <==> exists b :: b in s.nodes[op.id].dependents && Wakes(s.nodes, op.id, b)))
      && (op.BreakOp? ==> (forbidden <==> FailureRaises(s, op.id)))
      && (!op.SucceedOp? && !op.BreakOp? ==> !forbidden)
  {
    hide Inv, MayHappen, Outcome, NoneReopened, Wakes, Step, Forbidden, FailureRaises;
    RunKeeps(states, ops, |ops|);
    StepKeeps(states[|ops|], op);
  }

  /** The operation is no add_dependencies on a task between two attempts. */
  ghost predicate NotBetweenAttempts(s: DState, op: Op) {
    op.AddDependenciesOp? && op.id in s.nodes ==> s.nodes[op.id].task.status != Timeout
  }

  lemma StepReopensNone(s: DState, op: Op, s': DState)
    requires Inv(s) && NoneReopened(s) && Step(s, op, s') && NotBetweenAttempts(s, op)
    ensures NoneReopened(s')
  {
    hide Inv, NoneReopened, Enqueue, AddDependencies, Dequeue, Succeed, Break, WellFormedTask, OrdersOk, BeingRun,
      TimeOut, Restart, Enumerates;
    match op
    case EnqueueOp(id, task) => if Outcome(s, op).Ok? { EnqueueReopensNone(s, id, task); }
    case AddDependenciesOp(id, deps) =>
      AddDependenciesKeeps(s, id, deps);
      if AddDependencies(s, id, deps).Ok? { AcceptedIsKnown(s, id, deps); }
    case DequeueOp => DequeueKeeps(s); DequeueReopensNone(s);
    case SucceedOp(id, order) => if Outcome(s, op).Ok? { SucceedReopensNone(s, id, order); }
    case BreakOp(id, orders) => BreakKeeps(s, id, orders);
    case TimeOutOp(id) => TimeOutReturns(s, id); WriteKeeps(s, s', id);
    case RestartOp(id) => RestartReturns(s, id); WriteKeeps(s, s', id);
  }

  lemma AcceptedIsKnown(s: DState, id: Id, deps: seq<Id>)
    requires AddDependencies(s, id, deps).Ok?
    ensures id in s.nodes
  {
    hide FirstBad, AddAll, Repend;
  }

  lemma EnqueueReopensNone(s: DState, id: Id, task: Task)
    requires Inv(s) && NoneReopened(s) && WellFormedTask(s, id, task)
    ensures Enqueue(s, id, task).Ok? && NoneReopened(Enqueue(s, id, task).value)
  {
    hide OpenAgrees, EdgesAgree, Regrown, EnqueueNodes, NoDuplicates, Placed, NoneReopened;
    EnqueueRegrows(s, id, task);
    assert id in Enqueue(s, id, task).value.queue;
    RegrownReopensNone(s, Enqueue(s, id, task).value, id, Elements(task.declared));
  }

  lemma DequeueReopensNone(s: DState)
    requires NoneReopened(s) && Dequeue(s).Ok?
    ensures NoneReopened(Dequeue(s).value.0)
  {
    hide RemoveFirst;
    if FirstReady(s, s.queue).Some? {
      var id := FirstReady(s, s.queue).value;
      forall k | k != id ensures k in RemoveFirst(s.queue, id) <==> k in s.queue {
        OthersSurvive(s.queue, id, k);
      }
    }
  }

  lemma {:induction false} ReleaseReopensNone(s: DState, x: Id, order: seq<Id>)
    requires NoneReopened(s) && ReleaseAll(s, x, order).Ok?
    ensures NoneReopened(ReleaseAll(s, x, order).value)
    decreases |order|
  {
    hide NoneReopened, ReleaseOne;
    if order == [] {
    } else {
      ReleaseOneReopensNone(s, x, order[0]);
      ReleaseReopensNone(ReleaseOne(s, x, order[0]).value, x, order[1..]);
    }
  }

  lemma ReleaseOneReopensNone(s: DState, x: Id, dep: Id)
    requires NoneReopened(s) && ReleaseOne(s, x, dep).Ok?
    ensures NoneReopened(ReleaseOne(s, x, dep).value)
  {
    hide RemoveFirst;
  }

  lemma SucceedReopensNone(s: DState, x: Id, order: seq<Id>)
    requires NoneReopened(s) && x in s.nodes && Succeed(s, x, order).Ok?
    ensures NoneReopened(Succeed(s, x, order).value)
  {
    hide ReleaseAll;
    var t := Transition(s.nodes[x].task, Success).value;
    var s1 := s.(nodes := SetTask(s.nodes, x, t), completed := s.completed + {x});
    assert NoneReopened(s1);
    ReleaseReopensNone(s1, x, order);
  }

  lemma {:induction false} NoneReopenedInRuns(states: seq<DState>, ops: seq<Op>, k: nat)
    requires Run(states, ops) && k < |states|
    requires forall i :: 0 <= i < k && i < |ops| ==> NotBetweenAttempts(states[i], ops[i])
    ensures NoneReopened(states[k])
  {
    hide Inv, Step;
    if k == 0 {
    } else {
      NoneReopenedInRuns(states, ops, k - 1);
      RunKeeps(states, ops, k - 1);
      assert Step(states[k - 1], ops[k - 1], states[k - 1 + 1]);
      StepReopensNone(states[k - 1], ops[k - 1], states[k]);
    }
  }

  /** What completing x does to the status of each task. */
  lemma {:induction false} ReleaseStatus(s: DState, x: Id, order: seq<Id>, b: Id)
    requires NoDuplicates(order) && b in s.nodes && ReleaseAll(s, x, order).Ok?
    ensures
      var s' := ReleaseAll(s, x, order).value;
      b in s'.nodes && s'.nodes[b].task.status ==
        if b in order && s.nodes[b].open == {x} then Ready else s.nodes[b].task.status
    decreases |order|
  {
    hide RemoveFirst;
    if order == [] {
    } else {
      HeadTail(order);
      assert order == [order[0]] + order[1..];
      ReleaseStatus(ReleaseOne(s, x, order[0]).value, x, order[1..], b);
    }
  }

  /** A failed task becomes READY again exactly if the last task it waits for completes. It is then
      outside the queue. */
  lemma FailedRevivesIff(states: seq<DState>, ops: seq<Op>, j: nat, b: Id)
    requires Run(states, ops) && j < |ops| && ops[j].SucceedOp?
    requires b in states[j].nodes && states[j].nodes[b].task.status == Failed
    ensures b in states[j + 1].nodes
    ensures states[j + 1].nodes[b].task.status == Ready <==> states[j].nodes[b].open == {ops[j].id}
    ensures states[j].nodes[b].open == {ops[j].id} ==> b !in states[j].queue
  {
    hide Inv, ReleaseAll, NoDuplicates;
    var s, id, order := states[j], ops[j].id, ops[j].order;
    RunKeeps(states, ops, j);
    assert Step(states[j], ops[j], states[j + 1]);
    SucceedKeeps(s, id, order);
    RunningIsNotFailed(s, id, b);
    if s.nodes[b].open == {id} {
      OpenIsLinked(s, b);
      assert b in Elements(order);
    }
    var t := Transition(s.nodes[id].task, Success).value;
    ReleaseStatus(s.(nodes := SetTask(s.nodes, id, t), completed := s.completed + {id}), id, order, b);
  }

  /** No other operation of a run turns a FAILED task into anything else. */
  lemma FailedStaysFailed(states: seq<DState>, ops: seq<Op>, j: nat, b: Id)
    requires Run(states, ops) && j < |ops| && !ops[j].SucceedOp?
    requires b in states[j].nodes && states[j].nodes[b].task.status == Failed
    ensures b in states[j + 1].nodes && states[j + 1].nodes[b].task.status == Failed
  {
    hide Inv, Enqueue, AddDependencies, Dequeue, Break, WellFormedTask, OrdersOk, BeingRun, TimeOut, Restart;
    var s, op := states[j], ops[j];
    RunKeeps(states, ops, j);
    assert Step(states[j], ops[j], states[j + 1]);
    match op
    case EnqueueOp(id, task) => if Outcome(s, op).Ok? { EnqueueKeepsFailed(s, id, task, b); }
    case AddDependenciesOp(id, deps) => if Outcome(s, op).Ok? { AddDependenciesKeepsFailed(s, id, deps, b); }
    case DequeueOp => DequeueKeeps(s); DequeueKeepsOthers(s, b);
    case SucceedOp(id, order) =>
    case BreakOp(id, orders) => BreakKeeps(s, id, orders); BreakKeepsFailed(s, id, orders, b);
    case TimeOutOp(id) => WriteKeepsOthers(s, states[j + 1], id, b);
    case RestartOp(id) => WriteKeepsOthers(s, states[j + 1], id, b);
  }

  lemma EnqueueKeepsFailed(s: DState, id: Id, task: Task, b: Id)
    requires b in s.nodes && s.nodes[b].task.status == Failed && WellFormedTask(s, id, task) && Enqueue(s, id, task).Ok?
    ensures b in Enqueue(s, id, task).value.nodes && Enqueue(s, id, task).value.nodes[b].task.status == Failed
  {
    hide EnqueueNodes;
    EnqueueGrows(s.nodes, s.completed, id, task);
  }

  lemma AddDependenciesKeepsFailed(s: DState, id: Id, deps: seq<Id>, b: Id)
    requires b in s.nodes && s.nodes[b].task.status == Failed && AddDependencies(s, id, deps).Ok?
    ensures b in AddDependencies(s, id, deps).value.nodes
    ensures AddDependencies(s, id, deps).value.nodes[b].task.status == Failed
  {
    hide AddAll, FirstBad;
    AddAllOthers(s.nodes, s.completed, id, Unique(deps), b);
  }

  lemma {:induction false} AddAllOthers(n: Nodes, completed: set<Id>, id: Id, deps: seq<Id>, b: Id)
    requires id in n && b in n && b != id && forall d :: d in deps ==> d in n
    ensures AddAll(n, completed, id, deps)[b].task == n[b].task
  {
    if deps == [] {
    } else {
      AddAllOthers(n, completed, id, deps[..|deps| - 1], b);
    }
  }

  lemma DequeueKeepsOthers(s: DState, b: Id)
    requires Dequeue(s).Ok? && b in s.nodes && s.nodes[b].task.status == Failed
    requires Dequeue(s).value.1.Some? ==>
      Dequeue(s).value.1.value in s.nodes && s.nodes[Dequeue(s).value.1.value].task.status == Ready
    ensures b in Dequeue(s).value.0.nodes && Dequeue(s).value.0.nodes[b].task.status == Failed
  {
    hide RemoveFirst, FirstReady;
  }

  lemma WriteKeepsOthers(s: DState, s': DState, id: Id, b: Id)
    requires id in s.nodes && b in s.nodes && s.nodes[b].task.status == Failed
    requires s.nodes[id].task.status in {Running, Timeout}
    requires s' == s || TimeOut(s, id) == Ok(s') || Restart(s, id) == Ok(s')
    ensures b in s'.nodes && s'.nodes[b].task.status == Failed
  {
  }

  /** A cascade leaves tasks alone that have failed. */
  lemma {:induction false} CascadeKeepsFailed(s: DState, id: Id, todo: seq<Id>, orders: Id -> seq<Id>, b: Id)
    requires id in s.nodes && b in s.failed && b in s.nodes && Cascade(s, id, todo, orders).Ok?
    ensures Cascade(s, id, todo, orders).value.nodes[b] == s.nodes[b]
    decreases s.nodes.Keys - s.failed, |todo|
  {
    hide EffectiveMode;
    if todo == [] {
    } else {
      var dep := todo[0];
      if dep !in s.nodes || dep in s.failed {
        CascadeKeepsFailed(s, id, todo[1..], orders, b);
      } else {
        var mode := EffectiveMode(s.nodes[dep].task, id, s.nodes[id].task);
        if mode == Some(FailClosed) {
          var s1 := CloseOne(s, dep).value;
          assert dep in s.nodes.Keys - s.failed && dep !in s1.nodes.Keys - s1.failed;
          CascadeKeepsFailed(s1, dep, orders(dep), orders, b);
          var s2 := Cascade(s1, dep, orders(dep), orders).value;
          assert dep !in s2.nodes.Keys - s2.failed;
          CascadeKeepsFailed(s2, id, todo[1..], orders, b);
        } else if Waives(mode) {
          var s1 := WaiveOne(s, id, dep).value;
          assert s1.nodes.Keys - s1.failed == s.nodes.Keys - s.failed;
          CascadeKeepsFailed(s1, id, todo[1..], orders, b);
        } else {
          CascadeKeepsFailed(s, id, todo[1..], orders, b);
        }
      }
    }
  }

  lemma BreakKeepsFailed(s: DState, x: Id, orders: Id -> seq<Id>, b: Id)
    requires Inv(s) && BeingRun(s, x) && OrdersOk(s.nodes, orders) && b in s.nodes && s.nodes[b].task.status == Failed
    requires Break(s, x, orders).Ok?
    ensures b in Break(s, x, orders).value.nodes && Break(s, x, orders).value.nodes[b].task.status == Failed
  {
    hide Inv, Cascade, OrdersOk, Break;
    BeingRunFacts(s, x);
    BreakIsCascade(s, x, orders);
    FailedIsMarked(s, b);
    CascadeKeepsFailed(Broken(s, x), x, orders(x), orders, b);
  }

  lemma FailedIsMarked(s: DState, b: Id)
    requires Inv(s) && b in s.nodes && s.nodes[b].task.status == Failed
    ensures b in s.failed
  {
    hide OpenAgrees, EdgesAgree, NoDuplicates, HasFailedDependency;
    Facts(s, b);
  }

  lemma RunningIsNotFailed(s: DState, id: Id, b: Id)
    requires Inv(s) && id in s.nodes && s.nodes[id].task.status == Running
    requires b in s.nodes && s.nodes[b].task.status == Failed
    ensures b != id && (s.nodes[b].open == {id} ==> b !in s.queue)
  {
    hide OpenAgrees, EdgesAgree, NoDuplicates;
    Facts(s, id);
    Facts(s, b);
  }

  /** As long as nobody calls add_dependencies on a task in TIMEOUT, nothing asks for a forbidden
      transition, however far a cascade goes. */
  lemma NoForbiddenTransition(states: seq<DState>, ops: seq<Op>, op: Op)
    requires Run(states, ops) && MayHappen(states[|ops|], op)
    requires forall i :: 0 <= i < |ops| ==> NotBetweenAttempts(states[i], ops[i])
    ensures !Forbidden(Outcome(states[|ops|], op))
  {
    hide Inv, MayHappen, Outcome, Step, Forbidden;
    RunKeeps(states, ops, |ops|);
    NoneReopenedInRuns(states, ops, |ops|);
    StepKeeps(states[|ops|], op);
    if op.SucceedOp? { QueuedAreNotWoken(states[|ops|], op); }
  }

  lemma QueuedAreNotWoken(s: DState, op: Op)
    requires Inv(s) && NoneReopened(s) && op.SucceedOp? && MayHappen(s, op)
    ensures forall b :: b in s.nodes[op.id].dependents ==> !Wakes(s.nodes, op.id, b)
  {
    hide OpenAgrees, EdgesAgree, NoDuplicates, HasFailedDependency;
    forall b | b in s.nodes[op.id].dependents ensures !Wakes(s.nodes, op.id, b) {
      if b in s.nodes { Facts(s, b); }
    }
  }

  // ---- failed tasks stay failed and are never handed out ----

  lemma {:induction false} ReleaseKeepsFailed(s: DState, id: Id, order: seq<Id>)
    requires ReleaseAll(s, id, order).Ok?
    ensures ReleaseAll(s, id, order).value.failed == s.failed
    decreases |order|
  {
    if order == [] {
    } else {
      ReleaseKeepsFailed(ReleaseOne(s, id, order[0]).value, id, order[1..]);
    }
  }

  lemma FailedGrows(s: DState, op: Op, s': DState)
    requires Step(s, op, s')
    ensures s.failed <= s'.failed
  {
    hide FirstBad, AddAll, RemoveFirst, FirstReady, EnqueueNodes;
    match op
    case EnqueueOp(id, task) =>
    case AddDependenciesOp(id, deps) =>
    case DequeueOp =>
    case SucceedOp(id, order) =>
      if Outcome(s, op).Ok? {
        var t := Transition(s.nodes[id].task, Success).value;
        ReleaseKeepsFailed(s.(nodes := SetTask(s.nodes, id, t), completed := s.completed + {id}), id, order);
      }
    case BreakOp(id, orders) =>
    case TimeOutOp(id) =>
    case RestartOp(id) =>
  }

  lemma {:induction false} FailedPersists(states: seq<DState>, ops: seq<Op>, i: nat, j: nat)
    requires Run(states, ops) && i <= j < |states|
    ensures states[i].failed <= states[j].failed
    decreases j
  {
    hide Step;
    if i == j {
    } else {
      FailedPersists(states, ops, i, j - 1);
      assert Step(states[j - 1], ops[j - 1], states[j - 1 + 1]);
      FailedGrows(states[j - 1], ops[j - 1], states[j]);
    }
  }

  /** No task that has failed, by its own run or by a cascade, is returned by any later dequeue. */
  lemma FailedNeverDequeued(states: seq<DState>, ops: seq<Op>, i: nat, j: nat)
    requires Run(states, ops) && i <= j < |ops| && ops[j].DequeueOp?
    ensures Dequeue(states[j]).Ok?
    ensures Dequeue(states[j]).value.1.Some? ==> Dequeue(states[j]).value.1.value !in states[i].failed
  {
    hide Inv, Step, Dequeue;
    RunKeeps(states, ops, j);
    FailedPersists(states, ops, i, j);
    DequeueKeeps(states[j]);
  }

  /** Every dequeued task has each dependency completed, or failed over an edge that waives it. */
  lemma DequeueSafety(states: seq<DState>, ops: seq<Op>, j: nat, d: Id)
    requires Run(states, ops) && j < |ops| && Dequeue(states[j]).Ok? && Dequeue(states[j]).value.1.Some?
    requires Depends(states[j].nodes, Dequeue(states[j]).value.1.value, d)
    ensures Discharged(states[j].nodes, states[j].completed, states[j].failed, Dequeue(states[j]).value.1.value, d)
  {
    hide Inv, Step, Dequeue, Discharged;
    RunKeeps(states, ops, j);
    DequeueKeeps(states[j]);
  }

  /** The cascade at any point of any run: fail_task on a running task returns, and fails exactly
      the closure. */
  lemma CascadeInRuns(states: seq<DState>, ops: seq<Op>, j: nat)
    requires Run(states, ops) && j < |ops| && ops[j].BreakOp?
    ensures forall x :: x in states[j + 1].failed <==>
      x in states[j].failed || Reaches(FailGraph(states[j].nodes, states[j].failed), ops[j].id, x)
  {
    hide Inv, Reaches, FailGraph, Fail;
    var s, id, orders := states[j], ops[j].id, ops[j].orders;
    RunKeeps(states, ops, j);
    assert Step(states[j], ops[j], states[j + 1]);
    BreakKeeps(s, id, orders);
    var t := Transition(s.nodes[id].task, Failed).value;
    var s1 := s.(nodes := SetTask(s.nodes, id, t));
    assert SameGraph(s.nodes, s1.nodes);
    OrdersFrame(s.nodes, s1.nodes, orders);
    FailIsExactClosure(s1, id, orders);
    FailGraphFrame(s.nodes, s1.nodes, s.failed);
  }

  // ---- no deadlock ----

  ghost predicate BehindFailure(s: DState, b: Id) {
    Behind(DependentsGraph(s.nodes), s.failed, b)
  }

  /** Dequeue finds nothing and nothing runs. */
  ghost predicate Idle(s: DState) {
    && FirstReady(s, s.queue) == None
    && forall id :: id in s.nodes ==> s.nodes[id].task.status !in {Running, Timeout}
  }

  /** What an unfinished task waits for when the scheduler is idle. */
  lemma OpenWaitsOrFailed(s: DState, b: Id) returns (d: Id)
    requires Inv(s) && Idle(s) && b in s.nodes && b !in s.completed && b !in s.failed
    ensures d in s.nodes && Edge(DependentsGraph(s.nodes), d, b) && d !in s.completed
  {
    hide NoDuplicates, EdgesAgree, OpenAgrees, HasFailedDependency;
    Facts(s, b);
    OpenIsLinked(s, b);
    d :| d in s.nodes[b].open;
  }

  lemma IdleWaitsBehindFailure(s: DState)
    requires Inv(s) && Idle(s)
    ensures forall b :: b in s.nodes && b !in s.completed && b !in s.failed ==> BehindFailure(s, b)
  {
    hide QueueAgrees, OpenAgrees, EdgesAgree, Idle, Behind;
    var n := set b | b in s.nodes && b !in s.completed && b !in s.failed && !BehindFailure(s, b);
    if n != {} {
      var g := DependentsGraph(s.nodes);
      forall b | b in n ensures HasPredecessorIn(g, n, b) {
        var d := OpenWaitsOrFailed(s, b);
        if d in s.failed || BehindFailure(s, d) { BehindGrows(g, s.failed, d, b); }
      }
      NoSourceMeansCycle(g, n);
      GraphIsAcyclic(s);
      assert false;
    }
    forall b | b in s.nodes && b !in s.completed && b !in s.failed ensures BehindFailure(s, b) {
      assert b !in n;
    }
  }

  /** If dequeue finds nothing and nothing runs, every unfinished task depends, over any number of
      steps, on a failed one. */
  lemma WaitingIsBehindFailure(states: seq<DState>, ops: seq<Op>, k: nat)
    requires Run(states, ops) && k < |states| && Idle(states[k])
    ensures forall b :: b in states[k].nodes && b !in states[k].completed && b !in states[k].failed ==>
      BehindFailure(states[k], b)
  {
    hide Inv, Step, Idle, BehindFailure;
    RunKeeps(states, ops, k);
    IdleWaitsBehindFailure(states[k]);
  }

  /** If moreover nothing has failed, every task has completed. */
  lemma DeadlockFreedom(states: seq<DState>, ops: seq<Op>, k: nat)
    requires Run(states, ops) && k < |states| && Idle(states[k]) && states[k].failed == {}
    ensures forall id :: id in states[k].nodes ==> id in states[k].completed
  {
    hide Run, Idle, Reaches;
    WaitingIsBehindFailure(states, ops, k);
  }

  lemma GraphIsAcyclic(s: DState)
    requires Inv(s)
    ensures Acyclic(DependentsGraph(s.nodes))
  {
    hide QueueAgrees, OpenAgrees;
  }

  // ---- online acyclicity ----

  /** At any point of any run: an accepted call leaves the graph acyclic, and a rejection for a
      cycle names a dependency that would have closed one. */
  lemma OnlineAcyclicity(states: seq<DState>, ops: seq<Op>, id: Id, deps: seq<Id>)
    requires Run(states, ops)
    ensures
      match AddDependencies(states[|ops|], id, deps)
      case Ok(s') => Acyclic(DependentsGraph(s'.nodes))
      case Err(CyclicDependency(d)) =>
        d in deps && d in states[|ops|].nodes && d != id &&
        !Acyclic(DependentsGraph(Linked(states[|ops|].nodes, id, {d})))
      case Err(_) => true
  {
    hide Inv, Step, Acyclic, Reaches, FirstBad, AddAll;
    var s := states[|ops|];
    RunKeeps(states, ops, |ops|);
    AddDependenciesKeeps(s, id, deps);
    GraphIsAcyclic(s);
    if AddDependencies(s, id, deps).Ok? {
      GraphIsAcyclic(AddDependencies(s, id, deps).value);
    } else if id in s.nodes && s.nodes[id].task.status !in {Running, Success, Failed, Cancelled} && id !in deps {
      if FirstBad(s.nodes, id, Unique(deps)).Some? {
        var d :| d in Unique(deps) && Complaint(s.nodes, id, d, FirstBad(s.nodes, id, Unique(deps)).value);
        if d in s.nodes { CycleCheckExact(s.nodes, id, d); }
      }
    }
  }

  // ---- topological_sort in runs ----

  /** In every reachable state topological_sort finds every dependent it decrements, and returns:
      its error is never raised, after completions and failures neither. */
  lemma SortAlwaysReturns(states: seq<DState>, ops: seq<Op>, k: nat, order: seq<Id>, orders: Id -> seq<Id>)
    requires Run(states, ops) && k < |states|
    requires Enumerates(order, states[k].nodes.Keys) && OrdersOk(states[k].nodes, orders)
    ensures DagSort.KnownDependents(states[k].nodes) && DagSort.OpenAreRecorded(states[k].nodes)
    ensures DagSort.Sort(states[k].nodes, order, orders).Some?
  {
    hide Run, Inv, Enumerates, OrdersOk, DagSort.Sort, DagSort.Stalls, Acyclic;
    var s := states[k];
    RunKeeps(states, ops, k);
    DependentsKnown(s);
    GraphIsAcyclic(s);
    forall x, d | x in s.nodes && d in s.nodes[x].open ensures d in s.nodes && x in s.nodes[d].dependents {
      OpenIsLinked(s, x);
    }
    DagSort.SortFacts(s.nodes, order, orders);
    if DagSort.Sort(s.nodes, order, orders).None? {
      var n :| DagSort.Stalls(s.nodes, n);
      DagSort.StallIsCycle(s.nodes, n);
    }
  }

  lemma DependentsKnown(s: DState)
    requires Inv(s)
    ensures DagSort.KnownDependents(s.nodes)
  {
    hide QueueAgrees, OpenAgrees, Acyclic;
  }

  /** Until something completes or fails, what it returns is a topological order. */
  lemma SortBeforeAnyEnd(states: seq<DState>, ops: seq<Op>, k: nat, order: seq<Id>, orders: Id -> seq<Id>)
    requires Run(states, ops) && k < |states| && states[k].completed == {} && states[k].failed == {}
    requires Enumerates(order, states[k].nodes.Keys) && OrdersOk(states[k].nodes, orders)
    ensures DagSort.KnownDependents(states[k].nodes) && DagSort.Sort(states[k].nodes, order, orders).Some?
    ensures DagSort.IsTopological(states[k].nodes, DagSort.Sort(states[k].nodes, order, orders).value)
  {
    hide Inv, Step, Enumerates, OrdersOk, DagSort.Sort, DagSort.IsTopological, DagSort.NothingStale;
    var s := states[k];
    SortAlwaysReturns(states, ops, k, order, orders);
    RunKeeps(states, ops, k);
    forall y, x | y in s.nodes && x in s.nodes[y].dependents ensures x in s.nodes && y in s.nodes[x].open {
      UnfinishedIsOpen(s, y);
    }
    DagSort.OpenIsNotStale(s.nodes);
    DagSort.SortFacts(s.nodes, order, orders);
  }
}
