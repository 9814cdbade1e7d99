/** Where tasks that become ready are put into the ready queue. */
module KernelReady {
  import opened Graphs
  import opened Tasks
  import opened TaskGraph
  import opened Additions
  import opened KernelSpec
  import opened KernelRuns
  import opened KernelOrder
  import opened KernelGrowth
  import opened KernelTheorems
  import opened KernelStranded
  import opened KernelEnds
  import opened KernelDispatch
  import opened KernelAdds

  predicate GoesFirst(s: KState, env: Env, now: real, a: Id, b: Id) {
    && a in s.nodes && b in s.nodes
    && HasTurnBefore(s.policy, s.nodes[a].task, env.score(a), s.nodes[b].task, env.score(b), now)
  }

  /** Nobody stands behind one that it goes before. */
  ghost predicate InLine(s: KState, env: Env, now: real, q: seq<Id>) {
    forall i, j :: 0 <= i < j < |q| ==> !GoesFirst(s, env, now, q[j], q[i])
  }

  /** `id` has joined the ready queue: all stand in line by the clock of its insertion, and equals stand
      as they stood, `id` behind those that were there. */
  ghost predicate Joined(s: KState, s': KState, env: Env, id: Id) {
    && (forall x :: x in s'.ready <==> x in s.ready || x == id)
    && InLine(s', env, env.clock(id), s'.ready)
    && (forall a, b :: Precedes(s.ready, a, b) && a != id && b != id && !GoesFirst(s', env, env.clock(id), b, a) ==>
          Precedes(s'.ready, a, b))
    && (forall a :: a in s.ready && a != id && !GoesFirst(s', env, env.clock(id), id, a) ==> Precedes(s'.ready, a, id))
  }

  lemma AppendJoins(s: KState, id: Id, env: Env)
    requires id in s.nodes && id !in s.ready && forall x :: x in s.ready ==> x in s.nodes
    ensures Joined(s, AppendReady(s, id, env), env, id)
  {
    hide GoesBefore, GoesFirst, StableSort, Precedes;
    var q, s' := s.ready + [id], AppendReady(s, id, env);
    SortPermutes(s, env, env.clock(id), q);
    StableSortSorts(s, env, env.clock(id), q);
    forall a, b | a in s.nodes && b in s.nodes
      ensures GoesFirst(s', env, env.clock(id), a, b) <==> GoesBefore(s, env, env.clock(id), a, b)
    {
      SortCompares(s, env, env.clock(id), a, b);
      FirstMeans(s', env, env.clock(id), a, b);
    }
    forall a, b | Precedes(s.ready, a, b) && a != id && b != id && !GoesFirst(s', env, env.clock(id), b, a)
      ensures Precedes(s'.ready, a, b)
    {
      PrecedesMore(s.ready, id, a, b);
      SortIsStable(s, env, env.clock(id), q, a, b);
    }
    forall a | a in s.ready && a != id && !GoesFirst(s', env, env.clock(id), id, a) ensures Precedes(s'.ready, a, id) {
      LastIsPreceded(s.ready, id, a);
      SortIsStable(s, env, env.clock(id), q, a, id);
    }
  }

  lemma FirstMeans(s: KState, env: Env, now: real, a: Id, b: Id)
    requires a in s.nodes && b in s.nodes
    ensures GoesFirst(s, env, now, a, b) <==>
      HasTurnBefore(s.policy, s.nodes[a].task, env.score(a), s.nodes[b].task, env.score(b), now)
  {
  }

  lemma PrecedesMore(q: seq<Id>, id: Id, a: Id, b: Id)
    requires Precedes(q, a, b)
    ensures Precedes(q + [id], a, b) && a in q && b in q
  {
    var x, y :| 0 <= x < y < |q| && q[x] == a && q[y] == b;
    assert (q + [id])[x] == a && (q + [id])[y] == b;
  }

  lemma LastIsPreceded(q: seq<Id>, id: Id, a: Id)
    requires a in q
    ensures Precedes(q + [id], a, id)
  {
    var x :| 0 <= x < |q| && q[x] == a;
    assert (q + [id])[x] == a && (q + [id])[|q|] == id;
  }

  // ---- enqueue and add_dependencies ----

  /** Placing a task with nothing open lets it join the ready queue, from which it was taken. */
  lemma PlaceJoins(s: KState, s1: KState, id: Id, deps: set<Id>, env: Env)
    requires Inv(s, PLAIN) && Lifted(s, s1, id, deps) && id in s1.nodes && s1.nodes[id].open == {}
    requires Place(s1, id, env).Ok?
    ensures Joined(s, Place(s1, id, env).value, env, id)
  {
    hide Inv, Lifted, Joined, AppendReady, RemoveFirst;
    LiftedReady(s, s1, id, deps);
    var t := Transition(s1.nodes[id].task, Ready).value;
    var s2 := s1.(nodes := SetTask(s1.nodes, id, t));
    AppendJoins(s2, id, env);
    JoinedFrame(s, s2, AppendReady(s2, id, env), env, id);
  }

  lemma LiftedReady(s: KState, s1: KState, id: Id, deps: set<Id>)
    requires Inv(s, PLAIN) && Lifted(s, s1, id, deps)
    ensures s1.ready == RemoveFirst(s.ready, id) && id !in s1.ready
    ensures (forall x :: x in s1.ready <==> x in s.ready && x != id) && (forall x :: x in s1.ready ==> x in s1.nodes)
    ensures forall a, b :: Precedes(s.ready, a, b) && a != id && b != id ==> Precedes(s1.ready, a, b)
  {
    hide EdgesAgree, OpenAgree, Grown, GrownOpen, RemoveFirst, NoDuplicates, Precedes, Placed;
    RemoveFirstDistinct(s.ready, id);
    LiftedMeans(s, s1, id, deps);
    GrownKeys(s.nodes, s1.nodes, id, deps);
    forall a, b | Precedes(s.ready, a, b) && a != id && b != id ensures Precedes(s1.ready, a, b) {
      RemoveKeepsOrder(s.ready, id, a, b);
    }
  }

  lemma GrownKeys(n: Nodes, n': Nodes, id: Id, deps: set<Id>)
    requires Grown(n, n', id, deps)
    ensures n'.Keys == n.Keys + {id}
  {
  }

  /** a stands before b: both behind the first, or a is the first. */
  lemma PrecedesSplit(q: seq<Id>, a: Id, b: Id)
    requires q != []
    ensures Precedes(q, a, b) <==> Precedes(q[1..], a, b) || (a == q[0] && b in q[1..])
  {
    if Precedes(q, a, b) {
      var x, y :| 0 <= x < y < |q| && q[x] == a && q[y] == b;
      assert q[1..][y - 1] == b;
      if x > 0 { assert q[1..][x - 1] == a; }
    }
    if Precedes(q[1..], a, b) {
      var x, y :| 0 <= x < y < |q[1..]| && q[1..][x] == a && q[1..][y] == b;
      assert q[x + 1] == a && q[y + 1] == b;
    }
    if a == q[0] && b in q[1..] {
      var y :| 0 <= y < |q[1..]| && q[1..][y] == b;
      assert q[y + 1] == b;
    }
  }

  lemma RemoveBehind(q: seq<Id>, id: Id)
    requires q != []
    ensures q[0] == id ==> RemoveFirst(q, id) == q[1..]
    ensures q[0] != id ==>
      RemoveFirst(q, id) != [] && RemoveFirst(q, id)[0] == q[0] && RemoveFirst(q, id)[1..] == RemoveFirst(q[1..], id)
  {
  }

  lemma {:induction false} RemoveKeepsOrder(q: seq<Id>, id: Id, a: Id, b: Id)
    requires Precedes(q, a, b) && a != id && b != id
    ensures Precedes(RemoveFirst(q, id), a, b)
  {
    PrecedesIsNonempty(q, a, b);
    hide Precedes, RemoveFirst;
    PrecedesSplit(q, a, b);
    RemoveBehind(q, id);
    if q[0] != id {
      PrecedesSplit(RemoveFirst(q, id), a, b);
      if Precedes(q[1..], a, b) { RemoveKeepsOrder(q[1..], id, a, b); } else { OthersSurvive(q[1..], id, b); }
    }
  }

  lemma JoinedFrame(s: KState, s1: KState, s': KState, env: Env, id: Id)
    requires Joined(s1, s', env, id)
    requires forall x :: x in s1.ready <==> x in s.ready && x != id
    requires forall a, b :: Precedes(s.ready, a, b) && a != id && b != id ==> Precedes(s1.ready, a, b)
    ensures Joined(s, s', env, id)
  {
    hide Precedes, GoesFirst;
  }

  /** Any enqueue of a task with nothing open, in any run. */
  lemma EnqueueJoins(states: seq<KState>, ops: seq<Op>, k: nat)
    requires Run(states, ops) && k < |ops| && ops[k].EnqueueOp?
    ensures
      var s, s', id := states[k], states[k + 1], ops[k].id;
      && (if id in s'.ready then Joined(s, s', ops[k].env, id) else s'.ready == s.ready)
      && s'.waiting == if id in s'.ready then s.waiting else s.waiting + [id]
  {
    hide Run, Inv, Joined, Reaches, DependentsGraph, EnqueueNodes, Lifted, AppendReady, Added;
    StepOf(states, ops, k);
    var s, id, task, env := states[k], ops[k].id, ops[k].task, ops[k].env;
    EnqueueAdds(states, ops, k);
    AddedReady(s, states[k + 1], id, Elements(task.declared));
    LiftedByEnqueue(s, id, task);
    EnqueueGrows(s.nodes, s.completed, id, task);
    var s1 := s.(nodes := EnqueueNodes(s.nodes, s.completed, id, task));
    EnqueueKeeps(s, id, task, env, PLAIN);
    if s1.nodes[id].open == {} {
      PlaceJoins(s, s1, id, Elements(task.declared), env);
      AppendWaiting(s1, id, env);
    }
  }

  lemma AppendWaiting(s: KState, id: Id, env: Env)
    ensures forall n :: AppendReady(s.(nodes := n), id, env).waiting == s.waiting
  {
  }

  lemma LiftedWaiting(s: KState, s1: KState, id: Id, deps: set<Id>)
    requires Lifted(s, s1, id, deps)
    ensures s1.waiting == RemoveFirst(s.waiting, id)
  {
  }

  lemma AddedReady(s: KState, s': KState, id: Id, deps: set<Id>)
    requires Added(s, s', id, deps)
    ensures id in s'.nodes && (id in s'.ready <==> s'.nodes[id].open == {})
    ensures s'.nodes[id].open == OpenOf(s.nodes, id) + (deps - s.completed)
  {
  }

  /** Any accepted add_dependencies that leaves nothing open, at any point of any run. */
  lemma AddDependenciesJoins(states: seq<KState>, ops: seq<Op>, id: Id, deps: seq<Id>, env: Env)
    requires Run(states, ops) && AddDependencies(states[|ops|], id, deps, env).Ok?
    ensures
      var s, s' := states[|ops|], AddDependencies(states[|ops|], id, deps, env).value;
      && (if id in s'.ready then Joined(s, s', env, id) else s'.ready == RemoveFirst(s.ready, id))
      && s'.waiting == RemoveFirst(s.waiting, id) + if id in s'.ready then [] else [id]
  {
    hide Run, Inv, Joined, FirstBad, HalfLinked, Unique, DependentsGraph, Reaches, Lifted, AppendReady, Added, MayAdd,
      RemoveFirst;
    InvAt(states, ops);
    AddDependenciesIff(states, ops, id, deps, env);
    var s, s' := states[|ops|], AddDependencies(states[|ops|], id, deps, env).value;
    AddDependenciesOutcome(s, id, deps, env, PLAIN);
    AddedReady(s, s', id, Elements(deps));
    LiftedByAdd(s, id, deps);
    var s1 := HalfLinked(s, id, deps);
    LiftedReady(s, s1, id, Elements(deps));
    LiftedMeans(s, s1, id, Elements(deps));
    LiftedWaiting(s, s1, id, Elements(deps));
    assert RemoveFirst(s.waiting, id) + [] == RemoveFirst(s.waiting, id);
    if s1.nodes[id].open == {} {
      PlaceJoins(s, s1, id, Elements(deps), env);
      AppendWaiting(s1, id, env);
    }
  }

  // ---- complete_task and fail_task ----

  /** Priorities and creation times, and the policy, have stayed. */
  ghost predicate RanksKept(s: KState, s': KState) {
    && s'.policy == s.policy && s'.nodes.Keys == s.nodes.Keys
    && forall k :: k in s.nodes ==>
      s'.nodes[k].task.priority == s.nodes[k].task.priority && s'.nodes[k].task.createdAt == s.nodes[k].task.createdAt
  }

  /** The ready queue has stayed, or all stand in line by the clock of the last insertion. */
  ghost predicate Lined(s: KState, s': KState, env: Env) {
    && RanksKept(s, s')
    && (s'.ready == s.ready || exists x :: x in s'.ready && InLine(s', env, env.clock(x), s'.ready))
  }

  lemma RanksCompare(s: KState, s': KState, env: Env, now: real, q: seq<Id>)
    requires RanksKept(s, s') && InLine(s, env, now, q)
    ensures InLine(s', env, now, q)
  {
    forall i, j | 0 <= i < j < |q| ensures !GoesFirst(s', env, now, q[j], q[i]) {
      assert !GoesFirst(s, env, now, q[j], q[i]);
    }
  }

  lemma LinedThen(s: KState, s1: KState, s2: KState, env: Env)
    requires Lined(s, s1, env) && Lined(s1, s2, env)
    ensures Lined(s, s2, env)
  {
    hide InLine;
    if s2.ready == s1.ready && s1.ready != s.ready {
      var x :| x in s1.ready && InLine(s1, env, env.clock(x), s1.ready);
      RanksCompare(s1, s2, env, env.clock(x), s1.ready);
      assert InLine(s2, env, env.clock(x), s2.ready);
    }
  }

  lemma ReleaseLines(s: KState, id: Id, env: Env)
    requires id in s.nodes && id !in s.ready && (forall x :: x in s.ready ==> x in s.nodes) && Release(s, id, env).Ok?
    ensures Lined(s, Release(s, id, env).value, env)
  {
    hide StableSort, RemoveFirst, InLine;
    var t := Unblock(s.nodes[id].task).value;
    var s1 := s.(nodes := SetTask(s.nodes, id, t), waiting := RemoveFirst(s.waiting, id));
    AppendJoins(s1, id, env);
    assert id in Release(s, id, env).value.ready;
  }

  lemma ReleaseOneLines(s: KState, x: Id, dep: Id, env: Env)
    requires QueuesAgree(s) && ReleaseOne(s, x, dep, env).Ok?
    ensures Lined(s, ReleaseOne(s, x, dep, env).value, env)
  {
    hide Release, InLine, NoDuplicates;
    if dep in s.nodes {
      var s1 := s.(nodes := SetOpen(s.nodes, dep, s.nodes[dep].open - {x}));
      assert RanksKept(s, s1);
      if s1.nodes[dep].open == {} && dep in s1.waiting {
        assert Placed(s, dep);
        ReleaseLines(s1, dep, env);
        LinedThen(s, s1, ReleaseOne(s, x, dep, env).value, env);
      }
    }
  }

  lemma {:induction false} ReleaseAllLines(s: KState, x: Id, order: seq<Id>, env: Env)
    requires NoDuplicates(order) && InvDuring(s, x, Elements(order), PLAIN) && x in s.completed
    ensures ReleaseAll(s, x, order, env).Ok? && Lined(s, ReleaseAll(s, x, order, env).value, env)
    decreases |order|
  {
    hide InvDuring, ReleaseOne, Lined, SameGraph, NoDuplicates;
    if order == [] {
      LinedSelf(s, env);
    } else {
      TailElements(order);
      ReleaseOneKeeps(s, x, order[0], env, Elements(order), PLAIN);
      DuringQueues(s, x, Elements(order));
      ReleaseOneLines(s, x, order[0], env);
      var s1 := ReleaseOne(s, x, order[0], env).value;
      ReleaseAllLines(s1, x, order[1..], env);
      LinedThen(s, s1, ReleaseAll(s, x, order, env).value, env);
    }
  }

  lemma LinedSelf(s: KState, env: Env)
    ensures Lined(s, s, env)
  {
  }

  lemma DuringQueues(s: KState, x: Id, rest: set<Id>)
    requires InvDuring(s, x, rest, PLAIN)
    ensures QueuesAgree(s)
  {
  }

  lemma FailOneLines(s: KState, x: Id, dep: Id, env: Env, rest: set<Id>)
    requires InvDuring(s, x, rest, PLAIN) && dep in rest && x in s.nodes && FailOne(s, x, dep, env).Ok?
    ensures Lined(s, FailOne(s, x, dep, env).value, env)
  {
    hide EdgesAgree, OpenOk, ReleaseOne, RemoveFirst, InLine, NoDuplicates;
    InRest(s, x, dep, rest, PLAIN);
    ReadyHasNothingOpen(s, x, dep, rest);
    RemoveAbsent(s.ready, dep);
    if Waives(EffectiveMode(s.nodes[dep].task, x, s.nodes[x].task)) { ReleaseOneLines(s, x, dep, env); }
  }

  lemma ReadyHasNothingOpen(s: KState, x: Id, dep: Id, rest: set<Id>)
    requires InvDuring(s, x, rest, PLAIN) && dep in s.nodes && x in s.nodes[dep].open
    ensures dep !in s.ready
  {
    hide EdgesAgree;
    assert Placed(s, dep) && OpenOk(s, dep, PLAIN);
  }

  lemma {:induction false} FailAllLines(s: KState, x: Id, order: seq<Id>, env: Env)
    requires NoDuplicates(order) && InvDuring(s, x, Elements(order), PLAIN) && x in s.failed && x in s.nodes
    requires Spares(s.nodes, x, Elements(order), PLAIN)
    ensures FailAll(s, x, order, env).Ok? && Lined(s, FailAll(s, x, order, env).value, env)
    decreases |order|
  {
    hide InvDuring, FailOne, Lined, SameGraph, NoDuplicates, Spares;
    if order == [] {
      LinedSelf(s, env);
    } else {
      TailElements(order);
      FailOneKeeps(s, x, order[0], env, Elements(order), PLAIN);
      FailOneLines(s, x, order[0], env, Elements(order));
      var s1 := FailOne(s, x, order[0], env).value;
      SparesFrame(s.nodes, s1.nodes, x, Elements(order), Elements(order[1..]), PLAIN);
      FailAllLines(s1, x, order[1..], env);
      LinedThen(s, s1, FailAll(s, x, order, env).value, env);
    }
  }

  lemma MarkingLines(s: KState, x: Id, env: Env)
    requires Typed(s) && x in s.running
    ensures MarkFailed(s, x).Ok? ==> Lined(s, MarkFailed(s, x).value.(failed := s.failed + {x}), env)
    ensures MarkCompleted(s, x).Ok? ==> Lined(s, MarkCompleted(s, x).value.(completed := s.completed + {x}), env)
  {
  }

  /** At any completion or failure of any run the ready queue has stayed, or all stand in line, by the
      clock of the last task that was let go. */
  lemma EndsLine(states: seq<KState>, ops: seq<Op>, k: nat)
    requires Run(states, ops) && k < |ops| && (ops[k].CompleteOp? || ops[k].FailOp?)
    ensures Lined(states[k], states[k + 1], ops[k].env)
  {
    hide Run, Inv, Lined, Fail, Complete, Enumerates;
    StepOf(states, ops, k);
    var s, op := states[k], ops[k];
    if op.CompleteOp? {
      CompleteLines(s, op.id, op.order, op.env);
    } else {
      FailLines(s, op.id, op.order, op.env);
    }
  }

  lemma CompleteLines(s: KState, x: Id, order: seq<Id>, env: Env)
    requires Inv(s, PLAIN) && Typed(s) && x in s.running && s.nodes[x].task.status == Running
    requires Enumerates(order, s.nodes[x].dependents)
    ensures Complete(s, x, order, env).Ok? && Lined(s, Complete(s, x, order, env).value, env)
    ensures StayInOrder(s, Complete(s, x, order, env).value)
  {
    hide Inv, Lined, ReleaseAll, StayInOrder, NoDuplicates;
    RunningFacts(s, x, PLAIN);
    MarkingLines(s, x, env);
    assert Elements(order) == s.nodes[x].dependents;
    var s1 := MarkCompleted(s, x).value.(completed := s.completed + {x});
    EndedKeeps(s, s1, x, PLAIN);
    ReleaseAllLines(s1, x, order, env);
    LinedThen(s, s1, Complete(s, x, order, env).value, env);
    ReleaseAllStays(s1, x, order, env);
    StaySelf(s, s1);
    StayThen(s, s1, Complete(s, x, order, env).value);
  }

  lemma FailLines(s: KState, x: Id, order: seq<Id>, env: Env)
    requires Inv(s, PLAIN) && Typed(s) && x in s.running && Enumerates(order, s.nodes[x].dependents)
    ensures Fail(s, x, order, env).Ok? && Lined(s, Fail(s, x, order, env).value, env)
    ensures StayInOrder(s, Fail(s, x, order, env).value)
  {
    hide Inv, Lined, FailAll, StayInOrder, NoDuplicates;
    RunningFacts(s, x, PLAIN);
    MarkingLines(s, x, env);
    assert Elements(order) == s.nodes[x].dependents;
    var s1 := MarkFailed(s, x).value.(failed := s.failed + {x});
    EndedKeeps(s, s1, x, PLAIN);
    FailAllLines(s1, x, order, env);
    LinedThen(s, s1, Fail(s, x, order, env).value, env);
    FailAllStays(s1, x, order, env);
    StaySelf(s, s1);
    StayThen(s, s1, Fail(s, x, order, env).value);
  }

  // ---- the waiting queue ----

  /** Nobody joins the waiting queue, and those that stay keep their order. */
  ghost predicate StayInOrder(s: KState, s': KState) {
    && (forall a :: a in s'.waiting ==> a in s.waiting)
    && (forall a, b :: Precedes(s.waiting, a, b) && a in s'.waiting && b in s'.waiting ==> Precedes(s'.waiting, a, b))
  }

  lemma StayThen(s: KState, s1: KState, s2: KState)
    requires StayInOrder(s, s1) && StayInOrder(s1, s2)
    ensures StayInOrder(s, s2)
  {
    hide Precedes;
  }

  lemma RemoveStays(s: KState, s': KState, id: Id)
    requires s'.waiting == RemoveFirst(s.waiting, id) && NoDuplicates(s.waiting)
    ensures StayInOrder(s, s')
  {
    hide RemoveFirst, Precedes, NoDuplicates;
    RemoveFirstDistinct(s.waiting, id);
    forall a, b | Precedes(s.waiting, a, b) && a in s'.waiting && b in s'.waiting ensures Precedes(s'.waiting, a, b) {
      RemoveKeepsOrder(s.waiting, id, a, b);
    }
  }

  lemma ReleaseOneStays(s: KState, x: Id, dep: Id, env: Env)
    requires NoDuplicates(s.waiting) && ReleaseOne(s, x, dep, env).Ok?
    ensures StayInOrder(s, ReleaseOne(s, x, dep, env).value)
  {
    hide RemoveFirst, Precedes, StableSort, NoDuplicates, StayInOrder;
    var s' := ReleaseOne(s, x, dep, env).value;
    if s'.waiting == s.waiting { StaySelf(s, s'); } else { RemoveStays(s, s', dep); }
  }

  lemma StaySelf(s: KState, s': KState)
    requires s'.waiting == s.waiting
    ensures StayInOrder(s, s')
  {
  }

  lemma FailOneStays(s: KState, x: Id, dep: Id, env: Env)
    requires NoDuplicates(s.waiting) && x in s.nodes && FailOne(s, x, dep, env).Ok?
    ensures StayInOrder(s, FailOne(s, x, dep, env).value)
  {
    hide RemoveFirst, Precedes, NoDuplicates, StayInOrder, ReleaseOne;
    var s' := FailOne(s, x, dep, env).value;
    if dep !in s.nodes {
      StaySelf(s, s');
    } else if Waives(EffectiveMode(s.nodes[dep].task, x, s.nodes[x].task)) {
      ReleaseOneStays(s, x, dep, env);
    } else if s'.waiting == s.waiting {
      StaySelf(s, s');
    } else {
      RemoveStays(s, s', dep);
    }
  }

  lemma {:induction false} ReleaseAllStays(s: KState, x: Id, order: seq<Id>, env: Env)
    requires NoDuplicates(order) && InvDuring(s, x, Elements(order), PLAIN) && x in s.completed
    ensures ReleaseAll(s, x, order, env).Ok? && StayInOrder(s, ReleaseAll(s, x, order, env).value)
    decreases |order|
  {
    hide InvDuring, ReleaseOne, StayInOrder, SameGraph, NoDuplicates;
    if order == [] {
      StaySelf(s, s);
    } else {
      TailElements(order);
      ReleaseOneKeeps(s, x, order[0], env, Elements(order), PLAIN);
      DuringDistinct(s, x, Elements(order), PLAIN);
      ReleaseOneStays(s, x, order[0], env);
      var s1 := ReleaseOne(s, x, order[0], env).value;
      ReleaseAllStays(s1, x, order[1..], env);
      StayThen(s, s1, ReleaseAll(s, x, order, env).value);
    }
  }

  lemma {:induction false} FailAllStays(s: KState, x: Id, order: seq<Id>, env: Env)
    requires NoDuplicates(order) && InvDuring(s, x, Elements(order), PLAIN) && x in s.failed && x in s.nodes
    requires Spares(s.nodes, x, Elements(order), PLAIN)
    ensures FailAll(s, x, order, env).Ok? && StayInOrder(s, FailAll(s, x, order, env).value)
    decreases |order|
  {
    hide InvDuring, FailOne, StayInOrder, SameGraph, NoDuplicates, Spares;
    if order == [] {
      StaySelf(s, s);
    } else {
      TailElements(order);
      FailOneKeeps(s, x, order[0], env, Elements(order), PLAIN);
      DuringDistinct(s, x, Elements(order), PLAIN);
      FailOneStays(s, x, order[0], env);
      var s1 := FailOne(s, x, order[0], env).value;
      SparesFrame(s.nodes, s1.nodes, x, Elements(order), Elements(order[1..]), PLAIN);
      FailAllStays(s1, x, order[1..], env);
      StayThen(s, s1, FailAll(s, x, order, env).value);
    }
  }

  /** At any completion or failure of any run the tasks that go on waiting keep their order. */
  lemma EndsKeepOrder(states: seq<KState>, ops: seq<Op>, k: nat)
    requires Run(states, ops) && k < |ops| && (ops[k].CompleteOp? || ops[k].FailOp?)
    ensures StayInOrder(states[k], states[k + 1])
  {
    hide Run, Inv, StayInOrder, Fail, Complete, Enumerates;
    StepOf(states, ops, k);
    var s, op := states[k], ops[k];
    if op.CompleteOp? {
      CompleteLines(s, op.id, op.order, op.env);
    } else {
      FailLines(s, op.id, op.order, op.env);
    }
  }

  /** Those without an agent or refused, in the order of q. */
  function Refusing(env: Env, q: seq<Id>): seq<Id> {
    if q == [] then []
    else (if env.agentMissing(q[0]) || env.grant(q[0]).Refused? then [q[0]] else []) + Refusing(env, q[1..])
  }

  lemma DispatchOneWaits(s: KState, env: Env)
    requires Inv(s, PLAIN) && s.ready != [] && s.ready[0] in s.nodes && DispatchOne(s, env).Ok?
    ensures DispatchOne(s, env).value.0.waiting ==
      s.waiting + if env.agentMissing(s.ready[0]) || env.grant(s.ready[0]).Refused? then [s.ready[0]] else []
  {
    hide Inv, RemoveFirst;
    assert s.ready[0] in s.ready;
    NotInQueues(s, s.ready[0]);
    ReadyIsNotWaiting(s, s.ready[0]);
    RemoveAbsent(s.waiting, s.ready[0]);
  }

  lemma ReadyIsNotWaiting(s: KState, id: Id)
    requires Inv(s, PLAIN) && id in s.ready && id in s.nodes
    ensures id !in s.waiting
  {
    hide EdgesAgree, OpenAgree;
    assert Placed(s, id);
  }

  lemma {:induction false} LoopWaits(s: KState, limit: Option<int>, env: Env, out: seq<Id>, n: nat)
    requires Inv(s, PLAIN) && (forall id :: id in s.ready ==> id in s.nodes)
    requires DispatchLoop(s, limit, env, out).Ok? && n <= |s.ready|
    requires DispatchLoop(s, limit, env, out).value.0.ready == s.ready[n..]
    ensures DispatchLoop(s, limit, env, out).value.0.waiting == s.waiting + Refusing(env, s.ready[..n])
    decreases |s.ready|
  {
    hide Inv, DispatchOne, SameGraph, NoDuplicates, Refusing, StopsAt, Granting;
    InvFacts(s, PLAIN);
    if s.ready == [] || (limit.Some? && |out| >= limit.value) {
      RefusingNone(env, s.ready[..n]);
    } else {
      HeadTail(s.ready);
      DispatchOneKeeps(s, env, PLAIN);
      DispatchOnePops(s, env);
      DispatchOneWaits(s, env);
      ReadyShrinks(s, env);
      var r := DispatchOne(s, env).value;
      var out1 := if r.1 then out + [s.ready[0]] else out;
      var n1 := LoopStops(r.0, limit, env, out1);
      StopsInBounds(limit, env, r.0.ready, |out1|, n1);
      assert |s.ready[n..]| == |r.0.ready[n1..]|;
      LoopWaits(r.0, limit, env, out1, n1);
      RefusingHead(env, s.ready, n);
      Regrouped(s.waiting, Refusing(env, [s.ready[0]]), Refusing(env, r.0.ready[..n1]));
      RefusingOne(env, s.ready[0]);
    }
  }

  lemma RefusingNone(env: Env, q: seq<Id>)
    requires q == []
    ensures forall w: seq<Id> :: w + Refusing(env, q) == w
  {
  }

  lemma RefusingOne(env: Env, id: Id)
    ensures Refusing(env, [id]) == if env.agentMissing(id) || env.grant(id).Refused? then [id] else []
  {
    assert [id][1..] == [];
  }

  lemma RefusingHead(env: Env, q: seq<Id>, n: nat)
    requires 1 <= n <= |q|
    ensures Refusing(env, q[..n]) == Refusing(env, [q[0]]) + Refusing(env, q[1..][..n - 1])
  {
    assert q[..n][1..] == q[1..][..n - 1];
    assert [q[0]][1..] == [];
  }

  lemma {:induction false} WakeStaysInOrder(s: KState, todo: seq<Id>, env: Env)
    requires Inv(s, PLAIN) && NoDuplicates(todo) && forall id :: id in todo ==> id in s.waiting && id in s.nodes
    ensures Wake(s, todo, env).Ok? && StayInOrder(s, Wake(s, todo, env).value)
    decreases |todo|
  {
    hide Inv, WakeOne, StayInOrder, SameGraph, NoDuplicates;
    if todo == [] {
      StaySelf(s, s);
    } else {
      HeadTail(todo);
      WakeOneKeeps(s, todo[0], env, PLAIN);
      InvFacts(s, PLAIN);
      WakeOneStaysInOrder(s, todo[0], env);
      var s1 := WakeOne(s, todo[0], env).value;
      WakeKeys(s, todo[0], env);
      WakeStaysInOrder(s1, todo[1..], env);
      StayThen(s, s1, Wake(s, todo, env).value);
    }
  }

  lemma WakeOneStaysInOrder(s: KState, id: Id, env: Env)
    requires NoDuplicates(s.waiting) && id in s.nodes && WakeOne(s, id, env).Ok?
    ensures StayInOrder(s, WakeOne(s, id, env).value)
  {
    hide RemoveFirst, Precedes, StableSort, NoDuplicates, StayInOrder;
    var s' := WakeOne(s, id, env).value;
    if s'.waiting == s.waiting { StaySelf(s, s'); } else { RemoveStays(s, s', id); }
  }

  /** At any dispatch of any run: w, the tasks that wait and are no candidates, keep their order; behind
      them stand the candidates that were refused, in the order of their turns. */
  lemma RefusedQueueUp(states: seq<KState>, ops: seq<Op>, k: nat) returns (q: seq<Id>, n: nat, w: seq<Id>)
    requires Run(states, ops) && k < |ops| && ops[k].DispatchOp?
    ensures
      var s, s', env := states[k], states[k + 1], ops[k].env;
      && InTurn(s, env, q) && StopsAt(ops[k].limit, env, q, 0, n) && n <= |q|
      && s'.waiting == w + Refusing(env, q[..n])
      && StayInOrder(s, s.(waiting := w)) && (forall id :: id in w <==> id in s.waiting && !Candidate(s, env, id))
  {
    hide Run, Inv, BeforeDispatch, DispatchLoop, SameGraph, InTurn, StopsAt, StayInOrder, Candidate, Refusing;
    StepOf(states, ops, k);
    var s, s', limit, env := states[k], states[k + 1], ops[k].limit, ops[k].env;
    DispatchKeeps(s, limit, env, PLAIN);
    BeforeDispatchKeeps(s, env, PLAIN);
    var s1 := BeforeDispatch(s, env).value;
    InvFacts(s1, PLAIN);
    q := s1.ready;
    n := LoopStops(s1, limit, env, []);
    StopsInBounds(limit, env, q, 0, n);
    assert Dispatch(s, limit, env) == DispatchLoop(s1, limit, env, []);
    QueueInTurn(s, env);
    LoopWaits(s1, limit, env, [], n);
    w := s1.waiting;
    HeadWaits(s, env);
  }

  lemma HeadWaits(s: KState, env: Env)
    requires Inv(s, PLAIN) && Typed(s) && BeforeDispatch(s, env).Ok?
    ensures
      var w := BeforeDispatch(s, env).value.waiting;
      StayInOrder(s, s.(waiting := w)) && forall id :: id in w <==> id in s.waiting && !Candidate(s, env, id)
  {
    hide Inv, Wake, StableSort, StayInOrder, Asked, SameGraph;
    InvFacts(s, PLAIN);
    var s1 := BeforeDispatch(s, env).value;
    var w := s1.waiting;
    if s.ready == [] {
      WakeStaysInOrder(s, s.waiting, env);
      SameWaiting(s, Wake(s, s.waiting, env).value, s.(waiting := w));
    } else {
      StaySelf(s, s.(waiting := w));
    }
    BeforeDispatchKeeps(s, env, PLAIN);
    SameGraphKeys(s.nodes, s1.nodes);
    InvFacts(s1, PLAIN);
    forall id ensures id in w <==> id in s.waiting && !Candidate(s, env, id) {
      if id in s.nodes {
        BeforeDispatchAt(s, env, id);
        WaitsIff(s, s1, env, id);
      }
    }
  }

  lemma SameWaiting(s: KState, s1: KState, s2: KState)
    requires StayInOrder(s, s1) && s2.waiting == s1.waiting
    ensures StayInOrder(s, s2)
  {
    hide Precedes;
  }

  lemma WaitsIff(s: KState, s1: KState, env: Env, a: Id)
    requires Inv(s, PLAIN) && a in s.nodes && Asked(s, s1, env, a)
    ensures a in s1.waiting <==> a in s.waiting && !Candidate(s, env, a)
  {
    hide Inv;
    if a in s.ready || a in s.waiting { NotInQueues(s, a); }
    if a in s.ready { ReadyIsNotWaiting(s, a); }
  }
}
