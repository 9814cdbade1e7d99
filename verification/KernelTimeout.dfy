/** add_dependencies on a task between two attempts: its guard does not list TIMEOUT. */
module KernelTimeout {
  import opened Graphs
  import opened Tasks
  import opened TaskGraph
  import opened KernelSpec
  import opened KernelRuns
  import opened KernelTheorems
  import opened KernelStranded

  // ---- the states of a run ----

  function Dispatched(a: Id, ta: Task): KState {
    Initial(Fifo).(nodes := map[a := Node(ta.(status := Running), {}, {})], running := {a})
  }

  function BetweenAttempts(a: Id, ta: Task): KState {
    Initial(Fifo).(nodes := map[a := Node(ta.(status := Timeout), {}, {})], running := {a})
  }

  function TwoTasks(a: Id, ta: Task, d: Id, td: Task): Nodes {
    map[a := Node(ta.(status := Timeout), {}, {}), d := Node(td.(status := Ready), {}, {})]
  }

  function Joined(a: Id, ta: Task, d: Id, td: Task): KState {
    Initial(Fifo).(nodes := TwoTasks(a, ta, d, td), running := {a}, ready := [d])
  }

  // ---- its steps ----

  lemma DispatchA(a: Id, ta: Task, env: Env)
    requires Fresh(ta, []) && !env.agentMissing(a) && env.grant(a) == Granted
    ensures Dispatch(OneReady(a, ta), None, env) == Ok((Dispatched(a, ta), [a]))
  {
    var s, s' := OneReady(a, ta), Dispatched(a, ta);
    assert StableSort(s, env, env.sortClock, [a]) == [a];
    assert BeforeDispatch(s, env) == Ok(s);
    assert SetTask(s.nodes, a, ta.(status := Running)) == s'.nodes;
    assert s.ready[1..] == [] && {} + {a} == {a};
    assert MarkRunning(s.(ready := []), a) == Ok(s');
    assert DispatchOne(s, env) == Ok((s', true));
    assert [] + [a] == [a];
    assert DispatchLoop(s', None, env, [a]) == Ok((s', [a]));
  }

  lemma TimeOutA(a: Id, ta: Task)
    requires Fresh(ta, [])
    ensures TimeOut(Dispatched(a, ta), a) == Ok(BetweenAttempts(a, ta))
  {
    assert SetTask(Dispatched(a, ta).nodes, a, ta.(status := Timeout)) == BetweenAttempts(a, ta).nodes;
  }

  lemma EnqueueD(a: Id, ta: Task, d: Id, td: Task, env: Env)
    requires Fresh(ta, []) && Fresh(td, []) && a != d
    ensures Enqueue(BetweenAttempts(a, ta), d, td, env) == Ok(Joined(a, ta, d, td))
  {
    var s, n' := BetweenAttempts(a, ta), TwoTasks(a, ta, d, td);
    var n := s.nodes[d := Node(td, {}, {})];
    assert Elements(td.declared) == {};
    assert Linked(n, d, {}) == n;
    assert Elements(td.declared) - Elements(td.declared) * s.completed == {};
    assert SetOpen(n, d, {}) == n;
    assert EnqueueNodes(s.nodes, s.completed, d, td) == n;
    assert SetTask(n, d, td.(status := Ready)) == n';
    assert s.ready + [d] == [d];
    assert StableSort(s.(nodes := n'), env, env.clock(d), [d]) == [d];
  }

  /** Nothing depends on d, so it may become a dependency of a. */
  lemma NothingWrong(a: Id, ta: Task, d: Id, td: Task)
    requires a != d
    ensures MissesTimeout(Joined(a, ta, d, td), a, [d])
  {
    hide Reaches;
    var n := Joined(a, ta, d, td).nodes;
    Singleton(d);
    AloneReachesNothing(n, a, d);
    assert [d][1..] == [];
    assert FirstBad(n, a, [d]) == None;
  }

  /** The edges are there after the call has raised. */
  lemma LinkedAllTheSame(a: Id, ta: Task, d: Id, td: Task)
    requires a != d && MissesTimeout(Joined(a, ta, d, td), a, [d])
    ensures
      var n := HalfLinked(Joined(a, ta, d, td), a, [d]).nodes;
      a in n && d in n && n[a].open == {d} && n[d].dependents == {a}
  {
    hide FirstBad, Reaches, RemoveFirst;
    var s := Joined(a, ta, d, td);
    Singleton(d);
    assert [d][..0] == [];
    assert AddAll(s.nodes, s.completed, a, []) == s.nodes;
    assert AddAll(s.nodes, s.completed, a, [d]) == AddOne(s.nodes, s.completed, a, d);
  }

  /** Enqueue and dispatch a, let its attempt time out and enqueue d. A call that makes a depend on d
      then raises, although the caller is told of no rule it broke, and leaves the edge behind. */
  lemma UpdateBetweenAttemptsRaises(a: Id, ta: Task, d: Id, td: Task, env: Env)
    requires Fresh(ta, []) && Fresh(td, []) && a != d && !env.agentMissing(a) && env.grant(a) == Granted
    ensures
      var states := [Initial(Fifo), OneReady(a, ta), Dispatched(a, ta), BetweenAttempts(a, ta), Joined(a, ta, d, td)];
      Run(states, [EnqueueOp(a, ta, env), DispatchOp(None, env), TimeOutOp(a), EnqueueOp(d, td, env)])
    ensures AddDependencies(Joined(a, ta, d, td), a, [d], env) == Err(InvalidTransition(Timeout, Pending))
    ensures MissesTimeout(Joined(a, ta, d, td), a, [d])
    ensures HalfLinked(Joined(a, ta, d, td), a, [d]).nodes[a].open == {d}
    ensures !Inv(HalfLinked(Joined(a, ta, d, td), a, [d]), PLAIN)
  {
    hide Enqueue, Dispatch, AddDependencies, HalfLinked, FirstBad, TwoTasks;
    EnqueueOne(a, ta, env);
    DispatchA(a, ta, env);
    TimeOutA(a, ta);
    EnqueueD(a, ta, d, td, env);
    assert Step(Initial(Fifo), EnqueueOp(a, ta, env), OneReady(a, ta));
    assert Step(OneReady(a, ta), DispatchOp(None, env), Dispatched(a, ta));
    assert Step(Dispatched(a, ta), TimeOutOp(a), BetweenAttempts(a, ta));
    assert Step(BetweenAttempts(a, ta), EnqueueOp(d, td, env), Joined(a, ta, d, td));
    NothingWrong(a, ta, d, td);
    TimeoutRaises(Joined(a, ta, d, td), a, [d], env);
    LinkedAllTheSame(a, ta, d, td);
    NotInv(Joined(a, ta, d, td), a, [d]);
  }

  lemma NotInv(s: KState, a: Id, deps: seq<Id>)
    requires MissesTimeout(s, a, deps) && HalfLinked(s, a, deps).nodes[a].open != {}
    ensures !Inv(HalfLinked(s, a, deps), PLAIN)
  {
    hide FirstBad, RemoveFirst, EdgesAgree, QueuesAgree;
    AddAllStatus(s.nodes, s.completed, a, Unique(deps));
    assert !OpenOk(HalfLinked(s, a, deps), a, PLAIN);
  }
}
