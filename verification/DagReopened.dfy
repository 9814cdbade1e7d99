/** A task that gets a dependency between two attempts, and what becomes of it when the dependency
    completes. */
module DagReopened {
  import opened Graphs
  import opened Tasks
  import opened TaskGraph
  import opened DagSpec
  import opened DagFailures
  import opened DagRuns
  import opened DagTheorems

  /** Two new tasks without dependencies. */
  datatype Two = Two(x: Id, d: Id, tx: Task, td: Task)

  predicate Good(q: Two) {
    q.x != q.d && Fresh(q.tx, []) && Fresh(q.td, [])
  }

  function Apart(q: Two, sx: Status, sd: Status): Nodes {
    map[q.x := Node(q.tx.(status := sx), {}, {}), q.d := Node(q.td.(status := sd), {}, {})]
  }

  /** x depends on d. */
  function Joined(q: Two, sx: Status, sd: Status, open: set<Id>): Nodes {
    map[q.x := Node(q.tx.(status := sx, declared := [q.d]), open, {}), q.d := Node(q.td.(status := sd), {}, {q.x})]
  }

  // ---- the states of the runs ----

  function One(q: Two): DState {
    DState(map[q.x := Node(Readied(q.tx), {}, {})], [q.x], [], {}, {})
  }

  function Both(q: Two): DState {
    DState(Apart(q, Ready, Ready), [q.x, q.d], [], {}, {})
  }

  function XRuns(q: Two): DState {
    DState(Apart(q, Running, Ready), [q.d], [], {}, {})
  }

  function XTimedOut(q: Two): DState {
    DState(Apart(q, Timeout, Ready), [q.d], [], {}, {})
  }

  function DRuns(q: Two): DState {
    DState(Apart(q, Timeout, Running), [], [], {}, {})
  }

  function Reopened(q: Two): DState {
    DState(Joined(q, Timeout, Running, {q.d}), [], [], {}, {})
  }

  function Restarted(q: Two): DState {
    DState(Joined(q, Running, Running, {q.d}), [], [], {}, {})
  }

  function XFailed(q: Two): DState {
    DState(Joined(q, Failed, Running, {q.d}), [], [], {}, {q.x})
  }

  function Revived(q: Two): DState {
    DState(Joined(q, Ready, Success, {}), [], [], {q.d}, {q.x})
  }

  // ---- the steps ----

  lemma EnqueueX(q: Two)
    requires Good(q)
    ensures Enqueue(Initial(), q.x, q.tx) == Ok(One(q))
  {
    EnqueueGrows(map[], {}, q.x, q.tx);
    assert Elements(q.tx.declared) == {};
    var n := EnqueueNodes(map[], {}, q.x, q.tx);
    assert n == map[q.x := Node(q.tx, {}, {})];
    assert SetTask(n, q.x, Readied(q.tx)) == One(q).nodes;
    assert Initial().queue + [q.x] == [q.x];
  }

  lemma EnqueueD(q: Two)
    requires Good(q)
    ensures Enqueue(One(q), q.d, q.td) == Ok(Both(q))
  {
    var s := One(q);
    EnqueueGrows(s.nodes, {}, q.d, q.td);
    assert Elements(q.td.declared) == {};
    var n := EnqueueNodes(s.nodes, {}, q.d, q.td);
    assert n == s.nodes[q.d := Node(q.td, {}, {})];
    assert SetTask(n, q.d, Readied(q.td)) == Both(q).nodes;
    assert s.queue + [q.d] == [q.x, q.d];
  }

  lemma DequeueX(q: Two)
    requires Good(q)
    ensures Dequeue(Both(q)) == Ok((XRuns(q), Some(q.x)))
  {
    var s := Both(q);
    assert FirstReady(s, s.queue) == Some(q.x);
    assert SetTask(s.nodes, q.x, q.tx.(status := Running)) == XRuns(q).nodes;
    assert s.queue[1..] == [q.d] && RemoveFirst(s.queue, q.x) == [q.d];
  }

  lemma TimeOutX(q: Two)
    requires Good(q)
    ensures TimeOut(XRuns(q), q.x) == Ok(XTimedOut(q))
  {
    assert SetTask(XRuns(q).nodes, q.x, q.tx.(status := Timeout)) == XTimedOut(q).nodes;
  }

  lemma DequeueD(q: Two)
    requires Good(q)
    ensures Dequeue(XTimedOut(q)) == Ok((DRuns(q), Some(q.d)))
  {
    var s := XTimedOut(q);
    assert FirstReady(s, s.queue) == Some(q.d);
    assert SetTask(s.nodes, q.d, q.td.(status := Running)) == DRuns(q).nodes;
    assert s.queue[1..] == [] && RemoveFirst(s.queue, q.d) == [];
  }

  lemma AddD(q: Two)
    requires Good(q)
    ensures AddDependencies(DRuns(q), q.x, [q.d]) == Ok(Reopened(q))
  {
    hide Reaches;
    var s := DRuns(q);
    Singleton(q.d);
    AloneReachesNothing(s.nodes, q.x, q.d);
    assert [q.d][1..] == [] && [q.d][..0] == [];
    assert FirstBad(s.nodes, q.x, [q.d]) == None;
    assert AddAll(s.nodes, {}, q.x, []) == s.nodes;
    var none: set<Id> := {};
    assert none + {q.d} == {q.d} && none + {q.x} == {q.x} && q.tx.declared + [q.d] == [q.d];
    assert AddOne(s.nodes, {}, q.x, q.d) == Reopened(q).nodes;
    assert AddAll(s.nodes, {}, q.x, [q.d]) == Reopened(q).nodes;
  }

  lemma RestartX(q: Two)
    requires Good(q)
    ensures Restart(Reopened(q), q.x) == Ok(Restarted(q))
  {
    assert SetTask(Reopened(q).nodes, q.x, q.tx.(status := Running, declared := [q.d])) == Restarted(q).nodes;
  }

  lemma BreakX(q: Two, orders: Id -> seq<Id>)
    requires Good(q) && OrdersOk(Reopened(q).nodes, orders)
    ensures Break(Reopened(q), q.x, orders) == Ok(XFailed(q))
  {
    var s := Reopened(q);
    assert Enumerates(orders(q.x), {});
    CountDistinct(orders(q.x));
    assert orders(q.x) == [];
    assert SetTask(s.nodes, q.x, q.tx.(status := Failed, declared := [q.d])) == XFailed(q).nodes;
    assert s.failed + {q.x} == {q.x};
    assert Cascade(XFailed(q), q.x, [], orders) == Ok(XFailed(q));
  }

  /** Completing d when x is `status` moves x to READY, if that is allowed. */
  lemma SucceedD(q: Two, s: DState, status: Status)
    requires Good(q) && s.nodes == Joined(q, status, Running, {q.d})
    ensures !CanMove(status, Ready) ==> Succeed(s, q.d, [q.x]) == Err(InvalidTransition(status, Ready))
    ensures CanMove(status, Ready) ==>
      Succeed(s, q.d, [q.x]) == Ok(s.(nodes := Joined(q, Ready, Success, {}), completed := s.completed + {q.d},
                                      waiting := RemoveFirst(s.waiting, q.x)))
  {
    hide RemoveFirst;
    var n1 := Joined(q, status, Success, {q.d});
    assert SetTask(s.nodes, q.d, q.td.(status := Success)) == n1;
    var s1 := s.(nodes := n1, completed := s.completed + {q.d});
    var n2 := Joined(q, status, Success, {});
    assert {q.d} - {q.d} == {};
    assert SetOpen(n1, q.x, {}) == n2;
    assert SetTask(n2, q.x, q.tx.(status := Ready, declared := [q.d])) == Joined(q, Ready, Success, {});
    assert [q.x][1..] == [];
    assert ReleaseAll(s1, q.d, [q.x]) ==
      match ReleaseOne(s1, q.d, q.x) case Ok(r) => Ok(r) case Err(e) => Err(e);
  }

  // ---- the runs ----

  function States(q: Two): seq<DState> {
    [Initial(), One(q), Both(q), XRuns(q), XTimedOut(q), DRuns(q), Reopened(q)]
  }

  function Ops(q: Two): seq<Op> {
    [EnqueueOp(q.x, q.tx), EnqueueOp(q.d, q.td), DequeueOp, TimeOutOp(q.x), DequeueOp, AddDependenciesOp(q.x, [q.d])]
  }

  /** Enqueue x and d, hand out x, let its attempt time out, hand out d, make x depend on d. */
  lemma ReopeningRun(q: Two)
    requires Good(q)
    ensures Run(States(q), Ops(q))
  {
    hide Enqueue, Dequeue, AddDependencies, TimeOut;
    EnqueueX(q);
    EnqueueD(q);
    DequeueX(q);
    TimeOutX(q);
    DequeueD(q);
    AddD(q);
    assert Step(Initial(), EnqueueOp(q.x, q.tx), One(q));
    assert Step(One(q), EnqueueOp(q.d, q.td), Both(q));
    assert Step(Both(q), DequeueOp, XRuns(q));
    assert Step(XRuns(q), TimeOutOp(q.x), XTimedOut(q));
    assert Step(XTimedOut(q), DequeueOp, DRuns(q));
    assert Step(DRuns(q), AddDependenciesOp(q.x, [q.d]), Reopened(q));
  }

  /** A run goes on by one operation. */
  lemma Onward(states: seq<DState>, ops: seq<Op>, op: Op, s': DState)
    requires Run(states, ops) && Step(states[|ops|], op, s')
    ensures Run(states + [s'], ops + [op])
  {
    hide Step;
    var states1, ops1 := states + [s'], ops + [op];
    forall i | 0 <= i < |ops1| ensures Step(states1[i], ops1[i], states1[i + 1]) {
      if i < |ops| { assert Step(states[i], ops[i], states[i + 1]); }
    }
  }

  lemma OnlyX(q: Two)
    ensures Enumerates([q.x], {q.x})
  {
  }

  /** The call was accepted; completing d then asks for a forbidden transition, whether the next
      attempt of x has begun or not. */
  lemma LateCompletionRaises(q: Two)
    requires Good(q)
    ensures Run(States(q), Ops(q)) && Run(States(q) + [Restarted(q)], Ops(q) + [RestartOp(q.x)])
    ensures MayHappen(Reopened(q), SucceedOp(q.d, [q.x])) && MayHappen(Restarted(q), SucceedOp(q.d, [q.x]))
    ensures Succeed(Reopened(q), q.d, [q.x]) == Err(InvalidTransition(Timeout, Ready))
    ensures Succeed(Restarted(q), q.d, [q.x]) == Err(InvalidTransition(Running, Ready))
  {
    hide Run, Succeed, Restart;
    ReopeningRun(q);
    RestartX(q);
    assert Step(Reopened(q), RestartOp(q.x), Restarted(q));
    Onward(States(q), Ops(q), RestartOp(q.x), Restarted(q));
    OnlyX(q);
    SucceedD(q, Reopened(q), Timeout);
    SucceedD(q, Restarted(q), Running);
  }

  /** If x fails before d completes, it becomes READY again, outside the queue. */
  lemma FailedIsRevived(q: Two, orders: Id -> seq<Id>)
    requires Good(q) && OrdersOk(Reopened(q).nodes, orders)
    ensures Run(States(q) + [XFailed(q)] + [Revived(q)], Ops(q) + [BreakOp(q.x, orders)] + [SucceedOp(q.d, [q.x])])
    ensures XFailed(q).nodes[q.x].task.status == Failed && Revived(q).nodes[q.x].task.status == Ready
    ensures q.x in Revived(q).failed && q.x !in Revived(q).queue
  {
    hide Run, Succeed, Break, OrdersOk;
    ReopeningRun(q);
    BreakX(q, orders);
    assert Step(Reopened(q), BreakOp(q.x, orders), XFailed(q));
    Onward(States(q), Ops(q), BreakOp(q.x, orders), XFailed(q));
    OnlyX(q);
    SucceedD(q, XFailed(q), Failed);
    assert Step(XFailed(q), SucceedOp(q.d, [q.x]), Revived(q));
    Onward(States(q) + [XFailed(q)], Ops(q) + [BreakOp(q.x, orders)], SucceedOp(q.d, [q.x]), Revived(q));
  }

  // ---- failures that raise ----

  lemma OnlyXListed(q: Two, s: DState, sx: Status, sd: Status, open: set<Id>, orders: Id -> seq<Id>)
    requires Good(q) && s.nodes == Joined(q, sx, sd, open) && OrdersOk(s.nodes, orders)
    ensures orders(q.d) == [q.x]
  {
    var order := orders(q.d);
    assert Enumerates(order, {q.x});
    CountDistinct(order);
    assert Elements(order) == {q.x};
    assert order[0] in order;
  }

  /** Failing d when x is `sx` frees or fails x, if that is allowed. */
  lemma BreakD(q: Two, s: DState, sx: Status, orders: Id -> seq<Id>)
    requires Good(q) && s.nodes == Joined(q, sx, Running, {q.d}) && OrdersOk(s.nodes, orders)
    requires q.x !in s.failed && q.d in q.tx.edgeModes
    ensures q.tx.edgeModes[q.d] == FailOpen && !CanMove(sx, Ready) ==>
      Break(s, q.d, orders) == Err(InvalidTransition(sx, Ready))
    ensures q.tx.edgeModes[q.d] == FailClosed && !CanMove(sx, Failed) ==>
      Break(s, q.d, orders) == Err(InvalidTransition(sx, Failed))
  {
    OnlyXListed(q, s, sx, Running, {q.d}, orders);
    var n1 := Joined(q, sx, Failed, {q.d});
    assert SetTask(s.nodes, q.d, q.td.(status := Failed)) == n1;
    var s1 := s.(nodes := n1, failed := s.failed + {q.d});
    assert {q.d} - {q.d} == {};
    assert SetOpen(n1, q.x, {}) == Joined(q, sx, Failed, {});
  }

  /** x depends on d over an edge that waives. When d fails, the waiver asks for TIMEOUT to READY. */
  lemma FailureRaisesToo(q: Two, orders: Id -> seq<Id>)
    requires Good(q) && q.tx.edgeModes == map[q.d := FailOpen] && OrdersOk(Reopened(q).nodes, orders)
    ensures Run(States(q), Ops(q)) && MayHappen(Reopened(q), BreakOp(q.d, orders))
    ensures Break(Reopened(q), q.d, orders) == Err(InvalidTransition(Timeout, Ready))
  {
    hide Run, Break, OrdersOk;
    ReopeningRun(q);
    BreakD(q, Reopened(q), Timeout, orders);
  }

  function XSucceeded(q: Two): DState {
    DState(Joined(q, Success, Running, {q.d}), [], [], {q.x}, {})
  }

  lemma SucceedX(q: Two)
    requires Good(q)
    ensures Succeed(Restarted(q), q.x, []) == Ok(XSucceeded(q))
  {
    var s := Restarted(q);
    var t := q.tx.(status := Success, declared := [q.d]);
    assert SetTask(s.nodes, q.x, t) == XSucceeded(q).nodes;
    assert s.completed + {q.x} == {q.x};
    assert ReleaseAll(XSucceeded(q), q.x, []) == Ok(XSucceeded(q));
  }

  /** x depends on d over a fail-closed edge and succeeds. When d fails, x is to go from SUCCESS to
      FAILED. */
  lemma FailsWhatSucceeded(q: Two, orders: Id -> seq<Id>)
    requires Good(q) && q.tx.edgeModes == map[q.d := FailClosed] && OrdersOk(XSucceeded(q).nodes, orders)
    ensures Run(States(q) + [Restarted(q)] + [XSucceeded(q)], Ops(q) + [RestartOp(q.x)] + [SucceedOp(q.x, [])])
    ensures MayHappen(XSucceeded(q), BreakOp(q.d, orders))
    ensures Break(XSucceeded(q), q.d, orders) == Err(InvalidTransition(Success, Failed))
  {
    hide Run, Break, OrdersOk, Succeed, Restart;
    ReopeningRun(q);
    RestartX(q);
    assert Step(Reopened(q), RestartOp(q.x), Restarted(q));
    Onward(States(q), Ops(q), RestartOp(q.x), Restarted(q));
    SucceedX(q);
    assert Enumerates([], Restarted(q).nodes[q.x].dependents);
    assert Step(Restarted(q), SucceedOp(q.x, []), XSucceeded(q));
    Onward(States(q) + [Restarted(q)], Ops(q) + [RestartOp(q.x)], SucceedOp(q.x, []), XSucceeded(q));
    BreakD(q, XSucceeded(q), Success, orders);
  }
}
