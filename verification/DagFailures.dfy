/** When fail_task asks for a forbidden transition. The condition is on the state before the call and
    names no order in which dependents are visited. */
module DagFailures {
  import opened Graphs
  import opened Tasks
  import opened TaskGraph
  import opened DagSpec
  import opened DagCascade
  import opened DagRuns

  // ---- the condition ----

  /** y would fail with x: it is reached over fail-closed edges through tasks not failed before. */
  ghost predicate Falls(s: DState, x: Id, y: Id) {
    Reaches(FailGraph(s.nodes, s.failed), x, y)
  }

  /** The failure of a fails b. */
  ghost predicate Condemns(n: Nodes, a: Id, b: Id) {
    a in n && b in n && b in n[a].dependents && Decides(FailClosed, n[b].task, a, n[a].task)
  }

  /** The failure of a no longer holds b back. */
  ghost predicate Excuses(n: Nodes, a: Id, b: Id) {
    a in n && b in n && b in n[a].dependents && Excused(n[b].task, a, n[a].task)
  }

  predicate HandedOut(status: Status) {
    status in {Running, Timeout, Success}
  }

  /** b has succeeded and is to fail. */
  ghost predicate FailsDone(s: DState, x: Id, a: Id, b: Id) {
    Falls(s, x, a) && Condemns(s.nodes, a, b) && b !in s.failed && s.nodes[b].task.status == Success
  }

  /** b was handed out, does not fail, and loses all it waits for. */
  ghost predicate FreesHandedOut(s: DState, x: Id, a: Id, b: Id) {
    && Falls(s, x, a) && Excuses(s.nodes, a, b) && b !in s.failed && !Falls(s, x, b)
    && HandedOut(s.nodes[b].task.status)
    && forall d :: d in s.nodes[b].open ==> Falls(s, x, d) && Excuses(s.nodes, d, b)
  }

  ghost predicate FailureRaises(s: DState, x: Id) {
    exists a, b :: FailsDone(s, x, a, b) || FreesHandedOut(s, x, a, b)
  }

  // ---- who falls ----

  lemma LastEdge(g: Graph, x: Id, b: Id) returns (c: Id)
    requires Reaches(g, x, b) && x != b
    ensures Reaches(g, x, c) && Edge(g, c, b)
  {
    var p :| Joins(g, p, x, b);
    var n := |p| - 1;
    assert n >= 1;
    c := p[n - 1];
    assert Edge(g, p[n - 1], p[n]);
    var q := p[..n];
    assert IsPath(g, q);
    assert Joins(g, q, x, c);
  }

  lemma FallsIsNew(s: DState, x: Id, y: Id)
    requires Falls(s, x, y) && y != x
    ensures y !in s.failed && y in s.nodes
  {
    var c := LastEdge(FailGraph(s.nodes, s.failed), x, y);
    EdgeMeans(s.nodes, s.failed, c, y);
  }

  lemma CondemnedFalls(s: DState, x: Id, a: Id, b: Id)
    requires Falls(s, x, a) && Condemns(s.nodes, a, b) && b !in s.failed
    ensures Falls(s, x, b)
  {
    EdgeMeans(s.nodes, s.failed, a, b);
    ReachesEdge(FailGraph(s.nodes, s.failed), x, a, b);
  }

  lemma XFalls(s: DState, x: Id)
    ensures Falls(s, x, x)
  {
    ReachesSelf(FailGraph(s.nodes, s.failed), x);
  }

  // ---- a cascade that returns has settled everything ----

  ghost predicate CalmAt(n: Node, n': Node) {
    && n'.open <= n.open
    && (n'.task.status == n.task.status || n'.task.status in {Ready, Failed})
    && (HandedOut(n'.task.status) && n'.open == {} ==> n.open == {})
  }

  /** Open sets only shrink, and do not run empty for a task that stays handed out. */
  ghost predicate Calm(s: DState, s': DState) {
    && SameGraph(s.nodes, s'.nodes) && s.failed <= s'.failed && s'.completed == s.completed
    && forall b :: b in s.nodes ==> CalmAt(s.nodes[b], s'.nodes[b])
  }

  lemma CalmTrans(a: DState, b: DState, c: DState)
    requires Calm(a, b) && Calm(b, c)
    ensures Calm(a, c)
  {
    SameGraphTrans(a.nodes, b.nodes, c.nodes);
    forall k | k in a.nodes ensures CalmAt(a.nodes[k], c.nodes[k]) {
      assert CalmAt(a.nodes[k], b.nodes[k]) && CalmAt(b.nodes[k], c.nodes[k]);
    }
  }

  lemma CalmSelf(s: DState)
    ensures Calm(s, s)
  {
    SameGraphSelf(s.nodes);
  }

  /** y has been taken off what b waits for. */
  ghost predicate Settled(s: DState, y: Id, b: Id) {
    Excuses(s.nodes, y, b) && b !in s.failed ==>
      y !in s.nodes[b].open && (HandedOut(s.nodes[b].task.status) ==> s.nodes[b].open != {})
  }

  lemma SettledStays(s: DState, s': DState, y: Id, b: Id)
    requires Settled(s, y, b) && Calm(s, s')
    ensures Settled(s', y, b)
  {
    if b in s.nodes { assert CalmAt(s.nodes[b], s'.nodes[b]); }
  }

  lemma WaiveIsCalm(s: DState, y: Id, dep: Id)
    requires dep in s.nodes && WaiveOne(s, y, dep).Ok?
    ensures Calm(s, WaiveOne(s, y, dep).value) && Settled(WaiveOne(s, y, dep).value, y, dep)
    ensures WaiveOne(s, y, dep).value.failed == s.failed
  {
    hide WaiveOne;
    WaivedNode(s, y, dep);
  }

  lemma CloseIsCalm(s: DState, dep: Id)
    requires dep in s.nodes && CloseOne(s, dep).Ok?
    ensures Calm(s, CloseOne(s, dep).value) && CloseOne(s, dep).value.failed == s.failed + {dep}
  {
  }

  ghost predicate AllSettled(s: DState, s': DState, id: Id, todo: seq<Id>) {
    && Calm(s, s')
    && (forall b :: b in todo ==> Settled(s', id, b))
    && (forall y, b :: y in s'.failed && y !in s.failed && y in s'.nodes && b in s'.nodes[y].dependents ==>
          Settled(s', y, b))
  }

  /** A step that settles the first dependent, then the rest. */
  lemma SettledThen(s: DState, s1: DState, s': DState, id: Id, todo: seq<Id>)
    requires todo != [] && Calm(s, s1) && s1.failed == s.failed && AllSettled(s1, s', id, todo[1..])
    requires Settled(s1, id, todo[0])
    ensures AllSettled(s, s', id, todo)
  {
    hide Calm, Settled;
    CalmTrans(s, s1, s');
    SettledStays(s1, s', id, todo[0]);
    forall b | b in todo ensures Settled(s', id, b) {
      assert b == todo[0] || b in todo[1..];
    }
  }

  /** Closing dep, settling what depends on it, then the rest. */
  lemma SettledClose(s: DState, s1: DState, s2: DState, s': DState, id: Id, todo: seq<Id>, order: seq<Id>)
    requires todo != [] && Calm(s, s1) && s1.failed == s.failed + {todo[0]}
    requires AllSettled(s1, s2, todo[0], order) && AllSettled(s2, s', id, todo[1..])
    requires todo[0] in s'.nodes && forall b :: b in s'.nodes[todo[0]].dependents ==> b in order
    ensures AllSettled(s, s', id, todo)
  {
    var dep := todo[0];
    CalmFacts(s1, s2);
    CalmFacts(s2, s');
    hide Calm, Settled;
    CalmTrans(s, s1, s2);
    CalmTrans(s, s2, s');
    forall b | b in todo ensures Settled(s', id, b) {
      if b == dep { FailedIsSettled(s', id, b); } else { assert b in todo[1..]; }
    }
    forall y, b | y in s'.failed && y !in s.failed && y in s'.nodes && b in s'.nodes[y].dependents
      ensures Settled(s', y, b)
    {
      if y in s2.failed {
        assert Settled(s2, y, b);
        SettledStays(s2, s', y, b);
      }
    }
  }

  lemma CalmFacts(s: DState, s': DState)
    requires Calm(s, s')
    ensures s.failed <= s'.failed && s'.nodes.Keys == s.nodes.Keys
    ensures forall y :: y in s.nodes ==> s'.nodes[y].dependents == s.nodes[y].dependents
  {
  }

  lemma FailedIsSettled(s: DState, y: Id, b: Id)
    requires b in s.failed
    ensures Settled(s, y, b)
  {
  }

  lemma {:induction false} CascadeSettles(s: DState, id: Id, todo: seq<Id>, orders: Id -> seq<Id>)
    requires id in s.nodes && OrdersOk(s.nodes, orders) && Cascade(s, id, todo, orders).Ok?
    ensures AllSettled(s, Cascade(s, id, todo, orders).value, id, todo)
    decreases s.nodes.Keys - s.failed, |todo|
  {
    hide Calm, Settled, OrdersOk, CloseOne, WaiveOne, SameGraph, AllSettled;
    var s' := Cascade(s, id, todo, orders).value;
    if todo == [] {
      NothingToSettle(s, id);
    } else {
      var dep := todo[0];
      if dep in s.nodes && dep !in s.failed && ModeWaives(s, id, dep) {
        var s1 := WaiveOne(s, id, dep).value;
        WaiveIsCalm(s, id, dep);
        CalmOrders(s, s1, orders);
        assert s1.nodes.Keys - s1.failed == s.nodes.Keys - s.failed;
        CascadeSettles(s1, id, todo[1..], orders);
        SettledThen(s, s1, s', id, todo);
      } else if dep in s.nodes && dep !in s.failed && ModeCloses(s, id, dep) {
        CascadeSettlesClosed(s, id, todo, orders);
      } else {
        CascadeSettles(s, id, todo[1..], orders);
        CalmSelf(s);
        SkippedIsSettled(s, id, dep);
        SettledThen(s, s, s', id, todo);
      }
    }
  }

  ghost predicate ModeWaives(s: DState, id: Id, dep: Id)
    requires id in s.nodes && dep in s.nodes
  {
    Waives(EffectiveMode(s.nodes[dep].task, id, s.nodes[id].task))
  }

  ghost predicate ModeCloses(s: DState, id: Id, dep: Id)
    requires id in s.nodes && dep in s.nodes
  {
    EffectiveMode(s.nodes[dep].task, id, s.nodes[id].task) == Some(FailClosed)
  }

  lemma SkippedIsSettled(s: DState, id: Id, dep: Id)
    requires id in s.nodes && (dep !in s.nodes || dep in s.failed || !ModeWaives(s, id, dep))
    ensures Settled(s, id, dep)
  {
  }

  lemma NothingToSettle(s: DState, id: Id)
    ensures AllSettled(s, s, id, [])
  {
    CalmSelf(s);
  }

  lemma CalmOrders(s: DState, s1: DState, orders: Id -> seq<Id>)
    requires Calm(s, s1) && OrdersOk(s.nodes, orders)
    ensures OrdersOk(s1.nodes, orders) && s1.nodes.Keys == s.nodes.Keys
    ensures forall y, b :: y in s1.nodes && b in s1.nodes[y].dependents ==> b in orders(y)
  {
    OrdersFrame(s.nodes, s1.nodes, orders);
    forall y, b | y in s1.nodes && b in s1.nodes[y].dependents ensures b in orders(y) {
      assert b in Elements(orders(y));
    }
  }

  lemma {:induction false} CascadeSettlesClosed(s: DState, id: Id, todo: seq<Id>, orders: Id -> seq<Id>)
    requires id in s.nodes && OrdersOk(s.nodes, orders) && Cascade(s, id, todo, orders).Ok?
    requires todo != [] && todo[0] in s.nodes && todo[0] !in s.failed && ModeCloses(s, id, todo[0])
    ensures AllSettled(s, Cascade(s, id, todo, orders).value, id, todo)
    decreases s.nodes.Keys - s.failed, |todo|, 0
  {
    hide Calm, Settled, OrdersOk, CloseOne, WaiveOne, SameGraph, AllSettled;
    var dep := todo[0];
    var s1 := CloseOne(s, dep).value;
    CloseIsCalm(s, dep);
    CalmOrders(s, s1, orders);
    assert dep in s.nodes.Keys - s.failed && dep !in s1.nodes.Keys - s1.failed;
    CascadeSettles(s1, dep, orders(dep), orders);
    var s2 := Cascade(s1, dep, orders(dep), orders).value;
    SettledIsCalm(s1, s2, dep, orders(dep));
    CalmOrders(s1, s2, orders);
    assert dep !in s2.nodes.Keys - s2.failed;
    CascadeSettles(s2, id, todo[1..], orders);
    var s' := Cascade(s2, id, todo[1..], orders).value;
    SettledIsCalm(s2, s', id, todo[1..]);
    CalmOrders(s2, s', orders);
    SettledClose(s, s1, s2, s', id, todo, orders(dep));
  }

  lemma SettledIsCalm(s: DState, s': DState, id: Id, todo: seq<Id>)
    requires AllSettled(s, s', id, todo)
    ensures Calm(s, s')
  {
  }

  // ---- a call that returns: the condition does not hold ----

  /** The state in which the loop starts. */
  function Broken(s: DState, x: Id): DState
    requires x in s.nodes
  {
    var t := s.nodes[x].task;
    s.(nodes := SetTask(s.nodes, x, t.(status := Failed, blockReason := t.tcbReason)), failed := s.failed + {x})
  }

  lemma BreakIsCascade(s: DState, x: Id, orders: Id -> seq<Id>)
    requires x in s.nodes && CanMove(s.nodes[x].task.status, Failed) && OrdersOk(s.nodes, orders)
    ensures x in Broken(s, x).nodes && Break(s, x, orders) == Cascade(Broken(s, x), x, orders(x), orders)
    ensures SameGraph(s.nodes, Broken(s, x).nodes) && OrdersOk(Broken(s, x).nodes, orders)
    ensures forall b :: b in s.nodes && b != x ==> Broken(s, x).nodes[b] == s.nodes[b]
    ensures Broken(s, x).nodes[x].open == s.nodes[x].open && Broken(s, x).nodes[x].task.status == Failed
  {
    hide Cascade, SameGraph, OrdersOk;
    BrokenFacts(s, x);
    OrdersFrame(s.nodes, Broken(s, x).nodes, orders);
  }

  lemma BrokenFacts(s: DState, x: Id)
    requires x in s.nodes
    ensures SameGraph(s.nodes, Broken(s, x).nodes) && x in Broken(s, x).nodes
    ensures forall b :: b in s.nodes && b != x ==> Broken(s, x).nodes[b] == s.nodes[b]
    ensures Broken(s, x).nodes[x].open == s.nodes[x].open && Broken(s, x).nodes[x].task.status == Failed
  {
  }

  lemma BeingRunFacts(s: DState, x: Id)
    requires Inv(s) && BeingRun(s, x)
    ensures x in s.nodes && CanMove(s.nodes[x].task.status, Failed) && x !in s.completed
  {
    hide EdgesAgree, OpenAgrees, NoDuplicates, HasFailedDependency;
    Facts(s, x);
  }

  /** What the failed set is after a call that returns. */
  lemma BreakFails(s: DState, x: Id, orders: Id -> seq<Id>)
    requires Inv(s) && BeingRun(s, x) && OrdersOk(s.nodes, orders) && Break(s, x, orders).Ok?
    ensures forall y :: y in Break(s, x, orders).value.failed <==> y in s.failed || Falls(s, x, y)
  {
    hide Inv, Reaches, FailGraph, Fail, OrdersOk;
    BeingRunFacts(s, x);
    var t := Transition(s.nodes[x].task, Failed).value;
    var s1 := s.(nodes := SetTask(s.nodes, x, t));
    assert SameGraph(s.nodes, s1.nodes);
    OrdersFrame(s.nodes, s1.nodes, orders);
    FailIsExactClosure(s1, x, orders);
    FailGraphFrame(s.nodes, s1.nodes, s.failed);
  }

  lemma DoneCannotFail(s: DState, s': DState, x: Id, a: Id, b: Id)
    requires Inv(s) && Inv(s') && SameGraph(s.nodes, s'.nodes) && s'.completed == s.completed
    requires forall y :: Falls(s, x, y) ==> y in s'.failed
    ensures !FailsDone(s, x, a, b)
  {
    hide EdgesAgree, OpenAgrees, NoDuplicates, HasFailedDependency, Falls;
    if FailsDone(s, x, a, b) {
      CondemnedFalls(s, x, a, b);
      Facts(s, b);
      Facts(s', b);
    }
  }

  lemma HandedOutStays(s: DState, s': DState, b: Id)
    requires Inv(s) && Inv(s') && SameGraph(s.nodes, s'.nodes) && s'.queue == s.queue
    requires b in s.nodes && HandedOut(s.nodes[b].task.status) && b !in s'.failed
    ensures b in s'.nodes && HandedOut(s'.nodes[b].task.status)
  {
    hide EdgesAgree, OpenAgrees, NoDuplicates, HasFailedDependency;
    Facts(s, b);
    Facts(s', b);
  }

  lemma FreedIsSettled(s: DState, s1: DState, s': DState, x: Id, orders: Id -> seq<Id>, y: Id, b: Id)
    requires x in s.nodes && s1 == Broken(s, x) && AllSettled(s1, s', x, orders(x)) && Falls(s, x, y)
    requires OrdersOk(s.nodes, orders) && SameGraph(s.nodes, s'.nodes) && Excuses(s.nodes, y, b)
    requires forall z :: z in s'.failed <==> z in s.failed || Falls(s, x, z)
    ensures Settled(s', y, b)
  {
    hide Calm, Settled, Falls;
    if y == x {
      assert b in Elements(orders(x));
    } else {
      FallsIsNew(s, x, y);
    }
  }

  lemma HandedOutIsNotFreed(s: DState, s1: DState, s': DState, x: Id, orders: Id -> seq<Id>, a: Id, b: Id)
    requires x in s.nodes && s1 == Broken(s, x) && AllSettled(s1, s', x, orders(x)) && OrdersOk(s.nodes, orders)
    requires Inv(s) && Inv(s') && SameGraph(s.nodes, s'.nodes) && s'.queue == s.queue
    requires forall z :: z in s'.failed <==> z in s.failed || Falls(s, x, z)
    ensures !FreesHandedOut(s, x, a, b)
  {
    hide Inv, Falls, Excuses, OrdersOk, SameGraph, AllSettled;
    if FreesHandedOut(s, x, a, b) {
      ExcusesMeans(s.nodes, s'.nodes, a, b);
      HandedOutStays(s, s', b);
      FreedIsSettled(s, s1, s', x, orders, a, b);
      OpenShrinks(s, s1, s', x, orders, b);
      forall d | d in s'.nodes[b].open ensures false {
        FreedIsSettled(s, s1, s', x, orders, d, b);
        ExcusesMeans(s.nodes, s'.nodes, d, b);
      }
    }
  }

  lemma ExcusesMeans(n: Nodes, n': Nodes, a: Id, b: Id)
    requires SameGraph(n, n') && Excuses(n, a, b)
    ensures Excuses(n', a, b) && b in n && b in n'
  {
  }

  lemma OpenShrinks(s: DState, s1: DState, s': DState, x: Id, orders: Id -> seq<Id>, b: Id)
    requires x in s.nodes && s1 == Broken(s, x) && AllSettled(s1, s', x, orders(x)) && b in s.nodes
    ensures b in s'.nodes && s'.nodes[b].open <= s.nodes[b].open
  {
    assert CalmAt(s1.nodes[b], s'.nodes[b]);
  }

  lemma ReturnsOnlyIf(s: DState, x: Id, orders: Id -> seq<Id>)
    requires Inv(s) && BeingRun(s, x) && OrdersOk(s.nodes, orders) && Break(s, x, orders).Ok?
    ensures !FailureRaises(s, x)
  {
    hide Inv, Falls, OrdersOk, SameGraph, AllSettled, FailsDone, FreesHandedOut, Cascade, NoneReopened;
    BeingRunFacts(s, x);
    BreakIsCascade(s, x, orders);
    BreakGives(s, x, orders);
    BreakFails(s, x, orders);
    var s1, s' := Broken(s, x), Break(s, x, orders).value;
    CascadeSettles(s1, x, orders(x), orders);
    SettledFacts(s1, s', x, orders(x));
    SameGraphTrans(s.nodes, s1.nodes, s'.nodes);
    forall a, b ensures !FailsDone(s, x, a, b) && !FreesHandedOut(s, x, a, b) {
      DoneCannotFail(s, s', x, a, b);
      HandedOutIsNotFreed(s, s1, s', x, orders, a, b);
    }
  }

  lemma SettledFacts(s: DState, s': DState, id: Id, todo: seq<Id>)
    requires AllSettled(s, s', id, todo)
    ensures SameGraph(s.nodes, s'.nodes) && s'.completed == s.completed
  {
  }

  // ---- the condition does not hold: the call returns ----

  ghost predicate TiedAt(s: DState, n: Node, n': Node, x: Id, b: Id) {
    && n'.open <= n.open
    && (forall d :: d in n.open && d !in n'.open ==> Falls(s, x, d) && Excuses(s.nodes, d, b))
    && (n'.task.status == n.task.status || n'.task.status in {Ready, Failed})
  }

  /** A state within the call: who has failed since falls, and what was taken off an open set was
      excused by a task that falls. */
  ghost predicate Tied(s: DState, c: DState, x: Id) {
    && SameGraph(s.nodes, c.nodes) && s.failed <= c.failed && x in c.failed
    && (forall y :: y in c.failed ==> y in s.failed || Falls(s, x, y))
    && (forall b :: b in s.nodes ==> TiedAt(s, s.nodes[b], c.nodes[b], x, b))
  }

  /** Who falls and has not completed is open for those it condemns. */
  lemma FallingIsOpen(s: DState, x: Id, c: Id, b: Id)
    requires Inv(s) && BeingRun(s, x) && !FailureRaises(s, x) && Falls(s, x, c) && Condemns(s.nodes, c, b)
    ensures c in s.nodes[b].open
  {
    hide QueueAgrees, Acyclic, Falls, HasFailedDependency;
    BeingRunFacts(s, x);
    if c != x {
      FallsIsNew(s, x, c);
      NotDone(s, x, c);
    }
    assert Depends(s.nodes, b, c);
    assert OpenOk(s, b);
  }

  lemma NotDone(s: DState, x: Id, c: Id)
    requires Inv(s) && !FailureRaises(s, x) && Falls(s, x, c) && c != x && c in s.nodes
    ensures c !in s.completed
  {
    hide EdgesAgree, OpenAgrees, NoDuplicates, HasFailedDependency, FailGraph;
    var a := LastEdge(FailGraph(s.nodes, s.failed), x, c);
    EdgeMeans(s.nodes, s.failed, a, c);
    Facts(s, c);
    assert !FailsDone(s, x, a, c);
  }

  /** A task all of whose dependencies excuse it does not fall. */
  lemma ExcusedStands(s: DState, x: Id, b: Id)
    requires Inv(s) && BeingRun(s, x) && !FailureRaises(s, x) && b != x && b in s.nodes
    requires forall d :: d in s.nodes[b].open ==> Excuses(s.nodes, d, b)
    ensures !Falls(s, x, b)
  {
    hide Inv, BeingRun, FailureRaises, FailGraph;
    if Falls(s, x, b) {
      var c := LastEdge(FailGraph(s.nodes, s.failed), x, b);
      EdgeMeans(s.nodes, s.failed, c, b);
      FallingIsOpen(s, x, c, b);
    }
  }

  lemma StatusKnown(s: DState, b: Id)
    requires Inv(s) && b in s.nodes
    ensures s.nodes[b].task.status in {Pending, Ready, Running, Timeout, Success, Failed}
  {
    hide EdgesAgree, OpenAgrees, NoDuplicates, HasFailedDependency;
    Facts(s, b);
  }

  lemma CloseReturns(s: DState, c: DState, x: Id, y: Id, dep: Id)
    requires Inv(s) && !FailureRaises(s, x) && Tied(s, c, x) && Falls(s, x, y)
    requires Condemns(s.nodes, y, dep) && dep !in c.failed
    ensures dep in c.nodes && CloseOne(c, dep).Ok?
    ensures Tied(s, CloseOne(c, dep).value, x) && CloseOne(c, dep).value.failed == c.failed + {dep}
  {
    hide Inv, Falls, FailureRaises;
    StatusKnown(s, dep);
    NoneDone(s, x, y, dep);
    assert TiedAt(s, s.nodes[dep], c.nodes[dep], x, dep);
    CondemnedFalls(s, x, y, dep);
    var c' := CloseOne(c, dep).value;
    forall b | b in s.nodes ensures TiedAt(s, s.nodes[b], c'.nodes[b], x, b) {
      assert TiedAt(s, s.nodes[b], c.nodes[b], x, b);
    }
  }

  lemma NoneDone(s: DState, x: Id, a: Id, b: Id)
    requires !FailureRaises(s, x) && Falls(s, x, a) && Condemns(s.nodes, a, b) && b !in s.failed
    ensures s.nodes[b].task.status != Success
  {
    hide Falls, Condemns;
    assert !FailsDone(s, x, a, b);
  }

  lemma NoneFreed(s: DState, x: Id, a: Id, b: Id)
    requires Inv(s) && BeingRun(s, x) && !FailureRaises(s, x) && Falls(s, x, a) && Excuses(s.nodes, a, b)
    requires b !in s.failed && b != x
    requires forall d :: d in s.nodes[b].open ==> Falls(s, x, d) && Excuses(s.nodes, d, b)
    ensures !HandedOut(s.nodes[b].task.status)
  {
    hide Inv, BeingRun, Falls;
    ExcusedStands(s, x, b);
    assert !FreesHandedOut(s, x, a, b);
  }

  lemma WaiveReturns(s: DState, c: DState, x: Id, y: Id, dep: Id)
    requires Inv(s) && BeingRun(s, x) && !FailureRaises(s, x) && Tied(s, c, x) && Falls(s, x, y)
    requires Excuses(s.nodes, y, dep) && dep !in c.failed
    ensures dep in c.nodes && WaiveOne(c, y, dep).Ok?
    ensures Tied(s, WaiveOne(c, y, dep).value, x) && WaiveOne(c, y, dep).value.failed == c.failed
  {
    hide Inv, BeingRun, Falls, FailureRaises, WaiveOne, Excuses;
    ExcusesKnown(s.nodes, y, dep);
    StatusKnown(s, dep);
    WaivedNode(c, y, dep);
    assert TiedAt(s, s.nodes[dep], c.nodes[dep], x, dep);
    if c.nodes[dep].open - {y} == {} && c.nodes[dep].task.status !in {Ready, Failed} {
      forall d | d in s.nodes[dep].open ensures Falls(s, x, d) && Excuses(s.nodes, d, dep) {
        if d in c.nodes[dep].open { assert d !in c.nodes[dep].open - {y}; }
      }
      NoneFreed(s, x, y, dep);
    }
    TiedWaive(s, c, x, y, dep);
  }

  lemma ExcusesKnown(n: Nodes, a: Id, b: Id)
    requires Excuses(n, a, b)
    ensures a in n && b in n
  {
  }

  lemma TiedWaive(s: DState, c: DState, x: Id, y: Id, dep: Id)
    requires Tied(s, c, x) && Falls(s, x, y) && Excuses(s.nodes, y, dep) && dep in c.nodes && WaiveOne(c, y, dep).Ok?
    ensures Tied(s, WaiveOne(c, y, dep).value, x) && WaiveOne(c, y, dep).value.failed == c.failed
  {
    hide Falls, WaiveOne, Excuses;
    WaivedNode(c, y, dep);
    var c' := WaiveOne(c, y, dep).value;
    forall b | b in s.nodes ensures TiedAt(s, s.nodes[b], c'.nodes[b], x, b) {
      assert TiedAt(s, s.nodes[b], c.nodes[b], x, b);
    }
  }

  /** The listed tasks depend on y. */
  ghost predicate AreDependents(s: DState, y: Id, todo: seq<Id>) {
    y in s.nodes && forall b :: b in todo ==> b in s.nodes[y].dependents
  }

  lemma ListedTail(s: DState, y: Id, todo: seq<Id>)
    requires AreDependents(s, y, todo) && todo != []
    ensures todo[0] in s.nodes[y].dependents && AreDependents(s, y, todo[1..])
  {
    assert todo[0] in todo;
  }

  lemma ListedOrders(s: DState, y: Id, orders: Id -> seq<Id>)
    requires y in s.nodes && OrdersOk(s.nodes, orders)
    ensures AreDependents(s, y, orders(y))
  {
    forall b | b in orders(y) ensures b in s.nodes[y].dependents {
      assert b in Elements(orders(y));
    }
  }

  lemma ModesTied(s: DState, c: DState, x: Id, y: Id, dep: Id)
    requires Tied(s, c, x) && y in s.nodes && dep in s.nodes
    ensures y in c.nodes && dep in c.nodes
    ensures EffectiveMode(c.nodes[dep].task, y, c.nodes[y].task) == EffectiveMode(s.nodes[dep].task, y, s.nodes[y].task)
  {
  }

  lemma TiedKeys(s: DState, c: DState, x: Id, orders: Id -> seq<Id>)
    requires Tied(s, c, x) && OrdersOk(s.nodes, orders)
    ensures c.nodes.Keys == s.nodes.Keys && OrdersOk(c.nodes, orders)
  {
    OrdersFrame(s.nodes, c.nodes, orders);
  }

  lemma {:induction false} CascadeReturns(s: DState, c: DState, x: Id, y: Id, todo: seq<Id>, orders: Id -> seq<Id>)
    requires Inv(s) && BeingRun(s, x) && !FailureRaises(s, x) && Tied(s, c, x) && Falls(s, x, y)
    requires OrdersOk(s.nodes, orders) && AreDependents(s, y, todo) && y in c.nodes
    ensures Cascade(c, y, todo, orders).Ok? && Tied(s, Cascade(c, y, todo, orders).value, x)
    decreases c.nodes.Keys - c.failed, |todo|
  {
    hide Inv, BeingRun, FailureRaises, Tied, Falls, OrdersOk, AreDependents, WaiveOne, CloseOne;
    if todo == [] {
    } else {
      var dep := todo[0];
      ListedTail(s, y, todo);
      ListedKnown(s, y, todo);
      TiedKeys(s, c, x, orders);
      if dep !in c.nodes || dep in c.failed {
        CascadeReturns(s, c, x, y, todo[1..], orders);
      } else {
        ModesTied(s, c, x, y, dep);
        var mode := EffectiveMode(c.nodes[dep].task, y, c.nodes[y].task);
        if mode == Some(FailClosed) {
          CascadeReturnsClosed(s, c, x, y, todo, orders);
        } else if Waives(mode) {
          WaiveReturns(s, c, x, y, dep);
          var c1 := WaiveOne(c, y, dep).value;
          TiedKeys(s, c1, x, orders);
          assert c1.nodes.Keys - c1.failed == c.nodes.Keys - c.failed;
          CascadeReturns(s, c1, x, y, todo[1..], orders);
        } else {
          CascadeReturns(s, c, x, y, todo[1..], orders);
        }
      }
    }
  }

  lemma ListedKnown(s: DState, y: Id, todo: seq<Id>)
    requires AreDependents(s, y, todo)
    ensures y in s.nodes
  {
  }

  lemma {:induction false} CascadeReturnsClosed(s: DState, c: DState, x: Id, y: Id, todo: seq<Id>,
                                                orders: Id -> seq<Id>)
    requires Inv(s) && BeingRun(s, x) && !FailureRaises(s, x) && Tied(s, c, x) && Falls(s, x, y)
    requires OrdersOk(s.nodes, orders) && AreDependents(s, y, todo) && y in c.nodes && y in s.nodes
    requires todo != [] && todo[0] in c.nodes && todo[0] in s.nodes && todo[0] !in c.failed
    requires todo[0] in s.nodes[y].dependents && AreDependents(s, y, todo[1..])
    requires EffectiveMode(c.nodes[todo[0]].task, y, c.nodes[y].task) == Some(FailClosed)
    requires EffectiveMode(s.nodes[todo[0]].task, y, s.nodes[y].task) == Some(FailClosed)
    ensures Cascade(c, y, todo, orders).Ok? && Tied(s, Cascade(c, y, todo, orders).value, x)
    decreases c.nodes.Keys - c.failed, |todo|, 0
  {
    hide Inv, BeingRun, FailureRaises, Tied, Falls, OrdersOk, AreDependents, WaiveOne, CloseOne;
    var dep := todo[0];
    CloseReturns(s, c, x, y, dep);
    NewlyFallen(s, c, x, y, dep);
    var c1 := CloseOne(c, dep).value;
    TiedKeys(s, c, x, orders);
    TiedKeys(s, c1, x, orders);
    ListedOrders(s, dep, orders);
    assert dep in c.nodes.Keys - c.failed && dep !in c1.nodes.Keys - c1.failed;
    CascadeReturns(s, c1, x, dep, orders(dep), orders);
    var c2 := Cascade(c1, dep, orders(dep), orders).value;
    TiedKeys(s, c2, x, orders);
    assert dep !in c2.nodes.Keys - c2.failed;
    CascadeReturns(s, c2, x, y, todo[1..], orders);
  }

  lemma NewlyFallen(s: DState, c: DState, x: Id, y: Id, dep: Id)
    requires Tied(s, c, x) && Falls(s, x, y) && Condemns(s.nodes, y, dep) && dep !in c.failed
    ensures Falls(s, x, dep)
  {
    hide Falls;
    CondemnedFalls(s, x, y, dep);
  }

  lemma StartIsTied(s: DState, x: Id)
    requires x in s.nodes
    ensures Tied(s, Broken(s, x), x)
  {
    hide Falls;
    XFalls(s, x);
    var c := Broken(s, x);
    forall b | b in s.nodes ensures TiedAt(s, s.nodes[b], c.nodes[b], x, b) {
    }
  }

  lemma ReturnsIf(s: DState, x: Id, orders: Id -> seq<Id>)
    requires Inv(s) && BeingRun(s, x) && OrdersOk(s.nodes, orders) && !FailureRaises(s, x)
    ensures x in s.nodes && Break(s, x, orders).Ok?
  {
    hide Inv, BeingRun, FailureRaises, Tied, Falls, OrdersOk, AreDependents, Cascade, Break;
    BeingRunFacts(s, x);
    BreakIsCascade(s, x, orders);
    StartIsTied(s, x);
    XFalls(s, x);
    ListedOrders(s, x, orders);
    CascadeReturns(s, Broken(s, x), x, x, orders(x), orders);
  }

  // ---- failing a task ----

  /** Failing a task the daemon works on, with its whole cascade, asks for a forbidden transition
      exactly if it would fail a task that has succeeded, or take off everything that a task waits
      for that was handed out and does not fail; otherwise it keeps the invariant. In which order
      the dependents are visited does not matter. */
  lemma BreakKeeps(s: DState, x: Id, orders: Id -> seq<Id>)
    requires Inv(s) && BeingRun(s, x) && OrdersOk(s.nodes, orders)
    ensures Break(s, x, orders).Ok? <==> !FailureRaises(s, x)
    ensures
      match Break(s, x, orders)
      case Err(e) => e.InvalidTransition?
      case Ok(s') => Inv(s') && s'.queue == s.queue && (NoneReopened(s) ==> NoneReopened(s'))
    ensures NoneReopened(s) ==> !FailureRaises(s, x)
  {
    hide Inv, OrdersOk, Break, NoneReopened, FailureRaises;
    BreakGives(s, x, orders);
    if Break(s, x, orders).Ok? { ReturnsOnlyIf(s, x, orders); }
    if !FailureRaises(s, x) { ReturnsIf(s, x, orders); }
  }
}
