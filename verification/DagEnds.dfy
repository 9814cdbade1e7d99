/** What the end of a task means for each other task of the dependency scheduler. */
module DagEnds {
  import opened Graphs
  import opened Tasks
  import opened TaskGraph
  import opened DagSpec
  import opened DagCascade
  import opened DagRuns
  import opened DagFailures
  import opened DagTheorems

  // ---- failures ----

  /** What b still waits for once x has failed and taken others with it: all but the tasks that
      failed now and whose policy excuses b. */
  ghost function StillOpen(s: DState, x: Id, b: Id): set<Id>
    requires b in s.nodes
  {
    set d | d in s.nodes[b].open && !(Falls(s, x, d) && Excuses(s.nodes, d, b))
  }

  /** A task that had failed is as it was; one that fails now is FAILED; any other waits for what is
      still open, and a queued one with nothing open is READY. */
  ghost predicate ByPolicy(s: DState, s': DState, x: Id, b: Id) {
    && b in s.nodes && b in s'.nodes
    && (b in s'.failed <==> b in s.failed || Falls(s, x, b))
    && if b in s.failed && b != x then s'.nodes[b] == s.nodes[b]
       else if Falls(s, x, b) then s'.nodes[b].task.status == Failed
       else
         && s'.nodes[b].open == StillOpen(s, x, b)
         && s'.nodes[b].task.status ==
              (if b in s.queue && StillOpen(s, x, b) == {} then Ready else s.nodes[b].task.status)
  }

  lemma {:induction false} CascadeTables(s: DState, id: Id, todo: seq<Id>, orders: Id -> seq<Id>)
    requires id in s.nodes && Cascade(s, id, todo, orders).Ok?
    ensures
      var s' := Cascade(s, id, todo, orders).value;
      s'.queue == s.queue && s'.waiting == s.waiting && s'.completed == s.completed
    decreases s.nodes.Keys - s.failed, |todo|
  {
    hide EffectiveMode;
    if todo == [] {
    } else {
      var dep := todo[0];
      if dep !in s.nodes || dep in s.failed {
        CascadeTables(s, id, todo[1..], orders);
      } else {
        var mode := EffectiveMode(s.nodes[dep].task, id, s.nodes[id].task);
        if mode == Some(FailClosed) {
          var s1 := CloseOne(s, dep).value;
          assert dep in s.nodes.Keys - s.failed && dep !in s1.nodes.Keys - s1.failed;
          CascadeTables(s1, dep, orders(dep), orders);
          var s2 := Cascade(s1, dep, orders(dep), orders).value;
          assert dep !in s2.nodes.Keys - s2.failed;
          CascadeTables(s2, id, todo[1..], orders);
        } else if Waives(mode) {
          var s1 := WaiveOne(s, id, dep).value;
          assert s1.nodes.Keys - s1.failed == s.nodes.Keys - s.failed;
          CascadeTables(s1, id, todo[1..], orders);
        } else {
          CascadeTables(s, id, todo[1..], orders);
        }
      }
    }
  }

  /** Who joins the failed set within the loop is FAILED at its end. */
  lemma {:induction false} CascadeMarks(s: DState, id: Id, todo: seq<Id>, orders: Id -> seq<Id>, b: Id)
    requires id in s.nodes && Cascade(s, id, todo, orders).Ok? && b !in s.failed
    ensures
      var s' := Cascade(s, id, todo, orders).value;
      b in s'.failed ==> b in s'.nodes && s'.nodes[b].task.status == Failed
    decreases s.nodes.Keys - s.failed, |todo|
  {
    hide EffectiveMode;
    if todo == [] {
    } else {
      var dep := todo[0];
      if dep !in s.nodes || dep in s.failed {
        CascadeMarks(s, id, todo[1..], orders, b);
      } else {
        var mode := EffectiveMode(s.nodes[dep].task, id, s.nodes[id].task);
        if mode == Some(FailClosed) {
          CascadeMarksClosed(s, id, todo, orders, b);
        } else if Waives(mode) {
          var s1 := WaiveOne(s, id, dep).value;
          assert s1.nodes.Keys - s1.failed == s.nodes.Keys - s.failed;
          CascadeMarks(s1, id, todo[1..], orders, b);
        } else {
          CascadeMarks(s, id, todo[1..], orders, b);
        }
      }
    }
  }

  lemma {:induction false} CascadeMarksClosed(s: DState, id: Id, todo: seq<Id>, orders: Id -> seq<Id>, b: Id)
    requires id in s.nodes && Cascade(s, id, todo, orders).Ok? && b !in s.failed
    requires todo != [] && todo[0] in s.nodes && todo[0] !in s.failed
    requires EffectiveMode(s.nodes[todo[0]].task, id, s.nodes[id].task) == Some(FailClosed)
    ensures
      var s' := Cascade(s, id, todo, orders).value;
      b in s'.failed ==> b in s'.nodes && s'.nodes[b].task.status == Failed
    decreases s.nodes.Keys - s.failed, |todo|, 0
  {
    hide EffectiveMode;
    var dep := todo[0];
    var s1 := CloseOne(s, dep).value;
    assert dep in s.nodes.Keys - s.failed && dep !in s1.nodes.Keys - s1.failed;
    var s2 := Cascade(s1, dep, orders(dep), orders).value;
    assert dep !in s2.nodes.Keys - s2.failed;
    if b == dep {
      CascadeKeepsFailed(s1, dep, orders(dep), orders, b);
    } else {
      CascadeMarks(s1, dep, orders(dep), orders, b);
    }
    if b in s2.failed {
      CascadeKeepsFailed(s2, id, todo[1..], orders, b);
    } else {
      CascadeMarks(s2, id, todo[1..], orders, b);
    }
  }

  /** The open set of a task that does not fail loses exactly the failed tasks that excuse it. */
  lemma OpenAfter(s: DState, x: Id, orders: Id -> seq<Id>, b: Id)
    requires Inv(s) && BeingRun(s, x) && OrdersOk(s.nodes, orders) && Break(s, x, orders).Ok?
    requires b in s.nodes && b !in Break(s, x, orders).value.failed
    ensures b in Break(s, x, orders).value.nodes
    ensures Break(s, x, orders).value.nodes[b].open == StillOpen(s, x, b)
  {
    hide Inv, BeingRun, Falls, OrdersOk, SameGraph, AllSettled, FailureRaises, Cascade, Excuses, Break, Settled, Tied,
      AreDependents;
    BeingRunFacts(s, x);
    BreakIsCascade(s, x, orders);
    BreakFails(s, x, orders);
    var s1, s' := Broken(s, x), Break(s, x, orders).value;
    CascadeSettles(s1, x, orders(x), orders);
    SettledFacts(s1, s', x, orders(x));
    SameGraphTrans(s.nodes, s1.nodes, s'.nodes);
    SameGraphKeys(s.nodes, s'.nodes);
    BreakIsTied(s, x, orders);
    TiedOpen(s, s', x, b);
    forall d | d in s.nodes[b].open && Falls(s, x, d) && Excuses(s.nodes, d, b) ensures d !in s'.nodes[b].open {
      FreedIsSettled(s, s1, s', x, orders, d, b);
      ExcusesMeans(s.nodes, s'.nodes, d, b);
      SettledMeans(s', d, b);
    }
  }

  lemma SettledMeans(s: DState, y: Id, b: Id)
    requires Settled(s, y, b) && Excuses(s.nodes, y, b) && b !in s.failed
    ensures b in s.nodes && y !in s.nodes[b].open
  {
  }

  lemma BreakIsTied(s: DState, x: Id, orders: Id -> seq<Id>)
    requires Inv(s) && BeingRun(s, x) && OrdersOk(s.nodes, orders) && x in s.nodes && Break(s, x, orders).Ok?
    ensures Tied(s, Break(s, x, orders).value, x)
  {
    hide Inv, BeingRun, FailureRaises, Tied, Falls, OrdersOk, AreDependents, Cascade, Break;
    ReturnsOnlyIf(s, x, orders);
    BeingRunFacts(s, x);
    BreakIsCascade(s, x, orders);
    StartIsTied(s, x);
    XFalls(s, x);
    ListedOrders(s, x, orders);
    CascadeReturns(s, Broken(s, x), x, x, orders(x), orders);
  }

  lemma TiedOpen(s: DState, s': DState, x: Id, b: Id)
    requires Tied(s, s', x) && b in s.nodes
    ensures b in s'.nodes && s'.nodes[b].open <= s.nodes[b].open
    ensures forall d :: d in s.nodes[b].open && d !in s'.nodes[b].open ==> Falls(s, x, d) && Excuses(s.nodes, d, b)
    ensures s'.nodes[b].task.status == s.nodes[b].task.status || s'.nodes[b].task.status in {Ready, Failed}
  {
    hide Falls, Excuses;
    assert TiedAt(s, s.nodes[b], s'.nodes[b], x, b);
  }

  /** The queue and the invariant name the status of a task that has not failed. */
  lemma StatusAfter(s: DState, s': DState, x: Id, b: Id)
    requires Inv(s) && Inv(s') && s'.queue == s.queue && b in s.nodes && Tied(s, s', x) && b !in s'.failed
    ensures b in s'.nodes
    ensures s'.nodes[b].task.status ==
      if b in s.queue && s'.nodes[b].open == {} then Ready else s.nodes[b].task.status
  {
    hide EdgesAgree, OpenAgrees, NoDuplicates, HasFailedDependency, Tied, Falls, Excuses;
    TiedOpen(s, s', x, b);
    Facts(s, b);
    Facts(s', b);
    TiedFailed(s, s', x, b);
    if b in s.queue && s'.nodes[b].open != {} { assert s.nodes[b].open != {}; }
  }

  lemma TiedFailed(s: DState, s': DState, x: Id, b: Id)
    requires Tied(s, s', x) && b !in s'.failed
    ensures b !in s.failed
  {
  }

  lemma BreakAt(s: DState, x: Id, orders: Id -> seq<Id>, b: Id)
    requires Inv(s) && BeingRun(s, x) && OrdersOk(s.nodes, orders) && x in s.nodes && b in s.nodes
    requires Break(s, x, orders).Ok?
    ensures
      var s' := Break(s, x, orders).value;
      && ByPolicy(s, s', x, b) && SameGraph(s.nodes, s'.nodes)
      && s'.queue == s.queue && s'.waiting == s.waiting && s'.completed == s.completed
  {
    hide Inv, BeingRun, Falls, OrdersOk, SameGraph, Cascade, Break, Tied, StillOpen;
    BeingRunFacts(s, x);
    BreakIsCascade(s, x, orders);
    BreakGives(s, x, orders);
    BreakFails(s, x, orders);
    XFalls(s, x);
    var s1, s' := Broken(s, x), Break(s, x, orders).value;
    CascadeTables(s1, x, orders(x), orders);
    BreakIsTied(s, x, orders);
    TiedGraph(s, s', x);
    SameGraphKeys(s.nodes, s'.nodes);
    if b in s1.failed {
      CascadeKeepsFailed(s1, x, orders(x), orders, b);
    } else if b in s'.failed {
      CascadeMarks(s1, x, orders(x), orders, b);
    } else {
      OpenAfter(s, x, orders, b);
      StatusAfter(s, s', x, b);
    }
  }

  lemma TiedGraph(s: DState, s': DState, x: Id)
    requires Tied(s, s', x)
    ensures SameGraph(s.nodes, s'.nodes)
  {
  }

  lemma StepOf(states: seq<DState>, ops: seq<Op>, j: nat)
    requires Run(states, ops) && j < |ops|
    ensures |states| == |ops| + 1 && Step(states[j], ops[j], states[j + 1])
    ensures MayHappen(states[j], ops[j]) && Inv(states[j])
  {
    hide Inv, MayHappen, Outcome;
    RunKeeps(states, ops, j);
  }

  /** At any failure of any run that returns, for every task b. Who fails is the failed task and who is
      reached from it through tasks not failed before, over edges whose deciding policy is
      fail-closed: the policy of the edge, or that of the failing task if the edge has none. A task
      that does not fail loses exactly those dependencies that failed now and excuse it; a queued one
      that then waits for nothing is READY. The queues and the graph stay. */
  lemma FailureByPolicy(states: seq<DState>, ops: seq<Op>, j: nat, b: Id)
    requires Run(states, ops) && j < |ops| && ops[j].BreakOp? && b in states[j].nodes
    ensures
      var s, s' := states[j], states[j + 1];
      && ByPolicy(s, s', ops[j].id, b) && SameGraph(s.nodes, s'.nodes)
      && s'.queue == s.queue && s'.waiting == s.waiting && s'.completed == s.completed
  {
    hide Run, Inv, BeingRun, Break, ByPolicy, SameGraph, OrdersOk;
    StepOf(states, ops, j);
    var s, op := states[j], ops[j];
    BeingRunFacts(s, op.id);
    BreakGives(s, op.id, op.orders);
    BreakAt(s, op.id, op.orders, b);
  }

  /** The same for a dependent b of the failed task x, policy by policy: fail-closed fails it; open,
      degrade and fallback take x off what it waits for, and a queued task that waited for nothing else
      is READY; retry, or no policy at all, leaves x where it was. */
  lemma DirectDependent(states: seq<DState>, ops: seq<Op>, j: nat, b: Id)
    requires Run(states, ops) && j < |ops| && ops[j].BreakOp? && b in states[j].nodes && ops[j].id in states[j].nodes
    requires b in states[j].nodes[ops[j].id].dependents && b !in states[j].failed && b != ops[j].id
    ensures
      var s, s', x := states[j], states[j + 1], ops[j].id;
      && b in s'.nodes
      && (Decides(FailClosed, s.nodes[b].task, x, s.nodes[x].task) ==>
            b in s'.failed && s'.nodes[b].task.status == Failed)
      && (Excused(s.nodes[b].task, x, s.nodes[x].task) && b !in s'.failed ==>
            && x !in s'.nodes[b].open
            && (b in s.queue && s.nodes[b].open <= {x} ==> s'.nodes[b].task.status == Ready))
      && (Decides(RetryMode, s.nodes[b].task, x, s.nodes[x].task) && b !in s'.failed ==>
            (x in s'.nodes[b].open <==> x in s.nodes[b].open))
      && (x !in s.nodes[b].task.edgeModes && s.nodes[x].task.ownMode == None && b !in s'.failed ==>
            (x in s'.nodes[b].open <==> x in s.nodes[b].open))
  {
    hide Run, Falls, Step, Inv, MayHappen;
    StepOf(states, ops, j);
    FailureByPolicy(states, ops, j, b);
    var s, s', x := states[j], states[j + 1], ops[j].id;
    XFalls(s, x);
    if Decides(FailClosed, s.nodes[b].task, x, s.nodes[x].task) { CondemnedFalls(s, x, x, b); }
  }

  // ---- completions ----

  /** What the completion of x leaves of a task b: x is taken off what it waits for, and if that was
      all, the task is READY and off the waiting list. */
  predicate LetGo(s: DState, s': DState, x: Id, b: Id) {
    && b in s.nodes && b in s'.nodes
    && s'.nodes[b].open == s.nodes[b].open - {x} && s'.nodes[b].dependents == s.nodes[b].dependents
    && if s.nodes[b].open == {x} then
         && s'.nodes[b].task == s.nodes[b].task.(status := Ready, blockReason := s.nodes[b].task.tcbReason)
         && b !in s'.waiting
       else s'.nodes[b].task == s.nodes[b].task && (b in s'.waiting <==> b in s.waiting)
  }

  lemma ReleaseOneAt(s: DState, x: Id, dep: Id, b: Id)
    requires NoDuplicates(s.waiting) && b in s.nodes && x in s.nodes[b].open && ReleaseOne(s, x, dep).Ok?
    ensures
      var s' := ReleaseOne(s, x, dep).value;
      && NoDuplicates(s'.waiting)
      && if b == dep then LetGo(s, s', x, b)
         else b in s'.nodes && s'.nodes[b] == s.nodes[b] && (b in s'.waiting <==> b in s.waiting)
  {
    hide RemoveFirst, NoDuplicates, ReleaseOne;
    if dep in s.nodes && x in s.nodes[dep].open {
      ReleasedNode(s, x, dep);
      RemoveFirstDistinct(s.waiting, dep);
    } else {
      ReleaseNothing(s, x, dep);
    }
  }

  lemma ReleaseNothing(s: DState, x: Id, dep: Id)
    requires dep !in s.nodes || x !in s.nodes[dep].open
    ensures ReleaseOne(s, x, dep) == Ok(s)
  {
  }

  /** As long as b keeps x open nothing has happened to it. */
  lemma {:induction false} ReleaseAllAt(s: DState, x: Id, order: seq<Id>, b: Id)
    requires NoDuplicates(s.waiting) && NoDuplicates(order) && b in s.nodes && x in s.nodes[b].open
    requires ReleaseAll(s, x, order).Ok?
    ensures
      var s' := ReleaseAll(s, x, order).value;
      if b in order then LetGo(s, s', x, b)
      else b in s'.nodes && s'.nodes[b] == s.nodes[b] && (b in s'.waiting <==> b in s.waiting)
    decreases |order|
  {
    hide ReleaseOne, NoDuplicates, LetGo;
    if order == [] {
    } else {
      HeadTail(order);
      ReleaseOneAt(s, x, order[0], b);
      var s1 := ReleaseOne(s, x, order[0]).value;
      if b == order[0] {
        LetGoMeans(s, s1, x, b);
        ReleaseAllOther(s1, x, order[1..], b);
        LetGoFrame(s, s1, ReleaseAll(s1, x, order[1..]).value, x, b);
      } else {
        ReleaseAllAt(s1, x, order[1..], b);
        if b in order { LetGoHead(s, s1, ReleaseAll(s1, x, order[1..]).value, x, b); }
      }
    }
  }

  lemma LetGoMeans(s: DState, s': DState, x: Id, b: Id)
    requires LetGo(s, s', x, b)
    ensures b in s'.nodes && x !in s'.nodes[b].open
  {
  }

  lemma LetGoFrame(s: DState, s1: DState, s2: DState, x: Id, b: Id)
    requires LetGo(s, s1, x, b) && b in s2.nodes && s2.nodes[b] == s1.nodes[b] && (b in s2.waiting <==> b in s1.waiting)
    ensures LetGo(s, s2, x, b)
  {
  }

  lemma LetGoHead(s: DState, s1: DState, s2: DState, x: Id, b: Id)
    requires b in s.nodes && b in s1.nodes && s1.nodes[b] == s.nodes[b] && (b in s1.waiting <==> b in s.waiting)
    requires LetGo(s1, s2, x, b)
    ensures LetGo(s, s2, x, b)
  {
  }

  /** A task that does not have x open is left alone. */
  lemma {:induction false} ReleaseAllOther(s: DState, x: Id, order: seq<Id>, b: Id)
    requires b in s.nodes && x !in s.nodes[b].open && ReleaseAll(s, x, order).Ok?
    ensures
      var s' := ReleaseAll(s, x, order).value;
      b in s'.nodes && s'.nodes[b] == s.nodes[b] && (b in s'.waiting <==> b in s.waiting)
    decreases |order|
  {
    hide RemoveFirst;
    if order == [] {
    } else {
      if order[0] != b { OthersSurvive(s.waiting, order[0], b); }
      ReleaseAllOther(ReleaseOne(s, x, order[0]).value, x, order[1..], b);
    }
  }

  lemma {:induction false} ReleaseTables(s: DState, x: Id, order: seq<Id>)
    requires ReleaseAll(s, x, order).Ok?
    ensures
      var s' := ReleaseAll(s, x, order).value;
      s'.queue == s.queue && s'.failed == s.failed && s'.completed == s.completed
    decreases |order|
  {
    hide RemoveFirst;
    if order == [] {
    } else {
      ReleaseTables(ReleaseOne(s, x, order[0]).value, x, order[1..]);
    }
  }

  /** What the daemon writes between two attempts: TIMEOUT into the running task, and RUNNING when the
      next attempt begins. Everything else stays. */
  lemma DaemonWrites(states: seq<DState>, ops: seq<Op>, j: nat)
    requires Run(states, ops) && j < |ops| && (ops[j].TimeOutOp? || ops[j].RestartOp?)
    ensures
      var s, s', x := states[j], states[j + 1], ops[j].id;
      && x in s.nodes && x in s'.nodes
      && s'.nodes[x].task.status == (if ops[j].TimeOutOp? then Timeout else Running)
      && s'.nodes[x] == s.nodes[x].(task := s.nodes[x].task.(status := s'.nodes[x].task.status,
                                                           blockReason := s.nodes[x].task.tcbReason))
      && s' == s.(nodes := s.nodes[x := s'.nodes[x]])
  {
    hide Run, Inv;
    StepOf(states, ops, j);
  }
}
