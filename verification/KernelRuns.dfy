/** What every run of the queue scheduler keeps. */
module KernelRuns {
  import opened Graphs
  import opened Tasks
  import opened TaskGraph
  import opened KernelSpec

  // ---- invariant ----

  /** What the invariant is about: whether all refusals so far have carried a reason, and which tasks
      have been given dependencies after they were handed out. */
  datatype Terms = Terms(explained: bool, reopened: set<Id>)

  const PLAIN := Terms(false, {})
  const EXPLAINED := Terms(true, {})

  /** A task's status says exactly which queue it sits in. A running task is RUNNING, or TIMEOUT
      between two attempts. A task failed by a fail-closed edge sits
      in none: fail_task strips it from the failed queue right after adding it. */
  ghost predicate Placed(s: KState, id: Id)
    requires id in s.nodes
  {
    var status := s.nodes[id].task.status;
    && status in {Pending, Blocked, Ready, Running, Timeout, Success, Failed}
    && (id in s.ready <==> status == Ready)
    && (id in s.waiting <==> status in {Pending, Blocked})
    && (id in s.running <==> status in {Running, Timeout})
    && (id in s.completedQ <==> status == Success)
    && (id in s.completed <==> status == Success)
    && (id in s.failed <==> status == Failed)
    && (id in s.failedQ ==> status == Failed)
  }

  ghost predicate Distinct(s: KState) {
    NoDuplicates(s.ready) && NoDuplicates(s.waiting) && NoDuplicates(s.failedQ) && NoDuplicates(s.completedQ)
  }

  ghost predicate QueuesAgree(s: KState) {
    && Distinct(s)
    && Typed(s)
    && (forall id :: id in s.failedQ || id in s.completedQ || id in s.completed || id in s.failed ==> id in s.nodes)
    && (forall id :: id in s.nodes ==> Placed(s, id))
  }

  ghost predicate OpenOk(s: KState, b: Id, e: Terms)
    requires b in s.nodes
  {
    var node := s.nodes[b];
    && (forall d :: d in node.open ==> d in node.task.declared)
    && (forall d :: d in node.task.declared && d !in node.open ==> Discharged(s.nodes, s.completed, s.failed, b, d))
    && (node.task.status == Ready ==> node.open == {})
    && (node.task.status in {Running, Timeout, Success} && b !in e.reopened ==> node.open == {})
    && (e.explained && node.task.status in {Pending, Blocked} && node.open == {} ==> node.task.blockReason != "")
  }

  /** While the dependents `rest` of x are still to be told that x ended, each has x open, and
      nobody else has a completed dependency open. Between operations `rest` is empty. */
  ghost predicate OpenAgree(s: KState, x: Id, rest: set<Id>, e: Terms) {
    && (forall b :: b in s.nodes ==> OpenOk(s, b, e))
    && (forall b, d :: b in s.nodes && d in s.nodes[b].open && d in s.completed ==> d == x && b in rest)
    && (forall b :: b in rest ==> b in s.nodes && x in s.nodes[b].open)
  }

  ghost predicate InvDuring(s: KState, x: Id, rest: set<Id>, e: Terms) {
    QueuesAgree(s) && EdgesAgree(s.nodes) && OpenAgree(s, x, rest, e)
  }

  ghost predicate Inv(s: KState, e: Terms) {
    InvDuring(s, Id(""), {}, e)
  }

  // ---- small steps ----

  function AppendOnce(q: seq<Id>, x: Id): seq<Id> {
    if x in q then q else q + [x]
  }

  lemma AppendOnceDistinct(q: seq<Id>, x: Id)
    requires NoDuplicates(q)
    ensures NoDuplicates(AppendOnce(q, x))
    ensures forall y :: y in AppendOnce(q, x) <==> y in q || y == x
  {
  }

  lemma NothingLeft(s: KState, x: Id, e: Terms)
    requires InvDuring(s, x, {}, e)
    ensures Inv(s, e)
  {
    hide QueuesAgree, EdgesAgree, OpenOk;
  }

  lemma SortDistinct(s: KState, env: Env, now: real, q: seq<Id>)
    requires NoDuplicates(q)
    ensures NoDuplicates(StableSort(s, env, now, q))
    ensures forall x :: x in StableSort(s, env, now, q) <==> x in q
  {
    SortPermutes(s, env, now, q);
    DistinctFromMultiset(q, StableSort(s, env, now, q));
  }

  lemma DistinctFromMultiset(q: seq<Id>, r: seq<Id>)
    requires NoDuplicates(q) && multiset(q) == multiset(r)
    ensures NoDuplicates(r)
  {
    forall i: nat, j: nat | i < j < |r| ensures r[i] != r[j] {
      if r[i] == r[j] {
        OccursTwice(r, i, j);
        OccursOnce(q, r[i]);
        assert false;
      }
    }
  }

  lemma OccursTwice(r: seq<Id>, i: nat, j: nat)
    requires i < j < |r| && r[i] == r[j]
    ensures multiset(r)[r[i]] >= 2
  {
    assert r == r[..j] + r[j..];
    assert multiset(r[..j])[r[i]] >= 1 by { assert r[..j][i] in r[..j]; }
    assert multiset(r[j..])[r[i]] >= 1 by { assert r[j..][0] in r[j..]; }
  }

  lemma {:induction false} OccursOnce(q: seq<Id>, x: Id)
    requires NoDuplicates(q)
    ensures multiset(q)[x] <= 1
  {
    if q == [] {
    } else {
      assert q == [q[0]] + q[1..];
      assert q[0] !in q[1..];
      OccursOnce(q[1..], x);
    }
  }

  lemma OpenOkFrame(s: KState, s': KState, k: Id, e: Terms)
    requires k in s.nodes && SameModes(s.nodes, s'.nodes)
    requires s.completed <= s'.completed && s.failed <= s'.failed
    requires s'.nodes[k].open == s.nodes[k].open
    requires s'.nodes[k].task == s.nodes[k].task
    requires OpenOk(s, k, e)
    ensures OpenOk(s', k, e)
  {
    forall d | d in s'.nodes[k].task.declared && d !in s'.nodes[k].open
      ensures Discharged(s'.nodes, s'.completed, s'.failed, k, d)
    {
      DischargedFrame(s.nodes, s.completed, s.failed, s'.nodes, s'.completed, s'.failed, k, d);
    }
  }

  /** Nothing but `id` changes its queue. */
  ghost predicate OthersStay(s: KState, s': KState, id: Id) {
    forall k :: k != id ==>
      && (k in s'.ready <==> k in s.ready) && (k in s'.waiting <==> k in s.waiting)
      && (k in s'.running <==> k in s.running) && (k in s'.failedQ <==> k in s.failedQ)
      && (k in s'.completedQ <==> k in s.completedQ)
      && (k in s'.completed <==> k in s.completed) && (k in s'.failed <==> k in s.failed)
  }

  ghost predicate OthersKeepStatus(n: Nodes, n': Nodes, id: Id) {
    && n'.Keys == n.Keys + {id}
    && forall k :: k in n && k != id ==> n'[k].task.status == n[k].task.status
  }

  /** Moving one task between queues, its status changed to match, keeps queues and statuses in step. */
  lemma MoveOne(s: KState, s': KState, id: Id)
    requires QueuesAgree(s) && OthersKeepStatus(s.nodes, s'.nodes, id)
    requires OthersStay(s, s', id) && Distinct(s') && Placed(s', id)
    ensures QueuesAgree(s')
  {
    hide NoDuplicates;
    forall k | k in s'.nodes ensures Placed(s', k) {
      if k != id { assert Placed(s, k); }
    }
  }

  lemma SetTaskStatuses(n: Nodes, n1: Nodes, id: Id, t: Task)
    requires OthersKeepStatus(n, n1, id) && id in n1
    ensures OthersKeepStatus(n, SetTask(n1, id, t), id)
  {
  }

  lemma QueueFacts(s: KState, id: Id)
    requires QueuesAgree(s) && id in s.nodes
    ensures Distinct(s) && Typed(s) && Placed(s, id)
  {
  }

  lemma ReleaseQueues(s: KState, id: Id, env: Env)
    requires id in s.nodes && id in s.waiting && QueuesAgree(s)
    ensures Release(s, id, env).Ok?
    ensures QueuesAgree(Release(s, id, env).value)
    ensures SameGraph(s.nodes, Release(s, id, env).value.nodes)
  {
    hide QueuesAgree, NoDuplicates, RemoveFirst, StableSort;
    QueueFacts(s, id);
    var s' := Release(s, id, env).value;
    RemoveFirstDistinct(s.waiting, id);
    AppendOnceDistinct(s.ready, id);
    SortDistinct(s.(nodes := s'.nodes, waiting := s'.waiting), env, env.clock(id), AppendOnce(s.ready, id));
    MoveOne(s, s', id);
  }

  /** Everything of OpenAgree except what concerns `id`, whose open set has just become empty. */
  ghost predicate OpenAgreeBut(s: KState, id: Id, x: Id, rest: set<Id>, e: Terms)
    requires id in s.nodes
  {
    && s.nodes[id].open == {}
    && (forall d :: d in s.nodes[id].task.declared ==> Discharged(s.nodes, s.completed, s.failed, id, d))
    && (forall b :: b in s.nodes && b != id ==> OpenOk(s, b, e))
    && (forall b, d :: b in s.nodes && d in s.nodes[b].open && d in s.completed ==> d == x && b in rest)
    && (forall b :: b in rest ==> b in s.nodes && x in s.nodes[b].open)
  }

  lemma ReleaseOpen(s: KState, s': KState, id: Id, t: Task, x: Id, rest: set<Id>, e: Terms)
    requires id in s.nodes && OpenAgreeBut(s, id, x, rest, e)
    requires s'.nodes == SetTask(s.nodes, id, t) && SameGraph(s.nodes, s'.nodes) && t.status == Ready
    requires s'.completed == s.completed && s'.failed == s.failed
    ensures OpenAgree(s', x, rest, e)
  {
    forall k | k in s'.nodes ensures OpenOk(s', k, e) {
      if k != id {
        OpenOkFrame(s, s', k, e);
      } else {
        forall d | d in s'.nodes[k].task.declared ensures Discharged(s'.nodes, s'.completed, s'.failed, k, d) {
          DischargedFrame(s.nodes, s.completed, s.failed, s'.nodes, s'.completed, s'.failed, k, d);
        }
      }
    }
  }

  /** Waiting -> ready keeps the invariant, and the transition is allowed. */
  lemma ReleaseKeeps(s: KState, id: Id, env: Env, x: Id, rest: set<Id>, e: Terms)
    requires id in s.nodes && id in s.waiting
    requires QueuesAgree(s) && EdgesAgree(s.nodes) && OpenAgreeBut(s, id, x, rest, e)
    ensures Release(s, id, env).Ok?
    ensures InvDuring(Release(s, id, env).value, x, rest, e)
    ensures SameGraph(s.nodes, Release(s, id, env).value.nodes)
  {
    hide QueuesAgree, EdgesAgree, OpenAgreeBut, OpenAgree, SameGraph, StableSort, RemoveFirst;
    ReleaseQueues(s, id, env);
    var s' := Release(s, id, env).value;
    SameGraphKeepsEdges(s.nodes, s'.nodes);
    ReleaseOpen(s, s', id, s'.nodes[id].task, x, rest, e);
  }

  // ---- complete_task ----

  lemma SetOpenQueues(s: KState, dep: Id, open: set<Id>)
    requires dep in s.nodes && QueuesAgree(s)
    ensures QueuesAgree(s.(nodes := SetOpen(s.nodes, dep, open)))
    ensures SameGraph(s.nodes, SetOpen(s.nodes, dep, open))
  {
    hide QueuesAgree, NoDuplicates;
    QueueFacts(s, dep);
    MoveOne(s, s.(nodes := SetOpen(s.nodes, dep, open)), dep);
  }

  lemma CloseOneOpen(s: KState, s1: KState, x: Id, dep: Id, rest: set<Id>, e: Terms)
    requires OpenAgree(s, x, rest, e) && dep in rest
    requires dep in s.nodes && Discharged(s.nodes, s.completed, s.failed, dep, x)
    requires s1 == s.(nodes := SetOpen(s.nodes, dep, s.nodes[dep].open - {x}))
    ensures s1.nodes[dep].open == {} ==> OpenAgreeBut(s1, dep, x, rest - {dep}, e)
    ensures s1.nodes[dep].open != {} || s1.nodes[dep].task.status !in {Pending, Blocked} ==>
      OpenAgree(s1, x, rest - {dep}, e)
  {
    hide OpenOk;
    CloseOneSelf(s, s1, x, dep, e);
    forall b | b in s1.nodes && b != dep ensures OpenOk(s1, b, e) {
      OpenOkFrame(s, s1, b, e);
    }
  }

  lemma CloseOneSelf(s: KState, s1: KState, x: Id, dep: Id, e: Terms)
    requires dep in s.nodes && OpenOk(s, dep, e) && Discharged(s.nodes, s.completed, s.failed, dep, x)
    requires s1 == s.(nodes := SetOpen(s.nodes, dep, s.nodes[dep].open - {x}))
    ensures forall d :: d in s1.nodes[dep].task.declared && d !in s1.nodes[dep].open ==>
      Discharged(s1.nodes, s1.completed, s1.failed, dep, d)
    ensures s1.nodes[dep].open != {} || s1.nodes[dep].task.status !in {Pending, Blocked} ==> OpenOk(s1, dep, e)
  {
    forall d | d in s1.nodes[dep].task.declared && d !in s1.nodes[dep].open
      ensures Discharged(s1.nodes, s1.completed, s1.failed, dep, d)
    {
      DischargedFrame(s.nodes, s.completed, s.failed, s1.nodes, s1.completed, s1.failed, dep, d);
    }
  }

  lemma ReleaseOneKeeps(s: KState, x: Id, dep: Id, env: Env, rest: set<Id>, e: Terms)
    requires InvDuring(s, x, rest, e) && dep in rest && Discharged(s.nodes, s.completed, s.failed, dep, x)
    ensures ReleaseOne(s, x, dep, env).Ok?
    ensures InvDuring(ReleaseOne(s, x, dep, env).value, x, rest - {dep}, e)
    ensures SameGraph(s.nodes, ReleaseOne(s, x, dep, env).value.nodes)
    ensures ReleaseOne(s, x, dep, env).value.completed == s.completed
    ensures ReleaseOne(s, x, dep, env).value.failed == s.failed
  {
    hide EdgesAgree, OpenOk, SameGraph;
    var s1 := s.(nodes := SetOpen(s.nodes, dep, s.nodes[dep].open - {x}));
    SetOpenQueues(s, dep, s.nodes[dep].open - {x});
    SameGraphKeepsEdges(s.nodes, s1.nodes);
    CloseOneOpen(s, s1, x, dep, rest, e);
    if s1.nodes[dep].open == {} && dep in s1.waiting {
      ReleaseKeeps(s1, dep, env, x, rest - {dep}, e);
      SameGraphTrans(s.nodes, s1.nodes, ReleaseOne(s, x, dep, env).value.nodes);
    } else {
      assert Placed(s, dep);
    }
  }

  lemma {:induction false} ReleaseAllKeeps(s: KState, x: Id, order: seq<Id>, env: Env, e: Terms)
    requires NoDuplicates(order) && InvDuring(s, x, Elements(order), e) && x in s.completed
    ensures ReleaseAll(s, x, order, env).Ok?
    ensures Inv(ReleaseAll(s, x, order, env).value, e)
    ensures SameGraph(s.nodes, ReleaseAll(s, x, order, env).value.nodes)
    decreases |order|
  {
    hide InvDuring, Inv, SameGraph, ReleaseOne;
    if order == [] {
      assert Elements(order) == {};
      NothingLeft(s, x, e);
      SameGraphSelf(s.nodes);
    } else {
      TailElements(order);
      ReleaseOneKeeps(s, x, order[0], env, Elements(order), e);
      var s1 := ReleaseOne(s, x, order[0], env).value;
      ReleaseAllKeeps(s1, x, order[1..], env, e);
      SameGraphTrans(s.nodes, s1.nodes, ReleaseAll(s, x, order, env).value.nodes);
    }
  }

  /** A running task is an open dependency of each of its dependents. */
  lemma RunningIsOpen(s: KState, x: Id, e: Terms)
    requires Inv(s, e) && x in s.running
    ensures forall b :: b in s.nodes[x].dependents ==> b in s.nodes && x in s.nodes[b].open && b != x
  {
    hide QueuesAgree, Acyclic;
    InvFacts(s, e);
    QueueFacts(s, x);
    forall b | b in s.nodes[x].dependents ensures b in s.nodes && x in s.nodes[b].open && b != x {
      NoSelfEdge(s.nodes, b, x);
      assert Depends(s.nodes, b, x);
      assert OpenOk(s, b, e);
      assert !Discharged(s.nodes, s.completed, s.failed, b, x);
    }
  }

  /** s' is s with x just taken out of the running table, as a success or as a failure. */
  ghost predicate Ended(s: KState, s': KState, x: Id) {
    && Typed(s)
    && (|| (MarkCompleted(s, x).Ok? && s' == MarkCompleted(s, x).value.(completed := s.completed + {x}))
        || (MarkFailed(s, x).Ok? && s' == MarkFailed(s, x).value.(failed := s.failed + {x})))
  }

  lemma CompletedQueues(s: KState, x: Id)
    requires QueuesAgree(s) && x in s.running && Typed(s) && MarkCompleted(s, x).Ok?
    ensures
      var s' := MarkCompleted(s, x).value.(completed := s.completed + {x});
      QueuesAgree(s') && SameGraph(s.nodes, s'.nodes)
  {
    hide QueuesAgree, NoDuplicates;
    QueueFacts(s, x);
    AppendOnceDistinct(s.completedQ, x);
    MoveOne(s, MarkCompleted(s, x).value.(completed := s.completed + {x}), x);
  }

  lemma FailedQueues(s: KState, x: Id)
    requires QueuesAgree(s) && x in s.running && Typed(s) && MarkFailed(s, x).Ok?
    ensures
      var s' := MarkFailed(s, x).value.(failed := s.failed + {x});
      QueuesAgree(s') && SameGraph(s.nodes, s'.nodes)
  {
    hide QueuesAgree, NoDuplicates;
    QueueFacts(s, x);
    AppendOnceDistinct(s.failedQ, x);
    MoveOne(s, MarkFailed(s, x).value.(failed := s.failed + {x}), x);
  }

  lemma EndedQueues(s: KState, s': KState, x: Id)
    requires QueuesAgree(s) && x in s.running && Ended(s, s', x)
    ensures QueuesAgree(s')
    ensures SameGraph(s.nodes, s'.nodes)
  {
    hide QueuesAgree, SameGraph, MarkCompleted, MarkFailed;
    if MarkCompleted(s, x).Ok? { CompletedQueues(s, x); }
    if MarkFailed(s, x).Ok? { FailedQueues(s, x); }
  }

  /** A task whose status alone changes keeps what its open set says. */
  lemma RetaskedOpen(s: KState, s': KState, x: Id, t: Task, e: Terms)
    requires x in s.nodes && OpenOk(s, x, e) && s'.nodes == SetTask(s.nodes, x, t) && SameGraph(s.nodes, s'.nodes)
    requires s.completed <= s'.completed && s.failed <= s'.failed
    requires s.nodes[x].task.status in {Running, Timeout} && t.status in {Running, Timeout, Success, Failed}
    ensures OpenOk(s', x, e)
  {
    forall d | d in s'.nodes[x].task.declared && d !in s'.nodes[x].open
      ensures Discharged(s'.nodes, s'.completed, s'.failed, x, d)
    {
      DischargedFrame(s.nodes, s.completed, s.failed, s'.nodes, s'.completed, s'.failed, x, d);
    }
  }

  lemma EndedOpen(s: KState, s': KState, x: Id, t: Task, e: Terms)
    requires OpenAgree(s, Id(""), {}, e) && EdgesAgree(s.nodes)
    requires x in s.nodes && s.nodes[x].task.status in {Running, Timeout}
    requires forall b :: b in s.nodes[x].dependents ==> b in s.nodes && x in s.nodes[b].open && b != x
    requires s'.nodes == SetTask(s.nodes, x, t) && t.status in {Success, Failed} && SameGraph(s.nodes, s'.nodes)
    requires s.completed <= s'.completed <= s.completed + {x} && s.failed <= s'.failed
    ensures OpenAgree(s', x, s.nodes[x].dependents, e)
  {
    hide Acyclic, OpenOk;
    RetaskedOpen(s, s', x, t, e);
    forall k | k in s'.nodes ensures OpenOk(s', k, e) {
      if k != x { OpenOkFrame(s, s', k, e); }
    }
    forall b, d | b in s'.nodes && d in s'.nodes[b].open && d in s'.completed
      ensures d == x && b in s.nodes[x].dependents
    {
      OpenIsDeclared(s, b, d, e);
    }
  }

  lemma OpenIsDeclared(s: KState, b: Id, d: Id, e: Terms)
    requires b in s.nodes && OpenOk(s, b, e) && d in s.nodes[b].open
    ensures Depends(s.nodes, b, d)
  {
  }

  lemma EndedKeeps(s: KState, s': KState, x: Id, e: Terms)
    requires Inv(s, e) && x in s.running && Ended(s, s', x)
    ensures InvDuring(s', x, s.nodes[x].dependents, e)
    ensures SameGraph(s.nodes, s'.nodes)
  {
    hide OpenAgree, EdgesAgree, SameGraph, QueuesAgree;
    RunningIsOpen(s, x, e);
    QueueFacts(s, x);
    EndedQueues(s, s', x);
    SameGraphKeepsEdges(s.nodes, s'.nodes);
    EndedOpen(s, s', x, s'.nodes[x].task, e);
  }

  lemma RunningFacts(s: KState, x: Id, e: Terms)
    requires Inv(s, e) && x in s.running
    ensures Typed(s) && x in s.nodes && s.nodes[x].task.status in {Running, Timeout}
    ensures x !in e.reopened ==> s.nodes[x].open == {}
    ensures x !in s.failed && x !in s.completed && MarkFailed(s, x).Ok?
    ensures s.nodes[x].task.status == Running ==> MarkCompleted(s, x).Ok?
  {
    hide EdgesAgree;
    assert Placed(s, x) && OpenOk(s, x, e);
  }

  lemma CompleteKeeps(s: KState, x: Id, order: seq<Id>, env: Env, e: Terms)
    requires Inv(s, e) && x in s.running && s.nodes[x].task.status == Running
    requires Enumerates(order, s.nodes[x].dependents)
    ensures Complete(s, x, order, env).Ok?
    ensures Inv(Complete(s, x, order, env).value, e)
    ensures SameGraph(s.nodes, Complete(s, x, order, env).value.nodes)
  {
    hide InvDuring, SameGraph, ReleaseAll;
    RunningFacts(s, x, e);
    var s1 := MarkCompleted(s, x).value.(completed := s.completed + {x});
    EndedKeeps(s, s1, x, e);
    assert Elements(order) == s.nodes[x].dependents;
    ReleaseAllKeeps(s1, x, order, env, e);
    SameGraphTrans(s.nodes, s1.nodes, Complete(s, x, order, env).value.nodes);
  }

  // ---- fail_task ----

  lemma FailClosedShape(s: KState, x: Id, dep: Id, env: Env)
    requires dep in s.nodes && x in s.nodes && s.nodes[dep].task.status in {Pending, Blocked, Failed}
    requires EffectiveMode(s.nodes[dep].task, x, s.nodes[x].task) == Some(FailClosed)
    ensures FailOne(s, x, dep, env).Ok?
    ensures
      var s' := FailOne(s, x, dep, env).value;
      && s' == s.(nodes := s'.nodes, failed := s.failed + {dep}, failedQ := s'.failedQ,
                  ready := RemoveFirst(s.ready, dep), waiting := RemoveFirst(s.waiting, dep),
                  completedQ := RemoveFirst(s.completedQ, dep))
      && s'.failedQ == RemoveFirst(AppendOnce(s.failedQ, dep), dep)
      && s'.nodes == SetTask(s.nodes, dep, s'.nodes[dep].task) && s'.nodes[dep].task.status == Failed
      && SameGraph(s.nodes, s'.nodes)
  {
    hide RemoveFirst, EffectiveMode, ReleaseOne, SameGraph;
    RetaskSameGraph(s.nodes, dep, Failed);
  }

  /** A transition changes no edges. */
  lemma RetaskSameGraph(n: Nodes, id: Id, to: Status)
    requires id in n && CanMove(n[id].task.status, to)
    ensures SameGraph(n, SetTask(n, id, Transition(n[id].task, to).value))
  {
  }

  lemma FailClosedQueues(s: KState, x: Id, dep: Id, env: Env)
    requires QueuesAgree(s) && dep in s.nodes && x in s.nodes && s.nodes[dep].task.status in {Pending, Blocked, Failed}
    requires EffectiveMode(s.nodes[dep].task, x, s.nodes[x].task) == Some(FailClosed)
    ensures FailOne(s, x, dep, env).Ok?
    ensures QueuesAgree(FailOne(s, x, dep, env).value)
    ensures SameGraph(s.nodes, FailOne(s, x, dep, env).value.nodes)
  {
    hide NoDuplicates, QueuesAgree, RemoveFirst, FailOne, EffectiveMode, SameGraph;
    QueueFacts(s, dep);
    FailClosedShape(s, x, dep, env);
    AppendOnceDistinct(s.failedQ, dep);
    RemoveFirstDistinct(s.ready, dep);
    RemoveFirstDistinct(s.waiting, dep);
    RemoveFirstDistinct(AppendOnce(s.failedQ, dep), dep);
    RemoveFirstDistinct(s.completedQ, dep);
    MoveOne(s, FailOne(s, x, dep, env).value, dep);
  }

  lemma FailClosedOpen(s: KState, s': KState, x: Id, dep: Id, t: Task, rest: set<Id>, e: Terms)
    requires OpenAgree(s, x, rest, e) && dep in s.nodes && x !in s.completed
    requires s'.nodes == SetTask(s.nodes, dep, t) && t.status == Failed && SameGraph(s.nodes, s'.nodes)
    requires s'.completed == s.completed && s'.failed == s.failed + {dep}
    ensures OpenAgree(s', x, rest - {dep}, e)
  {
    assert OpenOk(s, dep, e);
    forall k | k in s'.nodes ensures OpenOk(s', k, e) {
      if k != dep {
        OpenOkFrame(s, s', k, e);
      } else {
        forall d | d in s'.nodes[k].task.declared && d !in s'.nodes[k].open
          ensures Discharged(s'.nodes, s'.completed, s'.failed, k, d)
        {
          DischargedFrame(s.nodes, s.completed, s.failed, s'.nodes, s'.completed, s'.failed, k, d);
        }
      }
    }
  }

  lemma FailClosedKeeps(s: KState, x: Id, dep: Id, env: Env, rest: set<Id>, e: Terms)
    requires InvDuring(s, x, rest, e) && dep in rest && x in s.failed && x in s.nodes && x !in s.completed
    requires dep in s.nodes && EffectiveMode(s.nodes[dep].task, x, s.nodes[x].task) == Some(FailClosed)
    requires dep !in e.reopened
    ensures FailOne(s, x, dep, env).Ok?
    ensures InvDuring(FailOne(s, x, dep, env).value, x, rest - {dep}, e)
    ensures SameGraph(s.nodes, FailOne(s, x, dep, env).value.nodes)
    ensures FailOne(s, x, dep, env).value.completed == s.completed
    ensures x in FailOne(s, x, dep, env).value.failed
  {
    assert Placed(s, dep) && OpenOk(s, dep, e);
    hide QueuesAgree, EdgesAgree, OpenAgree, SameGraph;
    FailClosedQueues(s, x, dep, env);
    var s' := FailOne(s, x, dep, env).value;
    SameGraphKeepsEdges(s.nodes, s'.nodes);
    FailClosedOpen(s, s', x, dep, s'.nodes[dep].task, rest, e);
  }

  /** The failure of x fails no task of `rest` that has been handed out. */
  ghost predicate Spares(n: Nodes, x: Id, rest: set<Id>, e: Terms)
    requires x in n
  {
    forall b :: b in rest && b in e.reopened && b in n ==>
      EffectiveMode(n[b].task, x, n[x].task) != Some(FailClosed)
  }

  lemma SparesFrame(n: Nodes, n': Nodes, x: Id, rest: set<Id>, rest': set<Id>, e: Terms)
    requires SameGraph(n, n') && x in n && Spares(n, x, rest, e) && rest' <= rest
    ensures x in n' && Spares(n', x, rest', e)
  {
  }

  lemma FailOneKeeps(s: KState, x: Id, dep: Id, env: Env, rest: set<Id>, e: Terms)
    requires InvDuring(s, x, rest, e) && dep in rest && x in s.failed && x in s.nodes && Spares(s.nodes, x, rest, e)
    ensures FailOne(s, x, dep, env).Ok?
    ensures InvDuring(FailOne(s, x, dep, env).value, x, rest - {dep}, e)
    ensures SameGraph(s.nodes, FailOne(s, x, dep, env).value.nodes)
    ensures x in FailOne(s, x, dep, env).value.failed && x in FailOne(s, x, dep, env).value.nodes
  {
    assert Placed(s, x);
    var mode := EffectiveMode(s.nodes[dep].task, x, s.nodes[x].task);
    if mode == Some(FailClosed) {
      FailClosedKeeps(s, x, dep, env, rest, e);
    } else if Waives(mode) {
      ReleaseOneKeeps(s, x, dep, env, rest, e);
    }
  }

  lemma {:induction false} FailAllKeeps(s: KState, x: Id, order: seq<Id>, env: Env, e: Terms)
    requires NoDuplicates(order) && InvDuring(s, x, Elements(order), e) && x in s.failed && x in s.nodes
    requires Spares(s.nodes, x, Elements(order), e)
    ensures FailAll(s, x, order, env).Ok?
    ensures Inv(FailAll(s, x, order, env).value, e)
    ensures SameGraph(s.nodes, FailAll(s, x, order, env).value.nodes)
    decreases |order|
  {
    hide InvDuring, Inv, SameGraph, FailOne, Spares;
    if order == [] {
      assert Elements(order) == {};
      NothingLeft(s, x, e);
      SameGraphSelf(s.nodes);
    } else {
      TailElements(order);
      FailOneKeeps(s, x, order[0], env, Elements(order), e);
      var s1 := FailOne(s, x, order[0], env).value;
      SparesFrame(s.nodes, s1.nodes, x, Elements(order), Elements(order[1..]), e);
      FailAllKeeps(s1, x, order[1..], env, e);
      SameGraphTrans(s.nodes, s1.nodes, FailAll(s, x, order, env).value.nodes);
    }
  }

  lemma FailKeeps(s: KState, x: Id, order: seq<Id>, env: Env, e: Terms)
    requires Inv(s, e) && x in s.running && Enumerates(order, s.nodes[x].dependents)
    requires Spares(s.nodes, x, s.nodes[x].dependents, e)
    ensures Fail(s, x, order, env).Ok?
    ensures Inv(Fail(s, x, order, env).value, e)
    ensures SameGraph(s.nodes, Fail(s, x, order, env).value.nodes)
  {
    hide InvDuring, SameGraph, FailAll, Spares;
    RunningFacts(s, x, e);
    var s1 := MarkFailed(s, x).value.(failed := s.failed + {x});
    EndedKeeps(s, s1, x, e);
    SparesFrame(s.nodes, s1.nodes, x, s.nodes[x].dependents, s.nodes[x].dependents, e);
    assert Elements(order) == s.nodes[x].dependents;
    FailAllKeeps(s1, x, order, env, e);
    SameGraphTrans(s.nodes, s1.nodes, Fail(s, x, order, env).value.nodes);
  }

  // ---- writes of the daemon ----

  /** A running task whose status changes between RUNNING and TIMEOUT stays where it is. */
  lemma WriteKeeps(s: KState, s': KState, x: Id, t: Task, e: Terms)
    requires Inv(s, e) && x in s.running && x in s.nodes && t.status in {Running, Timeout}
    requires s' == s.(nodes := SetTask(s.nodes, x, t)) && SameGraph(s.nodes, s'.nodes)
    ensures Inv(s', e)
  {
    hide QueuesAgree, EdgesAgree, OpenAgree, SameGraph;
    RunningFacts(s, x, e);
    QueueFacts(s, x);
    MoveOne(s, s', x);
    SameGraphKeepsEdges(s.nodes, s'.nodes);
    WrittenOpen(s, s', x, t, e);
  }

  lemma WrittenOpen(s: KState, s': KState, x: Id, t: Task, e: Terms)
    requires OpenAgree(s, Id(""), {}, e) && x in s.nodes && s.nodes[x].task.status in {Running, Timeout}
    requires s'.nodes == SetTask(s.nodes, x, t) && SameGraph(s.nodes, s'.nodes) && t.status in {Running, Timeout}
    requires s'.completed == s.completed && s'.failed == s.failed
    ensures OpenAgree(s', Id(""), {}, e)
  {
    hide OpenOk;
    RetaskedOpen(s, s', x, t, e);
    forall k | k in s'.nodes ensures OpenOk(s', k, e) {
      if k != x { OpenOkFrame(s, s', k, e); }
    }
  }

  lemma TimeOutKeeps(s: KState, x: Id, e: Terms)
    requires Inv(s, e) && x in s.running && x in s.nodes && s.nodes[x].task.status == Running
    ensures TimeOut(s, x).Ok? && Inv(TimeOut(s, x).value, e)
  {
    hide Inv;
    RetaskSameGraph(s.nodes, x, Timeout);
    WriteKeeps(s, TimeOut(s, x).value, x, Transition(s.nodes[x].task, Timeout).value, e);
  }

  lemma RestartKeeps(s: KState, x: Id, e: Terms)
    requires Inv(s, e) && x in s.running && x in s.nodes && s.nodes[x].task.status == Timeout
    ensures Restart(s, x).Ok? && Inv(Restart(s, x).value, e)
  {
    hide Inv;
    WriteKeeps(s, Restart(s, x).value, x, Restarted(s.nodes[x].task).value, e);
  }

  // ---- dispatch_ready ----

  /** A task with nothing open may change status, if a refusal leaves a reason behind. */
  lemma MovedOpen(s: KState, s': KState, id: Id, t: Task, e: Terms)
    requires OpenAgree(s, Id(""), {}, e) && id in s.nodes && s.nodes[id].open == {}
    requires s'.nodes == SetTask(s.nodes, id, t) && SameGraph(s.nodes, s'.nodes)
    requires s'.completed == s.completed && s'.failed == s.failed
    requires e.explained && t.status in {Pending, Blocked} ==> t.blockReason != ""
    ensures OpenAgree(s', Id(""), {}, e)
  {
    assert OpenOk(s, id, e);
    forall k | k in s'.nodes ensures OpenOk(s', k, e) {
      if k != id {
        OpenOkFrame(s, s', k, e);
      } else {
        forall d | d in s'.nodes[k].task.declared ensures Discharged(s'.nodes, s'.completed, s'.failed, k, d) {
          DischargedFrame(s.nodes, s.completed, s.failed, s'.nodes, s'.completed, s'.failed, k, d);
        }
      }
    }
  }

  lemma OpenFacts(s: KState, id: Id, e: Terms)
    requires OpenAgree(s, Id(""), {}, e) && id in s.nodes
    ensures OpenOk(s, id, e)
    ensures s.nodes[id].open == {} ==> OpenAgreeBut(s, id, Id(""), {}, e)
  {
  }

  /** A refusal on waking only replaces the reason. */
  lemma WakeRefused(s: KState, s': KState, id: Id, reason: string, e: Terms)
    requires Inv(s, e) && id in s.waiting && id in s.nodes && s.nodes[id].open == {} && (e.explained ==> reason != "")
    requires s' == s.(nodes := SetTask(s.nodes, id, s.nodes[id].task.(blockReason := reason)))
    ensures Inv(s', e) && SameGraph(s.nodes, s'.nodes)
  {
    hide QueuesAgree, OpenAgree, EdgesAgree, NoDuplicates;
    QueueFacts(s, id);
    SameGraphKeepsEdges(s.nodes, s'.nodes);
    MoveOne(s, s', id);
    MovedOpen(s, s', id, s'.nodes[id].task, e);
  }

  lemma WakeOneKeeps(s: KState, id: Id, env: Env, e: Terms)
    requires Inv(s, e) && id in s.waiting && id in s.nodes
    requires e.explained ==> RefusalsExplained(env)
    ensures WakeOne(s, id, env).Ok?
    ensures Inv(WakeOne(s, id, env).value, e)
    ensures SameGraph(s.nodes, WakeOne(s, id, env).value.nodes)
    ensures forall k :: k != id && k in s.waiting ==> k in WakeOne(s, id, env).value.waiting
  {
    hide QueuesAgree, OpenAgree, OpenAgreeBut, EdgesAgree, NoDuplicates, SameGraph, StableSort, RemoveFirst;
    var node := s.nodes[id];
    QueueFacts(s, id);
    OpenFacts(s, id, e);
    SameGraphSelf(s.nodes);
    if node.open == {} && node.task.blockReason != "" {
      if env.wake(id).Granted? {
        ReleaseKeeps(s, id, env, Id(""), {}, e);
        RemoveFirstDistinct(s.waiting, id);
      } else {
        WakeRefused(s, WakeOne(s, id, env).value, id, env.wake(id).reason, e);
      }
    }
  }

  lemma {:induction false} WakeKeeps(s: KState, todo: seq<Id>, env: Env, e: Terms)
    requires Inv(s, e) && NoDuplicates(todo)
    requires forall id :: id in todo ==> id in s.waiting && id in s.nodes
    requires e.explained ==> RefusalsExplained(env)
    ensures Wake(s, todo, env).Ok?
    ensures Inv(Wake(s, todo, env).value, e)
    ensures SameGraph(s.nodes, Wake(s, todo, env).value.nodes)
    decreases |todo|
  {
    hide Inv, SameGraph, WakeOne, RefusalsExplained;
    if todo == [] {
      SameGraphSelf(s.nodes);
    } else {
      TailElements(todo);
      WakeOneKeeps(s, todo[0], env, e);
      var s1 := WakeOne(s, todo[0], env).value;
      SameGraphKeys(s.nodes, s1.nodes);
      WakeKeeps(s1, todo[1..], env, e);
      SameGraphTrans(s.nodes, s1.nodes, Wake(s, todo, env).value.nodes);
    }
  }

  /** Reordering the ready queue changes nothing else. */
  lemma ReorderKeeps(s: KState, ready: seq<Id>, e: Terms)
    requires Inv(s, e) && NoDuplicates(ready) && forall x :: x in ready <==> x in s.ready
    ensures Inv(s.(ready := ready), e)
  {
    hide EdgesAgree, NoDuplicates, OpenOk;
    var s' := s.(ready := ready);
    forall k | k in s'.nodes ensures Placed(s', k) && OpenOk(s', k, e) {
      assert Placed(s, k);
      OpenOkFrame(s, s', k, e);
    }
  }

  lemma SortKeeps(s: KState, env: Env, e: Terms)
    requires Inv(s, e)
    ensures Inv(s.(ready := StableSort(s, env, env.sortClock, s.ready)), e)
  {
    hide Inv, NoDuplicates, StableSort;
    InvFacts(s, e);
    SortDistinct(s, env, env.sortClock, s.ready);
    ReorderKeeps(s, StableSort(s, env, env.sortClock, s.ready), e);
  }

  lemma MoveToWaitingQueues(s: KState, reason: string)
    requires QueuesAgree(s) && s.ready != [] && s.ready[0] in s.nodes
    ensures
      var r := MoveToWaiting(s.(ready := s.ready[1..]), s.ready[0], reason);
      r.Ok? && QueuesAgree(r.value) && SameGraph(s.nodes, r.value.nodes)
  {
    hide QueuesAgree, NoDuplicates, RemoveFirst;
    var id := s.ready[0];
    QueueFacts(s, id);
    TailElements(s.ready);
    HeadTail(s.ready);
    RemoveFirstDistinct(s.ready[1..], id);
    RemoveFirstDistinct(s.waiting, id);
    RemoveFirstDistinct(s.failedQ, id);
    RemoveFirstDistinct(s.completedQ, id);
    AppendOnceDistinct(RemoveFirst(s.waiting, id), id);
    MoveOne(s, MoveToWaiting(s.(ready := s.ready[1..]), id, reason).value, id);
  }

  lemma MarkRunningQueues(s: KState)
    requires QueuesAgree(s) && s.ready != [] && s.ready[0] in s.nodes
    ensures
      var r := MarkRunning(s.(ready := s.ready[1..]), s.ready[0]);
      r.Ok? && QueuesAgree(r.value) && SameGraph(s.nodes, r.value.nodes)
  {
    hide QueuesAgree, NoDuplicates;
    var id := s.ready[0];
    QueueFacts(s, id);
    TailElements(s.ready);
    HeadTail(s.ready);
    MoveOne(s, MarkRunning(s.(ready := s.ready[1..]), id).value, id);
  }

  lemma DispatchOneQueues(s: KState, env: Env)
    requires QueuesAgree(s) && s.ready != [] && s.ready[0] in s.nodes
    ensures DispatchOne(s, env).Ok?
    ensures QueuesAgree(DispatchOne(s, env).value.0)
    ensures SameGraph(s.nodes, DispatchOne(s, env).value.0.nodes)
  {
    hide QueuesAgree, SameGraph, MoveToWaiting, MarkRunning;
    MoveToWaitingQueues(s, "no_capability_match");
    if env.grant(s.ready[0]).Refused? { MoveToWaitingQueues(s, env.grant(s.ready[0]).reason); }
    MarkRunningQueues(s);
  }

  lemma DispatchOneKeeps(s: KState, env: Env, e: Terms)
    requires Inv(s, e) && s.ready != [] && s.ready[0] in s.nodes
    requires e.explained ==> RefusalsExplained(env)
    ensures DispatchOne(s, env).Ok?
    ensures Inv(DispatchOne(s, env).value.0, e)
    ensures SameGraph(s.nodes, DispatchOne(s, env).value.0.nodes)
    ensures forall d :: d in s.nodes[s.ready[0]].task.declared ==>
      Discharged(s.nodes, s.completed, s.failed, s.ready[0], d)
  {
    hide QueuesAgree, EdgesAgree, OpenAgree, RemoveFirst, SameGraph;
    var id := s.ready[0];
    QueueFacts(s, id);
    OpenFacts(s, id, e);
    DispatchOneQueues(s, env);
    var s' := DispatchOne(s, env).value.0;
    SameGraphKeepsEdges(s.nodes, s'.nodes);
    MovedOpen(s, s', id, s'.nodes[id].task, e);
  }

  /** Every declared dependency of every listed task is discharged. */
  ghost predicate AllDischarged(s: KState, out: seq<Id>) {
    forall t, d :: t in out && Depends(s.nodes, t, d) ==> Discharged(s.nodes, s.completed, s.failed, t, d)
  }

  lemma AllDischargedStep(s: KState, s': KState, out: seq<Id>, t: Id, taken: bool)
    requires AllDischarged(s, out) && t in s.nodes && SameGraph(s.nodes, s'.nodes)
    requires s.completed == s'.completed && s.failed == s'.failed
    requires forall d :: d in s.nodes[t].task.declared ==> Discharged(s.nodes, s.completed, s.failed, t, d)
    ensures AllDischarged(s', if taken then out + [t] else out)
  {
    forall b, d | b in out + [t] && Depends(s'.nodes, b, d) && (b in out || b == t)
      ensures Discharged(s'.nodes, s'.completed, s'.failed, b, d)
    {
      assert Depends(s.nodes, b, d);
      assert Discharged(s.nodes, s.completed, s.failed, b, d);
      DischargedFrame(s.nodes, s.completed, s.failed, s'.nodes, s'.completed, s'.failed, b, d);
    }
  }

  lemma DispatchOneEnded(s: KState, env: Env)
    requires s.ready != [] && s.ready[0] in s.nodes && DispatchOne(s, env).Ok?
    ensures DispatchOne(s, env).value.0.completed == s.completed
    ensures DispatchOne(s, env).value.0.failed == s.failed
  {
  }

  lemma {:induction false} DispatchLoopKeeps(s: KState, limit: Option<int>, env: Env, out: seq<Id>, e: Terms)
    requires Inv(s, e) && (forall id :: id in s.ready ==> id in s.nodes)
    requires AllDischarged(s, out)
    requires e.explained ==> RefusalsExplained(env)
    ensures DispatchLoop(s, limit, env, out).Ok?
    ensures Inv(DispatchLoop(s, limit, env, out).value.0, e)
    ensures SameGraph(s.nodes, DispatchLoop(s, limit, env, out).value.0.nodes)
    ensures AllDischarged(DispatchLoop(s, limit, env, out).value.0, DispatchLoop(s, limit, env, out).value.1)
    decreases |s.ready|
  {
    hide Inv, SameGraph, DispatchOne, AllDischarged, RefusalsExplained;
    if s.ready == [] || (limit.Some? && |out| >= limit.value) {
      SameGraphSelf(s.nodes);
    } else {
      DispatchOneKeeps(s, env, e);
      ReadyShrinks(s, env);
      DispatchOneEnded(s, env);
      var r := DispatchOne(s, env).value;
      var out1 := if r.1 then out + [s.ready[0]] else out;
      AllDischargedStep(s, r.0, out, s.ready[0], r.1);
      DispatchLoopKeeps(r.0, limit, env, out1, e);
      SameGraphTrans(s.nodes, r.0.nodes, DispatchLoop(s, limit, env, out).value.0.nodes);
    }
  }

  lemma InvFacts(s: KState, e: Terms)
    requires Inv(s, e)
    ensures Typed(s) && Distinct(s)
  {
  }

  lemma BeforeDispatchKeeps(s: KState, env: Env, e: Terms)
    requires Inv(s, e) && Typed(s)
    requires e.explained ==> RefusalsExplained(env)
    ensures BeforeDispatch(s, env).Ok?
    ensures Inv(BeforeDispatch(s, env).value, e)
    ensures SameGraph(s.nodes, BeforeDispatch(s, env).value.nodes)
  {
    hide Inv, SameGraph, Wake, StableSort, RefusalsExplained;
    InvFacts(s, e);
    if s.ready == [] {
      WakeKeeps(s, s.waiting, env, e);
      SortKeeps(Wake(s, s.waiting, env).value, env, e);
    } else {
      SameGraphSelf(s.nodes);
      SortKeeps(s, env, e);
    }
  }

  /** dispatch_ready raises nothing, keeps the invariant, and every task it hands out has each
      dependency, declared at enqueue or added later, completed or waived. */
  lemma DispatchKeeps(s: KState, limit: Option<int>, env: Env, e: Terms)
    requires Inv(s, e) && Typed(s)
    requires e.explained ==> RefusalsExplained(env)
    ensures Dispatch(s, limit, env).Ok?
    ensures Inv(Dispatch(s, limit, env).value.0, e)
    ensures SameGraph(s.nodes, Dispatch(s, limit, env).value.0.nodes)
    ensures AllDischarged(Dispatch(s, limit, env).value.0, Dispatch(s, limit, env).value.1)
  {
    hide Inv, SameGraph, BeforeDispatch, DispatchLoop, RefusalsExplained;
    BeforeDispatchKeeps(s, env, e);
    var s1 := BeforeDispatch(s, env).value;
    DispatchLoopKeeps(s1, limit, env, [], e);
    SameGraphTrans(s.nodes, s1.nodes, Dispatch(s, limit, env).value.0.nodes);
  }
}
