/** What the end of a task means for each other task, said through the policies and the queues. */
module KernelEnds {
  import opened Graphs
  import opened Tasks
  import opened TaskGraph
  import opened KernelSpec
  import opened KernelRuns
  import opened KernelTheorems
  import opened KernelStranded

  /** Apart from the ready and the waiting queue, b is where it was. */
  predicate SameTables(s: KState, s': KState, b: Id) {
    && (b in s'.running <==> b in s.running) && (b in s'.failedQ <==> b in s.failedQ)
    && (b in s'.completedQ <==> b in s.completedQ) && (b in s'.failed <==> b in s.failed)
    && (b in s'.completed <==> b in s.completed)
  }

  /** x no longer holds b back. If b waited for nothing else it is READY and queued, with no reason
      left; if not, only its open set has changed. */
  predicate LetGo(s: KState, s': KState, x: Id, b: Id) {
    && b in s.nodes && b in s'.nodes
    && s'.nodes[b].open == s.nodes[b].open - {x}
    && if b in s.waiting && s.nodes[b].open <= {x} then
         && s'.nodes[b].task == s.nodes[b].task.(status := Ready, blockReason := "", tcbReason := "")
         && b in s'.ready && b !in s'.waiting && SameTables(s, s', b)
       else s'.nodes[b].task == s.nodes[b].task && SameQueues(s, s', b)
  }

  /** b is FAILED, among the failed tasks and in no queue. */
  predicate FailedToo(s: KState, s': KState, b: Id) {
    && b in s.nodes && b in s'.nodes
    && s'.nodes[b].task == s.nodes[b].task.(status := Failed, blockReason := s.nodes[b].task.tcbReason)
    && s'.nodes[b].open == s.nodes[b].open && b in s'.failed
    && b !in s'.ready && b !in s'.waiting && b !in s'.running && b !in s'.failedQ && b !in s'.completedQ
  }

  /** The failure of x decides over b by the policy of the edge, or else by that of x. */
  predicate ByPolicy(s: KState, s': KState, x: Id, b: Id) {
    && x in s.nodes && b in s.nodes
    && (Decides(FailClosed, s.nodes[b].task, x, s.nodes[x].task) ==> FailedToo(s, s', b))
    && (Excused(s.nodes[b].task, x, s.nodes[x].task) ==> LetGo(s, s', x, b))
    && (!Decides(FailClosed, s.nodes[b].task, x, s.nodes[x].task) && !Excused(s.nodes[b].task, x, s.nodes[x].task) ==>
          Untouched(s, s', b))
  }

  // ---- one dependent ----

  lemma ReleaseOneAt(s: KState, x: Id, b: Id, env: Env)
    requires NoDuplicates(s.waiting) && b in s.nodes && ReleaseOne(s, x, b, env).Ok?
    ensures LetGo(s, ReleaseOne(s, x, b, env).value, x, b)
  {
    hide StableSort, NoDuplicates, RemoveFirst;
    var s1 := s.(nodes := SetOpen(s.nodes, b, s.nodes[b].open - {x}));
    assert s1.nodes[b].open == {} <==> s.nodes[b].open <= {x};
    if s1.nodes[b].open == {} && b in s1.waiting {
      RemoveFirstDistinct(s.waiting, b);
      var t := Unblock(s1.nodes[b].task).value;
      var s2 := s1.(nodes := SetTask(s1.nodes, b, t), waiting := RemoveFirst(s1.waiting, b));
      SortPermutes(s2, env, env.clock(b), s2.ready + [b]);
    }
  }

  lemma FailOneAt(s: KState, x: Id, b: Id, env: Env, rest: set<Id>, e: Terms)
    requires InvDuring(s, x, rest, e) && b in rest && x in s.nodes && x in s.failed && Spares(s.nodes, x, rest, e)
    ensures FailOne(s, x, b, env).Ok? && b in s.nodes
    ensures ByPolicy(s, FailOne(s, x, b, env).value, x, b)
  {
    hide EdgesAgree, OpenAgree, ReleaseOne, RemoveFirst, NoDuplicates;
    InRest(s, x, b, rest, e);
    FailOneKeeps(s, x, b, env, rest, e);
    var s' := FailOne(s, x, b, env).value;
    assert Placed(s, b) && Placed(s', b);
    if Excused(s.nodes[b].task, x, s.nodes[x].task) { ReleaseOneAt(s, x, b, env); }
    if Decides(FailClosed, s.nodes[b].task, x, s.nodes[x].task) {
      AppendOnceDistinct(s.failedQ, b);
      RemoveFirstDistinct(AppendOnce(s.failedQ, b), b);
    }
  }

  lemma InRest(s: KState, x: Id, b: Id, rest: set<Id>, e: Terms)
    requires InvDuring(s, x, rest, e) && b in rest
    ensures b in s.nodes && x in s.nodes[b].open
  {
    hide QueuesAgree, EdgesAgree, OpenOk;
  }

  // ---- all dependents ----

  lemma LetGoFrames(s: KState, s1: KState, s2: KState, s3: KState, x: Id, b: Id)
    requires Untouched(s, s1, b) && LetGo(s1, s2, x, b) && Untouched(s2, s3, b)
    ensures LetGo(s, s3, x, b)
  {
  }

  lemma FailedTooFrames(s: KState, s1: KState, s2: KState, s3: KState, b: Id)
    requires Untouched(s, s1, b) && FailedToo(s1, s2, b) && Untouched(s2, s3, b)
    ensures FailedToo(s, s3, b)
  {
  }

  lemma ByPolicyFrames(s: KState, s1: KState, s2: KState, s3: KState, x: Id, b: Id)
    requires Untouched(s, s1, b) && ByPolicy(s1, s2, x, b) && Untouched(s2, s3, b)
    requires x in s.nodes && s.nodes[x].task.ownMode == s1.nodes[x].task.ownMode
    ensures ByPolicy(s, s3, x, b)
  {
    hide LetGo, FailedToo;
    if LetGo(s1, s2, x, b) { LetGoFrames(s, s1, s2, s3, x, b); }
    if FailedToo(s1, s2, b) { FailedTooFrames(s, s1, s2, s3, b); }
  }

  lemma {:induction false} ReleaseAllAt(s: KState, x: Id, order: seq<Id>, env: Env, b: Id, e: Terms)
    requires NoDuplicates(order) && InvDuring(s, x, Elements(order), e) && x in s.completed && b in order
    ensures ReleaseAll(s, x, order, env).Ok? && LetGo(s, ReleaseAll(s, x, order, env).value, x, b)
    decreases |order|
  {
    hide InvDuring, Inv, ReleaseOne, LetGo, SameGraph, Untouched;
    TailElements(order);
    InRest(s, x, order[0], Elements(order), e);
    InRest(s, x, b, Elements(order), e);
    ReleaseOneKeeps(s, x, order[0], env, Elements(order), e);
    var s1 := ReleaseOne(s, x, order[0], env).value;
    ReleaseAllKeeps(s1, x, order[1..], env, e);
    if b == order[0] {
      DuringDistinct(s, x, Elements(order), e);
      ReleaseOneAt(s, x, b, env);
      SameGraphKeys(s.nodes, s1.nodes);
      ReleaseAllOther(s1, x, order[1..], env, b);
      UntouchedSelf(s, b);
      LetGoFrames(s, s, s1, ReleaseAll(s, x, order, env).value, x, b);
    } else {
      ReleaseOneOther(s, x, order[0], env, b);
      ReleaseAllAt(s1, x, order[1..], env, b, e);
      LetGoHead(s, s1, ReleaseAll(s, x, order, env).value, x, b);
    }
  }

  lemma DuringDistinct(s: KState, x: Id, rest: set<Id>, e: Terms)
    requires InvDuring(s, x, rest, e)
    ensures NoDuplicates(s.waiting)
  {
    hide EdgesAgree, OpenAgree, NoDuplicates;
  }

  lemma UntouchedSelf(s: KState, b: Id)
    requires b in s.nodes
    ensures Untouched(s, s, b)
  {
  }

  lemma LetGoHead(s: KState, s1: KState, s2: KState, x: Id, b: Id)
    requires Untouched(s, s1, b) && LetGo(s1, s2, x, b)
    ensures LetGo(s, s2, x, b)
  {
    UntouchedSelf(s2, b);
    LetGoFrames(s, s1, s2, s2, x, b);
  }

  lemma {:induction false} FailAllAt(s: KState, x: Id, order: seq<Id>, env: Env, b: Id, e: Terms)
    requires NoDuplicates(order) && InvDuring(s, x, Elements(order), e) && x in s.failed && x in s.nodes && b in order
    requires Spares(s.nodes, x, Elements(order), e)
    ensures FailAll(s, x, order, env).Ok? && ByPolicy(s, FailAll(s, x, order, env).value, x, b)
    decreases |order|
  {
    hide InvDuring, Inv, FailOne, ByPolicy, SameGraph, Untouched, Spares;
    TailElements(order);
    InRest(s, x, b, Elements(order), e);
    FailOneKeeps(s, x, order[0], env, Elements(order), e);
    var s1 := FailOne(s, x, order[0], env).value;
    SparesFrame(s.nodes, s1.nodes, x, Elements(order), Elements(order[1..]), e);
    FailAllKeeps(s1, x, order[1..], env, e);
    SameGraphKeys(s.nodes, s1.nodes);
    var s' := FailAll(s, x, order, env).value;
    if b == order[0] {
      FailOneAt(s, x, b, env, Elements(order), e);
      FailAllOther(s1, x, order[1..], env, b);
      UntouchedSelf(s, b);
      ByPolicyFrames(s, s, s1, s', x, b);
    } else {
      FailOneOther(s, x, order[0], env, b);
      FailAllAt(s1, x, order[1..], env, b, e);
      SameModesKept(s.nodes, s1.nodes, x);
      StillThere(s1, s', b, x);
      ByPolicyFrames(s, s1, s', s', x, b);
    }
  }

  lemma SameModesKept(n: Nodes, n': Nodes, x: Id)
    requires SameGraph(n, n') && x in n
    ensures x in n' && n'[x].task.ownMode == n[x].task.ownMode
  {
  }

  lemma StillThere(s1: KState, s': KState, b: Id, x: Id)
    requires ByPolicy(s1, s', x, b)
    ensures Untouched(s', s', b)
  {
  }

  // ---- any end in any run ----

  /** While x runs, the tasks that have x open are its dependents. */
  lemma OpenIsDependent(s: KState, x: Id, b: Id, e: Terms)
    requires Inv(s, e) && x in s.running && x in s.nodes && b in s.nodes
    ensures b in s.nodes[x].dependents <==> x in s.nodes[b].open
    ensures b in s.nodes[x].dependents ==> b != x
  {
    hide QueuesAgree, Acyclic;
    RunningIsOpen(s, x, e);
    if x in s.nodes[b].open {
      assert OpenOk(s, b, e);
      assert Depends(s.nodes, b, x);
    }
  }

  /** Taking x out of the running table touches nobody else. */
  lemma MarkingOther(s: KState, x: Id, b: Id)
    requires Typed(s) && x in s.running && b in s.nodes && b != x
    ensures MarkFailed(s, x).Ok? ==> Untouched(s, MarkFailed(s, x).value.(failed := s.failed + {x}), b)
    ensures MarkCompleted(s, x).Ok? ==> Untouched(s, MarkCompleted(s, x).value.(completed := s.completed + {x}), b)
  {
  }

  /** x itself ends FAILED, in the failed table and the failed queue, or SUCCESSful, likewise. */
  predicate EndsAs(s': KState, x: Id, status: Status) {
    && x in s'.nodes && s'.nodes[x].task.status == status
    && x !in s'.running && x !in s'.ready && x !in s'.waiting
    && (x in s'.failed <==> status == Failed) && (x in s'.failedQ <==> status == Failed)
    && (x in s'.completed <==> status == Success) && (x in s'.completedQ <==> status == Success)
  }

  /** At any failure of any run, for every task b: the failed task is FAILED and in the failed queue.
      A task that had it open is FAILED too under a fail-closed policy, let go under one of the
      three that excuse, and as it was under retry or none. A task that did not have it open is as
      it was. The policy is the edge's, or the failed task's own if the edge has none. */
  lemma FailureByPolicy(states: seq<KState>, ops: seq<Op>, k: nat, b: Id)
    requires Run(states, ops) && k < |ops| && ops[k].FailOp? && b in states[k].nodes
    ensures
      var s, s', x := states[k], states[k + 1], ops[k].id;
      && s'.nodes.Keys == s.nodes.Keys
      && if b == x then EndsAs(s', x, Failed)
         else if x in s.nodes[b].open then ByPolicy(s, s', x, b)
         else Untouched(s, s', b)
  {
    hide Run, Inv, Fail, ByPolicy, EndsAs, Untouched, SameGraph;
    StepOf(states, ops, k);
    var s, s', op := states[k], states[k + 1], ops[k];
    FailKeeps(s, op.id, op.order, op.env, PLAIN);
    FailAt(s, op.id, op.order, op.env, b);
    SameGraphKeys(s.nodes, s'.nodes);
  }

  lemma StepOf(states: seq<KState>, ops: seq<Op>, k: nat)
    requires Run(states, ops) && k < |ops|
    ensures |states| == |ops| + 1 && Step(states[k], ops[k], states[k + 1])
    ensures MayHappen(states[k], ops[k]) && Inv(states[k], PLAIN)
  {
    hide Inv, MayHappen, Outcome;
    RunKeeps(states, ops, k, PLAIN);
  }

  lemma FailAt(s: KState, x: Id, order: seq<Id>, env: Env, b: Id)
    requires Inv(s, PLAIN) && x in s.running && x in s.nodes && b in s.nodes
    requires Enumerates(order, s.nodes[x].dependents)
    requires Typed(s) && Fail(s, x, order, env).Ok?
    ensures
      var s' := Fail(s, x, order, env).value;
      if b == x then EndsAs(s', x, Failed)
      else if x in s.nodes[b].open then ByPolicy(s, s', x, b)
      else Untouched(s, s', b)
  {
    hide InvDuring, FailAll, ByPolicy, Untouched, EndsAs;
    RunningFacts(s, x, PLAIN);
    OpenIsDependent(s, x, b, PLAIN);
    var s1 := MarkFailed(s, x).value.(failed := s.failed + {x});
    EndedKeeps(s, s1, x, PLAIN);
    assert Elements(order) == s.nodes[x].dependents;
    var s' := Fail(s, x, order, env).value;
    if b == x {
      FailAllOther(s1, x, order, env, x);
      FailedIsPlaced(s, s1, s', x);
    } else {
      MarkingOther(s, x, b);
      SameGraphKeys(s.nodes, s1.nodes);
      if b in order {
        FailAllAt(s1, x, order, env, b, PLAIN);
        StillThere(s1, s', b, x);
        ByPolicyFrames(s, s1, s', s', x, b);
      } else {
        FailAllOther(s1, x, order, env, b);
        UntouchedTrans(s, s1, s', b);
      }
    }
  }

  lemma UntouchedTrans(s: KState, s1: KState, s2: KState, b: Id)
    requires Untouched(s, s1, b) && Untouched(s1, s2, b)
    ensures Untouched(s, s2, b)
  {
  }

  lemma FailedIsPlaced(s: KState, s1: KState, s': KState, x: Id)
    requires Inv(s, PLAIN) && x in s.running && x in s.nodes && Typed(s) && MarkFailed(s, x).Ok?
    requires s1 == MarkFailed(s, x).value.(failed := s.failed + {x}) && Untouched(s1, s', x)
    ensures EndsAs(s', x, Failed)
  {
    hide EdgesAgree, OpenAgree;
    assert Placed(s, x);
  }

  /** At any completion of any run, for every task b: the completed task is in SUCCESS, in the
      completed table and queue. Each task that had it open is let go. Every other is as it was. */
  lemma CompletionLetsGo(states: seq<KState>, ops: seq<Op>, k: nat, b: Id)
    requires Run(states, ops) && k < |ops| && ops[k].CompleteOp? && b in states[k].nodes
    ensures
      var s, s', x := states[k], states[k + 1], ops[k].id;
      && s'.nodes.Keys == s.nodes.Keys
      && if b == x then EndsAs(s', x, Success)
         else if x in s.nodes[b].open then LetGo(s, s', x, b)
         else Untouched(s, s', b)
  {
    hide Run, Inv, Complete, LetGo, EndsAs, Untouched, SameGraph;
    StepOf(states, ops, k);
    var s, s', op := states[k], states[k + 1], ops[k];
    CompleteKeeps(s, op.id, op.order, op.env, PLAIN);
    CompleteAt(s, op.id, op.order, op.env, b);
    SameGraphKeys(s.nodes, s'.nodes);
  }

  lemma CompleteAt(s: KState, x: Id, order: seq<Id>, env: Env, b: Id)
    requires Inv(s, PLAIN) && x in s.running && x in s.nodes && b in s.nodes && s.nodes[x].task.status == Running
    requires Enumerates(order, s.nodes[x].dependents)
    requires Typed(s) && Complete(s, x, order, env).Ok?
    ensures
      var s' := Complete(s, x, order, env).value;
      if b == x then EndsAs(s', x, Success)
      else if x in s.nodes[b].open then LetGo(s, s', x, b)
      else Untouched(s, s', b)
  {
    hide InvDuring, ReleaseAll, LetGo, Untouched, EndsAs;
    RunningFacts(s, x, PLAIN);
    OpenIsDependent(s, x, b, PLAIN);
    var s1 := MarkCompleted(s, x).value.(completed := s.completed + {x});
    EndedKeeps(s, s1, x, PLAIN);
    assert Elements(order) == s.nodes[x].dependents;
    var s' := Complete(s, x, order, env).value;
    if b == x {
      ReleaseAllOther(s1, x, order, env, x);
      CompletedIsPlaced(s, s1, s', x);
    } else {
      MarkingOther(s, x, b);
      SameGraphKeys(s.nodes, s1.nodes);
      if b in order {
        ReleaseAllAt(s1, x, order, env, b, PLAIN);
        LetGoHead(s, s1, s', x, b);
      } else {
        ReleaseAllOther(s1, x, order, env, b);
        UntouchedTrans(s, s1, s', b);
      }
    }
  }

  lemma CompletedIsPlaced(s: KState, s1: KState, s': KState, x: Id)
    requires Inv(s, PLAIN) && x in s.running && x in s.nodes && Typed(s) && MarkCompleted(s, x).Ok?
    requires s1 == MarkCompleted(s, x).value.(completed := s.completed + {x}) && Untouched(s1, s', x)
    ensures EndsAs(s', x, Success)
  {
    hide EdgesAgree, OpenAgree;
    assert Placed(s, x);
  }

  /** What the daemon writes between two attempts: TIMEOUT into the running task, and RUNNING when the
      next attempt begins. Everything else stays. */
  lemma DaemonWrites(states: seq<KState>, ops: seq<Op>, k: nat)
    requires Run(states, ops) && k < |ops| && (ops[k].TimeOutOp? || ops[k].RestartOp?)
    ensures
      var s, s', x := states[k], states[k + 1], ops[k].id;
      && x in s.nodes && x in s'.nodes
      && s'.nodes[x].task.status == (if ops[k].TimeOutOp? then Timeout else Running)
      && s'.nodes[x] == s.nodes[x].(task := s.nodes[x].task.(status := s'.nodes[x].task.status,
                                                           blockReason := s.nodes[x].task.tcbReason))
      && s' == s.(nodes := s.nodes[x := s'.nodes[x]])
  {
    hide Run, Inv;
    StepOf(states, ops, k);
  }
}
