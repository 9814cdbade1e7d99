/** What a dispatch does with each task, said through the answers it gets. */
module KernelDispatch {
  import opened Graphs
  import opened Tasks
  import opened TaskGraph
  import opened KernelSpec
  import opened KernelRuns
  import opened KernelOrder
  import opened KernelTheorems
  import opened KernelStranded
  import opened KernelEnds

  /** A waiting task that an idle scheduler asks about: nothing is open and it has a reason. */
  predicate AskedAbout(s: KState, id: Id) {
    && s.ready == [] && id in s.waiting && id in s.nodes
    && s.nodes[id].open == {} && s.nodes[id].task.blockReason != ""
  }

  /** The tasks that a dispatch looks at: the ready ones, or those an idle scheduler may wake. */
  predicate Candidate(s: KState, env: Env, id: Id) {
    id in s.ready || (AskedAbout(s, id) && env.wake(id).Granted?)
  }

  /** The task of a candidate when its turn comes. */
  function AtItsTurn(s: KState, id: Id): Task
    requires id in s.nodes
  {
    if id in s.ready then s.nodes[id].task
    else s.nodes[id].task.(status := Ready, blockReason := "", tcbReason := "")
  }

  /** From s to s' the task of id became t, and id moved to the queue that its status names. */
  predicate Became(s: KState, s': KState, id: Id, t: Task) {
    && id in s.nodes && id in s'.nodes
    && s'.nodes[id].task == t && s'.nodes[id].open == s.nodes[id].open
    && (id in s'.ready <==> t.status == Ready)
    && (id in s'.waiting <==> t.status in {Pending, Blocked})
    && (id in s'.running <==> t.status in {Running, Timeout})
    && (id in s'.failedQ <==> id in s.failedQ) && (id in s'.completedQ <==> id in s.completedQ)
    && (id in s'.failed <==> id in s.failed) && (id in s'.completed <==> id in s.completed)
  }

  /** A looked-at task whose task was t: without an agent it is BLOCKED for that reason, refused it
      is BLOCKED for the reason given, else it is RUNNING. */
  predicate LookedAt(s: KState, s': KState, env: Env, id: Id, t: Task) {
    if env.agentMissing(id) then
      Became(s, s', id, t.(status := Blocked, blockReason := "no_capability_match", tcbReason := "no_capability_match"))
    else
      match env.grant(id)
      case Refused(r) => Became(s, s', id, t.(status := Blocked, blockReason := r, tcbReason := r))
      case Granted => Became(s, s', id, t.(status := Running, blockReason := ""))
  }

  // ---- waking ----

  /** What waking means for one task. */
  predicate Asked(s: KState, s': KState, env: Env, id: Id) {
    if AskedAbout(s, id) then
      match env.wake(id)
      case Granted => Became(s, s', id, s.nodes[id].task.(status := Ready, blockReason := "", tcbReason := ""))
      case Refused(r) => Became(s, s', id, s.nodes[id].task.(blockReason := r))
    else Untouched(s, s', id)
  }

  /** The same without the condition that the scheduler is idle: it holds of the loop's every state. */
  predicate Answered(s: KState, s': KState, env: Env, id: Id) {
    && id in s.nodes
    && if s.nodes[id].open == {} && s.nodes[id].task.blockReason != "" then
         match env.wake(id)
         case Granted => Became(s, s', id, s.nodes[id].task.(status := Ready, blockReason := "", tcbReason := ""))
         case Refused(r) => Became(s, s', id, s.nodes[id].task.(blockReason := r))
       else Untouched(s, s', id)
  }

  lemma WakeOneAt(s: KState, id: Id, env: Env)
    requires Inv(s, PLAIN) && id in s.waiting && id in s.nodes && WakeOne(s, id, env).Ok?
    ensures Answered(s, WakeOne(s, id, env).value, env, id)
  {
    hide Inv, StableSort, RemoveFirst, Became, SameGraph;
    NotInQueues(s, id);
    WakeOneKeeps(s, id, env, PLAIN);
    var s' := WakeOne(s, id, env).value;
    SameGraphKeys(s.nodes, s'.nodes);
    PlacedBecame(s, s', id);
    UntouchedSelf(s, id);
  }

  /** A queued task is in none of the tables of ended tasks. */
  lemma NotInQueues(s: KState, id: Id)
    requires Inv(s, PLAIN) && (id in s.ready || id in s.waiting) && id in s.nodes
    ensures id !in s.failedQ && id !in s.completedQ && id !in s.failed && id !in s.completed
    ensures s.nodes[id].task.status in {Ready, Pending, Blocked}
    ensures id in s.ready <==> s.nodes[id].task.status == Ready
  {
    hide EdgesAgree, OpenAgree;
    assert Placed(s, id);
  }

  /** The invariant puts a live task into the queue of its status. */
  lemma PlacedBecame(s: KState, s': KState, id: Id)
    requires Inv(s', PLAIN) && id in s.nodes && id in s'.nodes && s'.nodes[id].open == s.nodes[id].open
    requires id !in s.failedQ && id !in s.completedQ && id !in s.failed && id !in s.completed
    requires s'.nodes[id].task.status in {Ready, Pending, Blocked, Running}
    ensures Became(s, s', id, s'.nodes[id].task)
  {
    hide EdgesAgree, OpenAgree;
    assert Placed(s', id);
  }

  lemma WakeOneOther(s: KState, id: Id, env: Env, a: Id)
    requires id in s.nodes && a in s.nodes && a != id && WakeOne(s, id, env).Ok?
    ensures Untouched(s, WakeOne(s, id, env).value, a)
  {
    hide Release;
    if s.nodes[id].open == {} && s.nodes[id].task.blockReason != "" && env.wake(id).Granted? {
      ReleaseOther(s, id, env, a);
    }
  }

  lemma {:induction false} WakeOther(s: KState, todo: seq<Id>, env: Env, a: Id)
    requires (forall id :: id in todo ==> id in s.nodes) && a in s.nodes && a !in todo && Wake(s, todo, env).Ok?
    ensures Untouched(s, Wake(s, todo, env).value, a)
    decreases |todo|
  {
    hide WakeOne, Untouched;
    if todo == [] {
      UntouchedSelf(s, a);
    } else {
      WakeOneOther(s, todo[0], env, a);
      var s1 := WakeOne(s, todo[0], env).value;
      WakeKeys(s, todo[0], env);
      StaysKnown(s, s1, a);
      WakeOther(s1, todo[1..], env, a);
      UntouchedTrans(s, s1, Wake(s, todo, env).value, a);
    }
  }

  lemma WakeKeys(s: KState, id: Id, env: Env)
    requires id in s.nodes && WakeOne(s, id, env).Ok?
    ensures WakeOne(s, id, env).value.nodes.Keys == s.nodes.Keys
  {
  }

  lemma StaysKnown(s: KState, s1: KState, a: Id)
    requires Untouched(s, s1, a)
    ensures a in s1.nodes && (a in s1.waiting <==> a in s.waiting)
  {
  }

  lemma AnsweredFrames(s: KState, s1: KState, s2: KState, s3: KState, env: Env, a: Id)
    requires Untouched(s, s1, a) && Answered(s1, s2, env, a) && Untouched(s2, s3, a)
    ensures Answered(s, s3, env, a)
  {
  }

  lemma AnsweredKnown(s: KState, s': KState, env: Env, a: Id)
    requires Answered(s, s', env, a)
    ensures Untouched(s', s', a)
  {
  }

  lemma {:induction false} WakeAt(s: KState, todo: seq<Id>, env: Env, a: Id)
    requires Inv(s, PLAIN) && NoDuplicates(todo) && (forall id :: id in todo ==> id in s.waiting && id in s.nodes)
    requires a in todo && Wake(s, todo, env).Ok?
    ensures Answered(s, Wake(s, todo, env).value, env, a)
    decreases |todo|
  {
    hide Inv, WakeOne, Untouched, Answered, SameGraph, NoDuplicates;
    HeadTail(todo);
    WakeOneKeeps(s, todo[0], env, PLAIN);
    var s1, s' := WakeOne(s, todo[0], env).value, Wake(s, todo, env).value;
    WakeKeys(s, todo[0], env);
    if a == todo[0] {
      WakeOneAt(s, a, env);
      WakeOther(s1, todo[1..], env, a);
      UntouchedSelf(s, a);
      AnsweredFrames(s, s, s1, s', env, a);
    } else {
      WakeOneOther(s, todo[0], env, a);
      WakeAt(s1, todo[1..], env, a);
      AnsweredKnown(s1, s', env, a);
      AnsweredFrames(s, s1, s', s', env, a);
    }
  }

  /** The head of the dispatch loop: every task of an idle scheduler has been asked about, no task of a
      busy one, and the ready queue holds the candidates. */
  lemma BeforeDispatchAt(s: KState, env: Env, a: Id)
    requires Inv(s, PLAIN) && Typed(s) && a in s.nodes && BeforeDispatch(s, env).Ok?
    ensures Asked(s, BeforeDispatch(s, env).value, env, a)
  {
    hide Inv, Wake, StableSort, Untouched, Became;
    InvFacts(s, PLAIN);
    WakeTyped(s, s.waiting, env);
    var s1 := if s.ready == [] then Wake(s, s.waiting, env).value else s;
    SortPermutes(s1, env, env.sortClock, s1.ready);
    var s2 := BeforeDispatch(s, env).value;
    if s.ready == [] {
      if a in s.waiting {
        WakeAt(s, s.waiting, env, a);
        AnsweredKnown(s, s1, env, a);
        UntouchedReorder(s1, s2, a);
        UntouchedSelf(s, a);
        AnsweredFrames(s, s, s1, s2, env, a);
      } else {
        WakeOther(s, s.waiting, env, a);
        StaysKnown(s, s1, a);
        UntouchedReorder(s1, s2, a);
        UntouchedTrans(s, s1, s2, a);
      }
    } else {
      UntouchedReorder(s1, s2, a);
    }
  }

  lemma UntouchedReorder(s: KState, s': KState, a: Id)
    requires a in s.nodes && s' == s.(ready := s'.ready) && (a in s'.ready <==> a in s.ready)
    ensures Untouched(s, s', a)
  {
  }

  // ---- handing out ----

  lemma DispatchOneAt(s: KState, env: Env)
    requires Inv(s, PLAIN) && s.ready != [] && s.ready[0] in s.nodes && DispatchOne(s, env).Ok?
    ensures LookedAt(s, DispatchOne(s, env).value.0, env, s.ready[0], s.nodes[s.ready[0]].task)
  {
    hide Inv, RemoveFirst, Became, SameGraph;
    var id := s.ready[0];
    assert id in s.ready;
    NotInQueues(s, id);
    DispatchOneKeeps(s, env, PLAIN);
    var s' := DispatchOne(s, env).value.0;
    SameGraphKeys(s.nodes, s'.nodes);
    PlacedBecame(s, s', id);
  }

  lemma DispatchOneOther(s: KState, env: Env, a: Id)
    requires s.ready != [] && s.ready[0] in s.nodes && DispatchOne(s, env).Ok? && a in s.nodes && a != s.ready[0]
    ensures Untouched(s, DispatchOne(s, env).value.0, a)
  {
    hide RemoveFirst;
    var id := s.ready[0];
    assert s.ready == [id] + s.ready[1..];
    OthersSurvive(s.ready[1..], id, a);
    OthersSurvive(s.waiting, id, a);
    OthersSurvive(s.failedQ, id, a);
    OthersSurvive(s.completedQ, id, a);
  }

  /** Those that get an agent and the resources, in the order of q. */
  function Granting(env: Env, q: seq<Id>): seq<Id> {
    if q == [] then []
    else
      (if !env.agentMissing(q[0]) && env.grant(q[0]).Granted? then [q[0]] else []) + Granting(env, q[1..])
  }

  /** n tasks of q are looked at: all of them, or as many as it takes to hand out the limit. */
  ghost predicate StopsAt(limit: Option<int>, env: Env, q: seq<Id>, handed: nat, n: nat) {
    && n <= |q|
    && match limit
       case None => n == |q|
       case Some(l) =>
         && (n < |q| ==> handed + |Granting(env, q[..n])| >= l)
         && (forall m :: 0 <= m < n ==> handed + |Granting(env, q[..m])| < l)
  }

  lemma {:induction false} LoopStops(s: KState, limit: Option<int>, env: Env, out: seq<Id>) returns (n: nat)
    requires NoDuplicates(s.ready) && (forall id :: id in s.ready ==> id in s.nodes)
    requires DispatchLoop(s, limit, env, out).Ok?
    ensures StopsAt(limit, env, s.ready, |out|, n)
    ensures DispatchLoop(s, limit, env, out).value.0.ready == s.ready[n..]
    ensures DispatchLoop(s, limit, env, out).value.1 == out + Granting(env, s.ready[..n])
    decreases |s.ready|
  {
    hide DispatchOne, NoDuplicates, StopsAt, Granting;
    if s.ready == [] || (limit.Some? && |out| >= limit.value) {
      n := 0;
      NothingGranted(env, s.ready[..0]);
      StopsAtOnce(limit, env, s.ready, |out|);
    } else {
      HeadTail(s.ready);
      DispatchOnePops(s, env);
      ReadyShrinks(s, env);
      var r := DispatchOne(s, env).value;
      var out1 := if r.1 then out + [s.ready[0]] else out;
      var n1 := LoopStops(r.0, limit, env, out1);
      n := n1 + 1;
      StopsInBounds(limit, env, r.0.ready, |out1|, n1);
      GrantingHead(env, s.ready, n);
      GrantingOne(env, s.ready[0]);
      assert s.ready[n..] == r.0.ready[n1..];
      StopsLater(limit, env, s.ready, |out|, n1, |out1|);
      Regrouped(out, Granting(env, [s.ready[0]]), Granting(env, r.0.ready[..n1]));
    }
  }

  lemma GrantingHead(env: Env, q: seq<Id>, n: nat)
    requires 1 <= n <= |q|
    ensures Granting(env, q[..n]) == Granting(env, [q[0]]) + Granting(env, q[1..][..n - 1])
    ensures q[..1] == [q[0]]
  {
    assert q[..n][1..] == q[1..][..n - 1];
    assert [q[0]][1..] == [];
  }

  lemma NothingGranted(env: Env, q: seq<Id>)
    requires q == []
    ensures forall out: seq<Id> :: out + Granting(env, q) == out
  {
  }

  lemma GrantingOne(env: Env, id: Id)
    ensures Granting(env, [id]) == if !env.agentMissing(id) && env.grant(id).Granted? then [id] else []
  {
    assert [id][1..] == [];
  }

  lemma Regrouped(a: seq<Id>, b: seq<Id>, c: seq<Id>)
    ensures (a + b) + c == a + (b + c)
  {
  }

  lemma StopsInBounds(limit: Option<int>, env: Env, q: seq<Id>, handed: nat, n: nat)
    requires StopsAt(limit, env, q, handed, n)
    ensures n <= |q|
  {
  }

  lemma StopsAtOnce(limit: Option<int>, env: Env, q: seq<Id>, handed: nat)
    requires q == [] || (limit.Some? && handed >= limit.value)
    ensures StopsAt(limit, env, q, handed, 0)
  {
  }

  lemma StopsLater(limit: Option<int>, env: Env, q: seq<Id>, handed: nat, n: nat, handed1: nat)
    requires q != [] && (limit.Some? ==> handed < limit.value) && StopsAt(limit, env, q[1..], handed1, n)
    requires handed1 == handed + |Granting(env, q[..1])|
    ensures StopsAt(limit, env, q, handed, n + 1)
  {
    forall m | 0 <= m <= n ensures handed + |Granting(env, q[..m + 1])| == handed1 + |Granting(env, q[1..][..m])| {
      assert q[..m + 1][1..] == q[1..][..m];
      assert q[..1][1..] == [];
    }
    if limit.Some? {
      forall m | 0 <= m < n + 1 ensures handed + |Granting(env, q[..m])| < limit.value {
        if m > 0 {
          var j := m - 1;
          assert handed + |Granting(env, q[..j + 1])| == handed1 + |Granting(env, q[1..][..j])|;
        }
      }
    }
  }

  /** The tasks before the stop have been looked at; every other task is as it was. */
  lemma {:induction false} LoopAt(s: KState, limit: Option<int>, env: Env, out: seq<Id>, n: nat, a: Id)
    requires Inv(s, PLAIN) && a in s.nodes && (forall id :: id in s.ready ==> id in s.nodes)
    requires DispatchLoop(s, limit, env, out).Ok? && n <= |s.ready|
    requires DispatchLoop(s, limit, env, out).value.0.ready == s.ready[n..]
    ensures
      var s' := DispatchLoop(s, limit, env, out).value.0;
      if a in s.ready[..n] then LookedAt(s, s', env, a, s.nodes[a].task) else Untouched(s, s', a)
    decreases |s.ready|
  {
    hide Inv, DispatchOne, LookedAt, Untouched, SameGraph, NoDuplicates;
    InvFacts(s, PLAIN);
    var s' := DispatchLoop(s, limit, env, out).value.0;
    if s.ready == [] || (limit.Some? && |out| >= limit.value) {
      UntouchedSelf(s, a);
    } else {
      HeadTail(s.ready);
      DispatchOneKeeps(s, env, PLAIN);
      DispatchOnePops(s, env);
      ReadyShrinks(s, env);
      var r := DispatchOne(s, env).value;
      var out1 := if r.1 then out + [s.ready[0]] else out;
      var n1 := LoopStops(r.0, limit, env, out1);
      StopsInBounds(limit, env, r.0.ready, |out1|, n1);
      assert |s.ready[n..]| == |r.0.ready[n1..]|;
      assert s.ready[..n] == [s.ready[0]] + r.0.ready[..n1];
      LoopAt(r.0, limit, env, out1, n1, a);
      if a == s.ready[0] {
        DispatchOneAt(s, env);
        assert a !in r.0.ready[..n1];
        LookedAtTail(s, r.0, s', env, a, s.nodes[a].task);
      } else {
        DispatchOneOther(s, env, a);
        if a in s.ready[..n] { LookedAtHead(s, r.0, s', env, a); } else { UntouchedTrans(s, r.0, s', a); }
      }
    }
  }

  lemma LookedAtTail(s: KState, s1: KState, s2: KState, env: Env, a: Id, t: Task)
    requires LookedAt(s, s1, env, a, t) && Untouched(s1, s2, a)
    ensures LookedAt(s, s2, env, a, t)
  {
  }

  lemma LookedAtHead(s: KState, s1: KState, s2: KState, env: Env, a: Id)
    requires Untouched(s, s1, a) && a in s1.nodes && LookedAt(s1, s2, env, a, s1.nodes[a].task)
    ensures a in s.nodes && LookedAt(s, s2, env, a, s.nodes[a].task)
  {
  }

  // ---- whose turn it is ----

  /** The older or more urgent task by aged priority: a point of priority is worth thirty seconds of
      age, as far as the clock has got; the creation time decides between equals. */
  predicate AgedFirst(a: Task, b: Task, now: real) {
    var ka := 30.0 * a.priority as real - Seen(a.createdAt, now);
    var kb := 30.0 * b.priority as real - Seen(b.createdAt, now);
    ka > kb || (ka == kb && a.createdAt < b.createdAt)
  }

  /** The policies in words: the older task, the one with the higher aged priority, or the one with
      the lower score and among equal scores the one with the higher aged priority. */
  predicate HasTurnBefore(policy: Policy, a: Task, scoreA: real, b: Task, scoreB: real, now: real) {
    match policy
    case Fifo => a.createdAt < b.createdAt
    case Priority => AgedFirst(a, b, now)
    case Scored => scoreA < scoreB || (scoreA == scoreB && AgedFirst(a, b, now))
  }

  lemma SortCompares(s: KState, env: Env, now: real, a: Id, b: Id)
    requires a in s.nodes && b in s.nodes
    ensures GoesBefore(s, env, now, a, b) <==>
      HasTurnBefore(s.policy, s.nodes[a].task, env.score(a), s.nodes[b].task, env.score(b), now)
  {
    AgedTimes30(s.nodes[a].task, now);
    AgedTimes30(s.nodes[b].task, now);
  }

  lemma {:induction false} InsertKeepsOrder(s: KState, env: Env, now: real, q: seq<Id>, x: Id, a: Id, b: Id)
    requires Precedes(q, a, b)
    ensures Precedes(Insert(s, env, now, q, x), a, b)
  {
    hide GoesBefore;
    var i, j :| 0 <= i < j < |q| && q[i] == a && q[j] == b;
    var last := q[|q| - 1];
    var r := Insert(s, env, now, q, x);
    if !GoesBefore(s, env, now, x, last) {
      assert r[i] == a && r[j] == b;
    } else {
      var front := q[..|q| - 1];
      var f := Insert(s, env, now, front, x);
      if j < |q| - 1 {
        assert front[i] == a && front[j] == b;
        InsertKeepsOrder(s, env, now, front, x, a, b);
        var i1, j1 :| 0 <= i1 < j1 < |f| && f[i1] == a && f[j1] == b;
        assert r[i1] == a && r[j1] == b;
      } else {
        InsertMembers(s, env, now, front, x);
        assert front[i] == a && a in f;
        var i1 :| 0 <= i1 < |f| && f[i1] == a;
        assert r[i1] == a && r[|r| - 1] == b;
      }
    }
  }

  lemma {:induction false} InsertGoesAfter(s: KState, env: Env, now: real, q: seq<Id>, x: Id, a: Id)
    requires a in q && !GoesBefore(s, env, now, x, a)
    ensures Precedes(Insert(s, env, now, q, x), a, x)
  {
    hide GoesBefore;
    var i :| 0 <= i < |q| && q[i] == a;
    var last := q[|q| - 1];
    var r := Insert(s, env, now, q, x);
    if !GoesBefore(s, env, now, x, last) {
      assert r[i] == a && r[|r| - 1] == x;
    } else {
      var front := q[..|q| - 1];
      assert front[i] == a;
      InsertGoesAfter(s, env, now, front, x, a);
      var f := Insert(s, env, now, front, x);
      var i1, j1 :| 0 <= i1 < j1 < |f| && f[i1] == a && f[j1] == x;
      assert r[i1] == a && r[j1] == x;
    }
  }

  /** Between tasks of which the later does not go before the earlier, sorting keeps the order. */
  lemma {:induction false} SortIsStable(s: KState, env: Env, now: real, q: seq<Id>, a: Id, b: Id)
    requires Precedes(q, a, b) && !GoesBefore(s, env, now, b, a)
    ensures Precedes(StableSort(s, env, now, q), a, b)
  {
    hide GoesBefore, Insert;
    var i, j :| 0 <= i < j < |q| && q[i] == a && q[j] == b;
    var front, x := q[..|q| - 1], q[|q| - 1];
    var f := StableSort(s, env, now, front);
    assert front[i] == a;
    if j < |q| - 1 {
      assert front[j] == b;
      SortIsStable(s, env, now, front, a, b);
      InsertKeepsOrder(s, env, now, f, x, a, b);
    } else {
      SortPermutes(s, env, now, front);
      assert a in f;
      InsertGoesAfter(s, env, now, f, x, a);
    }
  }

  // ---- any dispatch of any run ----

  /** q lists the candidates, each once, nobody behind one that it has its turn before; in a busy
      scheduler equals stand as they stood. */
  ghost predicate InTurn(s: KState, env: Env, q: seq<Id>) {
    && NoDuplicates(q)
    && (forall id :: id in q <==> Candidate(s, env, id))
    && (forall id :: id in q ==> id in s.nodes)
    && (forall i, j :: 0 <= i < j < |q| && q[i] in s.nodes && q[j] in s.nodes ==>
          !TurnBefore(s, env, q[j], q[i]))
    && (forall a, b :: Precedes(s.ready, a, b) && a in s.nodes && b in s.nodes && !TurnBefore(s, env, b, a) ==>
          Precedes(q, a, b))
  }

  predicate TurnBefore(s: KState, env: Env, a: Id, b: Id)
    requires a in s.nodes && b in s.nodes
  {
    HasTurnBefore(s.policy, s.nodes[a].task, env.score(a), s.nodes[b].task, env.score(b), env.sortClock)
  }

  /** What the dispatch leaves of each task, if it looks at the first n of q. */
  predicate Dispatched(s: KState, s': KState, env: Env, looked: seq<Id>, id: Id) {
    && id in s.nodes
    && if id in looked then LookedAt(s, s', env, id, AtItsTurn(s, id)) else Asked(s, s', env, id)
  }

  /** At any dispatch of any run: the candidates are the ready tasks or, if there are none, the
      waiting tasks with nothing open and a reason for which waking is granted. They have their
      turns in the order of the policy. The first n are looked at, all of them if there is no limit,
      else as many as it takes to hand out that many. Of these the ones with an agent and a grant are
      handed out, in order, and nobody else; the others are BLOCKED for the reason given. The
      candidates that are left stay ready. A waiting task asked about in vain waits on with the new
      reason, and every other task is as it was. */
  lemma DispatchFollowsTheAnswers(states: seq<KState>, ops: seq<Op>, k: nat) returns (q: seq<Id>, n: nat)
    requires Run(states, ops) && k < |ops| && ops[k].DispatchOp?
    ensures
      var s, s', limit, env := states[k], states[k + 1], ops[k].limit, ops[k].env;
      && InTurn(s, env, q) && StopsAt(limit, env, q, 0, n) && n <= |q|
      && s'.ready == q[n..] && s'.nodes.Keys == s.nodes.Keys
      && (forall id :: id in s.nodes ==> Dispatched(s, s', env, q[..n], id))
      && Typed(s) && Dispatch(s, limit, env).Ok? && Dispatch(s, limit, env).value == (s', Granting(env, q[..n]))
  {
    hide Run, Inv, BeforeDispatch, DispatchLoop, SameGraph, InTurn, StopsAt, Dispatched;
    StepOf(states, ops, k);
    var s, s', limit, env := states[k], states[k + 1], ops[k].limit, ops[k].env;
    DispatchKeeps(s, limit, env, PLAIN);
    SameGraphKeys(s.nodes, s'.nodes);
    BeforeDispatchKeeps(s, env, PLAIN);
    var s1 := BeforeDispatch(s, env).value;
    InvFacts(s1, PLAIN);
    q := s1.ready;
    n := LoopStops(s1, limit, env, []);
    StopsInBounds(limit, env, q, 0, n);
    assert [] + Granting(env, q[..n]) == Granting(env, q[..n]);
    assert Dispatch(s, limit, env) == DispatchLoop(s1, limit, env, []);
    QueueInTurn(s, env);
    forall id | id in s.nodes ensures Dispatched(s, s', env, q[..n], id) {
      BeforeDispatchAt(s, env, id);
      SameGraphKeys(s.nodes, s1.nodes);
      LoopAt(s1, limit, env, [], n, id);
      DispatchedAt(s, s1, s', env, q[..n], id);
    }
  }

  /** Asked, then looked at or passed over. */
  lemma DispatchedAt(s: KState, s1: KState, s': KState, env: Env, looked: seq<Id>, id: Id)
    requires Inv(s, PLAIN) && id in s.nodes && id in s1.nodes && Asked(s, s1, env, id)
    requires id in looked ==> id in s1.ready
    requires if id in looked then LookedAt(s1, s', env, id, s1.nodes[id].task) else Untouched(s1, s', id)
    ensures Dispatched(s, s', env, looked, id)
  {
    hide Inv;
    if id in s.ready || id in s.waiting { NotInQueues(s, id); }
  }

  lemma SameRanks(s: KState, s1: KState, env: Env, a: Id)
    requires a in s.nodes && Asked(s, s1, env, a)
    ensures a in s1.nodes && s1.nodes[a].task.priority == s.nodes[a].task.priority
    ensures s1.nodes[a].task.createdAt == s.nodes[a].task.createdAt
  {
  }

  lemma ReadyIsCandidate(s: KState, s1: KState, env: Env, a: Id)
    requires Inv(s, PLAIN) && a in s.nodes && Asked(s, s1, env, a)
    ensures a in s1.ready <==> Candidate(s, env, a)
  {
    hide Inv;
    if a in s.ready || a in s.waiting { NotInQueues(s, a); }
  }

  lemma PolicyStays(s: KState, env: Env)
    requires Typed(s) && BeforeDispatch(s, env).Ok?
    ensures BeforeDispatch(s, env).value.policy == s.policy
    ensures s.ready != [] ==>
      BeforeDispatch(s, env).value == s.(ready := StableSort(s, env, env.sortClock, s.ready))
  {
    hide Wake, StableSort;
    if s.ready == [] { WakeTyped(s, s.waiting, env); WakePolicy(s, s.waiting, env); }
  }

  lemma QueueInTurn(s: KState, env: Env)
    requires Inv(s, PLAIN) && Typed(s) && BeforeDispatch(s, env).Ok?
    ensures InTurn(s, env, BeforeDispatch(s, env).value.ready)
  {
    hide Inv, BeforeDispatch, SameGraph, NoDuplicates, Asked, GoesBefore, HasTurnBefore, Candidate, StableSort,
      Precedes;
    BeforeDispatchKeeps(s, env, PLAIN);
    var s1 := BeforeDispatch(s, env).value;
    var q := s1.ready;
    InvFacts(s1, PLAIN);
    SameGraphKeys(s.nodes, s1.nodes);
    PolicyStays(s, env);
    forall id ensures id in q <==> Candidate(s, env, id) {
      CandidateIsKnown(s, env, id);
      if id in s.nodes {
        BeforeDispatchAt(s, env, id);
        ReadyIsCandidate(s, s1, env, id);
      }
    }
    SortedBeforeDispatch(s, env);
    forall i, j | 0 <= i < j < |q| ensures !TurnBefore(s, env, q[j], q[i]) {
      RanksAgree(s, s1, env, q[j], q[i]);
    }
    forall a, b | Precedes(s.ready, a, b) && a in s.nodes && b in s.nodes && !TurnBefore(s, env, b, a)
      ensures Precedes(q, a, b)
    {
      SortCompares(s, env, env.sortClock, b, a);
      SortIsStable(s, env, env.sortClock, s.ready, a, b);
      PrecedesIsNonempty(s.ready, a, b);
    }
  }

  lemma PrecedesIsNonempty(q: seq<Id>, a: Id, b: Id)
    requires Precedes(q, a, b)
    ensures q != []
  {
  }

  lemma CandidateIsKnown(s: KState, env: Env, id: Id)
    requires Typed(s)
    ensures Candidate(s, env, id) ==> id in s.nodes
  {
  }

  lemma RanksAgree(s: KState, s1: KState, env: Env, a: Id, b: Id)
    requires Inv(s, PLAIN) && Typed(s) && BeforeDispatch(s, env).Ok? && s1 == BeforeDispatch(s, env).value
    requires a in s.nodes && b in s.nodes && s1.policy == s.policy
    ensures a in s1.nodes && b in s1.nodes
    ensures GoesBefore(s1, env, env.sortClock, a, b) <==> TurnBefore(s, env, a, b)
  {
    hide Inv, BeforeDispatch, Asked;
    BeforeDispatchAt(s, env, a);
    BeforeDispatchAt(s, env, b);
    SameRanks(s, s1, env, a);
    SameRanks(s, s1, env, b);
    SortCompares(s1, env, env.sortClock, a, b);
  }

  /** With no limit a dispatch hands out exactly the candidates with an agent and a grant. In
      particular an idle scheduler hands out exactly the waiting tasks with nothing open and a reason
      that may be woken, have an agent and are granted, and a busy one wakes nobody. */
  lemma UnlimitedDispatch(states: seq<KState>, ops: seq<Op>, k: nat, id: Id)
    requires Run(states, ops) && k < |ops| && ops[k].DispatchOp? && ops[k].limit == None
    ensures
      var s, env := states[k], ops[k].env;
      && Typed(s) && Dispatch(s, None, env).Ok?
      && (id in Dispatch(s, None, env).value.1 <==>
            && (if s.ready == [] then
                  && id in s.waiting && id in s.nodes && s.nodes[id].open == {} && s.nodes[id].task.blockReason != ""
                  && env.wake(id).Granted?
                else id in s.ready)
            && !env.agentMissing(id) && env.grant(id).Granted?)
  {
    hide Run, Typed, Dispatch, Dispatched;
    var q, n := DispatchFollowsTheAnswers(states, ops, k);
    assert q[..n] == q;
    GrantingMembers(ops[k].env, q, id);
  }

  lemma {:induction false} GrantingMembers(env: Env, q: seq<Id>, id: Id)
    ensures id in Granting(env, q) <==> id in q && !env.agentMissing(id) && env.grant(id).Granted?
  {
    if q == [] {
    } else {
      GrantingMembers(env, q[1..], id);
    }
  }
}
