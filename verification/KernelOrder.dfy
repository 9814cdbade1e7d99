/** The order in which ready tasks are handed out. */
module KernelOrder {
  import opened Graphs
  import opened Tasks
  import opened KernelSpec

  ghost predicate Sorted(s: KState, env: Env, now: real, q: seq<Id>) {
    forall i, j :: 0 <= i < j < |q| ==> !GoesBefore(s, env, now, q[j], q[i])
  }

  ghost predicate AllKnown(s: KState, q: seq<Id>) {
    forall i :: 0 <= i < |q| ==> q[i] in s.nodes
  }

  /** Ties aside, the key order is linear. */
  lemma NotBeforeTrans(s: KState, env: Env, now: real, a: Id, b: Id, c: Id)
    requires a in s.nodes && b in s.nodes && c in s.nodes
    requires !GoesBefore(s, env, now, b, a) && !GoesBefore(s, env, now, c, b)
    ensures !GoesBefore(s, env, now, c, a)
  {
  }

  lemma InsertMembers(s: KState, env: Env, now: real, q: seq<Id>, x: Id)
    ensures forall y :: y in Insert(s, env, now, q, x) <==> y in q || y == x
  {
    hide GoesBefore;
    InsertPermutes(s, env, now, q, x);
    var r := Insert(s, env, now, q, x);
    forall y ensures y in r <==> y in q || y == x {
      assert y in r <==> y in multiset(r);
      assert y in q <==> y in multiset(q);
    }
  }

  lemma {:induction false} InsertSorts(s: KState, env: Env, now: real, q: seq<Id>, x: Id)
    requires Sorted(s, env, now, q) && AllKnown(s, q) && x in s.nodes
    ensures Sorted(s, env, now, Insert(s, env, now, q, x)) && AllKnown(s, Insert(s, env, now, q, x))
  {
    hide GoesBefore;
    InsertMembers(s, env, now, q, x);
    if q == [] {
    } else {
      var last := q[|q| - 1];
      if GoesBefore(s, env, now, x, last) {
        var front := q[..|q| - 1];
        InsertSorts(s, env, now, front, x);
        InsertMembers(s, env, now, front, x);
        var f := Insert(s, env, now, front, x);
        forall i | 0 <= i < |f| ensures !GoesBefore(s, env, now, last, f[i]) {
          assert f[i] in f;
          if f[i] == x {
            BeforeAsymmetric(s, env, now, x, last);
          } else {
            var k :| 0 <= k < |front| && front[k] == f[i];
            assert q[k] == f[i];
          }
        }
      } else {
        forall i | 0 <= i < |q| ensures !GoesBefore(s, env, now, x, q[i]) {
          if i < |q| - 1 { NotBeforeTrans(s, env, now, q[i], last, x); }
        }
      }
    }
  }

  lemma BeforeAsymmetric(s: KState, env: Env, now: real, a: Id, b: Id)
    requires GoesBefore(s, env, now, a, b)
    ensures !GoesBefore(s, env, now, b, a)
  {
  }

  lemma {:induction false} StableSortSorts(s: KState, env: Env, now: real, q: seq<Id>)
    requires AllKnown(s, q)
    ensures Sorted(s, env, now, StableSort(s, env, now, q)) && AllKnown(s, StableSort(s, env, now, q))
  {
    hide GoesBefore;
    if q == [] {
    } else {
      StableSortSorts(s, env, now, q[..|q| - 1]);
      InsertSorts(s, env, now, StableSort(s, env, now, q[..|q| - 1]), q[|q| - 1]);
    }
  }

  // ---- the priority policy ----

  /** What the sort of the priority policy compares at a clock reading. */
  predicate BeforeAt(a: Task, b: Task, now: real) {
    Aged(a, now) > Aged(b, now) || (Aged(a, now) == Aged(b, now) && a.createdAt < b.createdAt)
  }

  lemma PriorityCompares(s: KState, env: Env, now: real, a: Id, b: Id)
    requires s.policy == Priority && a in s.nodes && b in s.nodes
    ensures GoesBefore(s, env, now, a, b) <==> BeforeAt(s.nodes[a].task, s.nodes[b].task, now)
  {
  }

  /** A comparison of two tasks that mentions no clock. */
  predicate OutranksAtAllTimes(a: Task, b: Task) {
    var ka, kb := 30.0 * a.priority as real - a.createdAt, 30.0 * b.priority as real - b.createdAt;
    ka > kb || (ka == kb && a.createdAt < b.createdAt)
  }

  /** The creation time as far as the clock has got. */
  function Seen(created: real, now: real): real {
    if created <= now then created else now
  }

  lemma AgedTimes30(t: Task, now: real)
    ensures 30.0 * Aged(t, now) == 30.0 * t.priority as real + now - Seen(t.createdAt, now)
  {
  }

  /** Under the priority policy the order of two tasks is the same whenever the sort runs after both
      were created, or if they were created together. */
  lemma OrderIgnoresClock(s: KState, env: Env, now: real, a: Id, b: Id)
    requires s.policy == Priority && a in s.nodes && b in s.nodes
    requires
      var ca, cb := s.nodes[a].task.createdAt, s.nodes[b].task.createdAt;
      (ca <= now && cb <= now) || ca == cb
    ensures GoesBefore(s, env, now, a, b) <==> OutranksAtAllTimes(s.nodes[a].task, s.nodes[b].task)
  {
    AgedTimes30(s.nodes[a].task, now);
    AgedTimes30(s.nodes[b].task, now);
  }

  /** In steps of thirty seconds: by how much a is older than b, as far as the clock has got. */
  function StepsSeen(a: Task, b: Task, now: real): int {
    ((Seen(b.createdAt, now) - Seen(a.createdAt, now)) / 30.0).Floor
  }

  function StepsApart(a: Task, b: Task): int {
    ((b.createdAt - a.createdAt) / 30.0).Floor
  }

  lemma WholeSteps(k: int, w: real)
    ensures 30.0 * k as real + w >= 0.0 <==> k >= -((w / 30.0).Floor)
  {
    var f := (w / 30.0).Floor;
    assert f as real <= w / 30.0 < f as real + 1.0;
    if k >= -f {
      assert k as real >= -(f as real);
    } else {
      assert k as real <= -(f as real) - 1.0;
    }
  }

  lemma SeenInSteps(a: Task, b: Task, now: real)
    requires a.createdAt < b.createdAt
    ensures BeforeAt(a, b, now) <==> a.priority - b.priority >= -StepsSeen(a, b, now)
  {
    AgedTimes30(a, now);
    AgedTimes30(b, now);
    WholeSteps(a.priority - b.priority, Seen(b.createdAt, now) - Seen(a.createdAt, now));
  }

  lemma ApartInSteps(a: Task, b: Task)
    requires a.createdAt < b.createdAt
    ensures OutranksAtAllTimes(a, b) <==> a.priority - b.priority >= -StepsApart(a, b)
  {
    WholeSteps(a.priority - b.priority, b.createdAt - a.createdAt);
  }

  ghost predicate SameOrderForAllPriorities(a: Task, b: Task, now: real) {
    forall p: int, q: int ::
      BeforeAt(a.(priority := p), b.(priority := q), now) <==>
      OutranksAtAllTimes(a.(priority := p), b.(priority := q))
  }

  /** For an older task a and a younger task b, whatever their priorities: the order at a clock
      reading is the order without a clock exactly if the reading has seen as many whole steps of
      thirty seconds between them as there are. */
  lemma OrderIgnoresClockIff(a: Task, b: Task, now: real)
    requires a.createdAt < b.createdAt
    ensures SameOrderForAllPriorities(a, b, now) <==> StepsSeen(a, b, now) == StepsApart(a, b)
  {
    hide BeforeAt, OutranksAtAllTimes;
    forall p: int, q: int
      ensures BeforeAt(a.(priority := p), b.(priority := q), now) <==> p - q >= -StepsSeen(a, b, now)
      ensures OutranksAtAllTimes(a.(priority := p), b.(priority := q)) <==> p - q >= -StepsApart(a, b)
    {
      SeenInSteps(a.(priority := p), b.(priority := q), now);
      ApartInSteps(a.(priority := p), b.(priority := q));
    }
    var more := if StepsSeen(a, b, now) > StepsApart(a, b) then StepsSeen(a, b, now) else StepsApart(a, b);
    assert BeforeAt(a.(priority := -more), b.(priority := 0), now) <==> -more >= -StepsSeen(a, b, now);
  }

  /** A task created in the future drifts: put first at one reading, put last at a later one. */
  lemma FutureTasksDrift(s: KState, env: Env, a: Id, b: Id)
    requires s.policy == Priority && a in s.nodes && b in s.nodes
    requires s.nodes[a].task.priority == 0 && s.nodes[a].task.createdAt == 0.0
    requires s.nodes[b].task.priority == 1 && s.nodes[b].task.createdAt == 60.0
    ensures GoesBefore(s, env, 0.0, b, a) && GoesBefore(s, env, 60.0, a, b)
  {
    var ta, tb := s.nodes[a].task, s.nodes[b].task;
    assert Aged(ta, 0.0) == 0.0 && Aged(tb, 0.0) == 1.0;
    assert Aged(ta, 60.0) == 2.0 && Aged(tb, 60.0) == 1.0;
  }

  // ---- dispatch takes a prefix ----

  /** a stands before b in q. */
  ghost predicate Precedes(q: seq<Id>, a: Id, b: Id) {
    exists x, y :: 0 <= x < y < |q| && q[x] == a && q[y] == b
  }

  lemma DispatchOnePops(s: KState, env: Env)
    requires s.ready != [] && s.ready[0] in s.nodes && s.ready[0] !in s.ready[1..]
    requires DispatchOne(s, env).Ok?
    ensures DispatchOne(s, env).value.0.ready == s.ready[1..]
    ensures DispatchOne(s, env).value.1 <==> !Refuses(env, s.ready[0])
  {
    RemoveAbsent(s.ready[1..], s.ready[0]);
  }

  /** The dispatch loop puts the task back: no agent matches, or resources are refused. */
  predicate Refuses(env: Env, id: Id) {
    env.agentMissing(id) || env.grant(id).Refused?
  }

  /** The loop consumes a prefix of the queue and hands out some of it, in order. */
  lemma {:induction false} DispatchTakesPrefix(s: KState, limit: Option<int>, env: Env, out: seq<Id>) returns (k: nat)
    requires NoDuplicates(s.ready) && forall id :: id in s.ready ==> id in s.nodes
    requires DispatchLoop(s, limit, env, out).Ok?
    ensures k <= |s.ready|
    ensures
      var (s', out') := DispatchLoop(s, limit, env, out).value;
      && s'.ready == s.ready[k..]
      && out <= out'
      && (forall i :: |out| <= i < |out'| ==> out'[i] in s.ready[..k])
      && (forall i, j :: |out| <= i < j < |out'| ==> Precedes(s.ready, out'[i], out'[j]))
      && (forall t :: t in s.ready[..k] ==> t in out'[|out|..] || Refuses(env, t))
    decreases |s.ready|
  {
    hide DispatchOne;
    if s.ready == [] || (limit.Some? && |out| >= limit.value) {
      k := 0;
    } else {
      assert s.ready == [s.ready[0]] + s.ready[1..];
      DispatchOnePops(s, env);
      ReadyShrinks(s, env);
      var r := DispatchOne(s, env).value;
      var out1 := if r.1 then out + [s.ready[0]] else out;
      var k1 := DispatchTakesPrefix(r.0, limit, env, out1);
      k := k1 + 1;
      var out' := DispatchLoop(s, limit, env, out).value.1;
      assert s.ready[k..] == r.0.ready[k1..];
      assert s.ready[..k] == [s.ready[0]] + r.0.ready[..k1];
      forall i, j | |out| <= i < j < |out'| ensures Precedes(s.ready, out'[i], out'[j]) {
        PrecedesInTail(s.ready, out', i, j, out1, k1);
      }
      forall t | t in s.ready[..k] ensures t in out'[|out|..] || Refuses(env, t) {
        if t == s.ready[0] {
          if r.1 { assert out'[|out|..][0] == t; }
        } else {
          assert t in r.0.ready[..k1];
          TailIsInside(out', |out|, |out1|, t);
        }
      }
    }
  }

  lemma TailIsInside(q: seq<Id>, l: nat, m: nat, t: Id)
    requires l <= m <= |q|
    ensures t in q[m..] ==> t in q[l..]
  {
    assert q[l..] == q[l..m] + q[m..];
  }

  lemma PrecedesInTail(q: seq<Id>, out': seq<Id>, i: nat, j: nat, out1: seq<Id>, k1: nat)
    requires q != [] && i < j < |out'| && out1 <= out' && k1 <= |q| - 1
    requires forall m :: |out1| <= m < |out'| ==> out'[m] in q[1..][..k1]
    requires forall m, n :: |out1| <= m < n < |out'| ==> Precedes(q[1..], out'[m], out'[n])
    requires |out1| <= i || (i == |out1| - 1 && out1[i] == q[0])
    ensures Precedes(q, out'[i], out'[j])
  {
    if |out1| <= i {
      var x, y :| 0 <= x < y < |q[1..]| && q[1..][x] == out'[i] && q[1..][y] == out'[j];
      assert q[x + 1] == out'[i] && q[y + 1] == out'[j];
    } else {
      assert out'[j] in q[1..][..k1];
      var y :| 0 <= y < k1 && q[1..][..k1][y] == out'[j];
      assert q[0] == out'[i] && q[y + 1] == out'[j];
    }
  }

  /** Bounded overtaking: when a dispatch under the priority policy hands out u, every other task t
      of the ready queue has been looked at before, and was handed out or refused, or else t, if
      older, is so by less than 30 * (priority of u - priority of t) seconds, as far as the clock
      has got. It does not matter what becomes of t afterwards. */
  lemma BoundedOvertaking(s: KState, limit: Option<int>, env: Env, i: nat, t: Id)
    requires Typed(s) && s.policy == Priority
    requires BeforeDispatch(s, env).Ok? && Dispatch(s, limit, env).Ok?
    requires
      var q := BeforeDispatch(s, env).value;
      q.policy == Priority && NoDuplicates(q.ready) && t in q.ready
    requires i < |Dispatch(s, limit, env).value.1| && t != Dispatch(s, limit, env).value.1[i]
    ensures
      var q, out := BeforeDispatch(s, env).value, Dispatch(s, limit, env).value.1;
      var u := out[i];
      && u in q.nodes && t in q.nodes
      && if Precedes(q.ready, t, u) then t in out[..i] || Refuses(env, t)
         else Precedes(q.ready, u, t) && Within(q.nodes[u].task, q.nodes[t].task, env.sortClock)
  {
    hide BeforeDispatch, DispatchLoop, StableSort, GoesBefore, NoDuplicates, Refuses, Within;
    var q := BeforeDispatch(s, env).value;
    var out := Dispatch(s, limit, env).value.1;
    var u := out[i];
    var k := DispatchTakesPrefix(q, limit, env, []);
    SortedBeforeDispatch(s, env);
    assert u in q.ready[..k];
    var x :| 0 <= x < k && q.ready[..k][x] == u;
    var y :| 0 <= y < |q.ready| && q.ready[y] == t;
    assert q.ready[x] == u;
    if y < x {
      assert Precedes(q.ready, t, u);
      assert q.ready[..k][y] == t && out[0..] == out;
      if t in out { HandedOutBefore(q.ready, out, i, t); }
    } else {
      assert Precedes(q.ready, u, t);
      OneWay(q.ready, u, t);
      PriorityCompares(q, env, env.sortClock, t, u);
      NotBeforeIsWithin(q.nodes[u].task, q.nodes[t].task, env.sortClock);
    }
  }

  lemma OneWay(q: seq<Id>, a: Id, b: Id)
    requires NoDuplicates(q) && Precedes(q, a, b)
    ensures !Precedes(q, b, a)
  {
  }

  lemma HandedOutBefore(q: seq<Id>, out: seq<Id>, i: nat, t: Id)
    requires NoDuplicates(q) && i < |out| && t in out && t != out[i] && Precedes(q, t, out[i])
    requires forall m, n :: 0 <= m < n < |out| ==> Precedes(q, out[m], out[n])
    ensures t in out[..i]
  {
    hide Precedes, NoDuplicates;
    var j :| 0 <= j < |out| && out[j] == t;
    OneWay(q, t, out[i]);
    assert j < i;
  }

  /** If t is older than u, u is younger by less than thirty seconds for each point of priority. The
      plain difference of the creation times is meant once both lie before the clock reading. */
  predicate Within(u: Task, t: Task, now: real) {
    t.createdAt < u.createdAt ==>
      Seen(u.createdAt, now) - Seen(t.createdAt, now) < 30.0 * (u.priority - t.priority) as real
  }

  lemma NotBeforeIsWithin(u: Task, t: Task, now: real)
    requires !BeforeAt(t, u, now)
    ensures Within(u, t, now)
    ensures t.createdAt < u.createdAt <= now ==> u.createdAt - t.createdAt < 30.0 * (u.priority - t.priority) as real
  {
    AgedTimes30(u, now);
    AgedTimes30(t, now);
  }

  lemma SortedBeforeDispatch(s: KState, env: Env)
    requires Typed(s) && BeforeDispatch(s, env).Ok?
    ensures
      var q := BeforeDispatch(s, env).value;
      Sorted(q, env, env.sortClock, q.ready) && AllKnown(q, q.ready)
  {
    WakeTyped(s, s.waiting, env);
    var s1 := if s.ready == [] then Wake(s, s.waiting, env).value else s;
    StableSortSorts(s1, env, env.sortClock, s1.ready);
    var q := BeforeDispatch(s, env).value;
    forall a, b ensures GoesBefore(s1, env, env.sortClock, a, b) == GoesBefore(q, env, env.sortClock, a, b) {}
  }
}
