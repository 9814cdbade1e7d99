/** Rollback as a stack, readonly histories, and the least-recently-used order, over every run. */
module ContextRuns {
  import opened Graphs
  import opened Tasks
  import opened ContextSpec

  datatype Op =
    | DoRecord(id: Id, agent: Id, shared: Payload, private: Option<Payload>, readonly: Payload)
    | DoBuild(id: Id)
    | DoRollback(id: Id)

  function Step(env: Env, max: nat, s: MState, op: Op): MState {
    match op
    case DoRecord(id, agent, shared, private, readonly) => RecordIn(env, max, s, id, agent, shared, private, readonly)
    case DoBuild(id) => BuildIn(s, id)
    case DoRollback(id) => RollbackIn(s, id)
  }

  const EMPTY := MState(map[], [])

  ghost predicate Run(env: Env, max: nat, states: seq<MState>, ops: seq<Op>) {
    && |states| == |ops| + 1 && states[0] == EMPTY
    && forall i :: 0 <= i < |ops| ==> states[i + 1] == Step(env, max, states[i], ops[i])
  }

  // ---- readonly histories ----

  /** Numbered 1..n, ending in the current value, no two neighbours equal. */
  ghost predicate GoodHistory(h: seq<Version>, current: Value) {
    && h != [] && h[|h| - 1].value == current
    && (forall i :: 0 <= i < |h| ==> h[i].number == i + 1)
    && (forall i :: 0 <= i < |h| - 1 ==> h[i].value != h[i + 1].value)
  }

  ghost predicate ReadonlyInv(c: Content) {
    && c.versions.Keys == c.readonly.Keys
    && forall k :: k in c.readonly ==> GoodHistory(c.versions[k], c.readonly[k])
  }

  /** A compressed context holds summaries, and what came later in its deltas. */
  ghost predicate DeltaInv(c: Content) {
    if c.compressed then
      c.shared.Keys == SUMMARY_KEYS && forall a :: a in c.private ==> c.private[a].Keys == SUMMARY_KEYS
    else c.deltaShared == map[] && c.deltaPrivate == map[]
  }

  ghost predicate ContentInv(c: Content) {
    ReadonlyInv(c) && DeltaInv(c)
  }

  ghost predicate ContextInv(x: Context) {
    ContentInv(x.now) && forall i :: 0 <= i < |x.stack| ==> ContentInv(x.stack[i])
  }

  lemma AppendedIsGood(c: Content, agent: Id, key: Id, value: Value)
    requires ReadonlyInv(c)
    ensures GoodHistory(Appended(c, agent, key, value), value)
  {
    assert key in c.readonly ==> GoodHistory(c.versions[key], c.readonly[key]);
  }

  lemma WriteReadonlyKeeps(c: Content, agent: Id, data: Payload)
    requires ReadonlyInv(c)
    ensures ReadonlyInv(WriteReadonly(c, agent, data))
  {
    hide GoodHistory, Appended;
    var c' := WriteReadonly(c, agent, data);
    forall k | k in c'.readonly ensures GoodHistory(c'.versions[k], c'.readonly[k]) {
      if k in data { AppendedIsGood(c, agent, k, data[k]); }
    }
  }

  lemma WrittenKeeps(c: Content, agent: Id, shared: Payload, private: Option<Payload>, readonly: Payload)
    requires ContentInv(c)
    ensures ContentInv(Written(c, agent, shared, private, readonly))
  {
    hide GoodHistory, Appended;
    var c1 := if shared == map[] then c else WriteShared(c, shared);
    var c2 := if private.None? then c1 else WritePrivate(c1, agent, private.value);
    assert ReadonlyInv(c2);
    WriteReadonlyKeeps(c2, agent, readonly);
  }

  /** Compression leaves readonly values and their histories alone. */
  lemma CompressionKeepsReadonly(env: Env, x: Context)
    ensures
      var x' := CompressIfNeeded(env, x);
      x'.now.readonly == x.now.readonly && x'.now.versions == x.now.versions
    ensures ContextInv(x) ==> ContextInv(CompressIfNeeded(env, x))
  {
    hide GoodHistory;
  }

  lemma RecordedKeeps(env: Env, x: Context, agent: Id, shared: Payload, private: Option<Payload>, readonly: Payload)
    requires ContextInv(x)
    ensures ContextInv(Recorded(env, x, agent, shared, private, readonly))
  {
    hide ContentInv, Written;
    WrittenKeeps(x.now, agent, shared, private, readonly);
    CompressionKeepsReadonly(env, Context(Written(x.now, agent, shared, private, readonly), x.stack,
                                          x.version + Bumps(shared, private, readonly)));
  }

  ghost predicate AllContexts(s: MState) {
    forall id :: id in s.contexts ==> ContextInv(s.contexts[id])
  }

  lemma StepKeepsContexts(env: Env, max: nat, s: MState, op: Op)
    requires AllContexts(s)
    ensures AllContexts(Step(env, max, s, op))
  {
    hide ContentInv, Recorded;
    match op
    case DoRecord(id, agent, shared, private, readonly) =>
      FreshIsGood();
      RecordedKeeps(env, if id in s.contexts then s.contexts[id] else FRESH, agent, shared, private, readonly);
    case DoBuild(_) =>
    case DoRollback(_) =>
  }

  lemma FreshIsGood()
    ensures ContextInv(FRESH)
  {
  }

  /** In every reachable state, every readonly history of every live context is numbered 1..n, ends
      in the current value and never repeats adjacent values. */
  lemma {:induction false} ReadonlyHistories(env: Env, max: nat, states: seq<MState>, ops: seq<Op>, k: nat)
    requires Run(env, max, states, ops) && k < |states|
    ensures AllContexts(states[k])
  {
    hide ContextInv, Step;
    if k == 0 {
    } else {
      ReadonlyHistories(env, max, states, ops, k - 1);
      StepKeepsContexts(env, max, states[k - 1], ops[k - 1]);
      assert states[k - 1 + 1] == Step(env, max, states[k - 1], ops[k - 1]);
    }
  }

  // ---- rollback ----

  function Rollbacks(x: Context, n: nat): Context
    decreases n
  {
    if n == 0 then x else Rollbacks(RolledBack(x), n - 1)
  }

  /** n rollbacks bring back the n-th snapshot from the top. */
  lemma {:induction false} RollbacksUnstack(x: Context, n: nat)
    requires 1 <= n <= |x.stack|
    ensures Rollbacks(x, n).now == x.stack[|x.stack| - n]
    ensures Rollbacks(x, n).stack == x.stack[..|x.stack| - n]
    decreases n
  {
    if n == 1 {
      assert Rollbacks(RolledBack(x), 0) == RolledBack(x);
    } else {
      RollbacksUnstack(RolledBack(x), n - 1);
    }
  }

  /** A step other than a rollback of that context, or an eviction, leaves its stack or pushes on it. */
  lemma StackStep(env: Env, max: nat, s: MState, op: Op, id: Id, d: nat)
    requires id in s.contexts && id in Step(env, max, s, op).contexts
    requires d <= |s.contexts[id].stack| && d <= |Step(env, max, s, op).contexts[id].stack|
    ensures Step(env, max, s, op).contexts[id].stack[..d] == s.contexts[id].stack[..d]
  {
    hide Written, Compressed, LastOf, MoveToEnd;
  }

  /** The context is live and its snapshots from depth d on have not been rolled back. */
  predicate Holds(s: MState, id: Id, d: nat) {
    id in s.contexts && d <= |s.contexts[id].stack|
  }

  lemma {:induction false} StackPrefix(env: Env, max: nat, states: seq<MState>, ops: seq<Op>, i: nat, j: nat,
                                       id: Id, d: nat)
    requires Run(env, max, states, ops) && i <= j < |states|
    requires forall m :: i <= m <= j ==> Holds(states[m], id, d)
    ensures Holds(states[i], id, d) && Holds(states[j], id, d)
    ensures states[j].contexts[id].stack[..d] == states[i].contexts[id].stack[..d]
    decreases j
  {
    hide Step;
    assert Holds(states[i], id, d) && Holds(states[j], id, d);
    if i == j {
    } else {
      assert Holds(states[j - 1], id, d);
      StackPrefix(env, max, states, ops, i, j - 1, id, d);
      assert states[j - 1 + 1] == Step(env, max, states[j - 1], ops[j - 1]);
      StackStep(env, max, states[j - 1], ops[j - 1], id, d);
    }
  }

  /** The content that step i of a run writes into a context, before compressing it. */
  function WrittenBy(s: MState, op: Op): Content
    requires op.DoRecord?
  {
    var x := if op.id in s.contexts then s.contexts[op.id] else FRESH;
    Written(x.now, op.agent, op.shared, op.private, op.readonly)
  }

  /** Let step i compress a context and let state j be any later state such that the context was
      never evicted and that compression never rolled back. If k snapshots have piled up by then,
      that one included, k rollbacks restore exactly what the context held just before it was
      compressed: shared, private, delta and readonly data with their histories, whatever was
      recorded, compressed and rolled back in between. */
  lemma RollbackRestores(env: Env, max: nat, states: seq<MState>, ops: seq<Op>, i: nat, j: nat, k: nat)
    requires Run(env, max, states, ops) && i < j < |states| && i < |ops|
    requires ops[i].DoRecord? && Compresses(env, WrittenBy(states[i], ops[i]))
    requires var before := if ops[i].id in states[i].contexts then |states[i].contexts[ops[i].id].stack| else 0;
      && (forall m :: i < m <= j ==> Holds(states[m], ops[i].id, before + 1))
      && |states[j].contexts[ops[i].id].stack| == before + k
    ensures k >= 1
    ensures Rollbacks(states[j].contexts[ops[i].id], k).now == WrittenBy(states[i], ops[i])
  {
    hide Step, Written;
    var id := ops[i].id;
    var before := if id in states[i].contexts then |states[i].contexts[id].stack| else 0;
    assert Holds(states[i + 1], id, before + 1) && Holds(states[j], id, before + 1);
    assert states[i + 1] == Step(env, max, states[i], ops[i]);
    PushFacts(env, max, states[i], ops[i]);
    StackPrefix(env, max, states, ops, i + 1, j, id, before + 1);
    var stack := states[j].contexts[id].stack;
    assert stack[before] == stack[..before + 1][before] == states[i + 1].contexts[id].stack[..before + 1][before];
    RollbacksUnstack(states[j].contexts[id], k);
  }

  lemma PushFacts(env: Env, max: nat, s: MState, op: Op)
    requires op.DoRecord? && Compresses(env, WrittenBy(s, op)) && op.id in Step(env, max, s, op).contexts
    ensures
      var stack := if op.id in s.contexts then s.contexts[op.id].stack else [];
      Step(env, max, s, op).contexts[op.id].stack == stack + [WrittenBy(s, op)]
  {
    hide Written, Compressed, LastOf, MoveToEnd;
  }

  // ---- least recently used ----

  /** A record is a use, and so is building a live context. Rollbacks are not. */
  function Uses(states: seq<MState>, ops: seq<Op>): seq<Id>
    requires |states| >= |ops|
  {
    if ops == [] then []
    else
      var n := |ops| - 1;
      var front := Uses(states, ops[..n]);
      match ops[n]
      case DoRecord(id, _, _, _, _) => front + [id]
      case DoBuild(id) => if id in states[n].contexts then front + [id] else front
      case DoRollback(_) => front
  }

  /** All ids ever used, by their last use. */
  function Recency(uses: seq<Id>): seq<Id> {
    if uses == [] then [] else MoveToEnd(Recency(uses[..|uses| - 1]), uses[|uses| - 1])
  }

  lemma {:induction false} RecencyFacts(uses: seq<Id>)
    ensures NoDuplicates(Recency(uses))
    ensures forall x :: x in Recency(uses) <==> x in uses
  {
    if uses == [] {
    } else {
      var front := uses[..|uses| - 1];
      RecencyFacts(front);
      RemoveFirstDistinct(Recency(front), uses[|uses| - 1]);
      AppendDistinct(RemoveFirst(Recency(front), uses[|uses| - 1]), uses[|uses| - 1]);
      assert uses == front + [uses[|uses| - 1]];
    }
  }

  ghost predicate OrderInv(max: nat, s: MState, uses: seq<Id>) {
    && s.order == LastOf(Recency(uses), max)
    && (forall id :: id in s.contexts <==> id in s.order)
  }

  lemma RemoveCons(h: Id, t: seq<Id>, x: Id)
    ensures RemoveFirst([h] + t, x) == if h == x then t else [h] + RemoveFirst(t, x)
  {
    assert ([h] + t)[1..] == t;
  }

  lemma ConsSum(h: Id, t: seq<Id>, b: seq<Id>)
    ensures ([h] + t) + b == [h] + (t + b)
  {
  }

  lemma {:induction false} RemoveSplit(a: seq<Id>, b: seq<Id>, x: Id)
    ensures RemoveFirst(a + b, x) == if x in a then RemoveFirst(a, x) + b else a + RemoveFirst(b, x)
  {
    hide RemoveFirst;
    if a == [] {
      assert a + b == b && a + RemoveFirst(b, x) == RemoveFirst(b, x);
    } else {
      var h, t := a[0], a[1..];
      assert a == [h] + t;
      ConsSum(h, t, b);
      RemoveCons(h, t + b, x);
      RemoveCons(h, t, x);
      if x != h {
        RemoveSplit(t, b, x);
        ConsSum(h, RemoveFirst(t, x), b);
        ConsSum(h, t, RemoveFirst(b, x));
      }
    }
  }

  lemma LastOfSum(a: seq<Id>, b: seq<Id>, n: nat)
    requires n <= |b|
    ensures LastOf(a + b, n) == LastOf(b, n)
  {
    assert (a + b)[|a + b| - n..] == b[|b| - n..];
  }

  /** Using x moves it to the end of the kept ids, whether they are cut before or after. */
  lemma CutCommutes(r: seq<Id>, n: nat, x: Id)
    requires NoDuplicates(r)
    ensures x in LastOf(r, n) ==> LastOf(MoveToEnd(r, x), n) == MoveToEnd(LastOf(r, n), x)
    ensures x !in LastOf(r, n) ==> LastOf(MoveToEnd(r, x), n) == LastOf(LastOf(r, n) + [x], n)
  {
    hide RemoveFirst, NoDuplicates;
    var l := LastOf(r, n);
    if |r| <= n {
      if x in r { RemovedLength(r, x); } else { RemoveAbsent(r, x); }
    } else {
      var head := r[..|r| - n];
      assert r == head + l;
      RemoveSplit(head, l, x);
      if x in l {
        NotInBoth(head, l, x);
        RemovedLength(l, x);
        assert head + RemoveFirst(l, x) + [x] == head + MoveToEnd(l, x);
        LastOfSum(head, MoveToEnd(l, x), n);
      } else {
        RemoveAbsent(l, x);
        var head' := if x in head then RemoveFirst(head, x) else head;
        assert head' + l + [x] == head' + (l + [x]);
        LastOfSum(head', l + [x], n);
      }
    }
  }

  lemma NotInBoth(a: seq<Id>, b: seq<Id>, x: Id)
    requires NoDuplicates(a + b) && x in b
    ensures x !in a
  {
    var j :| 0 <= j < |b| && b[j] == x;
    assert (a + b)[|a| + j] == x;
    forall i | 0 <= i < |a| ensures a[i] != x {
      assert (a + b)[i] == a[i];
    }
  }

  lemma {:induction false} RemovedLength(q: seq<Id>, x: Id)
    requires x in q
    ensures |RemoveFirst(q, x)| == |q| - 1
  {
    if q[0] != x {
      assert x in q[1..];
      RemovedLength(q[1..], x);
    }
  }

  lemma LastOfMembers(q: seq<Id>, n: nat)
    ensures forall x :: x in LastOf(q, n) ==> x in q
  {
  }

  lemma RecordOrder(env: Env, max: nat, s: MState, op: Op, uses: seq<Id>)
    requires OrderInv(max, s, uses) && op.DoRecord?
    ensures OrderInv(max, Step(env, max, s, op), uses + [op.id])
  {
    hide LastOf, MoveToEnd, Recorded;
    RecencyFacts(uses);
    CutCommutes(Recency(uses), max, op.id);
    assert (uses + [op.id])[..|uses|] == uses;
    var order := if op.id in s.contexts then MoveToEnd(s.order, op.id) else s.order + [op.id];
    assert LastOf(order, max) == LastOf(MoveToEnd(Recency(uses), op.id), max) by {
      if op.id in s.contexts { LastOfTwice(MoveToEnd(Recency(uses), op.id), max); }
    }
    OrderMembers(s.order, op.id);
    LastOfMembers(order, max);
  }

  lemma LastOfTwice(q: seq<Id>, n: nat)
    ensures LastOf(LastOf(q, n), n) == LastOf(q, n)
  {
  }

  lemma OrderMembers(q: seq<Id>, x: Id)
    ensures forall y :: y in MoveToEnd(q, x) ==> y in q || y == x
  {
    RemoveMembers(q, x);
  }

  lemma {:induction false} RemoveMembers(q: seq<Id>, x: Id)
    ensures forall y :: y in RemoveFirst(q, x) ==> y in q
    ensures forall y :: y in q && y != x ==> y in RemoveFirst(q, x)
  {
    if q == [] {
    } else {
      RemoveMembers(q[1..], x);
      assert q == [q[0]] + q[1..];
    }
  }

  lemma BuildOrder(max: nat, s: MState, id: Id, uses: seq<Id>)
    requires OrderInv(max, s, uses) && id in s.contexts
    ensures OrderInv(max, BuildIn(s, id), uses + [id])
  {
    hide LastOf;
    RecencyFacts(uses);
    CutCommutes(Recency(uses), max, id);
    RemoveMembers(s.order, id);
    assert (uses + [id])[..|uses|] == uses;
  }

  /** The live contexts, in their order, are the last `max` of all ids by their last use. */
  lemma {:induction false} LiveAreRecent(env: Env, max: nat, states: seq<MState>, ops: seq<Op>, k: nat)
    requires Run(env, max, states, ops) && k <= |ops|
    ensures OrderInv(max, states[k], Uses(states, ops[..k]))
  {
    hide OrderInv, RecordIn, BuildIn;
    if k == 0 {
      NothingUsed(max);
    } else {
      var op := ops[k - 1];
      LiveAreRecent(env, max, states, ops, k - 1);
      assert ops[..k][..k - 1] == ops[..k - 1];
      assert states[k - 1 + 1] == Step(env, max, states[k - 1], op);
      var uses := Uses(states, ops[..k - 1]);
      match op
      case DoRecord(id, _, _, _, _) => RecordOrder(env, max, states[k - 1], op, uses);
      case DoBuild(id) =>
        if id in states[k - 1].contexts {
          BuildOrder(max, states[k - 1], id, uses);
        } else {
          BuildNothing(states[k - 1], id);
        }
      case DoRollback(id) => RollbackOrder(max, states[k - 1], id, uses);
    }
  }

  lemma NothingUsed(max: nat)
    ensures OrderInv(max, EMPTY, [])
  {
  }

  lemma BuildNothing(s: MState, id: Id)
    requires id !in s.contexts
    ensures BuildIn(s, id) == s
  {
  }

  lemma RollbackOrder(max: nat, s: MState, id: Id, uses: seq<Id>)
    requires OrderInv(max, s, uses)
    ensures OrderInv(max, RollbackIn(s, id), uses)
  {
  }

  // ---- the same without lists: by the uses since the last use ----

  /** Moving y to the end, behind x: what then stands behind x. */
  lemma MovedBehind(a: seq<Id>, x: Id, b: seq<Id>, y: Id) returns (a': seq<Id>, b': seq<Id>)
    requires NoDuplicates(a + [x] + b) && NoDuplicates(b) && x != y
    ensures MoveToEnd(a + [x] + b, y) == a' + [x] + b'
    ensures NoDuplicates(b') && Elements(b') == Elements(b) + {y}
  {
    hide RemoveFirst, NoDuplicates, Elements;
    b' := RemoveFirst(b, y) + [y];
    DropAppend(b, y);
    assert a + [x] + b == a + ([x] + b);
    RemoveSplit(a, [x] + b, y);
    if y in a {
      a' := RemoveFirst(a, y);
      NotBehind(a, x, b, y);
      Regroup(a', x, b, y);
    } else {
      a' := a;
      RemoveSplit([x], b, y);
      Regroup(a, x, RemoveFirst(b, y), y);
    }
  }

  lemma Regroup(a: seq<Id>, x: Id, b: seq<Id>, y: Id)
    ensures a + ([x] + b) + [y] == a + [x] + (b + [y])
  {
  }

  lemma DropAppend(b: seq<Id>, y: Id)
    requires NoDuplicates(b)
    ensures NoDuplicates(RemoveFirst(b, y) + [y]) && Elements(RemoveFirst(b, y) + [y]) == Elements(b) + {y}
  {
    hide RemoveFirst, NoDuplicates;
    RemoveFirstDistinct(b, y);
    AppendDistinct(RemoveFirst(b, y), y);
  }

  lemma NotBehind(a: seq<Id>, x: Id, b: seq<Id>, y: Id)
    requires NoDuplicates(a + [x] + b) && y in a
    ensures RemoveFirst(b, y) == b
  {
    assert a + [x] + b == a + ([x] + b);
    NotInSecond(a, [x] + b, y);
    RemoveAbsent(b, y);
  }

  /** In the recency list, the ids behind one are those used since its last use. */
  lemma {:induction false} RecencyTail(uses: seq<Id>, i: nat) returns (a: seq<Id>, b: seq<Id>)
    requires i < |uses| && uses[i] !in uses[i + 1..]
    ensures Recency(uses) == a + [uses[i]] + b && NoDuplicates(b)
    ensures Elements(b) == Elements(uses[i + 1..])
    decreases |uses|
  {
    hide MoveToEnd;
    var front, y := uses[..|uses| - 1], uses[|uses| - 1];
    RecencyFacts(front);
    if i == |uses| - 1 {
      a, b := RemoveFirst(Recency(front), y), [];
      LastUse(Recency(front), y);
    } else {
      var x := uses[i];
      assert uses[i + 1..] == front[i + 1..] + [y];
      assert y in uses[i + 1..];
      a, b := RecencyTail(front, i);
      a, b := MovedBehind(a, x, b, y);
    }
  }

  lemma LastUse(q: seq<Id>, y: Id)
    ensures MoveToEnd(q, y) == RemoveFirst(q, y) + [y] + []
  {
  }

  lemma NotInSecond(a: seq<Id>, b: seq<Id>, y: Id)
    requires NoDuplicates(a + b) && y in a
    ensures y !in b
  {
    if y in b { NotInBoth(a, b, y); }
  }

  lemma InLast(a: seq<Id>, x: Id, b: seq<Id>, n: nat)
    requires NoDuplicates(a + [x] + b)
    ensures x in LastOf(a + [x] + b, n) <==> |b| < n
  {
    var q := a + [x] + b;
    assert q[|a|] == x;
    if |b| < n {
      if |q| > n { assert q[|q| - n..][|a| - (|q| - n)] == x; }
    } else {
      assert q[|q| - n..] == b[|b| - n..];
    }
  }

  /** A context is live exactly if, since it was last used, fewer than `max` different ids were. */
  lemma LiveIffRecentlyUsed(env: Env, max: nat, states: seq<MState>, ops: seq<Op>, i: nat)
    requires Run(env, max, states, ops)
    requires i < |Uses(states, ops)| && Uses(states, ops)[i] !in Uses(states, ops)[i + 1..]
    ensures
      var uses := Uses(states, ops);
      uses[i] in states[|ops|].contexts <==> |Elements(uses[i + 1..])| < max
  {
    hide Recency, LastOf, Step;
    var uses := Uses(states, ops);
    assert ops[..|ops|] == ops;
    LiveAreRecent(env, max, states, ops, |ops|);
    RecencyFacts(uses);
    var a, b := RecencyTail(uses, i);
    CountDistinct(b);
    InLast(a, uses[i], b, max);
  }

  /** An id that was never used is not live. */
  lemma UnusedIsNotLive(env: Env, max: nat, states: seq<MState>, ops: seq<Op>, id: Id)
    requires Run(env, max, states, ops) && id !in Uses(states, ops)
    ensures id !in states[|ops|].contexts
  {
    hide LastOf, Step;
    assert ops[..|ops|] == ops;
    LiveAreRecent(env, max, states, ops, |ops|);
    RecencyFacts(Uses(states, ops));
    LastOfMembers(Recency(Uses(states, ops)), max);
  }

  // ---- what agents read ----

  /** What is recorded and not compressed away is read back: shared data by everyone, private data
      by that agent only. */
  lemma SharedIsRead(c: Content, agent: Id, shared: Payload, private: Option<Payload>, readonly: Payload)
    requires ContentInv(c)
    ensures
      var c' := Written(c, agent, shared, private, readonly);
      MergedShared(c') == MergedShared(c) + shared && c'.readonly == c.readonly + readonly
  {
    hide NewVersions, ReadonlyInv, WriteShared, MergedShared;
    SharedWrite(c, shared);
    var c1 := if shared == map[] then c else WriteShared(c, shared);
    var c2 := if private.None? then c1 else WritePrivate(c1, agent, private.value);
    SameShared(c1, c2);
    SameShared(c2, Written(c, agent, shared, private, readonly));
    assert readonly == map[] ==> c.readonly + readonly == c.readonly;
  }

  lemma SharedWrite(c: Content, data: Payload)
    requires ContentInv(c)
    ensures MergedShared(if data == map[] then c else WriteShared(c, data)) == MergedShared(c) + data
    ensures WriteShared(c, data).readonly == c.readonly
  {
    hide ReadonlyInv;
    assert c.shared + (c.deltaShared + data) == (c.shared + c.deltaShared) + data;
    assert c.deltaShared == map[] ==> (c.shared + data) + c.deltaShared == (c.shared + c.deltaShared) + data;
  }

  lemma SameShared(c: Content, c': Content)
    requires c'.shared == c.shared && c'.deltaShared == c.deltaShared
    ensures MergedShared(c') == MergedShared(c)
  {
  }

  lemma PrivateWrite(c: Content, agent: Id, reader: Id, data: Payload)
    requires ContentInv(c)
    ensures ViewPrivate(WritePrivate(c, agent, data), reader) ==
      if reader == agent then ViewPrivate(c, reader) + data else ViewPrivate(c, reader)
  {
    hide ReadonlyInv;
    if reader == agent {
      var base, delta := Of(c.private, reader), Of(c.deltaPrivate, reader);
      assert base + (delta + data) == (base + delta) + data;
      assert delta == map[] ==> (base + data) + delta == (base + delta) + data;
    }
  }

  lemma PrivateIsRead(c: Content, agent: Id, reader: Id, shared: Payload, private: Option<Payload>, readonly: Payload)
    requires ContentInv(c)
    ensures
      var c' := Written(c, agent, shared, private, readonly);
      ViewPrivate(c', reader) ==
      if reader == agent && private.Some? then ViewPrivate(c, reader) + private.value else ViewPrivate(c, reader)
  {
    hide Appended, WritePrivate, ViewPrivate;
    var c1 := if shared == map[] then c else WriteShared(c, shared);
    var c2 := if private.None? then c1 else WritePrivate(c1, agent, private.value);
    WrittenKeeps(c, agent, shared, None, map[]);
    SamePrivate(c, c1, reader);
    SamePrivate(c2, Written(c, agent, shared, private, readonly), reader);
    if private.Some? { PrivateWrite(c1, agent, reader, private.value); }
  }

  lemma SamePrivate(c: Content, c': Content, reader: Id)
    requires c'.private == c.private && c'.deltaPrivate == c.deltaPrivate
    ensures ViewPrivate(c', reader) == ViewPrivate(c, reader)
  {
  }

  // ---- compressing twice ----

  lemma ImportantIsNoSummaryKey(key: Id)
    requires key in IMPORTANT
    ensures key !in SUMMARY_KEYS
  {
    assert |"goal"| == 4 && |"task"| == 4 && |"keys"| == 4 && "goal"[0] == 'g' && "task"[0] == 't' && "keys"[0] == 'k';
    assert |"constraints"| == 11 && |"tool_results"| == 12 && |"entities"| == 8 && |"requirements"| == 12;
    assert |"__structured_summary__"| == 22 && |"label"| == 5 && |"important"| == 9;
  }

  lemma SummaryKeeps(env: Env, name: string, p: Payload, key: Id)
    ensures key in Kept(Summary(env, name, p)) <==> key in p && key in IMPORTANT
    ensures key in Kept(Summary(env, name, p)) ==> Kept(Summary(env, name, p))[key] == p[key]
    ensures Summary(env, name, p).Keys == SUMMARY_KEYS
  {
  }

  /** Compressing a compressed context again keeps an important shared key exactly if it was recorded
      since the last compression. */
  lemma SecondCompressionKeepsIff(env: Env, c: Content, key: Id)
    requires ContentInv(c) && c.compressed && key in IMPORTANT
    ensures key in Kept(Compressed(env, c).shared) <==> key in c.deltaShared
    ensures key in c.deltaShared ==> Kept(Compressed(env, c).shared)[key] == c.deltaShared[key]
  {
    hide ReadonlyInv;
    ImportantIsNoSummaryKey(key);
    SummaryKeeps(env, "shared", MergedShared(c), key);
  }

  /** The same for the private data of each agent. */
  lemma SecondCompressionKeepsPrivateIff(env: Env, c: Content, agent: Id, key: Id)
    requires ContentInv(c) && c.compressed && key in IMPORTANT
    ensures key in Kept(Of(Compressed(env, c).private, agent)) <==> key in Of(c.deltaPrivate, agent)
    ensures key in Of(c.deltaPrivate, agent) ==>
      Kept(Of(Compressed(env, c).private, agent))[key] == Of(c.deltaPrivate, agent)[key]
  {
    hide ReadonlyInv, Summary, Kept;
    ImportantIsNoSummaryKey(key);
    if agent in MergedPrivate(c) {
      SummaryKeeps(env, "private:" + agent.name, MergedPrivate(c)[agent], key);
    } else {
      NothingKept();
    }
  }

  lemma NothingKept()
    ensures Kept(map[]) == map[]
  {
  }

  /** At any compression of an already compressed context in any run, shared and private, with the
      values. */
  lemma ImportantKeysOverRuns(env: Env, max: nat, states: seq<MState>, ops: seq<Op>, k: nat, agent: Id, key: Id)
    requires Run(env, max, states, ops) && k < |ops| && ops[k].DoRecord? && key in IMPORTANT
    requires WrittenBy(states[k], ops[k]).compressed && Compresses(env, WrittenBy(states[k], ops[k]))
    requires ops[k].id in states[k + 1].contexts
    ensures
      var now, delta := states[k + 1].contexts[ops[k].id].now, WrittenBy(states[k], ops[k]).deltaShared;
      (key in Kept(now.shared) <==> key in delta) && (key in delta ==> Kept(now.shared)[key] == delta[key])
    ensures
      var kept := Kept(Of(states[k + 1].contexts[ops[k].id].now.private, agent));
      var delta := Of(WrittenBy(states[k], ops[k]).deltaPrivate, agent);
      (key in kept <==> key in delta) && (key in delta ==> kept[key] == delta[key])
  {
    hide Step, ContextInv, ContentInv, Written, Kept, Summary;
    ReadonlyHistories(env, max, states, ops, k);
    FreshIsGood();
    WrittenIsGood(states[k], ops[k]);
    RecordedNow(env, max, states, ops, k);
    SecondCompressionKeepsIff(env, WrittenBy(states[k], ops[k]), key);
    SecondCompressionKeepsPrivateIff(env, WrittenBy(states[k], ops[k]), agent, key);
  }

  lemma WrittenIsGood(s: MState, op: Op)
    requires AllContexts(s) && op.DoRecord?
    ensures ContentInv(WrittenBy(s, op))
  {
    hide ContentInv, Written;
    FreshIsGood();
    var x := if op.id in s.contexts then s.contexts[op.id] else FRESH;
    assert ContextInv(x);
    WrittenKeeps(x.now, op.agent, op.shared, op.private, op.readonly);
  }

  lemma RecordedNow(env: Env, max: nat, states: seq<MState>, ops: seq<Op>, k: nat)
    requires Run(env, max, states, ops) && k < |ops| && ops[k].DoRecord?
    requires Compresses(env, WrittenBy(states[k], ops[k])) && ops[k].id in states[k + 1].contexts
    ensures states[k + 1].contexts[ops[k].id].now == Compressed(env, WrittenBy(states[k], ops[k]))
  {
    hide Written, Compressed, LastOf, MoveToEnd;
    assert states[k + 1] == Step(env, max, states[k], ops[k]);
  }

  /** Recording a goal and then anything else, each followed by a compression, loses the goal. */
  lemma GoalIsLost(env: Env, max: nat, id: Id, agent: Id, goal: Value, other: Payload)
    requires max > 0 && (forall c :: Compresses(env, c)) && other != map[] && Id("goal") !in other
    ensures
      var first := DoRecord(id, agent, map[Id("goal") := goal], None, map[]);
      var second := DoRecord(id, agent, other, None, map[]);
      var s1 := Step(env, max, EMPTY, first);
      var s2 := Step(env, max, s1, second);
      && Run(env, max, [EMPTY, s1, s2], [first, second])
      && id in s1.contexts && Id("goal") in Kept(s1.contexts[id].now.shared)
      && id in s2.contexts && Id("goal") !in Kept(s2.contexts[id].now.shared)
  {
    hide Summary;
    var p: Payload := map[Id("goal") := goal];
    var first := DoRecord(id, agent, p, None, map[]);
    var s1 := Step(env, max, EMPTY, first);
    assert [] + [id] == [id] && LastOf([id], max) == [id];
    assert Id("goal") in p && p != map[];
    var c1 := WriteShared(FRESH.now, p);
    assert MergedShared(c1) == p;
    assert s1.contexts[id].now == Compressed(env, c1);
    SummaryKeeps(env, "shared", p, Id("goal"));
    var c2 := WriteShared(Compressed(env, c1), other);
    assert c2.deltaShared == other;
    var s2 := Step(env, max, s1, DoRecord(id, agent, other, None, map[]));
    assert s1.order == [id] && MoveToEnd([id], id) == [id];
    assert s2.contexts[id].now == Compressed(env, c2);
    ImportantIsNoSummaryKey(Id("goal"));
    SummaryKeeps(env, "shared", MergedShared(c2), Id("goal"));
  }
}
