/** A run after which topological_sort returns a wrong order. */
module DagStale {
  import opened Graphs
  import opened Tasks
  import opened TaskGraph
  import opened DagSpec
  import opened DagRuns
  import opened DagTheorems
  import opened DagSort
  import opened DagRounds

  /** Four new tasks: e waits for f, and x for d and e. */
  datatype Four = Four(d: Id, f: Id, e: Id, x: Id, td: Task, tf: Task, te: Task, tx: Task)

  predicate Good(q: Four) {
    && NoDuplicates([q.d, q.f, q.e, q.x])
    && Fresh(q.td, []) && Fresh(q.tf, []) && Fresh(q.te, [q.f]) && Fresh(q.tx, [q.d, q.e])
  }

  lemma Different(q: Four)
    requires Good(q)
    ensures q.d != q.f && q.d != q.e && q.d != q.x && q.f != q.e && q.f != q.x && q.e != q.x
  {
    var ids := [q.d, q.f, q.e, q.x];
    assert ids[0] == q.d && ids[1] == q.f && ids[2] == q.e && ids[3] == q.x;
  }

  // ---- the states of the run ----

  function One(q: Four): DState {
    DState(map[q.d := Node(Readied(q.td), {}, {})], [q.d], [], {}, {})
  }

  function Two(q: Four): DState {
    DState(map[q.d := Node(Readied(q.td), {}, {}), q.f := Node(Readied(q.tf), {}, {})], [q.d, q.f], [], {}, {})
  }

  function Three(q: Four): DState {
    DState(map[q.d := Node(Readied(q.td), {}, {}), q.f := Node(Readied(q.tf), {}, {q.e}), q.e := Node(q.te, {q.f}, {})],
           [q.d, q.f, q.e], [q.e], {}, {})
  }

  function Graph4(q: Four, td: Task, open: set<Id>): Nodes {
    map[q.d := Node(td, {}, {q.x}), q.f := Node(Readied(q.tf), {}, {q.e}),
        q.e := Node(q.te, {q.f}, {q.x}), q.x := Node(q.tx, open, {})]
  }

  function All(q: Four): DState {
    DState(Graph4(q, Readied(q.td), {q.d, q.e}), [q.d, q.f, q.e, q.x], [q.e, q.x], {}, {})
  }

  function Dispatched(q: Four): DState {
    DState(Graph4(q, q.td.(status := Running), {q.d, q.e}), [q.f, q.e, q.x], [q.e, q.x], {}, {})
  }

  /** d has completed; its record of x is stale, since x now waits for e alone. */
  function Stale(q: Four): DState {
    DState(Graph4(q, q.td.(status := Success), {q.e}), [q.f, q.e, q.x], [q.e, q.x], {q.d}, {})
  }

  // ---- the steps ----

  lemma EnqueueD(q: Four)
    requires Good(q)
    ensures Enqueue(Initial(), q.d, q.td) == Ok(One(q))
  {
    EnqueueGrows(map[], {}, q.d, q.td);
    assert Elements(q.td.declared) == {};
    var n := EnqueueNodes(map[], {}, q.d, q.td);
    assert n == map[q.d := Node(q.td, {}, {})];
    assert SetTask(n, q.d, Readied(q.td)) == One(q).nodes;
    assert Initial().queue + [q.d] == [q.d];
  }

  lemma EnqueueF(q: Four)
    requires Good(q)
    ensures Enqueue(One(q), q.f, q.tf) == Ok(Two(q))
  {
    Different(q);
    var s := One(q);
    EnqueueGrows(s.nodes, {}, q.f, q.tf);
    assert Elements(q.tf.declared) == {};
    var n := EnqueueNodes(s.nodes, {}, q.f, q.tf);
    assert n == s.nodes[q.f := Node(q.tf, {}, {})];
    assert SetTask(n, q.f, Readied(q.tf)) == Two(q).nodes;
    assert s.queue + [q.f] == [q.d, q.f];
  }

  lemma EnqueueE(q: Four)
    requires Good(q)
    ensures Enqueue(Two(q), q.e, q.te) == Ok(Three(q))
  {
    Different(q);
    var s := Two(q);
    assert q.f in q.te.declared;
    assert Elements(q.te.declared) == {q.f};
    EnqueueGrows(s.nodes, {}, q.e, q.te);
    var n := EnqueueNodes(s.nodes, {}, q.e, q.te);
    assert n[q.e] == Node(q.te, {q.f}, {}) && n[q.f] == Node(Readied(q.tf), {}, {q.e}) && n[q.d] == s.nodes[q.d];
    assert n == Three(q).nodes;
    assert SetTask(n, q.e, q.te) == n && Transition(q.te, Pending) == Ok(q.te);
    assert s.queue + [q.e] == [q.d, q.f, q.e] && s.waiting + [q.e] == [q.e];
  }

  lemma EnqueueXNodes(q: Four)
    requires Good(q)
    ensures EnqueueNodes(Three(q).nodes, {}, q.x, q.tx) == All(q).nodes
  {
    hide NoDuplicates, EnqueueNodes;
    Different(q);
    var s := Three(q);
    assert q.d in q.tx.declared && q.e in q.tx.declared;
    assert Elements(q.tx.declared) == {q.d, q.e};
    EnqueueGrows(s.nodes, {}, q.x, q.tx);
    var n := EnqueueNodes(s.nodes, {}, q.x, q.tx);
    assert n[q.x].open == {q.d, q.e} && n[q.x].task == q.tx && n[q.x].dependents == {};
    assert n[q.d] == Node(Readied(q.td), {}, {q.x}) && n[q.e] == Node(q.te, {q.f}, {q.x});
    assert n[q.f] == s.nodes[q.f];
  }

  lemma EnqueueX(q: Four)
    requires Good(q)
    ensures Enqueue(Three(q), q.x, q.tx) == Ok(All(q))
  {
    hide EnqueueNodes, NoDuplicates;
    Different(q);
    var s := Three(q);
    var n := All(q).nodes;
    EnqueueXNodes(q);
    assert SetTask(n, q.x, q.tx) == n && Transition(q.tx, Pending) == Ok(q.tx);
    assert s.queue + [q.x] == [q.d, q.f, q.e, q.x] && s.waiting + [q.x] == [q.e, q.x];
  }

  lemma RemoveHead(q: seq<Id>)
    requires q != []
    ensures RemoveFirst(q, q[0]) == q[1..]
  {
  }

  lemma RunningNodes(q: Four)
    requires Good(q)
    ensures SetTask(All(q).nodes, q.d, q.td.(status := Running)) == Dispatched(q).nodes
  {
    hide NoDuplicates;
    Different(q);
  }

  lemma DequeueD(q: Four)
    requires Good(q)
    ensures Dequeue(All(q)) == Ok((Dispatched(q), Some(q.d)))
  {
    hide RemoveFirst, NoDuplicates;
    Different(q);
    var s := All(q);
    assert FirstReady(s, s.queue) == Some(q.d);
    RunningNodes(q);
    assert s.queue[0] == q.d && s.queue[1..] == [q.f, q.e, q.x];
    RemoveHead(s.queue);
    assert q.d !in s.waiting;
    RemoveAbsent(s.waiting, q.d);
  }

  lemma SucceedD(q: Four)
    requires Good(q)
    ensures Succeed(Dispatched(q), q.d, [q.x]) == Ok(Stale(q))
  {
    Different(q);
    var s := Dispatched(q);
    var n := Graph4(q, q.td.(status := Success), {q.d, q.e});
    assert SetTask(s.nodes, q.d, q.td.(status := Success)) == n;
    var s1 := s.(nodes := n, completed := {q.d});
    assert s.completed + {q.d} == {q.d};
    assert {q.d, q.e} - {q.d} == {q.e};
    assert SetOpen(n, q.x, {q.e}) == Stale(q).nodes;
    assert DagSpec.ReleaseOne(s1, q.d, q.x) == Ok(Stale(q));
    assert [q.x][1..] == [];
    assert DagSpec.ReleaseAll(s1, q.d, [q.x]) == Ok(Stale(q));
  }

  // ---- the sort in the last state ----

  lemma OnlyOne(order: seq<Id>, x: Id)
    requires Enumerates(order, {x})
    ensures order == [x]
  {
    CountDistinct(order);
    assert Elements(order) == {x};
    assert order[0] in order;
  }

  lemma NoneAtAll(order: seq<Id>)
    requires Enumerates(order, {})
    ensures order == []
  {
    CountDistinct(order);
    assert Elements(order) == {};
  }

  function Degrees(q: Four, e: int, x: int): map<Id, int> {
    map[q.d := 0, q.f := 0, q.e := e, q.x := x]
  }

  /** The inner loop with one dependent. */
  lemma PopWithOne(k: Kahn, orders: Id -> seq<Id>, x: Id, r: Kahn)
    requires k.queue != [] && orders(k.queue[0]) == [x] && x in k.inDegree
    requires r == Kahn(k.inDegree[x := k.inDegree[x] - 1],
                       k.queue[1..] + (if k.inDegree[x] == 1 then [x] else []), k.result + [k.queue[0]])
    ensures PopOne(k, orders) == r
  {
    var k1 := k.(queue := k.queue[1..], result := k.result + [k.queue[0]]);
    assert [x][..0] == [];
    assert DecrementAll(k1, []) == k1;
    assert DecrementAll(k1, [x]) == Decrement(k1, x);
    assert k.queue[1..] + [] == k.queue[1..];
  }

  lemma ZerosStep(nodes: Nodes, front: seq<Id>, x: Id)
    ensures Zeros(nodes, front + [x]) == Zeros(nodes, front) + if x in nodes && nodes[x].open == {} then [x] else []
  {
    assert (front + [x])[..|front|] == front;
  }

  lemma StaleOpen(q: Four)
    requires Good(q)
    ensures Stale(q).nodes.Keys == {q.d, q.f, q.e, q.x}
    ensures Stale(q).nodes[q.d].open == {} && Stale(q).nodes[q.f].open == {}
    ensures Stale(q).nodes[q.e].open == {q.f} && Stale(q).nodes[q.x].open == {q.e}
  {
    Different(q);
  }

  lemma StaleZeros(q: Four)
    requires Good(q)
    ensures Zeros(Stale(q).nodes, [q.d, q.f, q.e, q.x]) == [q.d, q.f]
  {
    hide Zeros, Stale, Good;
    StaleOpen(q);
    var n := Stale(q).nodes;
    EmptyZeros(n);
    ZerosStep(n, [], q.d);
    assert [] + [q.d] == [q.d];
    ZerosStep(n, [q.d], q.f);
    assert [q.d] + [q.f] == [q.d, q.f];
    ZerosStep(n, [q.d, q.f], q.e);
    assert [q.d, q.f] + [q.e] == [q.d, q.f, q.e] && [q.d, q.f] + [] == [q.d, q.f];
    ZerosStep(n, [q.d, q.f, q.e], q.x);
    assert [q.d, q.f, q.e] + [q.x] == [q.d, q.f, q.e, q.x];
  }

  lemma StaleDegrees(q: Four)
    requires Good(q)
    ensures (map y | y in Stale(q).nodes :: |Stale(q).nodes[y].open|) == Degrees(q, 1, 1)
  {
    hide Stale, NoDuplicates, Fresh;
    Different(q);
    StaleOpen(q);
    var n := Stale(q).nodes;
    var m := map y | y in n :: |n[y].open|;
    assert m.Keys == Degrees(q, 1, 1).Keys;
    forall y | y in m ensures m[y] == Degrees(q, 1, 1)[y] {
      assert y == q.d || y == q.f || y == q.e || y == q.x;
    }
  }

  lemma StartsWithDF(q: Four)
    requires Good(q)
    ensures Started(Stale(q).nodes, [q.d, q.f, q.e, q.x]) == Kahn(Degrees(q, 1, 1), [q.d, q.f], [])
  {
    hide Zeros, Stale, Good, Degrees;
    StaleZeros(q);
    StaleDegrees(q);
  }

  lemma EmptyZeros(nodes: Nodes)
    ensures Zeros(nodes, []) == []
  {
  }

  lemma LoopTurn(nodes: Nodes, k: Kahn, orders: Id -> seq<Id>, k1: Kahn)
    requires KnownDependents(nodes) && OrdersOk(nodes, orders) && KahnInv(nodes, k) && k.queue != []
    requires PopOne(k, orders) == k1
    ensures KahnInv(nodes, k1) && Loop(nodes, k, orders) == Loop(nodes, k1, orders)
  {
    hide KnownDependents, OrdersOk, KahnInv;
    PopKeeps(nodes, k, orders);
  }

  lemma StaleTables(q: Four, orders: Id -> seq<Id>)
    requires Good(q) && OrdersOk(Stale(q).nodes, orders)
    ensures KnownDependents(Stale(q).nodes) && Enumerates([q.d, q.f, q.e, q.x], Stale(q).nodes.Keys)
    ensures |Stale(q).nodes| == 4
    ensures orders(q.d) == [q.x] && orders(q.f) == [q.e] && orders(q.e) == [q.x] && orders(q.x) == []
  {
    Different(q);
    var n := Stale(q).nodes;
    assert n.Keys == {q.d, q.f, q.e, q.x};
    assert |n| == 4;
    OnlyOne(orders(q.d), q.x);
    OnlyOne(orders(q.f), q.e);
    OnlyOne(orders(q.e), q.x);
    NoneAtAll(orders(q.x));
  }

  lemma SortsWrongly(q: Four, orders: Id -> seq<Id>)
    requires Good(q) && OrdersOk(Stale(q).nodes, orders)
    ensures KnownDependents(Stale(q).nodes) && Enumerates([q.d, q.f, q.e, q.x], Stale(q).nodes.Keys)
    ensures Sort(Stale(q).nodes, [q.d, q.f, q.e, q.x], orders) == Some([q.d, q.f, q.x, q.e])
  {
    hide KahnInv, DecrementAll, Loop, Stale, Good, Degrees, KnownDependents, Enumerates, OrdersOk, Started, PopOne;
    StaleTables(q, orders);
    var n, order := Stale(q).nodes, [q.d, q.f, q.e, q.x];
    StartKeeps(n, order);
    StartsWithDF(q);
    var k0 := Kahn(Degrees(q, 1, 1), [q.d, q.f], []);
    var k1 := Kahn(Degrees(q, 1, 0), [q.f, q.x], [q.d]);
    var k2 := Kahn(Degrees(q, 0, 0), [q.x, q.e], [q.d, q.f]);
    var k3 := Kahn(Degrees(q, 0, 0), [q.e], [q.d, q.f, q.x]);
    var k4 := Kahn(Degrees(q, 0, -1), [], [q.d, q.f, q.x, q.e]);
    TurnD(q, orders);
    TurnF(q, orders);
    TurnX(q, orders);
    TurnE(q, orders);
    LoopTurn(n, k0, orders, k1);
    LoopTurn(n, k1, orders, k2);
    LoopTurn(n, k2, orders, k3);
    LoopTurn(n, k3, orders, k4);
    LoopEnds(n, k4, orders);
  }

  lemma LoopEnds(nodes: Nodes, k: Kahn, orders: Id -> seq<Id>)
    requires KnownDependents(nodes) && OrdersOk(nodes, orders) && KahnInv(nodes, k) && k.queue == []
    ensures Loop(nodes, k, orders) == k
  {
  }

  lemma TurnD(q: Four, orders: Id -> seq<Id>)
    requires Good(q) && orders(q.d) == [q.x]
    ensures PopOne(Kahn(Degrees(q, 1, 1), [q.d, q.f], []), orders) == Kahn(Degrees(q, 1, 0), [q.f, q.x], [q.d])
  {
    hide NoDuplicates, PopOne;
    Different(q);
    var k := Kahn(Degrees(q, 1, 1), [q.d, q.f], []);
    assert k.queue[1..] + [q.x] == [q.f, q.x] && k.result + [q.d] == [q.d];
    assert Degrees(q, 1, 1)[q.x := 0] == Degrees(q, 1, 0);
    PopWithOne(k, orders, q.x, Kahn(Degrees(q, 1, 0), [q.f, q.x], [q.d]));
  }

  lemma TurnF(q: Four, orders: Id -> seq<Id>)
    requires Good(q) && orders(q.f) == [q.e]
    ensures PopOne(Kahn(Degrees(q, 1, 0), [q.f, q.x], [q.d]), orders) == Kahn(Degrees(q, 0, 0), [q.x, q.e], [q.d, q.f])
  {
    hide NoDuplicates, PopOne;
    Different(q);
    var k := Kahn(Degrees(q, 1, 0), [q.f, q.x], [q.d]);
    assert k.queue[1..] + [q.e] == [q.x, q.e] && k.result + [q.f] == [q.d, q.f];
    assert Degrees(q, 1, 0)[q.e := 0] == Degrees(q, 0, 0);
    PopWithOne(k, orders, q.e, Kahn(Degrees(q, 0, 0), [q.x, q.e], [q.d, q.f]));
  }

  lemma TurnX(q: Four, orders: Id -> seq<Id>)
    requires orders(q.x) == []
    ensures PopOne(Kahn(Degrees(q, 0, 0), [q.x, q.e], [q.d, q.f]), orders) ==
      Kahn(Degrees(q, 0, 0), [q.e], [q.d, q.f, q.x])
  {
    hide Degrees;
    assert [q.x, q.e][1..] == [q.e] && [q.d, q.f] + [q.x] == [q.d, q.f, q.x];
  }

  lemma TurnE(q: Four, orders: Id -> seq<Id>)
    requires Good(q) && orders(q.e) == [q.x]
    ensures PopOne(Kahn(Degrees(q, 0, 0), [q.e], [q.d, q.f, q.x]), orders) ==
      Kahn(Degrees(q, 0, -1), [], [q.d, q.f, q.x, q.e])
  {
    hide NoDuplicates, PopOne;
    Different(q);
    var k := Kahn(Degrees(q, 0, 0), [q.e], [q.d, q.f, q.x]);
    assert k.queue[1..] + [] == [] && k.result + [q.e] == [q.d, q.f, q.x, q.e];
    assert Degrees(q, 0, 0)[q.x := -1] == Degrees(q, 0, -1);
    PopWithOne(k, orders, q.x, Kahn(Degrees(q, 0, -1), [], [q.d, q.f, q.x, q.e]));
  }

  /** Enqueue d, f, e and x, run d and let it complete. In the state reached, with the nodes in the
      order of enqueueing, topological_sort returns d, f, x, e: x before e, for which it waits. */
  lemma StaleRecordsMislead(q: Four, orders: Id -> seq<Id>)
    requires Good(q) && OrdersOk(Stale(q).nodes, orders)
    ensures
      var states := [Initial(), One(q), Two(q), Three(q), All(q), Dispatched(q), Stale(q)];
      var ops := [EnqueueOp(q.d, q.td), EnqueueOp(q.f, q.tf), EnqueueOp(q.e, q.te), EnqueueOp(q.x, q.tx),
                  DequeueOp, SucceedOp(q.d, [q.x])];
      Run(states, ops)
    ensures KnownDependents(Stale(q).nodes) && Enumerates([q.d, q.f, q.e, q.x], Stale(q).nodes.Keys)
    ensures Sort(Stale(q).nodes, [q.d, q.f, q.e, q.x], orders) == Some([q.d, q.f, q.x, q.e])
    ensures !IsTopological(Stale(q).nodes, [q.d, q.f, q.x, q.e])
  {
    hide Enqueue, Dequeue, Succeed, Sort, OrdersOk;
    Different(q);
    EnqueueD(q);
    EnqueueF(q);
    EnqueueE(q);
    EnqueueX(q);
    DequeueD(q);
    SucceedD(q);
    assert Step(Initial(), EnqueueOp(q.d, q.td), One(q));
    assert Step(One(q), EnqueueOp(q.f, q.tf), Two(q));
    assert Step(Two(q), EnqueueOp(q.e, q.te), Three(q));
    assert Step(Three(q), EnqueueOp(q.x, q.tx), All(q));
    assert Step(All(q), DequeueOp, Dispatched(q));
    assert Step(Dispatched(q), SucceedOp(q.d, [q.x]), Stale(q));
    SortsWrongly(q, orders);
    var r := [q.d, q.f, q.x, q.e];
    assert r[2] == q.x && r[..2] == [q.d, q.f] && q.e in Stale(q).nodes[r[2]].open;
  }

  // ---- it depends on the order of the node table ----

  /** e and x are taken in the same round, the second. */
  lemma SameRound(q: Four)
    requires Good(q)
    ensures
      var n := Stale(q).nodes;
      && q.e !in Rounds(n, 1) && q.x !in Rounds(n, 1) && q.e in Rounds(n, 2) && q.x in Rounds(n, 2)
  {
    hide Good;
    var n := Stale(q).nodes;
    FirstRound(q);
    assert Rounds(n, 1) == Paid(n, Rounds(n, 0)) && Rounds(n, 2) == Paid(n, Rounds(n, 1));
    SecondRound(q);
  }

  lemma FirstRound(q: Four)
    requires Good(q)
    ensures Paid(Stale(q).nodes, {}) == {q.d, q.f} && Rounds(Stale(q).nodes, 0) == {}
    ensures q.e !in {q.d, q.f} && q.x !in {q.d, q.f}
  {
    hide Stale, NoDuplicates, Fresh;
    Different(q);
    StaleOpen(q);
    var n := Stale(q).nodes;
    forall y | y in n ensures y in Paid(n, {}) <==> y == q.d || y == q.f {
      assert Credit(n, y, {}) == {};
    }
  }

  lemma SecondRound(q: Four)
    requires Good(q)
    ensures q.e in Paid(Stale(q).nodes, {q.d, q.f}) && q.x in Paid(Stale(q).nodes, {q.d, q.f})
  {
    hide NoDuplicates;
    Different(q);
    var n := Stale(q).nodes;
    assert Credit(n, q.e, {q.d, q.f}) == {q.f};
    assert Credit(n, q.x, {q.d, q.f}) == {q.d};
  }

  lemma OtherZeros(q: Four)
    requires Good(q)
    ensures Zeros(Stale(q).nodes, [q.f, q.d, q.e, q.x]) == [q.f, q.d]
  {
    hide Zeros, Stale, Good;
    StaleOpen(q);
    var n := Stale(q).nodes;
    EmptyZeros(n);
    ZerosStep(n, [], q.f);
    assert [] + [q.f] == [q.f];
    ZerosStep(n, [q.f], q.d);
    assert [q.f] + [q.d] == [q.f, q.d];
    ZerosStep(n, [q.f, q.d], q.e);
    assert [q.f, q.d] + [q.e] == [q.f, q.d, q.e] && [q.f, q.d] + [] == [q.f, q.d];
    ZerosStep(n, [q.f, q.d, q.e], q.x);
    assert [q.f, q.d, q.e] + [q.x] == [q.f, q.d, q.e, q.x];
  }

  lemma OtherTurns(q: Four, orders: Id -> seq<Id>, k0: Kahn, k1: Kahn, k2: Kahn, k3: Kahn, k4: Kahn)
    requires Good(q) && orders(q.d) == [q.x] && orders(q.f) == [q.e] && orders(q.e) == [q.x] && orders(q.x) == []
    requires k0 == Kahn(Degrees(q, 1, 1), [q.f, q.d], []) && k1 == Kahn(Degrees(q, 0, 1), [q.d, q.e], [q.f])
    requires k2 == Kahn(Degrees(q, 0, 0), [q.e, q.x], [q.f, q.d])
    requires k3 == Kahn(Degrees(q, 0, -1), [q.x], [q.f, q.d, q.e])
    requires k4 == Kahn(Degrees(q, 0, -1), [], [q.f, q.d, q.e, q.x])
    ensures PopOne(k0, orders) == k1 && PopOne(k1, orders) == k2 && PopOne(k2, orders) == k3 && PopOne(k3, orders) == k4
  {
    hide NoDuplicates, PopOne, Degrees;
    DegreesAt(q);
    assert k0.queue[1..] + [q.e] == [q.d, q.e] && k0.result + [q.f] == [q.f];
    PopWithOne(k0, orders, q.e, k1);
    assert k1.queue[1..] + [q.x] == [q.e, q.x] && k1.result + [q.d] == [q.f, q.d];
    PopWithOne(k1, orders, q.x, k2);
    assert k2.queue[1..] + [] == [q.x] && k2.result + [q.e] == [q.f, q.d, q.e];
    PopWithOne(k2, orders, q.x, k3);
    PopWithNone(k3, orders, k4);
  }

  lemma DegreesAt(q: Four)
    requires Good(q)
    ensures forall e, x :: q.e in Degrees(q, e, x) && q.x in Degrees(q, e, x) && Degrees(q, e, x)[q.e] == e
    ensures forall e, x :: q.x in Degrees(q, e, x) && Degrees(q, e, x)[q.x] == x
    ensures Degrees(q, 1, 1)[q.e := 0] == Degrees(q, 0, 1) && Degrees(q, 0, 1)[q.x := 0] == Degrees(q, 0, 0)
    ensures Degrees(q, 0, 0)[q.x := -1] == Degrees(q, 0, -1)
  {
    hide NoDuplicates;
    Different(q);
  }

  lemma PopWithNone(k: Kahn, orders: Id -> seq<Id>, r: Kahn)
    requires k.queue != [] && orders(k.queue[0]) == []
    requires r == Kahn(k.inDegree, k.queue[1..], k.result + [k.queue[0]])
    ensures PopOne(k, orders) == r
  {
  }

  lemma StartsWithFD(q: Four)
    requires Good(q)
    ensures Started(Stale(q).nodes, [q.f, q.d, q.e, q.x]) == Kahn(Degrees(q, 1, 1), [q.f, q.d], [])
  {
    hide Zeros, Stale, Good, Degrees;
    OtherZeros(q);
    StaleDegrees(q);
  }

  /** The same graph, with f before d in the table: the order returned is right. */
  lemma OtherTableIsRight(q: Four, orders: Id -> seq<Id>)
    requires Good(q) && OrdersOk(Stale(q).nodes, orders)
    ensures KnownDependents(Stale(q).nodes) && Enumerates([q.f, q.d, q.e, q.x], Stale(q).nodes.Keys)
    ensures Sort(Stale(q).nodes, [q.f, q.d, q.e, q.x], orders) == Some([q.f, q.d, q.e, q.x])
    ensures IsTopological(Stale(q).nodes, [q.f, q.d, q.e, q.x])
  {
    hide KahnInv, DecrementAll, Loop, Stale, Good, Degrees, KnownDependents, OrdersOk, Started, PopOne;
    StaleTables(q, orders);
    OtherTable(q);
    var n, order := Stale(q).nodes, [q.f, q.d, q.e, q.x];
    StartKeeps(n, order);
    StartsWithFD(q);
    var k0 := Kahn(Degrees(q, 1, 1), [q.f, q.d], []);
    var k1 := Kahn(Degrees(q, 0, 1), [q.d, q.e], [q.f]);
    var k2 := Kahn(Degrees(q, 0, 0), [q.e, q.x], [q.f, q.d]);
    var k3 := Kahn(Degrees(q, 0, -1), [q.x], [q.f, q.d, q.e]);
    var k4 := Kahn(Degrees(q, 0, -1), [], [q.f, q.d, q.e, q.x]);
    OtherTurns(q, orders, k0, k1, k2, k3, k4);
    LoopTurn(n, k0, orders, k1);
    LoopTurn(n, k1, orders, k2);
    LoopTurn(n, k2, orders, k3);
    LoopTurn(n, k3, orders, k4);
    LoopEnds(n, k4, orders);
  }

  lemma OtherTable(q: Four)
    requires Good(q)
    ensures Enumerates([q.f, q.d, q.e, q.x], Stale(q).nodes.Keys)
    ensures IsTopological(Stale(q).nodes, [q.f, q.d, q.e, q.x])
  {
    hide Stale;
    Different(q);
    StaleOpen(q);
    var r := [q.f, q.d, q.e, q.x];
    assert r[..2] == [q.f, q.d] && r[..3] == [q.f, q.d, q.e];
    assert Elements(r) == {q.d, q.f, q.e, q.x};
  }
}
