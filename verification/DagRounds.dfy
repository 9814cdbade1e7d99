/** Which listings topological_sort returns, and in what order it takes the tasks whatever the order of
    the node table and of the dependents. */
module DagRounds {
  import opened Graphs
  import opened Tasks
  import opened DagSpec
  import opened DagSort

  /** The tasks that have been queued once `done` has been taken. */
  ghost function Paid(nodes: Nodes, done: set<Id>): set<Id> {
    set x | x in nodes && PaidUp(nodes, x, done)
  }

  ghost predicate BeginsWith(r: seq<Id>, a: set<Id>) {
    exists m :: 0 <= m <= |r| && Elements(r[..m]) == a
  }

  /** Whatever has been queued when i tasks are taken is taken before everything else. */
  ghost predicate FirstInFirstOut(nodes: Nodes, r: seq<Id>) {
    forall i :: 0 <= i <= |r| ==> BeginsWith(r, Paid(nodes, Elements(r[..i])))
  }

  // ---- the loop is first in, first out ----

  lemma QueuedIsPaid(nodes: Nodes, k: Kahn)
    requires KahnInv(nodes, k)
    ensures Elements(k.result + k.queue) == Paid(nodes, Elements(k.result))
  {
    hide Counted, InDegreesFor, PaidUp, NoDuplicates;
  }

  lemma PopPrefix(k: Kahn, orders: Id -> seq<Id>)
    requires k.queue != []
    ensures k.result + k.queue <= PopOne(k, orders).result + PopOne(k, orders).queue
    ensures PopOne(k, orders).result == k.result + [k.queue[0]]
  {
    var k1 := PopOne(k, orders);
    assert k.result + k.queue == k.result + [k.queue[0]] + k.queue[1..];
    assert k1.queue == k.queue[1..] + k1.queue[|k.queue| - 1..];
    assert k1.result + k1.queue == k.result + k.queue + k1.queue[|k.queue| - 1..];
  }

  lemma {:induction false} LoopIsFifo(nodes: Nodes, k: Kahn, orders: Id -> seq<Id>, i: nat)
    requires KnownDependents(nodes) && OrdersOk(nodes, orders) && KahnInv(nodes, k)
    requires |k.result| <= i <= |Loop(nodes, k, orders).result|
    ensures k.result + k.queue <= Loop(nodes, k, orders).result
    ensures BeginsWith(Loop(nodes, k, orders).result, Paid(nodes, Elements(Loop(nodes, k, orders).result[..i])))
    decreases |nodes| - |k.result|
  {
    hide KahnInv, OrdersOk, KnownDependents, Paid, PopOne, BeginsWith;
    var r := Loop(nodes, k, orders).result;
    if k.queue == [] {
      assert k.result + k.queue == k.result && r[..i] == k.result;
    } else {
      PopKeeps(nodes, k, orders);
      PopPrefix(k, orders);
      LoopGrows(nodes, PopOne(k, orders), orders);
      LoopIsFifo(nodes, PopOne(k, orders), orders, if i == |k.result| then i + 1 else i);
    }
    if i == |k.result| {
      QueuedIsPaid(nodes, k);
      assert r[..i] == (k.result + k.queue)[..i] == k.result;
      PrefixBegins(r, k.result + k.queue);
    }
  }

  lemma PrefixBegins(r: seq<Id>, q: seq<Id>)
    requires q <= r
    ensures BeginsWith(r, Elements(q))
  {
    assert r[..|q|] == q;
  }

  lemma {:induction false} LoopGrows(nodes: Nodes, k: Kahn, orders: Id -> seq<Id>)
    requires KnownDependents(nodes) && OrdersOk(nodes, orders) && KahnInv(nodes, k)
    ensures |k.result| <= |Loop(nodes, k, orders).result|
    decreases |nodes| - |k.result|
  {
    hide KahnInv, OrdersOk, KnownDependents, PopOne;
    if k.queue == [] {
    } else {
      PopKeeps(nodes, k, orders);
      LoopGrows(nodes, PopOne(k, orders), orders);
    }
  }

  lemma SortIsFifo(nodes: Nodes, order: seq<Id>, orders: Id -> seq<Id>)
    requires KnownDependents(nodes) && Enumerates(order, nodes.Keys) && OrdersOk(nodes, orders)
    requires Sort(nodes, order, orders).Some?
    ensures FirstInFirstOut(nodes, Sort(nodes, order, orders).value)
  {
    hide KahnInv, OrdersOk, KnownDependents, Enumerates, Paid, BeginsWith, Loop, Started;
    StartKeeps(nodes, order);
    var k := Started(nodes, order);
    var r := Sort(nodes, order, orders).value;
    assert k.result == [] by { NothingTaken(nodes, order); }
    forall i | 0 <= i <= |r| ensures BeginsWith(r, Paid(nodes, Elements(r[..i]))) {
      LoopIsFifo(nodes, k, orders, i);
    }
  }

  lemma NothingTaken(nodes: Nodes, order: seq<Id>)
    ensures Started(nodes, order).result == []
  {
  }

  // ---- rounds ----

  /** The tasks taken in the first k rounds, a round being those queued by the round before. */
  ghost function Rounds(nodes: Nodes, k: nat): set<Id> {
    if k == 0 then {} else Paid(nodes, Rounds(nodes, k - 1))
  }

  ghost predicate InEarlierRound(nodes: Nodes, e: Id, x: Id) {
    exists k: nat :: e in Rounds(nodes, k) && x !in Rounds(nodes, k)
  }

  lemma {:induction false} RoundsComeFirst(nodes: Nodes, r: seq<Id>, k: nat)
    requires FirstInFirstOut(nodes, r)
    ensures BeginsWith(r, Rounds(nodes, k))
  {
    hide Paid;
    if k == 0 {
      assert r[..0] == [] && Elements([]) == {};
    } else {
      RoundsComeFirst(nodes, r, k - 1);
      var m :| 0 <= m <= |r| && Elements(r[..m]) == Rounds(nodes, k - 1);
      assert BeginsWith(r, Paid(nodes, Elements(r[..m])));
    }
  }

  lemma EarlierComesFirst(nodes: Nodes, r: seq<Id>, e: Id, x: Id, i: nat)
    requires FirstInFirstOut(nodes, r) && InEarlierRound(nodes, e, x) && i < |r| && r[i] == x
    ensures e in r[..i]
  {
    hide FirstInFirstOut, Rounds;
    var k: nat :| e in Rounds(nodes, k) && x !in Rounds(nodes, k);
    RoundsComeFirst(nodes, r, k);
    var m :| 0 <= m <= |r| && Elements(r[..m]) == Rounds(nodes, k);
    assert e in r[..m];
    BehindPrefix(r, m, i);
    assert r[..i] == r[..m] + r[m..i];
  }

  /** For every order of the node table and of the dependents: the order returned is topological if
      each open dependency is taken in an earlier round than the task that waits for it, and is not
      if one is taken in a later round. */
  lemma RoundsDecide(nodes: Nodes, order: seq<Id>, orders: Id -> seq<Id>)
    requires KnownDependents(nodes) && Enumerates(order, nodes.Keys) && OrdersOk(nodes, orders)
    requires Sort(nodes, order, orders).Some?
    ensures (forall x, e :: x in nodes && e in nodes[x].open ==> InEarlierRound(nodes, e, x)) ==>
      IsTopological(nodes, Sort(nodes, order, orders).value)
    ensures (exists x, e :: x in nodes && e in nodes[x].open && InEarlierRound(nodes, x, e)) ==>
      !IsTopological(nodes, Sort(nodes, order, orders).value)
  {
    hide KnownDependents, OrdersOk, Enumerates, FirstInFirstOut, Sort, Counted, InEarlierRound, Stalls;
    var r := Sort(nodes, order, orders).value;
    SortFacts(nodes, order, orders);
    SortIsFifo(nodes, order, orders);
    if forall x, e :: x in nodes && e in nodes[x].open ==> InEarlierRound(nodes, e, x) {
      forall i, d | 0 <= i < |r| && r[i] in nodes && d in nodes[r[i]].open ensures d in r[..i] {
        EarlierComesFirst(nodes, r, d, r[i], i);
      }
    }
    if exists x, e :: x in nodes && e in nodes[x].open && InEarlierRound(nodes, x, e) {
      var x, e :| x in nodes && e in nodes[x].open && InEarlierRound(nodes, x, e);
      LaterIsWrong(nodes, r, x, e);
    }
  }

  lemma LaterIsWrong(nodes: Nodes, r: seq<Id>, x: Id, e: Id)
    requires ListsAll(nodes, r) && FirstInFirstOut(nodes, r) && x in nodes && e in nodes[x].open
    requires InEarlierRound(nodes, x, e)
    ensures !IsTopological(nodes, r)
  {
    hide FirstInFirstOut, InEarlierRound;
    var i :| 0 <= i < |r| && r[i] == x;
    if e in r[..i] {
      var j :| 0 <= j < i && r[j] == e;
      NotTwice(r, j, i);
      EarlierComesFirst(nodes, r, x, e, j);
    }
  }

  lemma InPrefix(r: seq<Id>, m: nat, i: nat)
    requires i < m <= |r|
    ensures r[i] in r[..m]
  {
    assert r[..m][i] == r[i];
  }

  lemma BehindPrefix(r: seq<Id>, m: nat, i: nat)
    requires i < |r| && m <= |r|
    ensures r[i] !in r[..m] ==> m <= i
  {
    if i < m { InPrefix(r, m, i); }
  }

  lemma NotTwice(r: seq<Id>, j: nat, i: nat)
    requires NoDuplicates(r) && j <= i < |r|
    ensures r[i] !in r[..j]
  {
  }

  // ---- every such listing is returned for some order ----

  /** The members of `a`, in the order of r. */
  ghost function Sift(r: seq<Id>, a: set<Id>): (q: seq<Id>)
    ensures forall x :: x in q <==> x in r && x in a
  {
    if r == [] then []
    else
      var front, x := Sift(r[..|r| - 1], a), r[|r| - 1];
      if x in a then front + [x] else front
  }

  lemma {:induction false} SiftDistinct(r: seq<Id>, a: set<Id>)
    requires NoDuplicates(r)
    ensures NoDuplicates(Sift(r, a))
  {
    if r == [] {
    } else {
      SiftDistinct(r[..|r| - 1], a);
      assert r[|r| - 1] !in r[..|r| - 1];
      AppendDistinct(Sift(r[..|r| - 1], a), r[|r| - 1]);
    }
  }

  lemma {:induction false} SiftTwice(r: seq<Id>, a: set<Id>, b: set<Id>)
    ensures Sift(Sift(r, a), b) == Sift(r, a * b)
  {
    if r == [] {
    } else {
      var front, x := r[..|r| - 1], r[|r| - 1];
      SiftTwice(front, a, b);
      if x in a {
        var q := Sift(front, a) + [x];
        assert q[..|q| - 1] == Sift(front, a);
      }
    }
  }

  lemma {:induction false} SiftNone(r: seq<Id>, a: set<Id>)
    requires forall x :: x in r ==> x !in a
    ensures Sift(r, a) == []
  {
    if r == [] {
    } else {
      assert r[|r| - 1] in r;
      SiftNone(r[..|r| - 1], a);
    }
  }

  lemma {:induction false} SiftSlice(r: seq<Id>, l: nat, m: nat, a: set<Id>)
    requires NoDuplicates(r) && l <= m <= |r| && forall i :: 0 <= i < |r| ==> (r[i] in a <==> l <= i < m)
    ensures Sift(r, a) == r[l..m]
  {
    if r == [] {
    } else {
      var front := r[..|r| - 1];
      if m < |r| {
        SiftSlice(front, l, m, a);
        assert front[l..m] == r[l..m];
      } else if l < |r| {
        SiftSlice(front, l, m - 1, a);
        assert r[l..m] == front[l..m - 1] + [r[|r| - 1]];
      } else {
        SiftNone(r, a);
      }
    }
  }

  /** What the inner loop appends: the dependents whose count was one. */
  lemma {:induction false} DecrementAllQueue(k: Kahn, todo: seq<Id>, ones: set<Id>)
    requires NoDuplicates(todo) && forall x :: x in todo ==> x in k.inDegree && (x in ones <==> k.inDegree[x] == 1)
    ensures DecrementAll(k, todo).queue == k.queue + Sift(todo, ones)
    ensures DecrementAll(k, todo).inDegree.Keys == k.inDegree.Keys
    ensures forall x :: x in k.inDegree && x !in todo ==> DecrementAll(k, todo).inDegree[x] == k.inDegree[x]
  {
    if todo == [] {
    } else {
      var front, x := todo[..|todo| - 1], todo[|todo| - 1];
      assert x !in front && x in todo && todo == front + [x];
      DecrementAllQueue(k, front, ones);
    }
  }

  /** Dependents in the order of r. */
  ghost function OrdersBy(nodes: Nodes, r: seq<Id>): Id -> seq<Id> {
    t => if t in nodes then Sift(r, nodes[t].dependents) else []
  }

  lemma OrdersByOk(nodes: Nodes, r: seq<Id>)
    requires KnownDependents(nodes) && ListsAll(nodes, r)
    ensures OrdersOk(nodes, OrdersBy(nodes, r)) && Enumerates(r, nodes.Keys)
  {
    forall t | t in nodes ensures Enumerates(OrdersBy(nodes, r)(t), nodes[t].dependents) {
      SiftDistinct(r, nodes[t].dependents);
    }
  }

  lemma {:induction false} ZerosSift(nodes: Nodes, order: seq<Id>)
    requires forall x :: x in order ==> x in nodes
    ensures Zeros(nodes, order) == Sift(order, Paid(nodes, {}))
  {
    if order == [] {
    } else {
      var x := order[|order| - 1];
      assert x in order && Credit(nodes, x, {}) == {};
      ZerosSift(nodes, order[..|order| - 1]);
    }
  }

  lemma PrefixOrder(r: seq<Id>, l: nat, m: nat)
    requires NoDuplicates(r) && l <= |r| && m <= |r| && Elements(r[..l]) <= Elements(r[..m])
    ensures l <= m
  {
    CountDistinct(r[..l]);
    CountDistinct(r[..m]);
    SubsetSize(Elements(r[..l]), Elements(r[..m]));
  }

  /** A slice of r between two sets it begins with. */
  lemma BetweenPrefixes(r: seq<Id>, l: nat, m: nat, a: set<Id>)
    requires NoDuplicates(r) && l <= |r| && m <= |r| && Elements(r[..l]) <= Elements(r[..m])
    requires forall x :: x in a <==> x in r[..m] && x !in r[..l]
    ensures l <= m && Sift(r, a) == r[l..m]
  {
    PrefixOrder(r, l, m);
    forall i | 0 <= i < |r| ensures r[i] in a <==> l <= i < m {
      if i < l { InPrefix(r, l, i); } else { NotTwice(r, l, i); }
      if i < m { InPrefix(r, m, i); } else { NotTwice(r, m, i); }
    }
    SiftSlice(r, l, m, a);
  }

  lemma StartFollows(nodes: Nodes, r: seq<Id>)
    requires ListsAll(nodes, r) && FirstInFirstOut(nodes, r)
    ensures Started(nodes, r).queue <= r
  {
    hide Paid, NoDuplicates;
    assert r[..0] == [] && Elements([]) == {};
    assert BeginsWith(r, Paid(nodes, Elements(r[..0])));
    var m :| 0 <= m <= |r| && Elements(r[..m]) == Paid(nodes, {});
    ZerosSift(nodes, r);
    BetweenPrefixes(r, 0, m, Paid(nodes, {}));
  }

  /** The tasks queued by taking t are its dependents whose count was one. */
  lemma NewlyPaid(nodes: Nodes, k: Kahn, x: Id)
    requires KahnInv(nodes, k) && k.queue != [] && k.queue[0] in nodes && k.queue[0] !in k.result && x in nodes
    ensures
      var done := Elements(k.result);
      x in k.inDegree && (x in Paid(nodes, done + {k.queue[0]}) && x !in Paid(nodes, done) <==>
                          x in nodes[k.queue[0]].dependents && k.inDegree[x] == 1)
  {
    hide Credit, NoDuplicates, QueuedExactly, Counted;
    CreditStep(nodes, x, Elements(k.result), k.queue[0]);
  }

  /** What taking the next task queues is the next slice of r. */
  lemma NextSlice(nodes: Nodes, r: seq<Id>, k: Kahn, ones: set<Id>) returns (m: nat)
    requires KnownDependents(nodes) && ListsAll(nodes, r) && FirstInFirstOut(nodes, r)
    requires KahnInv(nodes, k) && k.queue != [] && k.result + k.queue <= r && k.queue[0] in nodes
    requires ones == set x | x in nodes && x in k.inDegree && k.inDegree[x] == 1
    ensures |k.result + k.queue| <= m <= |r|
    ensures Sift(Sift(r, nodes[k.queue[0]].dependents), ones) == r[|k.result + k.queue|..m]
  {
    hide KahnInv, Counted, Paid, FirstInFirstOut, NoDuplicates, Sift, KnownDependents;
    Pop1(nodes, k);
    var t, done, a := k.queue[0], Elements(k.result), |k.result + k.queue|;
    QueuedIsPaid(nodes, k);
    m := NextPrefix(nodes, r, k);
    forall x ensures x in nodes[t].dependents * ones <==> x in r[..m] && x !in r[..a] {
      NewInSlice(nodes, r, k, m, ones, x);
    }
    PaidGrows(nodes, done, done + {t});
    assert r[..a] == k.result + k.queue;
    BetweenPrefixes(r, a, m, nodes[t].dependents * ones);
    SiftTwice(r, nodes[t].dependents, ones);
  }

  /** The loop appends it. */
  lemma PopQueue(nodes: Nodes, r: seq<Id>, k: Kahn, ones: set<Id>)
    requires KnownDependents(nodes) && NoDuplicates(r) && KahnInv(nodes, k) && k.queue != [] && k.queue[0] in nodes
    requires ones == set x | x in nodes && x in k.inDegree && k.inDegree[x] == 1
    ensures
      var k1 := PopOne(k, OrdersBy(nodes, r));
      && k1.result == k.result + [k.queue[0]]
      && k1.queue == k.queue[1..] + Sift(Sift(r, nodes[k.queue[0]].dependents), ones)
  {
    hide KahnInv, DecrementAll, Sift, NoDuplicates;
    var t := k.queue[0];
    KeysKnown(nodes, k);
    SiftDistinct(r, nodes[t].dependents);
    DecrementAllQueue(k.(queue := k.queue[1..], result := k.result + [t]), Sift(r, nodes[t].dependents), ones);
  }

  lemma PopFollows(nodes: Nodes, r: seq<Id>, k: Kahn)
    requires KnownDependents(nodes) && ListsAll(nodes, r) && FirstInFirstOut(nodes, r)
    requires KahnInv(nodes, k) && k.queue != [] && k.result + k.queue <= r
    ensures
      var k1 := PopOne(k, OrdersBy(nodes, r));
      k1.result + k1.queue <= r
  {
    hide KahnInv, FirstInFirstOut, NoDuplicates, Sift, KnownDependents, PopOne, OrdersBy;
    Pop1(nodes, k);
    var ones := set x | x in nodes && x in k.inDegree && k.inDegree[x] == 1;
    var a := |k.result + k.queue|;
    var m := NextSlice(nodes, r, k, ones);
    PopQueue(nodes, r, k, ones);
    Prolongs(r, k.result, k.queue, m);
  }

  lemma Prolongs(r: seq<Id>, result: seq<Id>, queue: seq<Id>, m: nat)
    requires queue != [] && result + queue <= r && |result + queue| <= m <= |r|
    ensures result + [queue[0]] + (queue[1..] + r[|result + queue|..m]) <= r
  {
    var a := |result + queue|;
    assert r[..a] == result + queue;
    assert result + [queue[0]] + (queue[1..] + r[a..m]) == r[..a] + r[a..m];
    assert r[..a] + r[a..m] == r[..m];
  }

  lemma KeysKnown(nodes: Nodes, k: Kahn)
    requires KahnInv(nodes, k)
    ensures k.inDegree.Keys == nodes.Keys
  {
  }

  lemma Pop1(nodes: Nodes, k: Kahn)
    requires KahnInv(nodes, k) && k.queue != []
    ensures k.queue[0] in nodes && k.queue[0] !in k.result
  {
    Pop(nodes, k.result, k.queue);
  }

  lemma PaidGrows(nodes: Nodes, a: set<Id>, b: set<Id>)
    requires a <= b
    ensures Paid(nodes, a) <= Paid(nodes, b)
  {
    forall x | x in Paid(nodes, a) ensures x in Paid(nodes, b) {
      PaidUpGrows(nodes, x, a, b);
    }
  }

  lemma NextPrefix(nodes: Nodes, r: seq<Id>, k: Kahn) returns (m: nat)
    requires FirstInFirstOut(nodes, r) && k.queue != [] && k.result + k.queue <= r
    ensures m <= |r| && Elements(r[..m]) == Paid(nodes, Elements(k.result) + {k.queue[0]})
  {
    var i, t := |k.result| + 1, k.queue[0];
    assert (k.result + k.queue)[..i] == k.result + [t];
    assert r[..i] == k.result + [t];
    assert Elements(k.result + [t]) == Elements(k.result) + {t};
    assert BeginsWith(r, Paid(nodes, Elements(r[..i])));
    m :| 0 <= m <= |r| && Elements(r[..m]) == Paid(nodes, Elements(r[..i]));
  }

  lemma NewInSlice(nodes: Nodes, r: seq<Id>, k: Kahn, m: nat, ones: set<Id>, x: Id)
    requires KnownDependents(nodes) && KahnInv(nodes, k) && k.queue != [] && k.result + k.queue <= r && m <= |r|
    requires k.queue[0] in nodes && k.queue[0] !in k.result
    requires Elements(r[..m]) == Paid(nodes, Elements(k.result) + {k.queue[0]})
    requires ones == set y | y in nodes && y in k.inDegree && k.inDegree[y] == 1
    ensures x in nodes[k.queue[0]].dependents * ones <==> x in r[..m] && x !in r[..|k.result + k.queue|]
  {
    hide KahnInv, PaidUp;
    var a := |k.result + k.queue|;
    assert r[..a] == k.result + k.queue;
    QueuedIsPaid(nodes, k);
    assert x in r[..m] <==> x in Elements(r[..m]);
    assert x in r[..a] <==> x in Elements(r[..a]);
    if x in nodes { NewlyPaid(nodes, k, x); }
  }

  lemma {:induction false} LoopFollows(nodes: Nodes, r: seq<Id>, k: Kahn)
    requires KnownDependents(nodes) && ListsAll(nodes, r) && FirstInFirstOut(nodes, r) && Counted(nodes, r)
    requires OrdersOk(nodes, OrdersBy(nodes, r)) && KahnInv(nodes, k) && k.result + k.queue <= r
    ensures Loop(nodes, k, OrdersBy(nodes, r)).result == r
    decreases |nodes| - |k.result|
  {
    hide KahnInv, Counted, FirstInFirstOut, NoDuplicates, OrdersOk, KnownDependents, OrdersBy, ListsAll;
    if k.queue == [] {
      assert k.result + k.queue == k.result;
      EndsTogether(nodes, r, k);
    } else {
      PopKeeps(nodes, k, OrdersBy(nodes, r));
      PopFollows(nodes, r, k);
      LoopFollows(nodes, r, PopOne(k, OrdersBy(nodes, r)));
    }
  }

  lemma EndsTogether(nodes: Nodes, r: seq<Id>, k: Kahn)
    requires ListsAll(nodes, r) && Counted(nodes, r) && KahnInv(nodes, k) && k.queue == [] && k.result <= r
    ensures k.result == r
  {
    hide NoDuplicates, InDegreesFor, PaidUp;
    var i := |k.result|;
    assert k.result + k.queue == k.result;
    if i < |r| {
      assert r[..i] == k.result;
      assert r[i] in r;
      NotTwice(r, i, i);
    }
  }

  /** The exact set of results: a listing of all tasks in counting order is returned for some order of
      the node table and of the dependents exactly if it is first in, first out. */
  lemma ReturnedIff(nodes: Nodes, r: seq<Id>)
    requires KnownDependents(nodes)
    ensures
      (ListsAll(nodes, r) && Counted(nodes, r) && FirstInFirstOut(nodes, r)) <==>
      (exists order, orders ::
        Enumerates(order, nodes.Keys) && OrdersOk(nodes, orders) && Sort(nodes, order, orders) == Some(r))
  {
    hide KnownDependents, OrdersOk, Enumerates, FirstInFirstOut, Counted, ListsAll, Sort, Stalls, NothingStale;
    if ListsAll(nodes, r) && Counted(nodes, r) && FirstInFirstOut(nodes, r) {
      OrdersByOk(nodes, r);
      SortFollows(nodes, r);
      assert Sort(nodes, r, OrdersBy(nodes, r)) == Some(r);
    }
    if exists order, orders ::
        Enumerates(order, nodes.Keys) && OrdersOk(nodes, orders) && Sort(nodes, order, orders) == Some(r) {
      var order, orders :|
        Enumerates(order, nodes.Keys) && OrdersOk(nodes, orders) && Sort(nodes, order, orders) == Some(r);
      SortFacts(nodes, order, orders);
      SortIsFifo(nodes, order, orders);
    }
  }

  lemma SortFollows(nodes: Nodes, r: seq<Id>)
    requires KnownDependents(nodes) && ListsAll(nodes, r) && Counted(nodes, r) && FirstInFirstOut(nodes, r)
    requires OrdersOk(nodes, OrdersBy(nodes, r)) && Enumerates(r, nodes.Keys)
    ensures Sort(nodes, r, OrdersBy(nodes, r)) == Some(r)
  {
    hide KnownDependents, OrdersOk, FirstInFirstOut, Counted, KahnInv, Loop, OrdersBy, Started, NoDuplicates;
    assert Elements(r) == nodes.Keys;
    StartKeeps(nodes, r);
    StartFollows(nodes, r);
    NothingTaken(nodes, r);
    var k := Started(nodes, r);
    assert k.result + k.queue == k.queue;
    LoopFollows(nodes, r, k);
    CountDistinct(r);
  }
}
