/** Kahn's algorithm over in-degrees, as topological_sort runs it. `order` is the order of the node
    table, `orders(a)` the order in which the dependents of a are visited. */
module DagSort {
  import opened Graphs
  import opened Tasks
  import opened DagSpec

  /** Recorded dependents are tasks of the graph. */
  ghost predicate KnownDependents(nodes: Nodes) {
    forall y, x :: y in nodes && x in nodes[y].dependents ==> x in nodes
  }

  /** Recorded dependents are open dependencies: nothing has completed or been waived. */
  ghost predicate DependentsAreOpen(nodes: Nodes) {
    forall y, x :: y in nodes && x in nodes[y].dependents ==> x in nodes && y in nodes[x].open
  }

  /** The same for tasks that still wait; those with nothing open do not matter. */
  ghost predicate NothingStale(nodes: Nodes) {
    forall y, x :: Records(nodes, y, x) && x in nodes && nodes[x].open != {} ==> y in nodes[x].open
  }

  /** Open dependencies are known and have recorded the task: no dependency was enqueued later. */
  ghost predicate OpenAreRecorded(nodes: Nodes) {
    forall x, d :: x in nodes && d in nodes[x].open ==> d in nodes && x in nodes[d].dependents
  }

  /** A duplicate-free listing of all tasks. */
  ghost predicate ListsAll(nodes: Nodes, r: seq<Id>) {
    NoDuplicates(r) && forall x :: x in r <==> x in nodes
  }

  /** A duplicate-free listing of all tasks, each after everything it depends on. */
  ghost predicate IsTopological(nodes: Nodes, r: seq<Id>) {
    && ListsAll(nodes, r)
    && (forall i, d :: 0 <= i < |r| && r[i] in nodes && d in nodes[r[i]].open ==> d in r[..i])
  }

  predicate Records(nodes: Nodes, d: Id, x: Id) {
    d in nodes && x in nodes[d].dependents
  }

  /** The tasks of `done` that were taken off the in-degree of x. */
  ghost function Credit(nodes: Nodes, x: Id, done: set<Id>): set<Id> {
    set t | t in done && Records(nodes, t, x)
  }

  /** x has as many tasks taken off its in-degree as it has open dependencies. */
  ghost predicate PaidUp(nodes: Nodes, x: Id, done: set<Id>)
    requires x in nodes
  {
    |Credit(nodes, x, done)| >= |nodes[x].open|
  }

  /** What the counting guarantees of a listing: each task comes after enough tasks that recorded it. */
  ghost predicate Counted(nodes: Nodes, r: seq<Id>) {
    forall i :: 0 <= i < |r| && r[i] in nodes ==> PaidUp(nodes, r[i], Elements(r[..i]))
  }

  /** Some tasks none of which the others can bring down to in-degree zero. */
  ghost predicate Stalls(nodes: Nodes, n: set<Id>) {
    n != {} && n <= nodes.Keys && forall x :: x in n ==> !PaidUp(nodes, x, nodes.Keys - n)
  }

  lemma CreditStep(nodes: Nodes, x: Id, done: set<Id>, t: Id)
    requires t !in done && t in nodes
    ensures if x in nodes[t].dependents
            then Credit(nodes, x, done + {t}) == Credit(nodes, x, done) + {t} && t !in Credit(nodes, x, done)
            else Credit(nodes, x, done + {t}) == Credit(nodes, x, done)
  {
  }

  ghost predicate InDegreesFor(nodes: Nodes, inDegree: map<Id, int>, done: set<Id>) {
    && inDegree.Keys == nodes.Keys
    && forall x :: x in nodes ==> inDegree[x] == |nodes[x].open| - |Credit(nodes, x, done)|
  }

  /** Exactly the tasks whose in-degree has come down to zero have been queued. */
  ghost predicate QueuedExactly(nodes: Nodes, queued: seq<Id>, done: set<Id>) {
    && NoDuplicates(queued)
    && (forall x :: x in queued ==> x in nodes)
    && (forall x :: x in nodes ==> (x in queued <==> PaidUp(nodes, x, done)))
  }

  /** The same while the dependents `seen` of t have been looked at. */
  ghost predicate PartlyRelaxed(nodes: Nodes, inDegree: map<Id, int>, done: set<Id>, t: Id, seen: set<Id>) {
    && inDegree.Keys == nodes.Keys
    && forall x :: x in nodes ==>
      inDegree[x] == |nodes[x].open| - |Credit(nodes, x, if x in seen then done + {t} else done)|
  }

  ghost predicate PartlyQueued(nodes: Nodes, queued: seq<Id>, done: set<Id>, t: Id, seen: set<Id>) {
    && NoDuplicates(queued)
    && (forall x :: x in queued ==> x in nodes)
    && (forall x :: x in nodes ==>
      (x in queued <==> PaidUp(nodes, x, if x in seen then done + {t} else done)))
  }

  lemma RelaxStart(nodes: Nodes, inDegree: map<Id, int>, queued: seq<Id>, done: set<Id>, t: Id)
    requires InDegreesFor(nodes, inDegree, done) && QueuedExactly(nodes, queued, done)
    ensures PartlyRelaxed(nodes, inDegree, done, t, {}) && PartlyQueued(nodes, queued, done, t, {})
  {
  }

  lemma RelaxEnd(nodes: Nodes, inDegree: map<Id, int>, queued: seq<Id>, done: set<Id>, t: Id)
    requires t in nodes && t !in done
    requires PartlyRelaxed(nodes, inDegree, done, t, nodes[t].dependents)
    requires PartlyQueued(nodes, queued, done, t, nodes[t].dependents)
    ensures InDegreesFor(nodes, inDegree, done + {t}) && QueuedExactly(nodes, queued, done + {t})
  {
    hide Credit, NoDuplicates;
    forall x | x in nodes && x !in nodes[t].dependents
      ensures Credit(nodes, x, done) == Credit(nodes, x, done + {t})
    {
      CreditStep(nodes, x, done, t);
    }
  }

  lemma RelaxOne(nodes: Nodes, inDegree: map<Id, int>, queued: seq<Id>, done: set<Id>, t: Id, seen: set<Id>, x: Id)
    requires KnownDependents(nodes) && t in nodes && t !in done && x in nodes[t].dependents && x !in seen
    requires PartlyRelaxed(nodes, inDegree, done, t, seen) && PartlyQueued(nodes, queued, done, t, seen)
    ensures x in nodes && x in inDegree
    ensures PartlyRelaxed(nodes, inDegree[x := inDegree[x] - 1], done, t, seen + {x})
    ensures PartlyQueued(nodes, if inDegree[x] - 1 == 0 then queued + [x] else queued, done, t, seen + {x})
  {
    hide Credit, NoDuplicates;
    CreditStep(nodes, x, done, t);
    assert |Credit(nodes, x, done + {t})| == |Credit(nodes, x, done)| + 1;
    if inDegree[x] == 1 {
      assert x !in queued;
      AppendDistinct(queued, x);
    }
  }

  // ---- the loop as a function ----

  /** The in-degrees, the deque and the result so far. */
  datatype Kahn = Kahn(inDegree: map<Id, int>, queue: seq<Id>, result: seq<Id>)

  /** One turn of the inner loop: a dependent comes down by one, and is queued at zero. */
  function Decrement(k: Kahn, x: Id): Kahn {
    if x !in k.inDegree then k
    else
      var n := k.inDegree[x] - 1;
      k.(inDegree := k.inDegree[x := n], queue := if n == 0 then k.queue + [x] else k.queue)
  }

  function DecrementAll(k: Kahn, todo: seq<Id>): (r: Kahn)
    ensures r.result == k.result && k.queue <= r.queue
  {
    if todo == [] then k else Decrement(DecrementAll(k, todo[..|todo| - 1]), todo[|todo| - 1])
  }

  /** One turn of the outer loop. */
  function PopOne(k: Kahn, orders: Id -> seq<Id>): Kahn
    requires k.queue != []
  {
    var t := k.queue[0];
    DecrementAll(k.(queue := k.queue[1..], result := k.result + [t]), orders(t))
  }

  function Zeros(nodes: Nodes, order: seq<Id>): (r: seq<Id>)
    ensures forall x :: x in r <==> x in order && x in nodes && nodes[x].open == {}
  {
    if order == [] then []
    else
      var front, x := Zeros(nodes, order[..|order| - 1]), order[|order| - 1];
      if x in nodes && nodes[x].open == {} then front + [x] else front
  }

  function Started(nodes: Nodes, order: seq<Id>): Kahn {
    Kahn(map x | x in nodes :: |nodes[x].open|, Zeros(nodes, order), [])
  }

  ghost predicate KahnInv(nodes: Nodes, k: Kahn) {
    && InDegreesFor(nodes, k.inDegree, Elements(k.result))
    && QueuedExactly(nodes, k.result + k.queue, Elements(k.result))
    && Counted(nodes, k.result)
  }

  function Loop(nodes: Nodes, k: Kahn, orders: Id -> seq<Id>): (r: Kahn)
    requires KnownDependents(nodes) && OrdersOk(nodes, orders) && KahnInv(nodes, k)
    ensures KahnInv(nodes, r) && r.queue == []
    decreases |nodes| - |k.result|
  {
    if k.queue == [] then k
    else
      PopKeeps(nodes, k, orders);
      Loop(nodes, PopOne(k, orders), orders)
  }

  /** None stands for the error "there is a cycle". */
  function Sort(nodes: Nodes, order: seq<Id>, orders: Id -> seq<Id>): Option<seq<Id>>
    requires KnownDependents(nodes) && Enumerates(order, nodes.Keys) && OrdersOk(nodes, orders)
  {
    StartKeeps(nodes, order);
    var r := Loop(nodes, Started(nodes, order), orders).result;
    if |r| != |nodes| then None else Some(r)
  }

  lemma {:induction false} DecrementAllPartly(nodes: Nodes, k: Kahn, before: seq<Id>, done: set<Id>, t: Id,
                                              todo: seq<Id>)
    requires KnownDependents(nodes) && t in nodes && t !in done && NoDuplicates(todo)
    requires forall x :: x in todo ==> x in nodes[t].dependents
    requires InDegreesFor(nodes, k.inDegree, done) && QueuedExactly(nodes, before + k.queue, done)
    ensures
      var r := DecrementAll(k, todo);
      && PartlyRelaxed(nodes, r.inDegree, done, t, Elements(todo))
      && PartlyQueued(nodes, before + r.queue, done, t, Elements(todo))
  {
    hide PartlyRelaxed, PartlyQueued, InDegreesFor, QueuedExactly, Credit, PaidUp, KnownDependents;
    if todo == [] {
      assert Elements(todo) == {};
      RelaxStart(nodes, k.inDegree, before + k.queue, done, t);
    } else {
      var front, x := todo[..|todo| - 1], todo[|todo| - 1];
      assert todo == front + [x] && x in todo;
      assert Elements(todo) == Elements(front) + {x} && x !in Elements(front);
      DecrementAllPartly(nodes, k, before, done, t, front);
      var r := DecrementAll(k, front);
      RelaxOne(nodes, r.inDegree, before + r.queue, done, t, Elements(front), x);
      assert before + (r.queue + [x]) == before + r.queue + [x];
    }
  }

  /** A turn of the loop keeps the counts, and lists one task more. */
  lemma PopKeeps(nodes: Nodes, k: Kahn, orders: Id -> seq<Id>)
    requires KnownDependents(nodes) && OrdersOk(nodes, orders) && KahnInv(nodes, k) && k.queue != []
    ensures KahnInv(nodes, PopOne(k, orders))
    ensures |PopOne(k, orders).result| == |k.result| + 1 <= |nodes|
  {
    hide InDegreesFor, QueuedExactly, Counted, KnownDependents, PartlyRelaxed, PartlyQueued, NoDuplicates;
    var t, done := k.queue[0], Elements(k.result);
    var k1 := k.(queue := k.queue[1..], result := k.result + [t]);
    Pop(nodes, k.result, k.queue);
    assert k1.result + k1.queue == k.result + k.queue;
    assert Elements(k1.result) == done + {t};
    DecrementAllPartly(nodes, k1, k1.result, done, t, orders(t));
    assert Elements(orders(t)) == nodes[t].dependents;
    var r := PopOne(k, orders);
    RelaxEnd(nodes, r.inDegree, r.result + r.queue, done, t);
  }

  lemma StartKeeps(nodes: Nodes, order: seq<Id>)
    requires Enumerates(order, nodes.Keys)
    ensures KahnInv(nodes, Started(nodes, order))
  {
    hide Counted, NoDuplicates;
    NothingCounted(nodes);
    forall x | x in nodes ensures Credit(nodes, x, {}) == {} {}
    assert Elements([]) == {};
    assert [] + Zeros(nodes, order) == Zeros(nodes, order);
    ZerosDistinct(nodes, order);
  }

  lemma {:induction false} ZerosDistinct(nodes: Nodes, order: seq<Id>)
    requires NoDuplicates(order)
    ensures NoDuplicates(Zeros(nodes, order))
  {
    if order == [] {
    } else {
      var front, x := order[..|order| - 1], order[|order| - 1];
      ZerosDistinct(nodes, front);
      assert x !in front;
      if x in nodes && nodes[x].open == {} { AppendDistinct(Zeros(nodes, front), x); }
    }
  }

  /** On any graph the loop ends. It returns a listing unless some tasks stall, and the listing is in
      counting order; where no waiting task has stale records that is a topological order. While
      nothing has completed or been waived, it returns exactly when every open dependency has
      recorded its dependent and there is no cycle. */
  lemma SortFacts(nodes: Nodes, order: seq<Id>, orders: Id -> seq<Id>)
    requires KnownDependents(nodes) && Enumerates(order, nodes.Keys) && OrdersOk(nodes, orders)
    ensures
      var r := Sort(nodes, order, orders);
      && (r.Some? ==> ListsAll(nodes, r.value) && Counted(nodes, r.value))
      && (r.None? <==> exists n :: Stalls(nodes, n))
      && (r.Some? && NothingStale(nodes) ==> IsTopological(nodes, r.value))
      && (DependentsAreOpen(nodes) ==> (r.Some? <==> OpenAreRecorded(nodes) && Acyclic(DependentsGraph(nodes))))
  {
    hide InDegreesFor, QueuedExactly, Counted, KnownDependents, DependentsAreOpen, Acyclic, Enumerates, OrdersOk;
    hide ListsAll, NothingStale, IsTopological, OpenAreRecorded, Stalls;
    StartKeeps(nodes, order);
    var r := Loop(nodes, Started(nodes, order), orders);
    assert r.result + r.queue == r.result;
    if |r.result| != |nodes| {
      SomeLeft(nodes, r.result);
    } else {
      AllListed(nodes, r.result);
    }
  }

  // ---- the loop in place ----

  /** The inner loop. */
  method Relax(inDegree: map<Id, int>, queue: seq<Id>, dependents: seq<Id>, ghost result: seq<Id>)
    returns (inDegree': map<Id, int>, queue': seq<Id>)
    requires forall x :: x in dependents ==> x in inDegree
    ensures Kahn(inDegree', queue', result) == DecrementAll(Kahn(inDegree, queue, result), dependents)
  {
    inDegree', queue' := inDegree, queue;
    var i := 0;
    while i < |dependents|
      invariant 0 <= i <= |dependents| && inDegree'.Keys == inDegree.Keys
      invariant Kahn(inDegree', queue', result) == DecrementAll(Kahn(inDegree, queue, result), dependents[..i])
    {
      var x := dependents[i];
      assert dependents[..i + 1][..i] == dependents[..i];
      inDegree' := inDegree'[x := inDegree'[x] - 1];
      if inDegree'[x] == 0 {
        queue' := queue' + [x];
      }
      i := i + 1;
    }
    assert dependents[..i] == dependents;
  }

  /** The in-degrees and the queue before the first pop. */
  method Start(nodes: Nodes, order: seq<Id>) returns (inDegree: map<Id, int>, queue: seq<Id>)
    requires Enumerates(order, nodes.Keys)
    ensures Kahn(inDegree, queue, []) == Started(nodes, order)
  {
    inDegree := map x | x in nodes :: |nodes[x].open|;
    queue := [];
    var i := 0;
    while i < |order|
      invariant 0 <= i <= |order| && queue == Zeros(nodes, order[..i])
    {
      assert order[..i + 1][..i] == order[..i] && order[i] in order;
      if inDegree[order[i]] == 0 {
        queue := queue + [order[i]];
      }
      i := i + 1;
    }
    assert order[..i] == order;
  }

  /** topological_sort; see SortFacts for what it returns. */
  method TopologicalSort(nodes: Nodes, order: seq<Id>, orders: Id -> seq<Id>) returns (r: Option<seq<Id>>)
    requires KnownDependents(nodes) && Enumerates(order, nodes.Keys) && OrdersOk(nodes, orders)
    ensures r == Sort(nodes, order, orders)
    ensures r.Some? ==> ListsAll(nodes, r.value) && Counted(nodes, r.value)
    ensures r.None? <==> exists n :: Stalls(nodes, n)
    ensures r.Some? && NothingStale(nodes) ==> IsTopological(nodes, r.value)
    ensures DependentsAreOpen(nodes) ==> (r.Some? <==> OpenAreRecorded(nodes) && Acyclic(DependentsGraph(nodes)))
  {
    hide InDegreesFor, QueuedExactly, Counted, KnownDependents, DependentsAreOpen, Acyclic, OrdersOk, Enumerates;
    hide ListsAll, NothingStale, IsTopological, OpenAreRecorded, Stalls;
    SortFacts(nodes, order, orders);
    StartKeeps(nodes, order);
    var inDegree, queue := Start(nodes, order);
    var result: seq<Id> := [];
    while queue != []
      invariant KahnInv(nodes, Kahn(inDegree, queue, result))
      invariant Loop(nodes, Kahn(inDegree, queue, result), orders) == Loop(nodes, Started(nodes, order), orders)
      decreases |nodes| - |result|
    {
      var t := queue[0];
      PopKeeps(nodes, Kahn(inDegree, queue, result), orders);
      Dependents(nodes, Kahn(inDegree, queue, result), orders);
      result := result + [t];
      inDegree, queue := Relax(inDegree, queue[1..], orders(t), result);
    }
    r := if |result| != |nodes| then None else Some(result);
  }

  /** Every dependent of the popped task has an in-degree. */
  lemma Dependents(nodes: Nodes, k: Kahn, orders: Id -> seq<Id>)
    requires KnownDependents(nodes) && OrdersOk(nodes, orders) && KahnInv(nodes, k) && k.queue != []
    ensures forall x :: x in orders(k.queue[0]) ==> x in k.inDegree
  {
    Pop(nodes, k.result, k.queue);
  }

  lemma NothingCounted(nodes: Nodes)
    ensures Counted(nodes, [])
  {
  }

  /** Popping a queued task keeps the listing in counting order. */
  lemma Pop(nodes: Nodes, result: seq<Id>, queue: seq<Id>)
    requires queue != [] && QueuedExactly(nodes, result + queue, Elements(result)) && Counted(nodes, result)
    ensures queue[0] in nodes && queue[0] !in result
    ensures Counted(nodes, result + [queue[0]])
    ensures |result| < |nodes|
  {
    hide PaidUp;
    var t, all := queue[0], result + queue;
    assert all[|result|] == t;
    assert t in all;
    forall i | 0 <= i < |result| ensures result[i] != t { assert all[i] == result[i]; }
    var r := result + [t];
    forall i | 0 <= i < |r| && r[i] in nodes ensures PaidUp(nodes, r[i], Elements(r[..i])) {
      if i < |result| {
        assert r[..i] == result[..i] && r[i] == result[i];
      } else {
        assert r[..i] == result;
      }
    }
    forall i | 0 <= i < |r| ensures r[i] in nodes.Keys { assert r[i] == all[i]; }
    assert NoDuplicates(r) by {
      forall i, j | 0 <= i < j < |r| ensures r[i] != r[j] { assert r[i] == all[i] && r[j] == all[j]; }
    }
    DistinctBound(r, nodes.Keys);
  }

  // ---- the loop stopped early ----

  lemma SomeLeft(nodes: Nodes, result: seq<Id>)
    requires QueuedExactly(nodes, result, Elements(result)) && |result| != |nodes|
    ensures exists n :: Stalls(nodes, n)
    ensures !(OpenAreRecorded(nodes) && Acyclic(DependentsGraph(nodes)))
  {
    hide Acyclic, PaidUp, OpenAreRecorded;
    var left := nodes.Keys - Elements(result);
    NotAllListed(nodes, result);
    forall x ensures x in nodes.Keys - left <==> x in Elements(result) {
    }
    assert nodes.Keys - left == Elements(result);
    assert Stalls(nodes, left);
    if OpenAreRecorded(nodes) { StallIsCycle(nodes, left); }
  }

  /** A distinct listing shorter than the table leaves a task out. */
  lemma NotAllListed(nodes: Nodes, result: seq<Id>)
    requires NoDuplicates(result) && (forall x :: x in result ==> x in nodes) && |result| != |nodes|
    ensures nodes.Keys - Elements(result) != {}
  {
    hide NoDuplicates;
    CountDistinct(result);
    forall x ensures x in Elements(result) <==> x in result {
    }
    NothingLeftOver(Elements(result), nodes.Keys);
  }

  lemma NothingLeftOver(a: set<Id>, b: set<Id>)
    requires a <= b
    ensures b - a == {} ==> a == b
  {
    if b - a == {} {
      forall x | x in b ensures x in a {
        assert x !in b - a;
      }
    }
  }

  /** With all open dependencies recorded, stalling tasks wait for each other in a circle. */
  lemma StallIsCycle(nodes: Nodes, n: set<Id>)
    requires OpenAreRecorded(nodes) && Stalls(nodes, n)
    ensures !Acyclic(DependentsGraph(nodes))
  {
    hide Acyclic, Credit;
    var g := DependentsGraph(nodes);
    forall b | b in n ensures HasPredecessorIn(g, n, b) {
      var d := Unpaid(nodes, b, n);
      assert Edge(g, d, b);
    }
    NoSourceMeansCycle(g, n);
  }

  lemma Unpaid(nodes: Nodes, b: Id, n: set<Id>) returns (d: Id)
    requires OpenAreRecorded(nodes) && Stalls(nodes, n) && b in n
    ensures d in n && d in nodes && b in nodes[d].dependents
  {
    var credit := Credit(nodes, b, nodes.Keys - n);
    assert !PaidUp(nodes, b, nodes.Keys - n);
    if nodes[b].open <= credit { SubsetSize(nodes[b].open, credit); }
    d :| d in nodes[b].open && d !in credit;
  }

  // ---- the loop listed everything ----

  lemma AllListed(nodes: Nodes, result: seq<Id>)
    requires QueuedExactly(nodes, result, Elements(result)) && Counted(nodes, result) && |result| == |nodes|
    ensures ListsAll(nodes, result) && !exists n :: Stalls(nodes, n)
    ensures NothingStale(nodes) ==> IsTopological(nodes, result)
    ensures DependentsAreOpen(nodes) ==> OpenAreRecorded(nodes) && Acyclic(DependentsGraph(nodes))
  {
    hide Acyclic, PaidUp, NothingStale, IsTopological, DependentsAreOpen, OpenAreRecorded;
    CountDistinct(result);
    FullSubset(Elements(result), nodes.Keys);
    forall x ensures x in result <==> x in nodes {
      assert x in Elements(result) <==> x in result;
    }
    forall n ensures !Stalls(nodes, n) { NoStall(nodes, result, n); }
    if NothingStale(nodes) { CountedIsTopological(nodes, result); }
    if DependentsAreOpen(nodes) {
      OpenIsNotStale(nodes);
      CountedIsTopological(nodes, result);
      CountedAreRecorded(nodes, result);
      OrderedIsAcyclic(nodes, result);
    }
  }

  /** The first task of n in the listing was brought down by tasks outside n. */
  lemma NoStall(nodes: Nodes, r: seq<Id>, n: set<Id>)
    requires ListsAll(nodes, r) && Counted(nodes, r)
    ensures !Stalls(nodes, n)
  {
    hide PaidUp;
    if n != {} && n <= nodes.Keys {
      var i := FirstIn(r, n);
      assert PaidUp(nodes, r[i], Elements(r[..i]));
      PaidUpGrows(nodes, r[i], Elements(r[..i]), nodes.Keys - n);
    }
  }

  lemma FirstIn(r: seq<Id>, n: set<Id>) returns (i: nat)
    requires n != {} && forall x :: x in n ==> x in r
    ensures i < |r| && r[i] in n && forall x :: x in r[..i] ==> x !in n
  {
    var y :| y in n;
    i := 0;
    while r[i] !in n
      invariant i < |r| && forall x :: x in r[..i] ==> x !in n
      invariant exists j :: i <= j < |r| && r[j] == y
      decreases |r| - i
    {
      assert r[..i + 1] == r[..i] + [r[i]];
      i := i + 1;
    }
  }

  lemma PaidUpGrows(nodes: Nodes, x: Id, a: set<Id>, b: set<Id>)
    requires x in nodes && PaidUp(nodes, x, a) && a <= b
    ensures PaidUp(nodes, x, b)
  {
    SubsetSize(Credit(nodes, x, a), Credit(nodes, x, b));
  }

  lemma OpenIsNotStale(nodes: Nodes)
    requires DependentsAreOpen(nodes)
    ensures NothingStale(nodes)
  {
  }

  /** Enough records, all of them open dependencies: all open dependencies. */
  lemma PaidIsAll(nodes: Nodes, x: Id, done: set<Id>)
    requires NothingStale(nodes) && x in nodes && PaidUp(nodes, x, done) && nodes[x].open != {}
    ensures Credit(nodes, x, done) == nodes[x].open
  {
    var credit := Credit(nodes, x, done);
    assert credit <= nodes[x].open;
    SubsetSize(credit, nodes[x].open);
    FullSubset(credit, nodes[x].open);
  }

  lemma CountedIsTopological(nodes: Nodes, r: seq<Id>)
    requires NothingStale(nodes) && ListsAll(nodes, r) && Counted(nodes, r)
    ensures IsTopological(nodes, r)
  {
    hide NothingStale, PaidUp;
    forall i, d | 0 <= i < |r| && r[i] in nodes && d in nodes[r[i]].open ensures d in r[..i] {
      PaidIsAll(nodes, r[i], Elements(r[..i]));
      assert d in Credit(nodes, r[i], Elements(r[..i]));
    }
  }

  lemma CountedAreRecorded(nodes: Nodes, r: seq<Id>)
    requires NothingStale(nodes) && ListsAll(nodes, r) && Counted(nodes, r)
    ensures OpenAreRecorded(nodes)
  {
    hide NothingStale, PaidUp;
    forall x, d | x in nodes && d in nodes[x].open ensures d in nodes && x in nodes[d].dependents {
      var i :| 0 <= i < |r| && r[i] == x;
      PaidIsAll(nodes, x, Elements(r[..i]));
      assert d in Credit(nodes, x, Elements(r[..i]));
    }
  }

  lemma FullSubset(a: set<Id>, b: set<Id>)
    requires a <= b && |a| == |b|
    ensures a == b
  {
    if x :| x in b && x !in a {
      assert |b - {x}| < |b|;
      SubsetSize(a, b - {x});
      assert false;
    }
  }

  /** In a topological listing the positions along a walk increase. */
  lemma {:induction false} PositionsIncrease(nodes: Nodes, r: seq<Id>, p: seq<Id>, a: nat, b: nat, k: nat)
    requires DependentsAreOpen(nodes) && IsTopological(nodes, r) && IsPath(DependentsGraph(nodes), p)
    requires 1 <= k < |p| && a < |r| && b < |r| && r[a] == p[0] && r[b] == p[k]
    ensures a < b
    decreases k
  {
    var d := p[k - 1];
    assert Edge(DependentsGraph(nodes), d, p[k]);
    assert d in nodes[r[b]].open;
    assert d in r[..b];
    var c :| 0 <= c < b && r[c] == d;
    if k == 1 {
    } else {
      PositionsIncrease(nodes, r, p, a, c, k - 1);
    }
  }

  lemma OrderedIsAcyclic(nodes: Nodes, r: seq<Id>)
    requires DependentsAreOpen(nodes) && IsTopological(nodes, r)
    ensures Acyclic(DependentsGraph(nodes))
  {
    hide IsTopological, DependentsAreOpen;
    var g := DependentsGraph(nodes);
    forall p | IsPath(g, p) && |p| >= 2 ensures p[0] != p[|p| - 1] {
      assert Edge(g, p[0], p[1]);
      var a := PositionOf(nodes, r, p[0]);
      if p[0] == p[|p| - 1] { PositionsIncrease(nodes, r, p, a, a, |p| - 1); }
    }
  }

  lemma PositionOf(nodes: Nodes, r: seq<Id>, x: Id) returns (i: nat)
    requires IsTopological(nodes, r) && x in nodes
    ensures i < |r| && r[i] == x
  {
    i :| 0 <= i < |r| && r[i] == x;
  }
}
