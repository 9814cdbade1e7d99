/** The fail-closed cascade computes an exact closure, on any graph. */
module DagCascade {
  import opened Graphs
  import opened Tasks
  import opened TaskGraph
  import opened DagSpec

  /** Edges along which a failure spreads: fail-closed is what the edge says, or what the failing task
      says if the edge says nothing; and the dependent had not failed before. */
  ghost function FailGraph(nodes: Nodes, failed: set<Id>): Graph {
    map a | a in nodes ::
      set b | b in nodes[a].dependents && b in nodes && b !in failed &&
              Decides(FailClosed, nodes[b].task, a, nodes[a].task)
  }

  lemma FailGraphFrame(n: Nodes, n': Nodes, failed: set<Id>)
    requires SameGraph(n, n')
    ensures FailGraph(n, failed) == FailGraph(n', failed)
  {
    var g, g' := FailGraph(n, failed), FailGraph(n', failed);
    forall a | a in n ensures g[a] == g'[a] {
      forall b ensures b in g[a] <==> b in g'[a] {}
    }
  }

  /** What the loop has achieved between s and s': every fail-closed successor of a listed dependent
      or of a newly failed task has failed, and every newly failed task is reached from id. */
  ghost predicate Spread(g: Graph, s: DState, s': DState, id: Id, todo: seq<Id>) {
    && s.failed <= s'.failed
    && (forall b :: b in todo && Edge(g, id, b) ==> b in s'.failed)
    && (forall x, b :: x in s'.failed && x !in s.failed && Edge(g, x, b) ==> b in s'.failed)
    && (forall x :: x in s'.failed && x !in s.failed ==> Reaches(g, id, x))
  }

  lemma SpreadSkip(g: Graph, s: DState, s1: DState, s': DState, id: Id, todo: seq<Id>)
    requires todo != [] && s1.failed == s.failed && Spread(g, s1, s', id, todo[1..])
    requires Edge(g, id, todo[0]) ==> todo[0] in s.failed
    ensures Spread(g, s, s', id, todo)
  {
    hide Reaches;
    assert todo == [todo[0]] + todo[1..];
  }

  /** Closing dep, spreading from dep, then going on with the rest of the list. */
  lemma SpreadClose(g: Graph, s: DState, s1: DState, s2: DState, s': DState, id: Id, todo: seq<Id>, order: seq<Id>)
    requires todo != [] && Edge(g, id, todo[0]) && s1.failed == s.failed + {todo[0]}
    requires forall b :: Edge(g, todo[0], b) ==> b in order
    requires Spread(g, s1, s2, todo[0], order) && Spread(g, s2, s', id, todo[1..])
    ensures Spread(g, s, s', id, todo)
  {
    hide Reaches, Edge;
    var dep := todo[0];
    assert todo == [dep] + todo[1..];
    ReachesSelf(g, id);
    ReachesEdge(g, id, id, dep);
    forall x | x in s'.failed && x !in s.failed ensures Reaches(g, id, x) {
      if x != dep && x in s2.failed { ReachesTrans(g, id, dep, x); }
    }
  }

  lemma WaiveStep(s: DState, id: Id, dep: Id)
    requires id in s.nodes && dep in s.nodes && WaiveOne(s, id, dep).Ok?
    ensures SameGraph(s.nodes, WaiveOne(s, id, dep).value.nodes) && WaiveOne(s, id, dep).value.failed == s.failed
  {
  }

  lemma CloseStep(s: DState, dep: Id)
    requires dep in s.nodes && CloseOne(s, dep).Ok?
    ensures SameGraph(s.nodes, CloseOne(s, dep).value.nodes) && CloseOne(s, dep).value.failed == s.failed + {dep}
  {
  }

  lemma CascadeSteps(s: DState, id: Id, dep: Id)
    requires id in s.nodes && dep in s.nodes
    ensures WaiveOne(s, id, dep).Ok? ==>
      SameGraph(s.nodes, WaiveOne(s, id, dep).value.nodes) && WaiveOne(s, id, dep).value.failed == s.failed
    ensures CloseOne(s, dep).Ok? ==>
      SameGraph(s.nodes, CloseOne(s, dep).value.nodes) && CloseOne(s, dep).value.failed == s.failed + {dep}
  {
    hide WaiveOne, CloseOne, SameGraph;
    if WaiveOne(s, id, dep).Ok? { WaiveStep(s, id, dep); }
    if CloseOne(s, dep).Ok? { CloseStep(s, dep); }
  }

  lemma EdgeMeans(n: Nodes, f: set<Id>, a: Id, b: Id)
    ensures Edge(FailGraph(n, f), a, b) <==>
      a in n && b in n && b in n[a].dependents && b !in f && Decides(FailClosed, n[b].task, a, n[a].task)
  {
  }

  /** If the loop returns, it has spread exactly along the graph. f is the set of tasks that had
      failed before the outermost call. */
  lemma {:induction false} CascadeSpreads(s: DState, id: Id, todo: seq<Id>, orders: Id -> seq<Id>, f: set<Id>)
    requires id in s.nodes && f <= s.failed && OrdersOk(s.nodes, orders)
    requires forall b :: b in todo ==> b in s.nodes[id].dependents
    requires Cascade(s, id, todo, orders).Ok?
    ensures SameGraph(s.nodes, Cascade(s, id, todo, orders).value.nodes)
    ensures Spread(FailGraph(s.nodes, f), s, Cascade(s, id, todo, orders).value, id, todo)
    decreases s.nodes.Keys - s.failed, |todo|
  {
    hide FailGraph, SameGraph, Spread, Reaches, OrdersOk, CloseOne, WaiveOne;
    var g := FailGraph(s.nodes, f);
    var s' := Cascade(s, id, todo, orders).value;
    if todo == [] {
      SameGraphSelf(s.nodes);
      NothingSpread(g, s, id);
    } else {
      var dep := todo[0];
      EdgeMeans(s.nodes, f, id, dep);
      if dep !in s.nodes || dep in s.failed {
        CascadeSpreads(s, id, todo[1..], orders, f);
        SpreadSkip(g, s, s, s', id, todo);
      } else {
        CascadeSteps(s, id, dep);
        var mode := EffectiveMode(s.nodes[dep].task, id, s.nodes[id].task);
        if mode == Some(FailClosed) {
          var s1 := CloseOne(s, dep).value;
          var s2 := Cascade(s1, dep, orders(dep), orders).value;
          CascadeSpreadsClosed(s, s1, s2, s', id, todo, orders, f);
        } else if Waives(mode) {
          var s1 := WaiveOne(s, id, dep).value;
          KeepOrders(s.nodes, s1.nodes, orders, id);
          CascadeSpreads(s1, id, todo[1..], orders, f);
          FailGraphFrame(s.nodes, s1.nodes, f);
          SameGraphTrans(s.nodes, s1.nodes, s'.nodes);
          SpreadSkip(g, s, s1, s', id, todo);
        } else {
          CascadeSpreads(s, id, todo[1..], orders, f);
          SpreadSkip(g, s, s, s', id, todo);
        }
      }
    }
  }

  lemma {:induction false} CascadeSpreadsClosed(s: DState, s1: DState, s2: DState, s': DState, id: Id,
                                                todo: seq<Id>, orders: Id -> seq<Id>, f: set<Id>)
    requires id in s.nodes && f <= s.failed && OrdersOk(s.nodes, orders)
    requires todo != [] && todo[0] in s.nodes && todo[0] !in s.failed
    requires forall b :: b in todo ==> b in s.nodes[id].dependents
    requires EffectiveMode(s.nodes[todo[0]].task, id, s.nodes[id].task) == Some(FailClosed)
    requires CloseOne(s, todo[0]) == Ok(s1) && SameGraph(s.nodes, s1.nodes) && s1.failed == s.failed + {todo[0]}
    requires todo[0] in s1.nodes && Cascade(s1, todo[0], orders(todo[0]), orders) == Ok(s2)
    requires id in s2.nodes && Cascade(s2, id, todo[1..], orders) == Ok(s')
    ensures SameGraph(s.nodes, s'.nodes)
    ensures Spread(FailGraph(s.nodes, f), s, s', id, todo)
    decreases s.nodes.Keys - s.failed, |todo|, 0
  {
    hide FailGraph, SameGraph, Spread, Reaches, OrdersOk, CloseOne, WaiveOne, Cascade;
    var dep, g := todo[0], FailGraph(s.nodes, f);
    SameGraphKeys(s.nodes, s1.nodes);
    KeepOrders(s.nodes, s1.nodes, orders, dep);
    assert dep in s.nodes.Keys - s.failed && dep !in s1.nodes.Keys - s1.failed;
    CascadeSpreads(s1, dep, orders(dep), orders, f);
    SameGraphKeys(s1.nodes, s2.nodes);
    SameGraphTrans(s.nodes, s1.nodes, s2.nodes);
    KeepOrders(s.nodes, s2.nodes, orders, id);
    assert dep !in s2.nodes.Keys - s2.failed;
    CascadeSpreads(s2, id, todo[1..], orders, f);
    SameGraphTrans(s.nodes, s2.nodes, s'.nodes);
    FailGraphFrame(s.nodes, s1.nodes, f);
    FailGraphFrame(s.nodes, s2.nodes, f);
    EdgeMeans(s.nodes, f, id, dep);
    forall b | Edge(g, dep, b) ensures b in orders(dep) {
      EdgeMeans(s.nodes, f, dep, b);
    }
    SpreadClose(g, s, s1, s2, s', id, todo, orders(dep));
  }

  lemma NothingSpread(g: Graph, s: DState, id: Id)
    ensures Spread(g, s, s, id, [])
  {
  }

  lemma KeepOrders(n: Nodes, n': Nodes, orders: Id -> seq<Id>, id: Id)
    requires SameGraph(n, n') && OrdersOk(n, orders) && id in n
    ensures OrdersOk(n', orders) && id in n' && n'[id].dependents == n[id].dependents
    ensures forall b :: b in orders(id) <==> b in n[id].dependents
  {
  }

  /** fail_task, whenever it returns, leaves failed exactly the tasks that had failed before and
      those reachable from the given one along fail-closed edges through tasks not failed before. */
  lemma FailIsExactClosure(s: DState, id: Id, orders: Id -> seq<Id>)
    requires id in s.nodes && OrdersOk(s.nodes, orders) && Fail(s, id, orders).Ok?
    ensures forall x :: x in Fail(s, id, orders).value.failed <==>
      x in s.failed || Reaches(FailGraph(s.nodes, s.failed), id, x)
    ensures SameGraph(s.nodes, Fail(s, id, orders).value.nodes)
  {
    hide Reaches, FailGraph, SameGraph, Cascade;
    var s1 := s.(failed := s.failed + {id});
    var s' := Fail(s, id, orders).value;
    var g := FailGraph(s.nodes, s.failed);
    SameGraphSelf(s.nodes);
    KeepOrders(s.nodes, s.nodes, orders, id);
    CascadeSpreads(s1, id, orders(id), orders, s.failed);
    ReachesSelf(g, id);
    ClosureHolds(g, s, s', id, orders(id));
  }

  lemma ClosureHolds(g: Graph, s: DState, s': DState, id: Id, order: seq<Id>)
    requires Spread(g, s.(failed := s.failed + {id}), s', id, order) && g == FailGraph(s.nodes, s.failed)
    requires id in s.nodes && forall b :: b in order <==> b in s.nodes[id].dependents
    ensures forall x :: Reaches(g, id, x) ==> x in s'.failed
  {
    hide Reaches;
    var done := (s'.failed - s.failed) + {id};
    forall a, b | a in done && Edge(g, a, b) ensures b in done {
      EdgeMeans(s.nodes, s.failed, a, b);
    }
    forall x | Reaches(g, id, x) ensures x in s'.failed {
      ClosedHoldsReached(g, done, id, x);
    }
  }
}
