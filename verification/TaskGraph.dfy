/** The dependency graph both schedulers keep: how it grows and how cycles are kept out. */
module TaskGraph {
  import opened Graphs
  import opened Tasks

  // ---- growing the graph ----

  /** Records `id` as a dependent of every known id of `deps`. */
  function Linked(nodes: Nodes, id: Id, deps: set<Id>): Nodes {
    map k | k in nodes ::
      if k in deps then nodes[k].(dependents := nodes[k].dependents + {id}) else nodes[k]
  }

  /** The nodes once the dependencies `done` have been looked at. */
  function EnqueueUpTo(nodes: Nodes, completed: set<Id>, id: Id, task: Task, done: set<Id>): Nodes {
    var deps := Elements(task.declared);
    var added := nodes[id := Node(task, deps, {})];
    SetOpen(Linked(added, id, done), id, deps - done * completed)
  }

  function EnqueueNodes(nodes: Nodes, completed: set<Id>, id: Id, task: Task): Nodes {
    EnqueueUpTo(nodes, completed, id, task, Elements(task.declared))
  }

  function AddOne(nodes: Nodes, completed: set<Id>, id: Id, dep: Id): Nodes
    requires id in nodes && dep in nodes
  {
    var node := nodes[id];
    if dep in node.open then nodes
    else
      var t := if dep in node.task.declared then node.task
               else node.task.(declared := node.task.declared + [dep]);
      var open := if dep in completed then node.open else node.open + {dep};
      var nodes1 := nodes[id := node.(task := t, open := open)];
      nodes1[dep := nodes1[dep].(dependents := nodes1[dep].dependents + {id})]
  }

  function AddAll(nodes: Nodes, completed: set<Id>, id: Id, deps: seq<Id>): (r: Nodes)
    requires id in nodes && forall d :: d in deps ==> d in nodes
    ensures r.Keys == nodes.Keys
  {
    if deps == [] then nodes
    else
      var front := AddAll(nodes, completed, id, deps[..|deps| - 1]);
      AddOne(front, completed, id, deps[|deps| - 1])
  }

  /** e is what add_dependencies has against making `id` depend on d. */
  ghost predicate Complaint(nodes: Nodes, id: Id, d: Id, e: Error) {
    if d !in nodes then e == UnknownTask(d)
    else Reaches(DependentsGraph(nodes), id, d) && e == CyclicDependency(d)
  }

  /** The first complaint about a proposed dependency, in list order. */
  ghost function FirstBad(nodes: Nodes, id: Id, deps: seq<Id>): (r: Option<Error>)
    ensures r == None ==> forall d :: d in deps ==> d in nodes && !Reaches(DependentsGraph(nodes), id, d)
    ensures r != None ==> exists d :: d in deps && Complaint(nodes, id, d, r.value)
  {
    if deps == [] then None
    else if deps[0] !in nodes then
      assert Complaint(nodes, id, deps[0], UnknownTask(deps[0]));
      Some(UnknownTask(deps[0]))
    else if Reaches(DependentsGraph(nodes), id, deps[0]) then
      assert Complaint(nodes, id, deps[0], CyclicDependency(deps[0]));
      Some(CyclicDependency(deps[0]))
    else FirstBad(nodes, id, deps[1..])
  }

  lemma BadIsNoTransition(nodes: Nodes, id: Id, deps: seq<Id>)
    requires FirstBad(nodes, id, deps).Some?
    ensures !FirstBad(nodes, id, deps).value.InvalidTransition?
  {
  }

  /** Depth-first search over dependents: true exactly for reachable targets. */
  method HasDependentPath(nodes: Nodes, start: Id, target: Id) returns (found: bool)
    ensures found <==> Reaches(DependentsGraph(nodes), start, target)
  {
    ghost var g := DependentsGraph(nodes);
    var seen: set<Id> := {};
    var stack := [start];
    ReachesSelf(g, start);
    while stack != []
      invariant forall x :: x in stack ==> Reaches(g, start, x)
      invariant start in seen || start in stack
      invariant target !in seen
      invariant forall a, b :: a in seen && Edge(g, a, b) ==> b in seen || b in stack
      decreases nodes.Keys - seen, |stack|
    {
      var current := stack[|stack| - 1];
      ghost var before := stack;
      stack := stack[..|stack| - 1];
      assert before == stack + [current];
      if current == target {
        return true;
      }
      if current !in seen {
        seen := seen + {current};
        if current in nodes {
          var more := Listed(nodes[current].dependents);
          forall x | x in more ensures Reaches(g, start, x) {
            ReachesEdge(g, start, current, x);
          }
          stack := stack + more;
        }
      }
    }
    if Reaches(g, start, target) {
      ClosedHoldsReached(g, seen, start, target);
      assert false;
    }
    return false;
  }

  /** The first of the proposed dependencies that is unknown or would close a cycle. */
  method CheckDependencies(nodes: Nodes, id: Id, unique: seq<Id>) returns (bad: Option<Error>)
    ensures bad == FirstBad(nodes, id, unique)
  {
    var i := 0;
    while i < |unique|
      invariant 0 <= i <= |unique|
      invariant FirstBad(nodes, id, unique) == FirstBad(nodes, id, unique[i..])
    {
      var dep := unique[i];
      if dep !in nodes {
        return Some(UnknownTask(dep));
      }
      var cyclic := HasDependentPath(nodes, id, dep);
      if cyclic {
        return Some(CyclicDependency(dep));
      }
      i := i + 1;
    }
    return None;
  }

  /** Records the dependencies one after the other. */
  method LinkDependencies(nodes: Nodes, completed: set<Id>, id: Id, unique: seq<Id>) returns (n: Nodes)
    requires id in nodes && forall d :: d in unique ==> d in nodes
    ensures n == AddAll(nodes, completed, id, unique)
  {
    n := nodes;
    var i := 0;
    while i < |unique|
      invariant 0 <= i <= |unique| && n.Keys == nodes.Keys
      invariant n == AddAll(nodes, completed, id, unique[..i])
    {
      n := AddOne(n, completed, id, unique[i]);
      i := i + 1;
      assert unique[..i][..i - 1] == unique[..i - 1];
    }
    assert unique[..i] == unique;
  }

  /** Adds a task's node and records it with the dependencies that are known. */
  method LinkNew(nodes: Nodes, completed: set<Id>, id: Id, task: Task) returns (n: Nodes)
    ensures n == EnqueueNodes(nodes, completed, id, task)
  {
    hide EnqueueUpTo;
    n := nodes[id := Node(task, Elements(task.declared), {})];
    EnqueueStart(nodes, completed, id, task);
    var i := 0;
    assert Elements(task.declared[..0]) == {};
    while i < |task.declared|
      invariant 0 <= i <= |task.declared| && n.Keys == nodes.Keys + {id}
      invariant n == EnqueueUpTo(nodes, completed, id, task, Elements(task.declared[..i]))
    {
      var dep := task.declared[i];
      EnqueueStep(nodes, completed, id, task, Elements(task.declared[..i]), dep);
      if dep in n {
        n := n[dep := n[dep].(dependents := n[dep].dependents + {id})];
      }
      if dep in completed {
        n := n[id := n[id].(open := n[id].open - {dep})];
      }
      i := i + 1;
      assert Elements(task.declared[..i]) == Elements(task.declared[..i - 1]) + {dep};
    }
    assert task.declared[..i] == task.declared;
  }

  lemma EnqueueStart(nodes: Nodes, completed: set<Id>, id: Id, task: Task)
    ensures nodes[id := Node(task, Elements(task.declared), {})] == EnqueueUpTo(nodes, completed, id, task, {})
  {
    var deps := Elements(task.declared);
    var added := nodes[id := Node(task, deps, {})];
    assert Linked(added, id, {}) == added;
    assert deps - {} * completed == deps;
  }

  lemma EnqueueStep(nodes: Nodes, completed: set<Id>, id: Id, task: Task, done: set<Id>, dep: Id)
    requires dep in task.declared
    ensures
      var n := EnqueueUpTo(nodes, completed, id, task, done);
      var n1 := if dep in n then n[dep := n[dep].(dependents := n[dep].dependents + {id})] else n;
      var n2 := if dep in completed then n1[id := n1[id].(open := n1[id].open - {dep})] else n1;
      n2 == EnqueueUpTo(nodes, completed, id, task, done + {dep})
  {
    var deps := Elements(task.declared);
    assert deps - done * completed - {dep} == deps - (done + {dep}) * completed || dep !in completed;
    assert dep in completed || deps - done * completed == deps - (done + {dep}) * completed;
  }

  // ---- agreement of edges ----

  predicate Depends(nodes: Nodes, b: Id, d: Id) {
    b in nodes && d in nodes[b].task.declared
  }

  /** Dependents are exactly the converse of declared dependencies, and there is no cycle. */
  ghost predicate EdgesAgree(nodes: Nodes) {
    && (forall b, d :: Depends(nodes, b, d) ==> d in nodes && b in nodes[d].dependents)
    && (forall b, d :: d in nodes && b in nodes[d].dependents ==> Depends(nodes, b, d))
    && Acyclic(DependentsGraph(nodes))
  }

  lemma NoSelfEdge(nodes: Nodes, b: Id, x: Id)
    requires EdgesAgree(nodes) && x in nodes && b in nodes[x].dependents
    ensures b != x
  {
    var g := DependentsGraph(nodes);
    var p := [x, b];
    assert Edge(g, x, b);
    assert IsPath(g, p);
  }

  /** d no longer holds b back: it completed, or failed over an edge that waives it. */
  ghost predicate Discharged(nodes: Nodes, completed: set<Id>, failed: set<Id>, b: Id, d: Id) {
    || d in completed
    || (d in failed && b in nodes && d in nodes && Excused(nodes[b].task, d, nodes[d].task))
  }

  /** Task records changed at most in status and block reasons, nodes in their open sets too. */
  ghost predicate SameGraph(n: Nodes, n': Nodes) {
    && n.Keys == n'.Keys
    && forall k :: k in n ==>
      && n'[k].dependents == n[k].dependents
      && n'[k].task.declared == n[k].task.declared
      && n'[k].task.edgeModes == n[k].task.edgeModes
      && n'[k].task.ownMode == n[k].task.ownMode
      && n'[k].task.priority == n[k].task.priority
      && n'[k].task.createdAt == n[k].task.createdAt
  }

  lemma SameGraphKeepsEdges(n: Nodes, n': Nodes)
    requires SameGraph(n, n') && EdgesAgree(n)
    ensures EdgesAgree(n')
  {
    assert DependentsGraph(n) == DependentsGraph(n');
    forall b, d ensures Depends(n, b, d) <==> Depends(n', b, d) {}
  }

  lemma SameGraphTrans(a: Nodes, b: Nodes, c: Nodes)
    requires SameGraph(a, b) && SameGraph(b, c)
    ensures SameGraph(a, c)
  {
  }

  lemma SameGraphSelf(a: Nodes)
    ensures SameGraph(a, a)
  {
  }

  lemma TailElements(order: seq<Id>)
    requires NoDuplicates(order) && order != []
    ensures NoDuplicates(order[1..])
    ensures order[0] in Elements(order)
    ensures Elements(order) - {order[0]} == Elements(order[1..])
  {
    assert order == [order[0]] + order[1..];
    assert order[0] !in order[1..];
  }

  /** Failure policies are never rewritten. */
  ghost predicate SameModes(n: Nodes, n': Nodes) {
    forall k :: k in n ==>
      k in n' && n'[k].task.edgeModes == n[k].task.edgeModes && n'[k].task.ownMode == n[k].task.ownMode
  }

  lemma DischargedFrame(n: Nodes, c: set<Id>, f: set<Id>, n': Nodes, c': set<Id>, f': set<Id>, b: Id, d: Id)
    requires SameModes(n, n') && c <= c' && f <= f' && Discharged(n, c, f, b, d)
    ensures Discharged(n', c', f', b, d)
  {
  }

  lemma SameGraphKeys(n: Nodes, n': Nodes)
    requires SameGraph(n, n')
    ensures n.Keys == n'.Keys
  {
  }

  // ---- what growth does to the edges ----

  function DeclaredBy(n: Nodes, id: Id): set<Id> {
    if id in n then Elements(n[id].task.declared) else {}
  }

  function OpenOf(n: Nodes, id: Id): set<Id> {
    if id in n then n[id].open else {}
  }

  function DependentsOf(n: Nodes, id: Id): set<Id> {
    if id in n then n[id].dependents else {}
  }

  /** n' is n after `id`, old or new, has come to depend on deps as well. */
  ghost predicate Grown(n: Nodes, n': Nodes, id: Id, deps: set<Id>) {
    && n'.Keys == n.Keys + {id}
    && id !in deps && deps <= n.Keys
    && DependentsOf(n', id) == DependentsOf(n, id)
    && DeclaredBy(n', id) == DeclaredBy(n, id) + deps
    && forall k :: k in n && k != id ==>
      && n'[k].task == n[k].task && n'[k].open == n[k].open
      && n'[k].dependents == n[k].dependents + (if k in deps then {id} else {})
  }

  lemma GrownDepends(n: Nodes, n': Nodes, id: Id, deps: set<Id>, b: Id, d: Id)
    requires Grown(n, n', id, deps)
    ensures Depends(n', b, d) <==> Depends(n, b, d) || (b == id && d in deps)
  {
    assert Depends(n', id, d) <==> d in DeclaredBy(n', id);
    assert Depends(n, id, d) <==> d in DeclaredBy(n, id);
  }

  lemma GrownAddsEdges(n: Nodes, n': Nodes, id: Id, deps: set<Id>)
    requires Grown(n, n', id, deps)
    ensures AddsEdgesInto(DependentsGraph(n), DependentsGraph(n'), deps, id)
  {
    hide DeclaredBy;
  }

  lemma GrownEdges(n: Nodes, n': Nodes, id: Id, deps: set<Id>)
    requires EdgesAgree(n) && Grown(n, n', id, deps)
    requires forall d :: d in deps ==> !Reaches(DependentsGraph(n), id, d)
    ensures EdgesAgree(n')
  {
    hide Acyclic, Reaches, DeclaredBy;
    GrownAddsEdges(n, n', id, deps);
    AddEdgesAcyclic(DependentsGraph(n), DependentsGraph(n'), deps, id);
    forall b, d ensures Depends(n', b, d) ==> d in n' && b in n'[d].dependents {
      GrownDepends(n, n', id, deps, b, d);
    }
    forall b, d | d in n' && b in n'[d].dependents ensures Depends(n', b, d) {
      GrownDepends(n, n', id, deps, b, d);
    }
  }

  /** A task that is not in the graph yet reaches nothing but itself. */
  lemma NewReachesNothing(g: Graph, id: Id, d: Id)
    requires id !in g && d != id
    ensures !Reaches(g, id, d)
  {
    forall p ensures !Joins(g, p, id, d) {
      if |p| >= 2 && p[0] == id { assert !Edge(g, p[0], p[1]); }
    }
  }

  /** The graph grown by deps, with those of them that have not completed open for `id`. */
  ghost predicate GrownOpen(n: Nodes, n': Nodes, id: Id, deps: set<Id>, completed: set<Id>) {
    && id in n'
    && OpenOf(n', id) == OpenOf(n, id) + (deps - completed)
    && (id in n ==>
      && n'[id].task.status == n[id].task.status
      && n'[id].task.edgeModes == n[id].task.edgeModes
      && n'[id].task.ownMode == n[id].task.ownMode)
  }

  lemma GrownRetask(n: Nodes, n1: Nodes, id: Id, deps: set<Id>, t: Task)
    requires Grown(n, n1, id, deps) && id in n1 && t.declared == n1[id].task.declared
    ensures Grown(n, SetTask(n1, id, t), id, deps)
  {
  }

  lemma GrownModes(n: Nodes, n1: Nodes, id: Id, deps: set<Id>)
    requires Grown(n, n1, id, deps) && id in n1
    requires id in n ==> n1[id].task.edgeModes == n[id].task.edgeModes && n1[id].task.ownMode == n[id].task.ownMode
    ensures SameModes(n, n1)
  {
  }

  /** Enqueueing a new task grows the graph by its declared dependencies. */
  lemma EnqueueGrows(n: Nodes, completed: set<Id>, id: Id, task: Task)
    requires id !in n && forall d :: d in task.declared ==> d in n
    ensures Grown(n, EnqueueNodes(n, completed, id, task), id, Elements(task.declared))
    ensures EnqueueNodes(n, completed, id, task)[id].open == Elements(task.declared) - completed
    ensures EnqueueNodes(n, completed, id, task)[id].task == task
  {
  }

  /** A dependency that is open already adds nothing. */
  lemma AddOpenGrows(n: Nodes, n1: Nodes, id: Id, deps: set<Id>, dep: Id, completed: set<Id>)
    requires id in n && dep in n && dep != id
    requires forall d :: d in n[id].open ==>
      d in n[id].task.declared && d in n && id in n[d].dependents && d !in completed
    requires Grown(n, n1, id, deps) && GrownOpen(n, n1, id, deps, completed) && dep in OpenOf(n1, id)
    ensures Grown(n, n1, id, deps + {dep}) && GrownOpen(n, n1, id, deps + {dep}, completed)
  {
    if dep !in deps { assert dep in DeclaredBy(n, id); }
    assert DeclaredBy(n1, id) == DeclaredBy(n, id) + (deps + {dep});
  }

  /** What recording one dependency changes: in the task, and in the rest of the graph. */
  ghost predicate AddsToTask(n: Nodes, n': Nodes, completed: set<Id>, id: Id, dep: Id) {
    && id in n && id in n'
    && OpenOf(n', id) == OpenOf(n, id) + ({dep} - completed)
    && n'[id].task.status == n[id].task.status
    && n'[id].task.edgeModes == n[id].task.edgeModes && n'[id].task.ownMode == n[id].task.ownMode
  }

  ghost predicate AddsToGraph(n: Nodes, n': Nodes, id: Id, dep: Id) {
    && n'.Keys == n.Keys
    && DeclaredBy(n', id) == DeclaredBy(n, id) + {dep} && DependentsOf(n', id) == DependentsOf(n, id)
    && forall k :: k in n && k != id ==>
      && n'[k].task == n[k].task && n'[k].open == n[k].open
      && n'[k].dependents == n[k].dependents + (if k == dep then {id} else {})
  }

  lemma AddOneEffect(n: Nodes, completed: set<Id>, id: Id, dep: Id)
    requires id in n && dep in n && dep != id && dep !in n[id].open
    ensures AddsToTask(n, AddOne(n, completed, id, dep), completed, id, dep)
    ensures AddsToGraph(n, AddOne(n, completed, id, dep), id, dep)
  {
    assert Elements(n[id].task.declared + [dep]) == Elements(n[id].task.declared) + {dep};
    assert dep in n[id].task.declared ==> Elements(n[id].task.declared) + {dep} == Elements(n[id].task.declared);
  }

  lemma GrownOneMore(n: Nodes, n1: Nodes, n2: Nodes, id: Id, deps: set<Id>, dep: Id)
    requires id in n && dep in n && dep != id && Grown(n, n1, id, deps) && AddsToGraph(n1, n2, id, dep)
    ensures Grown(n, n2, id, deps + {dep})
  {
    hide DeclaredBy, DependentsOf;
    assert DeclaredBy(n2, id) == DeclaredBy(n, id) + (deps + {dep});
  }

  lemma GrownOpenOneMore(n: Nodes, n1: Nodes, n2: Nodes, completed: set<Id>, id: Id, deps: set<Id>, dep: Id)
    requires GrownOpen(n, n1, id, deps, completed) && AddsToTask(n1, n2, completed, id, dep)
    ensures GrownOpen(n, n2, id, deps + {dep}, completed)
  {
    hide OpenOf;
    assert OpenOf(n2, id) == OpenOf(n, id) + (deps + {dep} - completed);
  }

  /** What one more dependency adds to an already grown graph. */
  lemma AddOneGrows(n: Nodes, n1: Nodes, completed: set<Id>, id: Id, deps: set<Id>, dep: Id)
    requires id in n && dep in n && dep != id && id in n1 && dep in n1
    requires forall d :: d in n[id].open ==>
      d in n[id].task.declared && d in n && id in n[d].dependents && d !in completed
    requires Grown(n, n1, id, deps) && GrownOpen(n, n1, id, deps, completed)
    ensures Grown(n, AddOne(n1, completed, id, dep), id, deps + {dep})
    ensures GrownOpen(n, AddOne(n1, completed, id, dep), id, deps + {dep}, completed)
  {
    hide Grown, GrownOpen, AddsToTask, AddsToGraph;
    if dep in n1[id].open {
      AddOpenGrows(n, n1, id, deps, dep, completed);
    } else {
      AddOneEffect(n1, completed, id, dep);
      GrownOneMore(n, n1, AddOne(n1, completed, id, dep), id, deps, dep);
      GrownOpenOneMore(n, n1, AddOne(n1, completed, id, dep), completed, id, deps, dep);
    }
  }

  lemma {:induction false} AddAllGrows(n: Nodes, completed: set<Id>, id: Id, deps: seq<Id>)
    requires id in n
    requires forall d :: d in n[id].open ==>
      d in n[id].task.declared && d in n && id in n[d].dependents && d !in completed
    requires id !in deps && forall d :: d in deps ==> d in n
    ensures Grown(n, AddAll(n, completed, id, deps), id, Elements(deps))
    ensures GrownOpen(n, AddAll(n, completed, id, deps), id, Elements(deps), completed)
  {
    hide AddOne;
    if deps == [] {
      assert Elements(deps) == {};
    } else {
      var front, last := deps[..|deps| - 1], deps[|deps| - 1];
      assert deps == front + [last];
      AddAllGrows(n, completed, id, front);
      AddOneGrows(n, AddAll(n, completed, id, front), completed, id, Elements(front), last);
      assert Elements(front) + {last} == Elements(deps);
    }
  }

  /** In an acyclic state, a proposed dependency is refused for a cycle exactly when recording it
      would close one. */
  lemma CycleCheckExact(nodes: Nodes, id: Id, d: Id)
    requires Acyclic(DependentsGraph(nodes)) && id in nodes && d in nodes && d != id
    ensures Reaches(DependentsGraph(nodes), id, d) <==> !Acyclic(DependentsGraph(Linked(nodes, id, {d})))
  {
    hide Acyclic, Reaches;
    var g, g' := DependentsGraph(nodes), DependentsGraph(Linked(nodes, id, {d}));
    if Reaches(g, id, d) {
      RejectedEdgeCloses(g, g', d, id);
    } else {
      AddEdgesAcyclic(g, g', {d}, id);
    }
  }

  lemma AloneReachesNothing(n: Nodes, a: Id, d: Id)
    requires a in n && n[a].dependents == {} && a != d
    ensures !Reaches(DependentsGraph(n), a, d)
  {
    var g := DependentsGraph(n);
    forall p | |p| >= 2 && p[0] == a ensures !IsPath(g, p) {
      assert !Edge(g, p[0], p[1]);
    }
  }

  // ---- a dependency that was not recorded ----

  lemma NewNode(n: Nodes, completed: set<Id>, id: Id, task: Task)
    requires id !in n
    ensures EnqueueNodes(n, completed, id, task).Keys == n.Keys + {id}
    ensures
      var deps := Elements(task.declared);
      EnqueueNodes(n, completed, id, task)[id] == Node(task, deps - deps * completed, if id in deps then {id} else {})
  {
  }

  lemma UnknownBreaksEdges(n: Nodes, id: Id, d: Id)
    requires id in n && d in n[id].task.declared && (d == id || d !in n)
    requires d == id ==> id in n[id].dependents
    ensures !EdgesAgree(n)
  {
    assert Depends(n, id, d);
    if d == id {
      var p := [id, id];
      assert Edge(DependentsGraph(n), p[0], p[1]);
      assert IsPath(DependentsGraph(n), p);
    }
  }

  /** `id` waits for d, and d does not know. */
  predicate Unlinked(n: Nodes, id: Id, d: Id) {
    id in n && id != d && d in n[id].open && (d in n ==> id !in n[d].dependents)
  }

  lemma {:induction false} AddAllLate(n: Nodes, completed: set<Id>, k: Id, deps: seq<Id>, id: Id, d: Id)
    requires Unlinked(n, id, d) && k in n && forall x :: x in deps ==> x in n
    ensures Unlinked(AddAll(n, completed, k, deps), id, d)
  {
    if deps == [] {
    } else {
      AddAllLate(n, completed, k, deps[..|deps| - 1], id, d);
    }
  }

  lemma EnqueueLate(n: Nodes, completed: set<Id>, k: Id, task: Task, id: Id, d: Id)
    requires Unlinked(n, id, d) && k !in n
    ensures Unlinked(EnqueueNodes(n, completed, k, task), id, d)
  {
  }
}
