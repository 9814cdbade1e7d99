/** When add_dependencies refuses, and over what: the same in both schedulers. */
module Additions {
  import opened Graphs
  import opened Tasks
  import opened TaskGraph

  /** The list with those of `more` appended that are not in it yet, in order of first appearance. */
  function Extended(q: seq<Id>, more: seq<Id>): seq<Id>
    decreases more
  {
    if more == [] then q else Extended(if more[0] in q then q else q + [more[0]], more[1..])
  }

  lemma {:induction false} ExtendedLast(q: seq<Id>, more: seq<Id>, d: Id)
    ensures Extended(q, more + [d]) == if d in Extended(q, more) then Extended(q, more) else Extended(q, more) + [d]
    ensures forall x :: x in Extended(q, more) <==> x in q || x in more
    decreases more
  {
    if more == [] {
      assert more + [d] == [d] && [d][1..] == [];
    } else {
      assert (more + [d])[1..] == more[1..] + [d];
      ExtendedLast(if more[0] in q then q else q + [more[0]], more[1..], d);
    }
  }

  lemma {:induction false} ExtendedUnique(q: seq<Id>, more: seq<Id>)
    ensures Extended(q, Unique(more)) == Extended(q, more)
  {
    if more == [] {
    } else {
      var front, d := more[..|more| - 1], more[|more| - 1];
      assert more == front + [d];
      ExtendedUnique(q, front);
      ExtendedLast(q, front, d);
      ExtendedLast(q, Unique(front), d);
    }
  }

  /** add_dependencies appends what it adds to the declared dependencies and changes nothing else of
      the record. */
  lemma {:induction false} AddAllDeclares(n: Nodes, completed: set<Id>, id: Id, deps: seq<Id>)
    requires id in n && id !in deps && (forall d :: d in deps ==> d in n)
    requires forall d :: d in n[id].open ==> d in n[id].task.declared
    ensures
      var n' := AddAll(n, completed, id, deps);
      && n'[id].task == n[id].task.(declared := Extended(n[id].task.declared, deps))
      && forall d :: d in n'[id].open ==> d in n'[id].task.declared
  {
    if deps == [] {
    } else {
      var front, d := deps[..|deps| - 1], deps[|deps| - 1];
      assert deps == front + [d];
      AddAllDeclares(n, completed, id, front);
      ExtendedLast(n[id].task.declared, front, d);
    }
  }

  /** `id` may come to depend on d: d is known and the new edge closes no cycle. */
  ghost predicate Harmless(nodes: Nodes, id: Id, d: Id) {
    d in nodes && Acyclic(DependentsGraph(Linked(nodes, id, {d})))
  }

  ghost predicate Objection(nodes: Nodes, id: Id, d: Id, e: Error) {
    if d !in nodes then e == UnknownTask(d)
    else !Acyclic(DependentsGraph(Linked(nodes, id, {d}))) && e == CyclicDependency(d)
  }

  /** e is about the first listed dependency that is not harmless. */
  ghost predicate FirstObjection(nodes: Nodes, id: Id, deps: seq<Id>, e: Error) {
    exists i :: 0 <= i < |deps| && Objection(nodes, id, deps[i], e) &&
      forall j :: 0 <= j < i ==> Harmless(nodes, id, deps[j])
  }

  /** The call is in order: a known task in a state that allows it, not itself among the new
      dependencies, and each of them harmless. */
  ghost predicate MayAdd(nodes: Nodes, id: Id, deps: seq<Id>) {
    && id in nodes && nodes[id].task.status !in {Running, Success, Failed, Cancelled} && id !in deps
    && forall d :: d in deps ==> Harmless(nodes, id, d)
  }

  /** The call is refused with e. */
  ghost predicate RefusedWith(nodes: Nodes, id: Id, deps: seq<Id>, e: Error) {
    if id !in nodes then e == UnknownTask(id)
    else if nodes[id].task.status in {Running, Success, Failed, Cancelled} then e == StateForbidsUpdate
    else if id in deps then e == SelfDependency
    else FirstObjection(nodes, id, deps, e)
  }

  lemma MayAddOrRefused(nodes: Nodes, id: Id, deps: seq<Id>, e: Error)
    requires MayAdd(nodes, id, deps)
    ensures !RefusedWith(nodes, id, deps, e)
  {
    hide Acyclic, DependentsGraph, Linked;
    forall i | 0 <= i < |deps| ensures !Objection(nodes, id, deps[i], e) {
      assert Harmless(nodes, id, deps[i]);
    }
  }

  lemma HarmlessIff(nodes: Nodes, id: Id, d: Id)
    requires Acyclic(DependentsGraph(nodes)) && id in nodes && d != id
    ensures Harmless(nodes, id, d) <==> d in nodes && !Reaches(DependentsGraph(nodes), id, d)
  {
    hide Acyclic, Reaches;
    if d in nodes { CycleCheckExact(nodes, id, d); }
  }

  lemma {:induction false} FirstBadLast(nodes: Nodes, id: Id, deps: seq<Id>, d: Id)
    ensures FirstBad(nodes, id, deps + [d]) ==
      if FirstBad(nodes, id, deps) == None then FirstBad(nodes, id, [d]) else FirstBad(nodes, id, deps)
  {
    hide Reaches, DependentsGraph;
    if deps == [] {
      assert deps + [d] == [d];
    } else {
      assert (deps + [d])[1..] == deps[1..] + [d];
      FirstBadLast(nodes, id, deps[1..], d);
    }
  }

  /** Leaving out repetitions does not change which dependency is the first bad one. */
  lemma {:induction false} FirstBadUnique(nodes: Nodes, id: Id, deps: seq<Id>)
    ensures FirstBad(nodes, id, Unique(deps)) == FirstBad(nodes, id, deps)
  {
    hide Reaches, DependentsGraph, FirstBad;
    if deps == [] {
    } else {
      var front, last := deps[..|deps| - 1], deps[|deps| - 1];
      assert deps == front + [last];
      FirstBadUnique(nodes, id, front);
      FirstBadLast(nodes, id, front, last);
      if last in Unique(front) {
        if FirstBad(nodes, id, front) == None { GoodIsGood(nodes, id, last); }
      } else {
        FirstBadLast(nodes, id, Unique(front), last);
      }
    }
  }

  lemma GoodIsGood(nodes: Nodes, id: Id, d: Id)
    requires d in nodes && !Reaches(DependentsGraph(nodes), id, d)
    ensures FirstBad(nodes, id, [d]) == None
  {
    assert [d][1..] == [];
  }

  lemma {:induction false} FirstBadIsFirst(nodes: Nodes, id: Id, deps: seq<Id>)
    requires Acyclic(DependentsGraph(nodes)) && id in nodes && id !in deps
    ensures FirstBad(nodes, id, deps) == None ==> forall d :: d in deps ==> Harmless(nodes, id, d)
    ensures FirstBad(nodes, id, deps).Some? ==> FirstObjection(nodes, id, deps, FirstBad(nodes, id, deps).value)
  {
    hide Acyclic, Reaches, Harmless, DependentsGraph;
    if deps == [] {
    } else {
      HarmlessIff(nodes, id, deps[0]);
      FirstBadIsFirst(nodes, id, deps[1..]);
      assert deps == [deps[0]] + deps[1..];
      if FirstBad(nodes, id, deps).Some? {
        if Harmless(nodes, id, deps[0]) {
          var e := FirstBad(nodes, id, deps).value;
          var i :| 0 <= i < |deps[1..]| && Objection(nodes, id, deps[1..][i], e) &&
            forall j :: 0 <= j < i ==> Harmless(nodes, id, deps[1..][j]);
          assert Objection(nodes, id, deps[i + 1], e);
          forall j | 0 <= j < i + 1 ensures Harmless(nodes, id, deps[j]) {
            if j > 0 { assert deps[j] == deps[1..][j - 1]; }
          }
        } else {
          FirstIsBad(nodes, id, deps);
        }
      }
    }
  }

  lemma FirstIsBad(nodes: Nodes, id: Id, deps: seq<Id>)
    requires Acyclic(DependentsGraph(nodes)) && id in nodes && deps != [] && id != deps[0]
    requires !Harmless(nodes, id, deps[0]) && FirstBad(nodes, id, deps).Some?
    ensures FirstObjection(nodes, id, deps, FirstBad(nodes, id, deps).value)
  {
    hide Acyclic, Reaches, DependentsGraph;
    HarmlessIff(nodes, id, deps[0]);
    assert Objection(nodes, id, deps[0], FirstBad(nodes, id, deps).value);
  }

  /** What the search for a bad dependency finds, in words. */
  lemma FirstBadMeans(nodes: Nodes, id: Id, deps: seq<Id>)
    requires Acyclic(DependentsGraph(nodes)) && id in nodes && id !in deps
    requires nodes[id].task.status !in {Running, Success, Failed, Cancelled}
    ensures FirstBad(nodes, id, Unique(deps)) == None ==> MayAdd(nodes, id, deps)
    ensures FirstBad(nodes, id, Unique(deps)).Some? ==>
      RefusedWith(nodes, id, deps, FirstBad(nodes, id, Unique(deps)).value)
  {
    hide Acyclic, Harmless, FirstBad, Unique, FirstObjection, DependentsGraph;
    FirstBadUnique(nodes, id, deps);
    FirstBadIsFirst(nodes, id, deps);
  }
}
