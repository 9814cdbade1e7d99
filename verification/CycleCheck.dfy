/** The depth-first search with which plans are checked for cycles. */
module CycleCheck {
  import opened Graphs
  import opened Tasks

  /** Dependencies among the listed ids; a dependency on an unlisted id is not followed. */
  function DependencyGraph(deps: map<Id, seq<Id>>): Graph {
    map k | k in deps :: set d | d in deps[k] && d in deps
  }

  /** Finished nodes: closed under dependencies, and on no cycle. */
  ghost predicate Finished(g: Graph, visited: set<Id>) {
    && Closed(g, visited)
    && forall p :: IsPath(g, p) && |p| >= 2 && p[0] == p[|p| - 1] ==> p[0] !in visited
  }

  lemma FinishOne(g: Graph, visited: set<Id>, node: Id)
    requires Finished(g, visited) && node !in visited
    requires forall b :: Edge(g, node, b) ==> b in visited
    ensures Finished(g, visited + {node})
  {
    forall p | IsPath(g, p) && |p| >= 2 && p[0] == p[|p| - 1] ensures p[0] != node {
      if p[0] == node {
        assert Edge(g, p[0], p[1]);
        SubPath(g, p, 1, |p|);
        ClosedHoldsPath(g, visited, p[1..|p|], |p| - 2);
      }
    }
  }

  /** A node met again on the current path closes a cycle. */
  lemma BackEdge(g: Graph, stack: seq<Id>, node: Id)
    requires IsPath(g, stack + [node]) && node in stack
    ensures !Acyclic(g)
  {
    var k :| 0 <= k < |stack| && stack[k] == node;
    var p := stack + [node];
    SubPath(g, p, k, |p|);
    var c := p[k..|p|];
    assert c[0] == c[|c| - 1];
  }

  lemma AllFinished(g: Graph, visited: set<Id>)
    requires Finished(g, visited) && g.Keys <= visited
    ensures Acyclic(g)
  {
    forall p | IsPath(g, p) && |p| >= 2 ensures p[0] != p[|p| - 1] {
      assert Edge(g, p[0], p[1]);
    }
  }

  class Search {
    const deps: map<Id, seq<Id>>
    var visiting: set<Id>
    var visited: set<Id>

    constructor (deps: map<Id, seq<Id>>)
      ensures this.deps == deps && visiting == {} && visited == {}
    {
      this.deps, visiting, visited := deps, {}, {};
    }

    /** `stack` is the path of calls in progress. A false result stands for the raised error. */
    method Visit(node: Id, ghost stack: seq<Id>) returns (ok: bool)
      requires node in deps && visiting == Elements(stack) && visiting !! visited && visiting <= deps.Keys
      requires IsPath(DependencyGraph(deps), stack + [node])
      requires Finished(DependencyGraph(deps), visited)
      modifies this
      ensures !ok ==> !Acyclic(DependencyGraph(deps))
      ensures ok ==> visiting == old(visiting) && visiting !! visited && old(visited) + {node} <= visited
      ensures ok ==> Finished(DependencyGraph(deps), visited)
      decreases deps.Keys - visiting
    {
      hide Acyclic, Finished;
      ghost var g := DependencyGraph(deps);
      if node in visiting {
        BackEdge(g, stack, node);
        return false;
      }
      if node in visited {
        return true;
      }
      visiting := visiting + {node};
      ghost var path := stack + [node];
      assert Elements(path) == visiting;
      var i := 0;
      while i < |deps[node]|
        invariant 0 <= i <= |deps[node]|
        invariant visiting == old(visiting) + {node} && visiting !! visited && old(visited) <= visited
        invariant Finished(g, visited)
        invariant forall j :: 0 <= j < i && deps[node][j] in deps ==> deps[node][j] in visited
      {
        var dep := deps[node][i];
        if dep in deps {
          ExtendPath(g, path, dep);
          var below := Visit(dep, path);
          if !below {
            return false;
          }
        }
        i := i + 1;
      }
      FinishOne(g, visited, node);
      visiting := visiting - {node};
      visited := visited + {node};
      return true;
    }

    /** Raises exactly when the graph has a cycle. */
    method Run() returns (ok: bool)
      requires visiting == {} && visited == {}
      modifies this
      ensures ok <==> Acyclic(DependencyGraph(deps))
    {
      hide Acyclic, Finished;
      ghost var g := DependencyGraph(deps);
      NothingFinished(g);
      var order := Listed(deps.Keys);
      var i := 0;
      while i < |order|
        invariant 0 <= i <= |order| && visiting == {} && Finished(g, visited)
        invariant forall j :: 0 <= j < i ==> order[j] in visited
      {
        assert order[i] in order;
        SingletonPath(g, order[i]);
        assert [] + [order[i]] == [order[i]];
        assert Elements([]) == {};
        var here := Visit(order[i], []);
        if !here {
          return false;
        }
        i := i + 1;
      }
      forall k | k in deps ensures k in visited {
        assert k in order;
      }
      AllFinished(g, visited);
      return true;
    }
  }

  lemma NothingFinished(g: Graph)
    ensures Finished(g, {})
  {
  }

  lemma SingletonPath(g: Graph, a: Id)
    ensures IsPath(g, [a])
  {
  }

  lemma ExtendPath(g: Graph, p: seq<Id>, b: Id)
    requires IsPath(g, p) && Edge(g, p[|p| - 1], b)
    ensures IsPath(g, p + [b])
  {
  }

  /** The check as the validators use it: a fresh search per plan. */
  method IsAcyclic(deps: map<Id, seq<Id>>) returns (ok: bool)
    ensures ok <==> Acyclic(DependencyGraph(deps))
  {
    var search := new Search(deps);
    ok := search.Run();
  }
}
