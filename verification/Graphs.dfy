/** Finite directed graphs over task ids, given by their successor sets. */
module Graphs {
  datatype Id = Id(name: string)
  type Graph = map<Id, set<Id>>

  predicate Edge(g: Graph, a: Id, b: Id) {
    a in g && b in g[a]
  }

  /** A non-empty walk: every two neighbours are joined by an edge. */
  ghost predicate IsPath(g: Graph, p: seq<Id>) {
    && |p| >= 1
    && forall i, j :: 0 <= i && j == i + 1 && j < |p| ==> Edge(g, p[i], p[j])
  }

  ghost predicate Joins(g: Graph, p: seq<Id>, a: Id, b: Id) {
    IsPath(g, p) && p[0] == a && p[|p| - 1] == b
  }

  /** Reflexive and transitive: a walk of length one joins a node to itself. */
  ghost predicate Reaches(g: Graph, a: Id, b: Id) {
    exists p :: Joins(g, p, a, b)
  }

  /** No walk of at least one edge comes back to where it started. */
  ghost predicate Acyclic(g: Graph) {
    forall p :: IsPath(g, p) && |p| >= 2 ==> p[0] != p[|p| - 1]
  }

  ghost predicate Closed(g: Graph, s: set<Id>) {
    forall a, b :: a in s && Edge(g, a, b) ==> b in s
  }

  /** g' has every edge of g. */
  ghost predicate Subgraph(g: Graph, g': Graph) {
    forall a, b :: Edge(g, a, b) ==> Edge(g', a, b)
  }

  predicate NoDuplicates<T(==)>(s: seq<T>) {
    forall i, j :: 0 <= i < j < |s| ==> s[i] != s[j]
  }

  lemma ReachesSelf(g: Graph, a: Id)
    ensures Reaches(g, a, a)
  {
    assert Joins(g, [a], a, a);
  }

  lemma PathConcat(g: Graph, p: seq<Id>, q: seq<Id>)
    requires IsPath(g, p) && IsPath(g, q) && p[|p| - 1] == q[0]
    ensures IsPath(g, p + q[1..])
    ensures (p + q[1..])[0] == p[0]
    ensures (p + q[1..])[|p| + |q| - 2] == q[|q| - 1]
  {
    var r := p + q[1..];
    forall i, j | 0 <= i && j == i + 1 && j < |r|
      ensures Edge(g, r[i], r[j])
    {
      if j < |p| {
      } else {
        assert r[j] == q[j - |p| + 1];
        assert r[i] == q[j - |p|];
      }
    }
  }

  lemma ReachesTrans(g: Graph, a: Id, b: Id, c: Id)
    requires Reaches(g, a, b) && Reaches(g, b, c)
    ensures Reaches(g, a, c)
  {
    var p :| Joins(g, p, a, b);
    var q :| Joins(g, q, b, c);
    PathConcat(g, p, q);
    assert Joins(g, p + q[1..], a, c);
  }

  lemma ReachesEdge(g: Graph, a: Id, b: Id, c: Id)
    requires Reaches(g, a, b) && Edge(g, b, c)
    ensures Reaches(g, a, c)
  {
    assert Joins(g, [b, c], b, c);
    ReachesTrans(g, a, b, c);
  }

  /** Some node of `from` reaches b. */
  ghost predicate Behind(g: Graph, from: set<Id>, b: Id) {
    exists f :: f in from && Reaches(g, f, b)
  }

  lemma BehindGrows(g: Graph, from: set<Id>, d: Id, b: Id)
    requires Edge(g, d, b) && (d in from || Behind(g, from, d))
    ensures Behind(g, from, b)
  {
    hide Reaches;
    ReachesSelf(g, d);
    var f :| f in from && Reaches(g, f, d);
    ReachesEdge(g, f, d, b);
  }

  /** A set closed under edges holds the whole walk once it holds its start. */
  lemma {:induction false} ClosedHoldsPath(g: Graph, s: set<Id>, p: seq<Id>, k: nat)
    requires Closed(g, s) && IsPath(g, p) && p[0] in s && k < |p|
    ensures p[k] in s
  {
    if k == 0 {
    } else {
      ClosedHoldsPath(g, s, p, k - 1);
      assert Edge(g, p[k - 1], p[k]);
    }
  }

  lemma ClosedHoldsReached(g: Graph, s: set<Id>, a: Id, b: Id)
    requires Closed(g, s) && a in s && Reaches(g, a, b)
    ensures b in s
  {
    var p :| Joins(g, p, a, b);
    ClosedHoldsPath(g, s, p, |p| - 1);
  }

  lemma {:induction false} SubsetSize(a: set<Id>, b: set<Id>)
    requires a <= b
    ensures |a| <= |b|
  {
    if a == {} {
    } else {
      var x :| x in a;
      SubsetSize(a - {x}, b - {x});
    }
  }

  lemma HeadTail(q: seq<Id>)
    requires q != [] && NoDuplicates(q)
    ensures forall x :: x in q <==> x == q[0] || x in q[1..]
    ensures q[0] !in q[1..] && NoDuplicates(q[1..])
  {
    assert q == [q[0]] + q[1..];
  }

  lemma AppendDistinct(q: seq<Id>, x: Id)
    requires NoDuplicates(q) && x !in q
    ensures NoDuplicates(q + [x]) && forall y :: y in q + [x] <==> y in q || y == x
  {
  }

  /** A duplicate-free sequence drawn from s is no longer than s. */
  lemma {:induction false} DistinctBound(p: seq<Id>, s: set<Id>)
    requires NoDuplicates(p)
    requires forall i :: 0 <= i < |p| ==> p[i] in s
    ensures |p| <= |s|
  {
    if |p| == 0 {
    } else {
      var last := p[|p| - 1];
      DistinctBound(p[..|p| - 1], s - {last});
    }
  }

  ghost predicate HasSuccessorIn(g: Graph, n: set<Id>, a: Id) {
    exists b :: b in n && Edge(g, a, b)
  }

  /** A walk of k edges that never leaves n, when every node of n has a successor in n. */
  lemma {:induction false} LongWalk(g: Graph, n: set<Id>, k: nat) returns (p: seq<Id>)
    requires n != {}
    requires forall a :: a in n ==> HasSuccessorIn(g, n, a)
    ensures IsPath(g, p) && |p| == k + 1
    ensures forall i :: 0 <= i < |p| ==> p[i] in n
  {
    if k == 0 {
      var a :| a in n;
      p := [a];
    } else {
      var q := LongWalk(g, n, k - 1);
      var a := q[|q| - 1];
      assert HasSuccessorIn(g, n, a);
      var b :| b in n && Edge(g, a, b);
      p := q + [b];
    }
  }

  lemma Repetition(p: seq<Id>, s: set<Id>) returns (i: nat, j: nat)
    requires forall k :: 0 <= k < |p| ==> p[k] in s
    requires |p| > |s|
    ensures i < j < |p| && p[i] == p[j]
  {
    assert !NoDuplicates(p) by {
      if NoDuplicates(p) { DistinctBound(p, s); }
    }
    i, j :| 0 <= i < j < |p| && p[i] == p[j];
  }

  lemma SubPath(g: Graph, p: seq<Id>, i: nat, j: nat)
    requires IsPath(g, p) && i < j <= |p|
    ensures IsPath(g, p[i..j])
  {
    var c := p[i..j];
    forall x, y | 0 <= x && y == x + 1 && y < |c|
      ensures Edge(g, c[x], c[y])
    {
      assert c[x] == p[i + x] && c[y] == p[i + y];
    }
  }

  lemma NoSinkCycle(g: Graph, n: set<Id>) returns (c: seq<Id>)
    requires n != {}
    requires forall a :: a in n ==> HasSuccessorIn(g, n, a)
    ensures IsPath(g, c) && |c| >= 2 && c[0] == c[|c| - 1]
  {
    hide HasSuccessorIn, IsPath;
    var p := LongWalk(g, n, |n|);
    var i, j := Repetition(p, n);
    SubPath(g, p, i, j + 1);
    c := p[i..j + 1];
  }

  /** A finite non-empty set in which every node has a successor holds a cycle. */
  lemma NoSinkMeansCycle(g: Graph, n: set<Id>)
    requires n != {}
    requires forall a :: a in n ==> HasSuccessorIn(g, n, a)
    ensures !Acyclic(g)
  {
    hide HasSuccessorIn, IsPath;
    var c := NoSinkCycle(g, n);
  }

  ghost predicate HasPredecessorIn(g: Graph, n: set<Id>, b: Id) {
    exists a :: a in n && Edge(g, a, b)
  }

  function Reversed(p: seq<Id>): (r: seq<Id>)
    ensures |r| == |p| && forall i :: 0 <= i < |p| ==> r[i] == p[|p| - 1 - i]
  {
    seq(|p|, i requires 0 <= i < |p| => p[|p| - 1 - i])
  }

  /** The graph with every edge inside n turned round. */
  ghost function Converse(g: Graph, n: set<Id>): Graph {
    map b | b in n :: set a | a in n && Edge(g, a, b)
  }

  lemma ReversedPath(g: Graph, n: set<Id>, p: seq<Id>)
    requires IsPath(Converse(g, n), p)
    ensures IsPath(g, Reversed(p))
  {
    var r := Reversed(p);
    forall i, j | 0 <= i && j == i + 1 && j < |r| ensures Edge(g, r[i], r[j]) {
      assert Edge(Converse(g, n), p[|p| - 1 - j], p[|p| - 1 - i]);
    }
  }

  lemma ConverseSuccessor(g: Graph, n: set<Id>, b: Id)
    requires b in n && HasPredecessorIn(g, n, b)
    ensures HasSuccessorIn(Converse(g, n), n, b)
  {
    var a :| a in n && Edge(g, a, b);
    assert Edge(Converse(g, n), b, a);
  }

  /** The same with predecessors in place of successors. */
  lemma NoSourceMeansCycle(g: Graph, n: set<Id>)
    requires n != {}
    requires forall b :: b in n ==> HasPredecessorIn(g, n, b)
    ensures !Acyclic(g)
  {
    hide HasPredecessorIn, HasSuccessorIn, Converse, IsPath;
    var h := Converse(g, n);
    forall b | b in n ensures HasSuccessorIn(h, n, b) {
      ConverseSuccessor(g, n, b);
    }
    var c := NoSinkCycle(h, n);
    ReversedPath(g, n, c);
    var r := Reversed(c);
    assert r[0] == r[|r| - 1];
  }

  // ---- adding a batch of edges into one node ----

  /** g' is g plus edges from nodes of `sources` to t, and nothing else. */
  ghost predicate AddsEdgesInto(g: Graph, g': Graph, sources: set<Id>, t: Id) {
    forall a, b :: Edge(g', a, b) ==> Edge(g, a, b) || (a in sources && b == t)
  }

  /** Walks of g' that start at t stay inside g when t reaches no source in g. */
  lemma {:induction false} OldWalksFrom(g: Graph, g': Graph, sources: set<Id>, t: Id, p: seq<Id>)
    requires AddsEdgesInto(g, g', sources, t)
    requires forall s :: s in sources ==> !Reaches(g, t, s)
    requires IsPath(g', p) && p[0] == t
    ensures IsPath(g, p)
    decreases |p|
  {
    if |p| <= 1 {
    } else {
      var q := p[..|p| - 1];
      assert IsPath(g', q);
      OldWalksFrom(g, g', sources, t, q);
      var a, b := p[|p| - 2], p[|p| - 1];
      assert Joins(g, q, t, a);
      assert Edge(g', a, b);
      assert Edge(g, a, b);
      forall i, j | 0 <= i && j == i + 1 && j < |p|
        ensures Edge(g, p[i], p[j])
      {
        if j < |q| { assert q[i] == p[i] && q[j] == p[j]; }
      }
    }
  }

  /** A closed walk through t can be turned so that it starts and ends at t. */
  lemma TurnCycle(g: Graph, p: seq<Id>, k: nat) returns (r: seq<Id>)
    requires IsPath(g, p) && |p| >= 2 && p[0] == p[|p| - 1] && k < |p|
    ensures IsPath(g, r) && |r| >= 2 && r[0] == p[k] == r[|r| - 1]
  {
    SubPath(g, p, 0, k + 1);
    SubPath(g, p, k, |p|);
    PathConcat(g, p[k..], p[0..k + 1]);
    r := p[k..] + p[0..k + 1][1..];
  }

  /** Batch check: if t reaches none of the sources, the enlarged graph has no cycle.
      All sources are compared with the graph as it was before any edge was added. */
  lemma AddEdgesAcyclic(g: Graph, g': Graph, sources: set<Id>, t: Id)
    requires Acyclic(g)
    requires AddsEdgesInto(g, g', sources, t)
    requires forall s :: s in sources ==> !Reaches(g, t, s)
    ensures Acyclic(g')
  {
    forall p | IsPath(g', p) && |p| >= 2
      ensures p[0] != p[|p| - 1]
    {
      if t !in p {
        assert IsPath(g, p);
      } else if p[0] == p[|p| - 1] {
        var k :| 0 <= k < |p| && p[k] == t;
        var r := TurnCycle(g', p, k);
        OldWalksFrom(g, g', sources, t, r);
        assert false;
      }
    }
  }

  /** The converse direction: an edge s -> t on top of a walk from t to s is a real cycle. */
  lemma RejectedEdgeCloses(g: Graph, g': Graph, s: Id, t: Id)
    requires Subgraph(g, g') && Edge(g', s, t) && Reaches(g, t, s)
    ensures !Acyclic(g')
  {
    var p :| Joins(g, p, t, s);
    var c := p + [t];
    assert IsPath(g', c) by {
      forall i, j | 0 <= i && j == i + 1 && j < |c|
        ensures Edge(g', c[i], c[j])
      {
        if j < |p| { assert Edge(g, p[i], p[j]); }
      }
    }
    assert c[0] == c[|c| - 1];
  }
}
