/** Coder plans: which are accepted, and in what order their tasks are worked off. */
module CoderPlan {
  import opened Graphs
  import opened Tasks
  import opened CycleCheck

  datatype PlannedTask = PlannedTask(localId: Id, role: string, goal: string, dependencies: seq<Id>)

  datatype PlanError =
    | NoCoderTasks
    | UnknownDependency(task: Id, dep: Id)
    | NonCoderDependency(task: Id, dep: Id)
    | CyclicPlan

  const CODER := "coder"

  function CoderItems(plan: seq<PlannedTask>): (r: seq<PlannedTask>)
    ensures forall t :: t in r <==> t in plan && t.role == CODER
  {
    if plan == [] then []
    else
      var front := CoderItems(plan[..|plan| - 1]);
      if plan[|plan| - 1].role == CODER then front + [plan[|plan| - 1]] else front
  }

  function CoderIds(plan: seq<PlannedTask>): set<Id> {
    set t | t in plan && t.role == CODER :: t.localId
  }

  /** A dict comprehension keyed by local_id: the last entry with an id wins. */
  function ById(plan: seq<PlannedTask>): (m: map<Id, PlannedTask>)
    ensures forall k :: k in m ==> m[k] in plan && m[k].localId == k
    ensures forall t :: t in plan ==> t.localId in m
  {
    if plan == [] then map[]
    else ById(plan[..|plan| - 1])[plan[|plan| - 1].localId := plan[|plan| - 1]]
  }

  function CoderDeps(plan: seq<PlannedTask>): map<Id, seq<Id>> {
    var m := ById(CoderItems(plan));
    map k | k in m :: m[k].dependencies
  }

  lemma ByIdStep(plan: seq<PlannedTask>, k: Id)
    requires plan != [] && k in ById(plan)
    ensures plan[|plan| - 1].localId == k ==> ById(plan)[k] == plan[|plan| - 1]
    ensures plan[|plan| - 1].localId != k ==>
      k in ById(plan[..|plan| - 1]) && ById(plan)[k] == ById(plan[..|plan| - 1])[k]
  {
  }

  /** Of the entries with an id, the last decides. */
  lemma {:induction false} LastWins(plan: seq<PlannedTask>, k: Id) returns (i: nat)
    requires k in ById(plan)
    ensures i < |plan| && plan[i].localId == k && ById(plan)[k] == plan[i]
    ensures forall j :: i < j < |plan| ==> plan[j].localId != k
  {
    hide ById;
    assert ById(plan)[k] in plan;
    ByIdStep(plan, k);
    if plan[|plan| - 1].localId == k {
      i := |plan| - 1;
    } else {
      var front := plan[..|plan| - 1];
      i := LastWins(front, k);
      assert plan[i] == front[i];
      forall j | i < j < |plan| ensures plan[j].localId != k {
        if j < |plan| - 1 { assert plan[j] == front[j]; }
      }
    }
  }

  /** Where an entry of the coder items stands in the plan. */
  lemma {:induction false} ItemAt(plan: seq<PlannedTask>, i: nat) returns (p: nat)
    requires i < |CoderItems(plan)|
    ensures p < |plan| && plan[p] == CoderItems(plan)[i] && plan[p].role == CODER
    ensures forall j :: p < j < |plan| && plan[j].role == CODER ==> plan[j] in CoderItems(plan)[i + 1..]
  {
    var front, t := plan[..|plan| - 1], plan[|plan| - 1];
    var q := CoderItems(front);
    if i < |q| {
      p := ItemAt(front, i);
      if t.role == CODER { assert CoderItems(plan)[i + 1..] == q[i + 1..] + [t]; }
      forall j | p < j < |plan| && plan[j].role == CODER ensures plan[j] in CoderItems(plan)[i + 1..] {
        if j < |plan| - 1 { assert front[j] == plan[j]; }
      }
    } else {
      p := |plan| - 1;
    }
  }

  /** The cycle check looks at the coder ids, and for each at what its last coder entry depends on. */
  lemma LastCoderWins(plan: seq<PlannedTask>, k: Id) returns (p: nat)
    requires k in CoderIds(plan)
    ensures CoderDeps(plan).Keys == CoderIds(plan)
    ensures p < |plan| && plan[p].role == CODER && plan[p].localId == k && CoderDeps(plan)[k] == plan[p].dependencies
    ensures forall j :: p < j < |plan| && plan[j].role == CODER ==> plan[j].localId != k
  {
    var q := CoderItems(plan);
    forall id ensures id in ById(q) <==> id in CoderIds(plan) {
      if id in ById(q) { assert ById(q)[id] in q; }
      if id in CoderIds(plan) {
        var t :| t in plan && t.role == CODER && t.localId == id;
        assert t in q;
      }
    }
    assert CoderDeps(plan).Keys == CoderIds(plan);
    var i := LastWins(q, k);
    p := ItemAt(plan, i);
    forall j | p < j < |plan| && plan[j].role == CODER ensures plan[j].localId != k {
      assert plan[j] in q[i + 1..];
    }
  }

  // ---- validate_coder_plan ----

  /** Every dependency of every coder entry, duplicates of an id included, is a coder task. */
  ghost predicate DependenciesAreCoders(plan: seq<PlannedTask>) {
    forall t, d :: t in plan && t.role == CODER && d in t.dependencies ==>
      d in ById(plan) && ById(plan)[d].role == CODER
  }

  ghost predicate Accepted(plan: seq<PlannedTask>) {
    && CoderItems(plan) != []
    && DependenciesAreCoders(plan)
    && Acyclic(DependencyGraph(CoderDeps(plan)))
  }

  /** A coder entry of the plan names this dependency. */
  ghost predicate Names(plan: seq<PlannedTask>, task: Id, dep: Id) {
    exists t :: t in plan && t.role == CODER && t.localId == task && dep in t.dependencies
  }

  /** e is something that is wrong with the plan. */
  ghost predicate Wrong(plan: seq<PlannedTask>, e: PlanError) {
    match e
    case NoCoderTasks => CoderIds(plan) == {}
    case UnknownDependency(task, dep) => Names(plan, task, dep) && dep !in ById(plan)
    case NonCoderDependency(task, dep) => Names(plan, task, dep) && dep in ById(plan) && ById(plan)[dep].role != CODER
    case CyclicPlan => !Acyclic(DependencyGraph(CoderDeps(plan)))
  }

  /** The first bad dependency of one task, if any. */
  method CheckTask(byId: map<Id, PlannedTask>, t: PlannedTask) returns (bad: Option<PlanError>)
    ensures bad.None? <==> forall d :: d in t.dependencies ==> d in byId && byId[d].role == CODER
    ensures bad.Some? ==>
      || (bad.value.UnknownDependency? && bad.value.task == t.localId && bad.value.dep in t.dependencies &&
          bad.value.dep !in byId)
      || (bad.value.NonCoderDependency? && bad.value.task == t.localId && bad.value.dep in t.dependencies &&
          bad.value.dep in byId && byId[bad.value.dep].role != CODER)
  {
    var i := 0;
    while i < |t.dependencies|
      invariant 0 <= i <= |t.dependencies|
      invariant forall j :: 0 <= j < i ==> t.dependencies[j] in byId && byId[t.dependencies[j]].role == CODER
    {
      var d := t.dependencies[i];
      if d !in byId {
        return Some(UnknownDependency(t.localId, d));
      }
      if byId[d].role != CODER {
        return Some(NonCoderDependency(t.localId, d));
      }
      i := i + 1;
    }
    return None;
  }

  /** None means the plan is accepted; the check raises exactly for the other plans, and for something
      that is wrong with them. */
  method ValidateCoderPlan(plan: seq<PlannedTask>) returns (bad: Option<PlanError>)
    ensures bad.None? <==> Accepted(plan)
    ensures bad.Some? ==> Wrong(plan, bad.value)
  {
    hide Acyclic;
    var byId := ById(plan);
    var coders := CoderItems(plan);
    if coders == [] {
      return Some(NoCoderTasks);
    }
    var i := 0;
    while i < |coders|
      invariant 0 <= i <= |coders|
      invariant forall j, d :: 0 <= j < i && d in coders[j].dependencies ==> d in byId && byId[d].role == CODER
    {
      var t := coders[i];
      assert t in coders;
      bad := CheckTask(byId, t);
      if bad.Some? {
        assert Names(plan, t.localId, bad.value.dep);
        return;
      }
      i := i + 1;
    }
    assert DependenciesAreCoders(plan) by {
      forall t, d | t in plan && t.role == CODER && d in t.dependencies
        ensures d in ById(plan) && ById(plan)[d].role == CODER
      {
        assert t in coders;
      }
    }
    var ok := IsAcyclic(CoderDeps(plan));
    bad := if ok then None else Some(CyclicPlan);
  }

  // ---- remaining, ready and next ----

  function Remaining(plan: seq<PlannedTask>, completed: set<Id>): (r: seq<PlannedTask>)
    ensures forall t :: t in r <==> t in plan && t.role == CODER && t.localId !in completed
  {
    if plan == [] then []
    else
      var t := plan[|plan| - 1];
      var front := Remaining(plan[..|plan| - 1], completed);
      if t.role == CODER && t.localId !in completed then front + [t] else front
  }

  predicate IsReady(t: PlannedTask, completed: set<Id>) {
    forall d :: d in t.dependencies ==> d in completed
  }

  function ReadyOf(q: seq<PlannedTask>, completed: set<Id>): (r: seq<PlannedTask>)
    ensures forall t :: t in r <==> t in q && IsReady(t, completed)
  {
    if q == [] then []
    else
      var front := ReadyOf(q[..|q| - 1], completed);
      if IsReady(q[|q| - 1], completed) then front + [q[|q| - 1]] else front
  }

  function Ready(plan: seq<PlannedTask>, completed: set<Id>): seq<PlannedTask> {
    ReadyOf(Remaining(plan, completed), completed)
  }

  /** String order, code point by code point. */
  predicate NameLess(a: string, b: string) {
    if a == "" then b != ""
    else b != "" && (a[0] < b[0] || (a[0] == b[0] && NameLess(a[1..], b[1..])))
  }

  lemma {:induction false} NotLessTrans(a: string, b: string, c: string)
    requires !NameLess(b, a) && !NameLess(c, b)
    ensures !NameLess(c, a)
    decreases |a|
  {
    if a != "" && b != "" && c != "" && a[0] == b[0] == c[0] {
      NotLessTrans(a[1..], b[1..], c[1..]);
    }
  }

  /** sorted(..., key=local_id)[0]: the first of the entries with the least id. */
  function Least(q: seq<PlannedTask>): (r: PlannedTask)
    requires q != []
    ensures r in q
    ensures forall t :: t in q ==> !NameLess(t.localId.name, r.localId.name)
  {
    if |q| == 1 then LessIrreflexive(q[0].localId.name); q[0]
    else
      var front, last := Least(q[..|q| - 1]), q[|q| - 1];
      assert q == q[..|q| - 1] + [last];
      if NameLess(last.localId.name, front.localId.name) then
        assert forall t :: t in q[..|q| - 1] ==> !NameLess(t.localId.name, last.localId.name) by {
          forall t | t in q[..|q| - 1] ensures !NameLess(t.localId.name, last.localId.name) {
            LessIsNotGreater(last.localId.name, front.localId.name);
            NotLessTrans(last.localId.name, front.localId.name, t.localId.name);
          }
        }
        assert !NameLess(last.localId.name, last.localId.name) by { LessIrreflexive(last.localId.name); }
        last
      else front
  }

  lemma {:induction false} LessIrreflexive(a: string)
    ensures !NameLess(a, a)
  {
    if a == "" {
    } else {
      LessIrreflexive(a[1..]);
    }
  }

  lemma {:induction false} LessIsNotGreater(a: string, b: string)
    requires NameLess(a, b)
    ensures !NameLess(b, a)
  {
    if a != "" && a[0] == b[0] { LessIsNotGreater(a[1..], b[1..]); }
  }

  function ChooseNext(plan: seq<PlannedTask>, completed: set<Id>): Option<PlannedTask> {
    var ready := Ready(plan, completed);
    if ready == [] then None else Some(Least(ready))
  }

  // ---- progress ----

  /** Of the unfinished coder ids one has, in the entry that the cycle check looked at, no
      unfinished dependency. */
  lemma SomeUnblocked(plan: seq<PlannedTask>, completed: set<Id>) returns (t: PlannedTask)
    requires Accepted(plan) && Remaining(plan, completed) != []
    ensures t in plan && t.role == CODER && t.localId !in completed && IsReady(t, completed)
  {
    hide Acyclic, HasSuccessorIn;
    var m := ById(CoderItems(plan));
    var g := DependencyGraph(CoderDeps(plan));
    var left := m.Keys - completed;
    var some := Remaining(plan, completed)[0];
    assert some in Remaining(plan, completed) && some in CoderItems(plan) && some.localId in left;
    var k := FreeNode(g, left);
    t := m[k];
    forall d | d in t.dependencies ensures d in completed {
      assert ById(plan)[d] in CoderItems(plan);
      EdgeBlocks(g, left, k, d);
    }
  }

  lemma FreeNode(g: Graph, n: set<Id>) returns (k: Id)
    requires Acyclic(g) && n != {}
    ensures k in n && !HasSuccessorIn(g, n, k)
  {
    hide HasSuccessorIn;
    if forall a :: a in n ==> HasSuccessorIn(g, n, a) {
      NoSinkMeansCycle(g, n);
      assert false;
    }
    k :| k in n && !HasSuccessorIn(g, n, k);
  }

  lemma EdgeBlocks(g: Graph, n: set<Id>, a: Id, b: Id)
    requires Edge(g, a, b) && !HasSuccessorIn(g, n, a)
    ensures b !in n
  {
  }

  /** For an accepted plan and any completed set, a remaining coder task implies a ready one. */
  lemma ReadyExists(plan: seq<PlannedTask>, completed: set<Id>)
    requires Accepted(plan) && Remaining(plan, completed) != []
    ensures Ready(plan, completed) != []
    ensures ChooseNext(plan, completed).Some?
  {
    hide Accepted;
    var t := SomeUnblocked(plan, completed);
    assert t in Remaining(plan, completed);
    assert t in Ready(plan, completed);
  }

  /** What the next task is: unfinished, a coder, with all dependencies completed. */
  lemma NextFacts(plan: seq<PlannedTask>, completed: set<Id>)
    requires ChooseNext(plan, completed).Some?
    ensures
      var t := ChooseNext(plan, completed).value;
      t in plan && t.role == CODER && t.localId !in completed && IsReady(t, completed)
  {
    var ready := Ready(plan, completed);
    assert Least(ready) in ready;
  }

  // ---- the loop when every coder succeeds ----

  function RemainingIds(plan: seq<PlannedTask>, completed: set<Id>): set<Id> {
    CoderIds(plan) - completed
  }

  /** The tasks handed to the coder, one loop turn after the other. */
  function WorkOff(plan: seq<PlannedTask>, completed: set<Id>): seq<PlannedTask>
    decreases RemainingIds(plan, completed)
  {
    match ChooseNext(plan, completed)
    case None => []
    case Some(t) =>
      NextFacts(plan, completed);
      assert t.localId in RemainingIds(plan, completed);
      [t] + WorkOff(plan, completed + {t.localId})
  }

  function Ids(q: seq<PlannedTask>): set<Id> {
    set t | t in q :: t.localId
  }

  /** Every task comes after all its dependencies, those completed at the start aside. */
  ghost predicate Linear(w: seq<PlannedTask>, completed: set<Id>) {
    forall i, d :: 0 <= i < |w| && d in w[i].dependencies ==> d in completed || d in Ids(w[..i])
  }

  lemma IdsCons(t: PlannedTask, q: seq<PlannedTask>)
    ensures Ids([t] + q) == {t.localId} + Ids(q)
  {
  }

  lemma LinearCons(t: PlannedTask, tail: seq<PlannedTask>, completed: set<Id>)
    requires IsReady(t, completed) && Linear(tail, completed + {t.localId})
    ensures Linear([t] + tail, completed)
  {
    var w := [t] + tail;
    forall i, d | 0 <= i < |w| && d in w[i].dependencies ensures d in completed || d in Ids(w[..i]) {
      if i > 0 {
        var j := i - 1;
        assert w[i] == tail[j];
        assert d in tail[j].dependencies;
        assert d in completed + {t.localId} || d in Ids(tail[..j]);
        assert w[..i] == [t] + tail[..j];
        IdsCons(t, tail[..j]);
      } else {
        assert w[i] == t;
      }
    }
  }

  /** One turn per distinct coder id; every turn's dependencies were completed in earlier turns. */
  lemma {:induction false} WorkOffIsLinear(plan: seq<PlannedTask>, completed: set<Id>)
    requires Accepted(plan)
    ensures |WorkOff(plan, completed)| == |RemainingIds(plan, completed)|
    ensures Ids(WorkOff(plan, completed)) == RemainingIds(plan, completed)
    ensures Linear(WorkOff(plan, completed), completed)
    decreases RemainingIds(plan, completed)
  {
    hide Accepted, ChooseNext, Ids, Linear, IsReady, CoderIds;
    if ChooseNext(plan, completed).None? {
      NothingRemains(plan, completed);
      NothingWorked(completed);
    } else {
      NextFacts(plan, completed);
      var t := ChooseNext(plan, completed).value;
      IsRemainingId(plan, completed, t);
      var rest := completed + {t.localId};
      assert RemainingIds(plan, rest) == RemainingIds(plan, completed) - {t.localId};
      WorkOffIsLinear(plan, rest);
      var tail := WorkOff(plan, rest);
      IdsCons(t, tail);
      LinearCons(t, tail, completed);
    }
  }

  lemma NothingWorked(completed: set<Id>)
    ensures Ids([]) == {} && Linear([], completed)
  {
  }

  lemma IsRemainingId(plan: seq<PlannedTask>, completed: set<Id>, t: PlannedTask)
    requires t in plan && t.role == CODER && t.localId !in completed
    ensures t.localId in RemainingIds(plan, completed)
  {
  }

  lemma NothingRemains(plan: seq<PlannedTask>, completed: set<Id>)
    requires Accepted(plan) && ChooseNext(plan, completed).None?
    ensures RemainingIds(plan, completed) == {} && Remaining(plan, completed) == []
  {
    hide Accepted, ChooseNext;
    if Remaining(plan, completed) != [] { ReadyExists(plan, completed); }
    NoRemainingIds(plan, completed);
  }

  lemma NoRemainingIds(plan: seq<PlannedTask>, completed: set<Id>)
    requires Remaining(plan, completed) == []
    ensures RemainingIds(plan, completed) == {}
  {
    forall t | t in plan && t.role == CODER ensures t.localId in completed {
      assert t !in Remaining(plan, completed);
    }
  }

  /** From the start: as many turns as distinct coder ids, in a linear extension of the
      dependencies. With unique ids that is the dependency order of the plan itself. */
  lemma LoopOrder(plan: seq<PlannedTask>)
    requires Accepted(plan)
    ensures |WorkOff(plan, {})| == |CoderIds(plan)| && Ids(WorkOff(plan, {})) == CoderIds(plan)
    ensures Linear(WorkOff(plan, {}), {})
  {
    hide Accepted, WorkOff, Linear;
    WorkOffIsLinear(plan, {});
    assert RemainingIds(plan, {}) == CoderIds(plan);
  }
}
