/** The runtime planner's own plan check. */
module PlanValidator {
  import opened Graphs
  import opened Tasks
  import opened CycleCheck

  /** `truthy` are the capability keys whose value Python counts as true. */
  datatype PlanTask = PlanTask(
    localId: Id,
    role: string,
    dependencies: seq<Id>,
    capabilityKeys: set<string>,
    truthy: set<string>,
    resourceKeys: set<string>)

  datatype Problem =
    | BadSize | DuplicateId | MissingRole(role: string) | DependencyNotFound(dep: Id)
    | TesterAfterReviewer | ReviewerWrites | ForbiddenKey | HasCycle

  const FORBIDDEN: set<string> := {"agent_name", "workspace_path", "api_key", "env"}

  function IdList(plan: seq<PlanTask>): (r: seq<Id>)
    ensures |r| == |plan| && forall i :: 0 <= i < |plan| ==> r[i] == plan[i].localId
  {
    seq(|plan|, i requires 0 <= i < |plan| => plan[i].localId)
  }

  function Roles(plan: seq<PlanTask>): set<string> {
    set t | t in plan :: t.role
  }

  function Deps(plan: seq<PlanTask>): (m: map<Id, seq<Id>>)
    ensures m.Keys == Elements(IdList(plan))
  {
    if plan == [] then map[]
    else
      var t := plan[|plan| - 1];
      assert IdList(plan) == IdList(plan[..|plan| - 1]) + [t.localId];
      Deps(plan[..|plan| - 1])[t.localId := t.dependencies]
  }

  ghost predicate TaskOk(plan: seq<PlanTask>, t: PlanTask) {
    && (forall d :: d in t.dependencies ==> d in IdList(plan))
    && (t.role == "tester" ==>
         forall u :: u in plan && u.localId in t.dependencies ==> u.role != "reviewer")
    && (t.role == "reviewer" ==> "can_code" !in t.truthy && "can_test" !in t.truthy)
    && FORBIDDEN * t.capabilityKeys == {} && FORBIDDEN * t.resourceKeys == {}
  }

  /** p is something that is wrong with t. */
  ghost predicate Objects(plan: seq<PlanTask>, t: PlanTask, p: Problem) {
    match p
    case DependencyNotFound(d) => d in t.dependencies && d !in IdList(plan)
    case TesterAfterReviewer =>
      t.role == "tester" && exists u :: u in plan && u.localId in t.dependencies && u.role == "reviewer"
    case ReviewerWrites => t.role == "reviewer" && ("can_code" in t.truthy || "can_test" in t.truthy)
    case ForbiddenKey => FORBIDDEN * t.capabilityKeys != {} || FORBIDDEN * t.resourceKeys != {}
    case _ => false
  }

  /** p is something that is wrong with the plan. */
  ghost predicate Wrong(plan: seq<PlanTask>, p: Problem) {
    match p
    case BadSize => !(2 <= |plan| <= 12)
    case DuplicateId => !NoDuplicates(IdList(plan))
    case MissingRole(role) => role in {"coder", "tester", "reviewer"} && role !in Roles(plan)
    case HasCycle => !Acyclic(DependencyGraph(Deps(plan)))
    case _ => exists t :: t in plan && Objects(plan, t, p)
  }

  /** What the check is for, without its loops. */
  ghost predicate WellFormed(plan: seq<PlanTask>) {
    && 2 <= |plan| <= 12
    && NoDuplicates(IdList(plan))
    && {"coder", "tester", "reviewer"} <= Roles(plan)
    && (forall t :: t in plan ==> TaskOk(plan, t))
    && Acyclic(DependencyGraph(Deps(plan)))
  }

  method KnownDependencies(known: set<Id>, t: PlanTask) returns (bad: Option<Problem>)
    ensures bad.None? <==> forall d :: d in t.dependencies ==> d in known
    ensures bad.Some? ==> bad.value.DependencyNotFound? && bad.value.dep in t.dependencies && bad.value.dep !in known
  {
    for i := 0 to |t.dependencies|
      invariant forall j :: 0 <= j < i ==> t.dependencies[j] in known
    {
      if t.dependencies[i] !in known {
        return Some(DependencyNotFound(t.dependencies[i]));
      }
    }
    return None;
  }

  /** The first entry with the given id, as next(...) finds it. */
  method Find(plan: seq<PlanTask>, id: Id) returns (t: PlanTask)
    requires id in IdList(plan)
    ensures t in plan && t.localId == id
  {
    var i := 0;
    while plan[i].localId != id
      invariant 0 <= i < |plan|
      invariant id in IdList(plan)[i..]
      decreases |plan| - i
    {
      assert IdList(plan)[i..] == [plan[i].localId] + IdList(plan)[i + 1..];
      i := i + 1;
    }
    return plan[i];
  }

  method TesterDependencies(plan: seq<PlanTask>, t: PlanTask) returns (bad: bool)
    requires NoDuplicates(IdList(plan)) && forall d :: d in t.dependencies ==> d in IdList(plan)
    ensures !bad <==> forall u :: u in plan && u.localId in t.dependencies ==> u.role != "reviewer"
  {
    for i := 0 to |t.dependencies|
      invariant forall u :: u in plan && u.localId in t.dependencies[..i] ==> u.role != "reviewer"
    {
      var u := Find(plan, t.dependencies[i]);
      if u.role == "reviewer" {
        return true;
      }
      forall v | v in plan && v.localId == t.dependencies[i] ensures v == u {
        SameEntry(plan, u, v);
      }
      assert t.dependencies[..i + 1] == t.dependencies[..i] + [t.dependencies[i]];
    }
    assert t.dependencies[..|t.dependencies|] == t.dependencies;
    return false;
  }

  lemma SameEntry(plan: seq<PlanTask>, u: PlanTask, v: PlanTask)
    requires NoDuplicates(IdList(plan)) && u in plan && v in plan && u.localId == v.localId
    ensures u == v
  {
    var i :| 0 <= i < |plan| && plan[i] == u;
    var j :| 0 <= j < |plan| && plan[j] == v;
    assert IdList(plan)[i] == IdList(plan)[j];
  }

  method CheckTask(plan: seq<PlanTask>, t: PlanTask) returns (bad: Option<Problem>)
    requires NoDuplicates(IdList(plan))
    ensures bad.None? <==> TaskOk(plan, t)
    ensures bad.Some? ==> Objects(plan, t, bad.value)
  {
    bad := KnownDependencies(Elements(IdList(plan)), t);
    if bad.Some? {
      return;
    }
    if t.role == "tester" {
      var early := TesterDependencies(plan, t);
      if early {
        return Some(TesterAfterReviewer);
      }
    }
    if t.role == "reviewer" && ("can_code" in t.truthy || "can_test" in t.truthy) {
      return Some(ReviewerWrites);
    }
    if FORBIDDEN * t.capabilityKeys != {} || FORBIDDEN * t.resourceKeys != {} {
      return Some(ForbiddenKey);
    }
    return None;
  }

  method HasDuplicates(ids: seq<Id>) returns (dup: bool)
    ensures dup <==> !NoDuplicates(ids)
  {
    var seen: set<Id> := {};
    for i := 0 to |ids|
      invariant NoDuplicates(ids[..i]) && seen == Elements(ids[..i])
    {
      if ids[i] in seen {
        var j :| 0 <= j < i && ids[j] == ids[i];
        return true;
      }
      seen := seen + {ids[i]};
      assert ids[..i + 1] == ids[..i] + [ids[i]];
    }
    assert ids[..|ids|] == ids;
    return false;
  }

  lemma TaskProblem(plan: seq<PlanTask>, t: PlanTask, p: Problem)
    requires t in plan && Objects(plan, t, p)
    ensures Wrong(plan, p)
  {
  }

  /** None means accepted: exactly the well-formed plans pass. A problem that is reported is there. */
  method ValidatePlan(plan: seq<PlanTask>) returns (bad: Option<Problem>)
    ensures bad.None? <==> WellFormed(plan)
    ensures bad.Some? ==> Wrong(plan, bad.value)
  {
    hide Acyclic, TaskOk, NoDuplicates, Objects;
    if |plan| < 2 || |plan| > 12 {
      return Some(BadSize);
    }
    var dup := HasDuplicates(IdList(plan));
    if dup {
      return Some(DuplicateId);
    }
    var roles := Roles(plan);
    if "coder" !in roles { return Some(MissingRole("coder")); }
    if "tester" !in roles { return Some(MissingRole("tester")); }
    if "reviewer" !in roles { return Some(MissingRole("reviewer")); }
    for i := 0 to |plan|
      invariant forall j :: 0 <= j < i ==> TaskOk(plan, plan[j])
    {
      bad := CheckTask(plan, plan[i]);
      if bad.Some? {
        TaskProblem(plan, plan[i], bad.value);
        return;
      }
    }
    var ok := IsAcyclic(Deps(plan));
    bad := if ok then None else Some(HasCycle);
  }
}
