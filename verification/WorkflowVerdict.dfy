/** Where a run goes next and how it ends, said through the answers it got. */
module WorkflowVerdict {
  import opened Graphs
  import opened Tasks
  import opened CoderPlan
  import opened Workflow
  import opened WorkflowRuns

  /** The repairs asked for so far. */
  function RepairsMade(configs: seq<Config>): nat {
    if configs == [] then 0
    else RepairsMade(configs[..|configs| - 1]) + if configs[|configs| - 1].node == Repair then 1 else 0
  }

  lemma {:induction false} RoundsAreRepairs(configs: seq<Config>, answers: seq<Answers>, max: int, k: nat)
    requires Run(configs, answers, max) && k < |configs| && configs[k].node != Aborted
    ensures configs[k].state.repairRound == RepairsMade(configs[..k])
  {
    hide Accepted, ChooseNext, LeaksPrivateFile, TouchesPrivate;
    if k == 0 {
    } else {
      RoundsAreRepairs(configs, answers, max, k - 1);
      assert configs[k - 1 + 1] == Next(configs[k - 1], answers[k - 1], max);
      assert configs[..k][..k - 1] == configs[..k - 1];
    }
  }

  /** The turns of the coder so far, this one included. */
  function CoderTurns(configs: seq<Config>): nat {
    if configs == [] then 0
    else CoderTurns(configs[..|configs| - 1]) + if configs[|configs| - 1].node == Coder then 1 else 0
  }

  /** coder_step counts the turns of the coder. */
  lemma {:induction false} StepsAreTurns(configs: seq<Config>, answers: seq<Answers>, max: int, k: nat)
    requires Run(configs, answers, max) && k < |configs|
    ensures configs[k].state.coderStep == CoderTurns(configs[..k + 1])
  {
    hide Accepted, ChooseNext, LeaksPrivateFile, TouchesPrivate;
    assert configs[..k + 1][..k] == configs[..k];
    if k == 0 {
      assert CoderTurns(configs[..0]) == 0;
    } else {
      StepsAreTurns(configs, answers, max, k - 1);
      assert configs[k - 1 + 1] == Next(configs[k - 1], answers[k - 1], max);
      assert configs[..k - 1 + 1] == configs[..k];
    }
  }

  /** The patch changes the worker's own files: something under .codex-home or one of its two logs. */
  predicate TouchesPrivate(patch: Patch) {
    exists f :: f in patch.changedFiles &&
      ((|f| >= 11 && f[..11] == ".codex-home") || f == ".codex-events.jsonl" || f == ".codex-final.json")
  }

  lemma LeaksIff(patch: Patch)
    ensures LeaksPrivateFile([patch]) <==> TouchesPrivate(patch)
  {
    assert |".codex-home"| == 11;
    if LeaksPrivateFile([patch]) {
      var p, f :| p in [patch] && f in p.changedFiles && ForbiddenFile(f);
      assert p == patch;
    }
    if TouchesPrivate(patch) {
      var f :| f in patch.changedFiles &&
        ((|f| >= 11 && f[..11] == ".codex-home") || f == ".codex-events.jsonl" || f == ".codex-final.json");
      assert patch in [patch] && ForbiddenFile(f);
    }
  }

  /** The test ran and failed, or was given up. */
  predicate Red(a: TestAnswer) {
    a.TestTimedOut? || a.TestFailed? || (a.TestRan? && a.returncode != 0)
  }

  predicate Passed(a: TestAnswer) {
    a == TestRan(0)
  }

  // ---- the next node ----

  /** After a test: to the reviewer if it passed, to the repair node if it did not and fewer repairs
      than allowed were made, else to the failed node. */
  predicate AfterTest(a: TestAnswer, made: nat, max: int, next: GraphNode) {
    && (next == Reviewer <==> Passed(a))
    && (next == Repair <==> Red(a) && made < max)
    && (next == FailedNode <==> Red(a) && made >= max)
    && (next == Aborted <==> a.TestRaised?)
  }

  /** After a review: an unfailed run goes to the success node exactly if the review approves, and to
      the repair node exactly if it does not and fewer repairs than allowed were made. */
  predicate AfterReview(failed: bool, a: ReviewAnswer, made: nat, max: int, next: GraphNode) {
    && (next == SuccessNode <==> !failed && a == ReviewGiven(true))
    && (next == Repair <==> !failed && a == ReviewGiven(false) && made < max)
    && (next == FailedNode <==>
          a.ReviewFailed? || (a.ReviewGiven? && failed) || (a == ReviewGiven(false) && made >= max))
    && (next == Aborted <==> a.ReviewRaised?)
  }

  /** At any test or review of any run, from the answer alone. */
  lemma TestAndReviewDecide(configs: seq<Config>, answers: seq<Answers>, max: int, k: nat)
    requires Run(configs, answers, max) && k < |answers|
    ensures
      var c, made, next := configs[k], RepairsMade(configs[..k]), configs[k + 1].node;
      && (c.node == Tester ==> AfterTest(answers[k].test, made, max, next))
      && (c.node == Reviewer ==> AfterReview(c.state.status.FailedRun?, answers[k].review, made, max, next))
  {
    hide Accepted, ChooseNext, LeaksPrivateFile, TouchesPrivate, RepairsMade;
    if configs[k].node == Tester || configs[k].node == Reviewer {
      RoundsAreRepairs(configs, answers, max, k);
      assert configs[k + 1] == Next(configs[k], answers[k], max);
    }
  }

  /** The entry a selection picks: ready and unfinished, with the least id of all such, and the first
      of the plan among those of that id. */
  ghost predicate Picks(plan: seq<PlannedTask>, done: set<Id>, t: PlannedTask) {
    exists i :: 0 <= i < |plan| && plan[i] == t && Pickable(plan[i], done) &&
      (forall j :: 0 <= j < |plan| && Pickable(plan[j], done) ==>
         !NameLess(plan[j].localId.name, t.localId.name)) &&
      (forall j :: 0 <= j < i && Pickable(plan[j], done) ==> NameLess(t.localId.name, plan[j].localId.name))
  }

  predicate Pickable(t: PlannedTask, done: set<Id>) {
    t.role == CODER && t.localId !in done && forall d :: d in t.dependencies ==> d in done
  }

  /** At every other node. The planner, both integrations and a selection with nothing left have one
      way to go; a coder or a repair that hands nothing over fails the run. */
  ghost predicate Otherwise(c: Config, a: Answers, next: Config) {
    var failed := c.state.status.FailedRun?;
    match c.node
    case Planner => next.node == if a.plan.PlanRaised? then Aborted else SelectCoder
    case SelectCoder =>
      && (next.node == FailedNode <==> failed)
      && (next.node == Tester <==> !failed && CoderIds(c.state.plan) <= c.state.completed)
      && (next.node == Coder <==> !failed && !(CoderIds(c.state.plan) <= c.state.completed))
      && (next.node == Coder ==>
            next.state.active.Some? && Picks(c.state.plan, c.state.completed, next.state.active.value))
    case Coder =>
      && (next.node == Aborted <==> a.work.WorkRaised?)
      && (next.node == FailedNode <==> a.work.WorkFailed? || a.work.NoPatch?)
      && (next.node == IntegrateCoder <==> a.work.Patched? || a.work.DoneWithoutPatch?)
    case IntegrateCoder => next.node == SelectCoder || next.node == Aborted
    case IntegrateRepair => next.node == Tester || next.node == Aborted
    case Repair =>
      && (next.node == Aborted <==> a.work.WorkRaised?)
      && (next.node == IntegrateRepair <==> !failed && a.work.Patched?)
      && (next.node == FailedNode <==> !a.work.WorkRaised? && (failed || !a.work.Patched?))
    case Tester => true
    case Reviewer => true
    case SuccessNode => next.node == End
    case FailedNode => next.node == End
    case End => true
    case Aborted => true
  }

  lemma {:induction false} LeastIsFirst(q: seq<PlannedTask>) returns (i: nat)
    requires q != []
    ensures i < |q| && q[i] == Least(q)
    ensures forall j :: 0 <= j < i ==> NameLess(q[i].localId.name, q[j].localId.name)
  {
    if |q| == 1 {
      i := 0;
    } else {
      var front, last := q[..|q| - 1], q[|q| - 1];
      var i1 := LeastIsFirst(front);
      if NameLess(last.localId.name, Least(front).localId.name) {
        i := |q| - 1;
        forall j | 0 <= j < i ensures NameLess(q[i].localId.name, q[j].localId.name) {
          assert q[j] == front[j] && front[j] in front;
          LessThan(last.localId.name, Least(front).localId.name, q[j].localId.name);
        }
      } else {
        i := i1;
        forall j | 0 <= j < i ensures NameLess(q[i].localId.name, q[j].localId.name) {
          assert q[j] == front[j];
        }
      }
    }
  }

  lemma {:induction false} LessThan(a: string, b: string, c: string)
    requires NameLess(a, b) && !NameLess(c, b)
    ensures NameLess(a, c)
    decreases |a|
  {
    if a != "" && c != "" && a[0] == b[0] == c[0] { LessThan(a[1..], b[1..], c[1..]); }
  }

  /** The pickable entries of the plan, in its order. */
  function Pickables(plan: seq<PlannedTask>, done: set<Id>): (r: seq<PlannedTask>) {
    if plan == [] then []
    else
      var front, t := Pickables(plan[..|plan| - 1], done), plan[|plan| - 1];
      if Pickable(t, done) then front + [t] else front
  }

  lemma {:induction false} ReadyIsPickables(plan: seq<PlannedTask>, done: set<Id>)
    ensures CoderPlan.Ready(plan, done) == Pickables(plan, done)
  {
    if plan == [] {
    } else {
      var front, t := plan[..|plan| - 1], plan[|plan| - 1];
      ReadyIsPickables(front, done);
      var rest := Remaining(front, done);
      if t.role == CODER && t.localId !in done {
        assert (rest + [t])[..|rest|] == rest;
      }
    }
  }

  /** Where the i-th pickable entry stands in the plan: all pickable ones before it come before it. */
  lemma {:induction false} PickedFrom(plan: seq<PlannedTask>, done: set<Id>, i: nat) returns (p: nat)
    requires i < |Pickables(plan, done)|
    ensures p < |plan| && plan[p] == Pickables(plan, done)[i] && Pickable(plan[p], done)
    ensures forall j :: 0 <= j < p && Pickable(plan[j], done) ==> plan[j] in Pickables(plan, done)[..i]
  {
    var front, t := plan[..|plan| - 1], plan[|plan| - 1];
    var q := Pickables(front, done);
    if i < |q| {
      p := PickedFrom(front, done, i);
      assert Pickables(plan, done)[..i] == q[..i];
    } else {
      p := |plan| - 1;
      assert Pickables(plan, done)[..i] == q;
      forall j | 0 <= j < p && Pickable(plan[j], done) ensures plan[j] in q {
        assert front[j] == plan[j];
        PickableIsListed(front, done, j);
      }
    }
  }

  lemma {:induction false} PickableIsListed(plan: seq<PlannedTask>, done: set<Id>, j: nat)
    requires j < |plan| && Pickable(plan[j], done)
    ensures plan[j] in Pickables(plan, done)
  {
    if j < |plan| - 1 { PickableIsListed(plan[..|plan| - 1], done, j); }
  }

  lemma NextIsPicked(plan: seq<PlannedTask>, done: set<Id>)
    requires ChooseNext(plan, done).Some?
    ensures Picks(plan, done, ChooseNext(plan, done).value)
  {
    hide Least, NameLess, Pickables, CoderPlan.Ready, Pickable;
    var q := CoderPlan.Ready(plan, done);
    ReadyIsPickables(plan, done);
    var i := LeastIsFirst(q);
    var t := q[i];
    var p := PickedFrom(plan, done, i);
    forall j | 0 <= j < |plan| && Pickable(plan[j], done) ensures !NameLess(plan[j].localId.name, t.localId.name) {
      PickableIsListed(plan, done, j);
    }
    forall j | 0 <= j < p && Pickable(plan[j], done) ensures NameLess(t.localId.name, plan[j].localId.name) {
      assert plan[j] in q[..i];
    }
  }

  /** At any node of any run but the tester and the reviewer. */
  lemma OtherNodesDecide(configs: seq<Config>, answers: seq<Answers>, max: int, k: nat)
    requires Run(configs, answers, max) && k < |answers|
    ensures Otherwise(configs[k], answers[k], configs[k + 1])
  {
    hide Accepted, ChooseNext, Picks, CoderIds, Paced, Execute, Route, Otherwise;
    var c := configs[k];
    assert configs[k + 1] == Next(c, answers[k], max);
    StartsAtPlanner(configs, answers, max);
    if c.node == SelectCoder {
      SelectionDecides(configs, answers, max, k);
    } else if c.node == Coder {
      BudgetAlongRun(configs, answers, max, k);
      PacedCoder(c, max);
      CoderDecides(c, answers[k], max);
    } else if c.node == Repair {
      RepairDecides(c, answers[k], max);
    } else {
      PlainNodes(c, answers[k], max);
    }
  }

  lemma CoderDecides(c: Config, a: Answers, max: int)
    requires c.node == Coder && !c.state.status.FailedRun? && c.state.active.Some?
    ensures Otherwise(c, a, Next(c, a, max))
  {
    hide Picks, CoderIds;
  }

  lemma RepairDecides(c: Config, a: Answers, max: int)
    requires c.node == Repair
    ensures Otherwise(c, a, Next(c, a, max))
  {
    hide Picks, CoderIds, Base;
  }

  lemma PlainNodes(c: Config, a: Answers, max: int)
    requires c.node !in {SelectCoder, Coder, Repair}
    ensures Otherwise(c, a, Next(c, a, max))
  {
    hide Accepted, Picks, CoderIds, Integrate, RunIntegrateCoder, RunTester, RunReviewer, RouteAfterTest,
      RouteAfterReview;
  }

  lemma PacedCoder(c: Config, max: int)
    requires Paced(c, max) && c.node == Coder
    ensures !c.state.status.FailedRun? && c.state.active.Some? && c.state.pending == []
  {
  }

  lemma SelectionDecides(configs: seq<Config>, answers: seq<Answers>, max: int, k: nat)
    requires Run(configs, answers, max) && k < |answers| && configs[k].node == SelectCoder
    ensures Otherwise(configs[k], answers[k], configs[k + 1])
  {
    hide Accepted, ChooseNext, Picks, CoderIds;
    var c := configs[k];
    assert configs[k + 1] == Next(c, answers[k], max);
    if !c.state.status.FailedRun? {
      SelectionIsNeverStuck(configs, answers, max, k);
      if Remaining(c.state.plan, c.state.completed) != [] {
        RemainingIsLeft(c.state.plan, c.state.completed);
        NextIsPicked(c.state.plan, c.state.completed);
      }
    }
  }

  lemma RemainingIsLeft(plan: seq<PlannedTask>, done: set<Id>)
    requires Remaining(plan, done) != []
    ensures !(CoderIds(plan) <= done)
  {
    var t := Remaining(plan, done)[0];
    assert t in Remaining(plan, done) && t.localId in CoderIds(plan);
  }

  // ---- when a run has failed ----

  /** The i-th step fails the run: the planner failed or its plan is not accepted; a coder or a repair
      failed or handed nothing over; the patch touches a private file or was not integrated; the
      reviewer failed; or the run went to the failed node. */
  ghost predicate FailsAt(configs: seq<Config>, answers: seq<Answers>, i: nat)
    requires i < |configs| && i < |answers|
  {
    var a := answers[i];
    match configs[i].node
    case Planner => a.plan.PlanFailed? || (a.plan.Planned? && !Accepted(a.plan.tasks))
    case SelectCoder => false
    case Coder => a.work.WorkFailed? || a.work.NoPatch?
    case IntegrateCoder =>
      i > 0 &&
        (|| answers[i - 1].work.DoneWithoutPatch?
         || (answers[i - 1].work.Patched? && TouchesPrivate(answers[i - 1].work.patch))
         || a.integration.NotIntegrated?)
    case IntegrateRepair => a.integration.NotIntegrated?
    case Tester => false
    case Repair => a.work.WorkFailed? || a.work.NoPatch? || a.work.DoneWithoutPatch?
    case Reviewer => a.review.ReviewFailed?
    case SuccessNode => false
    case FailedNode => true
    case End => false
    case Aborted => false
  }

  /** An integration follows on the call that handed it its patch. */
  lemma BeforeIntegration(configs: seq<Config>, answers: seq<Answers>, max: int, k: nat)
    requires Run(configs, answers, max) && k < |configs|
    requires configs[k].node == IntegrateCoder || configs[k].node == IntegrateRepair
    ensures k >= 1 && !configs[k].state.status.FailedRun?
    ensures configs[k].node == IntegrateRepair ==> configs[k].state.pending != []
    ensures configs[k].node == IntegrateCoder ==>
      match answers[k - 1].work
      case Patched(p) => configs[k].state.pending == [p] && configs[k].state.active.Some?
      case DoneWithoutPatch => configs[k].state.pending == []
      case _ => false
  {
    hide Accepted, ChooseNext, LeaksPrivateFile, TouchesPrivate, Paced, CoderIds;
    StartsAtPlanner(configs, answers, max);
    var c := configs[k - 1];
    assert configs[k - 1 + 1] == Next(c, answers[k - 1], max);
    StartsAtPlanner(configs, answers, max);
    if c.node == Coder {
      BudgetAlongRun(configs, answers, max, k - 1);
      PacedCoder(c, max);
      if answers[k - 1].work.Patched? {
        assert c.state.pending + [answers[k - 1].work.patch] == [answers[k - 1].work.patch];
      }
    }
  }

  /** An integration stops the run half way exactly if the service is asked and raises. */
  lemma IntegrationDecides(configs: seq<Config>, answers: seq<Answers>, max: int, k: nat)
    requires Run(configs, answers, max) && k < |answers|
    requires configs[k].node == IntegrateCoder || configs[k].node == IntegrateRepair
    ensures k >= 1
    ensures configs[k + 1].node == Aborted <==>
      && answers[k].integration.IntegrationRaised?
      && (configs[k].node == IntegrateCoder ==>
            answers[k - 1].work.Patched? && !TouchesPrivate(answers[k - 1].work.patch))
  {
    hide Accepted, ChooseNext, LeaksPrivateFile, TouchesPrivate;
    BeforeIntegration(configs, answers, max, k);
    NothingLeaks();
    if answers[k - 1].work.Patched? { LeaksIff(answers[k - 1].work.patch); }
    assert configs[k + 1] == Next(configs[k], answers[k], max);
  }

  lemma OneStepFails(configs: seq<Config>, answers: seq<Answers>, max: int, k: nat)
    requires Run(configs, answers, max) && k < |answers| && !configs[k].state.status.FailedRun?
    ensures configs[k + 1].state.status.FailedRun? <==> FailsAt(configs, answers, k)
  {
    hide Accepted, ChooseNext, LeaksPrivateFile, TouchesPrivate, CoderIds, Paced;
    var c := configs[k];
    assert configs[k + 1] == Next(c, answers[k], max);
    StartsAtPlanner(configs, answers, max);
    if c.node == SelectCoder {
      SelectionIsNeverStuck(configs, answers, max, k);
    } else if c.node == Coder {
      BudgetAlongRun(configs, answers, max, k);
      PacedCoder(c, max);
    } else if c.node == IntegrateCoder || c.node == IntegrateRepair {
      BeforeIntegration(configs, answers, max, k);
      NothingLeaks();
      if answers[k - 1].work.Patched? { LeaksIff(answers[k - 1].work.patch); }
    }
  }

  lemma NothingLeaks()
    ensures !LeaksPrivateFile([])
  {
  }

  /** At every point of every run: it has failed exactly if one of its steps failed it. */
  lemma {:induction false} FailedIff(configs: seq<Config>, answers: seq<Answers>, max: int, k: nat)
    requires Run(configs, answers, max) && k < |configs|
    ensures configs[k].state.status.FailedRun? <==> exists i :: 0 <= i < k && FailsAt(configs, answers, i)
  {
    hide Next, FailsAt;
    if k == 0 {
      StartsOpen(configs, answers, max);
    } else {
      FailedIff(configs, answers, max, k - 1);
      if configs[k - 1].state.status.FailedRun? {
        FailureIsAbsorbing(configs, answers, max, k - 1, k);
      } else {
        OneStepFails(configs, answers, max, k - 1);
      }
    }
  }

  lemma StartsOpen(configs: seq<Config>, answers: seq<Answers>, max: int)
    requires Run(configs, answers, max)
    ensures configs[0].state.status == Open
  {
  }

  // ---- which tasks are completed ----

  /** Step i completes the active task: the coder reports it done, or its patch is integrated. */
  ghost predicate Completes(configs: seq<Config>, answers: seq<Answers>, i: nat, id: Id)
    requires i < |configs| && i < |answers|
  {
    && configs[i].state.active.Some? && configs[i].state.active.value.localId == id
    && (|| (configs[i].node == Coder && answers[i].work.DoneWithoutPatch?)
        || (configs[i].node == IntegrateCoder && answers[i].integration.IntegrationOk? &&
            !FailsAt(configs, answers, i)))
  }

  lemma OneStepCompletes(configs: seq<Config>, answers: seq<Answers>, max: int, k: nat, id: Id)
    requires Run(configs, answers, max) && k < |answers|
    ensures id in configs[k + 1].state.completed <==>
      id in configs[k].state.completed || Completes(configs, answers, k, id)
  {
    hide Accepted, ChooseNext, LeaksPrivateFile, TouchesPrivate, CoderIds, Paced, RunTester, RunReviewer, RunRepair;
    var c := configs[k];
    assert configs[k + 1] == Next(c, answers[k], max);
    StartsAtPlanner(configs, answers, max);
    if c.node == Coder {
      BudgetAlongRun(configs, answers, max, k);
      PacedCoder(c, max);
    } else if c.node == IntegrateCoder {
      BeforeIntegration(configs, answers, max, k);
      NothingLeaks();
      if answers[k - 1].work.Patched? { LeaksIff(answers[k - 1].work.patch); }
    } else {
      OthersCompleteNothing(c, answers[k], max);
    }
  }

  lemma OthersCompleteNothing(c: Config, a: Answers, max: int)
    requires c.node != Coder && c.node != IntegrateCoder
    ensures Next(c, a, max).state.completed == c.state.completed
  {
    hide Accepted, ChooseNext;
  }

  /** At every point of every run the completed tasks are those whose turn ended well. */
  lemma {:induction false} CompletedIff(configs: seq<Config>, answers: seq<Answers>, max: int, k: nat, id: Id)
    requires Run(configs, answers, max) && k < |configs|
    ensures id in configs[k].state.completed <==> exists i :: 0 <= i < k && Completes(configs, answers, i, id)
  {
    hide Next, Completes;
    if k == 0 {
      NothingCompleted(configs, answers, max);
    } else {
      CompletedIff(configs, answers, max, k - 1, id);
      OneStepCompletes(configs, answers, max, k - 1, id);
    }
  }

  lemma NothingCompleted(configs: seq<Config>, answers: seq<Answers>, max: int)
    requires Run(configs, answers, max)
    ensures configs[0].state.completed == {}
  {
  }

  // ---- how a run ends ----

  /** A run that has come to its end has succeeded exactly if its last review approved and no step
      before it failed the run; else it has failed. */
  lemma VerdictIff(configs: seq<Config>, answers: seq<Answers>, max: int, k: nat)
    requires Run(configs, answers, max) && k < |configs| && configs[k].node == End
    ensures k >= 2
    ensures configs[k].state.status.Succeeded? <==>
      && configs[k - 2].node == Reviewer && answers[k - 2].review == ReviewGiven(true)
      && forall i :: 0 <= i < k - 2 ==> !FailsAt(configs, answers, i)
    ensures configs[k].state.status.Succeeded? || configs[k].state.status.FailedRun?
  {
    hide Accepted, ChooseNext, LeaksPrivateFile, FailsAt, RepairsMade;
    StartsAtPlanner(configs, answers, max);
    EndFollows(configs, answers, max, k);
    StartsAtPlanner(configs, answers, max);
    assert configs[k - 1 + 1] == Next(configs[k - 1], answers[k - 1], max);
    OtherNodesDecide(configs, answers, max, k - 2);
    TestAndReviewDecide(configs, answers, max, k - 2);
    FailedIff(configs, answers, max, k - 2);
  }

  lemma EndFollows(configs: seq<Config>, answers: seq<Answers>, max: int, k: nat)
    requires Run(configs, answers, max) && k < |configs| && configs[k].node == End
    ensures k >= 2 && (configs[k - 1].node == SuccessNode || configs[k - 1].node == FailedNode)
  {
    hide Accepted, ChooseNext, LeaksPrivateFile, TouchesPrivate;
    StartsAtPlanner(configs, answers, max);
    assert configs[k - 1 + 1] == Next(configs[k - 1], answers[k - 1], max);
  }

  // ---- runs in which everything goes well ----

  /** The plan is the accepted one given, patches touch no private file and are integrated on the
      current commit, the tests pass and the review approves. */
  ghost predicate Good(c: Config, a: Answers, tasks: seq<PlannedTask>) {
    && a.plan == Planned(tasks) && a.work.Patched? && !TouchesPrivate(a.work.patch)
    && a.test == TestRan(0) && a.review == ReviewGiven(true)
    && a.integration.IntegrationOk? && Honest(c, a)
  }

  ghost predicate AllGood(configs: seq<Config>, answers: seq<Answers>, tasks: seq<PlannedTask>) {
    |configs| == |answers| + 1 && forall i :: 0 <= i < |answers| ==> Good(configs[i], answers[i], tasks)
  }

  predicate OnTrack(node: GraphNode) {
    node in {Planner, SelectCoder, Coder, IntegrateCoder, Tester, Reviewer, SuccessNode, End}
  }

  lemma GoodStep(configs: seq<Config>, answers: seq<Answers>, max: int, tasks: seq<PlannedTask>, k: nat)
    requires Run(configs, answers, max) && k < |answers| && Good(configs[k], answers[k], tasks) && Accepted(tasks)
    requires k > 0 ==> Good(configs[k - 1], answers[k - 1], tasks)
    requires OnTrack(configs[k].node) && !configs[k].state.status.FailedRun?
    ensures OnTrack(configs[k + 1].node) && !configs[k + 1].state.status.FailedRun?
  {
    hide Accepted, TouchesPrivate, RepairsMade, Picks, Next;
    OneStepFails(configs, answers, max, k);
    TestAndReviewDecide(configs, answers, max, k);
    OtherNodesDecide(configs, answers, max, k);
    if configs[k].node == IntegrateCoder { IntegrationDecides(configs, answers, max, k); }
  }

  /** A run whose every answer is good never fails, never needs a repair and never stops half way;
      and if it has come to its end it has succeeded. */
  lemma {:induction false} GoodRunsSucceed(configs: seq<Config>, answers: seq<Answers>, max: int,
                                           tasks: seq<PlannedTask>, k: nat)
    requires Run(configs, answers, max) && AllGood(configs, answers, tasks) && Accepted(tasks) && k < |configs|
    ensures OnTrack(configs[k].node) && !configs[k].state.status.FailedRun?
    ensures configs[k].node == End ==> configs[k].state.status.Succeeded?
  {
    hide Accepted, Next, Good, OnTrack;
    if k == 0 {
      PlannerIsOnTrack();
    } else {
      GoodRunsSucceed(configs, answers, max, tasks, k - 1);
      GoodStep(configs, answers, max, tasks, k - 1);
    }
    if configs[k].node == End { VerdictIff(configs, answers, max, k); }
  }

  lemma PlannerIsOnTrack()
    ensures OnTrack(Planner)
  {
  }

  /** And there is such a run: every accepted plan can be brought to success. */
  lemma SuccessIsPossible(tasks: seq<PlannedTask>, base: string, max: int, patch: Patch, commit: string)
    returns (configs: seq<Config>, answers: seq<Answers>)
    requires Accepted(tasks) && !TouchesPrivate(patch) && commit != ""
    ensures Run(configs, answers, max) && AllGood(configs, answers, tasks)
    ensures configs[0].state.baseCommit == base && configs[|answers|].state.plan == tasks
    ensures configs[|answers|].node == End && configs[|answers|].state.status.Succeeded?
  {
    hide Accepted, TouchesPrivate;
    configs, answers := GoOn([Config(Planner, Initial(base))], [], tasks, base, max, patch, commit);
    GoodRunsSucceed(configs, answers, max, tasks, |answers|);
    StartsAtPlanner(configs, answers, max);
    PlanIsTaken(configs, answers, max, tasks);
  }

  lemma PlanIsTaken(configs: seq<Config>, answers: seq<Answers>, max: int, tasks: seq<PlannedTask>)
    requires Run(configs, answers, max) && AllGood(configs, answers, tasks) && Accepted(tasks)
    ensures |answers| >= 1 ==> configs[|answers|].state.plan == tasks
  {
    hide Accepted, TouchesPrivate;
    if |answers| >= 1 {
      assert configs[0 + 1] == Next(configs[0], answers[0], max);
      PlanIsFixed(configs, answers, max, 1, |answers|);
    }
  }

  /** A good run is continued to its end by good answers. */
  lemma {:induction false} GoOn(configs: seq<Config>, answers: seq<Answers>, tasks: seq<PlannedTask>, base: string,
                                max: int, patch: Patch, commit: string)
    returns (configs': seq<Config>, answers': seq<Answers>)
    requires Accepted(tasks) && !TouchesPrivate(patch) && commit != ""
    requires Run(configs, answers, max) && AllGood(configs, answers, tasks) && configs[0].state.baseCommit == base
    ensures Run(configs', answers', max) && AllGood(configs', answers', tasks) && configs'[0].state.baseCommit == base
    ensures configs'[|answers'|].node == End
    decreases 3 * |CoderIds(tasks)| + 4 * (if max > 0 then max else 0) + 5 - |answers|
  {
    hide Accepted, TouchesPrivate, Next, OnTrack;
    var c := configs[|answers|];
    GoodRunsSucceed(configs, answers, max, tasks, |answers|);
    if c.node == End {
      configs', answers' := configs, answers;
    } else {
      NotAborted(c.node);
      var a := Answers(Planned(tasks), Patched(patch), TestRan(0), ReviewGiven(true),
                       IntegrationOk(Base(c.state), Some(commit)));
      var cs, as1 := configs + [Next(c, a, max)], answers + [a];
      OneMore(configs, answers, max, tasks, a);
      RunsAreShort(cs, as1, max);
      PlanIsTaken(cs, as1, max, tasks);
      configs', answers' := GoOn(cs, as1, tasks, base, max, patch, commit);
    }
  }

  lemma NotAborted(node: GraphNode)
    requires OnTrack(node)
    ensures node != Aborted
  {
  }

  lemma OneMore(configs: seq<Config>, answers: seq<Answers>, max: int, tasks: seq<PlannedTask>, a: Answers)
    requires Run(configs, answers, max) && AllGood(configs, answers, tasks)
    requires configs[|answers|].node != End && configs[|answers|].node != Aborted
    requires Good(configs[|answers|], a, tasks)
    ensures Run(configs + [Next(configs[|answers|], a, max)], answers + [a], max)
    ensures AllGood(configs + [Next(configs[|answers|], a, max)], answers + [a], tasks)
  {
    hide Next, Good;
    var cs, as1 := configs + [Next(configs[|answers|], a, max)], answers + [a];
    forall i | 0 <= i < |as1|
      ensures cs[i].node != End && cs[i].node != Aborted && cs[i + 1] == Next(cs[i], as1[i], max)
      ensures Good(cs[i], as1[i], tasks)
    {
      if i < |answers| { assert configs[i + 1] == Next(configs[i], answers[i], max); }
    }
  }
}
