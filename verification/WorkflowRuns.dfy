/** Soundness of success, absorption of failure and a bound on the length of every run. */
module WorkflowRuns {
  import opened Graphs
  import opened Tasks
  import opened CoderPlan
  import opened Workflow

  // ---- invariant ----

  /** What the log, the history and the current commit have to do with each other, at every node. */
  ghost predicate ChainInv(s: WState) {
    && (s.integrated.Some? ==> s.integrated.value != "")
    && (Links(s.log) != [] ==> s.integrated.Some?)
    && IsChain(s.baseCommit, Links(s.log), Base(s))
    && HistoryLinks(s.history) <= Links(s.log)
    && Repairs(s.log) == s.repairRound
  }

  /** Every completed coder id has an integrated patch, no id twice. */
  ghost predicate HistoryInv(s: WState) {
    && s.completed == HistoryIds(s.history) <= CoderIds(s.plan)
    && |HistoryIds(s.history)| == |s.history|
    && DependenciesFirst(s.plan, s.history)
  }

  ghost predicate HasReadyEntry(plan: seq<PlannedTask>, id: Id, done: set<Id>) {
    exists t :: t in plan && t.role == CODER && t.localId == id && IsReady(t, done)
  }

  /** Each integrated task comes after everything it depends on. */
  ghost predicate DependenciesFirst(plan: seq<PlannedTask>, h: seq<Entry>) {
    forall i :: 0 <= i < |h| ==> HasReadyEntry(plan, h[i].task, HistoryIds(h[..i]))
  }

  /** The task handed to the coder: unfinished, a coder of the plan, dependencies completed. */
  ghost predicate ActiveOk(s: WState) {
    && s.active.Some? && s.active.value.localId !in s.completed
    && s.active.value in s.plan && s.active.value.role == CODER && IsReady(s.active.value, s.completed)
  }

  ghost predicate AllCodersDone(s: WState) {
    Accepted(s.plan) && CoderIds(s.plan) <= s.completed
  }

  predicate LastTestPassed(s: WState) {
    s.log != [] && s.log[|s.log| - 1] == Tested(Base(s), 0)
  }

  ghost predicate CoderPhase(s: WState) {
    Accepted(s.plan) && HistoryInv(s) && HistoryLinks(s.history) == Links(s.log)
  }

  ghost predicate RepairPhase(s: WState) {
    AllCodersDone(s) && HistoryInv(s)
  }

  /** What holds on entry to each node while the run has not failed. */
  ghost predicate NodeInv(node: GraphNode, s: WState) {
    match node
    case Planner => s == Initial(s.baseCommit)
    case SelectCoder => CoderPhase(s) && s.pending == []
    case Coder => CoderPhase(s) && s.pending == [] && ActiveOk(s)
    case IntegrateCoder =>
      || (CoderPhase(s) && |s.pending| == 1 && ActiveOk(s))
      || (s.active.None? && s.pending == [])
    case Tester => RepairPhase(s) && s.pending == []
    case Reviewer => RepairPhase(s) && s.pending == [] && LastTestPassed(s)
    case Repair => RepairPhase(s) && s.pending == []
    case IntegrateRepair => RepairPhase(s) && |s.pending| == 1
    case SuccessNode => RepairPhase(s) && ApprovedAndTested(s)
    case FailedNode => true
    case End => s.status.Succeeded? ==> RepairPhase(s) && ApprovedAndTested(s)
    case Aborted => true
  }

  /** The last two calls were a passing test and an approving review of the current commit. */
  ghost predicate ApprovedAndTested(s: WState) {
    && |s.log| >= 2
    && s.log[|s.log| - 2] == Tested(Base(s), 0)
    && s.log[|s.log| - 1] == Reviewed(Base(s), true)
  }

  ghost predicate Inv(c: Config, max: int) {
    && ChainInv(c.state)
    && (c.state.status.Succeeded? ==> c.node.End?)
    && (c.node.SuccessNode? ==> !c.state.status.FailedRun?)
    && (!c.state.status.FailedRun? ==> NodeInv(c.node, c.state))
    && c.state.repairRound <= (if max > 0 then max else 0)
    && (c.node.Repair? ==> c.state.repairRound < max)
  }

  // ---- log lemmas ----

  lemma LinksAppend(log: seq<Event>, e: Event)
    ensures Links(log + [e]) == if e.Integrated? then Links(log) + [Link(e.base, e.commit)] else Links(log)
    ensures Repairs(log + [e]) == Repairs(log) + if e.RepairRequested? then 1 else 0
  {
    assert (log + [e])[..|log|] == log;
  }

  lemma ChainAppend(start: string, links: seq<Link>, mid: string, end: string)
    requires IsChain(start, links, mid)
    ensures IsChain(start, links + [Link(mid, end)], end)
  {
    assert (links + [Link(mid, end)])[..|links|] == links;
  }

  /** Logging something other than an integration leaves the chain alone. */
  lemma LogKeepsChain(s: WState, s': WState, e: Event)
    requires ChainInv(s) && !e.Integrated? && s'.log == s.log + [e] && s'.history == s.history
    requires s'.baseCommit == s.baseCommit && s'.integrated == s.integrated
    requires s'.repairRound == s.repairRound + if e.RepairRequested? then 1 else 0
    ensures ChainInv(s') && Links(s'.log) == Links(s.log)
  {
    LinksAppend(s.log, e);
  }

  /** An honest integration extends the chain. */
  lemma IntegrateKeepsChain(s: WState, a: IntegrationAnswer)
    requires ChainInv(s) && s.pending != [] && a.IntegrationOk?
    requires a.base == Base(s) && a.commit.Some? && a.commit.value != ""
    ensures Integrate(s, a).Some?
    ensures
      var s' := Integrate(s, a).value;
      && ChainInv(s') && Links(s'.log) == Links(s.log) + [Link(a.base, a.commit.value)]
  {
    var s' := Integrate(s, a).value;
    LinksAppend(s.log, Integrated(a.base, a.commit.value));
    ChainAppend(s.baseCommit, Links(s.log), Base(s), a.commit.value);
  }

  lemma HistoryAppend(h: seq<Entry>, e: Entry)
    ensures HistoryIds(h + [e]) == HistoryIds(h) + {e.task}
    ensures HistoryLinks(h + [e]) == HistoryLinks(h) + [Link(e.base, e.commit)]
  {
  }

  lemma OrderAppend(plan: seq<PlannedTask>, h: seq<Entry>, e: Entry)
    requires DependenciesFirst(plan, h) && HasReadyEntry(plan, e.task, HistoryIds(h))
    ensures DependenciesFirst(plan, h + [e])
  {
    hide HasReadyEntry, HistoryIds;
    var h' := h + [e];
    forall i | 0 <= i < |h'| ensures HasReadyEntry(plan, h'[i].task, HistoryIds(h'[..i])) {
      assert h'[..i] == h[..i];
      assert h[..|h|] == h;
    }
  }

  /** Integrating the active task's patch extends the history by it. */
  lemma HistoryGrows(s: WState, e: Entry)
    requires HistoryInv(s) && ActiveOk(s) && e.task == s.active.value.localId
    ensures HistoryInv(s.(history := s.history + [e], completed := s.completed + {e.task}))
  {
    hide IsReady;
    HistoryAppend(s.history, e);
    assert HasReadyEntry(s.plan, e.task, HistoryIds(s.history));
    OrderAppend(s.plan, s.history, e);
  }

  /** ChainInv looks at five fields only, HistoryInv at three. */
  lemma Frames(s: WState, s': WState)
    requires s'.log == s.log && s'.history == s.history && s'.integrated == s.integrated
    requires s'.baseCommit == s.baseCommit && s'.repairRound == s.repairRound
    ensures ChainInv(s) ==> ChainInv(s')
    ensures s'.plan == s.plan && s'.completed == s.completed && HistoryInv(s) ==> HistoryInv(s')
    ensures s'.plan == s.plan && s'.completed == s.completed && CoderPhase(s) ==> CoderPhase(s')
  {
    hide Links, Repairs, HistoryLinks, IsChain, Accepted, HistoryIds, DependenciesFirst;
  }

  lemma IntegrateCoderSucceeds(s: WState, a: IntegrationAnswer)
    requires ChainInv(s) && CoderPhase(s) && |s.pending| == 1 && ActiveOk(s) && !s.status.FailedRun?
    requires !LeaksPrivateFile(s.pending)
    requires a.IntegrationOk? && a.base == Base(s) && a.commit.Some? && a.commit.value != ""
    ensures RunIntegrateCoder(s, a).Some?
    ensures
      var s' := RunIntegrateCoder(s, a).value;
      ChainInv(s') && CoderPhase(s') && s'.pending == [] && s'.status == s.status && s'.repairRound == s.repairRound
  {
    hide Links, Repairs, HistoryLinks, IsChain, Accepted, HistoryIds, DependenciesFirst, LeaksPrivateFile, ActiveOk;
    assert s.active.Some? by { ActiveFacts(s); }
    var id := s.active.value.localId;
    var e := Entry(id, a.base, a.commit.value);
    var s' := RunIntegrateCoder(s, a).value;
    IntegrateKeepsChain(s, a);
    HistoryAppend(s.history, e);
    HistoryGrows(s, e);
  }

  lemma ActiveFacts(s: WState)
    requires ActiveOk(s)
    ensures s.active.Some?
  {
  }

  // ---- one step ----

  lemma PlannerKeeps(s: WState, a: Answers, max: int)
    requires Inv(Config(Planner, s), max)
    ensures Inv(Next(Config(Planner, s), a, max), max)
  {
    hide Accepted;
    assert HistoryIds([]) == {};
  }

  lemma SelectKeeps(s: WState, a: Answers, max: int)
    requires Inv(Config(SelectCoder, s), max)
    ensures Inv(Next(Config(SelectCoder, s), a, max), max)
  {
    hide Accepted, ChooseNext, ChainInv, HistoryInv, CoderPhase, IsReady, CoderIds;
    Frames(s, RunSelect(s));
    if !s.status.FailedRun? {
      SelectFacts(s);
    }
  }

  lemma EmptyDifference(a: set<Id>, b: set<Id>)
    requires a - b == {}
    ensures a <= b
  {
    forall x | x in a ensures x in b {
      assert x !in a - b;
    }
  }

  lemma SelectFacts(s: WState)
    requires CoderPhase(s) && s.pending == [] && !s.status.FailedRun?
    ensures RunSelect(s).active.None? ==> RepairPhase(RunSelect(s))
    ensures RunSelect(s).active.Some? ==> ActiveOk(RunSelect(s))
    ensures RunSelect(s).status == s.status
  {
    hide Accepted, ChooseNext, HistoryIds, DependenciesFirst, HistoryLinks, Links, CoderIds;
    if Remaining(s.plan, s.completed) == [] {
      NoRemainingIds(s.plan, s.completed);
      EmptyDifference(CoderIds(s.plan), s.completed);
    } else {
      ReadyExists(s.plan, s.completed);
      NextFacts(s.plan, s.completed);
    }
  }

  lemma CoderKeeps(s: WState, a: Answers, max: int)
    requires Inv(Config(Coder, s), max)
    ensures Inv(Next(Config(Coder, s), a, max), max)
  {
    hide ChainInv, HistoryInv, CoderPhase, IsReady;
    Frames(s, Fail(s));
    if a.work.Patched? { Frames(s, s.(pending := s.pending + [a.work.patch])); }
    if a.work.DoneWithoutPatch? && s.active.Some? {
      Frames(s, s.(completed := s.completed + {s.active.value.localId}, active := None));
    }
  }

  lemma IntegrateCoderKeeps(s: WState, a: Answers, max: int)
    requires Inv(Config(IntegrateCoder, s), max) && Honest(Config(IntegrateCoder, s), a)
    ensures Inv(Next(Config(IntegrateCoder, s), a, max), max)
  {
    hide Accepted, LeaksPrivateFile, ChainInv, HistoryInv, CoderPhase, ActiveOk;
    Frames(s, s.(active := None));
    Frames(s, Fail(s));
    if !s.status.FailedRun? && s.pending != [] && !LeaksPrivateFile(s.pending) && a.integration.IntegrationOk? {
      IntegrateCoderSucceeds(s, a.integration);
    }
  }

  lemma IntegrateRepairKeeps(s: WState, a: Answers, max: int)
    requires Inv(Config(IntegrateRepair, s), max) && Honest(Config(IntegrateRepair, s), a)
    ensures Inv(Next(Config(IntegrateRepair, s), a, max), max)
  {
    hide ChainInv, RepairPhase, CoderPhase, ActiveOk, LastTestPassed, ApprovedAndTested;
    Frames(s, Fail(s));
    LogKeepsPhase(s, Fail(s));
    if s.pending != [] && a.integration.IntegrationOk? {
      IntegrateKeepsChain(s, a.integration);
      LogKeepsPhase(s, Integrate(s, a.integration).value);
    }
  }

  lemma TesterKeeps(s: WState, a: Answers, max: int)
    requires Inv(Config(Tester, s), max)
    ensures Inv(Next(Config(Tester, s), a, max), max)
  {
    hide ChainInv, RepairPhase, CoderPhase, ActiveOk, LastTestPassed, ApprovedAndTested, Base;
    if !a.test.TestRaised? {
      var s' := RunTester(s, a.test).value;
      LogKeepsChain(s, s', Tested(Base(s), s'.testReturncode.value));
      LogKeepsPhase(s, s');
      if s'.testReturncode == Some(0) { TestIsLogged(s, s'); }
    }
  }

  lemma TestIsLogged(s: WState, s': WState)
    requires s'.log == s.log + [Tested(Base(s), 0)] && s'.integrated == s.integrated && s'.baseCommit == s.baseCommit
    ensures LastTestPassed(s')
  {
  }

  lemma RepairKeeps(s: WState, a: Answers, max: int)
    requires Inv(Config(Repair, s), max)
    ensures Inv(Next(Config(Repair, s), a, max), max)
  {
    hide ChainInv, RepairPhase, CoderPhase, ActiveOk, LastTestPassed, ApprovedAndTested, Base;
    if !a.work.WorkRaised? {
      var s' := RunRepair(s, a.work).value;
      LogKeepsChain(s, s', RepairRequested(Base(s)));
      LogKeepsPhase(s, s');
    }
  }

  lemma ReviewerKeeps(s: WState, a: Answers, max: int)
    requires Inv(Config(Reviewer, s), max)
    ensures Inv(Next(Config(Reviewer, s), a, max), max)
  {
    hide ChainInv, RepairPhase, CoderPhase, ActiveOk, LastTestPassed, ApprovedAndTested, Base;
    Frames(s, Fail(s));
    if a.review.ReviewGiven? {
      var s' := RunReviewer(s, a.review).value;
      LogKeepsChain(s, s', Reviewed(Base(s), a.review.approved));
      LogKeepsPhase(s, s');
      if LastTestPassed(s) && a.review.approved { ApprovalFollowsTest(s, s'); }
    }
  }

  lemma ApprovalFollowsTest(s: WState, s': WState)
    requires LastTestPassed(s) && s'.integrated == s.integrated && s'.baseCommit == s.baseCommit
    requires s'.log == s.log + [Reviewed(Base(s), true)]
    ensures ApprovedAndTested(s')
  {
  }

  /** The repair phase looks at the plan, the completed ids and the history only. */
  lemma LogKeepsPhase(s: WState, s': WState)
    requires s'.plan == s.plan && s'.completed == s.completed && s'.history == s.history
    ensures RepairPhase(s) ==> RepairPhase(s')
  {
    hide Accepted, HistoryIds, DependenciesFirst, CoderIds;
  }

  lemma StepKeeps(c: Config, a: Answers, max: int)
    requires Inv(c, max) && Honest(c, a) && c.node != End && c.node != Aborted
    ensures Inv(Next(c, a, max), max)
  {
    hide Accepted, IsChain, ChainInv, Next, Honest;
    match c.node
    case Planner => PlannerKeeps(c.state, a, max);
    case SelectCoder => SelectKeeps(c.state, a, max);
    case Coder => CoderKeeps(c.state, a, max);
    case IntegrateCoder => IntegrateCoderKeeps(c.state, a, max);
    case IntegrateRepair => IntegrateRepairKeeps(c.state, a, max);
    case Tester => TesterKeeps(c.state, a, max);
    case Repair => RepairKeeps(c.state, a, max);
    case Reviewer => ReviewerKeeps(c.state, a, max);
    case SuccessNode => FinalKeeps(c, a, max);
    case FailedNode => FinalKeeps(c, a, max);
  }

  lemma FinalKeeps(c: Config, a: Answers, max: int)
    requires Inv(c, max) && (c.node.SuccessNode? || c.node.FailedNode?)
    ensures Inv(Next(c, a, max), max)
  {
    hide Accepted, IsChain;
  }

  lemma {:induction false} RunKeeps(configs: seq<Config>, answers: seq<Answers>, max: int, k: nat)
    requires Run(configs, answers, max) && AllHonest(configs, answers) && k < |configs|
    ensures Inv(configs[k], max)
  {
    hide Inv, Next, Honest;
    if k == 0 {
      InitialInv(configs[0].state.baseCommit, max);
    } else {
      RunKeeps(configs, answers, max, k - 1);
      StepKeeps(configs[k - 1], answers[k - 1], max);
      assert configs[k - 1 + 1] == Next(configs[k - 1], answers[k - 1], max);
    }
  }

  lemma InitialInv(baseCommit: string, max: int)
    ensures Inv(Config(Planner, Initial(baseCommit)), max)
  {
  }

  // ---- theorems ----

  /** Reaching the success node means: every planned coder id has exactly one integrated patch in
      the history, after those it depends on; the history is a chain of commits from base_commit,
      continued by the repairs up to the final commit; and the last two calls were a test with
      return code zero and an approving review, both of that final commit. */
  lemma SuccessIsSound(configs: seq<Config>, answers: seq<Answers>, max: int, k: nat)
    requires Run(configs, answers, max) && AllHonest(configs, answers)
    requires k < |configs| && configs[k].node.SuccessNode?
    ensures
      var s := configs[k].state;
      && Accepted(s.plan)
      && CoderIds(s.plan) == HistoryIds(s.history) && |HistoryIds(s.history)| == |s.history|
      && DependenciesFirst(s.plan, s.history)
      && s.integrated.Some? && s.integrated.value != ""
      && HistoryLinks(s.history) <= Links(s.log)
      && IsChain(s.baseCommit, Links(s.log), s.integrated.value)
      && |s.log| >= 2
      && s.log[|s.log| - 2] == Tested(s.integrated.value, 0)
      && s.log[|s.log| - 1] == Reviewed(s.integrated.value, true)
  {
    hide IsChain, Links, Repairs, HistoryLinks, HistoryIds, Accepted, DependenciesFirst, CoderIds, Run, AllHonest;
    RunKeeps(configs, answers, max, k);
    IntegratedIsSet(configs[k].state);
  }

  /** An accepted plan has a coder, so success means something was integrated. */
  lemma IntegratedIsSet(s: WState)
    requires ChainInv(s) && RepairPhase(s)
    ensures s.integrated.Some?
  {
    hide DependenciesAreCoders, Acyclic, DependenciesFirst;
    var t := CoderItems(s.plan)[0];
    assert t in CoderItems(s.plan);
    assert t.localId in HistoryIds(s.history);
  }

  /** A run that has failed never succeeds: no later node is the success node, not even through
      integrate_repair, tester and reviewer, and the status stays FAILED. No assumption about the
      integration service is needed. */
  lemma {:induction false} FailureIsAbsorbing(configs: seq<Config>, answers: seq<Answers>, max: int, i: nat, j: nat)
    requires Run(configs, answers, max) && i <= j < |configs| && configs[i].state.status.FailedRun?
    ensures configs[j].state.status.FailedRun? && !configs[j].node.SuccessNode?
    decreases j
  {
    hide Accepted, ChooseNext;
    if i == j {
      PlanIsAccepted(configs, answers, max, i);
    } else {
      FailureIsAbsorbing(configs, answers, max, i, j - 1);
      assert configs[j - 1 + 1] == Next(configs[j - 1], answers[j - 1], max);
    }
  }

  /** After the planner, a run that has not failed has an accepted plan. */
  lemma {:induction false} PlanIsAccepted(configs: seq<Config>, answers: seq<Answers>, max: int, k: nat)
    requires Run(configs, answers, max) && k < |configs|
    ensures configs[k].node == Planner ==> k == 0 && configs[k].state.status == Open
    ensures configs[k].node == SuccessNode ==> !configs[k].state.status.FailedRun?
    ensures k > 0 && !configs[k].state.status.FailedRun? && configs[k].node != Aborted ==>
      Accepted(configs[k].state.plan)
  {
    hide Accepted, ChooseNext, LeaksPrivateFile;
    if k == 0 {
    } else {
      PlanIsAccepted(configs, answers, max, k - 1);
      assert configs[k - 1 + 1] == Next(configs[k - 1], answers[k - 1], max);
    }
  }

  /** The selection node never fails a run: while a coder task remains, one is ready. */
  lemma SelectionIsNeverStuck(configs: seq<Config>, answers: seq<Answers>, max: int, k: nat)
    requires Run(configs, answers, max) && k < |configs| && configs[k].node == SelectCoder
    requires !configs[k].state.status.FailedRun?
    ensures !RunSelect(configs[k].state).status.FailedRun?
    ensures RunSelect(configs[k].state).active.None? ==> CoderIds(configs[k].state.plan) <= configs[k].state.completed
  {
    hide Accepted, ChooseNext, Run, CoderIds;
    var s := configs[k].state;
    StartsAtPlanner(configs, answers, max);
    PlanIsAccepted(configs, answers, max, k);
    if Remaining(s.plan, s.completed) == [] {
      NoRemainingIds(s.plan, s.completed);
      EmptyDifference(CoderIds(s.plan), s.completed);
    } else {
      ReadyExists(s.plan, s.completed);
    }
  }

  lemma StartsAtPlanner(configs: seq<Config>, answers: seq<Answers>, max: int)
    requires Run(configs, answers, max)
    ensures configs[0].node == Planner
  {
  }

  // ---- length of runs ----

  function Left(s: WState): nat {
    |CoderIds(s.plan) - s.completed|
  }

  function RoundsLeft(s: WState, max: int): nat {
    if s.repairRound < max then max - s.repairRound else 0
  }

  /** An upper bound on the node executions still to come. */
  function Budget(c: Config, max: int): nat {
    var k, r := Left(c.state), RoundsLeft(c.state, max);
    match c.node
    case Planner => 0
    case SelectCoder => if c.state.status.FailedRun? then 2 else 3 * k + 4 * r + 4
    case Coder => 3 * k + 4 * r + 3
    case IntegrateCoder =>
      if c.state.active.None? || c.state.status.FailedRun? then 3 else 3 * k + 4 * r + 2
    case IntegrateRepair => 4 * r + 4
    case Tester => 4 * r + 3
    case Repair => 4 * r + 1
    case Reviewer => 4 * r + 2
    case SuccessNode => 1
    case FailedNode => 1
    case End => 0
    case Aborted => 0
  }

  /** Entry facts the budget needs; they hold without any assumption on the integration service. */
  ghost predicate Paced(c: Config, max: int) {
    && (c.node.Repair? ==> c.state.repairRound < max)
    && (c.node.Coder? ==> !c.state.status.FailedRun? && ActiveIsLeft(c.state))
    && (c.node.IntegrateCoder? && c.state.active.Some? && !c.state.status.FailedRun? ==> ActiveIsLeft(c.state))
    && (c.node.IntegrateCoder? && c.state.active.None? ==> c.state.pending == [])
    && ((c.node.SelectCoder? || c.node.Coder?) && !c.state.status.FailedRun? ==> c.state.pending == [])
  }

  predicate ActiveIsLeft(s: WState) {
    s.active.Some? && s.active.value.localId in CoderIds(s.plan) - s.completed
  }

  lemma DropOne(a: set<Id>, x: Id)
    requires x in a
    ensures |a - {x}| == |a| - 1
  {
  }

  lemma CoderBudget(s: WState, a: Answers, max: int)
    requires Paced(Config(Coder, s), max)
    ensures Paced(Next(Config(Coder, s), a, max), max)
    ensures Budget(Next(Config(Coder, s), a, max), max) < Budget(Config(Coder, s), max)
  {
    DropOne(CoderIds(s.plan) - s.completed, s.active.value.localId);
  }

  lemma IntegrateCoderBudget(s: WState, a: Answers, max: int)
    requires Paced(Config(IntegrateCoder, s), max)
    ensures Paced(Next(Config(IntegrateCoder, s), a, max), max)
    ensures Budget(Next(Config(IntegrateCoder, s), a, max), max) < Budget(Config(IntegrateCoder, s), max)
  {
    hide RunIntegrateCoder, CoderIds;
    IntegrateOutcome(s, a.integration);
    if s.active.Some? && !s.status.FailedRun? {
      var id, left := s.active.value.localId, CoderIds(s.plan) - s.completed;
      DropOne(left, id);
      assert CoderIds(s.plan) - (s.completed + {id}) == left - {id};
    }
  }

  /** Integration raises, fails the workflow or completes the active task. */
  lemma IntegrateOutcome(s: WState, a: IntegrationAnswer)
    ensures
      match RunIntegrateCoder(s, a)
      case None => !s.status.FailedRun?
      case Some(s') =>
        && s'.plan == s.plan && s'.repairRound == s.repairRound
        && (s'.status.FailedRun? || (!s.status.FailedRun? && s.active.Some? && s'.pending == [] &&
              s'.completed == s.completed + {s.active.value.localId}))
  {
    hide LeaksPrivateFile;
  }

  lemma SelectBudget(s: WState, a: Answers, max: int)
    requires Paced(Config(SelectCoder, s), max)
    ensures Paced(Next(Config(SelectCoder, s), a, max), max)
    ensures Budget(Next(Config(SelectCoder, s), a, max), max) < Budget(Config(SelectCoder, s), max)
  {
    hide ChooseNext;
    if ChooseNext(s.plan, s.completed).Some? { NextFacts(s.plan, s.completed); }
  }

  lemma LaterBudget(c: Config, a: Answers, max: int)
    requires Paced(c, max) && c.node != Planner && c.node != End && c.node != Aborted
    requires c.node != SelectCoder && c.node != Coder && c.node != IntegrateCoder
    ensures Paced(Next(c, a, max), max) && Budget(Next(c, a, max), max) < Budget(c, max)
  {
    hide CoderIds;
  }

  /** Every node after the planner uses up at least one unit of the budget. */
  lemma BudgetShrinks(c: Config, a: Answers, max: int)
    requires Paced(c, max) && c.node != Planner && c.node != End && c.node != Aborted
    ensures Paced(Next(c, a, max), max) && Budget(Next(c, a, max), max) < Budget(c, max)
  {
    hide Next, Budget, Paced;
    match c.node
    case SelectCoder => SelectBudget(c.state, a, max);
    case Coder => CoderBudget(c.state, a, max);
    case IntegrateCoder => IntegrateCoderBudget(c.state, a, max);
    case _ => LaterBudget(c, a, max);
  }

  /** One turn of the coder loop. The run goes on exactly if the coder hands over a patch, the patch
      touches no private file and the integration succeeds; a coder that reports completion
      without a patch has failed the run two nodes later. */
  lemma CoderTurn(configs: seq<Config>, answers: seq<Answers>, max: int, k: nat)
    requires Run(configs, answers, max) && k + 2 < |configs| && configs[k].node == Coder
    ensures
      !configs[k + 2].state.status.FailedRun? && configs[k + 2].node != Aborted <==>
      && answers[k].work.Patched? && !LeaksPrivateFile([answers[k].work.patch])
      && answers[k + 1].integration.IntegrationOk?
    ensures answers[k].work.DoneWithoutPatch? ==> configs[k + 2].state.status.FailedRun?
  {
    hide Accepted, ChooseNext, LeaksPrivateFile, CoderIds;
    StartsAtPlanner(configs, answers, max);
    BudgetAlongRun(configs, answers, max, k);
    var s := configs[k].state;
    assert configs[k + 1] == Next(configs[k], answers[k], max);
    assert configs[k + 1 + 1] == Next(configs[k + 1], answers[k + 1], max);
    if answers[k].work.Patched? {
      assert s.pending + [answers[k].work.patch] == [answers[k].work.patch];
    }
  }

  lemma {:induction false} PlanIsFixed(configs: seq<Config>, answers: seq<Answers>, max: int, i: nat, j: nat)
    requires Run(configs, answers, max) && 1 <= i <= j < |configs|
    ensures configs[j].state.plan == configs[i].state.plan && configs[j].node != Planner
    decreases j
  {
    hide Accepted, ChooseNext;
    if i < j {
      PlanIsFixed(configs, answers, max, i, j - 1);
      assert configs[j - 1 + 1] == Next(configs[j - 1], answers[j - 1], max);
    } else if i == 1 {
      assert configs[0 + 1] == Next(configs[0], answers[0], max);
    } else {
      PlanIsFixed(configs, answers, max, 1, i - 1);
      assert configs[i - 1 + 1] == Next(configs[i - 1], answers[i - 1], max);
    }
  }

  lemma {:induction false} BudgetAlongRun(configs: seq<Config>, answers: seq<Answers>, max: int, k: nat)
    requires Run(configs, answers, max) && 1 <= k < |configs|
    ensures Paced(configs[k], max)
    ensures k + Budget(configs[k], max) <= 1 + Budget(configs[1], max)
    decreases k
  {
    hide Accepted, ChooseNext, Budget;
    if k == 1 {
      assert configs[0 + 1] == Next(configs[0], answers[0], max);
    } else {
      BudgetAlongRun(configs, answers, max, k - 1);
      PlanIsFixed(configs, answers, max, 1, k - 1);
      BudgetShrinks(configs[k - 1], answers[k - 1], max);
      assert configs[k - 1 + 1] == Next(configs[k - 1], answers[k - 1], max);
    }
  }

  /** With k distinct coder ids in the plan and r = max(max_repair_rounds, 0), every run executes at
      most 3 k + 4 r + 5 nodes, whatever providers and integration answer. */
  lemma RunsAreShort(configs: seq<Config>, answers: seq<Answers>, max: int)
    requires Run(configs, answers, max) && |answers| >= 1
    ensures
      var k := |CoderIds(configs[|answers|].state.plan)|;
      var r := if max > 0 then max else 0;
      |answers| <= 3 * k + 4 * r + 5
  {
    hide Accepted, ChooseNext, Paced;
    var n := |answers|;
    assert configs[0 + 1] == Next(configs[0], answers[0], max);
    BudgetAlongRun(configs, answers, max, n);
    PlanIsFixed(configs, answers, max, 1, n);
    var s := configs[1].state;
    assert CoderIds(s.plan) - s.completed <= CoderIds(s.plan);
    SubsetSize(CoderIds(s.plan) - s.completed, CoderIds(s.plan));
  }

  ghost predicate RepairInv(c: Config, max: int) {
    && c.state.repairRound <= (if max > 0 then max else 0)
    && Repairs(c.state.log) == c.state.repairRound
    && (c.node.Repair? ==> c.state.repairRound < max)
  }

  lemma QuietRepairs(c: Config, a: Answers, max: int)
    requires RepairInv(c, max)
    requires (c.node.Planner? || c.node.SelectCoder? || c.node.Coder? || c.node.SuccessNode? || c.node.FailedNode?)
    ensures RepairInv(Next(c, a, max), max)
  {
    hide Accepted, ChooseNext, Repairs;
  }

  lemma LoggedRepairs(c: Config, a: Answers, max: int)
    requires RepairInv(c, max)
    requires (c.node.IntegrateCoder? || c.node.IntegrateRepair? || c.node.Tester? || c.node.Repair? || c.node.Reviewer?)
    ensures RepairInv(Next(c, a, max), max)
  {
    hide LeaksPrivateFile, Repairs, Links;
    var s, s' := c.state, Next(c, a, max).state;
    if s'.log != s.log { LinksAppend(s.log, s'.log[|s.log|]); }
  }

  /** The repair node runs at most max(max_repair_rounds, 0) times. */
  lemma {:induction false} RepairsAreBounded(configs: seq<Config>, answers: seq<Answers>, max: int, k: nat)
    requires Run(configs, answers, max) && k < |configs|
    ensures configs[k].state.repairRound <= (if max > 0 then max else 0)
    ensures Repairs(configs[k].state.log) == configs[k].state.repairRound
    ensures configs[k].node.Repair? ==> configs[k].state.repairRound < max
  {
    hide Next;
    if k == 0 {
    } else {
      RepairsAreBounded(configs, answers, max, k - 1);
      var c, a := configs[k - 1], answers[k - 1];
      assert configs[k - 1 + 1] == Next(c, a, max);
      if c.node.IntegrateCoder? || c.node.IntegrateRepair? || c.node.Tester? || c.node.Repair? || c.node.Reviewer? {
        LoggedRepairs(c, a, max);
      } else {
        QuietRepairs(c, a, max);
      }
    }
  }
}
