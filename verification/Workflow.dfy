/** The incident-repair graph: its nodes, its routing, and every run of it with arbitrary answers
    from providers and the patch integration service. */
module Workflow {
  import opened Graphs
  import opened Tasks
  import opened CoderPlan

  datatype Patch = Patch(changedFiles: seq<string>)

  datatype RunStatus = Open | FailedRun | Succeeded

  /** One entry of coder_integration_history. */
  datatype Entry = Entry(task: Id, base: string, commit: string)

  datatype Link = Link(base: string, commit: string)

  /** Calls made to the outside, in order, with what matters of the answer. */
  datatype Event =
    | Integrated(base: string, commit: string)
    | Tested(commit: string, returncode: int)
    | Reviewed(commit: string, approved: bool)
    | RepairRequested(commit: string)

  /** The state after the reducers of the graph: list fields are appended to, pending patches are
      cleared by an empty update. `log` is not part of the source's state. */
  datatype WState = WState(
    baseCommit: string,
    plan: seq<PlannedTask>,
    pending: seq<Patch>,
    integrated: Option<string>,
    testReturncode: Option<int>,
    approved: Option<bool>,
    repairRound: nat,
    status: RunStatus,
    completed: set<Id>,
    active: Option<PlannedTask>,
    coderStep: int,
    history: seq<Entry>,
    log: seq<Event>)

  datatype GraphNode =
    | Planner | SelectCoder | Coder | IntegrateCoder | IntegrateRepair | Tester
    | Repair | Reviewer | SuccessNode | FailedNode | End | Aborted

  /** Provider answers. The constructors named Raised stand for an exception out of the node. */
  datatype PlanAnswer = PlanRaised | PlanFailed | Planned(tasks: seq<PlannedTask>)
  datatype WorkAnswer = WorkRaised | WorkFailed | Patched(patch: Patch) | DoneWithoutPatch | NoPatch
  datatype TestAnswer = TestRaised | TestTimedOut | TestFailed | TestRan(returncode: int)
  datatype ReviewAnswer = ReviewRaised | ReviewFailed | ReviewGiven(approved: bool)
  datatype IntegrationAnswer =
    | IntegrationRaised
    | NotIntegrated
    | IntegrationOk(base: string, commit: Option<string>)

  datatype Answers = Answers(
    plan: PlanAnswer, work: WorkAnswer, test: TestAnswer, review: ReviewAnswer, integration: IntegrationAnswer)

  function Initial(baseCommit: string): WState {
    WState(baseCommit, [], [], None, None, None, 0, Open, {}, None, 0, [], [])
  }

  /** integrated_commit or base_commit: an empty commit counts as missing. */
  function Base(s: WState): string {
    if s.integrated.Some? && s.integrated.value != "" then s.integrated.value else s.baseCommit
  }

  function Fail(s: WState): WState {
    s.(status := FailedRun)
  }

  // ---- nodes ----

  ghost function RunPlanner(s: WState, a: PlanAnswer): Option<WState> {
    match a
    case PlanRaised => None
    case PlanFailed => Some(Fail(s))
    case Planned(tasks) => Some(if Accepted(tasks) then s.(plan := tasks) else Fail(s.(plan := tasks)))
  }

  function RunSelect(s: WState): WState {
    if s.status.FailedRun? || Remaining(s.plan, s.completed) == [] then s.(active := None)
    else
      match ChooseNext(s.plan, s.completed)
      case None => Fail(s.(active := None))
      case Some(t) => s.(active := Some(t), coderStep := s.coderStep + 1)
  }

  function RunCoder(s: WState, a: WorkAnswer): Option<WState> {
    if s.active.None? then None
    else
      match a
      case WorkRaised => None
      case WorkFailed => Some(Fail(s))
      case NoPatch => Some(Fail(s))
      case DoneWithoutPatch => Some(s.(completed := s.completed + {s.active.value.localId}, active := None))
      case Patched(p) => Some(s.(pending := s.pending + [p]))
  }

  predicate StartsWith(s: string, prefix: string) {
    prefix <= s
  }

  predicate ForbiddenFile(path: string) {
    StartsWith(path, ".codex-home") || path == ".codex-events.jsonl" || path == ".codex-final.json"
  }

  predicate LeaksPrivateFile(pending: seq<Patch>) {
    exists p, f :: p in pending && f in p.changedFiles && ForbiddenFile(f)
  }

  /** _integrate_pending_patches. */
  function Integrate(s: WState, a: IntegrationAnswer): Option<WState> {
    if s.pending == [] then Some(Fail(s))
    else
      match a
      case IntegrationRaised => None
      case NotIntegrated => Some(Fail(s))
      case IntegrationOk(base, commit) =>
        Some(s.(integrated := commit, pending := [],
                log := s.log + [Integrated(base, if commit.Some? then commit.value else "")]))
  }

  ghost function RunIntegrateCoder(s: WState, a: IntegrationAnswer): Option<WState> {
    if s.status.FailedRun? then Some(s.(active := None))
    else if LeaksPrivateFile(s.pending) then Some(Fail(s))
    else
      match Integrate(s, a)
      case None => None
      case Some(s1) =>
        if s1.status.FailedRun? then Some(s1)
        else if s.active.None? || !a.IntegrationOk? then None
        else
          var id := s.active.value.localId;
          Some(s1.(completed := s.completed + {id}, active := None,
                   history := s.history + [Entry(id, a.base, if a.commit.Some? then a.commit.value else "")]))
  }

  function RunTester(s: WState, a: TestAnswer): Option<WState> {
    match a
    case TestRaised => None
    case TestTimedOut => Some(s.(testReturncode := Some(1), log := s.log + [Tested(Base(s), 1)]))
    case TestFailed => Some(s.(testReturncode := Some(1), log := s.log + [Tested(Base(s), 1)]))
    case TestRan(code) => Some(s.(testReturncode := Some(code), log := s.log + [Tested(Base(s), code)]))
  }

  function RunRepair(s: WState, a: WorkAnswer): Option<WState> {
    var s1 := s.(repairRound := s.repairRound + 1, log := s.log + [RepairRequested(Base(s))]);
    match a
    case WorkRaised => None
    case WorkFailed => Some(Fail(s1))
    case NoPatch => Some(Fail(s1))
    case DoneWithoutPatch => Some(Fail(s1))
    case Patched(p) => Some(s1.(pending := s.pending + [p]))
  }

  function RunReviewer(s: WState, a: ReviewAnswer): Option<WState> {
    match a
    case ReviewRaised => None
    case ReviewFailed => Some(Fail(s))
    case ReviewGiven(ok) => Some(s.(approved := Some(ok), log := s.log + [Reviewed(Base(s), ok)]))
  }

  /** The update a node makes; None if it raises. */
  ghost function Execute(node: GraphNode, s: WState, a: Answers): Option<WState> {
    match node
    case Planner => RunPlanner(s, a.plan)
    case SelectCoder => Some(RunSelect(s))
    case Coder => RunCoder(s, a.work)
    case IntegrateCoder => RunIntegrateCoder(s, a.integration)
    case IntegrateRepair => Integrate(s, a.integration)
    case Tester => RunTester(s, a.test)
    case Repair => RunRepair(s, a.work)
    case Reviewer => RunReviewer(s, a.review)
    case SuccessNode => Some(s.(status := Succeeded))
    case FailedNode => Some(Fail(s))
    case End => Some(s)
    case Aborted => Some(s)
  }

  // ---- routing ----

  function RouteAfterTest(s: WState, max: int): GraphNode {
    if s.testReturncode.None? then FailedNode
    else if s.testReturncode.value == 0 then Reviewer
    else if s.repairRound >= max then FailedNode
    else Repair
  }

  function RouteAfterReview(s: WState, max: int): GraphNode {
    if s.status.FailedRun? then FailedNode
    else if s.approved == Some(true) then SuccessNode
    else if s.repairRound >= max then FailedNode
    else Repair
  }

  /** The edges of the graph, taken on the state after the node's update. */
  function Route(node: GraphNode, s: WState, max: int): GraphNode {
    match node
    case Planner => SelectCoder
    case SelectCoder => if s.status.FailedRun? then FailedNode else if s.active.Some? then Coder else Tester
    case Coder => if s.status.FailedRun? then FailedNode else IntegrateCoder
    case IntegrateCoder => SelectCoder
    case IntegrateRepair => Tester
    case Tester => RouteAfterTest(s, max)
    case Repair => if s.status.FailedRun? then FailedNode else IntegrateRepair
    case Reviewer => RouteAfterReview(s, max)
    case SuccessNode => End
    case FailedNode => End
    case End => End
    case Aborted => Aborted
  }

  datatype Config = Config(node: GraphNode, state: WState)

  ghost function Next(c: Config, a: Answers, max: int): Config {
    match Execute(c.node, c.state, a)
    case None => Config(Aborted, c.state)
    case Some(s) => Config(Route(c.node, s, max), s)
  }

  /** A successful integration was made on the commit it was asked for and yields a commit. */
  ghost predicate Honest(c: Config, a: Answers) {
    a.integration.IntegrationOk? ==>
      a.integration.base == Base(c.state) && a.integration.commit.Some? && a.integration.commit.value != ""
  }

  /** configs[i + 1] follows from configs[i] by executing its node. */
  ghost predicate Run(configs: seq<Config>, answers: seq<Answers>, max: int) {
    && |configs| == |answers| + 1
    && configs[0] == Config(Planner, Initial(configs[0].state.baseCommit))
    && forall i :: 0 <= i < |answers| ==>
      && configs[i].node != End && configs[i].node != Aborted
      && configs[i + 1] == Next(configs[i], answers[i], max)
  }

  ghost predicate AllHonest(configs: seq<Config>, answers: seq<Answers>) {
    |configs| == |answers| + 1 && forall i :: 0 <= i < |answers| ==> Honest(configs[i], answers[i])
  }

  // ---- commit chains ----

  /** The integrations of a log, in order. */
  function Links(log: seq<Event>): seq<Link> {
    if log == [] then []
    else
      var front := Links(log[..|log| - 1]);
      match log[|log| - 1]
      case Integrated(b, c) => front + [Link(b, c)]
      case _ => front
  }

  function HistoryLinks(h: seq<Entry>): (r: seq<Link>)
    ensures |r| == |h| && forall i :: 0 <= i < |h| ==> r[i] == Link(h[i].base, h[i].commit)
  {
    seq(|h|, i requires 0 <= i < |h| => Link(h[i].base, h[i].commit))
  }

  /** Each link starts where the one before it ended. */
  predicate IsChain(start: string, links: seq<Link>, end: string) {
    if links == [] then start == end
    else links[|links| - 1].commit == end && IsChain(start, links[..|links| - 1], links[|links| - 1].base)
  }

  function HistoryIds(h: seq<Entry>): set<Id> {
    set e | e in h :: e.task
  }

  function Repairs(log: seq<Event>): nat {
    if log == [] then 0
    else Repairs(log[..|log| - 1]) + if log[|log| - 1].RepairRequested? then 1 else 0
  }
}
