/** The lease allocator: what acquire, release and reclaim do to the monitor's tables. */
module ResourceSpec {
  import opened Graphs
  import opened Tasks

  datatype Class = Cpu | Memory | Llm | Token | Tool | KvCache | Network

  type Amounts = map<Class, real>

  datatype Lease = Lease(task: Id, agent: Id, request: Amounts, active: bool, reason: string)

  /** Quotas per class (zero or less: none) and the global limit on LLM slots. */
  datatype Limits = Limits(quota: Amounts, llmMax: int)

  datatype RState = RState(
    usage: Amounts,
    leases: map<Id, Lease>,
    byTask: map<Id, Id>,
    activeAgents: set<Id>,
    counts: map<Id, int>,
    total: int,
    reclaimed: seq<Id>)

  const EMPTY := RState(map[], map[], map[], {}, map[], 0, [])

  function Get(m: Amounts, c: Class): real {
    if c in m then m[c] else 0.0
  }

  function Count(s: RState, agent: Id): int {
    if agent in s.counts then s.counts[agent] else 0
  }

  /** int(x): truncation toward zero. */
  function Truncated(x: real): int {
    if x >= 0.0 then x.Floor else -((-x).Floor)
  }

  function LlmAmount(request: Amounts): int {
    Truncated(Get(request, Llm))
  }

  /** How often a loop over range(LlmAmount) turns. */
  function Slots(request: Amounts): nat {
    if LlmAmount(request) > 0 then LlmAmount(request) else 0
  }

  function AddAll(usage: Amounts, request: Amounts): Amounts {
    map c | c in usage.Keys + request.Keys :: Get(usage, c) + Get(request, c)
  }

  /** ResourceUsage.sub clamps at zero. */
  function SubAll(usage: Amounts, request: Amounts): Amounts {
    map c | c in usage.Keys + request.Keys ::
      if c !in request then usage[c]
      else if Get(usage, c) - request[c] > 0.0 then Get(usage, c) - request[c]
      else 0.0
  }

  predicate FitsQuota(lim: Limits, usage: Amounts, request: Amounts, c: Class) {
    c in request && Get(lim.quota, c) > 0.0 ==> Get(usage, c) + Get(request, c) <= Get(lim.quota, c)
  }

  /** `cpuOk` and `memoryOk` are the answers of the system probes. */
  ghost predicate CanAllocate(lim: Limits, usage: Amounts, request: Amounts, cpuOk: bool, memoryOk: bool) {
    && (Get(request, Cpu) > 0.0 ==> cpuOk)
    && (Get(request, Memory) > 0.0 ==> memoryOk)
    && forall c :: FitsQuota(lim, usage, request, c)
  }

  predicate SlotsFree(lim: Limits, s: RState, agent: Id, request: Amounts) {
    var llm := LlmAmount(request);
    && Count(s, agent) + llm <= (if llm > 1 then llm else 1)
    && s.total + llm <= lim.llmMax
  }

  function TakeSlots(s: RState, agent: Id, n: nat): RState {
    if n == 0 then s
    else s.(counts := s.counts[agent := Count(s, agent) + n], total := s.total + n,
            activeAgents := s.activeAgents + {agent})
  }

  function Grant(s: RState, task: Id, agent: Id, request: Amounts, id: Id): RState {
    s.(leases := s.leases[id := Lease(task, agent, request, true, "")], byTask := s.byTask[task := id])
  }

  ghost predicate Grants(lim: Limits, s: RState, agent: Id, request: Amounts, cpuOk: bool, memoryOk: bool) {
    request == map[] || (CanAllocate(lim, s.usage, request, cpuOk, memoryOk) && SlotsFree(lim, s, agent, request))
  }

  /** `id` is the id generated for the new lease. */
  ghost function Acquire(lim: Limits, s: RState, task: Id, agent: Id, request: Amounts, id: Id,
                         cpuOk: bool, memoryOk: bool): RState
  {
    if !Grants(lim, s, agent, request, cpuOk, memoryOk) then s
    else if request == map[] then Grant(s, task, agent, request, id)
    else
      var s1 := Grant(TakeSlots(s, agent, Slots(request)), task, agent, request, id);
      s1.(usage := AddAll(s.usage, request))
  }

  function ReleaseSlot(s: RState, agent: Id): RState {
    var s1 := s.(total := if s.total - 1 > 0 then s.total - 1 else 0);
    if Count(s, agent) <= 1 then s1.(activeAgents := s.activeAgents - {agent}, counts := s.counts - {agent})
    else s1.(counts := s.counts[agent := Count(s, agent) - 1])
  }

  function ReleaseSlots(s: RState, agent: Id, n: nat): RState {
    if n == 0 then s else ReleaseSlot(ReleaseSlots(s, agent, n - 1), agent)
  }

  /** release, given the lease itself. */
  function Release(s: RState, id: Id): RState {
    if id !in s.leases || !s.leases[id].active then s
    else
      var l := s.leases[id];
      var s1 := ReleaseSlots(s.(usage := SubAll(s.usage, l.request)), l.agent, Slots(l.request));
      s1.(leases := s.leases[id := l.(active := false)], byTask := s.byTask - {l.task})
  }

  /** release, given a string: a task id with a lease, else a lease id. */
  function ReleaseNamed(s: RState, name: Id): RState {
    Release(s, if name in s.byTask then s.byTask[name] else name)
  }

  function Reclaim(s: RState, task: Id, reason: string): RState {
    if task !in s.byTask || s.byTask[task] !in s.leases then s
    else
      var id := s.byTask[task];
      var s1 := Release(s, id);
      if id !in s1.leases then s1
      else s1.(leases := s1.leases[id := s1.leases[id].(active := false, reason := reason)],
               reclaimed := s1.reclaimed + [id])
  }
}
