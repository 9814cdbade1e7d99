/** Which requests are granted, and what becomes of the leases, said through the active leases. */
module ResourceLeases {
  import opened Graphs
  import opened Tasks
  import opened ResourceSpec
  import opened ResourceRuns

  /** The LLM slots a request asks for: the whole part of its amount. */
  function WholeSlots(request: Amounts): int {
    if Get(request, Llm) > 0.0 then Get(request, Llm).Floor else 0
  }

  lemma SlotsAreWhole(request: Amounts)
    ensures Slots(request) == WholeSlots(request)
    ensures NonNegative(request) ==> LlmAmount(request) == WholeSlots(request)
  {
  }

  /** A request is granted if it is empty, or if the probe of each of the two probed classes it asks for
      says yes, no quota is exceeded by what is leased and asked for together, the agent holds no
      slots beside those of one request, and the slots of all stay within the limit. */
  ghost predicate MayGrant(lim: Limits, leases: map<Id, Lease>, agent: Id, request: Amounts, cpuOk: bool,
                           memoryOk: bool) {
    var llm := WholeSlots(request);
    || request == map[]
    || (&& (Cpu in request && request[Cpu] > 0.0 ==> cpuOk)
        && (Memory in request && request[Memory] > 0.0 ==> memoryOk)
        && (forall c :: c in request && c in lim.quota && lim.quota[c] > 0.0 ==>
              Total(leases, Used(c)) + request[c] <= lim.quota[c])
        && Total(leases, SlotsOf(agent)) + llm as real <= (if llm > 1 then llm as real else 1.0)
        && Total(leases, AllSlots) + llm as real <= lim.llmMax as real)
  }

  lemma GrantsIff(lim: Limits, s: RState, agent: Id, request: Amounts, cpuOk: bool, memoryOk: bool)
    requires Inv(lim, s) && NonNegative(request)
    ensures Grants(lim, s, agent, request, cpuOk, memoryOk) <==>
      MayGrant(lim, s.leases, agent, request, cpuOk, memoryOk)
  {
    hide Total, CountTotal, OneLlmLease, IndexInv, AllNonNegative, Slots, LlmAmount, NonNegative, WholeSlots;
    SlotsAreWhole(request);
    assert Count(s, agent) as real == Total(s.leases, SlotsOf(agent));
    QuotasAgree(lim, s, request);
  }

  lemma QuotasAgree(lim: Limits, s: RState, request: Amounts)
    requires UsageInv(lim, s)
    ensures (forall c :: FitsQuota(lim, s.usage, request, c)) <==>
      forall c :: c in request && c in lim.quota && lim.quota[c] > 0.0 ==>
        Total(s.leases, Used(c)) + request[c] <= lim.quota[c]
  {
    hide Total;
    forall c
      ensures FitsQuota(lim, s.usage, request, c) <==>
        (c in request && c in lim.quota && lim.quota[c] > 0.0 ==>
           Total(s.leases, Used(c)) + request[c] <= lim.quota[c])
    {
      assert Get(s.usage, c) == Total(s.leases, Used(c));
    }
  }

  /** What a request leaves: a new active lease, known by its task, or no change at all. */
  predicate Leased(s: RState, s': RState, task: Id, lease: Id, l: Lease) {
    && s'.leases == s.leases[lease := l] && s'.byTask == s.byTask[task := lease] && s'.reclaimed == s.reclaimed
  }

  /** The lease, if it was active, is not any longer, and its task is off the index. */
  predicate Released(s: RState, s': RState, lease: Id, reason: Option<string>) {
    if lease !in s.leases || !s.leases[lease].active then s' == s
    else
      var l := s.leases[lease];
      && s'.leases == s.leases[lease := l.(active := false, reason := if reason.Some? then reason.value else l.reason)]
      && s'.byTask == s.byTask - {l.task}
      && s'.reclaimed == s.reclaimed + if reason.Some? then [lease] else []
  }

  lemma ReleaseIsExact(lim: Limits, s: RState, id: Id)
    requires Inv(lim, s)
    ensures Released(s, Release(s, id), id, None)
  {
    hide Total, CountTotal, Slots, UsageInv, SlotInv, OneLlmLease, IndexInv, SubAll, AllNonNegative, ReleaseSlots;
    if id in s.leases && s.leases[id].active { ReleaseShape(lim, s, id); }
  }

  lemma ReclaimIsExact(lim: Limits, s: RState, task: Id, reason: string)
    requires Inv(lim, s)
    ensures task !in s.byTask ==> Reclaim(s, task, reason) == s
    ensures task in s.byTask ==> Released(s, Reclaim(s, task, reason), s.byTask[task], Some(reason))
  {
    hide UsageInv, SlotInv, OneLlmLease, AllNonNegative, Release;
    if task in s.byTask { ReleaseIsExact(lim, s, s.byTask[task]); }
  }

  lemma AcquireIsExact(lim: Limits, s: RState, task: Id, agent: Id, request: Amounts, id: Id, cpuOk: bool,
                       memoryOk: bool)
    ensures
      var s' := Acquire(lim, s, task, agent, request, id, cpuOk, memoryOk);
      if Grants(lim, s, agent, request, cpuOk, memoryOk)
      then Leased(s, s', task, id, Lease(task, agent, request, true, ""))
      else s' == s
  {
    hide Grants, AddAll;
  }

  /** At any operation of any run. A request is granted exactly if it may be, measured by the active
      leases; a refusal changes nothing. Releasing by task or by id, and reclaiming, end exactly the
      lease meant, if it is active. Together with the conservation of usage and slots this fixes every
      table. */
  lemma LeasesFollow(lim: Limits, states: seq<RState>, ops: seq<Op>, k: nat)
    requires Run(lim, states, ops) && k < |ops| < |states|
    ensures
      var s, s' := states[k], states[k + 1];
      match ops[k]
      case DoAcquire(task, agent, request, id, cpuOk, memoryOk) =>
        if MayGrant(lim, s.leases, agent, request, cpuOk, memoryOk)
        then Leased(s, s', task, id, Lease(task, agent, request, true, ""))
        else s' == s
      case DoRelease(id) => Released(s, s', id, None)
      case DoReleaseNamed(name) => Released(s, s', if name in s.byTask then s.byTask[name] else name, None)
      case DoReclaim(task, reason) =>
        if task in s.byTask then Released(s, s', s.byTask[task], Some(reason)) else s' == s
  {
    hide Inv, Acquire, Release, Reclaim, MayGrant, Released, Leased, NonNegative;
    RunKeeps(lim, states, ops, k);
    var s := states[k];
    assert states[k + 1] == Step(lim, s, ops[k]);
    match ops[k]
    case DoAcquire(task, agent, request, id, cpuOk, memoryOk) =>
      GrantsIff(lim, s, agent, request, cpuOk, memoryOk);
      AcquireIsExact(lim, s, task, agent, request, id, cpuOk, memoryOk);
    case DoRelease(id) => ReleaseIsExact(lim, s, id);
    case DoReleaseNamed(name) => ReleaseIsExact(lim, s, if name in s.byTask then s.byTask[name] else name);
    case DoReclaim(task, reason) => ReclaimIsExact(lim, s, task, reason);
  }
}
