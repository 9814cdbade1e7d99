/** ResourceMonitor, its tables updated in place. */
module Resources {
  import opened Graphs
  import opened Tasks
  import opened ResourceSpec
  import ResourceRuns

  class ResourceMonitor {
    const limits: Limits
    var usage: Amounts
    var leases: map<Id, Lease>
    var byTask: map<Id, Id>
    var activeAgents: set<Id>
    var counts: map<Id, int>
    var total: int
    var reclaimed: seq<Id>

    ghost function State(): RState
      reads this
    {
      RState(usage, leases, byTask, activeAgents, counts, total, reclaimed)
    }

    /** Conservation: usage, slots and indexes agree with the active leases and the limits. */
    ghost predicate Conserved()
      reads this
    {
      ResourceRuns.Inv(limits, State())
    }

    constructor (limits: Limits)
      ensures Conserved() && State() == EMPTY && this.limits == limits
    {
      this.limits := limits;
      usage, leases, byTask, activeAgents, counts, total, reclaimed := map[], map[], map[], {}, map[], 0, [];
      new;
      ResourceRuns.EmptyInv(limits);
    }

    /** True exactly if the probes and every quota allow the request; nothing changes. */
    method CanAllocate(request: Amounts, cpuOk: bool, memoryOk: bool) returns (ok: bool)
      ensures ok <==> ResourceSpec.CanAllocate(limits, usage, request, cpuOk, memoryOk)
      ensures ok <==>
        && (Cpu in request && request[Cpu] > 0.0 ==> cpuOk)
        && (Memory in request && request[Memory] > 0.0 ==> memoryOk)
        && (forall c :: c in request && c in limits.quota && limits.quota[c] > 0.0 ==>
              (if c in usage then usage[c] else 0.0) + request[c] <= limits.quota[c])
    {
      if Get(request, Cpu) > 0.0 && !cpuOk {
        return false;
      }
      if Get(request, Memory) > 0.0 && !memoryOk {
        return false;
      }
      var left := request.Keys;
      while left != {}
        invariant left <= request.Keys
        invariant forall c :: c !in left ==> FitsQuota(limits, usage, request, c)
      {
        var c :| c in left;
        if Get(limits.quota, c) > 0.0 && Get(usage, c) + request[c] > Get(limits.quota, c) {
          assert !FitsQuota(limits, usage, request, c);
          return false;
        }
        left := left - {c};
      }
      forall c | c in request && c in limits.quota && limits.quota[c] > 0.0
        ensures (if c in usage then usage[c] else 0.0) + request[c] <= limits.quota[c]
      {
        assert FitsQuota(limits, usage, request, c);
      }
      return true;
    }

    method AcquireLlm(agent: Id, perAgentLimit: int) returns (ok: bool)
      modifies this
      ensures ok <==> old(Count(State(), agent)) < perAgentLimit && old(total) < limits.llmMax
      ensures State() == if ok then TakeSlots(old(State()), agent, 1) else old(State())
    {
      var current := if agent in counts then counts[agent] else 0;
      if current >= perAgentLimit {
        return false;
      }
      if total >= limits.llmMax {
        return false;
      }
      activeAgents := activeAgents + {agent};
      counts := counts[agent := current + 1];
      total := total + 1;
      return true;
    }

    method ReleaseLlm(agent: Id)
      modifies this
      ensures State() == ReleaseSlot(old(State()), agent)
    {
      var current := if agent in counts then counts[agent] else 0;
      if current <= 1 {
        activeAgents := activeAgents - {agent};
        counts := counts - {agent};
      } else {
        counts := counts[agent := current - 1];
      }
      total := if total - 1 > 0 then total - 1 else 0;
    }

    /** The slot loop of acquire: after the checks before it no turn of it fails. */
    method TakeAll(agent: Id, request: Amounts)
      requires SlotsFree(limits, State(), agent, request)
      modifies this
      ensures State() == TakeSlots(old(State()), agent, Slots(request))
    {
      var n := Slots(request);
      var perAgentLimit := if LlmAmount(request) > 1 then LlmAmount(request) else 1;
      var taken := 0;
      while taken < n
        invariant 0 <= taken <= n
        invariant State() == TakeSlots(old(State()), agent, taken)
      {
        var ok := AcquireLlm(agent, perAgentLimit);
        if !ok {
          assert false;
        }
        taken := taken + 1;
      }
    }

    method AddUsage(request: Amounts)
      modifies this
      ensures State() == old(State()).(usage := AddAll(old(usage), request))
    {
      var left := request.Keys;
      while left != {}
        invariant left <= request.Keys
        invariant State() == old(State()).(usage := usage)
        invariant usage.Keys == old(usage).Keys + (request.Keys - left)
        invariant forall c :: c in usage ==>
          usage[c] == Get(old(usage), c) + if c in left then 0.0 else Get(request, c)
      {
        var c :| c in left;
        usage := usage[c := Get(usage, c) + request[c]];
        left := left - {c};
      }
      assert usage == AddAll(old(usage), request);
    }

    method SubUsage(request: Amounts)
      modifies this
      ensures State() == old(State()).(usage := SubAll(old(usage), request))
    {
      var left := request.Keys;
      while left != {}
        invariant left <= request.Keys
        invariant State() == old(State()).(usage := usage)
        invariant usage.Keys == old(usage).Keys + (request.Keys - left)
        invariant forall c :: c in left ==> Get(usage, c) == Get(old(usage), c)
        invariant forall c :: c in usage && c !in left ==> usage[c] == Get(SubAll(old(usage), request), c)
        invariant forall c :: c in usage && c in left ==> c in old(usage)
      {
        var c :| c in left;
        var rest := Get(usage, c) - request[c];
        usage := usage[c := if rest > 0.0 then rest else 0.0];
        left := left - {c};
      }
      assert usage == SubAll(old(usage), request);
    }

    /** A refusal leaves every table as it was. */
    method Acquire(task: Id, agent: Id, request: Amounts, id: Id, cpuOk: bool, memoryOk: bool)
      returns (lease: Option<Id>)
      modifies this
      ensures State() == ResourceSpec.Acquire(limits, old(State()), task, agent, request, id, cpuOk, memoryOk)
      ensures lease == if Grants(limits, old(State()), agent, request, cpuOk, memoryOk) then Some(id) else None
      ensures lease.None? ==> State() == old(State())
      ensures old(Conserved()) && id !in old(leases) && ResourceRuns.NonNegative(request) ==> Conserved()
    {
      hide TakeSlots, AddAll, ResourceSpec.CanAllocate, ResourceRuns.Inv;
      if Conserved() && id !in leases && ResourceRuns.NonNegative(request) {
        ResourceRuns.AcquireKeeps(limits, State(), task, agent, request, id, cpuOk, memoryOk);
      }
      if request == map[] {
        Record(task, agent, request, id);
        return Some(id);
      }
      var ok := CanAllocate(request, cpuOk, memoryOk);
      if !ok || !Fits(agent, request) {
        return None;
      }
      TakeAll(agent, request);
      Record(task, agent, request, id);
      UsageUntouched(old(State()), agent, Slots(request));
      AddUsage(request);
      return Some(id);
    }

    function Fits(agent: Id, request: Amounts): (r: bool)
      reads this
      ensures r <==> SlotsFree(limits, State(), agent, request)
    {
      var llm := LlmAmount(request);
      var held := if agent in counts then counts[agent] else 0;
      held + llm <= (if llm > 1 then llm else 1) && total + llm <= limits.llmMax
    }

    method Record(task: Id, agent: Id, request: Amounts, id: Id)
      modifies this
      ensures State() == Grant(old(State()), task, agent, request, id)
    {
      leases := leases[id := Lease(task, agent, request, true, "")];
      byTask := byTask[task := id];
    }

    method ReleaseAll(agent: Id, n: nat)
      modifies this
      ensures State() == ReleaseSlots(old(State()), agent, n)
    {
      var i := 0;
      while i < n
        invariant 0 <= i <= n
        invariant State() == ReleaseSlots(old(State()), agent, i)
      {
        ReleaseLlm(agent);
        i := i + 1;
      }
    }

    method Release(id: Id)
      modifies this
      ensures State() == ResourceSpec.Release(old(State()), id)
      ensures old(Conserved()) ==> Conserved()
    {
      hide SubAll, ReleaseSlots, Slots, ResourceRuns.Inv;
      if Conserved() { ResourceRuns.ReleaseKeeps(limits, State(), id); }
      if id !in leases || !leases[id].active {
        return;
      }
      var lease := leases[id];
      SubUsage(lease.request);
      LeasesUntouched(State(), lease.agent, Slots(lease.request));
      ReleaseAll(lease.agent, Slots(lease.request));
      leases := leases[id := lease.(active := false)];
      byTask := byTask - {lease.task};
    }

    method ReleaseNamed(name: Id)
      modifies this
      ensures State() == ResourceSpec.ReleaseNamed(old(State()), name)
      ensures old(Conserved()) ==> Conserved()
    {
      hide ResourceSpec.Release, ResourceRuns.Inv;
      Release(if name in byTask then byTask[name] else name);
    }

    method Reclaim(task: Id, reason: string)
      modifies this
      ensures State() == ResourceSpec.Reclaim(old(State()), task, reason)
      ensures old(Conserved()) ==> Conserved()
    {
      hide ResourceSpec.Release, ResourceRuns.Inv;
      if Conserved() { ResourceRuns.ReclaimKeeps(limits, State(), task, reason); }
      if task !in byTask || byTask[task] !in leases {
        return;
      }
      var id := byTask[task];
      Release(id);
      if id in leases {
        leases := leases[id := leases[id].(active := false, reason := reason)];
        reclaimed := reclaimed + [id];
      }
    }
  }

  lemma UsageUntouched(s: RState, agent: Id, n: nat)
    ensures TakeSlots(s, agent, n).usage == s.usage
  {
  }

  lemma {:induction false} LeasesUntouched(s: RState, agent: Id, n: nat)
    ensures ReleaseSlots(s, agent, n).leases == s.leases && ReleaseSlots(s, agent, n).byTask == s.byTask
  {
    if n == 0 {
    } else {
      LeasesUntouched(s, agent, n - 1);
    }
  }
}
