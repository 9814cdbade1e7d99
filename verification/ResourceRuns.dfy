/** Conservation: the tables of the monitor against the leases that are active. */
module ResourceRuns {
  import opened Graphs
  import opened Tasks
  import opened ResourceSpec

  // ---- sums over leases ----

  datatype Measure = Used(c: Class) | SlotsOf(agent: Id) | AllSlots

  /** What one lease contributes while it is active. */
  function Weight(l: Lease, w: Measure): real {
    if !l.active then 0.0
    else
      match w
      case Used(c) => Get(l.request, c)
      case SlotsOf(agent) => if l.agent == agent then Slots(l.request) as real else 0.0
      case AllSlots => Slots(l.request) as real
  }

  ghost function Total(m: map<Id, Lease>, w: Measure): real {
    if m == map[] then 0.0
    else
      var k :| k in m;
      Weight(m[k], w) + Total(m - {k}, w)
  }

  /** The sum does not depend on the order it is taken in. */
  lemma {:induction false} TotalSplit(m: map<Id, Lease>, w: Measure, k: Id)
    requires k in m
    ensures Total(m, w) == Weight(m[k], w) + Total(m - {k}, w)
    decreases |m|
  {
    hide Weight;
    var j :| j in m && Total(m, w) == Weight(m[j], w) + Total(m - {j}, w);
    if j != k {
      TotalSplit(m - {j}, w, k);
      TotalSplit(m - {k}, w, j);
      assert m - {j} - {k} == m - {k} - {j};
    }
  }

  lemma TotalUpdate(m: map<Id, Lease>, w: Measure, k: Id, l: Lease)
    ensures Total(m[k := l], w) == Total(m, w) - (if k in m then Weight(m[k], w) else 0.0) + Weight(l, w)
  {
    hide Weight;
    TotalSplit(m[k := l], w, k);
    if k in m {
      TotalSplit(m, w, k);
      assert m[k := l] - {k} == m - {k};
    } else {
      assert m[k := l] - {k} == m;
    }
  }

  ghost predicate NonNegative(request: Amounts) {
    forall c :: c in request ==> request[c] >= 0.0
  }

  ghost predicate AllNonNegative(m: map<Id, Lease>) {
    forall k :: k in m ==> NonNegative(m[k].request)
  }

  /** No active lease weighs more than all of them together. */
  lemma {:induction false} TotalCovers(m: map<Id, Lease>, w: Measure)
    requires AllNonNegative(m)
    ensures Total(m, w) >= 0.0
    ensures forall k :: k in m ==> Weight(m[k], w) <= Total(m, w)
    decreases |m|
  {
    forall k | k in m ensures 0.0 <= Weight(m[k], w) <= Total(m, w) {
      TotalSplit(m, w, k);
      TotalCovers(m - {k}, w);
    }
    if m == map[] {
    } else {
      var k :| k in m;
      assert 0.0 <= Weight(m[k], w) <= Total(m, w);
    }
  }

  ghost function CountTotal(m: map<Id, int>): int {
    if m == map[] then 0
    else
      var k :| k in m;
      m[k] + CountTotal(m - {k})
  }

  lemma {:induction false} CountTotalSplit(m: map<Id, int>, k: Id)
    requires k in m
    ensures CountTotal(m) == m[k] + CountTotal(m - {k})
    decreases |m|
  {
    var j :| j in m && CountTotal(m) == m[j] + CountTotal(m - {j});
    if j != k {
      CountTotalSplit(m - {j}, k);
      CountTotalSplit(m - {k}, j);
      assert m - {j} - {k} == m - {k} - {j};
    }
  }

  lemma CountTotalUpdate(m: map<Id, int>, k: Id, n: int)
    ensures CountTotal(m[k := n]) == CountTotal(m) - (if k in m then m[k] else 0) + n
  {
    CountTotalSplit(m[k := n], k);
    if k in m {
      CountTotalSplit(m, k);
      assert m[k := n] - {k} == m - {k};
    } else {
      assert m[k := n] - {k} == m;
    }
  }

  // ---- invariant ----

  ghost predicate UsageInv(lim: Limits, s: RState) {
    forall c ::
      && Get(s.usage, c) == Total(s.leases, Used(c))
      && (Get(lim.quota, c) > 0.0 ==> Get(s.usage, c) <= Get(lim.quota, c))
  }

  ghost predicate CountsOk(s: RState) {
    s.activeAgents == s.counts.Keys && forall a :: a in s.counts ==> s.counts[a] >= 1
  }

  ghost predicate SlotInv(lim: Limits, s: RState) {
    && (forall a :: Count(s, a) as real == Total(s.leases, SlotsOf(a)))
    && CountsOk(s)
    && s.total as real == Total(s.leases, AllSlots)
    && s.total == CountTotal(s.counts)
    && (s.total <= lim.llmMax || s.total == 0)
  }

  predicate HoldsSlots(m: map<Id, Lease>, i: Id) {
    i in m && m[i].active && Slots(m[i].request) > 0
  }

  /** An agent holds at most one active lease with LLM slots. */
  ghost predicate OneLlmLease(m: map<Id, Lease>) {
    forall i, j :: HoldsSlots(m, i) && HoldsSlots(m, j) && m[i].agent == m[j].agent ==> i == j
  }

  /** The task index points to active leases, the reclaimed ones are inactive and listed once. */
  ghost predicate IndexInv(s: RState) {
    && (forall t :: t in s.byTask ==>
          s.byTask[t] in s.leases && s.leases[s.byTask[t]].active && s.leases[s.byTask[t]].task == t)
    && (forall r :: r in s.reclaimed ==> r in s.leases && !s.leases[r].active)
    && NoDuplicates(s.reclaimed)
  }

  ghost predicate Inv(lim: Limits, s: RState) {
    UsageInv(lim, s) && SlotInv(lim, s) && OneLlmLease(s.leases) && IndexInv(s) && AllNonNegative(s.leases)
  }

  lemma EmptyInv(lim: Limits)
    ensures Inv(lim, EMPTY)
  {
  }

  // ---- acquire ----

  lemma AcquireUsage(lim: Limits, s: RState, task: Id, agent: Id, request: Amounts, id: Id, cpuOk: bool, memoryOk: bool)
    requires UsageInv(lim, s) && id !in s.leases
    ensures UsageInv(lim, Acquire(lim, s, task, agent, request, id, cpuOk, memoryOk))
  {
    hide Total, LlmAmount, SlotsFree;
    var s' := Acquire(lim, s, task, agent, request, id, cpuOk, memoryOk);
    if Grants(lim, s, agent, request, cpuOk, memoryOk) {
      forall c
        ensures Get(s'.usage, c) == Total(s'.leases, Used(c))
        ensures Get(lim.quota, c) > 0.0 ==> Get(s'.usage, c) <= Get(lim.quota, c)
      {
        TotalUpdate(s.leases, Used(c), id, Lease(task, agent, request, true, ""));
        assert request != map[] ==> FitsQuota(lim, s.usage, request, c);
      }
    }
  }

  /** The slots of every agent after a grant. */
  lemma TakenCounts(s: RState, agent: Id, n: nat, a: Id)
    ensures Count(TakeSlots(s, agent, n), a) == Count(s, a) + if a == agent then n else 0
    ensures TakeSlots(s, agent, n).total == s.total + n
    ensures TakeSlots(s, agent, n).leases == s.leases
  {
  }

  lemma TakenTables(s: RState, agent: Id, n: nat)
    requires CountsOk(s)
    ensures CountsOk(TakeSlots(s, agent, n))
    ensures CountTotal(TakeSlots(s, agent, n).counts) == CountTotal(s.counts) + n
  {
    hide CountTotal;
    CountTotalUpdate(s.counts, agent, Count(s, agent) + n);
  }

  /** A request with slots is granted only to an agent that holds none. */
  lemma GrantMeansFree(lim: Limits, s: RState, agent: Id, request: Amounts, cpuOk: bool, memoryOk: bool)
    requires CountsOk(s) && Grants(lim, s, agent, request, cpuOk, memoryOk) && Slots(request) > 0
    ensures Count(s, agent) == 0 && s.total + Slots(request) <= lim.llmMax
  {
    hide CanAllocate;
    CountIsPositive(s, agent);
  }

  lemma AcquireSlots(lim: Limits, s: RState, task: Id, agent: Id, request: Amounts, id: Id, cpuOk: bool, memoryOk: bool)
    requires SlotInv(lim, s) && id !in s.leases && NonNegative(request)
    requires Grants(lim, s, agent, request, cpuOk, memoryOk)
    ensures SlotInv(lim, Acquire(lim, s, task, agent, request, id, cpuOk, memoryOk))
    ensures Slots(request) > 0 ==> Count(s, agent) == 0 && Total(s.leases, SlotsOf(agent)) == 0.0
  {
    hide Total, CountTotal, CanAllocate, AddAll, Slots, TakeSlots, SlotsFree, Grants;
    var l, n := Lease(task, agent, request, true, ""), Slots(request);
    var s' := Acquire(lim, s, task, agent, request, id, cpuOk, memoryOk);
    EmptyHasNoSlots(request);
    TakenTables(s, agent, n);
    TakenCounts(s, agent, n, agent);
    if n > 0 { GrantMeansFree(lim, s, agent, request, cpuOk, memoryOk); }
    forall a ensures Count(s', a) as real == Total(s'.leases, SlotsOf(a)) {
      TotalUpdate(s.leases, SlotsOf(a), id, l);
      TakenCounts(s, agent, n, a);
    }
    TotalUpdate(s.leases, AllSlots, id, l);
  }

  lemma EmptyHasNoSlots(request: Amounts)
    ensures request == map[] ==> Slots(request) == 0
  {
  }

  lemma CountIsPositive(s: RState, agent: Id)
    requires forall a :: a in s.counts ==> s.counts[a] >= 1
    ensures Count(s, agent) >= 0
  {
  }

  /** An agent without slots has no active lease with slots. */
  lemma NoSlotsNoLease(m: map<Id, Lease>, agent: Id)
    requires AllNonNegative(m) && Total(m, SlotsOf(agent)) == 0.0
    ensures forall i :: HoldsSlots(m, i) ==> m[i].agent != agent
  {
    hide Total, Slots;
    TotalCovers(m, SlotsOf(agent));
    forall i | HoldsSlots(m, i) ensures m[i].agent != agent {
      assert Weight(m[i], SlotsOf(agent)) <= 0.0;
    }
  }

  lemma GrantKeepsOne(m: map<Id, Lease>, id: Id, l: Lease)
    requires OneLlmLease(m) && AllNonNegative(m) && id !in m && NonNegative(l.request)
    requires Slots(l.request) > 0 ==> forall i :: HoldsSlots(m, i) ==> m[i].agent != l.agent
    ensures OneLlmLease(m[id := l]) && AllNonNegative(m[id := l])
  {
    hide Slots, NonNegative;
    var m2 := m[id := l];
    forall i, j | HoldsSlots(m2, i) && HoldsSlots(m2, j) && m2[i].agent == m2[j].agent
      ensures i == j
    {
      assert i != id ==> HoldsSlots(m, i);
      assert j != id ==> HoldsSlots(m, j);
    }
  }

  lemma GrantKeepsIndex(s: RState, s': RState, task: Id, agent: Id, request: Amounts, id: Id)
    requires IndexInv(s) && id !in s.leases && s'.reclaimed == s.reclaimed
    requires s'.leases == s.leases[id := Lease(task, agent, request, true, "")] && s'.byTask == s.byTask[task := id]
    ensures IndexInv(s')
  {
  }

  lemma AcquireKeeps(lim: Limits, s: RState, task: Id, agent: Id, request: Amounts, id: Id, cpuOk: bool, memoryOk: bool)
    requires Inv(lim, s) && id !in s.leases && NonNegative(request)
    ensures Inv(lim, Acquire(lim, s, task, agent, request, id, cpuOk, memoryOk))
  {
    hide UsageInv, SlotInv, OneLlmLease, IndexInv, AllNonNegative, HoldsSlots;
    hide Grants, Slots, NonNegative, Total, AddAll;
    AcquireUsage(lim, s, task, agent, request, id, cpuOk, memoryOk);
    if Grants(lim, s, agent, request, cpuOk, memoryOk) {
      var s' := Acquire(lim, s, task, agent, request, id, cpuOk, memoryOk);
      AcquireSlots(lim, s, task, agent, request, id, cpuOk, memoryOk);
      if Slots(request) > 0 {
        NoSlotsNoLease(s.leases, agent);
      }
      GrantKeepsOne(s.leases, id, Lease(task, agent, request, true, ""));
      GrantKeepsIndex(s, s', task, agent, request, id);
    }
  }

  // ---- release ----

  /** s' is s with n slots of the agent taken off, exactly. */
  ghost predicate TakenOff(s: RState, s': RState, agent: Id, n: int) {
    && s' == s.(counts := s'.counts, total := s.total - n, activeAgents := s'.activeAgents)
    && (forall a :: Count(s', a) == Count(s, a) - if a == agent then n else 0)
    && CountsOk(s') && CountTotal(s'.counts) == CountTotal(s.counts) - n
  }

  lemma ReleaseSlotExact(s: RState, agent: Id)
    requires 1 <= Count(s, agent) && 1 <= s.total && CountsOk(s)
    ensures TakenOff(s, ReleaseSlot(s, agent), agent, 1)
  {
    hide CountTotal;
    if s.counts[agent] == 1 {
      CountTotalSplit(s.counts, agent);
    } else {
      CountTotalUpdate(s.counts, agent, s.counts[agent] - 1);
    }
  }

  lemma TakenOffMore(s: RState, p: RState, s': RState, agent: Id, n: int)
    requires TakenOff(s, p, agent, n) && TakenOff(p, s', agent, 1)
    ensures TakenOff(s, s', agent, n + 1)
  {
    hide CountTotal, Count;
  }

  /** n calls of release_llm, when the agent holds that many slots: exact subtraction. */
  lemma {:induction false} ReleaseSlotsExact(s: RState, agent: Id, n: nat)
    requires n <= Count(s, agent) && n <= s.total && CountsOk(s)
    ensures TakenOff(s, ReleaseSlots(s, agent, n), agent, n)
  {
    hide CountTotal, ReleaseSlot;
    if n == 0 {
    } else {
      ReleaseSlotsExact(s, agent, n - 1);
      var p := ReleaseSlots(s, agent, n - 1);
      ReleaseSlotExact(p, agent);
      TakenOffMore(s, p, ReleaseSlots(s, agent, n), agent, n - 1);
    }
  }

  /** The clamp of the usage and of the slot count never fires when an active lease is released. */
  lemma ClampNeverFires(lim: Limits, s: RState, id: Id)
    requires Inv(lim, s) && id in s.leases && s.leases[id].active
    ensures
      var l := s.leases[id];
      && (forall c :: Get(l.request, c) <= Get(s.usage, c))
      && Slots(l.request) <= Count(s, l.agent) && Slots(l.request) <= s.total
  {
    hide Total, Slots, CountTotal, OneLlmLease, IndexInv;
    var l := s.leases[id];
    forall c ensures Get(l.request, c) <= Get(s.usage, c) {
      TotalCovers(s.leases, Used(c));
      assert Weight(s.leases[id], Used(c)) <= Total(s.leases, Used(c));
    }
    TotalCovers(s.leases, SlotsOf(l.agent));
    assert Weight(s.leases[id], SlotsOf(l.agent)) <= Total(s.leases, SlotsOf(l.agent));
    TotalCovers(s.leases, AllSlots);
    assert Weight(s.leases[id], AllSlots) <= Total(s.leases, AllSlots);
  }

  lemma ReleaseUsage(lim: Limits, s: RState, id: Id)
    requires Inv(lim, s) && id in s.leases && s.leases[id].active
    ensures
      var u := SubAll(s.usage, s.leases[id].request);
      var m := s.leases[id := s.leases[id].(active := false)];
      forall c ::
        && Get(u, c) == Get(s.usage, c) - Get(s.leases[id].request, c) == Total(m, Used(c))
        && (Get(lim.quota, c) > 0.0 ==> Get(u, c) <= Get(lim.quota, c))
  {
    hide Total, SlotInv, OneLlmLease, IndexInv, Slots;
    ClampNeverFires(lim, s, id);
    var l := s.leases[id];
    var u := SubAll(s.usage, l.request);
    var m := s.leases[id := l.(active := false)];
    forall c
      ensures Get(u, c) == Get(s.usage, c) - Get(l.request, c) == Total(m, Used(c))
      ensures Get(lim.quota, c) > 0.0 ==> Get(u, c) <= Get(lim.quota, c)
    {
      TotalUpdate(s.leases, Used(c), id, l.(active := false));
      AmountIsNonNegative(s.leases, id, c);
    }
  }

  lemma AmountIsNonNegative(m: map<Id, Lease>, id: Id, c: Class)
    requires AllNonNegative(m) && id in m
    ensures Get(m[id].request, c) >= 0.0
  {
  }

  /** What a release of an active lease does to the slots. */
  lemma ReleaseShape(lim: Limits, s: RState, id: Id)
    requires Inv(lim, s) && id in s.leases && s.leases[id].active
    ensures
      var l, s' := s.leases[id], Release(s, id);
      && s' == s.(usage := SubAll(s.usage, l.request), counts := s'.counts, total := s.total - Slots(l.request),
                  activeAgents := s'.activeAgents, leases := s.leases[id := l.(active := false)],
                  byTask := s.byTask - {l.task})
      && CountsOk(s') && CountTotal(s'.counts) == CountTotal(s.counts) - Slots(l.request)
      && Slots(l.request) <= s.total
    ensures forall a :: SlotsAfter(s, id, a)
  {
    hide Total, CountTotal, Slots, UsageInv, OneLlmLease, IndexInv, SubAll, AllNonNegative, ReleaseSlots;
    ClampNeverFires(lim, s, id);
    var l := s.leases[id];
    var s0 := s.(usage := SubAll(s.usage, l.request));
    ReleaseSlotsExact(s0, l.agent, Slots(l.request));
    var s1 := ReleaseSlots(s0, l.agent, Slots(l.request));
    forall a ensures SlotsAfter(s, id, a) {
      assert Count(s1, a) == Count(s0, a) - if a == l.agent then Slots(l.request) else 0;
    }
  }

  predicate SlotsAfter(s: RState, id: Id, a: Id)
    requires id in s.leases
  {
    Count(Release(s, id), a) == Count(s, a) - if a == s.leases[id].agent then Slots(s.leases[id].request) else 0
  }

  lemma ReleaseSlotInv(lim: Limits, s: RState, id: Id)
    requires Inv(lim, s) && id in s.leases && s.leases[id].active
    ensures SlotInv(lim, Release(s, id))
  {
    hide Total, CountTotal, Slots, UsageInv, OneLlmLease, IndexInv, SubAll, AllNonNegative, Release;
    ReleaseShape(lim, s, id);
    var l, s' := s.leases[id], Release(s, id);
    forall a ensures Count(s', a) as real == Total(s'.leases, SlotsOf(a)) {
      TotalUpdate(s.leases, SlotsOf(a), id, l.(active := false));
      assert SlotsAfter(s, id, a);
    }
    TotalUpdate(s.leases, AllSlots, id, l.(active := false));
  }

  lemma ReleaseKeeps(lim: Limits, s: RState, id: Id)
    requires Inv(lim, s)
    ensures Inv(lim, Release(s, id))
    ensures id in s.leases ==> id in Release(s, id).leases && !Release(s, id).leases[id].active
  {
    hide Total, CountTotal, Slots, SubAll, SlotInv, ReleaseSlots, NonNegative;
    if id in s.leases && s.leases[id].active {
      ReleaseUsage(lim, s, id);
      ReleaseSlotInv(lim, s, id);
      ReleaseShape(lim, s, id);
    }
  }

  /** Changing the reason of an inactive lease touches nothing that is counted. */
  lemma ReasonKeeps(lim: Limits, s: RState, id: Id, reason: string)
    requires Inv(lim, s) && id in s.leases && !s.leases[id].active && id !in s.reclaimed
    ensures Inv(lim, s.(leases := s.leases[id := s.leases[id].(active := false, reason := reason)],
                        reclaimed := s.reclaimed + [id]))
  {
    hide Total, CountTotal, Slots, NonNegative;
    var l := s.leases[id].(active := false, reason := reason);
    forall w: Measure ensures Total(s.leases[id := l], w) == Total(s.leases, w) {
      TotalUpdate(s.leases, w, id, l);
    }
  }

  lemma ReclaimKeeps(lim: Limits, s: RState, task: Id, reason: string)
    requires Inv(lim, s)
    ensures Inv(lim, Reclaim(s, task, reason))
  {
    hide UsageInv, SlotInv, OneLlmLease, AllNonNegative, Release;
    if task in s.byTask {
      var id := s.byTask[task];
      assert id !in s.reclaimed;
      ReleaseKeeps(lim, s, id);
      ReleaseKeepsReclaimed(lim, s, id);
      ReasonKeeps(lim, Release(s, id), id, reason);
    }
  }

  lemma ReleaseKeepsReclaimed(lim: Limits, s: RState, id: Id)
    requires Inv(lim, s)
    ensures Release(s, id).reclaimed == s.reclaimed
  {
    hide UsageInv, OneLlmLease, IndexInv, SlotInv, AllNonNegative, ReleaseSlots;
    if id in s.leases && s.leases[id].active { ReleaseShape(lim, s, id); }
  }

  // ---- runs ----

  datatype Op =
    | DoAcquire(task: Id, agent: Id, request: Amounts, id: Id, cpuOk: bool, memoryOk: bool)
    | DoRelease(id: Id)
    | DoReleaseNamed(name: Id)
    | DoReclaim(task: Id, reason: string)

  ghost predicate OpOk(s: RState, op: Op) {
    op.DoAcquire? ==> op.id !in s.leases && NonNegative(op.request)
  }

  ghost function Step(lim: Limits, s: RState, op: Op): RState {
    match op
    case DoAcquire(t, a, r, id, cpuOk, memoryOk) => Acquire(lim, s, t, a, r, id, cpuOk, memoryOk)
    case DoRelease(id) => Release(s, id)
    case DoReleaseNamed(name) => ReleaseNamed(s, name)
    case DoReclaim(t, reason) => Reclaim(s, t, reason)
  }

  ghost predicate Run(lim: Limits, states: seq<RState>, ops: seq<Op>) {
    && |states| == |ops| + 1 && states[0] == EMPTY
    && forall i :: 0 <= i < |ops| ==> OpOk(states[i], ops[i]) && states[i + 1] == Step(lim, states[i], ops[i])
  }

  lemma StepKeeps(lim: Limits, s: RState, op: Op)
    requires Inv(lim, s) && OpOk(s, op)
    ensures Inv(lim, Step(lim, s, op))
  {
    hide Inv, Acquire, Release, Reclaim;
    match op
    case DoAcquire(t, a, r, id, cpuOk, memoryOk) => AcquireKeeps(lim, s, t, a, r, id, cpuOk, memoryOk);
    case DoRelease(id) => ReleaseKeeps(lim, s, id);
    case DoReleaseNamed(name) => ReleaseKeeps(lim, s, if name in s.byTask then s.byTask[name] else name);
    case DoReclaim(t, reason) => ReclaimKeeps(lim, s, t, reason);
  }

  lemma {:induction false} RunKeeps(lim: Limits, states: seq<RState>, ops: seq<Op>, k: nat)
    requires Run(lim, states, ops) && k < |states|
    ensures Inv(lim, states[k])
  {
    hide Inv, Step, OpOk;
    if k == 0 {
      EmptyInv(lim);
    } else {
      RunKeeps(lim, states, ops, k - 1);
      StepKeeps(lim, states[k - 1], ops[k - 1]);
      assert states[k - 1 + 1] == Step(lim, states[k - 1], ops[k - 1]);
    }
  }

  /** In every reachable state the usage of every class is the sum over the active leases and stays
      within a positive quota; the slot total is the sum of the per-agent counts, each of which is
      the sum over the agent's active leases, and stays within the global limit. */
  lemma Conservation(lim: Limits, states: seq<RState>, ops: seq<Op>, k: nat)
    requires Run(lim, states, ops) && k < |states|
    ensures
      var s := states[k];
      && (forall c :: Get(s.usage, c) == Total(s.leases, Used(c)))
      && (forall c :: Get(lim.quota, c) > 0.0 ==> Get(s.usage, c) <= Get(lim.quota, c))
      && (forall a :: Count(s, a) as real == Total(s.leases, SlotsOf(a)))
      && s.total == CountTotal(s.counts) && s.total as real == Total(s.leases, AllSlots)
      && (s.total <= lim.llmMax || s.total == 0)
      && s.activeAgents == s.counts.Keys
      && OneLlmLease(s.leases)
  {
    hide Run, Total, CountTotal, OneLlmLease, IndexInv, AllNonNegative;
    RunKeeps(lim, states, ops, k);
  }

  /** An inactive lease stays inactive: it is released once, and reclaimed at most once. */
  lemma {:induction false} ReleasedOnce(lim: Limits, states: seq<RState>, ops: seq<Op>, i: nat, j: nat, id: Id)
    requires Run(lim, states, ops) && i <= j < |states|
    requires id in states[i].leases && !states[i].leases[id].active
    ensures id in states[j].leases && !states[j].leases[id].active
    ensures NoDuplicates(states[j].reclaimed)
    decreases j
  {
    hide Inv, Step, OpOk;
    RunKeeps(lim, states, ops, j);
    ReclaimedFacts(lim, states[j]);
    if i == j {
    } else {
      ReleasedOnce(lim, states, ops, i, j - 1, id);
      RunKeeps(lim, states, ops, j - 1);
      assert states[j - 1 + 1] == Step(lim, states[j - 1], ops[j - 1]);
      StepKeepsInactive(lim, states[j - 1], ops[j - 1], id);
    }
  }

  lemma ReclaimedFacts(lim: Limits, s: RState)
    requires Inv(lim, s)
    ensures NoDuplicates(s.reclaimed)
  {
  }

  lemma StepKeepsInactive(lim: Limits, s: RState, op: Op, id: Id)
    requires Inv(lim, s) && OpOk(s, op) && id in s.leases && !s.leases[id].active
    ensures id in Step(lim, s, op).leases && !Step(lim, s, op).leases[id].active
  {
    hide UsageInv, SlotInv, OneLlmLease, AllNonNegative, NonNegative, Grants, ReleaseSlots, SubAll;
    match op
    case DoAcquire(_, _, _, _, _, _) =>
    case DoRelease(x) => ReleaseKeepsInactive(s, x, id);
    case DoReleaseNamed(n) => ReleaseKeepsInactive(s, if n in s.byTask then s.byTask[n] else n, id);
    case DoReclaim(t, _) => if t in s.byTask { ReleaseKeepsInactive(s, s.byTask[t], id); }
  }

  lemma ReleaseKeepsInactive(s: RState, x: Id, id: Id)
    requires id in s.leases && !s.leases[id].active
    ensures id in Release(s, x).leases && !Release(s, x).leases[id].active
  {
  }

  /** Releasing or reclaiming again, in any combination, changes nothing: the first call takes the
      task out of the index and the lease out of the active ones. */
  lemma SecondCallDoesNothing(lim: Limits, s: RState, task: Id, reason: string, reason': string)
    requires Inv(lim, s) && task in s.byTask
    ensures
      var id := s.byTask[task];
      var released, reclaimed := Release(s, id), Reclaim(s, task, reason);
      && Release(released, id) == released && Reclaim(released, task, reason') == released
      && Release(reclaimed, id) == reclaimed && Reclaim(reclaimed, task, reason') == reclaimed
      && reclaimed.reclaimed == s.reclaimed + [id]
  {
    hide Total, CountTotal, Slots, UsageInv, SlotInv, OneLlmLease, AllNonNegative, ReleaseSlots, SubAll;
    var id := s.byTask[task];
    ReleaseShape(lim, s, id);
    ReleaseKeeps(lim, s, id);
  }

  // ---- what negative amounts do ----

  lemma {:induction false} SlotsLeaveUsage(s: RState, agent: Id, n: nat)
    ensures ReleaseSlots(s, agent, n).usage == s.usage
  {
    if n == 0 {
    } else {
      SlotsLeaveUsage(s, agent, n - 1);
    }
  }

  /** Without assuming non-negative amounts: releasing an active lease keeps usage equal to the sum
      over the active leases exactly if no class would go below zero. */
  lemma ReleaseIsExactIff(s: RState, id: Id)
    requires id in s.leases && s.leases[id].active && forall c :: Get(s.usage, c) == Total(s.leases, Used(c))
    ensures
      (forall c :: Get(Release(s, id).usage, c) == Total(Release(s, id).leases, Used(c))) <==>
      (forall c :: c in s.leases[id].request ==> s.leases[id].request[c] <= Get(s.usage, c))
  {
    hide Total, ReleaseSlots, Slots;
    var l, s' := s.leases[id], Release(s, id);
    SlotsLeaveUsage(s.(usage := SubAll(s.usage, l.request)), l.agent, Slots(l.request));
    forall c
      ensures Get(s'.usage, c) == Total(s'.leases, Used(c)) <==> (c in l.request ==> l.request[c] <= Get(s.usage, c))
    {
      TotalUpdate(s.leases, Used(c), id, l.(active := false));
    }
  }

  ghost predicate Sums(s: RState) {
    forall c :: Get(s.usage, c) == Total(s.leases, Used(c))
  }

  /** Releasing the lease takes no class below zero. */
  predicate Covered(s: RState, id: Id) {
    id in s.leases && s.leases[id].active ==>
      forall c :: c in s.leases[id].request ==> s.leases[id].request[c] <= Get(s.usage, c)
  }

  /** The lease an operation releases, if any, is covered. */
  predicate OpCovered(s: RState, op: Op) {
    match op
    case DoAcquire(_, _, _, _, _, _) => true
    case DoRelease(id) => Covered(s, id)
    case DoReleaseNamed(name) => Covered(s, if name in s.byTask then s.byTask[name] else name)
    case DoReclaim(task, _) => task in s.byTask ==> Covered(s, s.byTask[task])
  }

  lemma ReleaseSums(s: RState, id: Id)
    requires Sums(s)
    ensures Sums(Release(s, id)) <==> Covered(s, id)
  {
    hide Total, ReleaseSlots, SubAll, Slots;
    if id in s.leases && s.leases[id].active { ReleaseIsExactIff(s, id); }
  }

  lemma ReclaimSums(s: RState, task: Id, reason: string)
    requires Sums(s)
    ensures Sums(Reclaim(s, task, reason)) <==> task in s.byTask ==> Covered(s, s.byTask[task])
  {
    hide Total, Release;
    if task in s.byTask && s.byTask[task] in s.leases {
      var id := s.byTask[task];
      ReleaseSums(s, id);
      ReleasedStaysListed(s, id);
      var s1 := Release(s, id);
      var l := s1.leases[id].(active := false, reason := reason);
      forall c ensures Total(s1.leases[id := l], Used(c)) == Total(s1.leases, Used(c)) {
        TotalUpdate(s1.leases, Used(c), id, l);
      }
    }
  }

  lemma ReleasedStaysListed(s: RState, id: Id)
    requires id in s.leases
    ensures id in Release(s, id).leases && !Release(s, id).leases[id].active
  {
    hide ReleaseSlots;
  }

  lemma AcquireSums(lim: Limits, s: RState, op: Op)
    requires Sums(s) && op.DoAcquire? && op.id !in s.leases
    ensures Sums(Step(lim, s, op))
  {
    hide Total, Grants, Slots;
    forall c { TotalUpdate(s.leases, Used(c), op.id, Lease(op.task, op.agent, op.request, true, "")); }
  }

  /** A run with arbitrary amounts, negative ones included. */
  ghost predicate AnyRun(lim: Limits, states: seq<RState>, ops: seq<Op>) {
    && |states| == |ops| + 1 && states[0] == EMPTY
    && forall i :: 0 <= i < |ops| ==>
      (ops[i].DoAcquire? ==> ops[i].id !in states[i].leases) && states[i + 1] == Step(lim, states[i], ops[i])
  }

  lemma StepSums(lim: Limits, s: RState, op: Op)
    requires Sums(s) && (op.DoAcquire? ==> op.id !in s.leases)
    ensures Sums(Step(lim, s, op)) <==> OpCovered(s, op)
  {
    hide Sums, Covered, Acquire, Release, Reclaim;
    match op
    case DoAcquire(_, _, _, _, _, _) => AcquireSums(lim, s, op);
    case DoRelease(id) => ReleaseSums(s, id);
    case DoReleaseNamed(name) => ReleaseSums(s, if name in s.byTask then s.byTask[name] else name);
    case DoReclaim(task, reason) => ReclaimSums(s, task, reason);
  }

  /** For arbitrary amounts, usage is the sum over the active leases all along a run exactly if every
      released lease was covered by the usage when it was released. */
  lemma {:induction false} UsageIsExactIff(lim: Limits, states: seq<RState>, ops: seq<Op>, k: nat)
    requires AnyRun(lim, states, ops) && k <= |ops|
    ensures (forall i :: 0 <= i <= k ==> Sums(states[i])) <==> (forall i :: 0 <= i < k ==> OpCovered(states[i], ops[i]))
  {
    hide Sums, OpCovered, Step;
    if k == 0 {
      EmptySums();
    } else {
      UsageIsExactIff(lim, states, ops, k - 1);
      assert states[k - 1 + 1] == Step(lim, states[k - 1], ops[k - 1]);
      if Sums(states[k - 1]) { StepSums(lim, states[k - 1], ops[k - 1]); }
    }
  }

  lemma EmptySums()
    ensures Sums(EMPTY)
  {
  }

  /** With a negative amount among the leases the clamp fires: one unit is lost. */
  lemma NegativeAmountBreaks(lim: Limits, task: Id, agent: Id, first: Id, second: Id)
    requires lim.quota == map[] && lim.llmMax > 0 && first != second
    ensures
      var s1 := Acquire(lim, EMPTY, task, agent, map[Token := -1.0], first, true, true);
      var s2 := Acquire(lim, s1, task, agent, map[Token := 5.0], second, true, true);
      var s3 := Release(s2, second);
      Get(s3.usage, Token) == 0.0 && Total(s3.leases, Used(Token)) == -1.0
  {
    hide Total, ReleaseSlots;
    var a, b: Amounts := map[Token := -1.0], map[Token := 5.0];
    var s1 := Acquire(lim, EMPTY, task, agent, a, first, true, true);
    var l1 := Lease(task, agent, a, true, "");
    GrantedToken(lim, EMPTY, task, agent, -1.0, first);
    TotalUpdate(map[], Used(Token), first, l1);
    NothingLeased();
    GrantedToken(lim, s1, task, agent, 5.0, second);
    var s2 := Acquire(lim, s1, task, agent, b, second, true, true);
    var l2 := Lease(task, agent, b, true, "");
    TotalUpdate(s1.leases, Used(Token), second, l2);
    TotalUpdate(s2.leases, Used(Token), second, l2.(active := false));
    SlotsLeaveUsage(s2.(usage := SubAll(s2.usage, b)), agent, Slots(b));
  }

  lemma NothingLeased()
    ensures Total(map[], Used(Token)) == 0.0
  {
  }

  lemma GrantedToken(lim: Limits, s: RState, task: Id, agent: Id, amount: real, id: Id)
    requires lim.quota == map[] && lim.llmMax > 0 && s.total == 0 && Count(s, agent) == 0
    ensures
      var request: Amounts := map[Token := amount];
      var s' := Acquire(lim, s, task, agent, request, id, true, true);
      && s'.leases == s.leases[id := Lease(task, agent, request, true, "")]
      && Get(s'.usage, Token) == Get(s.usage, Token) + amount
      && s'.total == 0 && Count(s', agent) == 0
  {
    var request: Amounts := map[Token := amount];
    assert Token in request;
    assert forall c :: FitsQuota(lim, s.usage, request, c);
    assert LlmAmount(request) == 0;
  }
}
