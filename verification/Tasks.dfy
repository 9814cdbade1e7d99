/** Task records, their status table and their failure policies. */
module Tasks {
  import opened Graphs

  datatype Option<+T> = None | Some(value: T)

  datatype Status =
    | Pending | Ready | Running | Blocked | Orphaned | Timeout
    | Retrying | Fallback | Success | Failed | Cancelled

  datatype Mode = RetryMode | FallbackMode | DegradeMode | FailOpen | FailClosed

  /** What a scheduler operation can raise. */
  datatype Error =
    | UnknownTask(id: Id)
    | StateForbidsUpdate
    | SelfDependency
    | CyclicDependency(dep: Id)
    | InvalidTransition(from: Status, to: Status)

  datatype Result<+T> = Ok(value: T) | Err(error: Error) {
    predicate IsFailure() { Err? }
    function PropagateFailure<U>(): Result<U> requires Err? { Err(error) }
    function Extract(): T requires Ok? { value }
  }

  /** The part of a task that the schedulers read or write.
      `ownMode` is the task's failure mode when it was set explicitly. `blockReason` is the
      field the schedulers read; `tcbReason` is the copy in the control block, which
      overwrites it at every transition. */
  datatype Task = Task(
    priority: int,
    createdAt: real,
    declared: seq<Id>,
    edgeModes: map<Id, Mode>,
    ownMode: Option<Mode>,
    status: Status,
    blockReason: string,
    tcbReason: string)

  function Allowed(s: Status): set<Status> {
    match s
    case Pending => {Ready, Blocked, Failed, Cancelled}
    case Ready => {Pending, Running, Blocked, Failed, Cancelled}
    case Running => {Pending, Orphaned, Timeout, Retrying, Fallback, Success, Failed, Cancelled}
    case Blocked => {Pending, Ready, Failed, Cancelled}
    case Orphaned => {Ready, Retrying, Failed, Cancelled}
    case Timeout => {Retrying, Fallback, Failed, Cancelled}
    case Retrying => {Ready, Running, Failed, Cancelled}
    case Fallback => {Ready, Running, Failed, Cancelled}
    case Success => {}
    case Failed => {Ready}
    case Cancelled => {}
  }

  predicate CanMove(from: Status, to: Status) {
    from == to || to in Allowed(from)
  }

  /** The table read the other way round: from where each status can be entered. Nothing leaves SUCCESS
      or CANCELLED; a failed task can only be made ready again; and every other task can fail or be
      cancelled. */
  lemma EnteredFrom(from: Status, to: Status)
    ensures to in Allowed(from) <==>
      match to
      case Pending => from in {Ready, Running, Blocked}
      case Ready => from in {Pending, Blocked, Orphaned, Retrying, Fallback, Failed}
      case Running => from in {Ready, Retrying, Fallback}
      case Blocked => from in {Pending, Ready}
      case Orphaned => from == Running
      case Timeout => from == Running
      case Retrying => from in {Running, Orphaned, Timeout}
      case Fallback => from in {Running, Timeout}
      case Success => from == Running
      case Failed => from !in {Success, Failed, Cancelled}
      case Cancelled => from !in {Success, Failed, Cancelled}
  {
  }

  function Transition(t: Task, to: Status): Result<Task> {
    if CanMove(t.status, to)
    then Ok(t.(status := to, blockReason := t.tcbReason))
    else Err(InvalidTransition(t.status, to))
  }

  /** The task after a transition to READY. */
  function Readied(t: Task): Task {
    t.(status := Ready, blockReason := t.tcbReason)
  }

  /** A task as it is created. */
  predicate Fresh(t: Task, declared: seq<Id>) {
    t.declared == declared && t.status == Pending && t.blockReason == t.tcbReason == ""
  }

  /** From TIMEOUT back to RUNNING, over RETRYING. Going over FALLBACK gives the same. */
  function Restarted(t: Task): Result<Task> {
    var t1 :- Transition(t, Retrying);
    Transition(t1, Running)
  }

  function Block(t: Task, reason: string): Result<Task> {
    if CanMove(t.status, Blocked)
    then Ok(t.(status := Blocked, blockReason := reason, tcbReason := reason))
    else Err(InvalidTransition(t.status, Blocked))
  }

  function Unblock(t: Task): Result<Task> {
    Transition(t.(tcbReason := ""), Ready)
  }

  /** The mode that decides what happens to `dependent` when task `id` fails: the edge's own
      policy, else the failing task's policy if one was given. */
  function EffectiveMode(dependent: Task, id: Id, failing: Task): Option<Mode> {
    if id in dependent.edgeModes then Some(dependent.edgeModes[id]) else failing.ownMode
  }

  /** m is the policy that decides what the failure of `id` means for `dependent`: the edge has it, or
      the edge has none and it was given to the failing task. */
  predicate Decides(m: Mode, dependent: Task, id: Id, failing: Task) {
    || (id in dependent.edgeModes && dependent.edgeModes[id] == m)
    || (id !in dependent.edgeModes && failing.ownMode == Some(m))
  }

  /** The failed dependency stops holding the dependent back. */
  predicate Excused(dependent: Task, id: Id, failing: Task) {
    || Decides(FailOpen, dependent, id, failing)
    || Decides(DegradeMode, dependent, id, failing)
    || Decides(FallbackMode, dependent, id, failing)
  }

  /** The modes under which a failed dependency stops holding back its dependent. */
  predicate Waives(m: Option<Mode>) {
    m == Some(FailOpen) || m == Some(DegradeMode) || m == Some(FallbackMode)
  }

  /** A task's place in the dependency graph: dependencies still open, and known dependents. */
  datatype Node = Node(task: Task, open: set<Id>, dependents: set<Id>)

  type Nodes = map<Id, Node>

  function DependentsGraph(nodes: Nodes): Graph {
    map k | k in nodes :: nodes[k].dependents
  }

  function SetTask(nodes: Nodes, id: Id, t: Task): Nodes
    requires id in nodes
  {
    nodes[id := nodes[id].(task := t)]
  }

  function SetOpen(nodes: Nodes, id: Id, open: set<Id>): Nodes
    requires id in nodes
  {
    nodes[id := nodes[id].(open := open)]
  }

  /** Python's list.remove guarded by a membership test: drops the first occurrence. */
  function RemoveFirst(q: seq<Id>, id: Id): (r: seq<Id>)
    ensures |r| <= |q|
  {
    if q == [] then []
    else if q[0] == id then q[1..]
    else [q[0]] + RemoveFirst(q[1..], id)
  }

  lemma {:induction false} RemoveFirstDistinct(q: seq<Id>, id: Id)
    requires NoDuplicates(q)
    ensures NoDuplicates(RemoveFirst(q, id))
    ensures forall x :: x in RemoveFirst(q, id) <==> x in q && x != id
  {
    if q == [] {
    } else {
      assert q == [q[0]] + q[1..];
      assert q[0] !in q[1..];
      RemoveFirstDistinct(q[1..], id);
      if q[0] != id {
        var r := RemoveFirst(q[1..], id);
        assert q[0] !in r;
        assert NoDuplicates([q[0]] + r);
      }
    }
  }

  lemma {:induction false} OthersSurvive(q: seq<Id>, x: Id, a: Id)
    requires a != x
    ensures a in RemoveFirst(q, x) <==> a in q
  {
    if q == [] {
    } else {
      OthersSurvive(q[1..], x, a);
      assert q == [q[0]] + q[1..];
    }
  }

  lemma RemoveAbsent(q: seq<Id>, id: Id)
    requires id !in q
    ensures RemoveFirst(q, id) == q
  {
  }

  /** Some iteration order of a set: every member once. */
  ghost predicate Enumerates(order: seq<Id>, s: set<Id>) {
    NoDuplicates(order) && forall x :: x in order <==> x in s
  }

  /** Iterates over a set in some order. */
  method Listed(s: set<Id>) returns (order: seq<Id>)
    ensures Enumerates(order, s)
  {
    order := [];
    var rest := s;
    while rest != {}
      invariant rest <= s && NoDuplicates(order)
      invariant forall x :: x in order <==> x in s && x !in rest
      decreases rest
    {
      var x :| x in rest;
      order := order + [x];
      rest := rest - {x};
    }
  }

  /** dict.fromkeys: the distinct ids in order of first appearance. */
  function Unique(ids: seq<Id>): (r: seq<Id>)
    ensures forall x :: x in r <==> x in ids
  {
    if ids == [] then []
    else
      var front := Unique(ids[..|ids| - 1]);
      if ids[|ids| - 1] in front then front else front + [ids[|ids| - 1]]
  }

  function Elements(q: seq<Id>): set<Id> {
    set x | x in q
  }

  lemma Singleton(d: Id)
    ensures Unique([d]) == [d]
  {
    assert [d][..0] == [];
  }

  lemma {:induction false} CountDistinct(q: seq<Id>)
    requires NoDuplicates(q)
    ensures |Elements(q)| == |q|
  {
    if q == [] {
      assert Elements(q) == {};
    } else {
      var front, last := q[..|q| - 1], q[|q| - 1];
      assert q == front + [last];
      CountDistinct(front);
      assert Elements(q) == Elements(front) + {last};
      assert last !in front;
    }
  }
}
