/** The plain dependency scheduler as a state and one function per operation. */
module DagSpec {
  import opened Graphs
  import opened Tasks
  import opened TaskGraph

  datatype DState = DState(
    nodes: Nodes,
    queue: seq<Id>,
    waiting: seq<Id>,
    completed: set<Id>,
    failed: set<Id>)

  function Initial(): DState {
    DState(map[], [], [], {}, {})
  }

  predicate Typed(s: DState) {
    forall id :: id in s.queue ==> id in s.nodes
  }

  function Enqueue(s: DState, id: Id, task: Task): Result<DState> {
    var nodes := EnqueueNodes(s.nodes, s.completed, id, task);
    if nodes[id].open == {} then
      var t :- Transition(nodes[id].task, Ready);
      Ok(s.(nodes := SetTask(nodes, id, t), queue := s.queue + [id]))
    else
      var t :- Transition(nodes[id].task, Pending);
      Ok(s.(nodes := SetTask(nodes, id, t), queue := s.queue + [id], waiting := s.waiting + [id]))
  }

  /** A queued task with something open goes back to PENDING. */
  function Repend(s: DState, id: Id): Result<DState>
    requires id in s.nodes
  {
    if id in s.queue && s.nodes[id].open != {} then
      var t :- Transition(s.nodes[id].task, Pending);
      Ok(s.(nodes := SetTask(s.nodes, id, t),
            waiting := if id in s.waiting then s.waiting else s.waiting + [id]))
    else Ok(s)
  }

  ghost function AddDependencies(s: DState, id: Id, deps: seq<Id>): Result<DState> {
    if id !in s.nodes then Err(UnknownTask(id))
    else if s.nodes[id].task.status in {Running, Success, Failed, Cancelled} then Err(StateForbidsUpdate)
    else if id in deps then Err(SelfDependency)
    else
      match FirstBad(s.nodes, id, Unique(deps))
      case Some(e) => Err(e)
      case None =>
        Repend(s.(nodes := AddAll(s.nodes, s.completed, id, Unique(deps))), id)
  }

  /** The first task of q with nothing open. The status is not looked at. */
  function FirstReady(s: DState, q: seq<Id>): (r: Option<Id>)
    ensures r.Some? ==> r.value in q && r.value in s.nodes && s.nodes[r.value].open == {}
    ensures r.None? ==> forall id :: id in q && id in s.nodes ==> s.nodes[id].open != {}
  {
    if q == [] then None
    else if q[0] in s.nodes && s.nodes[q[0]].open == {} then Some(q[0])
    else FirstReady(s, q[1..])
  }

  function Dequeue(s: DState): Result<(DState, Option<Id>)> {
    match FirstReady(s, s.queue)
    case None => Ok((s, None))
    case Some(id) =>
      var t :- Transition(s.nodes[id].task, Running);
      Ok((s.(nodes := SetTask(s.nodes, id, t), queue := RemoveFirst(s.queue, id),
             waiting := RemoveFirst(s.waiting, id)), Some(id)))
  }

  // ---- complete_task ----

  function ReleaseOne(s: DState, id: Id, dep: Id): Result<DState> {
    if dep !in s.nodes || id !in s.nodes[dep].open then Ok(s)
    else
      var s1 := s.(nodes := SetOpen(s.nodes, dep, s.nodes[dep].open - {id}));
      if s1.nodes[dep].open != {} then Ok(s1)
      else
        var t :- Transition(s1.nodes[dep].task, Ready);
        Ok(s1.(nodes := SetTask(s1.nodes, dep, t), waiting := RemoveFirst(s.waiting, dep)))
  }

  function ReleaseAll(s: DState, id: Id, order: seq<Id>): Result<DState>
    decreases |order|
  {
    if order == [] then Ok(s)
    else
      var s1 :- ReleaseOne(s, id, order[0]);
      ReleaseAll(s1, id, order[1..])
  }

  function Complete(s: DState, id: Id, order: seq<Id>): Result<DState> {
    if id !in s.nodes then Ok(s)
    else ReleaseAll(s.(completed := s.completed + {id}), id, order)
  }

  // ---- fail_task ----

  /** A failed dependency stops holding `dep` back. The waiting queue is left as it is. */
  function WaiveOne(s: DState, id: Id, dep: Id): Result<DState>
    requires dep in s.nodes
  {
    var s1 := s.(nodes := SetOpen(s.nodes, dep, s.nodes[dep].open - {id}));
    if s1.nodes[dep].open != {} then Ok(s1)
    else
      var t :- Transition(s1.nodes[dep].task, Ready);
      Ok(s1.(nodes := SetTask(s1.nodes, dep, t)))
  }

  function CloseOne(s: DState, dep: Id): Result<DState>
    requires dep in s.nodes
  {
    var t :- Transition(s.nodes[dep].task, Failed);
    Ok(s.(nodes := SetTask(s.nodes, dep, t), failed := s.failed + {dep}))
  }

  /** The loop of fail_task over the dependents `todo` of the failed task `id`, recursive calls
      included. `orders(a)` is the order in which a's dependents are visited. */
  function Cascade(s: DState, id: Id, todo: seq<Id>, orders: Id -> seq<Id>): (r: Result<DState>)
    requires id in s.nodes
    ensures r.Ok? ==> r.value.nodes.Keys == s.nodes.Keys && s.failed <= r.value.failed
    decreases s.nodes.Keys - s.failed, |todo|
  {
    if todo == [] then Ok(s)
    else
      var dep := todo[0];
      if dep !in s.nodes || dep in s.failed then Cascade(s, id, todo[1..], orders)
      else
        var mode := EffectiveMode(s.nodes[dep].task, id, s.nodes[id].task);
        if mode == Some(FailClosed) then
          var s1 :- CloseOne(s, dep);
          assert dep in s.nodes.Keys - s.failed && dep !in s1.nodes.Keys - s1.failed;
          var s2 :- Cascade(s1, dep, orders(dep), orders);
          assert dep !in s2.nodes.Keys - s2.failed;
          Cascade(s2, id, todo[1..], orders)
        else if Waives(mode) then
          var s1 :- WaiveOne(s, id, dep);
          assert s1.nodes.Keys - s1.failed == s.nodes.Keys - s.failed;
          Cascade(s1, id, todo[1..], orders)
        else Cascade(s, id, todo[1..], orders)
  }

  function Fail(s: DState, id: Id, orders: Id -> seq<Id>): Result<DState> {
    if id !in s.nodes then Ok(s)
    else Cascade(s.(failed := s.failed + {id}), id, orders(id), orders)
  }

  ghost predicate OrdersOk(nodes: Nodes, orders: Id -> seq<Id>) {
    forall a :: a in nodes ==> Enumerates(orders(a), nodes[a].dependents)
  }
}
