/** What the operations of a run have done to each table of the router, said through the operations. */
module RouterTables {
  import opened Graphs
  import opened Tasks
  import opened RouterSpec
  import opened RouterRuns

  // ---- connections ----

  predicate Begins(op: Op, agent: Id, writer: nat) {
    op.DoRegister? && op.agent == agent && op.writer == writer
  }

  /** The coroutine that is resumed drops this connection of the agent, a write to it having failed. */
  predicate DropsAfterFailure(s: Sys, op: Op, agent: Id, writer: nat) {
    && op.Resume? && op.i < |s.flights|
    && var f := s.flights[op.i];
       && f.Delivery? && f.queue != [] && f.agent == agent
       && ((f.phase == Dropping && f.writer == writer) || f.phase == DroppingAgain(writer))
  }

  /** The agent is unregistered without a writer or with this one, or a failed write counts as such. */
  predicate Cuts(s: Sys, op: Op, agent: Id, writer: nat) {
    || op == DoUnregister(agent, None) || op == DoUnregister(agent, Some(writer))
    || DropsAfterFailure(s, op, agent, writer)
  }

  /** j is the latest register of the agent before k, with this writer, and has not been cut since. */
  ghost predicate LatestAt(states: seq<Sys>, ops: seq<Op>, j: nat, k: nat, agent: Id, writer: nat)
    requires k <= |ops| < |states|
  {
    && j < k && Begins(ops[j], agent, writer)
    && (forall i, w: nat :: j < i < k ==> !Begins(ops[i], agent, w))
    && (forall i :: j < i < k ==> !Cuts(states[i], ops[i], agent, writer))
  }

  ghost predicate Connected(states: seq<Sys>, ops: seq<Op>, k: nat, agent: Id, writer: nat)
    requires k <= |ops| < |states|
  {
    exists j: nat :: LatestAt(states, ops, j, k, agent, writer)
  }

  predicate IsConnection(c: Core, agent: Id, writer: nat) {
    agent in c.connections && c.connections[agent] == writer
  }

  /** What one operation does to the connection of an agent. */
  lemma ConnectionMoves(max: int, s: Sys, op: Op, agent: Id, writer: nat)
    ensures IsConnection(Step(max, s, op).core, agent, writer) <==>
      || Begins(op, agent, writer)
      || (&& IsConnection(s.core, agent, writer) && !(op.DoRegister? && op.agent == agent)
          && !Cuts(s, op, agent, writer))
  {
    hide RegisterQueue, Receive, Received, ReplayList, ReplayCount, PushFront, Enqueue, ResumeStep, DropsAfterFailure;
    match op
    case StartReplay(_, most, order) => ReplayConnections(s.core, order, most); NoDrop(s, op, agent, writer);
    case Send(m) => PutConnections(max, s.core, m); NoDrop(s, op, agent, writer);
    case Route(m) => PutConnections(max, s.core, m); NoDrop(s, op, agent, writer);
    case Resume(i, ok) => ResumeConnections(max, s, i, ok, agent, writer);
    case DoReceive(a, limit) => ReceiveConnections(s.core, a, limit); NoDrop(s, op, agent, writer);
    case _ => NoDrop(s, op, agent, writer);
  }

  lemma NoDrop(s: Sys, op: Op, agent: Id, writer: nat)
    requires !op.Resume?
    ensures !DropsAfterFailure(s, op, agent, writer)
  {
  }

  lemma ResumeConnections(max: int, s: Sys, i: nat, ok: bool, agent: Id, writer: nat)
    ensures i < |s.flights| ==>
      (IsConnection(ResumeStep(max, s, i, ok).core, agent, writer) <==>
       IsConnection(s.core, agent, writer) && !DropsAfterFailure(s, Resume(i, ok), agent, writer))
    ensures i >= |s.flights| ==> !DropsAfterFailure(s, Resume(i, ok), agent, writer)
  {
    hide ResumeStep;
    if i < |s.flights| { ResumeCore(max, s, i, ok); }
  }

  lemma ResumeCore(max: int, s: Sys, i: nat, ok: bool)
    requires i < |s.flights|
    ensures
      var f := s.flights[i];
      ResumeStep(max, s, i, ok).core.connections ==
        if f.queue == [] || f.Replay? then s.core.connections
        else if f.phase == Dropping then Unregister(s.core, f.agent, Some(f.writer)).connections
        else if f.phase.DroppingAgain? then Unregister(s.core, f.agent, Some(f.phase.other)).connections
        else s.core.connections
  {
    hide Enqueue, Unregister, Enters;
    if s.flights[i].queue != [] { PutConnections(max, s.core, s.flights[i].queue[0]); }
  }

  lemma ReceiveConnections(c: Core, agent: Id, limit: int)
    ensures Receive(c, agent, limit).connections == c.connections
  {
  }

  lemma PutConnections(max: int, c: Core, m: Message)
    ensures Enqueue(max, c, m).connections == c.connections
  {
  }

  lemma {:induction false} ReplayConnections(c: Core, order: seq<Message>, maxRetries: int)
    ensures ReplayCount(c, order, maxRetries).connections == c.connections
  {
    if order == [] {
    } else {
      ReplayConnections(c, order[..|order| - 1], maxRetries);
    }
  }

  /** In every run the connection of an agent is the writer of its latest register, unless that was cut
      since: by an unregister without a writer or with that very one, or by a failed write to it. */
  lemma {:induction false} ConnectionIff(max: int, states: seq<Sys>, ops: seq<Op>, k: nat, agent: Id, writer: nat)
    requires Run(max, states, ops) && k <= |ops| < |states|
    ensures
      var c := states[k].core;
      agent in c.connections && c.connections[agent] == writer <==> Connected(states, ops, k, agent, writer)
  {
    hide Step, OpOk, Begins, Cuts;
    if k == 0 {
    } else {
      ConnectionIff(max, states, ops, k - 1, agent, writer);
      assert states[k - 1 + 1] == Step(max, states[k - 1], ops[k - 1]);
      ConnectionMoves(max, states[k - 1], ops[k - 1], agent, writer);
      OneMoreStep(states, ops, k, agent, writer);
    }
  }

  lemma RegisterBegins(op: Op, agent: Id)
    ensures op.DoRegister? && op.agent == agent ==> exists w: nat :: Begins(op, agent, w)
  {
    if op.DoRegister? && op.agent == agent { assert Begins(op, agent, op.writer); }
  }

  lemma OneMoreStep(states: seq<Sys>, ops: seq<Op>, k: nat, agent: Id, writer: nat)
    requires 1 <= k <= |ops| < |states|
    ensures Connected(states, ops, k, agent, writer) <==>
      || Begins(ops[k - 1], agent, writer)
      || (&& Connected(states, ops, k - 1, agent, writer)
          && !(ops[k - 1].DoRegister? && ops[k - 1].agent == agent)
          && !Cuts(states[k - 1], ops[k - 1], agent, writer))
  {
    hide Cuts;
    if Begins(ops[k - 1], agent, writer) {
      assert LatestAt(states, ops, k - 1, k, agent, writer);
    }
    if Connected(states, ops, k - 1, agent, writer) && !(ops[k - 1].DoRegister? && ops[k - 1].agent == agent) &&
       !Cuts(states[k - 1], ops[k - 1], agent, writer)
    {
      var j: nat :| LatestAt(states, ops, j, k - 1, agent, writer);
      assert LatestAt(states, ops, j, k, agent, writer);
    }
    RegisterBegins(ops[k - 1], agent);
    if Connected(states, ops, k, agent, writer) {
      var j: nat :| LatestAt(states, ops, j, k, agent, writer);
      if j < k - 1 {
        assert LatestAt(states, ops, j, k - 1, agent, writer);
      }
    }
  }

  // ---- routing ----

  /** m has become the last dead letter of its addressee. */
  ghost predicate BuriedOne(c: Core, c': Core, m: Message) {
    Dead(c', m.to) == Dead(c, m.to) + [m] && forall a :: a != m.to ==> Dead(c', a) == Dead(c, a)
  }

  /** The message is put into the mailbox of its addressee, at the end, unless that one has processed
      it. A full mailbox loses its oldest message to the dead letters. A message that asks for an
      acknowledgement is recorded. No other table, mailbox or dead letter changes. */
  ghost predicate Queued(max: int, c: Core, c': Core, m: Message) {
    if m.id in Processed(c, m.to) then c' == c
    else
      var full := max > 0 && |Box(c, m.to)| >= max;
      && c' == c.(mailboxes := c'.mailboxes, dead := c'.dead, unacked := c'.unacked)
      && Box(c', m.to) == (if full then Box(c, m.to)[1..] else Box(c, m.to)) + [m]
      && (full ==> BuriedOne(c, c', Box(c, m.to)[0]))
      && (!full ==> c'.dead == c.dead)
      && c'.unacked == (if m.ackRequired then c.unacked[m.id := m] else c.unacked)
      && (forall a :: a != m.to ==> Box(c', a) == Box(c, a))
  }

  lemma EnqueueQueues(max: int, c: Core, m: Message)
    ensures Queued(max, c, Enqueue(max, c, m), m)
  {
  }

  /** At any route of any run: to an agent that is connected a delivery to exactly that writer starts
      and no table changes; for one that is not, the message goes into its mailbox. */
  lemma RouteFollowsConnection(max: int, states: seq<Sys>, ops: seq<Op>, k: nat)
    requires Run(max, states, ops) && k < |ops| < |states| && ops[k].Route?
    ensures
      var s, s', m := states[k], states[k + 1], ops[k].m;
      && (forall w: nat :: Connected(states, ops, k, m.to, w) ==>
            s'.core == s.core && s'.flights == s.flights + [Delivery(m.to, w, [m], Writing)])
      && ((forall w: nat :: !Connected(states, ops, k, m.to, w)) ==>
            Queued(max, s.core, s'.core, m) && s'.flights == s.flights)
  {
    hide Connected, Queued, Enqueue, OpOk;
    var s, m := states[k], ops[k].m;
    assert states[k + 1] == Step(max, s, ops[k]);
    EnqueueQueues(max, s.core, m);
    forall w: nat
      ensures m.to in s.core.connections && s.core.connections[m.to] == w <==> Connected(states, ops, k, m.to, w)
    {
      ConnectionIff(max, states, ops, k, m.to, w);
    }
    if m.to in s.core.connections { assert Connected(states, ops, k, m.to, s.core.connections[m.to]); }
  }

  /** At any send of any run the message goes into the mailbox of its addressee. */
  lemma SendQueues(max: int, states: seq<Sys>, ops: seq<Op>, k: nat)
    requires Run(max, states, ops) && k < |ops| < |states| && ops[k].Send?
    ensures Queued(max, states[k].core, states[k + 1].core, ops[k].m)
    ensures states[k + 1].flights == states[k].flights && states[k + 1].written == states[k].written
  {
    hide Queued, Enqueue, OpOk;
    assert states[k + 1] == Step(max, states[k], ops[k]);
    EnqueueQueues(max, states[k].core, ops[k].m);
  }

  // ---- writes ----

  /** Some earlier operation registered the agent with the writer. */
  ghost predicate WasRegistered(ops: seq<Op>, k: nat, agent: Id, writer: nat)
    requires k <= |ops|
  {
    exists j :: 0 <= j < k && Begins(ops[j], agent, writer)
  }

  ghost predicate FlightKnown(ops: seq<Op>, k: nat, f: Flight)
    requires k <= |ops|
  {
    f.Delivery? ==>
      && WasRegistered(ops, k, f.agent, f.writer)
      && (f.phase.Rewriting? || f.phase.DroppingAgain? ==> WasRegistered(ops, k, f.agent, f.phase.other))
  }

  /** Deliveries and what they have written go to connections registered for the agent. */
  ghost predicate WritersKnown(s: Sys, ops: seq<Op>, k: nat)
    requires k <= |ops|
  {
    && (forall i :: 0 <= i < |s.flights| ==> FlightKnown(ops, k, s.flights[i]))
    && (forall x :: x in s.written ==> WasRegistered(ops, k, x.message.to, x.writer))
  }

  lemma RegisteredStays(ops: seq<Op>, k: nat, agent: Id, writer: nat)
    requires 1 <= k <= |ops|
    ensures WasRegistered(ops, k - 1, agent, writer) ==> WasRegistered(ops, k, agent, writer)
    ensures Begins(ops[k - 1], agent, writer) ==> WasRegistered(ops, k, agent, writer)
  {
    hide Begins;
  }

  lemma ConnectedIsRegistered(states: seq<Sys>, ops: seq<Op>, k: nat, agent: Id, writer: nat)
    requires k <= |ops| < |states| && Connected(states, ops, k, agent, writer)
    ensures WasRegistered(ops, k, agent, writer)
  {
    hide Begins, Cuts;
    var j: nat :| LatestAt(states, ops, j, k, agent, writer);
  }

  lemma {:induction false} WritersAreKnown(max: int, states: seq<Sys>, ops: seq<Op>, k: nat)
    requires Run(max, states, ops) && k <= |ops| < |states|
    ensures WritersKnown(states[k], ops, k)
  {
    hide Step, OpOk, WasRegistered, FlightKnown;
    if k == 0 {
    } else {
      WritersAreKnown(max, states, ops, k - 1);
      assert states[k - 1 + 1] == Step(max, states[k - 1], ops[k - 1]);
      RunKeeps(max, states, ops, k - 1);
      var s, s' := states[k - 1], states[k];
      forall i | 0 <= i < |s'.flights| ensures FlightKnown(ops, k, s'.flights[i]) {
        FlightStaysKnown(max, states, ops, k, i);
      }
      forall x | x in s'.written ensures WasRegistered(ops, k, x.message.to, x.writer) {
        WriteIsKnown(max, states, ops, k, x);
      }
    }
  }

  lemma FlightGrows(ops: seq<Op>, k: nat, f: Flight)
    requires 1 <= k <= |ops| && FlightKnown(ops, k - 1, f)
    ensures FlightKnown(ops, k, f)
  {
    hide WasRegistered;
    if f.Delivery? {
      RegisteredStays(ops, k, f.agent, f.writer);
      if f.phase.Rewriting? || f.phase.DroppingAgain? { RegisteredStays(ops, k, f.agent, f.phase.other); }
    }
  }

  lemma CurrentIsKnown(max: int, states: seq<Sys>, ops: seq<Op>, k: nat, agent: Id)
    requires Run(max, states, ops) && 1 <= k <= |ops| < |states| && Connection(states[k - 1].core, agent).Some?
    ensures WasRegistered(ops, k, agent, Connection(states[k - 1].core, agent).value)
  {
    hide Run, Connected, WasRegistered;
    var w := Connection(states[k - 1].core, agent).value;
    ConnectionIff(max, states, ops, k - 1, agent, w);
    ConnectedIsRegistered(states, ops, k - 1, agent, w);
    RegisteredStays(ops, k, agent, w);
  }

  lemma FlightStaysKnown(max: int, states: seq<Sys>, ops: seq<Op>, k: nat, i: nat)
    requires Run(max, states, ops) && 1 <= k <= |ops| < |states| && WritersKnown(states[k - 1], ops, k - 1)
    requires i < |states[k].flights|
    ensures FlightKnown(ops, k, states[k].flights[i])
  {
    hide OpOk, WasRegistered, Begins, RegisterQueue, ReplayList, ReplayCount, Enqueue, Enters, PushFront, Receive,
      Received, Unregister, FlightKnown;
    var s, op := states[k - 1], ops[k - 1];
    assert states[k - 1 + 1] == Step(max, s, op);
    if i < |s.flights| {
      assert FlightKnown(ops, k - 1, s.flights[i]);
      FlightGrows(ops, k, s.flights[i]);
      if op.Resume? && op.i == i { ResumedIsKnown(max, states, ops, k, i); }
    } else {
      NewIsKnown(max, states, ops, k, i);
    }
  }

  lemma NewIsKnown(max: int, states: seq<Sys>, ops: seq<Op>, k: nat, i: nat)
    requires Run(max, states, ops) && 1 <= k <= |ops| < |states|
    requires |states[k - 1].flights| <= i < |states[k].flights|
    ensures FlightKnown(ops, k, states[k].flights[i])
  {
    hide OpOk, WasRegistered, RegisterQueue, ReplayList, ReplayCount, Enqueue, Enters, PushFront, Receive, Received,
      Unregister;
    var s, op := states[k - 1], ops[k - 1];
    assert states[k - 1 + 1] == Step(max, s, op);
    if op.Route? {
      CurrentIsKnown(max, states, ops, k, op.m.to);
    } else if op.DoRegister? {
      RegisteredStays(ops, k, op.agent, op.writer);
    }
  }

  lemma ResumedIsKnown(max: int, states: seq<Sys>, ops: seq<Op>, k: nat, i: nat)
    requires Run(max, states, ops) && 1 <= k <= |ops| < |states| && ops[k - 1].Resume? && ops[k - 1].i == i
    requires i < |states[k - 1].flights| && i < |states[k].flights|
    requires FlightKnown(ops, k, states[k - 1].flights[i])
    ensures FlightKnown(ops, k, states[k].flights[i])
  {
    hide OpOk, WasRegistered, Enqueue, Enters, PushFront, Unregister;
    var s, op := states[k - 1], ops[k - 1];
    assert states[k - 1 + 1] == Step(max, s, op);
    var f := s.flights[i];
    if f.Delivery? && f.phase == Requeueing && Connection(s.core, f.agent).Some? {
      CurrentIsKnown(max, states, ops, k, f.agent);
    }
  }

  lemma WriteIsKnown(max: int, states: seq<Sys>, ops: seq<Op>, k: nat, x: Write)
    requires Run(max, states, ops) && 1 <= k <= |ops| < |states| && WritersKnown(states[k - 1], ops, k - 1)
    requires Inv(states[k - 1]) && x in states[k].written
    ensures WasRegistered(ops, k, x.message.to, x.writer)
  {
    hide Inv, OpOk, WasRegistered, RegisterQueue, ReplayList, ReplayCount, Enqueue, Enters, PushFront, Receive,
      Received, Unregister;
    var s, op := states[k - 1], ops[k - 1];
    assert states[k - 1 + 1] == Step(max, s, op);
    RegisteredStays(ops, k, x.message.to, x.writer);
    if x !in s.written {
      assert FlightKnown(ops, k - 1, s.flights[op.i]);
      HeadOk(s, op.i);
    }
  }

  /** No message is ever written to a connection that had not been registered for its addressee. */
  lemma WrittenToTheAddressee(max: int, states: seq<Sys>, ops: seq<Op>, k: nat, x: Write)
    requires Run(max, states, ops) && k <= |ops| < |states| && x in states[k].written
    ensures exists j :: 0 <= j < k && Begins(ops[j], x.message.to, x.writer)
  {
    hide Run;
    WritersAreKnown(max, states, ops, k);
    assert WasRegistered(ops, k, x.message.to, x.writer);
  }

  // ---- receive and ack ----

  /** Those of q whose ids are not in the set, in order. */
  function Besides(done: set<Id>, q: seq<Message>): seq<Message> {
    if q == [] then [] else (if q[0].id in done then [] else [q[0]]) + Besides(done, q[1..])
  }

  lemma {:induction false} BesidesLast(done: set<Id>, q: seq<Message>, m: Message)
    ensures Besides(done, q + [m]) == Besides(done, q) + if m.id in done then [] else [m]
  {
    if q == [] {
      assert q + [m] == [m];
    } else {
      assert (q + [m])[1..] == q[1..] + [m];
      BesidesLast(done, q[1..], m);
    }
  }

  lemma {:induction false} UnprocessedIsBesides(done: set<Id>, q: seq<Message>)
    ensures Unprocessed(done, q) == Besides(done, q)
  {
    if q == [] {
    } else {
      var front, m := q[..|q| - 1], q[|q| - 1];
      assert q == front + [m];
      UnprocessedIsBesides(done, front);
      BesidesLast(done, front, m);
    }
  }

  /** At any receive of any run: the oldest messages leave the mailbox, at most as many as the limit, and
      those of them not processed yet are handed out, in order. Nothing else changes. */
  lemma ReceiveTakesOldest(max: int, states: seq<Sys>, ops: seq<Op>, k: nat) returns (n: nat)
    requires Run(max, states, ops) && k < |ops| < |states| && ops[k].DoReceive?
    ensures
      var s, s', agent, limit := states[k], states[k + 1], ops[k].agent, ops[k].limit;
      var out := Received(s.core, agent, limit);
      && n <= |Box(s.core, agent)|
      && (if limit <= 0 then n == 0 else n <= limit && (n == limit || n == |Box(s.core, agent)|))
      && Box(s'.core, agent) == Box(s.core, agent)[n..]
      && out == Besides(Processed(s.core, agent), Box(s.core, agent)[..n])
      && s'.received == s.received + set m | m in out
      && (forall a :: a != agent ==> Box(s'.core, a) == Box(s.core, a))
      && s' == s.(core := s.core.(mailboxes := s'.core.mailboxes), received := s'.received)
  {
    hide OpOk, Unprocessed;
    var s := states[k];
    assert states[k + 1] == Step(max, s, ops[k]);
    n := Taken(s.core, ops[k].agent, ops[k].limit);
    UnprocessedIsBesides(Processed(s.core, ops[k].agent), Box(s.core, ops[k].agent)[..n]);
  }

  /** At any acknowledgement of any run: the message is not awaited any longer and counts as processed by
      the agent. Nothing else changes. */
  lemma AckSettles(max: int, states: seq<Sys>, ops: seq<Op>, k: nat, a: Id, id: Id)
    requires Run(max, states, ops) && k < |ops| < |states| && ops[k].DoAck?
    ensures
      var s, s' := states[k], states[k + 1];
      && (id in s'.core.unacked <==> id in s.core.unacked && id != ops[k].id)
      && (id in s'.core.unacked ==> s'.core.unacked[id] == s.core.unacked[id])
      && (id in Processed(s'.core, a) <==> id in Processed(s.core, a) || (a == ops[k].agent && id == ops[k].id))
      && s' == s.(core := s.core.(unacked := s'.core.unacked, processed := s'.core.processed))
  {
    hide OpOk;
    assert states[k + 1] == Step(max, states[k], ops[k]);
  }

  // ---- register ----

  /** At any register of any run: a delivery to the new connection starts with the whole mailbox, in
      order, and after it the unacknowledged messages for the agent that were not in it; the mailbox is
      empty then. Nothing else changes but the connection. */
  lemma RegisterHandsOver(max: int, states: seq<Sys>, ops: seq<Op>, k: nat)
    requires Run(max, states, ops) && k < |ops| < |states| && ops[k].DoRegister?
    ensures
      var s, s', agent := states[k], states[k + 1], ops[k].agent;
      var box := Box(s.core, agent);
      && s'.flights == s.flights +
           [Delivery(agent, ops[k].writer, box + Besides(set m | m in box :: m.id, ops[k].order), Writing)]
      && Lists(s.core, agent, ops[k].order)
      && Box(s'.core, agent) == [] && (forall a :: a != agent ==> Box(s'.core, a) == Box(s.core, a))
      && s' == s.(flights := s'.flights,
                  core := s.core.(connections := s'.core.connections, mailboxes := s'.core.mailboxes))
  {
    hide Lists, Unprocessed;
    var s, agent := states[k], ops[k].agent;
    assert states[k + 1] == Step(max, s, ops[k]);
    UnprocessedIsBesides(set m | m in Box(s.core, agent) :: m.id, ops[k].order);
  }

  // ---- replays ----

  /** The replays so far that found the message unacknowledged. */
  function ReplaysOf(ops: seq<Op>, id: Id): nat {
    if ops == [] then 0
    else
      var op := ops[|ops| - 1];
      ReplaysOf(ops[..|ops| - 1], id) + if op.StartReplay? && (exists m :: m in op.order && m.id == id) then 1 else 0
  }

  ghost predicate DistinctIds(order: seq<Message>) {
    forall i, j :: 0 <= i < j < |order| ==> order[i].id != order[j].id
  }

  lemma ListedIds(c: Core, agent: Id, order: seq<Message>)
    requires Lists(c, agent, order)
    ensures DistinctIds(order)
  {
    forall i, j | 0 <= i < j < |order| ensures order[i].id != order[j].id {
      assert order[i] in order && order[j] in order;
    }
  }

  predicate Mentions(order: seq<Message>, id: Id) {
    exists m :: m in order && m.id == id
  }

  lemma MentionsLast(order: seq<Message>, id: Id)
    requires order != [] && DistinctIds(order)
    ensures DistinctIds(order[..|order| - 1])
    ensures Mentions(order, id) <==> Mentions(order[..|order| - 1], id) || order[|order| - 1].id == id
    ensures !Mentions(order[..|order| - 1], order[|order| - 1].id)
  {
    var front, m := order[..|order| - 1], order[|order| - 1];
    assert order == front + [m];
    if Mentions(front, id) {
      var x :| x in front && x.id == id;
      assert x in order;
    }
    if m.id == id { assert m in order; }
  }

  lemma OneRetry(c: Core, m: Message, maxRetries: int, id: Id)
    ensures Retries(ReplayOne(c, m, maxRetries), id) == Retries(c, id) + if m.id == id then 1 else 0
  {
  }

  lemma {:induction false} ReplayRetries(c: Core, order: seq<Message>, maxRetries: int, id: Id)
    requires DistinctIds(order)
    ensures Retries(ReplayCount(c, order, maxRetries), id) == Retries(c, id) + if Mentions(order, id) then 1 else 0
  {
    hide Mentions, DistinctIds, ReplayOne, Retries;
    if order == [] {
      NoneMentioned(id);
    } else {
      var front, m := order[..|order| - 1], order[|order| - 1];
      MentionsLast(order, id);
      ReplayRetries(c, front, maxRetries, id);
      OneRetry(ReplayCount(c, front, maxRetries), m, maxRetries, id);
    }
  }

  lemma NoneMentioned(id: Id)
    ensures !Mentions([], id)
  {
  }

  lemma RetryMoves(max: int, s: Sys, op: Op, id: Id)
    requires OpOk(s, op)
    ensures Retries(Step(max, s, op).core, id) ==
      Retries(s.core, id) + if op.StartReplay? && Mentions(op.order, id) then 1 else 0
  {
    hide RegisterQueue, Register, Unregister, Receive, Received, ReplayList, ReplayCount, Lists, Mentions, IdsIdentify,
      Enqueue, ResumeStep, Ack;
    match op
    case StartReplay(agent, most, order) =>
      ListedIds(s.core, agent, order);
      ReplayRetries(s.core, order, most, id);
    case Send(m) => PutRetries(max, s.core, m);
    case Route(m) => PutRetries(max, s.core, m);
    case Resume(i, ok) => if i < |s.flights| { ResumeRetries(max, s, i, ok); }
    case _ => OthersKeepRetries(max, s, op);
  }

  lemma PutRetries(max: int, c: Core, m: Message)
    ensures Enqueue(max, c, m).retries == c.retries
  {
  }

  lemma ResumeRetries(max: int, s: Sys, i: nat, ok: bool)
    requires i < |s.flights|
    ensures ResumeStep(max, s, i, ok).core.retries == s.core.retries
  {
    hide Enqueue, Enters;
    if s.flights[i].queue != [] { PutRetries(max, s.core, s.flights[i].queue[0]); }
  }

  lemma OthersKeepRetries(max: int, s: Sys, op: Op)
    requires op.DoRegister? || op.DoUnregister? || op.DoReceive? || op.DoAck?
    ensures Step(max, s, op).core.retries == s.core.retries
  {
    hide RegisterQueue, Received;
  }

  /** The retry count of a message is the number of replays that found it unacknowledged. */
  lemma {:induction false} RetriesAreReplays(max: int, states: seq<Sys>, ops: seq<Op>, k: nat, id: Id)
    requires Run(max, states, ops) && k <= |ops| < |states|
    ensures Retries(states[k].core, id) == ReplaysOf(ops[..k], id)
  {
    hide Step, OpOk;
    if k == 0 {
    } else {
      RetriesAreReplays(max, states, ops, k - 1, id);
      RetryMoves(max, states[k - 1], ops[k - 1], id);
      assert states[k - 1 + 1] == Step(max, states[k - 1], ops[k - 1]);
      assert ops[..k][..k - 1] == ops[..k - 1];
    }
  }

  /** Those of `order` that have been replayed less often than allowed, or the others. */
  function Split(c: Core, order: seq<Message>, maxRetries: int, allowed: bool): seq<Message> {
    if order == [] then []
    else
      Split(c, order[..|order| - 1], maxRetries, allowed) +
      if (Retries(c, order[|order| - 1].id) < maxRetries) == allowed then [order[|order| - 1]] else []
  }

  lemma ReplayBuries(c: Core, m: Message, maxRetries: int)
    ensures
      var c' := ReplayOne(c, m, maxRetries);
      && Dead(c', m.to) == Dead(c, m.to) + (if Retries(c, m.id) < maxRetries then [] else [m])
      && (forall a :: a != m.to ==> Dead(c', a) == Dead(c, a))
      && c' == c.(dead := c'.dead, unacked := c'.unacked, retries := c'.retries)
  {
  }

  lemma {:induction false} ReplaySplits(c: Core, agent: Id, order: seq<Message>, maxRetries: int)
    requires DistinctIds(order) && forall m :: m in order ==> m.to == agent
    ensures ReplayList(c, order, maxRetries) == Split(c, order, maxRetries, true)
    ensures
      var c' := ReplayCount(c, order, maxRetries);
      && Dead(c', agent) == Dead(c, agent) + Split(c, order, maxRetries, false)
      && (forall a :: a != agent ==> Dead(c', a) == Dead(c, a))
      && c' == c.(dead := c'.dead, unacked := c'.unacked, retries := c'.retries)
  {
    hide Mentions, DistinctIds, ReplayOne, Dead;
    if order == [] {
    } else {
      var front, m := order[..|order| - 1], order[|order| - 1];
      assert order == front + [m];
      MentionsLast(order, m.id);
      ReplayBuries(ReplayCount(c, front, maxRetries), m, maxRetries);
      ReplaySplits(c, agent, front, maxRetries);
      ReplayRetries(c, front, maxRetries, m.id);
    }
  }

  lemma {:induction false} ReplayUnacks(c: Core, order: seq<Message>, maxRetries: int, id: Id)
    requires DistinctIds(order)
    ensures
      var c' := ReplayCount(c, order, maxRetries);
      && (id in c'.unacked <==> id in c.unacked && !(Mentions(order, id) && Retries(c, id) >= maxRetries))
      && (id in c'.unacked ==> c'.unacked[id] == c.unacked[id])
  {
    hide Mentions, DistinctIds;
    if order == [] {
      NoneMentioned(id);
    } else {
      var front, m := order[..|order| - 1], order[|order| - 1];
      MentionsLast(order, id);
      ReplayUnacks(c, front, maxRetries, id);
      MentionsLast(order, m.id);
      ReplayRetries(c, front, maxRetries, m.id);
    }
  }

  /** At any replay of any run: a message for the agent that is unacknowledged and has been replayed as
      often as allowed becomes a dead letter and is not awaited any longer; the others are put back by
      the coroutine that starts. The mailboxes stay as they are until it moves. */
  lemma ReplayDecides(max: int, states: seq<Sys>, ops: seq<Op>, k: nat, id: Id)
    requires Run(max, states, ops) && k < |ops| < |states| && ops[k].StartReplay?
    ensures
      var s, s', agent, most, order := states[k], states[k + 1], ops[k].agent, ops[k].maxRetries, ops[k].order;
      && Lists(s.core, agent, order)
      && s'.flights == s.flights + [Replay(agent, Split(s.core, order, most, true))]
      && Dead(s'.core, agent) == Dead(s.core, agent) + Split(s.core, order, most, false)
      && (forall a :: a != agent ==> Dead(s'.core, a) == Dead(s.core, a))
      && (id in s'.core.unacked <==>
            id in s.core.unacked && !(Mentions(order, id) && ReplaysOf(ops[..k], id) >= most))
      && (id in s'.core.unacked ==> s'.core.unacked[id] == s.core.unacked[id])
      && s'.core == s.core.(dead := s'.core.dead, unacked := s'.core.unacked, retries := s'.core.retries)
      && s' == s.(core := s'.core, flights := s'.flights)
  {
    hide ReplayCount, ReplayList, Split, Mentions, ReplaysOf;
    var s, agent, most, order := states[k], ops[k].agent, ops[k].maxRetries, ops[k].order;
    assert states[k + 1] == Step(max, s, ops[k]);
    ListedIds(s.core, agent, order);
    ReplaySplits(s.core, agent, order, most);
    ReplayUnacks(s.core, order, most, id);
    RetriesAreReplays(max, states, ops, k, id);
  }

  // ---- a coroutine is resumed ----

  /** The coroutine of the flight f has dealt with its first message. */
  predicate Advances(s: Sys, s': Sys, i: nat, f: Flight) {
    && i < |s.flights| && f.queue != []
    && s'.flights == s.flights[i := match f
                                    case Replay(a, queue) => Replay(a, queue[1..])
                                    case Delivery(a, w, queue, _) => Delivery(a, w, queue[1..], Writing)]
  }

  predicate Turns(s: Sys, s': Sys, i: nat, f: Flight, phase: Phase) {
    i < |s.flights| && f.Delivery? && s'.flights == s.flights[i := f.(phase := phase)]
  }

  /** One move of a coroutine, for its first message. A replay puts it in front of the mailbox. A
      delivery writes it to its connection. If that fails it drops the connection, and then tries the
      one the agent has now, if it is another; if that fails too it drops that one. Without another
      connection, or after the second failure, the message goes into the mailbox. */
  ghost predicate Resumes(max: int, states: seq<Sys>, ops: seq<Op>, k: nat, i: nat, ok: bool)
    requires k < |ops| < |states| && i < |states[k].flights| && states[k].flights[i].queue != []
  {
    var s, s' := states[k], states[k + 1];
    var f := s.flights[i];
    var m := f.queue[0];
    if f.Replay? then
      && Advances(s, s', i, f) && Box(s'.core, f.agent) == [m] + Box(s.core, f.agent)
      && (forall a :: a != f.agent ==> Box(s'.core, a) == Box(s.core, a))
      && s'.core == s.core.(mailboxes := s'.core.mailboxes) && s'.written == s.written
    else
      match f.phase
      case Writing =>
        && s'.core == s.core
        && if ok then Advances(s, s', i, f) && s'.written == s.written + {Write(m, f.writer)}
           else Turns(s, s', i, f, Dropping) && s'.written == s.written
      case Dropping =>
        && Turns(s, s', i, f, Requeueing) && s'.written == s.written
        && s'.core == s.core.(connections := s'.core.connections)
      case Requeueing =>
        && s'.written == s.written
        && (forall w: nat :: Connected(states, ops, k, f.agent, w) && w != f.writer ==>
              Turns(s, s', i, f, Rewriting(w)) && s'.core == s.core)
        && ((forall w: nat :: w != f.writer ==> !Connected(states, ops, k, f.agent, w)) ==>
              Advances(s, s', i, f) && Queued(max, s.core, s'.core, m))
      case Rewriting(w) =>
        && s'.core == s.core
        && if ok then Advances(s, s', i, f) && s'.written == s.written + {Write(m, w)}
           else Turns(s, s', i, f, DroppingAgain(w)) && s'.written == s.written
      case DroppingAgain(_) =>
        && Turns(s, s', i, f, LastResort) && s'.written == s.written
        && s'.core == s.core.(connections := s'.core.connections)
      case LastResort =>
        Advances(s, s', i, f) && Queued(max, s.core, s'.core, m) && s'.written == s.written
  }

  /** At any move of any coroutine in any run. */
  lemma MovesFollow(max: int, states: seq<Sys>, ops: seq<Op>, k: nat)
    requires Run(max, states, ops) && k < |ops| < |states| && ops[k].Resume?
    requires ops[k].i < |states[k].flights| && states[k].flights[ops[k].i].queue != []
    ensures Resumes(max, states, ops, k, ops[k].i, ops[k].ok)
  {
    hide Connected, Queued, Enqueue, Enters, OpOk;
    var s, i := states[k], ops[k].i;
    assert states[k + 1] == Step(max, s, ops[k]);
    var f := s.flights[i];
    EnqueueQueues(max, s.core, f.queue[0]);
    if f.Delivery? && f.phase == Requeueing {
      forall w: nat
        ensures f.agent in s.core.connections && s.core.connections[f.agent] == w <==>
          Connected(states, ops, k, f.agent, w)
      {
        ConnectionIff(max, states, ops, k, f.agent, w);
      }
      if f.agent in s.core.connections { assert Connected(states, ops, k, f.agent, s.core.connections[f.agent]); }
    }
  }
}
