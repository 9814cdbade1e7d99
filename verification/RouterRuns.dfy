/** The router under every interleaving of its coroutines: between any two lock sections, and at
    every write, all others may run. */
module RouterRuns {
  import opened Graphs
  import opened Tasks
  import opened RouterSpec

  // ---- coroutines in flight ----

  /** What is about to happen to the first message of a delivery. */
  datatype Phase =
    | Writing
    | Dropping
    | Requeueing
    | Rewriting(other: nat)
    | DroppingAgain(other: nat)
    | LastResort

  /** Delivery: a route call or the rest of a register call. Replay: the rest of replay_unacked. */
  datatype Flight =
    | Delivery(agent: Id, writer: nat, queue: seq<Message>, phase: Phase)
    | Replay(agent: Id, queue: seq<Message>)

  datatype Write = Write(message: Message, writer: nat)

  /** The four sets record what happened: given to send or route, put into a mailbox by
      _enqueue_locked, written to which connection, handed out by receive. */
  datatype Sys = Sys(
    core: Core,
    flights: seq<Flight>,
    sent: set<Message>,
    entered: set<Message>,
    written: set<Write>,
    received: set<Message>)

  datatype Op =
    | Send(m: Message)
    | Route(m: Message)
    | DoRegister(agent: Id, writer: nat, order: seq<Message>)
    | DoUnregister(agent: Id, only: Option<nat>)
    | DoReceive(agent: Id, limit: int)
    | DoAck(agent: Id, id: Id)
    | StartReplay(agent: Id, maxRetries: int, order: seq<Message>)
    | Resume(i: nat, ok: bool)

  function Put(max: int, s: Sys, m: Message): Sys {
    s.(core := Enqueue(max, s.core, m), entered := if Enters(s.core, m) then s.entered + {m} else s.entered)
  }

  function RouteStep(max: int, s: Sys, m: Message): Sys {
    var s1 := s.(sent := s.sent + {m});
    match Connection(s.core, m.to)
    case None => Put(max, s1, m)
    case Some(w) => s1.(flights := s.flights + [Delivery(m.to, w, [m], Writing)])
  }

  /** The first message of a delivery is dealt with. */
  function Settled(f: Flight): Flight
    requires f.Delivery? && f.queue != []
  {
    f.(queue := f.queue[1..], phase := Writing)
  }

  /** One step of coroutine i; `ok` says whether a write went through. */
  function ResumeStep(max: int, s: Sys, i: nat, ok: bool): Sys
    requires i < |s.flights|
  {
    var f := s.flights[i];
    if f.queue == [] then s
    else
      var m := f.queue[0];
      if f.Replay? then
        s.(core := PushFront(s.core, f.agent, m), flights := s.flights[i := Replay(f.agent, f.queue[1..])])
      else
        match f.phase
        case Writing =>
          if ok then s.(written := s.written + {Write(m, f.writer)}, flights := s.flights[i := Settled(f)])
          else s.(flights := s.flights[i := f.(phase := Dropping)])
        case Dropping =>
          s.(core := Unregister(s.core, f.agent, Some(f.writer)), flights := s.flights[i := f.(phase := Requeueing)])
        case Requeueing =>
          var now := Connection(s.core, f.agent);
          if now.Some? && now.value != f.writer then s.(flights := s.flights[i := f.(phase := Rewriting(now.value))])
          else Put(max, s.(flights := s.flights[i := Settled(f)]), m)
        case Rewriting(w) =>
          if ok then s.(written := s.written + {Write(m, w)}, flights := s.flights[i := Settled(f)])
          else s.(flights := s.flights[i := f.(phase := DroppingAgain(w))])
        case DroppingAgain(w) =>
          s.(core := Unregister(s.core, f.agent, Some(w)), flights := s.flights[i := f.(phase := LastResort)])
        case LastResort => Put(max, s.(flights := s.flights[i := Settled(f)]), m)
  }

  function Step(max: int, s: Sys, op: Op): Sys {
    match op
    case Send(m) => Put(max, s.(sent := s.sent + {m}), m)
    case Route(m) => RouteStep(max, s, m)
    case DoRegister(agent, writer, order) =>
      s.(core := Register(s.core, agent, writer),
         flights := s.flights + [Delivery(agent, writer, RegisterQueue(s.core, agent, order), Writing)])
    case DoUnregister(agent, only) => s.(core := Unregister(s.core, agent, only))
    case DoReceive(agent, limit) =>
      s.(core := Receive(s.core, agent, limit), received := s.received + set m | m in Received(s.core, agent, limit))
    case DoAck(agent, id) => s.(core := Ack(s.core, agent, id))
    case StartReplay(agent, maxRetries, order) =>
      s.(core := ReplayCount(s.core, order, maxRetries),
         flights := s.flights + [Replay(agent, ReplayList(s.core, order, maxRetries))])
    case Resume(i, ok) => if i < |s.flights| then ResumeStep(max, s, i, ok) else s
  }

  ghost predicate IdsIdentify(sent: set<Message>) {
    forall a, b :: a in sent && b in sent && a.id == b.id ==> a == b
  }

  /** Message ids identify messages; an ack comes from the addressee; the orders are those of the
      table being walked. */
  ghost predicate OpOk(s: Sys, op: Op) {
    match op
    case Send(m) => IdsIdentify(s.sent + {m})
    case Route(m) => IdsIdentify(s.sent + {m})
    case DoRegister(agent, _, order) => Lists(s.core, agent, order)
    case StartReplay(agent, _, order) => Lists(s.core, agent, order)
    case DoAck(agent, id) => forall m :: m in s.sent && m.id == id ==> m.to == agent
    case _ => true
  }

  const START := Sys(NOTHING, [], {}, {}, {}, {})

  ghost predicate Run(max: int, states: seq<Sys>, ops: seq<Op>) {
    && |states| == |ops| + 1 && states[0] == START
    && forall i :: 0 <= i < |ops| ==> OpOk(states[i], ops[i]) && states[i + 1] == Step(max, states[i], ops[i])
  }

  // ---- invariant ----

  /** The router still answers for the message. */
  predicate Tracked(c: Core, m: Message) {
    || (m.id in c.unacked && c.unacked[m.id] == m)
    || m.id in Processed(c, m.to)
    || m in Dead(c, m.to)
  }

  /** Some coroutine still carries the message. */
  predicate Carried(flights: seq<Flight>, m: Message) {
    exists i :: 0 <= i < |flights| && m in flights[i].queue
  }

  predicate Wrote(written: set<Write>, m: Message) {
    exists x :: x in written && x.message == m
  }

  lemma WroteGrows(written: set<Write>, x: Write, m: Message)
    ensures Wrote(written + {x}, x.message)
    ensures Wrote(written, m) ==> Wrote(written + {x}, m)
  {
    assert x in written + {x};
    if Wrote(written, m) {
      var y :| y in written && y.message == m;
      assert y in written + {x};
    }
  }

  /** The message is somewhere. */
  predicate Accounted(s: Sys, m: Message) {
    || m in Box(s.core, m.to) || Carried(s.flights, m)
    || Wrote(s.written, m) || m in s.received || m in Dead(s.core, m.to) || m.id in Processed(s.core, m.to)
  }

  ghost predicate UnackedInv(c: Core, entered: set<Message>) {
    forall k :: k in c.unacked ==> c.unacked[k].id == k && c.unacked[k] in entered
  }

  ghost predicate BoxInv(c: Core, sent: set<Message>) {
    forall a, m :: m in Box(c, a) ==> m.to == a && m in sent
  }

  ghost predicate FlightInv(flights: seq<Flight>, sent: set<Message>) {
    forall i, m :: 0 <= i < |flights| && m in flights[i].queue ==> m.to == flights[i].agent && m in sent
  }

  ghost predicate TrackInv(c: Core, entered: set<Message>) {
    forall m :: m in entered && m.ackRequired ==> Tracked(c, m)
  }

  ghost predicate LossInv(s: Sys) {
    forall m :: m in s.sent ==> Accounted(s, m)
  }

  ghost predicate Inv(s: Sys) {
    && IdsIdentify(s.sent) && s.entered <= s.sent
    && UnackedInv(s.core, s.entered) && BoxInv(s.core, s.sent) && FlightInv(s.flights, s.sent)
    && TrackInv(s.core, s.entered) && LossInv(s)
  }

  // ---- enqueue ----

  /** Making room moves at most one message, from the mailbox to the dead letters. */
  lemma RoomFacts(max: int, c: Core, agent: Id, x: Message)
    ensures
      var c' := MakeRoom(max, c, agent);
      && c' == c.(mailboxes := c'.mailboxes, dead := c'.dead)
      && (x in Dead(c, x.to) ==> x in Dead(c', x.to))
      && (forall a :: a != agent ==> Box(c', a) == Box(c, a))
      && (x in Box(c, agent) && x.to == agent ==> x in Box(c', agent) || x in Dead(c', agent))
  {
    var box := Box(c, agent);
    if max > 0 && |box| >= max {
      assert box == [box[0]] + box[1..];
    }
  }

  /** Enqueueing keeps what is tracked. */
  lemma EnqueueTracks(max: int, c: Core, m: Message, x: Message)
    requires Tracked(c, x) && (m.id == x.id ==> m == x)
    ensures Tracked(Enqueue(max, c, m), x)
  {
    hide MakeRoom;
    RoomFacts(max, c, m.to, x);
  }

  lemma EnqueueTracksNew(max: int, c: Core, m: Message)
    requires m.ackRequired
    ensures Tracked(Enqueue(max, c, m), m)
  {
    hide MakeRoom;
  }

  /** Enqueueing keeps what is in the mailboxes, but for one message moved to the dead letters. */
  lemma EnqueueFacts(max: int, c: Core, m: Message, x: Message)
    ensures Enters(c, m) ==> m in Box(Enqueue(max, c, m), m.to)
    ensures Processed(Enqueue(max, c, m), x.to) == Processed(c, x.to)
    ensures x in Dead(c, x.to) ==> x in Dead(Enqueue(max, c, m), x.to)
    ensures x in Box(c, x.to) ==> x in Box(Enqueue(max, c, m), x.to) || x in Dead(Enqueue(max, c, m), x.to)
  {
    hide MakeRoom;
    RoomFacts(max, c, m.to, x);
  }

  lemma EnqueueBoxes(max: int, c: Core, m: Message, a: Id, y: Message)
    requires y in Box(Enqueue(max, c, m), a)
    ensures y in Box(c, a) || (y == m && a == m.to)
  {
  }

  /** The invariant, with message m given to the router but not put anywhere yet. */
  ghost predicate InvBut(s: Sys, m: Message) {
    && IdsIdentify(s.sent) && s.entered <= s.sent && m in s.sent
    && UnackedInv(s.core, s.entered) && BoxInv(s.core, s.sent) && FlightInv(s.flights, s.sent)
    && TrackInv(s.core, s.entered)
    && forall x :: x in s.sent && x != m ==> Accounted(s, x)
  }

  lemma PutTables(max: int, s: Sys, m: Message)
    requires InvBut(s, m)
    ensures
      var s' := Put(max, s, m);
      UnackedInv(s'.core, s'.entered) && BoxInv(s'.core, s'.sent) && TrackInv(s'.core, s'.entered)
  {
    hide Tracked, Box, Accounted, FlightInv;
    var s' := Put(max, s, m);
    forall a, y | y in Box(s'.core, a) ensures y.to == a && y in s'.sent {
      EnqueueBoxes(max, s.core, m, a, y);
    }
    forall x | x in s'.entered && x.ackRequired ensures Tracked(s'.core, x) {
      if x in s.entered {
        EnqueueTracks(max, s.core, m, x);
      } else {
        EnqueueTracksNew(max, s.core, m);
      }
    }
    EnqueueUnacked(max, s.core, m);
  }

  lemma EnqueueUnacked(max: int, c: Core, m: Message)
    ensures Enqueue(max, c, m).unacked == if Enters(c, m) && m.ackRequired then c.unacked[m.id := m] else c.unacked
  {
  }

  lemma PutKeeps(max: int, s: Sys, m: Message)
    requires InvBut(s, m)
    ensures Inv(Put(max, s, m))
  {
    hide Tracked, Box, Carried, UnackedInv, FlightInv, TrackInv, BoxInv, IdsIdentify, Enqueue;
    var s' := Put(max, s, m);
    PutTables(max, s, m);
    forall x | x in s'.sent ensures Accounted(s', x) {
      EnqueueFacts(max, s.core, m, x);
    }
  }

  // ---- flights ----

  lemma CarriedAppend(flights: seq<Flight>, f: Flight, m: Message)
    ensures Carried(flights + [f], m) <==> Carried(flights, m) || m in f.queue
  {
    var all := flights + [f];
    if Carried(flights, m) {
      var i :| 0 <= i < |flights| && m in flights[i].queue;
      assert all[i] == flights[i];
    }
    assert all[|flights|] == f;
  }

  lemma CarriedUpdate(flights: seq<Flight>, i: nat, f: Flight, m: Message)
    requires i < |flights| && Carried(flights, m) && (m in flights[i].queue ==> m in f.queue)
    ensures Carried(flights[i := f], m)
  {
    var j :| 0 <= j < |flights| && m in flights[j].queue;
    assert m in flights[i := f][j].queue;
  }

  lemma FlightUpdate(flights: seq<Flight>, i: nat, f: Flight, sent: set<Message>)
    requires i < |flights| && FlightInv(flights, sent) && f.agent == flights[i].agent
    requires forall m :: m in f.queue ==> m in flights[i].queue
    ensures FlightInv(flights[i := f], sent)
  {
  }

  lemma FlightAppend(flights: seq<Flight>, f: Flight, sent: set<Message>)
    requires FlightInv(flights, sent) && forall m :: m in f.queue ==> m.to == f.agent && m in sent
    ensures FlightInv(flights + [f], sent)
  {
  }

  lemma FlightGrow(flights: seq<Flight>, sent: set<Message>, sent': set<Message>)
    requires FlightInv(flights, sent) && sent <= sent'
    ensures FlightInv(flights, sent')
  {
  }

  /** The rest of a queue holds everything but perhaps its first message. */
  lemma TailFacts(q: seq<Message>)
    requires q != []
    ensures forall m :: m in q[1..] ==> m in q
    ensures forall m :: m in q && m != q[0] ==> m in q[1..]
  {
    assert q == [q[0]] + q[1..];
  }

  // ---- send and route ----

  lemma SentGrows(s: Sys, m: Message)
    requires Inv(s) && IdsIdentify(s.sent + {m})
    ensures InvBut(s.(sent := s.sent + {m}), m)
  {
    hide Tracked, Box, Carried, UnackedInv, TrackInv, IdsIdentify, FlightInv;
    FlightGrow(s.flights, s.sent, s.sent + {m});
    var s' := s.(sent := s.sent + {m});
    forall x | x in s'.sent && x != m ensures Accounted(s', x) {
      assert Accounted(s, x);
    }
  }

  lemma RouteKeeps(max: int, s: Sys, m: Message)
    requires Inv(s) && IdsIdentify(s.sent + {m})
    ensures Inv(RouteStep(max, s, m))
  {
    hide Tracked, Box, Carried, UnackedInv, TrackInv, IdsIdentify, FlightInv, Enqueue, BoxInv;
    SentGrows(s, m);
    var s1 := s.(sent := s.sent + {m});
    match Connection(s.core, m.to)
    case None => PutKeeps(max, s1, m);
    case Some(w) =>
      var f := Delivery(m.to, w, [m], Writing);
      FlightAppend(s.flights, f, s1.sent);
      var s' := s1.(flights := s.flights + [f]);
      forall x | x in s'.sent ensures Accounted(s', x) {
        CarriedAppend(s.flights, f, x);
        assert x != m ==> Accounted(s1, x);
      }
  }

  // ---- steps of a coroutine ----

  /** Changing only connections and the phase of a coroutine keeps everything. */
  lemma PhaseKeeps(s: Sys, i: nat, phase: Phase, connections: map<Id, nat>)
    requires Inv(s) && i < |s.flights| && s.flights[i].Delivery?
    ensures Inv(s.(core := s.core.(connections := connections),
                   flights := s.flights[i := s.flights[i].(phase := phase)]))
  {
    hide Carried, UnackedInv, IdsIdentify, FlightInv;
    var f := s.flights[i].(phase := phase);
    var s' := s.(core := s.core.(connections := connections), flights := s.flights[i := f]);
    FlightUpdate(s.flights, i, f, s.sent);
    SameUnacked(s.core, s'.core, s.entered);
    SameBoxes(s.core, s'.core, s.sent);
    forall x | x in s'.sent ensures Accounted(s', x) {
      assert Accounted(s, x);
      if Carried(s.flights, x) { CarriedUpdate(s.flights, i, f, x); }
    }
    forall x | x in s'.entered && x.ackRequired ensures Tracked(s'.core, x) {
      assert Tracked(s.core, x);
    }
  }

  lemma FewerInBoxes(c: Core, c': Core, sent: set<Message>)
    requires BoxInv(c, sent) && forall a, m :: m in Box(c', a) ==> m in Box(c, a)
    ensures BoxInv(c', sent)
  {
  }

  lemma SameBoxes(c: Core, c': Core, sent: set<Message>)
    requires BoxInv(c, sent) && c'.mailboxes == c.mailboxes
    ensures BoxInv(c', sent)
  {
    forall a, m | m in Box(c', a) ensures m.to == a && m in sent {
      assert m in Box(c, a);
    }
  }

  lemma SameUnacked(c: Core, c': Core, entered: set<Message>)
    requires UnackedInv(c, entered) && c'.unacked == c.unacked
    ensures UnackedInv(c', entered)
  {
  }

  /** Taking the first message off a queue leaves only that one unaccounted for. */
  lemma TakeHead(s: Sys, i: nat, f: Flight)
    requires Inv(s) && i < |s.flights| && s.flights[i].queue != []
    requires f.queue == s.flights[i].queue[1..] && f.agent == s.flights[i].agent
    ensures InvBut(s.(flights := s.flights[i := f]), s.flights[i].queue[0])
  {
    hide Carried, UnackedInv, IdsIdentify, FlightInv, Tracked, TrackInv, Box, BoxInv;
    var q := s.flights[i].queue;
    var m := q[0];
    TailFacts(q);
    FlightUpdate(s.flights, i, f, s.sent);
    HeadIsSent(s.flights, i, s.sent);
    var s' := s.(flights := s.flights[i := f]);
    forall x | x in s'.sent && x != m ensures Accounted(s', x) {
      assert Accounted(s, x);
      if Carried(s.flights, x) { CarriedUpdate(s.flights, i, f, x); }
    }
  }

  lemma HeadIsSent(flights: seq<Flight>, i: nat, sent: set<Message>)
    requires FlightInv(flights, sent) && i < |flights| && flights[i].queue != []
    ensures flights[i].queue[0] in sent && flights[i].queue[0].to == flights[i].agent
  {
  }

  lemma WriteKeeps(s: Sys, m: Message, writer: nat)
    requires InvBut(s, m)
    ensures Inv(s.(written := s.written + {Write(m, writer)}))
  {
    hide Carried, UnackedInv, IdsIdentify, FlightInv, Tracked, TrackInv, Box, BoxInv;
    var s' := s.(written := s.written + {Write(m, writer)});
    forall x | x in s'.sent ensures Accounted(s', x) {
      WroteGrows(s.written, Write(m, writer), x);
      assert x != m ==> Accounted(s, x);
    }
  }

  lemma PushFrontKeeps(s: Sys, agent: Id, m: Message)
    requires InvBut(s, m) && m.to == agent
    ensures Inv(s.(core := PushFront(s.core, agent, m)))
  {
    hide Carried, UnackedInv, IdsIdentify, FlightInv;
    var s' := s.(core := PushFront(s.core, agent, m));
    SameUnacked(s.core, s'.core, s.entered);
    forall a, y | y in Box(s'.core, a) ensures y.to == a && y in s'.sent {
      assert y == m || y in Box(s.core, a);
    }
    forall x | x in s'.sent ensures Accounted(s', x) {
      assert x != m ==> Accounted(s, x);
    }
    forall x | x in s'.entered && x.ackRequired ensures Tracked(s'.core, x) {
      assert Tracked(s.core, x);
    }
  }

  lemma ResumeKeeps(max: int, s: Sys, i: nat, ok: bool)
    requires Inv(s) && i < |s.flights|
    ensures Inv(ResumeStep(max, s, i, ok))
  {
    hide Inv, InvBut, Enqueue, Enters, PushFront;
    var f := s.flights[i];
    if f.queue != [] {
      var m := f.queue[0];
      if f.Replay? {
        TakeHead(s, i, Replay(f.agent, f.queue[1..]));
        HeadOk(s, i);
        PushFrontKeeps(s.(flights := s.flights[i := Replay(f.agent, f.queue[1..])]), f.agent, m);
      } else {
        var s1 := s.(flights := s.flights[i := Settled(f)]);
        TakeHead(s, i, Settled(f));
        WriteKeeps(s1, m, if f.phase.Rewriting? then f.phase.other else f.writer);
        PutKeeps(max, s1, m);
        var phase := NextPhase(s.core, f);
        PhaseKeeps(s, i, phase, s.core.connections);
        if f.phase.Dropping? || f.phase.DroppingAgain? {
          var w := if f.phase.Dropping? then f.writer else f.phase.other;
          PhaseKeeps(s, i, phase, Unregister(s.core, f.agent, Some(w)).connections);
        }
      }
    }
  }

  lemma HeadOk(s: Sys, i: nat)
    requires Inv(s) && i < |s.flights| && s.flights[i].queue != []
    ensures s.flights[i].queue[0].to == s.flights[i].agent
  {
    HeadIsSent(s.flights, i, s.sent);
  }

  /** The phase after a failed write or an unregister. */
  function NextPhase(c: Core, f: Flight): Phase
    requires f.Delivery?
  {
    match f.phase
    case Writing => Dropping
    case Dropping => Requeueing
    case Requeueing => if Connection(c, f.agent).Some? then Rewriting(Connection(c, f.agent).value) else Requeueing
    case Rewriting(w) => DroppingAgain(w)
    case DroppingAgain(w) => LastResort
    case LastResort => LastResort
  }

  // ---- the other lock sections ----

  lemma UnregisterKeeps(s: Sys, agent: Id, only: Option<nat>)
    requires Inv(s)
    ensures Inv(s.(core := Unregister(s.core, agent, only)))
  {
    hide Carried, IdsIdentify, FlightInv;
    var s' := s.(core := Unregister(s.core, agent, only));
    SameBoxes(s.core, s'.core, s.sent);
    forall x | x in s'.sent ensures Accounted(s', x) {
      assert Accounted(s, x);
    }
    forall x | x in s'.entered && x.ackRequired ensures Tracked(s'.core, x) {
      assert Tracked(s.core, x);
    }
  }

  lemma ReceiveKeeps(s: Sys, agent: Id, limit: int)
    requires Inv(s)
    ensures Inv(s.(core := Receive(s.core, agent, limit),
                   received := s.received + set m | m in Received(s.core, agent, limit)))
  {
    hide Carried, IdsIdentify, FlightInv, Unprocessed;
    var s' := s.(core := Receive(s.core, agent, limit),
                 received := s.received + set m | m in Received(s.core, agent, limit));
    var n := Taken(s.core, agent, limit);
    var box := Box(s.core, agent);
    assert box == box[..n] + box[n..];
    assert forall a, m :: m in Box(s'.core, a) ==> m in Box(s.core, a);
    FewerInBoxes(s.core, s'.core, s.sent);
    forall x | x in s'.sent ensures Accounted(s', x) {
      assert Accounted(s, x);
    }
    forall x | x in s'.entered && x.ackRequired ensures Tracked(s'.core, x) {
      assert Tracked(s.core, x);
    }
  }

  /** An ack of message m keeps it tracked exactly if it comes from the addressee, or the message
      is dead or was acknowledged before. */
  lemma AckIsExact(c: Core, agent: Id, m: Message)
    ensures Tracked(Ack(c, agent, m.id), m) <==> agent == m.to || m.id in Processed(c, m.to) || m in Dead(c, m.to)
  {
  }

  lemma AckKeeps(s: Sys, agent: Id, id: Id)
    requires Inv(s) && forall m :: m in s.sent && m.id == id ==> m.to == agent
    ensures Inv(s.(core := Ack(s.core, agent, id)))
  {
    hide Carried, IdsIdentify, FlightInv;
    var s' := s.(core := Ack(s.core, agent, id));
    SameBoxes(s.core, s'.core, s.sent);
    forall x | x in s'.sent ensures Accounted(s', x) {
      assert Accounted(s, x);
    }
    forall x | x in s'.entered && x.ackRequired ensures Tracked(s'.core, x) {
      assert Tracked(s.core, x);
    }
  }

  lemma RegisterKeeps(s: Sys, agent: Id, writer: nat, order: seq<Message>)
    requires Inv(s) && Lists(s.core, agent, order)
    ensures Inv(s.(core := Register(s.core, agent, writer),
                   flights := s.flights + [Delivery(agent, writer, RegisterQueue(s.core, agent, order), Writing)]))
  {
    hide Carried, IdsIdentify, FlightInv, Unprocessed;
    var f := Delivery(agent, writer, RegisterQueue(s.core, agent, order), Writing);
    var s' := s.(core := Register(s.core, agent, writer), flights := s.flights + [f]);
    assert forall a, m :: m in Box(s'.core, a) ==> m in Box(s.core, a);
    FewerInBoxes(s.core, s'.core, s.sent);
    FlightAppend(s.flights, f, s.sent);
    forall x | x in s'.sent ensures Accounted(s', x) {
      assert Accounted(s, x);
      CarriedAppend(s.flights, f, x);
    }
    forall x | x in s'.entered && x.ackRequired ensures Tracked(s'.core, x) {
      assert Tracked(s.core, x);
    }
  }

  /** Between the two states messages moved from the unacknowledged to the dead letters only. */
  ghost predicate OnlyDies(c: Core, c': Core) {
    && c'.mailboxes == c.mailboxes && c'.processed == c.processed && c'.connections == c.connections
    && (forall k :: k in c'.unacked ==> k in c.unacked && c'.unacked[k] == c.unacked[k])
    && (forall x: Message :: x in Dead(c, x.to) ==> x in Dead(c', x.to))
    && (forall x: Message :: x.id in c.unacked && c.unacked[x.id] == x ==> x.id in c'.unacked || x in Dead(c', x.to))
  }

  lemma GivenUpDies(c: Core, m: Message)
    requires m.id in c.unacked ==> c.unacked[m.id] == m
    ensures OnlyDies(c, AddDead(c, m).(unacked := c.unacked - {m.id}))
  {
    assert m in Dead(AddDead(c, m), m.to);
  }

  lemma RetriesDoNotMatter(c: Core, c1: Core, c': Core)
    requires c1 == c.(retries := c1.retries)
    ensures OnlyDies(c1, c') || c' == c1 ==> OnlyDies(c, c')
  {
    assert forall x: Message :: Dead(c1, x.to) == Dead(c, x.to);
  }

  lemma ReplayOneFacts(c: Core, m: Message, maxRetries: int)
    requires m.id in c.unacked ==> c.unacked[m.id] == m
    ensures OnlyDies(c, ReplayOne(c, m, maxRetries))
  {
    hide AddDead, OnlyDies;
    var c1 := c.(retries := c.retries[m.id := Retries(c, m.id) + 1]);
    GivenUpDies(c1, m);
    RetriesDoNotMatter(c, c1, c1);
    RetriesDoNotMatter(c, c1, AddDead(c1, m).(unacked := c.unacked - {m.id}));
  }

  lemma {:induction false} ReplayFacts(c: Core, order: seq<Message>, maxRetries: int)
    requires forall m :: m in order ==> m.id in c.unacked && c.unacked[m.id] == m
    ensures OnlyDies(c, ReplayCount(c, order, maxRetries))
    ensures forall m :: m in ReplayList(c, order, maxRetries) ==> m in order
  {
    hide ReplayOne, GivesUp, Dead;
    if order == [] {
    } else {
      var front := order[..|order| - 1];
      ReplayFacts(c, front, maxRetries);
      assert order == front + [order[|order| - 1]];
      ReplayOneFacts(ReplayCount(c, front, maxRetries), order[|order| - 1], maxRetries);
    }
  }

  lemma ReplayKeeps(s: Sys, agent: Id, maxRetries: int, order: seq<Message>)
    requires Inv(s) && Lists(s.core, agent, order)
    ensures Inv(s.(core := ReplayCount(s.core, order, maxRetries),
                   flights := s.flights + [Replay(agent, ReplayList(s.core, order, maxRetries))]))
  {
    hide Carried, IdsIdentify, FlightInv, ReplayCount, ReplayList, NoDuplicates;
    ReplayFacts(s.core, order, maxRetries);
    var f := Replay(agent, ReplayList(s.core, order, maxRetries));
    var s' := s.(core := ReplayCount(s.core, order, maxRetries), flights := s.flights + [f]);
    SameBoxes(s.core, s'.core, s.sent);
    FlightAppend(s.flights, f, s.sent);
    forall x | x in s'.sent ensures Accounted(s', x) {
      assert Accounted(s, x);
      CarriedAppend(s.flights, f, x);
    }
    forall x | x in s'.entered && x.ackRequired ensures Tracked(s'.core, x) {
      assert Tracked(s.core, x);
    }
  }

  // ---- runs ----

  lemma StepKeeps(max: int, s: Sys, op: Op)
    requires Inv(s) && OpOk(s, op)
    ensures Inv(Step(max, s, op))
  {
    hide Inv, InvBut, IdsIdentify, Lists, Put, RouteStep, ResumeStep;
    match op
    case Send(m) => SentGrows(s, m); PutKeeps(max, s.(sent := s.sent + {m}), m);
    case Route(m) => RouteKeeps(max, s, m);
    case DoRegister(agent, writer, order) => RegisterKeeps(s, agent, writer, order);
    case DoUnregister(agent, only) => UnregisterKeeps(s, agent, only);
    case DoReceive(agent, limit) => ReceiveKeeps(s, agent, limit);
    case DoAck(agent, id) => AckKeeps(s, agent, id);
    case StartReplay(agent, maxRetries, order) => ReplayKeeps(s, agent, maxRetries, order);
    case Resume(i, ok) => if i < |s.flights| { ResumeKeeps(max, s, i, ok); }
  }

  lemma StartInv()
    ensures Inv(START)
  {
  }

  lemma {:induction false} RunKeeps(max: int, states: seq<Sys>, ops: seq<Op>, k: nat)
    requires Run(max, states, ops) && k < |states|
    ensures Inv(states[k])
  {
    hide Inv, Step, OpOk;
    if k == 0 {
      StartInv();
    } else {
      RunKeeps(max, states, ops, k - 1);
      StepKeeps(max, states[k - 1], ops[k - 1]);
      assert states[k - 1 + 1] == Step(max, states[k - 1], ops[k - 1]);
    }
  }

  /** Every message with ack_required that ever entered a mailbox is, in every later state, in
      unacked, in the addressee's processed set or in its dead letters. */
  lemma AckRequiredIsTracked(max: int, states: seq<Sys>, ops: seq<Op>, j: nat, k: nat, m: Message)
    requires Run(max, states, ops) && j <= k < |states| && m in states[j].entered && m.ackRequired
    ensures
      var c := states[k].core;
      || (m.id in c.unacked && c.unacked[m.id] == m) || m.id in Processed(c, m.to) || m in Dead(c, m.to)
  {
    hide Run;
    EnteredStays(max, states, ops, j, k);
    RunKeeps(max, states, ops, k);
    assert Tracked(states[k].core, m);
  }

  /** What once entered a mailbox stays on record as such. */
  lemma {:induction false} EnteredStays(max: int, states: seq<Sys>, ops: seq<Op>, j: nat, k: nat)
    requires Run(max, states, ops) && j <= k < |states|
    ensures states[j].entered <= states[k].entered && states[j].sent <= states[k].sent
    decreases k
  {
    hide OpOk, Enqueue, Enters, PushFront, Unregister, Register, RegisterQueue;
    hide Receive, Received, ReplayCount, ReplayList;
    if j == k {
    } else {
      EnteredStays(max, states, ops, j, k - 1);
      assert states[k - 1 + 1] == Step(max, states[k - 1], ops[k - 1]);
    }
  }

  /** No message is lost: whatever was given to send or route is in the addressee's mailbox, carried
      by a coroutine, written to a connection, handed out by receive, dead, or acknowledged. */
  lemma NothingIsLost(max: int, states: seq<Sys>, ops: seq<Op>, k: nat, m: Message)
    requires Run(max, states, ops) && k < |states| && m in states[k].sent
    ensures Accounted(states[k], m)
  {
    hide Run;
    RunKeeps(max, states, ops, k);
  }

  // ---- where a routed message ends up ----

  predicate OnItsWay(flights: seq<Flight>, m: Message) {
    exists i :: 0 <= i < |flights| && flights[i].Delivery? && m in flights[i].queue
  }

  /** Written, enqueued or already processed, or a delivery is still at work on it. */
  predicate Arrives(s: Sys, m: Message) {
    Wrote(s.written, m) || m in s.entered || m.id in Processed(s.core, m.to) || OnItsWay(s.flights, m)
  }

  ghost predicate OutcomeInv(s: Sys) {
    forall m :: m in s.sent ==> Arrives(s, m)
  }

  lemma OnItsWayAppend(flights: seq<Flight>, f: Flight, m: Message)
    requires OnItsWay(flights, m) || (f.Delivery? && m in f.queue)
    ensures OnItsWay(flights + [f], m)
  {
    var all := flights + [f];
    if OnItsWay(flights, m) {
      var i :| 0 <= i < |flights| && flights[i].Delivery? && m in flights[i].queue;
      assert all[i] == flights[i];
    } else {
      assert all[|flights|] == f;
    }
  }

  lemma OnItsWayUpdate(flights: seq<Flight>, i: nat, f: Flight, m: Message)
    requires i < |flights| && OnItsWay(flights, m)
    requires flights[i].Delivery? && m in flights[i].queue ==> f.Delivery? && m in f.queue
    ensures OnItsWay(flights[i := f], m)
  {
    var j :| 0 <= j < |flights| && flights[j].Delivery? && m in flights[j].queue;
    assert flights[i := f][j].Delivery? && m in flights[i := f][j].queue;
  }

  lemma PutProcessed(max: int, c: Core, m: Message, agent: Id)
    ensures Processed(Enqueue(max, c, m), agent) == Processed(c, agent)
  {
  }

  /** Putting m settles m and disturbs no other message. */
  lemma PutArrives(max: int, s: Sys, m: Message, x: Message)
    requires x == m || Arrives(s, x)
    ensures Arrives(Put(max, s, m), x)
  {
    hide OnItsWay, Enqueue;
    PutProcessed(max, s.core, m, x.to);
  }

  lemma ResumeArrives(max: int, s: Sys, i: nat, ok: bool, x: Message)
    requires i < |s.flights| && Arrives(s, x)
    ensures Arrives(ResumeStep(max, s, i, ok), x)
  {
    hide OnItsWay, Put, Wrote;
    var f := s.flights[i];
    if f.queue != [] {
      var m := f.queue[0];
      TailFacts(f.queue);
      if f.Delivery? {
        var s1 := s.(flights := s.flights[i := Settled(f)]);
        WroteGrows(s.written, Write(m, if f.phase.Rewriting? then f.phase.other else f.writer), x);
        if OnItsWay(s.flights, x) {
          if x != m { OnItsWayUpdate(s.flights, i, Settled(f), x); }
          OnItsWayUpdate(s.flights, i, f.(phase := NextPhase(s.core, f)), x);
        }
        if x == m || Arrives(s1, x) { PutArrives(max, s1, m, x); }
      } else if OnItsWay(s.flights, x) {
        OnItsWayUpdate(s.flights, i, Replay(f.agent, f.queue[1..]), x);
      }
    }
  }

  lemma SendArrives(max: int, s: Sys, m: Message, x: Message)
    requires x == m || Arrives(s, x)
    ensures Arrives(Put(max, s.(sent := s.sent + {m}), m), x)
    ensures Arrives(RouteStep(max, s, m), x)
  {
    hide OnItsWay, Put;
    PutArrives(max, s.(sent := s.sent + {m}), m, x);
    if Connection(s.core, m.to).Some? {
      var f := Delivery(m.to, Connection(s.core, m.to).value, [m], Writing);
      if x == m || OnItsWay(s.flights, x) { OnItsWayAppend(s.flights, f, x); }
    }
  }

  lemma {:induction false} ReplayProcessed(c: Core, order: seq<Message>, maxRetries: int)
    ensures ReplayCount(c, order, maxRetries).processed == c.processed
  {
    if order == [] {
    } else {
      ReplayProcessed(c, order[..|order| - 1], maxRetries);
    }
  }

  lemma OtherArrives(max: int, s: Sys, op: Op, x: Message)
    requires Arrives(s, x) && (op.DoRegister? || op.DoUnregister? || op.DoReceive? || op.DoAck? || op.StartReplay?)
    ensures Arrives(Step(max, s, op), x)
  {
    hide OnItsWay, ReplayCount, ReplayList, RegisterQueue, Received;
    match op
    case DoRegister(agent, writer, order) =>
      if OnItsWay(s.flights, x) {
        OnItsWayAppend(s.flights, Delivery(agent, writer, RegisterQueue(s.core, agent, order), Writing), x);
      }
    case StartReplay(agent, maxRetries, order) =>
      ReplayProcessed(s.core, order, maxRetries);
      if OnItsWay(s.flights, x) {
        OnItsWayAppend(s.flights, Replay(agent, ReplayList(s.core, order, maxRetries)), x);
      }
    case DoUnregister(_, _) =>
    case DoReceive(_, _) =>
    case DoAck(_, _) =>
  }

  lemma StepArrives(max: int, s: Sys, op: Op)
    requires OutcomeInv(s)
    ensures OutcomeInv(Step(max, s, op))
  {
    hide Arrives, Enqueue;
    var s' := Step(max, s, op);
    forall x | x in s'.sent ensures Arrives(s', x) {
      match op
      case Send(m) => SendArrives(max, s, m, x);
      case Route(m) => SendArrives(max, s, m, x);
      case Resume(i, ok) => if i < |s.flights| { ResumeArrives(max, s, i, ok, x); }
      case _ => OtherArrives(max, s, op, x);
    }
  }

  /** Every message given to route (or send) has been written to a connection, put into a mailbox or
      found processed, unless a delivery still carries it. Needs no assumption on ids or acks. */
  lemma {:induction false} RoutedArrives(max: int, states: seq<Sys>, ops: seq<Op>, k: nat)
    requires Run(max, states, ops) && k < |states|
    ensures OutcomeInv(states[k])
  {
    hide Step, OpOk, OutcomeInv;
    if k == 0 {
      NothingSent();
    } else {
      RoutedArrives(max, states, ops, k - 1);
      StepArrives(max, states[k - 1], ops[k - 1]);
      assert states[k - 1 + 1] == Step(max, states[k - 1], ops[k - 1]);
    }
  }

  lemma NothingSent()
    ensures OutcomeInv(START)
  {
  }

  // ---- deliveries end ----

  /** Steps a delivery can still take. */
  function Steps(f: Flight): nat {
    if f.queue == [] then 0
    else if f.Replay? then |f.queue|
    else
      6 * |f.queue| -
      match f.phase
      case Writing => 0
      case Dropping => 1
      case Requeueing => 2
      case Rewriting(_) => 3
      case DroppingAgain(_) => 4
      case LastResort => 5
  }

  /** A coroutine that is resumed gets closer to its end and no other one is touched. */
  lemma ResumeEnds(max: int, s: Sys, i: nat, ok: bool)
    requires i < |s.flights| && s.flights[i].queue != []
    ensures |ResumeStep(max, s, i, ok).flights| == |s.flights|
    ensures Steps(ResumeStep(max, s, i, ok).flights[i]) < Steps(s.flights[i])
    ensures forall j :: 0 <= j < |s.flights| && j != i ==> ResumeStep(max, s, i, ok).flights[j] == s.flights[j]
  {
    hide Enqueue, PushFront, Unregister;
  }

  /** Coroutine i is resumed and has something left to do. */
  predicate Moves(s: Sys, op: Op, i: nat) {
    op.Resume? && op.i == i && i < |s.flights| && s.flights[i].queue != []
  }

  lemma OthersFly(max: int, s: Sys, op: Op, i: nat)
    requires i < |s.flights| && !Moves(s, op, i)
    ensures i < |Step(max, s, op).flights| && Step(max, s, op).flights[i] == s.flights[i]
  {
    hide Enqueue, Enters, PushFront, Unregister, Register, RegisterQueue, Receive, Received, ReplayCount, ReplayList;
    if op.Resume? && op.i < |s.flights| && s.flights[op.i].queue != [] {
      ResumeEnds(max, s, op.i, op.ok);
    }
  }

  /** How often coroutine i moved from state j up to state k. */
  function MovesOf(states: seq<Sys>, ops: seq<Op>, i: nat, j: nat, k: nat): nat
    requires j <= k <= |ops| < |states|
    decreases k
  {
    if j == k then 0
    else MovesOf(states, ops, i, j, k - 1) + if Moves(states[k - 1], ops[k - 1], i) then 1 else 0
  }

  /** Over any run a delivery or replay moves at most as often as it has steps: six for each message
      it delivers, one for each it replays. */
  lemma {:induction false} FlightsEnd(max: int, states: seq<Sys>, ops: seq<Op>, i: nat, j: nat, k: nat)
    requires Run(max, states, ops) && j <= k <= |ops| && i < |states[j].flights|
    ensures i < |states[k].flights|
    ensures MovesOf(states, ops, i, j, k) + Steps(states[k].flights[i]) <= Steps(states[j].flights[i])
    decreases k
  {
    hide Step, OpOk, Steps, Moves;
    if j == k {
    } else {
      FlightsEnd(max, states, ops, i, j, k - 1);
      var s, op := states[k - 1], ops[k - 1];
      assert states[k - 1 + 1] == Step(max, s, op);
      if Moves(s, op, i) {
        MoveCosts(max, s, op, i);
      } else {
        OthersFly(max, s, op, i);
      }
    }
  }

  lemma MoveCosts(max: int, s: Sys, op: Op, i: nat)
    requires Moves(s, op, i)
    ensures i < |Step(max, s, op).flights| && Steps(Step(max, s, op).flights[i]) < Steps(s.flights[i])
  {
    hide ResumeStep, Steps;
    ResumeEnds(max, s, i, op.ok);
  }
}
