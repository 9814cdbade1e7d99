/** The sections of the message router that run under its lock, one function each. */
module RouterSpec {
  import opened Graphs
  import opened Tasks

  datatype Message = Message(id: Id, to: Id, ackRequired: bool, body: string)

  /** `unacked` is keyed by message id, the other tables by agent. A writer is known by a number. */
  datatype Core = Core(
    mailboxes: map<Id, seq<Message>>,
    dead: map<Id, seq<Message>>,
    unacked: map<Id, Message>,
    processed: map<Id, set<Id>>,
    retries: map<Id, int>,
    connections: map<Id, nat>)

  const NOTHING := Core(map[], map[], map[], map[], map[], map[])

  function Box(c: Core, agent: Id): seq<Message> {
    if agent in c.mailboxes then c.mailboxes[agent] else []
  }

  function Dead(c: Core, agent: Id): seq<Message> {
    if agent in c.dead then c.dead[agent] else []
  }

  function Processed(c: Core, agent: Id): set<Id> {
    if agent in c.processed then c.processed[agent] else {}
  }

  function Retries(c: Core, id: Id): int {
    if id in c.retries then c.retries[id] else 0
  }

  function AddDead(c: Core, m: Message): Core {
    c.(dead := c.dead[m.to := Dead(c, m.to) + [m]])
  }

  /** A full mailbox first drops its oldest message. */
  function MakeRoom(max: int, c: Core, agent: Id): Core {
    if max > 0 && |Box(c, agent)| >= max
    then AddDead(c, Box(c, agent)[0]).(mailboxes := c.mailboxes[agent := Box(c, agent)[1..]])
    else c
  }

  predicate Enters(c: Core, m: Message) {
    m.id !in Processed(c, m.to)
  }

  /** _enqueue_locked. */
  function Enqueue(max: int, c: Core, m: Message): Core {
    if !Enters(c, m) then c
    else
      var c1 := MakeRoom(max, c, m.to);
      c1.(mailboxes := c1.mailboxes[m.to := Box(c1, m.to) + [m]],
          unacked := if m.ackRequired then c1.unacked[m.id := m] else c1.unacked)
  }

  function Unprocessed(done: set<Id>, q: seq<Message>): (r: seq<Message>)
    ensures forall m :: m in r <==> m in q && m.id !in done
  {
    if q == [] then []
    else
      var front := Unprocessed(done, q[..|q| - 1]);
      if q[|q| - 1].id in done then front else front + [q[|q| - 1]]
  }

  /** How many messages one receive takes out of the mailbox. */
  function Taken(c: Core, agent: Id, limit: int): nat {
    if limit <= 0 then 0 else if limit < |Box(c, agent)| then limit else |Box(c, agent)|
  }

  function Receive(c: Core, agent: Id, limit: int): Core {
    var n := Taken(c, agent, limit);
    if n == 0 then c else c.(mailboxes := c.mailboxes[agent := Box(c, agent)[n..]])
  }

  function Received(c: Core, agent: Id, limit: int): seq<Message> {
    Unprocessed(Processed(c, agent), Box(c, agent)[..Taken(c, agent, limit)])
  }

  function Ack(c: Core, agent: Id, id: Id): Core {
    c.(unacked := c.unacked - {id}, processed := c.processed[agent := Processed(c, agent) + {id}])
  }

  /** Some order of the unacknowledged messages for an agent. */
  ghost predicate Lists(c: Core, agent: Id, order: seq<Message>) {
    && NoDuplicates(order)
    && forall m :: m in order <==> m.id in c.unacked && c.unacked[m.id] == m && m.to == agent
  }

  predicate GivesUp(c: Core, m: Message, maxRetries: int) {
    Retries(c, m.id) + 1 > maxRetries
  }

  function ReplayOne(c: Core, m: Message, maxRetries: int): Core {
    var c1 := c.(retries := c.retries[m.id := Retries(c, m.id) + 1]);
    if GivesUp(c, m, maxRetries) then AddDead(c1, m).(unacked := c.unacked - {m.id}) else c1
  }

  /** The first lock section of replay_unacked. */
  function ReplayCount(c: Core, order: seq<Message>, maxRetries: int): Core {
    if order == [] then c
    else ReplayOne(ReplayCount(c, order[..|order| - 1], maxRetries), order[|order| - 1], maxRetries)
  }

  /** The messages it keeps for replaying. */
  function ReplayList(c: Core, order: seq<Message>, maxRetries: int): seq<Message> {
    if order == [] then []
    else
      var front, m := order[..|order| - 1], order[|order| - 1];
      ReplayList(c, front, maxRetries) + if GivesUp(ReplayCount(c, front, maxRetries), m, maxRetries) then [] else [m]
  }

  function PushFront(c: Core, agent: Id, m: Message): Core {
    c.(mailboxes := c.mailboxes[agent := [m] + Box(c, agent)])
  }

  function NotQueued(queued: seq<Message>, order: seq<Message>): (r: seq<Message>)
    ensures forall m :: m in r ==> m in order
  {
    Unprocessed(set m | m in queued :: m.id, order)
  }

  function Register(c: Core, agent: Id, writer: nat): Core {
    c.(connections := c.connections[agent := writer], mailboxes := c.mailboxes[agent := []])
  }

  /** What register then writes to the connection: the mailbox, and what is unacknowledged besides. */
  function RegisterQueue(c: Core, agent: Id, order: seq<Message>): seq<Message> {
    Box(c, agent) + NotQueued(Box(c, agent), order)
  }

  function Unregister(c: Core, agent: Id, writer: Option<nat>): Core {
    if writer.Some? && (agent !in c.connections || c.connections[agent] != writer.value) then c
    else c.(connections := c.connections - {agent})
  }

  function Connection(c: Core, agent: Id): Option<nat> {
    if agent in c.connections then Some(c.connections[agent]) else None
  }
}
