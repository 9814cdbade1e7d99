/** MessageRouter: the code it runs under its lock, on its own tables. */
module Router {
  import opened Graphs
  import opened Tasks
  import opened RouterSpec
  import RouterRuns

  class MessageRouter {
    const mailboxMax: int
    var mailboxes: map<Id, seq<Message>>
    var dead: map<Id, seq<Message>>
    var unacked: map<Id, Message>
    var processed: map<Id, set<Id>>
    var retries: map<Id, int>
    var connections: map<Id, nat>

    function State(): Core
      reads this
    {
      Core(mailboxes, dead, unacked, processed, retries, connections)
    }

    /** unacked is keyed by the id of the message. */
    ghost predicate Valid()
      reads this
    {
      forall k :: k in unacked ==> unacked[k].id == k
    }

    constructor (mailboxMax: int)
      ensures Valid() && State() == NOTHING && this.mailboxMax == mailboxMax
    {
      this.mailboxMax := mailboxMax;
      mailboxes, dead, unacked, processed, retries, connections := map[], map[], map[], map[], map[], map[];
    }

    /** The router still answers for the message. */
    predicate Tracks(m: Message)
      reads this
    {
      RouterRuns.Tracked(State(), m)
    }

    function BoxOf(agent: Id): (r: seq<Message>)
      reads this
      ensures r == Box(State(), agent)
    {
      if agent in mailboxes then mailboxes[agent] else []
    }

    function ProcessedBy(agent: Id): (r: set<Id>)
      reads this
      ensures r == Processed(State(), agent)
    {
      if agent in processed then processed[agent] else {}
    }

    method Bury(m: Message)
      modifies this`dead
      ensures State() == AddDead(old(State()), m)
    {
      dead := dead[m.to := (if m.to in dead then dead[m.to] else []) + [m]];
    }

    method EnqueueLocked(m: Message)
      requires Valid()
      modifies this
      ensures Valid() && State() == Enqueue(mailboxMax, old(State()), m)
      ensures forall x :: old(Tracks(x)) && (x.id == m.id ==> x == m) ==> Tracks(x)
      ensures m.ackRequired ==> Tracks(m)
    {
      forall x | Tracks(x) && (x.id == m.id ==> x == m)
        ensures RouterRuns.Tracked(Enqueue(mailboxMax, State(), m), x)
      {
        RouterRuns.EnqueueTracks(mailboxMax, State(), m, x);
      }
      if m.ackRequired { RouterRuns.EnqueueTracksNew(mailboxMax, State(), m); }
      if m.id in ProcessedBy(m.to) {
        return;
      }
      var box := BoxOf(m.to);
      if mailboxMax > 0 && |box| >= mailboxMax {
        Bury(box[0]);
        box := box[1..];
      }
      mailboxes := mailboxes[m.to := box + [m]];
      if m.ackRequired {
        unacked := unacked[m.id := m];
      }
    }

    /** Takes at most `limit` messages out of the mailbox and skips those already processed. */
    method Receive(agent: Id, limit: int) returns (messages: seq<Message>)
      requires Valid()
      modifies this`mailboxes
      ensures Valid() && State() == RouterSpec.Receive(old(State()), agent, limit)
      ensures messages == Received(old(State()), agent, limit)
    {
      messages := [];
      if limit <= 0 || BoxOf(agent) == [] {
        return;
      }
      var box := BoxOf(agent);
      var n := if limit < |box| then limit else |box|;
      var i := 0;
      while i < n
        invariant 0 <= i <= n
        invariant messages == Unprocessed(ProcessedBy(agent), box[..i])
      {
        assert box[..i + 1][..i] == box[..i];
        if box[i].id !in ProcessedBy(agent) {
          messages := messages + [box[i]];
        }
        i := i + 1;
      }
      mailboxes := mailboxes[agent := box[n..]];
    }

    method Ack(agent: Id, id: Id) returns (known: bool)
      requires Valid()
      modifies this
      ensures Valid() && State() == RouterSpec.Ack(old(State()), agent, id)
      ensures known <==> id in old(unacked)
      ensures forall x :: old(Tracks(x)) && (x.id == id ==> x.to == agent) ==> Tracks(x)
    {
      known := id in unacked;
      unacked := unacked - {id};
      processed := processed[agent := ProcessedBy(agent) + {id}];
    }

    /** The unacknowledged messages for an agent, in some order. */
    method Listed(agent: Id) returns (order: seq<Message>)
      requires Valid()
      ensures Lists(State(), agent, order)
    {
      order := [];
      var left := unacked.Keys;
      while left != {}
        invariant left <= unacked.Keys && NoDuplicates(order)
        invariant forall m :: m in order <==> m.id in unacked && m.id !in left && unacked[m.id] == m && m.to == agent
      {
        var k :| k in left;
        if unacked[k].to == agent {
          order := order + [unacked[k]];
        }
        left := left - {k};
      }
    }

    /** The first lock section of replay_unacked: counts a retry for each message and gives up on
        those with too many. */
    method ReplayUnacked(agent: Id, maxRetries: int) returns (replay: seq<Message>, ghost order: seq<Message>)
      requires Valid()
      modifies this
      ensures Valid() && Lists(old(State()), agent, order)
      ensures State() == ReplayCount(old(State()), order, maxRetries)
      ensures replay == ReplayList(old(State()), order, maxRetries)
    {
      hide Lists, ReplayOne, GivesUp;
      var messages := Listed(agent);
      order := messages;
      replay := [];
      var i := 0;
      while i < |messages|
        invariant 0 <= i <= |messages| && Valid()
        invariant State() == ReplayCount(old(State()), messages[..i], maxRetries)
        invariant replay == ReplayList(old(State()), messages[..i], maxRetries)
      {
        var m := messages[i];
        assert messages[..i + 1][..i] == messages[..i];
        var given := CountRetry(m, maxRetries);
        if !given {
          replay := replay + [m];
        }
        i := i + 1;
      }
      assert messages[..i] == messages;
    }

    method CountRetry(m: Message, maxRetries: int) returns (givenUp: bool)
      requires Valid()
      modifies this
      ensures Valid() && State() == ReplayOne(old(State()), m, maxRetries)
      ensures givenUp <==> GivesUp(old(State()), m, maxRetries)
    {
      var count := (if m.id in retries then retries[m.id] else 0) + 1;
      retries := retries[m.id := count];
      givenUp := count > maxRetries;
      if givenUp {
        Bury(m);
        unacked := unacked - {m.id};
      }
    }

    method Replay(agent: Id, m: Message)
      requires Valid()
      modifies this`mailboxes
      ensures Valid() && State() == PushFront(old(State()), agent, m)
    {
      mailboxes := mailboxes[agent := [m] + BoxOf(agent)];
    }

    /** The lock section of register; the result is written to the connection afterwards. */
    method Register(agent: Id, writer: nat) returns (queued: seq<Message>, ghost order: seq<Message>)
      requires Valid()
      modifies this
      ensures Valid() && Lists(old(State()), agent, order)
      ensures State() == RouterSpec.Register(old(State()), agent, writer)
      ensures connections == old(connections)[agent := writer] && BoxOf(agent) == []
      ensures queued == RegisterQueue(old(State()), agent, order)
    {
      hide Lists;
      var waiting := Listed(agent);
      order := waiting;
      connections := connections[agent := writer];
      var box := BoxOf(agent);
      queued := box + NotQueued(box, waiting);
      mailboxes := mailboxes[agent := []];
    }

    method Unregister(agent: Id, writer: Option<nat>)
      requires Valid()
      modifies this`connections
      ensures Valid() && State() == RouterSpec.Unregister(old(State()), agent, writer)
    {
      if writer.Some? && (agent !in connections || connections[agent] != writer.value) {
        return;
      }
      connections := connections - {agent};
    }

    /** The lock section of route: Some(w) to write to w, None if the message was enqueued. */
    method Route(m: Message) returns (writer: Option<nat>)
      requires Valid()
      modifies this
      ensures Valid() && writer == Connection(old(State()), m.to)
      ensures State() == if writer.None? then Enqueue(mailboxMax, old(State()), m) else old(State())
    {
      if m.to in connections {
        return Some(connections[m.to]);
      }
      EnqueueLocked(m);
      return None;
    }

    /** The lock section after a failed write: another connection to try, or None if enqueued. */
    method RequeueAfterSendFailure(agent: Id, m: Message, failed: nat) returns (retry: Option<nat>)
      requires Valid()
      modifies this
      ensures Valid()
      ensures retry == if Connection(old(State()), agent) == Some(failed) then None else Connection(old(State()), agent)
      ensures State() == if retry.None? then Enqueue(mailboxMax, old(State()), m) else old(State())
    {
      if agent in connections && connections[agent] != failed {
        return Some(connections[agent]);
      }
      EnqueueLocked(m);
      return None;
    }
  }
}
