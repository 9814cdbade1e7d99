/** ContextManager, its dictionary and the contexts in it updated in place. */
module Contexts {
  import opened Graphs
  import opened Tasks
  import opened ContextSpec
  import ContextRuns

  class ContextManager {
    const env: Env
    const maxContexts: nat
    var contexts: map<Id, Context>
    var order: seq<Id>

    ghost function State(): MState
      reads this
    {
      MState(contexts, order)
    }

    ghost predicate Valid()
      reads this
    {
      Enumerates(order, contexts.Keys)
    }

    /** Readonly histories and deltas of every context are in order. */
    ghost predicate InOrder()
      reads this
    {
      ContextRuns.AllContexts(State())
    }

    constructor (env: Env, maxContexts: nat)
      ensures Valid() && State() == MState(map[], []) && this.env == env && this.maxContexts == maxContexts
    {
      this.env := env;
      this.maxContexts := maxContexts;
      contexts := map[];
      order := [];
    }

    /** Writes the readonly data key by key. */
    method WriteAllReadonly(c: Content, agent: Id, data: Payload) returns (r: Content)
      ensures r == WriteReadonly(c, agent, data)
    {
      hide Appended, WriteReadonly;
      r := c;
      var left := data.Keys;
      ghost var done: Payload := map[];
      WriteNothing(c, agent);
      while left != {}
        invariant left <= data.Keys && done == data - left
        invariant r == WriteReadonly(c, agent, done)
      {
        var key :| key in left;
        WriteOneMore(c, agent, done, key, data[key]);
        var history := Appended(r, agent, key, data[key]);
        r := r.(readonly := r.readonly[key := data[key]], versions := r.versions[key := history]);
        done := done[key := data[key]];
        left := left - {key};
      }
      assert done == data;
    }

    /** The while loop of _evict_lru. */
    method EvictLru()
      requires Valid()
      modifies this
      ensures Valid() && State() == Evict(old(State()), maxContexts)
    {
      hide NoDuplicates, Evict, Enumerates;
      while |order| > maxContexts
        invariant Valid() && Evict(State(), maxContexts) == Evict(old(State()), maxContexts)
        decreases |order|
      {
        EvictOne(State(), maxContexts);
        contexts := contexts - {order[0]};
        order := order[1..];
      }
      EvictNothing(State(), maxContexts);
    }

    /** The context to write to, a new one if need be; it becomes the most recently used. */
    method Touch(id: Id) returns (x: Context)
      requires Valid()
      modifies this`order
      ensures Enumerates(order, contexts.Keys + {id})
      ensures order == if id in contexts then MoveToEnd(old(order), id) else old(order) + [id]
      ensures x == if id in contexts then contexts[id] else FRESH
    {
      hide NoDuplicates, RemoveFirst;
      if id in contexts {
        x := contexts[id];
        MovedEnumerates(order, contexts.Keys, id);
        assert contexts.Keys + {id} == contexts.Keys;
        order := MoveToEnd(order, id);
      } else {
        x := FRESH;
        AddedEnumerates(order, contexts.Keys, id);
        order := order + [id];
      }
    }

    method Write(x: Context, agent: Id, shared: Payload, private: Option<Payload>,
                 readonly: Payload) returns (r: Context)
      ensures r == Recorded(env, x, agent, shared, private, readonly)
    {
      hide WriteReadonly, WriteShared, WritePrivate, CompressIfNeeded;
      var c := x.now;
      if shared != map[] {
        c := WriteShared(c, shared);
      }
      if private.Some? {
        c := WritePrivate(c, agent, private.value);
      }
      if readonly != map[] {
        c := WriteAllReadonly(c, agent, readonly);
      }
      r := CompressIfNeeded(env, Context(c, x.stack, x.version + Bumps(shared, private, readonly)));
    }

    /** record_task_context. */
    method RecordTaskContext(id: Id, agent: Id, shared: Payload, private: Option<Payload>, readonly: Payload)
      requires Valid()
      modifies this
      ensures Valid() && State() == RecordIn(env, maxContexts, old(State()), id, agent, shared, private, readonly)
      ensures old(InOrder()) ==> InOrder()
    {
      hide NoDuplicates, MoveToEnd, Evict, Recorded, ContextRuns.AllContexts;
      if InOrder() {
        ghost var op := ContextRuns.DoRecord(id, agent, shared, private, readonly);
        ContextRuns.StepKeepsContexts(env, maxContexts, State(), op);
      }
      var x := Touch(id);
      x := Write(x, agent, shared, private, readonly);
      contexts := contexts[id := x];
      EvictLru();
    }

    /** What an agent is given: shared and private data with their deltas, readonly data. */
    method BuildAgentContext(id: Id, agent: Id) returns (shared: Payload, private: Payload, readonly: Payload)
      requires Valid()
      modifies this
      ensures Valid() && State() == BuildIn(old(State()), id)
      ensures id !in contexts ==> shared == private == readonly == map[]
      ensures id in contexts ==>
        var c := contexts[id].now;
        shared == MergedShared(c) && private == ViewPrivate(c, agent) && readonly == c.readonly
      ensures old(InOrder()) ==> InOrder()
    {
      hide NoDuplicates, RemoveFirst, ContextRuns.AllContexts;
      if InOrder() { ContextRuns.StepKeepsContexts(env, maxContexts, State(), ContextRuns.DoBuild(id)); }
      if id !in contexts {
        return map[], map[], map[];
      }
      MovedEnumerates(order, contexts.Keys, id);
      order := MoveToEnd(order, id);
      var c := contexts[id].now;
      shared := c.shared + c.deltaShared;
      private := Of(c.private, agent) + Of(c.deltaPrivate, agent);
      readonly := c.readonly;
    }

    /** False, and no change, if the context is unknown or was never compressed. */
    method RollbackContext(id: Id) returns (ok: bool)
      requires Valid()
      modifies this
      ensures Valid() && State() == RollbackIn(old(State()), id)
      ensures ok <==> id in old(contexts) && old(contexts)[id].stack != []
      ensures old(InOrder()) ==> InOrder()
    {
      hide ContextRuns.AllContexts;
      if InOrder() { ContextRuns.StepKeepsContexts(env, maxContexts, State(), ContextRuns.DoRollback(id)); }
      if id !in contexts || contexts[id].stack == [] {
        return false;
      }
      var x := contexts[id];
      contexts := contexts[id := Context(x.stack[|x.stack| - 1], x.stack[..|x.stack| - 1], x.version + 1)];
      return true;
    }
  }

  /** Dropping the least recently used context is part of evicting. */
  lemma EvictOne(s: MState, max: nat)
    requires Enumerates(s.order, s.contexts.Keys) && |s.order| > max
    ensures
      var s' := MState(s.contexts - {s.order[0]}, s.order[1..]);
      Enumerates(s'.order, s'.contexts.Keys) && Evict(s', max) == Evict(s, max)
  {
    hide NoDuplicates;
    HeadTail(s.order);
    assert s.order[0] in s.order;
    assert LastOf(s.order[1..], max) == LastOf(s.order, max);
    forall k | k in LastOf(s.order, max) ensures k in s.order[1..] {
    }
  }

  lemma EvictNothing(s: MState, max: nat)
    requires Enumerates(s.order, s.contexts.Keys) && |s.order| <= max
    ensures Evict(s, max) == s
  {
    hide NoDuplicates;
  }

  lemma AppendedAfter(c: Content, agent: Id, done: Payload, key: Id, value: Value)
    requires key !in done
    ensures Appended(WriteReadonly(c, agent, done), agent, key, value) == Appended(c, agent, key, value)
  {
  }

  lemma WriteNothing(c: Content, agent: Id)
    ensures WriteReadonly(c, agent, map[]) == c
  {
    assert c.readonly + map[] == c.readonly;
    assert NewVersions(c, agent, map[]) == c.versions;
  }

  lemma VersionsOneMore(c: Content, agent: Id, done: Payload, key: Id, value: Value)
    requires key !in done
    ensures NewVersions(c, agent, done[key := value]) ==
      NewVersions(c, agent, done)[key := Appended(c, agent, key, value)]
  {
    hide Appended;
  }

  lemma WriteOneMore(c: Content, agent: Id, done: Payload, key: Id, value: Value)
    requires key !in done
    ensures
      var r := WriteReadonly(c, agent, done);
      WriteReadonly(c, agent, done[key := value]) ==
      r.(readonly := r.readonly[key := value], versions := r.versions[key := Appended(r, agent, key, value)])
  {
    hide Appended, NewVersions;
    AppendedAfter(c, agent, done, key, value);
    VersionsOneMore(c, agent, done, key, value);
    assert c.readonly + done[key := value] == (c.readonly + done)[key := value];
  }

  lemma MovedEnumerates(q: seq<Id>, s: set<Id>, x: Id)
    requires Enumerates(q, s) && x in s
    ensures Enumerates(MoveToEnd(q, x), s)
  {
    hide RemoveFirst;
    RemoveFirstDistinct(q, x);
    AddedEnumerates(RemoveFirst(q, x), s - {x}, x);
    assert s - {x} + {x} == s;
  }

  lemma AddedEnumerates(q: seq<Id>, s: set<Id>, x: Id)
    requires Enumerates(q, s) && x !in s
    ensures Enumerates(q + [x], s + {x})
  {
  }
}
