/** What a record and a rollback leave of each context, at any point of any run. */
module ContextSteps {
  import opened Graphs
  import opened Tasks
  import opened ContextSpec
  import opened ContextRuns

  /** What the agent adds to private data. */
  function Share(agent: Id, private: Option<Payload>, a: Id): Payload {
    if a == agent && private.Some? then private.value else map[]
  }

  /** w is c with the data written: into the deltas if c is compressed, else into the data itself.
      Readonly values are replaced, and each change of one adds a version, with the next number and the
      agent as its owner, to the history of its key. */
  ghost predicate Wrote(c: Content, w: Content, agent: Id, shared: Payload, private: Option<Payload>,
                        readonly: Payload) {
    && w.compressed == c.compressed
    && (if c.compressed then
          && w.shared == c.shared && w.private == c.private && w.deltaShared == c.deltaShared + shared
          && (forall a :: Of(w.deltaPrivate, a) == Of(c.deltaPrivate, a) + Share(agent, private, a))
        else
          && w.deltaShared == c.deltaShared && w.deltaPrivate == c.deltaPrivate && w.shared == c.shared + shared
          && (forall a :: Of(w.private, a) == Of(c.private, a) + Share(agent, private, a)))
    && w.readonly == c.readonly + readonly
    && (forall k :: HistoryGrows(c, w, agent, readonly, k))
  }

  ghost predicate HistoryGrows(c: Content, w: Content, agent: Id, readonly: Payload, k: Id) {
    var changed := k in readonly && !(k in c.readonly && c.readonly[k] == readonly[k]);
    History(w, k) ==
      History(c, k) + if changed then [Version(|History(c, k)| + 1, readonly[k], agent)] else []
  }

  predicate IsImportant(k: Id) {
    k.name in {"goal", "task", "constraints", "tool_results", "entities", "requirements"}
  }

  /** q is the summary of p: its flag, its label, the list of the keys of p, and the important ones of
      them with their values. */
  ghost predicate Summarises(env: Env, name: string, p: Payload, q: Payload) {
    && q.Keys == {Id("__structured_summary__"), Id("label"), Id("keys"), Id("important")}
    && q[Id("__structured_summary__")] == Flag(true) && q[Id("label")] == Text(name)
    && q[Id("keys")] == Names(env.listing(p.Keys)) && q[Id("important")].Record?
    && (forall k :: k in q[Id("important")].fields <==> k in p && IsImportant(k))
    && (forall k :: k in q[Id("important")].fields && k in p ==> q[Id("important")].fields[k] == p[k])
  }

  /** z is w compressed: shared data and the private data of each agent, with what came since the last
      compression, are summaries now; the deltas are empty; readonly data and histories are as they were. */
  ghost predicate Compacts(env: Env, w: Content, z: Content) {
    && z.compressed && z.deltaShared == map[] && z.deltaPrivate == map[]
    && z.readonly == w.readonly && z.versions == w.versions
    && Summarises(env, "shared", MergedShared(w), z.shared)
    && z.private.Keys == w.private.Keys + w.deltaPrivate.Keys
    && (forall a :: a in z.private ==> Summarises(env, "private:" + a.name, ViewPrivate(w, a), z.private[a]))
  }

  lemma SummaryMeans(env: Env, name: string, p: Payload)
    ensures Summarises(env, name, p, Summary(env, name, p))
  {
    forall k: Id ensures k in IMPORTANT <==> IsImportant(k) {
      assert Id(k.name) == k;
    }
  }

  lemma CompressedMeans(env: Env, w: Content)
    ensures Compacts(env, w, Compressed(env, w))
  {
    hide Summary, Summarises;
    SummaryMeans(env, "shared", MergedShared(w));
    var z := Compressed(env, w);
    forall a | a in z.private ensures Summarises(env, "private:" + a.name, ViewPrivate(w, a), z.private[a]) {
      SummaryMeans(env, "private:" + a.name, ViewPrivate(w, a));
    }
  }

  lemma PrivateMeans(c: Content, agent: Id, private: Option<Payload>, a: Id)
    ensures
      var w := if private.None? then c else WritePrivate(c, agent, private.value);
      && Of(w.deltaPrivate, a) == Of(c.deltaPrivate, a) + (if c.compressed then Share(agent, private, a) else map[])
      && Of(w.private, a) == Of(c.private, a) + (if c.compressed then map[] else Share(agent, private, a))
  {
    assert Of(c.deltaPrivate, a) + map[] == Of(c.deltaPrivate, a);
    assert Of(c.private, a) + map[] == Of(c.private, a);
  }

  lemma WrittenMeans(c: Content, agent: Id, shared: Payload, private: Option<Payload>, readonly: Payload)
    ensures Wrote(c, Written(c, agent, shared, private, readonly), agent, shared, private, readonly)
  {
    hide WriteShared, WritePrivate, WriteReadonly, Of, HistoryGrows, Share;
    var c1 := if shared == map[] then c else WriteShared(c, shared);
    var c2 := if private.None? then c1 else WritePrivate(c1, agent, private.value);
    var w := Written(c, agent, shared, private, readonly);
    SharedOnly(c, shared);
    PrivateOnly(c1, agent, private);
    ReadonlyOnly(c2, agent, readonly);
    forall a
      ensures c.compressed ==> Of(w.deltaPrivate, a) == Of(c.deltaPrivate, a) + Share(agent, private, a)
      ensures !c.compressed ==> Of(w.private, a) == Of(c.private, a) + Share(agent, private, a)
    {
      PrivateMeans(c1, agent, private, a);
    }
    forall k ensures HistoryGrows(c, w, agent, readonly, k) {
      HistoryMeans(c, c2, agent, readonly, k);
    }
  }

  lemma SharedOnly(c: Content, shared: Payload)
    ensures
      var w := if shared == map[] then c else WriteShared(c, shared);
      && w == c.(shared := w.shared, deltaShared := w.deltaShared)
      && (c.compressed ==> w.shared == c.shared && w.deltaShared == c.deltaShared + shared)
      && (!c.compressed ==> w.shared == c.shared + shared && w.deltaShared == c.deltaShared)
  {
    assert c.shared + map[] == c.shared && c.deltaShared + map[] == c.deltaShared;
  }

  lemma ReadonlyOnly(c: Content, agent: Id, readonly: Payload)
    ensures
      var w := if readonly == map[] then c else WriteReadonly(c, agent, readonly);
      w == c.(readonly := w.readonly, versions := w.versions) && w.readonly == c.readonly + readonly
  {
    hide NewVersions;
    assert c.readonly + map[] == c.readonly;
  }

  /** Writing private data touches one table. */
  lemma PrivateOnly(c: Content, agent: Id, private: Option<Payload>)
    ensures
      var w := if private.None? then c else WritePrivate(c, agent, private.value);
      && w == c.(private := w.private, deltaPrivate := w.deltaPrivate)
      && (c.compressed ==> w.private == c.private) && (!c.compressed ==> w.deltaPrivate == c.deltaPrivate)
  {
  }

  lemma HistoryMeans(c: Content, c2: Content, agent: Id, readonly: Payload, k: Id)
    requires c2.readonly == c.readonly && c2.versions == c.versions
    ensures HistoryGrows(c, if readonly == map[] then c2 else WriteReadonly(c2, agent, readonly), agent, readonly, k)
  {
  }

  /** The context an operation finds. */
  function Found(s: MState, id: Id): Context {
    if id in s.contexts then s.contexts[id] else FRESH
  }

  /** At any record of any run, if the context is not evicted at once: the data are written; if the
      result is larger than the threshold it is put on the stack and compressed, and if not it is kept
      as it is. The version counts the parts written, and the compression. Every other live context is
      as it was. */
  lemma RecordWrites(env: Env, max: nat, states: seq<MState>, ops: seq<Op>, k: nat) returns (w: Content)
    requires Run(env, max, states, ops) && k < |ops| < |states| && ops[k].DoRecord?
    ensures
      var op, x := ops[k], Found(states[k], ops[k].id);
      var parts := (if op.shared == map[] then 0 else 1) + (if op.private.None? then 0 else 1) +
        (if op.readonly == map[] then 0 else 1);
      && Wrote(x.now, w, op.agent, op.shared, op.private, op.readonly)
      && (op.id in states[k + 1].contexts ==>
            var y := states[k + 1].contexts[op.id];
            if env.size(w) > env.threshold then
              Compacts(env, w, y.now) && y.stack == x.stack + [w] && y.version == x.version + parts + 1
            else y.now == w && y.stack == x.stack && y.version == x.version + parts)
      && (forall id :: id in states[k + 1].contexts && id != op.id ==>
            id in states[k].contexts && states[k + 1].contexts[id] == states[k].contexts[id])
  {
    hide Wrote, Compacts, Written, Compressed, LastOf, MoveToEnd;
    assert states[k + 1] == Step(env, max, states[k], ops[k]);
    var op, x := ops[k], Found(states[k], ops[k].id);
    w := Written(x.now, op.agent, op.shared, op.private, op.readonly);
    WrittenMeans(x.now, op.agent, op.shared, op.private, op.readonly);
    CompressedMeans(env, w);
  }

  /** At any rollback of any run: a live context with something on its stack becomes what lies on top of
      it. Nothing else changes, and neither does the order of use. */
  lemma RollbackPops(env: Env, max: nat, states: seq<MState>, ops: seq<Op>, k: nat, id: Id)
    requires Run(env, max, states, ops) && k < |ops| < |states| && ops[k].DoRollback?
    ensures
      var s, s' := states[k], states[k + 1];
      && s'.order == s.order && s'.contexts.Keys == s.contexts.Keys
      && (id in s.contexts ==>
            var x, y := s.contexts[id], s'.contexts[id];
            if id == ops[k].id && x.stack != [] then
              x.stack == y.stack + [y.now] && y.version == x.version + 1
            else y == x)
  {
    assert states[k + 1] == Step(env, max, states[k], ops[k]);
  }

  /** Building a context changes none. */
  lemma BuildReads(env: Env, max: nat, states: seq<MState>, ops: seq<Op>, k: nat)
    requires Run(env, max, states, ops) && k < |ops| < |states| && ops[k].DoBuild?
    ensures states[k + 1].contexts == states[k].contexts
  {
    hide MoveToEnd;
    assert states[k + 1] == Step(env, max, states[k], ops[k]);
  }
}
