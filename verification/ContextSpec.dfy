/** Runtime contexts: what recording, compressing and rolling back do to one of them, and which of
    them the manager keeps. */
module ContextSpec {
  import opened Graphs
  import opened Tasks

  datatype Value =
    | Text(text: string)
    | Flag(flag: bool)
    | Names(names: seq<Id>)
    | Record(fields: map<Id, Value>)

  /** Keys are names like ids. */
  type Payload = map<Id, Value>

  /** One entry of a readonly history. */
  datatype Version = Version(number: nat, value: Value, owner: Id)

  /** What a snapshot holds. */
  datatype Content = Content(
    shared: Payload,
    private: map<Id, Payload>,
    readonly: Payload,
    deltaShared: Payload,
    deltaPrivate: map<Id, Payload>,
    versions: map<Id, seq<Version>>,
    compressed: bool)

  /** `stack` is previous_versions, the latest snapshot last. */
  datatype Context = Context(now: Content, stack: seq<Content>, version: nat)

  const FRESH := Context(Content(map[], map[], map[], map[], map[], map[], false), [], 0)

  /** `size` is the serialized size that is compared with the threshold, `listing` the sorted key
      list of a summary, cut at fifty. */
  datatype Env = Env(size: Content -> int, threshold: int, listing: set<Id> -> seq<Id>)

  function Of(m: map<Id, Payload>, agent: Id): Payload {
    if agent in m then m[agent] else map[]
  }

  /** The shared data handed to agents. */
  function MergedShared(c: Content): Payload {
    c.shared + c.deltaShared
  }

  function MergedPrivate(c: Content): map<Id, Payload> {
    map a | a in c.private.Keys + c.deltaPrivate.Keys :: Of(c.private, a) + Of(c.deltaPrivate, a)
  }

  // ---- recording ----

  function WriteShared(c: Content, data: Payload): Content {
    if c.compressed then c.(deltaShared := c.deltaShared + data) else c.(shared := c.shared + data)
  }

  function WritePrivate(c: Content, agent: Id, data: Payload): Content {
    if c.compressed then c.(deltaPrivate := c.deltaPrivate[agent := Of(c.deltaPrivate, agent) + data])
    else c.(private := c.private[agent := Of(c.private, agent) + data])
  }

  function History(c: Content, key: Id): seq<Version> {
    if key in c.versions then c.versions[key] else []
  }

  /** The history of `key` after writing `value`: one entry longer, unless the value is the current one. */
  function Appended(c: Content, agent: Id, key: Id, value: Value): seq<Version> {
    if key in c.readonly && c.readonly[key] == value then History(c, key)
    else History(c, key) + [Version(|History(c, key)| + 1, value, agent)]
  }

  function NewVersions(c: Content, agent: Id, data: Payload): map<Id, seq<Version>> {
    map k | k in c.versions.Keys + data.Keys :: if k in data then Appended(c, agent, k, data[k]) else c.versions[k]
  }

  function WriteReadonly(c: Content, agent: Id, data: Payload): Content {
    c.(readonly := c.readonly + data, versions := NewVersions(c, agent, data))
  }

  // ---- compressing ----

  const IMPORTANT: set<Id> :=
    {Id("goal"), Id("task"), Id("constraints"), Id("tool_results"), Id("entities"), Id("requirements")}

  function Summary(env: Env, name: string, p: Payload): Payload {
    map[Id("__structured_summary__") := Flag(true),
        Id("label") := Text(name),
        Id("keys") := Names(env.listing(p.Keys)),
        Id("important") := Record(map k | k in p && k in IMPORTANT :: p[k])]
  }

  const SUMMARY_KEYS: set<Id> := {Id("__structured_summary__"), Id("label"), Id("keys"), Id("important")}

  /** The values a summary has kept under "important". */
  function Kept(p: Payload): Payload {
    if Id("important") in p && p[Id("important")].Record? then p[Id("important")].fields else map[]
  }

  function Compressed(env: Env, c: Content): Content {
    c.(shared := Summary(env, "shared", MergedShared(c)),
       private := map a | a in MergedPrivate(c) :: Summary(env, "private:" + a.name, MergedPrivate(c)[a]),
       deltaShared := map[], deltaPrivate := map[], compressed := true)
  }

  predicate Compresses(env: Env, c: Content) {
    env.size(c) > env.threshold
  }

  function CompressIfNeeded(env: Env, x: Context): Context {
    if Compresses(env, x.now)
    then Context(Compressed(env, x.now), x.stack + [x.now], x.version + 1)
    else x
  }

  // ---- one context ----

  /** The content written by record_task_context, before it may be compressed. `shared` and
      `readonly` empty count as absent. */
  function Written(c: Content, agent: Id, shared: Payload, private: Option<Payload>, readonly: Payload): Content {
    var c1 := if shared == map[] then c else WriteShared(c, shared);
    var c2 := if private.None? then c1 else WritePrivate(c1, agent, private.value);
    if readonly == map[] then c2 else WriteReadonly(c2, agent, readonly)
  }

  function Bumps(shared: Payload, private: Option<Payload>, readonly: Payload): nat {
    (if shared == map[] then 0 else 1) + (if private.None? then 0 else 1) + (if readonly == map[] then 0 else 1)
  }

  function Recorded(env: Env, x: Context, agent: Id, shared: Payload, private: Option<Payload>,
                    readonly: Payload): Context {
    CompressIfNeeded(env, Context(Written(x.now, agent, shared, private, readonly), x.stack,
                                  x.version + Bumps(shared, private, readonly)))
  }

  function RolledBack(x: Context): Context {
    if x.stack == [] then x
    else Context(x.stack[|x.stack| - 1], x.stack[..|x.stack| - 1], x.version + 1)
  }

  // ---- the manager ----

  /** An ordered dictionary: `order` lists the keys, least recently used first. */
  datatype MState = MState(contexts: map<Id, Context>, order: seq<Id>)

  function MoveToEnd(order: seq<Id>, id: Id): seq<Id> {
    RemoveFirst(order, id) + [id]
  }

  function LastOf(order: seq<Id>, n: nat): seq<Id> {
    if |order| <= n then order else order[|order| - n..]
  }

  /** _evict_lru. */
  function Evict(s: MState, max: nat): MState {
    var order := LastOf(s.order, max);
    MState(map k | k in s.contexts && k in order :: s.contexts[k], order)
  }

  function RecordIn(env: Env, max: nat, s: MState, id: Id, agent: Id,
                    shared: Payload, private: Option<Payload>, readonly: Payload): MState
  {
    var x := if id in s.contexts then s.contexts[id] else FRESH;
    var order := if id in s.contexts then MoveToEnd(s.order, id) else s.order + [id];
    Evict(MState(s.contexts[id := Recorded(env, x, agent, shared, private, readonly)], order), max)
  }

  /** Building a context reads it and marks it as used. */
  function BuildIn(s: MState, id: Id): MState {
    if id in s.contexts then s.(order := MoveToEnd(s.order, id)) else s
  }

  function RollbackIn(s: MState, id: Id): MState {
    if id in s.contexts then s.(contexts := s.contexts[id := RolledBack(s.contexts[id])]) else s
  }

  /** The private data handed to an agent. */
  function ViewPrivate(c: Content, agent: Id): Payload {
    Of(c.private, agent) + Of(c.deltaPrivate, agent)
  }
}
