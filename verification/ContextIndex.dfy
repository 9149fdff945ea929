/** The conversation index of the OpenAI service as a value: what remember, forget,
    the lookups and prune do to it, and what every run of them keeps
    (openai_service.go). ContextService refines it with the updating class. */
module ContextIndex {
  import opened Text
  import opened Messages
  import opened Tables

  const MAX_TRANSCRIPT_CONTEXT_ENTRIES: nat := 1000
  /** Twelve hours in nanoseconds. */
  const TRANSCRIPT_CONTEXT_TTL: int := 12 * 3600 * 1_000_000_000

  /** What the service can ask its client about a provider conversation. */
  datatype Upstream = NoClient | Client(hasState: set<Id>, untrusted: set<Id>, localFallback: bool)

  predicate HasState(up: Upstream, id: Id) {
    up.NoClient? || id in up.hasState
  }

  /** providerConversationReady. */
  predicate Ready(up: Upstream, id: Id) {
    up.NoClient? || (id in up.hasState && !(up.localFallback && id in up.untrusted))
  }

  /** Prompts by what they are built from; their wording is not modelled. */
  datatype Prompt =
    | FullPrompt(messages: seq<Message>)
    | RawPrompt(message: Message)
    | ToolResultPrompt(user: Message, call: Message, results: seq<Message>)

  datatype ContextPlan = ContextPlan(prompt: Prompt, provider: Id, client: Id, phase: string, autoContext: bool,
                                     requestMessages: seq<Message>, responseText: string)

  /** Per provider, the key and length of its newest transcript. */
  datatype Frontier = Frontier(latest: map<Id, Key>, length: map<Id, nat>)

  datatype Index = Index(
    transcripts: Table<Key, Id>,
    suffixes: Table<Key, Id>,
    windows: Table<WindowKey, Id>,
    roots: Table<Key, Id>,
    explicit: Table<Id, Id>,
    frontier: Frontier,
    retained: Table<Id, seq<Message>>,
    toolBridge: Table<Id, Signature>)

  function EmptyTable<K, V>(): Table<K, V> {
    Table(map[], map[])
  }

  const EMPTY_INDEX: Index :=
    Index(EmptyTable(), EmptyTable(), EmptyTable(), EmptyTable(), EmptyTable(), Frontier(map[], map[]), EmptyTable(),
          EmptyTable())

  // ---- Remember ----

  function RetainedOf(ix: Index, p: Id): seq<Message> {
    if p in ix.retained.ctx then ix.retained.ctx[p] else []
  }

  /** The keys of the suffixes that start before position end. */
  function SuffixKeysUpTo(messages: seq<Message>, end: nat): seq<Key>
    requires 1 <= end <= |messages|
  {
    seq(end - 1, i requires 0 <= i < end - 1 => Fingerprint(messages[i + 1..]))
  }

  function SuffixKeys(messages: seq<Message>): seq<Key> {
    if |messages| < 4 then [] else SuffixKeysUpTo(messages, |messages| - 1)
  }

  /** The keys of the user windows of sizes 2 to size. */
  function WindowKeysUpTo(messages: seq<Message>, size: nat): seq<WindowKey> {
    if size < 2 then []
    else
      var key := WindowFingerprint(messages, size, size);
      WindowKeysUpTo(messages, size - 1) + (if key == NoWindow then [] else [key])
  }

  function WindowKeys(messages: seq<Message>): seq<WindowKey> {
    WindowKeysUpTo(messages, 4)
  }

  /** Every key under which a transcript can be found again, for provider p. */
  function NoteTranscript(ix: Index, messages: seq<Message>, p: Id, now: int): Index {
    var root := RootFingerprint(messages);
    ix.(transcripts := Put(ix.transcripts, Fingerprint(messages), p, now),
        suffixes := PutEach(ix.suffixes, SuffixKeys(messages), p, now),
        windows := PutEach(ix.windows, WindowKeys(messages), p, now),
        roots := if root == NoKey then ix.roots else Put(ix.roots, root, p, now))
  }

  function SetFrontier(f: Frontier, p: Id, next: seq<Message>): Frontier {
    Frontier(f.latest[p := Fingerprint(next)], f.length[p := |next|])
  }

  function DropFrontier(f: Frontier, gone: set<Id>): Frontier {
    Frontier(f.latest - gone, f.length - gone)
  }

  function RequestOf(ix: Index, plan: ContextPlan): seq<Message> {
    MergeRecovery(RetainedOf(ix, plan.provider), plan.requestMessages)
  }

  function TranscriptOf(ix: Index, plan: ContextPlan): seq<Message> {
    RequestOf(ix, plan) + [Assistant(plan.responseText)]
  }

  predicate Memorable(plan: ContextPlan, up: Upstream) {
    plan.provider != NoId && TrimSpace(plan.responseText) != "" && HasState(up, plan.provider)
  }

  /** rememberRequestContext on a pruned index. */
  function Remembered(ix: Index, plan: ContextPlan, now: int): Index {
    var p := plan.provider;
    var request := RequestOf(ix, plan);
    var next := TranscriptOf(ix, plan);
    var bound := if plan.client == NoId then ix else ix.(explicit := Put(ix.explicit, plan.client, p, now));
    var asked := if request == [] then bound else NoteTranscript(bound, request, p, now);
    NoteTranscript(asked, next, p, now).(
      frontier := SetFrontier(asked.frontier, p, next),
      retained := Put(asked.retained, p, next, now))
  }

  ghost predicate RememberStep(ix: Index, plan: ContextPlan, up: Upstream, now: int, next: Index) {
    if !Memorable(plan, up) then next == ix
    else exists mid :: PruneStep(ix, now, mid) && next == Remembered(mid, plan, now)
  }

  // ---- Forget ----

  function Holding<K>(t: Table<K, Id>, p: Id): set<K> {
    set k | k in t.ctx && t.ctx[k] == p
  }

  function Forget(ix: Index, p: Id): Index {
    if p == NoId then ix
    else Index(
      Drop(ix.transcripts, Holding(ix.transcripts, p)),
      Drop(ix.suffixes, Holding(ix.suffixes, p)),
      Drop(ix.windows, Holding(ix.windows, p)),
      Drop(ix.roots, Holding(ix.roots, p)),
      Drop(ix.explicit, Holding(ix.explicit, p)),
      DropFrontier(ix.frontier, {p}),
      Drop(ix.retained, {p}),
      Drop(ix.toolBridge, {p}))
  }

  // ---- Prune ----

  /** Providers whose frontier entry is among the keys that go. */
  function Orphaned(latest: map<Id, Key>, ctx: map<Key, Id>, gone: set<Key>): set<Id> {
    set p | p in latest && latest[p] in gone && latest[p] in ctx && ctx[latest[p]] == p
  }

  function ExpireAll(ix: Index, now: int): Index {
    var orphans := Orphaned(ix.frontier.latest, ix.transcripts.ctx,
                            Stale(ix.transcripts.at, now, TRANSCRIPT_CONTEXT_TTL));
    Index(
      Expire(ix.transcripts, now, TRANSCRIPT_CONTEXT_TTL),
      Expire(ix.suffixes, now, TRANSCRIPT_CONTEXT_TTL),
      Expire(ix.windows, now, TRANSCRIPT_CONTEXT_TTL),
      Expire(ix.roots, now, TRANSCRIPT_CONTEXT_TTL),
      Expire(ix.explicit, now, TRANSCRIPT_CONTEXT_TTL),
      DropFrontier(ix.frontier, orphans),
      Expire(ix.retained, now, TRANSCRIPT_CONTEXT_TTL),
      Expire(ix.toolBridge, now, TRANSCRIPT_CONTEXT_TTL))
  }

  ghost predicate CapStep(ix: Index, next: Index) {
    var orphans := Orphaned(ix.frontier.latest, ix.transcripts.ctx,
                            ix.transcripts.ctx.Keys - next.transcripts.ctx.Keys);
    && Capped(ix.transcripts, next.transcripts, MAX_TRANSCRIPT_CONTEXT_ENTRIES)
    && Capped(ix.retained, next.retained, MAX_TRANSCRIPT_CONTEXT_ENTRIES)
    && Capped(ix.roots, next.roots, MAX_TRANSCRIPT_CONTEXT_ENTRIES)
    && Capped(ix.suffixes, next.suffixes, MAX_TRANSCRIPT_CONTEXT_ENTRIES)
    && Capped(ix.windows, next.windows, MAX_TRANSCRIPT_CONTEXT_ENTRIES)
    && next.explicit == ix.explicit && next.toolBridge == ix.toolBridge
    && next.frontier == DropFrontier(ix.frontier, orphans)
  }

  /** pruneTranscriptContextsLocked: which of several equally old entries goes is
      open, so pruning is a relation. */
  ghost predicate PruneStep(ix: Index, now: int, next: Index) {
    CapStep(ExpireAll(ix, now), next)
  }

  // ---- Lookups ----

  predicate IsStale<K>(at: map<K, int>, k: K, now: int) {
    k in at && now - at[k] > TRANSCRIPT_CONTEXT_TTL
  }

  function Find<K>(t: Table<K, Id>, k: K): Id {
    if k in t.ctx then t.ctx[k] else NoId
  }

  /** providerConversationForTranscript: an exact hit must be the frontier. */
  function LookupExact(ix: Index, up: Upstream, messages: seq<Message>, now: int): (Id, Index) {
    var key := Fingerprint(messages);
    if key == NoKey then (NoId, ix)
    else if IsStale(ix.transcripts.at, key, now) then (NoId, ix.(transcripts := Drop(ix.transcripts, {key})))
    else
      var p := Find(ix.transcripts, key);
      if p == NoId || (p in ix.frontier.latest && ix.frontier.latest[p] != NoKey && ix.frontier.latest[p] != key)
        || !Ready(up, p) then (NoId, ix)
      else (p, ix.(transcripts := Touch(ix.transcripts, key, now)))
  }

  /** providerConversationForTranscriptAny. */
  function LookupAny(ix: Index, up: Upstream, messages: seq<Message>, now: int): (Id, Index) {
    var key := Fingerprint(messages);
    if key == NoKey then (NoId, ix)
    else if IsStale(ix.transcripts.at, key, now) then (NoId, ix.(transcripts := Drop(ix.transcripts, {key})))
    else
      var p := Find(ix.transcripts, key);
      if p == NoId || !Ready(up, p) then (NoId, ix)
      else (p, ix.(transcripts := Touch(ix.transcripts, key, now)))
  }

  /** providerConversationForTranscriptSuffix. */
  function LookupSuffix(ix: Index, up: Upstream, messages: seq<Message>, now: int): (Id, Index) {
    var key := Fingerprint(messages);
    if |messages| < 2 || key == NoKey then (NoId, ix)
    else if IsStale(ix.suffixes.at, key, now) then (NoId, ix.(suffixes := Drop(ix.suffixes, {key})))
    else
      var p := Find(ix.suffixes, key);
      if p == NoId || !Ready(up, p) then (NoId, ix)
      else
        var latest := if p in ix.frontier.latest then ix.frontier.latest[p] else NoKey;
        if latest == NoKey || latest == key then (NoId, ix)
        else (p, ix.(suffixes := Touch(ix.suffixes, key, now)))
  }

  /** providerConversationForUserWindow. */
  function LookupWindow(ix: Index, up: Upstream, messages: seq<Message>, now: int): (Id, Index) {
    var key := WindowFingerprint(messages, 2, 4);
    if key == NoWindow then (NoId, ix)
    else if IsStale(ix.windows.at, key, now) then (NoId, ix.(windows := Drop(ix.windows, {key})))
    else
      var p := Find(ix.windows, key);
      if p == NoId || !Ready(up, p) then (NoId, ix)
      else (p, ix.(windows := Touch(ix.windows, key, now)))
  }

  /** providerConversationForRoot: a root hit must not be shorter than the frontier. */
  function LookupRoot(ix: Index, up: Upstream, messages: seq<Message>, now: int): (Id, Index) {
    var key := RootFingerprint(messages);
    if key == NoKey then (NoId, ix)
    else if IsStale(ix.roots.at, key, now) then (NoId, ix.(roots := Drop(ix.roots, {key})))
    else
      var p := Find(ix.roots, key);
      if p == NoId || !Ready(up, p) then (NoId, ix)
      else
        var latest := if p in ix.frontier.length then ix.frontier.length[p] else 0;
        if latest > 0 && |messages| < latest then (NoId, ix)
        else (p, ix.(roots := Touch(ix.roots, key, now)))
  }

  /** providerConversationForExplicitID. */
  function LookupExplicit(ix: Index, up: Upstream, client: Id, now: int): (Id, Index) {
    if client == NoId then (NoId, ix)
    else if IsStale(ix.explicit.at, client, now) then (NoId, ix.(explicit := Drop(ix.explicit, {client})))
    else
      var p := Find(ix.explicit, client);
      if p == NoId || !Ready(up, p) then (NoId, ix)
      else (p, ix.(explicit := Touch(ix.explicit, client, now)))
  }

  // ---- Tool-bridge memory ----

  predicate BridgeReady(ix: Index, p: Id, signature: Signature) {
    p != NoId && signature != NoSignature && p in ix.toolBridge.ctx && ix.toolBridge.ctx[p] == signature
  }

  function RememberBridge(ix: Index, p: Id, signature: Signature, now: int): Index {
    if p == NoId || signature == NoSignature then ix
    else ix.(toolBridge := Put(Expire(ix.toolBridge, now, TRANSCRIPT_CONTEXT_TTL), p, signature, now))
  }

  // ---- The invariant ----

  /** Every index has the keys of its timestamp map. */
  ghost predicate AllSynced(ix: Index) {
    && Synced(ix.transcripts) && Synced(ix.suffixes) && Synced(ix.windows) && Synced(ix.roots)
    && Synced(ix.explicit) && Synced(ix.retained) && Synced(ix.toolBridge)
  }

  /** A frontier is the key and length of one transcript: the retained one, if any. */
  ghost predicate FrontierAgrees(ix: Index) {
    && ix.frontier.latest.Keys == ix.frontier.length.Keys
    && (forall p :: p in ix.frontier.latest ==>
        ix.frontier.latest[p].Key? && ix.frontier.length[p] == |ix.frontier.latest[p].messages|)
    && (forall p :: p in ix.frontier.latest && p in ix.retained.ctx ==>
        ix.frontier.latest[p] == Fingerprint(ix.retained.ctx[p]))
  }

  ghost predicate NoBlank<K>(t: Table<K, Id>, none: K) {
    none !in t.ctx && forall k :: k in t.ctx ==> t.ctx[k] != NoId
  }

  /** No entry has the empty key or names the empty provider. */
  ghost predicate NoBlanks(ix: Index) {
    && NoBlank(ix.transcripts, NoKey) && NoBlank(ix.suffixes, NoKey) && NoBlank(ix.windows, NoWindow)
    && NoBlank(ix.roots, NoKey) && NoBlank(ix.explicit, NoId) && NoId !in ix.retained.ctx
  }

  ghost predicate Inv(ix: Index) {
    AllSynced(ix) && FrontierAgrees(ix) && NoBlanks(ix)
  }

  // ---- Runs ----

  datatype Op =
    | Remember(plan: ContextPlan, up: Upstream)
    | ForgetProvider(provider: Id)
    | Exact(messages: seq<Message>, up: Upstream)
    | Any(messages: seq<Message>, up: Upstream)
    | Suffix(messages: seq<Message>, up: Upstream)
    | Window(messages: seq<Message>, up: Upstream)
    | Root(messages: seq<Message>, up: Upstream)
    | Explicit(client: Id, up: Upstream)
    | Recover
    | BridgeRemember(provider: Id, signature: Signature)

  predicate LooksUp(op: Op) {
    !op.Remember? && !op.ForgetProvider? && !op.Recover? && !op.BridgeRemember?
  }

  function Lookup(ix: Index, op: Op, now: int): (Id, Index)
    requires LooksUp(op)
  {
    match op
    case Exact(messages, up) => LookupExact(ix, up, messages, now)
    case Any(messages, up) => LookupAny(ix, up, messages, now)
    case Suffix(messages, up) => LookupSuffix(ix, up, messages, now)
    case Window(messages, up) => LookupWindow(ix, up, messages, now)
    case Root(messages, up) => LookupRoot(ix, up, messages, now)
    case Explicit(client, up) => LookupExplicit(ix, up, client, now)
  }

  ghost predicate Step(ix: Index, op: Op, now: int, next: Index) {
    match op
    case Remember(plan, up) => RememberStep(ix, plan, up, now, next)
    case ForgetProvider(p) => next == Forget(ix, p)
    case Recover => PruneStep(ix, now, next)
    case BridgeRemember(p, signature) => next == RememberBridge(ix, p, signature, now)
    case _ => next == Lookup(ix, op, now).1
  }

  /** A run of the index: op i, at time times[i], takes states[i] to states[i + 1]. */
  ghost predicate Run(ops: seq<Op>, times: seq<int>, states: seq<Index>) {
    && |times| == |ops| && |states| == |ops| + 1
    && forall i :: 0 <= i < |ops| ==> Step(states[i], ops[i], times[i], states[i + 1])
  }

  // ---- Every step keeps the invariant ----

  lemma {:induction false} WindowKeysAreKeys(messages: seq<Message>, size: nat)
    ensures NoWindow !in WindowKeysUpTo(messages, size)
  {
    if size < 2 {
    } else {
      WindowKeysAreKeys(messages, size - 1);
    }
  }

  lemma InvWithTranscripts(ix: Index, t: Table<Key, Id>)
    requires Inv(ix) && Synced(t) && NoBlank(t, NoKey)
    ensures Inv(ix.(transcripts := t))
  {
  }

  lemma InvWithSuffixes(ix: Index, t: Table<Key, Id>)
    requires Inv(ix) && Synced(t) && NoBlank(t, NoKey)
    ensures Inv(ix.(suffixes := t))
  {
  }

  lemma InvWithWindows(ix: Index, t: Table<WindowKey, Id>)
    requires Inv(ix) && Synced(t) && NoBlank(t, NoWindow)
    ensures Inv(ix.(windows := t))
  {
  }

  lemma InvWithRoots(ix: Index, t: Table<Key, Id>)
    requires Inv(ix) && Synced(t) && NoBlank(t, NoKey)
    ensures Inv(ix.(roots := t))
  {
  }

  lemma InvWithExplicit(ix: Index, t: Table<Id, Id>)
    requires Inv(ix) && Synced(t) && NoBlank(t, NoId)
    ensures Inv(ix.(explicit := t))
  {
  }

  lemma {:induction false} PutEachKeeps<K>(t: Table<K, Id>, keys: seq<K>, p: Id, now: int, none: K)
    requires Synced(t) && NoBlank(t, none) && none !in keys && p != NoId
    ensures Synced(PutEach(t, keys, p, now)) && NoBlank(PutEach(t, keys, p, now), none)
  {
    if keys == [] {
    } else {
      PutEachKeeps(t, keys[..|keys| - 1], p, now, none);
    }
  }

  lemma PutKeeps<K>(t: Table<K, Id>, k: K, p: Id, now: int, none: K)
    requires Synced(t) && NoBlank(t, none) && none != k && p != NoId
    ensures Synced(Put(t, k, p, now)) && NoBlank(Put(t, k, p, now), none)
  {
  }

  lemma SuffixKeysAreKeys(messages: seq<Message>)
    ensures NoKey !in SuffixKeys(messages)
  {
    var keys := SuffixKeys(messages);
    assert forall i :: 0 <= i < |keys| ==> keys[i] != NoKey;
  }

  lemma InvTables(ix: Index)
    requires Inv(ix)
    ensures NoBlank(ix.transcripts, NoKey) && NoBlank(ix.suffixes, NoKey)
    ensures NoBlank(ix.windows, NoWindow) && NoBlank(ix.roots, NoKey)
    ensures Synced(ix.transcripts) && Synced(ix.suffixes) && Synced(ix.windows) && Synced(ix.roots)
  {
  }

  lemma InvNote(ix: Index, messages: seq<Message>, p: Id, now: int)
    requires Inv(ix) && messages != [] && p != NoId
    ensures Inv(NoteTranscript(ix, messages, p, now))
  {
    var root := RootFingerprint(messages);
    WindowKeysAreKeys(messages, 4);
    assert NoWindow !in WindowKeys(messages);
    SuffixKeysAreKeys(messages);
    InvTables(ix);
    hide Inv, WindowKeysUpTo, NoBlank, Synced, Put, PutEach, SuffixKeys, WindowKeys, RootFingerprint;
    PutKeeps(ix.transcripts, Fingerprint(messages), p, now, NoKey);
    PutEachKeeps(ix.suffixes, SuffixKeys(messages), p, now, NoKey);
    PutEachKeeps(ix.windows, WindowKeys(messages), p, now, NoWindow);
    var ix1 := ix.(transcripts := Put(ix.transcripts, Fingerprint(messages), p, now));
    InvWithTranscripts(ix, ix1.transcripts);
    var ix2 := ix1.(suffixes := PutEach(ix.suffixes, SuffixKeys(messages), p, now));
    InvWithSuffixes(ix1, ix2.suffixes);
    var ix3 := ix2.(windows := PutEach(ix.windows, WindowKeys(messages), p, now));
    InvWithWindows(ix2, ix3.windows);
    if root != NoKey {
      PutKeeps(ix.roots, root, p, now, NoKey);
      InvWithRoots(ix3, Put(ix.roots, root, p, now));
    }
  }

  lemma InvFrontier(ix: Index, p: Id, next: seq<Message>, now: int)
    requires Inv(ix) && p != NoId && next != []
    ensures Inv(ix.(frontier := SetFrontier(ix.frontier, p, next), retained := Put(ix.retained, p, next, now)))
  {
  }

  lemma InvBound(ix: Index, client: Id, p: Id, now: int)
    requires Inv(ix) && client != NoId && p != NoId
    ensures Inv(ix.(explicit := Put(ix.explicit, client, p, now)))
  {
  }

  lemma InvRemembered(ix: Index, plan: ContextPlan, now: int)
    requires Inv(ix) && plan.provider != NoId
    ensures Inv(Remembered(ix, plan, now))
  {
    var p := plan.provider;
    var request := RequestOf(ix, plan);
    var next := TranscriptOf(ix, plan);
    if plan.client != NoId {
      InvBound(ix, plan.client, p, now);
    }
    var bound := if plan.client == NoId then ix else ix.(explicit := Put(ix.explicit, plan.client, p, now));
    if request != [] {
      InvNote(bound, request, p, now);
    }
    var asked := if request == [] then bound else NoteTranscript(bound, request, p, now);
    InvNote(asked, next, p, now);
    InvFrontier(NoteTranscript(asked, next, p, now), p, next, now);
  }

  lemma CappedKeeps<K>(t: Table<K, Id>, next: Table<K, Id>, none: K, cap: nat)
    requires Synced(t) && NoBlank(t, none) && Capped(t, next, cap)
    ensures Synced(next) && NoBlank(next, none)
  {
  }

  lemma InvExpireAll(ix: Index, now: int)
    requires Inv(ix)
    ensures Inv(ExpireAll(ix, now))
  {
  }

  lemma InvPrune(ix: Index, now: int, next: Index)
    requires Inv(ix) && PruneStep(ix, now, next)
    ensures Inv(next)
  {
    var e := ExpireAll(ix, now);
    InvExpireAll(ix, now);
    CappedKeeps(e.transcripts, next.transcripts, NoKey, MAX_TRANSCRIPT_CONTEXT_ENTRIES);
    CappedKeeps(e.suffixes, next.suffixes, NoKey, MAX_TRANSCRIPT_CONTEXT_ENTRIES);
    CappedKeeps(e.windows, next.windows, NoWindow, MAX_TRANSCRIPT_CONTEXT_ENTRIES);
    CappedKeeps(e.roots, next.roots, NoKey, MAX_TRANSCRIPT_CONTEXT_ENTRIES);
  }

  lemma InvForget(ix: Index, p: Id)
    requires Inv(ix)
    ensures Inv(Forget(ix, p))
  {
  }

  lemma InvExact(ix: Index, up: Upstream, messages: seq<Message>, now: int)
    requires Inv(ix)
    ensures Inv(LookupExact(ix, up, messages, now).1)
  {
    var (p, next) := LookupExact(ix, up, messages, now);
    var k := Fingerprint(messages);
    KeepsTable(ix.transcripts, k, NoKey, now);
    InvWithTranscripts(ix, Drop(ix.transcripts, {k}));
    if p != NoId {
      InvWithTranscripts(ix, Touch(ix.transcripts, k, now));
    }
    assert next == ix || next == ix.(transcripts := Drop(ix.transcripts, {k}))
      || (p != NoId && next == ix.(transcripts := Touch(ix.transcripts, k, now)));
  }

  lemma InvAny(ix: Index, up: Upstream, messages: seq<Message>, now: int)
    requires Inv(ix)
    ensures Inv(LookupAny(ix, up, messages, now).1)
  {
    var (p, next) := LookupAny(ix, up, messages, now);
    var k := Fingerprint(messages);
    KeepsTable(ix.transcripts, k, NoKey, now);
    InvWithTranscripts(ix, Drop(ix.transcripts, {k}));
    if p != NoId {
      InvWithTranscripts(ix, Touch(ix.transcripts, k, now));
    }
    assert next == ix || next == ix.(transcripts := Drop(ix.transcripts, {k}))
      || (p != NoId && next == ix.(transcripts := Touch(ix.transcripts, k, now)));
  }

  lemma InvSuffix(ix: Index, up: Upstream, messages: seq<Message>, now: int)
    requires Inv(ix)
    ensures Inv(LookupSuffix(ix, up, messages, now).1)
  {
    var (p, next) := LookupSuffix(ix, up, messages, now);
    var k := Fingerprint(messages);
    KeepsTable(ix.suffixes, k, NoKey, now);
    InvWithSuffixes(ix, Drop(ix.suffixes, {k}));
    if p != NoId {
      InvWithSuffixes(ix, Touch(ix.suffixes, k, now));
    }
    assert next == ix || next == ix.(suffixes := Drop(ix.suffixes, {k}))
      || (p != NoId && next == ix.(suffixes := Touch(ix.suffixes, k, now)));
  }

  lemma InvWindow(ix: Index, up: Upstream, messages: seq<Message>, now: int)
    requires Inv(ix)
    ensures Inv(LookupWindow(ix, up, messages, now).1)
  {
    var (p, next) := LookupWindow(ix, up, messages, now);
    var k := WindowFingerprint(messages, 2, 4);
    KeepsTable(ix.windows, k, NoWindow, now);
    InvWithWindows(ix, Drop(ix.windows, {k}));
    if p != NoId {
      InvWithWindows(ix, Touch(ix.windows, k, now));
    }
    assert next == ix || next == ix.(windows := Drop(ix.windows, {k}))
      || (p != NoId && next == ix.(windows := Touch(ix.windows, k, now)));
  }

  lemma InvRoot(ix: Index, up: Upstream, messages: seq<Message>, now: int)
    requires Inv(ix)
    ensures Inv(LookupRoot(ix, up, messages, now).1)
  {
    var (p, next) := LookupRoot(ix, up, messages, now);
    var k := RootFingerprint(messages);
    KeepsTable(ix.roots, k, NoKey, now);
    InvWithRoots(ix, Drop(ix.roots, {k}));
    if p != NoId {
      InvWithRoots(ix, Touch(ix.roots, k, now));
    }
    assert next == ix || next == ix.(roots := Drop(ix.roots, {k}))
      || (p != NoId && next == ix.(roots := Touch(ix.roots, k, now)));
  }

  lemma InvExplicit(ix: Index, up: Upstream, client: Id, now: int)
    requires Inv(ix)
    ensures Inv(LookupExplicit(ix, up, client, now).1)
  {
    var (p, next) := LookupExplicit(ix, up, client, now);
    var k := client;
    KeepsTable(ix.explicit, k, NoId, now);
    InvWithExplicit(ix, Drop(ix.explicit, {k}));
    if p != NoId {
      InvWithExplicit(ix, Touch(ix.explicit, k, now));
    }
    assert next == ix || next == ix.(explicit := Drop(ix.explicit, {k}))
      || (p != NoId && next == ix.(explicit := Touch(ix.explicit, k, now)));
  }

  lemma InvLookup(ix: Index, op: Op, now: int)
    requires Inv(ix)
    requires LooksUp(op)
    ensures Inv(Lookup(ix, op, now).1)
  {
    match op {
      case Exact(messages, up) => InvExact(ix, up, messages, now);
      case Any(messages, up) => InvAny(ix, up, messages, now);
      case Suffix(messages, up) => InvSuffix(ix, up, messages, now);
      case Window(messages, up) => InvWindow(ix, up, messages, now);
      case Root(messages, up) => InvRoot(ix, up, messages, now);
      case Explicit(client, up) => InvExplicit(ix, up, client, now);
    }
  }

  lemma KeepsTable<K>(t: Table<K, Id>, k: K, none: K, now: int)
    requires Synced(t) && NoBlank(t, none)
    ensures Synced(Drop(t, {k})) && NoBlank(Drop(t, {k}), none)
    ensures k in t.ctx ==> Synced(Touch(t, k, now)) && NoBlank(Touch(t, k, now), none)
  {
  }

  lemma InvStep(ix: Index, op: Op, now: int, next: Index)
    requires Inv(ix) && Step(ix, op, now, next)
    ensures Inv(next)
  {
    match op {
      case Remember(plan, up) =>
        if Memorable(plan, up) {
          var mid :| PruneStep(ix, now, mid) && next == Remembered(mid, plan, now);
          InvPrune(ix, now, mid);
          InvRemembered(mid, plan, now);
        }
      case ForgetProvider(p) => InvForget(ix, p);
      case Recover => InvPrune(ix, now, next);
      case BridgeRemember(p, signature) =>
      case _ => InvLookup(ix, op, now);
    }
  }

  /** Every reachable state: each index keeps the keys of its timestamp map, and
      where a provider's frontier and retained transcript both exist, the frontier is
      that transcript's key and length. */
  lemma {:induction false} ReachableInv(ops: seq<Op>, times: seq<int>, states: seq<Index>, i: nat)
    requires Run(ops, times, states) && states[0] == EMPTY_INDEX && i < |states|
    ensures Inv(states[i])
  {
    if i == 0 {
    } else {
      ReachableInv(ops, times, states, i - 1);
      InvStep(states[i - 1], ops[i - 1], times[i - 1], states[i]);
    }
  }

  // ---- What a hit means ----

  /** An exact hit means the caller's prefix is the provider's retained transcript, up
      to normalization, unless the frontier or the transcript has been dropped. */
  lemma ExactHit(ix: Index, up: Upstream, messages: seq<Message>, now: int)
    requires Inv(ix)
    ensures var (p, next) := LookupExact(ix, up, messages, now);
      p != NoId ==>
        && Ready(up, p)
        && (p in ix.frontier.latest ==> ix.frontier.latest[p] == Fingerprint(messages))
        && (p in ix.frontier.latest && p in ix.retained.ctx ==>
            Fingerprint(ix.retained.ctx[p]) == Fingerprint(messages))
  {
  }

  /** A root hit means the caller's prefix is at least as long as the transcript. */
  lemma RootHit(ix: Index, up: Upstream, messages: seq<Message>, now: int)
    requires Inv(ix)
    ensures var (p, next) := LookupRoot(ix, up, messages, now);
      p != NoId ==>
        && Ready(up, p)
        && (p in ix.frontier.latest ==> |messages| >= |ix.frontier.latest[p].messages|)
        && (p in ix.frontier.latest && p in ix.retained.ctx ==> |messages| >= |ix.retained.ctx[p]|)
  {
  }

  // ---- Forgetting lasts ----

  /** No lookup can return p. */
  ghost predicate Unmentioned(ix: Index, p: Id) {
    && Holding(ix.transcripts, p) == {} && Holding(ix.suffixes, p) == {} && Holding(ix.windows, p) == {}
    && Holding(ix.roots, p) == {} && Holding(ix.explicit, p) == {}
  }

  lemma ForgetUnmentions(ix: Index, p: Id)
    requires p != NoId
    ensures Unmentioned(Forget(ix, p), p)
    ensures p !in Forget(ix, p).frontier.latest && p !in Forget(ix, p).retained.ctx
      && p !in Forget(ix, p).toolBridge.ctx
  {
  }

  lemma UnmentionedLookup(ix: Index, op: Op, now: int, p: Id)
    requires Unmentioned(ix, p) && p != NoId
    requires LooksUp(op)
    ensures Lookup(ix, op, now).0 != p
    ensures Unmentioned(Lookup(ix, op, now).1, p)
  {
    match op {
      case Exact(messages, up) => NotFound(ix.transcripts, Fingerprint(messages), p, now);
      case Any(messages, up) => NotFound(ix.transcripts, Fingerprint(messages), p, now);
      case Suffix(messages, up) => NotFound(ix.suffixes, Fingerprint(messages), p, now);
      case Window(messages, up) => NotFound(ix.windows, WindowFingerprint(messages, 2, 4), p, now);
      case Root(messages, up) => NotFound(ix.roots, RootFingerprint(messages), p, now);
      case Explicit(client, up) => NotFound(ix.explicit, client, p, now);
    }
  }

  lemma NotFound<K>(t: Table<K, Id>, k: K, p: Id, now: int)
    requires p != NoId && Holding(t, p) == {}
    ensures Find(t, k) != p
    ensures Holding(Drop(t, {k}), p) == {} && Holding(Touch(t, k, now), p) == {}
  {
    assert k in t.ctx && t.ctx[k] == p <==> k in Holding(t, p);
    assert Holding(Drop(t, {k}), p) <= Holding(t, p);
    assert Holding(Touch(t, k, now), p) == Holding(t, p);
  }

  lemma HoldingShrinks<K>(t: Table<K, Id>, next: Table<K, Id>, p: Id)
    requires next.ctx.Keys <= t.ctx.Keys && forall k :: k in next.ctx ==> next.ctx[k] == t.ctx[k]
    ensures Holding(next, p) <= Holding(t, p)
  {
  }

  lemma UnmentionedPrune(ix: Index, now: int, next: Index, p: Id)
    requires Unmentioned(ix, p) && PruneStep(ix, now, next)
    ensures Unmentioned(next, p)
  {
    HoldingShrinks(ix.transcripts, next.transcripts, p);
    HoldingShrinks(ix.suffixes, next.suffixes, p);
    HoldingShrinks(ix.windows, next.windows, p);
    HoldingShrinks(ix.roots, next.roots, p);
    HoldingShrinks(ix.explicit, next.explicit, p);
  }

  lemma UnmentionedNote(ix: Index, messages: seq<Message>, q: Id, now: int, p: Id)
    requires Unmentioned(ix, p) && q != p
    ensures Unmentioned(NoteTranscript(ix, messages, q, now), p)
  {
    var next := NoteTranscript(ix, messages, q, now);
    assert forall k :: k in next.transcripts.ctx && next.transcripts.ctx[k] == p ==> k in Holding(ix.transcripts, p);
    PutEachKeys(ix.suffixes, SuffixKeys(messages), q, now);
    PutEachKeys(ix.windows, WindowKeys(messages), q, now);
    assert forall k :: k in next.suffixes.ctx && next.suffixes.ctx[k] == p ==> k in Holding(ix.suffixes, p);
    assert forall k :: k in next.windows.ctx && next.windows.ctx[k] == p ==> k in Holding(ix.windows, p);
    assert forall k :: k in next.roots.ctx && next.roots.ctx[k] == p ==> k in Holding(ix.roots, p);
  }

  lemma UnmentionedRemembered(ix: Index, plan: ContextPlan, now: int, p: Id)
    requires Unmentioned(ix, p) && plan.provider != p
    ensures Unmentioned(Remembered(ix, plan, now), p)
  {
    var q := plan.provider;
    var request := RequestOf(ix, plan);
    var bound := if plan.client == NoId then ix else ix.(explicit := Put(ix.explicit, plan.client, q, now));
    assert forall k :: k in bound.explicit.ctx && bound.explicit.ctx[k] == p ==> k in Holding(ix.explicit, p);
    assert Unmentioned(bound, p);
    UnmentionedNote(bound, request, q, now, p);
    var asked := if request == [] then bound else NoteTranscript(bound, request, q, now);
    UnmentionedNote(asked, TranscriptOf(ix, plan), q, now, p);
  }

  lemma UnmentionedStep(ix: Index, op: Op, now: int, next: Index, p: Id)
    requires Unmentioned(ix, p) && p != NoId && Step(ix, op, now, next)
    requires op.Remember? ==> op.plan.provider != p
    ensures Unmentioned(next, p)
  {
    match op {
      case Remember(plan, up) =>
        if Memorable(plan, up) {
          var mid :| PruneStep(ix, now, mid) && next == Remembered(mid, plan, now);
          UnmentionedPrune(ix, now, mid, p);
          UnmentionedRemembered(mid, plan, now, p);
        }
      case ForgetProvider(q) =>
        HoldingShrinks(ix.transcripts, next.transcripts, p);
        HoldingShrinks(ix.suffixes, next.suffixes, p);
        HoldingShrinks(ix.windows, next.windows, p);
        HoldingShrinks(ix.roots, next.roots, p);
        HoldingShrinks(ix.explicit, next.explicit, p);
      case Recover => UnmentionedPrune(ix, now, next, p);
      case BridgeRemember(q, signature) =>
      case _ => UnmentionedLookup(ix, op, now, p);
    }
  }

  /** After forget, whatever runs, no lookup returns the provider until it is
      remembered again. */
  lemma {:induction false} ForgottenStaysForgotten(ops: seq<Op>, times: seq<int>, states: seq<Index>, p: Id, i: nat,
                                                   op: Op, now: int)
    requires Run(ops, times, states) && |ops| > 0 && ops[0] == ForgetProvider(p) && p != NoId
    requires forall j :: 0 <= j < |ops| && ops[j].Remember? ==> ops[j].plan.provider != p
    requires 1 <= i < |states|
    requires LooksUp(op)
    ensures Unmentioned(states[i], p)
    ensures Lookup(states[i], op, now).0 != p
  {
    if i == 1 {
      ForgetUnmentions(states[0], p);
    } else {
      ForgottenStaysForgotten(ops, times, states, p, i - 1, op, now);
      UnmentionedStep(states[i - 1], ops[i - 1], times[i - 1], states[i], p);
    }
    UnmentionedLookup(states[i], op, now, p);
  }

  // ---- Prune, whole ----

  /** Pruning follows its law in every capped table, drops no more than what is stale
      from the other two, and drops a frontier only with its transcript. */
  lemma PruneAll(ix: Index, now: int, next: Index)
    requires Inv(ix) && PruneStep(ix, now, next)
    ensures Lawful(ix.transcripts, next.transcripts, now, TRANSCRIPT_CONTEXT_TTL, MAX_TRANSCRIPT_CONTEXT_ENTRIES)
    ensures Lawful(ix.suffixes, next.suffixes, now, TRANSCRIPT_CONTEXT_TTL, MAX_TRANSCRIPT_CONTEXT_ENTRIES)
    ensures Lawful(ix.windows, next.windows, now, TRANSCRIPT_CONTEXT_TTL, MAX_TRANSCRIPT_CONTEXT_ENTRIES)
    ensures Lawful(ix.roots, next.roots, now, TRANSCRIPT_CONTEXT_TTL, MAX_TRANSCRIPT_CONTEXT_ENTRIES)
    ensures Lawful(ix.retained, next.retained, now, TRANSCRIPT_CONTEXT_TTL, MAX_TRANSCRIPT_CONTEXT_ENTRIES)
    ensures forall c :: c in next.explicit.ctx <==>
      c in ix.explicit.ctx && now - ix.explicit.at[c] <= TRANSCRIPT_CONTEXT_TTL
    ensures forall p :: p in next.toolBridge.ctx <==>
      p in ix.toolBridge.ctx && now - ix.toolBridge.at[p] <= TRANSCRIPT_CONTEXT_TTL
    ensures forall p :: p in next.frontier.latest ==>
      p in ix.frontier.latest && next.frontier.latest[p] == ix.frontier.latest[p]
    ensures forall p :: p in ix.frontier.latest && p !in next.frontier.latest ==>
      ix.frontier.latest[p] !in next.transcripts.ctx
  {
    hide Lawful, FrontierAgrees, NoBlanks;
    PruneTables(ix, now, next);
    PruneFrontier(ix, now, next);
  }

  lemma PruneTables(ix: Index, now: int, next: Index)
    requires AllSynced(ix) && PruneStep(ix, now, next)
    ensures Lawful(ix.transcripts, next.transcripts, now, TRANSCRIPT_CONTEXT_TTL, MAX_TRANSCRIPT_CONTEXT_ENTRIES)
    ensures Lawful(ix.suffixes, next.suffixes, now, TRANSCRIPT_CONTEXT_TTL, MAX_TRANSCRIPT_CONTEXT_ENTRIES)
    ensures Lawful(ix.windows, next.windows, now, TRANSCRIPT_CONTEXT_TTL, MAX_TRANSCRIPT_CONTEXT_ENTRIES)
    ensures Lawful(ix.roots, next.roots, now, TRANSCRIPT_CONTEXT_TTL, MAX_TRANSCRIPT_CONTEXT_ENTRIES)
    ensures Lawful(ix.retained, next.retained, now, TRANSCRIPT_CONTEXT_TTL, MAX_TRANSCRIPT_CONTEXT_ENTRIES)
  {
    hide Lawful, Capped, Expire, Synced, Orphaned;
    PruneLaw(ix.transcripts, next.transcripts, now, TRANSCRIPT_CONTEXT_TTL, MAX_TRANSCRIPT_CONTEXT_ENTRIES);
    PruneLaw(ix.suffixes, next.suffixes, now, TRANSCRIPT_CONTEXT_TTL, MAX_TRANSCRIPT_CONTEXT_ENTRIES);
    PruneLaw(ix.windows, next.windows, now, TRANSCRIPT_CONTEXT_TTL, MAX_TRANSCRIPT_CONTEXT_ENTRIES);
    PruneLaw(ix.roots, next.roots, now, TRANSCRIPT_CONTEXT_TTL, MAX_TRANSCRIPT_CONTEXT_ENTRIES);
    PruneLaw(ix.retained, next.retained, now, TRANSCRIPT_CONTEXT_TTL, MAX_TRANSCRIPT_CONTEXT_ENTRIES);
  }

  /** A frontier goes with its transcript and stays as it is otherwise. */
  lemma PruneFrontier(ix: Index, now: int, next: Index)
    requires AllSynced(ix) && PruneStep(ix, now, next)
    ensures forall p :: p in next.frontier.latest ==>
      p in ix.frontier.latest && next.frontier.latest[p] == ix.frontier.latest[p]
    ensures forall p :: p in ix.frontier.latest && p !in next.frontier.latest ==>
      ix.frontier.latest[p] !in next.transcripts.ctx
  {
  }
}
