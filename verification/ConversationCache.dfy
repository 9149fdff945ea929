/** The client's cache of upstream conversations (gemini_service.go): the session
    metadata kept per conversation id, and the ids flagged as untrusted. */
module ConversationCache {
  import opened Text
  import opened Messages
  import opened Tables

  const MAX_CONVERSATION_CACHE_ENTRIES: nat := 1000
  /** Twelve hours in nanoseconds. */
  const CONVERSATION_CACHE_TTL: int := 12 * 3600 * 1_000_000_000

  /** Session metadata, stored or received; a missing or non-text field is "". */
  datatype Session = Session(cid: string, rid: string, rcid: string, contextToken: string)

  const NO_SESSION: Session := Session("", "", "", "")

  datatype Cache = Cache(table: Table<Id, Session>, untrusted: set<Id>)

  const EMPTY_CACHE: Cache := Cache(Table(map[], map[]), {})

  function Newer(kept: string, received: string): string {
    if received != "" then received else kept
  }

  function Merge(kept: Session, metadata: Session): Session {
    Session(Newer(kept.cid, metadata.cid), Newer(kept.rid, metadata.rid), Newer(kept.rcid, metadata.rcid),
            Newer(kept.contextToken, metadata.contextToken))
  }

  function SessionOf(c: Cache, id: Id): Session {
    if id in c.table.ctx then c.table.ctx[id] else NO_SESSION
  }

  /** pruneConversationsLocked: an entry that goes takes its flag along. */
  ghost predicate PruneCache(c: Cache, now: int, next: Cache) {
    && Pruned(c.table, next.table, now, CONVERSATION_CACHE_TTL, MAX_CONVERSATION_CACHE_ENTRIES)
    && next.untrusted == c.untrusted - (c.table.ctx.Keys - next.table.ctx.Keys)
  }

  function Stored(c: Cache, id: Id, metadata: Session, now: int): Cache {
    c.(table := Put(c.table, id, Merge(SessionOf(c, id), metadata), now))
  }

  function Flag(c: Cache, id: Id): Cache {
    if id == NoId then c else c.(untrusted := c.untrusted + {id})
  }

  /** Whether the upstream answered in another conversation than the one asked for. */
  predicate Strayed(id: Id, expectedCid: string, metadata: Session) {
    id != NoId && TrimSpace(expectedCid) != "" && TrimSpace(metadata.cid) !in {"", TrimSpace(expectedCid)}
  }

  datatype Op =
    | Update(id: Id, metadata: Session)
    | Check(id: Id, expectedCid: string, metadata: Session)
    | Mark(id: Id)

  ghost predicate Step(c: Cache, op: Op, now: int, next: Cache) {
    match op
    case Update(id, metadata) =>
      if id == NoId || metadata == NO_SESSION then next == c
      else exists mid :: PruneCache(c, now, mid) && next == Stored(mid, id, metadata, now)
    case Check(id, expectedCid, metadata) => next == if Strayed(id, expectedCid, metadata) then Flag(c, id) else c
    case Mark(id) => next == Flag(c, id)
  }

  ghost predicate Run(ops: seq<Op>, times: seq<int>, states: seq<Cache>) {
    && |times| == |ops| && |states| == |ops| + 1
    && forall i :: 0 <= i < |ops| ==> Step(states[i], ops[i], times[i], states[i + 1])
  }

  ghost predicate Inv(c: Cache) {
    Synced(c.table) && NoId !in c.table.ctx && NoId !in c.untrusted && forall id :: id in c.table.ctx ==>
      c.table.ctx[id] != NO_SESSION
  }

  // ---- The class ----

  class Client {
    var conversations: Table<Id, Session>
    var untrusted: set<Id>

    ghost function View(): Cache
      reads this
    {
      Cache(conversations, untrusted)
    }

    constructor ()
      ensures View() == EMPTY_CACHE
    {
      conversations, untrusted := Table(map[], map[]), {};
    }

    method PruneConversations(now: int)
      requires Inv(View())
      modifies this
      ensures Inv(View()) && PruneCache(old(View()), now, View())
    {
      var young := ExpireStale(conversations, now, CONVERSATION_CACHE_TTL);
      var next := EvictOldest(young, NoId, MAX_CONVERSATION_CACHE_ENTRIES);
      untrusted := untrusted - (conversations.ctx.Keys - next.ctx.Keys);
      conversations := next;
    }

    static method MergeFields(kept: Session, metadata: Session) returns (meta: Session)
      ensures meta == Merge(kept, metadata)
    {
      meta := kept;
      if metadata.cid != "" {
        meta := meta.(cid := metadata.cid);
      }
      if metadata.rid != "" {
        meta := meta.(rid := metadata.rid);
      }
      if metadata.rcid != "" {
        meta := meta.(rcid := metadata.rcid);
      }
      if metadata.contextToken != "" {
        meta := meta.(contextToken := metadata.contextToken);
      }
    }

    method UpdateConversation(rawId: string, metadata: Session, now: int)
      requires Inv(View())
      modifies this
      ensures Inv(View()) && Step(old(View()), Update(CanonicalId(rawId), metadata), now, View())
    {
      var id := CanonicalId(rawId);
      if id == NoId
        || (metadata.cid == "" && metadata.rid == "" && metadata.rcid == "" && metadata.contextToken == "") {
        return;
      }
      hide Inv, PruneCache, Stored, CanonicalId;
      PruneConversations(now);
      StoredKeeps(View(), id, metadata, now);
      Store(id, metadata, now);
    }

    method Store(id: Id, metadata: Session, now: int)
      modifies this`conversations
      ensures View() == Stored(old(View()), id, metadata, now)
    {
      var meta := if id in conversations.ctx then conversations.ctx[id] else NO_SESSION;
      meta := MergeFields(meta, metadata);
      conversations := Table(conversations.ctx[id := meta], conversations.at[id := now]);
    }

    method MarkConversationUntrusted(rawId: string)
      requires Inv(View())
      modifies this`untrusted
      ensures Inv(View()) && Step(old(View()), Mark(CanonicalId(rawId)), 0, View())
    {
      var id := CanonicalId(rawId);
      if id != NoId {
        untrusted := untrusted + {id};
      }
    }

    /** Fails exactly when the answer strayed and nothing of it was shown yet; flags
        the conversation either way. */
    method CheckConversationContinuity(rawId: string, expectedCid: string, metadata: Session, emitted: bool)
      returns (ok: bool)
      requires Inv(View())
      modifies this`untrusted
      ensures Inv(View()) && Step(old(View()), Check(CanonicalId(rawId), expectedCid, metadata), 0, View())
      ensures !ok <==> Strayed(CanonicalId(rawId), expectedCid, metadata) && !emitted
    {
      var id := CanonicalId(rawId);
      var expected, actual := TrimSpace(expectedCid), TrimSpace(metadata.cid);
      if id == NoId || expected == "" || actual == "" || actual == expected {
        return true;
      }
      CanonicalIsFixed(rawId);
      MarkConversationUntrusted(id.text);
      ok := emitted;
    }

    method IsConversationUntrusted(rawId: string) returns (flagged: bool)
      requires Inv(View())
      ensures flagged <==> CanonicalId(rawId) in View().untrusted
    {
      flagged := CanonicalId(rawId) in untrusted;
    }
  }

  lemma CanonicalIsFixed(raw: string)
    ensures var id := CanonicalId(raw); id != NoId ==> CanonicalId(id.text) == id
  {
    TrimIdempotent(raw);
  }

  // ---- What every run keeps ----

  lemma PruneKeeps(c: Cache, now: int, next: Cache)
    requires Inv(c) && PruneCache(c, now, next)
    ensures Inv(next) && |next.table.ctx| <= MAX_CONVERSATION_CACHE_ENTRIES
  {
    PruneLaw(c.table, next.table, now, CONVERSATION_CACHE_TTL, MAX_CONVERSATION_CACHE_ENTRIES);
  }

  lemma StoredKeeps(c: Cache, id: Id, metadata: Session, now: int)
    requires Inv(c) && id != NoId && metadata != NO_SESSION
    ensures Inv(Stored(c, id, metadata, now))
    ensures |Stored(c, id, metadata, now).table.ctx| <= |c.table.ctx| + 1
  {
    var ctx := c.table.ctx[id := Merge(SessionOf(c, id), metadata)];
    assert ctx.Keys == c.table.ctx.Keys + {id};
    assert |ctx.Keys| == |ctx| && |c.table.ctx.Keys| == |c.table.ctx|;
  }

  lemma StepKeeps(c: Cache, op: Op, now: int, next: Cache)
    requires Inv(c) && Step(c, op, now, next) && |c.table.ctx| <= MAX_CONVERSATION_CACHE_ENTRIES + 1
    ensures Inv(next) && |next.table.ctx| <= MAX_CONVERSATION_CACHE_ENTRIES + 1
  {
    if op.Update? && op.id != NoId && op.metadata != NO_SESSION {
      var mid :| PruneCache(c, now, mid) && next == Stored(mid, op.id, op.metadata, now);
      PruneKeeps(c, now, mid);
      hide Capped, Pruned, PruneCache, Inv, Stored;
      StoredKeeps(mid, op.id, op.metadata, now);
    } else {
      hide Pruned, PruneCache;
    }
  }

  /** Every reachable cache: entries and times have the same keys, none is empty, and
      the cap is exceeded by at most the entry that was just added. */
  lemma {:induction false} ReachableCache(ops: seq<Op>, times: seq<int>, states: seq<Cache>, i: nat)
    requires Run(ops, times, states) && states[0] == EMPTY_CACHE && i < |states|
    ensures Inv(states[i]) && |states[i].table.ctx| <= MAX_CONVERSATION_CACHE_ENTRIES + 1
  {
    if i == 0 {
    } else {
      ReachableCache(ops, times, states, i - 1);
      StepKeeps(states[i - 1], ops[i - 1], times[i - 1], states[i]);
    }
  }

  /** No prune at this time can drop the entry: it is not too old and the cache is
      within its cap. */
  predicate Safe(c: Cache, id: Id, now: int) {
    && |c.table.ctx| <= MAX_CONVERSATION_CACHE_ENTRIES
    && (id in c.table.at ==> now - c.table.at[id] <= CONVERSATION_CACHE_TTL)
  }

  lemma SafeSurvives(c: Cache, now: int, mid: Cache, id: Id)
    requires Inv(c) && PruneCache(c, now, mid)
    requires id in c.table.ctx ==> Safe(c, id, now)
    ensures SessionOf(mid, id) == SessionOf(c, id) && (id in c.table.ctx <==> id in mid.table.ctx)
    ensures id in c.untrusted <==> id in mid.untrusted
  {
    PruneLaw(c.table, mid.table, now, CONVERSATION_CACHE_TTL, MAX_CONVERSATION_CACHE_ENTRIES);
    if id in c.table.ctx {
      var e := Expire(c.table, now, CONVERSATION_CACHE_TTL);
      assert id in e.ctx && Synced(e);
      CardinalityMonotone(c.table.ctx, Stale(c.table.at, now, CONVERSATION_CACHE_TTL));
      CapIdle(e, mid.table, MAX_CONVERSATION_CACHE_ENTRIES);
    }
  }

  function SessionAfter(before: Session, op: Op, id: Id): Session {
    if op.Update? && op.id == id && id != NoId then Merge(before, op.metadata) else before
  }

  lemma StoredSession(c: Cache, at: Id, metadata: Session, now: int, id: Id)
    ensures SessionOf(Stored(c, at, metadata, now), id)
      == if at == id then Merge(SessionOf(c, id), metadata) else SessionOf(c, id)
  {
  }

  /** The operation flags the id: it is marked, or an answer to it came from another
      conversation than the one expected. */
  predicate Raises(op: Op, id: Id) {
    match op
    case Update(_, _) => false
    case Check(asked, expectedCid, metadata) =>
      && asked == id && TrimSpace(expectedCid) != "" && TrimSpace(metadata.cid) != ""
      && TrimSpace(metadata.cid) != TrimSpace(expectedCid)
    case Mark(marked) => marked == id
  }

  lemma FlagStep(c: Cache, op: Op, now: int, next: Cache, id: Id)
    requires Inv(c) && Step(c, op, now, next) && id != NoId
    requires id in c.table.ctx ==> Safe(c, id, now)
    ensures id in next.untrusted <==> id in c.untrusted || Raises(op, id)
    ensures SessionOf(next, id) == SessionAfter(SessionOf(c, id), op, id)
  {
    if op.Update? && op.id != NoId && op.metadata != NO_SESSION {
      var mid :| PruneCache(c, now, mid) && next == Stored(mid, op.id, op.metadata, now);
      hide Pruned, PruneCache, Inv, SessionOf, Safe;
      SafeSurvives(c, now, mid, id);
      StoredSession(mid, op.id, op.metadata, now, id);
    } else {
      hide Pruned, PruneCache, Inv, Safe, TrimSpace;
    }
  }

  /** While no prune can drop its entry, an id is flagged exactly when it was, or was marked
      since, or an answer to it strayed; an id that never got an entry keeps its flag
      whatever the time, since only recorded ids expire. */
  lemma {:induction false} FlagIff(ops: seq<Op>, times: seq<int>, states: seq<Cache>, id: Id, i: nat, j: nat)
    requires Run(ops, times, states) && i <= j < |states| && id != NoId
    requires forall k :: i <= k < j ==> Inv(states[k])
    requires forall k :: i <= k < j && id in states[k].table.ctx ==> Safe(states[k], id, times[k])
    ensures id in states[j].untrusted <==>
      id in states[i].untrusted || exists k :: i <= k < j && Raises(ops[k], id)
  {
    hide Step, Inv, Safe, Raises;
    if i >= j {
    } else {
      FlagIff(ops, times, states, id, i, j - 1);
      FlagStep(states[j - 1], ops[j - 1], times[j - 1], states[j], id);
    }
  }

  /** An entry that an update drops takes its flag along, and no other flag goes; one not
      updated for twelve hours is dropped. */
  lemma FlagGoesWithEntry(c: Cache, op: Op, now: int, next: Cache, id: Id)
    requires Inv(c) && Step(c, op, now, next) && op.Update? && op.id !in {NoId, id} && op.metadata != NO_SESSION
    ensures id in next.untrusted <==> id in c.untrusted && (id in c.table.ctx ==> id in next.table.ctx)
    ensures id in next.table.ctx ==> id in c.table.ctx && now - c.table.at[id] <= 12 * 3600 * 1_000_000_000
  {
    var mid :| PruneCache(c, now, mid) && next == Stored(mid, op.id, op.metadata, now);
    hide Pruned;
    PruneLaw(c.table, mid.table, now, CONVERSATION_CACHE_TTL, MAX_CONVERSATION_CACHE_ENTRIES);
  }

  /** An update that says something renews its own entry and makes no other newer. */
  lemma UpdateRenews(c: Cache, op: Op, now: int, next: Cache, id: Id)
    requires Inv(c) && Step(c, op, now, next) && op.Update? && op.id != NoId && op.metadata != NO_SESSION
    ensures op.id in next.table.ctx && op.id in next.table.at && next.table.at[op.id] == now
    ensures id != op.id && id in next.table.at ==> id in c.table.at && next.table.at[id] == c.table.at[id]
  {
    var mid :| PruneCache(c, now, mid) && next == Stored(mid, op.id, op.metadata, now);
    hide Pruned;
    PruneLaw(c.table, mid.table, now, CONVERSATION_CACHE_TTL, MAX_CONVERSATION_CACHE_ENTRIES);
  }

  /** The last non-empty value of a field written for an id, or the one it had. */
  function LastGiven(ops: seq<Op>, id: Id, field: Session -> string, before: string): string {
    if ops == [] then before
    else
      var last := ops[|ops| - 1];
      if last.Update? && last.id == id && field(last.metadata) != "" then field(last.metadata)
      else LastGiven(ops[..|ops| - 1], id, field, before)
  }

  ghost predicate Latest(ops: seq<Op>, id: Id, field: Session -> string, before: Session, after: Session) {
    field(after) == LastGiven(ops, id, field, field(before))
  }

  lemma {:induction false} LatestNext(ops: seq<Op>, op: Op, id: Id, field: Session -> string, before: Session,
                                      after: Session, next: Session)
    requires Latest(ops, id, field, before, after)
    requires field(next) == if op.Update? && op.id == id && field(op.metadata) != "" then field(op.metadata)
                            else field(after)
    ensures Latest(ops + [op], id, field, before, next)
  {
    assert (ops + [op])[..|ops|] == ops;
  }

  /** While an entry is kept, each of its fields is the last one any answer gave: the
      conversation, the response, the chosen reply and the context token. Updates without
      one never lose it, so an id that has state keeps having it. */
  lemma {:induction false} FieldsAreLatest(ops: seq<Op>, times: seq<int>, states: seq<Cache>, id: Id, i: nat, j: nat)
    requires Run(ops, times, states) && i <= j < |states| && id != NoId
    requires forall k :: i <= k < j ==> Inv(states[k])
    requires forall k :: i <= k < j && id in states[k].table.ctx ==> Safe(states[k], id, times[k])
    ensures var (before, after) := (SessionOf(states[i], id), SessionOf(states[j], id));
      && Latest(ops[i..j], id, (s: Session) => s.cid, before, after)
      && Latest(ops[i..j], id, (s: Session) => s.rid, before, after)
      && Latest(ops[i..j], id, (s: Session) => s.rcid, before, after)
      && Latest(ops[i..j], id, (s: Session) => s.contextToken, before, after)
    ensures SessionOf(states[i], id).cid != "" ==> SessionOf(states[j], id).cid != ""
  {
    hide Step, Inv, Safe, LastGiven, Latest, SessionOf;
    var before := SessionOf(states[i], id);
    if i >= j {
      assert ops[i..j] == [];
      NothingGiven(id, before);
    } else {
      FieldsAreLatest(ops, times, states, id, i, j - 1);
      FlagStep(states[j - 1], ops[j - 1], times[j - 1], states[j], id);
      assert ops[i..j] == ops[i..j - 1] + [ops[j - 1]];
      var op, after, next := ops[j - 1], SessionOf(states[j - 1], id), SessionOf(states[j], id);
      LatestNext(ops[i..j - 1], op, id, (s: Session) => s.cid, before, after, next);
      LatestNext(ops[i..j - 1], op, id, (s: Session) => s.rid, before, after, next);
      LatestNext(ops[i..j - 1], op, id, (s: Session) => s.rcid, before, after, next);
      LatestNext(ops[i..j - 1], op, id, (s: Session) => s.contextToken, before, after, next);
    }
  }

  lemma NothingGiven(id: Id, before: Session)
    ensures Latest([], id, (s: Session) => s.cid, before, before)
    ensures Latest([], id, (s: Session) => s.rid, before, before)
    ensures Latest([], id, (s: Session) => s.rcid, before, before)
    ensures Latest([], id, (s: Session) => s.contextToken, before, before)
  {
  }
}
