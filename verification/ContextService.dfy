/** The OpenAI service's index maps as fields updated in place, each map with its
    timestamp map; every method does to View() what ContextIndex says
    (openai_service.go). */
module ContextService {
  import opened Text
  import opened Messages
  import opened Tables
  import opened ContextIndex

  lemma OrphanStep(f: Frontier, t: Table<Key, Id>, gone: set<Key>, key: Key)
    requires key in t.ctx && key !in gone
    ensures var p := t.ctx[key];
      var left := DropFrontier(f, Orphaned(f.latest, t.ctx, gone));
      DropFrontier(f, Orphaned(f.latest, t.ctx, gone + {key}))
      == if p in left.latest && left.latest[p] == key then DropFrontier(left, {p}) else left
  {
    var p := t.ctx[key];
    var before, after := Orphaned(f.latest, t.ctx, gone), Orphaned(f.latest, t.ctx, gone + {key});
    if p in f.latest && f.latest[p] == key {
      assert after == before + {p};
      assert f.latest - (before + {p}) == f.latest - before - {p};
      assert f.length - (before + {p}) == f.length - before - {p};
    } else {
      assert after == before;
    }
  }

  lemma NoOrphans(f: Frontier, t: Table<Key, Id>)
    ensures DropFrontier(f, Orphaned(f.latest, t.ctx, {})) == f
  {
    assert Orphaned(f.latest, t.ctx, {}) == {};
    assert f.latest - {} == f.latest && f.length - {} == f.length;
  }

  /** Drops one transcript key and, with it, the frontier it was. */
  method DeleteTranscript(t: Table<Key, Id>, f: Frontier, key: Key) returns (next: Table<Key, Id>, g: Frontier)
    requires key in t.ctx
    ensures next == Drop(t, {key})
    ensures g == if t.ctx[key] in f.latest && f.latest[t.ctx[key]] == key then DropFrontier(f, {t.ctx[key]}) else f
  {
    var p := t.ctx[key];
    next := Table(t.ctx - {key}, t.at - {key});
    g := f;
    if p in g.latest && g.latest[p] == key {
      g := Frontier(g.latest - {p}, g.length - {p});
    }
  }

  method ExpireTranscripts(t: Table<Key, Id>, f: Frontier, now: int) returns (next: Table<Key, Id>, g: Frontier)
    requires Synced(t)
    ensures next == Expire(t, now, TRANSCRIPT_CONTEXT_TTL)
    ensures g == DropFrontier(f, Orphaned(f.latest, t.ctx, Stale(t.at, now, TRANSCRIPT_CONTEXT_TTL)))
  {
    next, g := t, f;
    DropNone(t);
    NoOrphans(f, t);
    var todo := t.at.Keys;
    ghost var gone: set<Key> := {};
    while todo != {}
      invariant todo <= t.at.Keys && gone == Stale(t.at, now, TRANSCRIPT_CONTEXT_TTL) - todo
      invariant next == Drop(t, gone) && g == DropFrontier(f, Orphaned(f.latest, t.ctx, gone))
      decreases todo
    {
      var key :| key in todo;
      todo := todo - {key};
      if now - t.at[key] > TRANSCRIPT_CONTEXT_TTL {
        OrphanStep(f, t, gone, key);
        DropGrows(t, gone, key);
        next, g := DeleteTranscript(next, g, key);
        gone := gone + {key};
      }
    }
    assert gone == Stale(t.at, now, TRANSCRIPT_CONTEXT_TTL);
  }

  method EvictTranscripts(t: Table<Key, Id>, f: Frontier, cap: nat) returns (next: Table<Key, Id>, g: Frontier)
    requires Synced(t) && NoKey !in t.ctx
    ensures Capped(t, next, cap)
    ensures g == DropFrontier(f, Orphaned(f.latest, t.ctx, t.ctx.Keys - next.ctx.Keys))
  {
    next, g := t, f;
    ghost var gone: set<Key> := {};
    EvictingStarts(t, cap);
    NoOrphans(f, t);
    while |next.ctx| > cap
      invariant Evicting(t, next, gone, cap) && g == DropFrontier(f, Orphaned(f.latest, t.ctx, gone))
      decreases |next.ctx|
    {
      var key := Oldest(next, NoKey);
      EvictingStep(t, next, gone, cap, key);
      OrphanStep(f, t, gone, key);
      next, g := DeleteTranscript(next, g, key);
      gone := gone + {key};
    }
    EvictingEnds(t, next, gone, cap);
  }

  method RemoveHolding<K(==)>(t: Table<K, Id>, p: Id) returns (next: Table<K, Id>)
    ensures next == Drop(t, Holding(t, p))
  {
    next := t;
    DropNone(t);
    var todo := t.ctx.Keys;
    ghost var gone: set<K> := {};
    while todo != {}
      invariant todo <= t.ctx.Keys && gone == Holding(t, p) - todo
      invariant next == Drop(t, gone)
      decreases todo
    {
      var key :| key in todo;
      todo := todo - {key};
      if t.ctx[key] == p {
        DropGrows(t, gone, key);
        next := Table(next.ctx - {key}, next.at - {key});
        gone := gone + {key};
      }
    }
    assert gone == Holding(t, p);
  }

  /** rememberTranscriptSuffixesLocked. */
  method RememberTranscriptSuffixes(t: Table<Key, Id>, messages: seq<Message>, p: Id, now: int)
    returns (next: Table<Key, Id>)
    ensures next == PutEach(t, SuffixKeys(messages), p, now)
  {
    next := t;
    if |messages| < 4 {
      return;
    }
    var start := 1;
    while start < |messages| - 1
      invariant 1 <= start <= |messages| - 1
      invariant next == PutEach(t, SuffixKeysUpTo(messages, start), p, now)
    {
      var key := Fingerprint(messages[start..]);
      assert SuffixKeysUpTo(messages, start + 1) == SuffixKeysUpTo(messages, start) + [key];
      next := Table(next.ctx[key := p], next.at[key := now]);
      start := start + 1;
    }
  }

  lemma WindowKeysStep<V>(t: Table<WindowKey, V>, messages: seq<Message>, size: nat, v: V, now: int)
    requires size >= 2
    ensures var key := WindowFingerprint(messages, size, size);
      var before := PutEach(t, WindowKeysUpTo(messages, size - 1), v, now);
      PutEach(t, WindowKeysUpTo(messages, size), v, now) == if key == NoWindow then before else Put(before, key, v, now)
  {
    var key := WindowFingerprint(messages, size, size);
    var keys := WindowKeysUpTo(messages, size - 1);
    if key == NoWindow {
      assert keys + [] == keys;
    } else {
      assert (keys + [key])[..|keys|] == keys;
    }
  }

  lemma {:induction false} NoWindowYet<V>(t: Table<WindowKey, V>, messages: seq<Message>, v: V, now: int)
    ensures PutEach(t, WindowKeysUpTo(messages, 1), v, now) == t
  {
  }

  /** rememberUserWindowsLocked. */
  method RememberUserWindows(t: Table<WindowKey, Id>, messages: seq<Message>, p: Id, now: int)
    returns (next: Table<WindowKey, Id>)
    ensures next == PutEach(t, WindowKeys(messages), p, now)
  {
    NoWindowYet(t, messages, p, now);
    hide PutEach, WindowKeysUpTo, WindowFingerprint;
    next := t;
    var size := 2;
    while size <= 4
      invariant 2 <= size <= 5
      invariant next == PutEach(t, WindowKeysUpTo(messages, size - 1), p, now)
    {
      var key := UserWindow(messages, size, size);
      WindowKeysStep(t, messages, size, p, now);
      if key != NoWindow {
        next := Table(next.ctx[key := p], next.at[key := now]);
      }
      size := size + 1;
    }
  }

  lemma KeyIffMessages(messages: seq<Message>)
    ensures Fingerprint(messages) == NoKey <==> messages == []
  {
  }

  lemma NoteKeeps(ix: Index, messages: seq<Message>, p: Id, now: int)
    ensures var next := NoteTranscript(ix, messages, p, now);
      && next.explicit == ix.explicit && next.frontier == ix.frontier && next.retained == ix.retained
      && next.toolBridge == ix.toolBridge
  {
    hide PutEach, SuffixKeys, WindowKeys, Fingerprint, RootFingerprint;
  }

  /** The other four capped tables, one after the other. */
  method EvictAll(retained: Table<Id, seq<Message>>, roots: Table<Key, Id>, suffixes: Table<Key, Id>,
                  windows: Table<WindowKey, Id>)
    returns (r: Table<Id, seq<Message>>, o: Table<Key, Id>, s: Table<Key, Id>, w: Table<WindowKey, Id>)
    requires Synced(retained) && Synced(roots) && Synced(suffixes) && Synced(windows)
    requires NoId !in retained.ctx && NoKey !in roots.ctx && NoKey !in suffixes.ctx && NoWindow !in windows.ctx
    ensures Capped(retained, r, MAX_TRANSCRIPT_CONTEXT_ENTRIES) && Capped(roots, o, MAX_TRANSCRIPT_CONTEXT_ENTRIES)
    ensures Capped(suffixes, s, MAX_TRANSCRIPT_CONTEXT_ENTRIES) && Capped(windows, w, MAX_TRANSCRIPT_CONTEXT_ENTRIES)
  {
    hide Capped, Synced;
    r := EvictOldest(retained, NoId, MAX_TRANSCRIPT_CONTEXT_ENTRIES);
    o := EvictOldest(roots, NoKey, MAX_TRANSCRIPT_CONTEXT_ENTRIES);
    s := EvictOldest(suffixes, NoKey, MAX_TRANSCRIPT_CONTEXT_ENTRIES);
    w := EvictOldest(windows, NoWindow, MAX_TRANSCRIPT_CONTEXT_ENTRIES);
  }

  lemma IsCapStep(ix: Index, t: Table<Key, Id>, f: Frontier, retained: Table<Id, seq<Message>>, roots: Table<Key, Id>,
                  suffixes: Table<Key, Id>, windows: Table<WindowKey, Id>)
    requires Capped(ix.transcripts, t, MAX_TRANSCRIPT_CONTEXT_ENTRIES)
    requires var gone := ix.transcripts.ctx.Keys - t.ctx.Keys;
      f == DropFrontier(ix.frontier, Orphaned(ix.frontier.latest, ix.transcripts.ctx, gone))
    requires Capped(ix.retained, retained, MAX_TRANSCRIPT_CONTEXT_ENTRIES)
    requires Capped(ix.roots, roots, MAX_TRANSCRIPT_CONTEXT_ENTRIES)
    requires Capped(ix.suffixes, suffixes, MAX_TRANSCRIPT_CONTEXT_ENTRIES)
    requires Capped(ix.windows, windows, MAX_TRANSCRIPT_CONTEXT_ENTRIES)
    ensures CapStep(ix, Index(t, suffixes, windows, roots, ix.explicit, f, retained, ix.toolBridge))
  {
    hide Capped, Orphaned, DropFrontier;
  }

  class OpenAIService {
    var transcripts: Table<Key, Id>
    var suffixes: Table<Key, Id>
    var windows: Table<WindowKey, Id>
    var roots: Table<Key, Id>
    var explicit: Table<Id, Id>
    var frontier: Frontier
    var retained: Table<Id, seq<Message>>
    var toolBridge: Table<Id, Signature>

    ghost function View(): Index
      reads this
    {
      Index(transcripts, suffixes, windows, roots, explicit, frontier, retained, toolBridge)
    }

    ghost predicate Valid()
      reads this
    {
      Inv(View())
    }

    constructor ()
      ensures View() == EMPTY_INDEX && Valid()
    {
      transcripts, suffixes, windows, roots := EmptyTable(), EmptyTable(), EmptyTable(), EmptyTable();
      explicit, frontier, retained, toolBridge := EmptyTable(), Frontier(map[], map[]), EmptyTable(), EmptyTable();
    }

    method ExpireContexts(now: int)
      requires Synced(transcripts)
      modifies this
      ensures View() == ExpireAll(old(View()), now)
    {
      retained := ExpireStale(retained, now, TRANSCRIPT_CONTEXT_TTL);
      transcripts, frontier := ExpireTranscripts(transcripts, frontier, now);
      roots := ExpireStale(roots, now, TRANSCRIPT_CONTEXT_TTL);
      suffixes := ExpireStale(suffixes, now, TRANSCRIPT_CONTEXT_TTL);
      windows := ExpireStale(windows, now, TRANSCRIPT_CONTEXT_TTL);
      toolBridge := ExpireStale(toolBridge, now, TRANSCRIPT_CONTEXT_TTL);
      explicit := ExpireStale(explicit, now, TRANSCRIPT_CONTEXT_TTL);
    }

    method CapContexts()
      requires Synced(transcripts) && Synced(retained) && Synced(roots) && Synced(suffixes) && Synced(windows)
      requires NoKey !in transcripts.ctx && NoId !in retained.ctx && NoKey !in roots.ctx
      requires NoKey !in suffixes.ctx && NoWindow !in windows.ctx
      modifies this
      ensures CapStep(old(View()), View())
    {
      hide Capped, Orphaned, DropFrontier, Synced, CapStep;
      ghost var before := View();
      var r, o, s, w := retained, roots, suffixes, windows;
      transcripts, frontier := EvictTranscripts(transcripts, frontier, MAX_TRANSCRIPT_CONTEXT_ENTRIES);
      ghost var t, f := transcripts, frontier;
      r, o, s, w := EvictAll(r, o, s, w);
      retained, roots, suffixes, windows := r, o, s, w;
      IsCapStep(before, t, f, r, o, s, w);
    }

    method PruneTranscriptContexts(now: int)
      requires Valid()
      modifies this
      ensures Valid() && PruneStep(old(View()), now, View())
    {
      ExpireContexts(now);
      InvExpireAll(old(View()), now);
      CapContexts();
      InvPrune(old(View()), now, View());
    }

    method NoteMessages(messages: seq<Message>, p: Id, now: int)
      modifies this
      ensures View() == NoteTranscript(old(View()), messages, p, now)
    {
      var key := Fingerprint(messages);
      transcripts := Table(transcripts.ctx[key := p], transcripts.at[key := now]);
      suffixes := RememberTranscriptSuffixes(suffixes, messages, p, now);
      windows := RememberUserWindows(windows, messages, p, now);
      var rootKey := RootFingerprint(messages);
      if rootKey != NoKey {
        roots := Table(roots.ctx[rootKey := p], roots.at[rootKey := now]);
      }
    }

    method RecordTranscript(plan: ContextPlan, now: int)
      modifies this
      ensures View() == Remembered(old(View()), plan, now)
    {
      var p := plan.provider;
      hide NoteTranscript, MergeRecovery, Fingerprint;
      var base := if p in retained.ctx then retained.ctx[p] else [];
      var requestMessages := MergeRecovery(base, plan.requestMessages);
      var next := requestMessages + [Assistant(plan.responseText)];
      if plan.client != NoId {
        explicit := Table(explicit.ctx[plan.client := p], explicit.at[plan.client := now]);
      }
      KeyIffMessages(requestMessages);
      if Fingerprint(requestMessages) != NoKey {
        NoteKeeps(View(), requestMessages, p, now);
        NoteMessages(requestMessages, p, now);
      }
      NoteKeeps(View(), next, p, now);
      NoteMessages(next, p, now);
      frontier := Frontier(frontier.latest[p := Fingerprint(next)], frontier.length[p := |next|]);
      retained := Table(retained.ctx[p := next], retained.at[p := now]);
    }

    /** rememberRequestContext. */
    method RememberRequestContext(plan: ContextPlan, up: Upstream, now: int)
      requires Valid()
      modifies this
      ensures Valid() && RememberStep(old(View()), plan, up, now, View())
    {
      if plan.provider == NoId || TrimSpace(plan.responseText) == "" || !HasState(up, plan.provider) {
        return;
      }
      PruneTranscriptContexts(now);
      ghost var mid := View();
      RecordTranscript(plan, now);
      InvRemembered(mid, plan, now);
    }

    /** recoveryMessagesForProvider. */
    method RecoveryMessages(p: Id, incoming: seq<Message>, now: int) returns (messages: seq<Message>)
      requires Valid()
      modifies this
      ensures Valid()
      ensures if p == NoId then View() == old(View()) && messages == incoming
              else PruneStep(old(View()), now, View()) && messages == MergeRecovery(RetainedOf(View(), p), incoming)
    {
      if p == NoId {
        return incoming;
      }
      PruneTranscriptContexts(now);
      messages := MergeRecovery(if p in retained.ctx then retained.ctx[p] else [], incoming);
    }

    method ForgetProviderConversation(p: Id)
      requires Valid()
      modifies this
      ensures Valid() && View() == Forget(old(View()), p)
    {
      hide Inv, Holding;
      InvForget(View(), p);
      if p == NoId {
        return;
      }
      transcripts := RemoveHolding(transcripts, p);
      suffixes := RemoveHolding(suffixes, p);
      windows := RemoveHolding(windows, p);
      roots := RemoveHolding(roots, p);
      explicit := RemoveHolding(explicit, p);
      frontier := Frontier(frontier.latest - {p}, frontier.length - {p});
      retained := Table(retained.ctx - {p}, retained.at - {p});
      toolBridge := Table(toolBridge.ctx - {p}, toolBridge.at - {p});
    }

    method ProviderForTranscript(messages: seq<Message>, up: Upstream, now: int) returns (p: Id)
      requires Valid()
      modifies this`transcripts
      ensures Valid() && (p, View()) == LookupExact(old(View()), up, messages, now)
    {
      InvExact(View(), up, messages, now);
      var key := Fingerprint(messages);
      if key == NoKey {
        return NoId;
      }
      if key in transcripts.at && now - transcripts.at[key] > TRANSCRIPT_CONTEXT_TTL {
        transcripts := Table(transcripts.ctx - {key}, transcripts.at - {key});
        return NoId;
      }
      p := if key in transcripts.ctx then transcripts.ctx[key] else NoId;
      if p != NoId && p in frontier.latest && frontier.latest[p] != NoKey && frontier.latest[p] != key {
        return NoId;
      }
      if p == NoId || !Ready(up, p) {
        return NoId;
      }
      transcripts := Table(transcripts.ctx, transcripts.at[key := now]);
    }

    method ProviderForTranscriptAny(messages: seq<Message>, up: Upstream, now: int) returns (p: Id)
      requires Valid()
      modifies this`transcripts
      ensures Valid() && (p, View()) == LookupAny(old(View()), up, messages, now)
    {
      InvAny(View(), up, messages, now);
      var key := Fingerprint(messages);
      if key == NoKey {
        return NoId;
      }
      if key in transcripts.at && now - transcripts.at[key] > TRANSCRIPT_CONTEXT_TTL {
        transcripts := Table(transcripts.ctx - {key}, transcripts.at - {key});
        return NoId;
      }
      p := if key in transcripts.ctx then transcripts.ctx[key] else NoId;
      if p == NoId || !Ready(up, p) {
        return NoId;
      }
      transcripts := Table(transcripts.ctx, transcripts.at[key := now]);
    }

    method ProviderForTranscriptSuffix(messages: seq<Message>, up: Upstream, now: int) returns (p: Id)
      requires Valid()
      modifies this`suffixes
      ensures Valid() && (p, View()) == LookupSuffix(old(View()), up, messages, now)
    {
      InvSuffix(View(), up, messages, now);
      if |messages| < 2 {
        return NoId;
      }
      var key := Fingerprint(messages);
      if key == NoKey {
        return NoId;
      }
      if key in suffixes.at && now - suffixes.at[key] > TRANSCRIPT_CONTEXT_TTL {
        suffixes := Table(suffixes.ctx - {key}, suffixes.at - {key});
        return NoId;
      }
      p := if key in suffixes.ctx then suffixes.ctx[key] else NoId;
      if p == NoId || !Ready(up, p) {
        return NoId;
      }
      var latestKey := if p in frontier.latest then frontier.latest[p] else NoKey;
      if latestKey == NoKey || latestKey == key {
        return NoId;
      }
      suffixes := Table(suffixes.ctx, suffixes.at[key := now]);
    }

    method ProviderForUserWindow(messages: seq<Message>, up: Upstream, now: int) returns (p: Id)
      requires Valid()
      modifies this`windows
      ensures Valid() && (p, View()) == LookupWindow(old(View()), up, messages, now)
    {
      InvWindow(View(), up, messages, now);
      var key := UserWindow(messages, 2, 4);
      if key == NoWindow {
        return NoId;
      }
      if key in windows.at && now - windows.at[key] > TRANSCRIPT_CONTEXT_TTL {
        windows := Table(windows.ctx - {key}, windows.at - {key});
        return NoId;
      }
      p := if key in windows.ctx then windows.ctx[key] else NoId;
      if p == NoId || !Ready(up, p) {
        return NoId;
      }
      windows := Table(windows.ctx, windows.at[key := now]);
    }

    method ProviderForRoot(messages: seq<Message>, up: Upstream, now: int) returns (p: Id)
      requires Valid()
      modifies this`roots
      ensures Valid() && (p, View()) == LookupRoot(old(View()), up, messages, now)
    {
      InvRoot(View(), up, messages, now);
      var key := RootFingerprint(messages);
      if key == NoKey {
        return NoId;
      }
      if key in roots.at && now - roots.at[key] > TRANSCRIPT_CONTEXT_TTL {
        roots := Table(roots.ctx - {key}, roots.at - {key});
        return NoId;
      }
      p := if key in roots.ctx then roots.ctx[key] else NoId;
      if p == NoId || !Ready(up, p) {
        return NoId;
      }
      var latestLen := if p in frontier.length then frontier.length[p] else 0;
      if latestLen > 0 && |messages| < latestLen {
        return NoId;
      }
      roots := Table(roots.ctx, roots.at[key := now]);
    }

    method ProviderForExplicitID(client: Id, up: Upstream, now: int) returns (p: Id)
      requires Valid()
      modifies this`explicit
      ensures Valid() && (p, View()) == LookupExplicit(old(View()), up, client, now)
    {
      InvExplicit(View(), up, client, now);
      var key := client;
      if key == NoId {
        return NoId;
      }
      if key in explicit.at && now - explicit.at[key] > TRANSCRIPT_CONTEXT_TTL {
        explicit := Table(explicit.ctx - {key}, explicit.at - {key});
        return NoId;
      }
      p := if key in explicit.ctx then explicit.ctx[key] else NoId;
      if p == NoId || !Ready(up, p) {
        return NoId;
      }
      explicit := Table(explicit.ctx, explicit.at[key := now]);
    }

    method RememberToolBridgeContext(p: Id, signature: Signature, now: int)
      requires Valid()
      modifies this`toolBridge
      ensures Valid() && View() == RememberBridge(old(View()), p, signature, now)
    {
      if p == NoId || signature == NoSignature {
        return;
      }
      toolBridge := ExpireStale(toolBridge, now, TRANSCRIPT_CONTEXT_TTL);
      toolBridge := Table(toolBridge.ctx[p := signature], toolBridge.at[p := now]);
    }
  }
}
