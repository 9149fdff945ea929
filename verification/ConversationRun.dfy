/** A client that sends only its newest user message under one conversation_id, over
    a whole run: the conversation survives being migrated to fresh provider
    conversations (openai_service.go). */
module ConversationRun {
  import opened Text
  import opened Messages
  import opened Tables
  import opened ContextIndex
  import opened Planner

  /** One turn: drawn is the id planning would use for a fresh conversation, fallback
      the one a migration moves to. */
  datatype Turn = Turn(user: Message, answer: string, migrated: bool, drawn: Id, fallback: Id)

  /** One served turn with the index states it passes through. Between them other
      requests may run. up and now are as planning sees them, later and upAfter as
      remembering does; a migration prunes at time moving. */
  datatype Served = Served(turn: Turn, before: Index, up: Upstream, now: int, plan: ContextPlan, planned: Index,
                           answered: Index, moving: int, recovered: Index, remembering: Index,
                           upAfter: Upstream, later: int, after: Index)

  ghost predicate Planned(conversationID: string, t: Served) {
    (t.plan, t.planned) == PlanRequest(t.before, t.up, Request(conversationID, [t.turn.user]), t.now, t.turn.drawn)
  }

  /** What a migration sends again: recoveryMessagesForProvider. */
  function RecoveryOf(t: Served): seq<Message> {
    MergeRecovery(RetainedOf(t.recovered, t.plan.provider), [t.turn.user])
  }

  function FinalPlan(t: Served): ContextPlan {
    var plan := t.plan.(responseText := t.turn.answer);
    if !t.turn.migrated then plan
    else plan.(provider := t.turn.fallback, autoContext := false, requestMessages := RecoveryOf(t))
  }

  function ProviderAfter(t: Served): Id {
    FinalPlan(t).provider
  }

  /** Other requests leave client c's binding and p's retained transcript alone. */
  ghost predicate Undisturbed(a: Index, b: Index, c: Id, p: Id) {
    && Inv(b)
    && (c in a.explicit.ctx <==> c in b.explicit.ctx)
    && (c in a.explicit.ctx ==> b.explicit.ctx[c] == a.explicit.ctx[c])
    && (p in a.retained.ctx <==> p in b.retained.ctx)
    && (p in a.retained.ctx ==> b.retained.ctx[p] == a.retained.ctx[p])
  }

  /** The turn is planned, answered, perhaps migrated, and remembered. */
  ghost predicate Serves(t: Served) {
    && Undisturbed(t.planned, t.answered, t.plan.client, t.plan.provider)
    && (if t.turn.migrated then
          PruneStep(t.answered, t.moving, t.recovered)
          && Undisturbed(Forget(t.recovered, t.plan.provider), t.remembering, t.plan.client, t.turn.fallback)
        else t.remembering == t.answered)
    && RememberStep(t.remembering, FinalPlan(t), t.upAfter, t.later, t.after)
  }

  /** p's transcript neither expires nor is evicted when pruning at time now. */
  ghost predicate Kept(ix: Index, p: Id, now: int) {
    && |ix.retained.ctx| <= MAX_TRANSCRIPT_CONTEXT_ENTRIES
    && (p in ix.retained.at ==> now - ix.retained.at[p] <= TRANSCRIPT_CONTEXT_TTL)
  }

  /** The circumstances the run is about. The bound provider is ready, or nothing is
      bound yet and the provider chosen is unused; answers are not blank; ids are
      fresh; nothing expires and nothing is evicted. */
  ghost predicate Calm(conversationID: string, t: Served) {
    var c := CanonicalId(conversationID);
    && c != NoId && Usable(t.turn.user) && TrimSpace(t.turn.answer) != ""
    && t.turn.drawn != NoId && t.turn.fallback != NoId
    && !IsStale(t.before.explicit.at, c, t.now)
    && (c in t.before.explicit.ctx ==> Ready(t.up, t.before.explicit.ctx[c]))
    && (c !in t.before.explicit.ctx ==> t.plan.provider !in t.before.retained.ctx)
    && HasState(t.upAfter, ProviderAfter(t))
    && (t.turn.migrated ==> Kept(t.answered, t.plan.provider, t.moving))
    && (t.turn.migrated ==> t.turn.fallback != t.plan.provider && t.turn.fallback !in t.recovered.retained.ctx)
    && Kept(t.remembering, ProviderAfter(t), t.later)
  }

  /** A run of one client: the first turn starts unbound, and between turns the
      client's conversation is left alone. */
  ghost predicate ClientRun(conversationID: string, run: seq<Served>) {
    && (forall i :: 0 <= i < |run| ==> Planned(conversationID, run[i]))
    && (forall i :: 0 <= i < |run| ==> Serves(run[i]) && Calm(conversationID, run[i]) && Inv(run[i].before))
    && (run != [] ==> CanonicalId(conversationID) !in run[0].before.explicit.ctx)
    && (forall i :: 0 < i < |run| ==>
          Undisturbed(run[i - 1].after, run[i].before, CanonicalId(conversationID), ProviderAfter(run[i - 1])))
  }

  function Transcript(run: seq<Served>): seq<Message> {
    if run == [] then []
    else
      var last := run[|run| - 1].turn;
      Transcript(run[..|run| - 1]) + [last.user, Assistant(last.answer)]
  }

  /** Client c is bound to p, whose retained transcript is messages. */
  ghost predicate Bound(ix: Index, c: Id, p: Id, messages: seq<Message>) {
    && Inv(ix) && c in ix.explicit.ctx && ix.explicit.ctx[c] == p
    && p in ix.retained.ctx && ix.retained.ctx[p] == messages
  }

  // ---- One turn ----

  lemma NewestMessagePlan(conversationID: string, t: Served)
    requires Planned(conversationID, t) && Usable(t.turn.user) && CanonicalId(conversationID) != NoId
    ensures var c := CanonicalId(conversationID);
      var (p, next) := LookupExplicit(t.before, t.up, c, t.now);
      var provider := if p != NoId then p else if !Ready(t.up, c) then t.turn.drawn else c;
      && t.plan == Continue(MainPlan([t.turn.user], c, provider), provider, t.turn.user)
      && t.planned == next
  {
  }

  lemma PruneKeepsRetained(ix: Index, now: int, next: Index, p: Id)
    requires Inv(ix) && PruneStep(ix, now, next) && Kept(ix, p, now)
    ensures p in next.retained.ctx <==> p in ix.retained.ctx
    ensures RetainedOf(next, p) == RetainedOf(ix, p)
  {
    var e := Expire(ix.retained, now, TRANSCRIPT_CONTEXT_TTL);
    CardinalityMonotone(ix.retained.ctx, Stale(ix.retained.at, now, TRANSCRIPT_CONTEXT_TTL));
    CapIdle(e, next.retained, MAX_TRANSCRIPT_CONTEXT_ENTRIES);
  }

  lemma RememberBinds(ix: Index, plan: ContextPlan, up: Upstream, now: int, next: Index)
    requires Inv(ix) && RememberStep(ix, plan, up, now, next) && Memorable(plan, up) && plan.client != NoId
    requires Kept(ix, plan.provider, now)
    ensures Bound(next, plan.client, plan.provider, TranscriptOf(ix, plan))
  {
    var mid :| PruneStep(ix, now, mid) && next == Remembered(mid, plan, now);
    InvPrune(ix, now, mid);
    PruneKeepsRetained(ix, now, mid, plan.provider);
    InvRemembered(mid, plan, now);
    RememberedIsExact(mid, plan, now);
    assert TranscriptOf(mid, plan) == TranscriptOf(ix, plan);
    assert plan.client in next.explicit.ctx && next.explicit.ctx[plan.client] == plan.provider;
  }

  /** What the plan of a turn finds retained: the conversation so far, or nothing on
      the first turn. */
  ghost predicate Starts(conversationID: string, t: Served, so: seq<Message>) {
    var c := CanonicalId(conversationID);
    if so == [] then c !in t.before.explicit.ctx
    else |so| >= 2 && c in t.before.explicit.ctx && Bound(t.before, c, t.before.explicit.ctx[c], so)
  }

  lemma PlanFindsConversation(conversationID: string, t: Served, so: seq<Message>)
    requires Inv(t.before) && Planned(conversationID, t) && Calm(conversationID, t) && Starts(conversationID, t, so)
    ensures t.plan.provider != NoId && t.plan.client == CanonicalId(conversationID)
    ensures t.plan.requestMessages == [t.turn.user] && Inv(t.planned)
    ensures RetainedOf(t.planned, t.plan.provider) == so
  {
    var c := CanonicalId(conversationID);
    NewestMessagePlan(conversationID, t);
    InvExplicit(t.before, t.up, c, t.now);
  }

  lemma MergeAppends(so: seq<Message>, user: Message)
    requires Usable(user) && (so == [] || |so| >= 2)
    ensures MergeRecovery(so, [user]) == so + [user]
  {
    if so == [] {
      assert so + [user] == [user];
    }
  }

  lemma MigrationRecovers(t: Served, so: seq<Message>)
    requires t.turn.migrated && Usable(t.turn.user) && (so == [] || |so| >= 2)
    requires Inv(t.answered) && PruneStep(t.answered, t.moving, t.recovered)
    requires Kept(t.answered, t.plan.provider, t.moving)
    requires RetainedOf(t.answered, t.plan.provider) == so
    ensures RecoveryOf(t) == so + [t.turn.user]
  {
    PruneKeepsRetained(t.answered, t.moving, t.recovered, t.plan.provider);
    MergeAppends(so, t.turn.user);
  }

  lemma UndisturbedRetains(a: Index, b: Index, c: Id, p: Id)
    requires Undisturbed(a, b, c, p)
    ensures RetainedOf(b, p) == RetainedOf(a, p)
  {
  }

  /** The transcript to be remembered, on either path. */
  lemma RequestIsWhole(conversationID: string, t: Served, so: seq<Message>)
    requires Inv(t.before) && Planned(conversationID, t) && Serves(t) && Calm(conversationID, t)
      && Starts(conversationID, t, so)
    ensures RequestOf(t.remembering, FinalPlan(t)) == so + [t.turn.user]
    ensures t.turn.migrated ==> RecoveryOf(t) == so + [t.turn.user]
  {
    PlanFindsConversation(conversationID, t, so);
    UndisturbedRetains(t.planned, t.answered, t.plan.client, t.plan.provider);
    MergeAppends(so, t.turn.user);
    if t.turn.migrated {
      MigrationRecovers(t, so);
      var forgotten := Forget(t.recovered, t.plan.provider);
      assert t.turn.fallback !in forgotten.retained.ctx;
      UndisturbedRetains(forgotten, t.remembering, t.plan.client, t.turn.fallback);
    }
  }

  lemma RememberingIsSound(conversationID: string, t: Served, so: seq<Message>)
    requires Inv(t.before) && Planned(conversationID, t) && Serves(t) && Calm(conversationID, t)
      && Starts(conversationID, t, so)
    ensures var final := FinalPlan(t);
      && Memorable(final, t.upAfter) && final.client == CanonicalId(conversationID) && final.client != NoId
      && final.responseText == t.turn.answer
      && Kept(t.remembering, final.provider, t.later) && Inv(t.remembering)
      && RememberStep(t.remembering, final, t.upAfter, t.later, t.after)
  {
    PlanFindsConversation(conversationID, t, so);
  }

  lemma RememberExtends(ix: Index, plan: ContextPlan, up: Upstream, now: int, next: Index,
                        c: Id, p: Id, so: seq<Message>, turn: Turn)
    requires Inv(ix) && RememberStep(ix, plan, up, now, next) && Memorable(plan, up)
    requires plan.client == c && c != NoId && plan.provider == p && plan.responseText == turn.answer
    requires Kept(ix, p, now) && RequestOf(ix, plan) == so + [turn.user]
    ensures Bound(next, c, p, so + [turn.user, Assistant(turn.answer)])
  {
    RememberBinds(ix, plan, up, now, next);
    SnocTwo(so, turn.user, Assistant(turn.answer));
  }

  /** One turn extends the bound conversation by its message and answer, whether or not
      it had to be migrated, and a migration sends the whole conversation again. */
  lemma TurnExtends(conversationID: string, t: Served, so: seq<Message>)
    requires Inv(t.before) && Planned(conversationID, t) && Serves(t) && Calm(conversationID, t)
      && Starts(conversationID, t, so)
    ensures Bound(t.after, CanonicalId(conversationID), ProviderAfter(t),
                  so + [t.turn.user, Assistant(t.turn.answer)])
    ensures t.turn.migrated ==> RecoveryOf(t) == so + [t.turn.user]
  {
    RequestIsWhole(conversationID, t, so);
    RememberingIsSound(conversationID, t, so);
    RememberExtends(t.remembering, FinalPlan(t), t.upAfter, t.later, t.after,
                    CanonicalId(conversationID), ProviderAfter(t), so, t.turn);
  }

  // ---- The whole run ----

  lemma {:induction false} TranscriptLength(run: seq<Served>)
    ensures |Transcript(run)| == 2 * |run|
  {
    if run == [] {
    } else {
      TranscriptLength(run[..|run| - 1]);
    }
  }

  lemma StartsLater(conversationID: string, t: Served, previous: Index, p: Id, so: seq<Message>)
    requires Bound(previous, CanonicalId(conversationID), p, so) && |so| >= 2
    requires Undisturbed(previous, t.before, CanonicalId(conversationID), p)
    ensures Starts(conversationID, t, so)
  {
  }

  lemma TranscriptStep(run: seq<Served>, n: nat)
    requires 1 <= n <= |run|
    ensures Transcript(run[..n]) == Transcript(run[..n - 1]) + [run[n - 1].turn.user, Assistant(run[n - 1].turn.answer)]
    ensures |Transcript(run[..n])| == 2 * n
  {
    TakeTake(run, n, n - 1);
    TranscriptLength(run[..n]);
  }

  /** A later turn starts where the one before it left off. */
  lemma TurnStarts(conversationID: string, run: seq<Served>, n: nat)
    requires 2 <= n <= |run|
    requires Undisturbed(run[n - 2].after, run[n - 1].before, CanonicalId(conversationID), ProviderAfter(run[n - 2]))
    requires Bound(run[n - 2].after, CanonicalId(conversationID), ProviderAfter(run[n - 2]),
                   Transcript(run[..n - 1]))
    ensures Starts(conversationID, run[n - 1], Transcript(run[..n - 1]))
  {
    TranscriptStep(run, n - 1);
    StartsLater(conversationID, run[n - 1], run[n - 2].after, ProviderAfter(run[n - 2]),
                Transcript(run[..n - 1]));
  }

  lemma TurnInRun(conversationID: string, run: seq<Served>, n: nat, so: seq<Message>)
    requires ClientRun(conversationID, run) && 1 <= n <= |run| && Starts(conversationID, run[n - 1], so)
    ensures Bound(run[n - 1].after, CanonicalId(conversationID), ProviderAfter(run[n - 1]),
                  so + [run[n - 1].turn.user, Assistant(run[n - 1].turn.answer)])
    ensures run[n - 1].turn.migrated ==> RecoveryOf(run[n - 1]) == so + [run[n - 1].turn.user]
  {
    TurnExtends(conversationID, run[n - 1], so);
  }

  /** After any number of turns, any of them migrated, the id maps to one provider
      whose recovery transcript is exactly u1, a1, ..., un, an. */
  lemma {:induction false} RunKeepsConversation(conversationID: string, run: seq<Served>, n: nat)
    requires ClientRun(conversationID, run) && 1 <= n <= |run|
    ensures Bound(run[n - 1].after, CanonicalId(conversationID), ProviderAfter(run[n - 1]), Transcript(run[..n]))
    ensures run[n - 1].turn.migrated ==>
      RecoveryOf(run[n - 1]) == Transcript(run[..n - 1]) + [run[n - 1].turn.user]
  {
    hide Calm, Serves, Planned, Inv;
    if n <= 1 {
    } else {
      RunKeepsConversation(conversationID, run, n - 1);
      TurnStarts(conversationID, run, n);
    }
    TranscriptStep(run, n);
    TurnInRun(conversationID, run, n, Transcript(run[..n - 1]));
  }

  // ---- Such runs exist ----

  /** An index that knows client c's conversation with p and nothing else. */
  function Alone(c: Id, p: Id, so: seq<Message>, now: int): Index {
    EMPTY_INDEX.(explicit := Table(map[c := p], map[c := now]), retained := Table(map[p := so], map[p := now]))
  }

  lemma CapStands<K, V>(t: Table<K, V>, cap: nat)
    requires |t.ctx| <= cap
    ensures Capped(t, t, cap)
  {
    DropNone(t);
    assert t.ctx.Keys - t.ctx.Keys == {};
  }

  lemma ExpireStands<K, V>(t: Table<K, V>, now: int, ttl: int)
    requires forall k :: k in t.at ==> now - t.at[k] <= ttl
    ensures Expire(t, now, ttl) == t
  {
    DropNone(t);
    assert Stale(t.at, now, ttl) == {};
  }

  /** Pruning leaves such an index as it is. */
  lemma PruneStands(ix: Index, now: int)
    requires ix.transcripts == EmptyTable() && ix.suffixes == EmptyTable() && ix.windows == EmptyTable()
    requires ix.roots == EmptyTable() && ix.toolBridge == EmptyTable() && ix.frontier == EMPTY_INDEX.frontier
    requires |ix.retained.ctx| <= 1
    requires forall k :: k in ix.explicit.at ==> ix.explicit.at[k] == now
    requires forall k :: k in ix.retained.at ==> ix.retained.at[k] == now
    ensures PruneStep(ix, now, ix)
  {
    hide Expire, Capped;
    ExpireStands(ix.transcripts, now, TRANSCRIPT_CONTEXT_TTL);
    ExpireStands(ix.windows, now, TRANSCRIPT_CONTEXT_TTL);
    ExpireStands(ix.explicit, now, TRANSCRIPT_CONTEXT_TTL);
    ExpireStands(ix.retained, now, TRANSCRIPT_CONTEXT_TTL);
    ExpireStands(ix.toolBridge, now, TRANSCRIPT_CONTEXT_TTL);
    assert Orphaned(map[], map[], {}) == {};
    assert DropFrontier(ix.frontier, {}) == ix.frontier;
    CapStands(ix.transcripts, MAX_TRANSCRIPT_CONTEXT_ENTRIES);
    CapStands(ix.windows, MAX_TRANSCRIPT_CONTEXT_ENTRIES);
    CapStands(ix.retained, MAX_TRANSCRIPT_CONTEXT_ENTRIES);
  }

  lemma AloneFacts(c: Id, p: Id, so: seq<Message>, now: int)
    requires c != NoId && p != NoId
    ensures var ix := Alone(c, p, so, now);
      && Inv(ix) && PruneStep(ix, now, ix) && Kept(ix, p, now) && RetainedOf(ix, p) == so
      && Forget(ix, p) == EMPTY_INDEX
  {
    hide Inv, PruneStep, Forget;
    AloneInv(c, p, so, now);
    AloneForgets(c, p, so, now);
    PruneStands(Alone(c, p, so, now), now);
  }

  lemma AloneInv(c: Id, p: Id, so: seq<Message>, now: int)
    requires c != NoId && p != NoId
    ensures Inv(Alone(c, p, so, now))
  {
  }

  lemma AloneForgets(c: Id, p: Id, so: seq<Message>, now: int)
    requires p != NoId
    ensures Forget(Alone(c, p, so, now), p) == EMPTY_INDEX
  {
    var ix := Alone(c, p, so, now);
    assert Holding(ix.explicit, p) == {c};
    assert map[c := p] - {c} == map[] && map[c := now] - {c} == map[];
    assert map[p := so] - {p} == map[] && map[p := now] - {p} == map[];
    EmptyDrops(ix.transcripts, p);
    EmptyDrops(ix.windows, p);
    assert ix.toolBridge.ctx - {p} == map[] && ix.toolBridge.at - {p} == map[];
    assert DropFrontier(ix.frontier, {p}) == ix.frontier;
  }

  lemma EmptyDrops<K>(t: Table<K, Id>, p: Id)
    requires t == EmptyTable()
    ensures Drop(t, Holding(t, p)) == t
  {
    assert Holding(t, p) == {};
    DropNone(t);
  }

  lemma EmptyFacts(p: Id, now: int)
    ensures Inv(EMPTY_INDEX) && PruneStep(EMPTY_INDEX, now, EMPTY_INDEX) && Kept(EMPTY_INDEX, p, now)
    ensures Forget(EMPTY_INDEX, p) == EMPTY_INDEX
  {
    hide PruneStep, Forget;
    EmptyForgets(p);
    PruneStands(EMPTY_INDEX, now);
  }

  lemma EmptyForgets(p: Id)
    ensures Forget(EMPTY_INDEX, p) == EMPTY_INDEX
  {
    EmptyDrops(EMPTY_INDEX.transcripts, p);
    EmptyDrops(EMPTY_INDEX.windows, p);
    EmptyDrops(EMPTY_INDEX.explicit, p);
    assert EMPTY_INDEX.retained.ctx - {p} == map[] && EMPTY_INDEX.retained.at - {p} == map[];
    assert EMPTY_INDEX.toolBridge.ctx - {p} == map[] && EMPTY_INDEX.toolBridge.at - {p} == map[];
    assert DropFrontier(EMPTY_INDEX.frontier, {p}) == EMPTY_INDEX.frontier;
  }

  /** A turn that starts in index ix and is planned on p; the client knows p and, after a
      migration, the fallback. */
  function TurnOn(ix: Index, up: Upstream, c: Id, p: Id, turn: Turn, now: int): Served {
    var plan := Continue(MainPlan([turn.user], c, p), p, turn.user);
    var left := if turn.migrated then EMPTY_INDEX else ix;
    var t := Served(turn, ix, up, now, plan, ix, ix, now, ix, left, Client({p, turn.fallback}, {}, true), now, ix);
    t.(after := Remembered(left, FinalPlan(t), now))
  }

  lemma Untouched(ix: Index, c: Id, p: Id)
    requires Inv(ix)
    ensures Undisturbed(ix, ix, c, p)
  {
    hide Inv;
  }

  lemma RemembersFrom(left: Index, plan: ContextPlan, up: Upstream, now: int)
    requires Memorable(plan, up) && PruneStep(left, now, left)
    ensures RememberStep(left, plan, up, now, Remembered(left, plan, now))
  {
    hide PruneStep, Remembered, Memorable;
  }

  /** The final plan does not depend on what is remembered after it. */
  lemma FinalPlanStands(t: Served, after: Index)
    ensures FinalPlan(t.(after := after)) == FinalPlan(t)
  {
  }

  lemma TurnServes(ix: Index, up: Upstream, c: Id, p: Id, turn: Turn, now: int)
    requires p != NoId && turn.fallback != NoId && TrimSpace(turn.answer) != ""
    requires Inv(ix) && PruneStep(ix, now, ix) && Forget(ix, p) == EMPTY_INDEX
    ensures Serves(TurnOn(ix, up, c, p, turn, now))
  {
    hide Inv, PruneStep, Forget, Undisturbed, Remembered, RememberStep, RecoveryOf;
    var t := TurnOn(ix, up, c, p, turn, now);
    FinalPlanStands(t, ix);
    assert t == t.(after := ix).(after := Remembered(t.remembering, FinalPlan(t), now));
    EmptyFacts(p, now);
    Untouched(ix, c, p);
    Untouched(EMPTY_INDEX, c, turn.fallback);
    RemembersFrom(t.remembering, FinalPlan(t), t.upAfter, now);
  }

  /** What a turn needs: a usable message, an answer that is not blank, and ids, the
      fallback being another than the conversation it replaces. */
  predicate Playable(turn: Turn, p: Id) {
    && Usable(turn.user) && TrimSpace(turn.answer) != "" && turn.drawn != NoId && turn.fallback != NoId
    && (turn.migrated ==> turn.fallback != p)
  }

  lemma FirstPlanned(conversationID: string, turn: Turn, now: int)
    requires CanonicalId(conversationID) != NoId && Usable(turn.user)
    ensures Planned(conversationID,
                    TurnOn(EMPTY_INDEX, Client({}, {}, true), CanonicalId(conversationID), turn.drawn, turn, now))
  {
    hide CanonicalId, Usable, Remembered;
    UserAlone([turn.user]);
    assert LookupExplicit(EMPTY_INDEX, Client({}, {}, true), CanonicalId(conversationID), now) == (NoId, EMPTY_INDEX);
  }

  lemma NextPlanned(conversationID: string, ix: Index, up: Upstream, p: Id, turn: Turn, now: int)
    requires CanonicalId(conversationID) != NoId && Usable(turn.user) && p != NoId
    requires LookupExplicit(ix, up, CanonicalId(conversationID), now) == (p, ix)
    ensures Planned(conversationID, TurnOn(ix, up, CanonicalId(conversationID), p, turn, now))
  {
    hide CanonicalId, Usable, Remembered, LookupExplicit;
    UserAlone([turn.user]);
  }

  lemma AloneFound(c: Id, p: Id, so: seq<Message>, now: int, up: Upstream)
    requires c != NoId && p != NoId && Ready(up, p)
    ensures LookupExplicit(Alone(c, p, so, now), up, c, now) == (p, Alone(c, p, so, now))
  {
    assert map[c := now][c := now] == map[c := now];
  }

  lemma TurnIsCalm(conversationID: string, ix: Index, up: Upstream, p: Id, turn: Turn, now: int)
    requires var c := CanonicalId(conversationID);
      && c != NoId && !IsStale(ix.explicit.at, c, now)
      && (c in ix.explicit.ctx ==> Ready(up, ix.explicit.ctx[c]))
      && (c !in ix.explicit.ctx ==> p !in ix.retained.ctx)
    requires Playable(turn, p) && Kept(ix, p, now) && (ix.retained.ctx.Keys <= {p})
    ensures Calm(conversationID, TurnOn(ix, up, CanonicalId(conversationID), p, turn, now))
  {
    hide CanonicalId, Usable, Remembered, RecoveryOf, IsStale, TrimSpace;
  }

  /** A first turn on an empty index, whose client knows no conversation yet. */
  lemma FirstTurnRuns(conversationID: string, turn: Turn, now: int) returns (t: Served)
    requires CanonicalId(conversationID) != NoId && Playable(turn, turn.drawn)
    ensures t.turn == turn && ClientRun(conversationID, [t])
    ensures ProviderAfter(t) == if turn.migrated then turn.fallback else turn.drawn
  {
    hide Planned, Serves, Calm, Inv, PruneStep, Remembered, CanonicalId, Forget, Usable, TrimSpace, ClientRun;
    var c, up := CanonicalId(conversationID), Client({}, {}, true);
    t := TurnOn(EMPTY_INDEX, up, c, turn.drawn, turn, now);
    EmptyFacts(turn.drawn, now);
    FirstPlanned(conversationID, turn, now);
    TurnServes(EMPTY_INDEX, up, c, turn.drawn, turn, now);
    TurnIsCalm(conversationID, EMPTY_INDEX, up, turn.drawn, turn, now);
    OneTurnRun(conversationID, t);
  }

  lemma OneTurnRun(conversationID: string, t: Served)
    requires Planned(conversationID, t) && Serves(t) && Calm(conversationID, t) && Inv(t.before)
    requires CanonicalId(conversationID) !in t.before.explicit.ctx
    ensures ClientRun(conversationID, [t])
  {
    hide Planned, Serves, Calm, Inv;
  }

  lemma Rejoined(a: Index, c: Id, p: Id, so: seq<Message>, now: int)
    requires Bound(a, c, p, so) && c != NoId && p != NoId
    ensures Undisturbed(a, Alone(c, p, so, now), c, p)
  {
    AloneFacts(c, p, so, now);
    hide Inv, Forget, PruneStep;
  }

  lemma Longer(conversationID: string, run: seq<Served>, t: Served)
    requires ClientRun(conversationID, run) && run != []
    requires Planned(conversationID, t) && Serves(t) && Calm(conversationID, t) && Inv(t.before)
    requires var last := run[|run| - 1];
      Undisturbed(last.after, t.before, CanonicalId(conversationID), ProviderAfter(last))
    ensures ClientRun(conversationID, run + [t])
  {
    hide Planned, Serves, Calm, Inv, Undisturbed, ProviderAfter, CanonicalId;
  }

  lemma BoundIsNamed(ix: Index, c: Id, p: Id, messages: seq<Message>)
    requires Bound(ix, c, p, messages)
    ensures c != NoId && p != NoId
  {
  }

  /** Every such run can go on: with any message and answer, migrated or not, and with a
      client that has state for the conversation it is in. */
  lemma RunGoesOn(conversationID: string, run: seq<Served>, turn: Turn, now: int) returns (t: Served)
    requires ClientRun(conversationID, run) && run != []
    requires Playable(turn, ProviderAfter(run[|run| - 1]))
    ensures t.turn == turn && t.up.Client? && ClientRun(conversationID, run + [t])
    ensures ProviderAfter(t) == if turn.migrated then turn.fallback else ProviderAfter(run[|run| - 1])
  {
    hide ClientRun, Planned, Serves, Calm, Inv, PruneStep, Remembered, Undisturbed, Bound, Kept, Playable, Forget;
    var last := run[|run| - 1];
    var c, p, so := CanonicalId(conversationID), ProviderAfter(last), Transcript(run);
    RunKeepsConversation(conversationID, run, |run|);
    assert run[..|run|] == run;
    BoundIsNamed(last.after, c, p, so);
    var ix, up := Alone(c, p, so, now), Client({p}, {}, true);
    t := TurnOn(ix, up, c, p, turn, now);
    GoesOn(conversationID, p, so, turn, now);
    Rejoined(last.after, c, p, so, now);
    Longer(conversationID, run, t);
  }

  lemma GoesOn(conversationID: string, p: Id, so: seq<Message>, turn: Turn, now: int)
    requires CanonicalId(conversationID) != NoId && p != NoId && Playable(turn, p)
    ensures var c := CanonicalId(conversationID);
      var (ix, up) := (Alone(c, p, so, now), Client({p}, {}, true));
      var t := TurnOn(ix, up, c, p, turn, now);
      Planned(conversationID, t) && Serves(t) && Calm(conversationID, t) && Inv(t.before)
  {
    hide Planned, Serves, Calm, Inv, PruneStep, Remembered, CanonicalId, Forget, Kept;
    var c := CanonicalId(conversationID);
    var ix, up := Alone(c, p, so, now), Client({p}, {}, true);
    AloneFacts(c, p, so, now);
    AloneFound(c, p, so, now, up);
    NextPlanned(conversationID, ix, up, p, turn, now);
    TurnServes(ix, up, c, p, turn, now);
    TurnIsCalm(conversationID, ix, up, p, turn, now);
  }

  /** The provider conversation after the turns. */
  function Carrier(turns: seq<Turn>): Id
    requires turns != []
  {
    var last := turns[|turns| - 1];
    if last.migrated then last.fallback
    else if |turns| == 1 then last.drawn
    else Carrier(turns[..|turns| - 1])
  }

  /** The one before turn i. */
  function CarrierBefore(turns: seq<Turn>, i: nat): Id
    requires i < |turns|
  {
    if i == 0 then turns[0].drawn else Carrier(turns[..i])
  }

  ghost predicate AllPlayable(turns: seq<Turn>) {
    forall i :: 0 <= i < |turns| ==> Playable(turns[i], CarrierBefore(turns, i))
  }

  lemma PlayableFront(turns: seq<Turn>)
    requires AllPlayable(turns) && |turns| >= 2
    ensures AllPlayable(turns[..|turns| - 1])
  {
    hide Playable, Carrier;
    var n := |turns| - 1;
    forall i | 0 <= i < n
      ensures Playable(turns[..n][i], CarrierBefore(turns[..n], i))
    {
      TakeTake(turns, n, i);
      assert Playable(turns[i], CarrierBefore(turns, i));
    }
  }

  lemma LastPlayable(turns: seq<Turn>)
    requires AllPlayable(turns) && turns != []
    ensures var last := turns[|turns| - 1];
      Playable(last, CarrierBefore(turns, |turns| - 1)) && last.drawn != NoId && last.fallback != NoId
  {
    hide Carrier;
    assert Playable(turns[|turns| - 1], CarrierBefore(turns, |turns| - 1));
  }

  /** Any list of turns, migrated wherever one likes, is the list of turns of such a run. */
  lemma {:induction false} EveryTurnListRuns(conversationID: string, turns: seq<Turn>, now: int)
    returns (run: seq<Served>)
    requires CanonicalId(conversationID) != NoId && turns != []
    requires AllPlayable(turns)
    ensures ClientRun(conversationID, run) && |run| == |turns|
    ensures forall i :: 0 <= i < |turns| ==> run[i].turn == turns[i]
    ensures ProviderAfter(run[|run| - 1]) == Carrier(turns) != NoId
  {
    hide ClientRun, Playable, AllPlayable, CanonicalId, ProviderAfter;
    var n := |turns| - 1;
    LastPlayable(turns);
    if n == 0 {
      var t := FirstTurnRuns(conversationID, turns[0], now);
      run := [t];
    } else {
      PlayableFront(turns);
      var front := EveryTurnListRuns(conversationID, turns[..n], now);
      var t := RunGoesOn(conversationID, front, turns[n], now);
      run := front + [t];
    }
  }
}
