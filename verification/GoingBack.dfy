/** A conversation recorded turn by turn, and the client going back in it: over runs of the
    index, with its pruning (openai_service.go). */
module GoingBack {
  import opened Text
  import opened Messages
  import opened Tables
  import opened ContextIndex
  import opened Planner
  import opened Rollback

  // ---- Turns ----

  datatype Exchange = Exchange(user: Message, answer: string, at: int)

  /** What was said, as the client repeats it. */
  function Said(turns: seq<Exchange>): seq<Message>
    decreases |turns|, 1
  {
    if turns == [] then []
    else Asked(turns) + [Assistant(turns[|turns| - 1].answer)]
  }

  /** The same up to the newest user message. */
  function Asked(turns: seq<Exchange>): seq<Message>
    requires turns != []
    decreases |turns|, 0
  {
    Said(turns[..|turns| - 1]) + [turns[|turns| - 1].user]
  }

  ghost predicate AllUsable(turns: seq<Exchange>) {
    forall i :: 0 <= i < |turns| ==> Usable(turns[i].user)
  }

  /** The turns recorded by a run of index operations. */
  function TurnsOf(ops: seq<Op>, times: seq<int>): seq<Exchange>
    requires |times| == |ops|
  {
    if ops == [] then []
    else
      var n := |ops| - 1;
      TurnsOf(ops[..n], times[..n]) + TurnAt(ops[n], times[n])
  }

  function TurnAt(op: Op, at: int): seq<Exchange> {
    if op.Remember? && op.plan.requestMessages != [] then
      [Exchange(op.plan.requestMessages[|op.plan.requestMessages| - 1], op.plan.responseText, at)]
    else []
  }

  /** op records the next turn of p's conversation, or looks something up. */
  ghost predicate Speaks(p: Id, op: Op, turns: seq<Exchange>) {
    match op
    case Remember(plan, up) =>
      && Memorable(plan, up) && plan.provider == p && plan.requestMessages != []
      && var last := plan.requestMessages[|plan.requestMessages| - 1];
      Usable(last) && plan.requestMessages == Said(turns) + [last]
    case ForgetProvider(_) => false
    case Recover => false
    case _ => true
  }

  /** A run in which one client repeats all that was said and adds a message, turn by turn,
      with any lookups in between. */
  ghost predicate TurnRun(p: Id, ops: seq<Op>, times: seq<int>, states: seq<Index>) {
    && Run(ops, times, states) && states[0] == EMPTY_INDEX
    && forall i :: 0 <= i < |ops| ==> Speaks(p, ops[i], TurnsOf(ops[..i], times[..i]))
  }

  // ---- What was recorded, by the turns ----

  /** The key of a suffix of something remembered on the way. */
  predicate SuffixRecorded(turns: seq<Exchange>, key: Key) {
    turns != []
    && (|| SuffixRecorded(turns[..|turns| - 1], key)
        || key in SuffixKeys(Asked(turns)) || key in SuffixKeys(Said(turns)))
  }

  /** The key of a user window of something remembered on the way. */
  predicate WindowRecorded(turns: seq<Exchange>, key: WindowKey) {
    turns != []
    && (|| WindowRecorded(turns[..|turns| - 1], key)
        || key in WindowKeys(Asked(turns)) || key in WindowKeys(Said(turns)))
  }

  predicate TranscriptRecorded(turns: seq<Exchange>, key: Key) {
    turns != []
    && (|| TranscriptRecorded(turns[..|turns| - 1], key)
        || key == Fingerprint(Asked(turns)) || key == Fingerprint(Said(turns)))
  }

  lemma AssistantIsNoUser(answer: string)
    ensures RoleOf(Assistant(answer)) == "assistant" && !IsUser(Assistant(answer)) && TurnOf(Assistant(answer)) == []
  {
    TrimCore("", "assistant", "");
    assert "" + "assistant" + "" == "assistant";
    assert ToLower("assistant") == "assistant";
    assert "assistant"[0] == 'a' && "user"[0] == 'u';
  }

  lemma {:induction false} SaidTurns(turns: seq<Exchange>)
    requires AllUsable(turns)
    ensures |UserTurns(Said(turns))| == |turns| && |Said(turns)| == 2 * |turns|
  {
    if turns == [] {
    } else {
      var front, last := turns[..|turns| - 1], turns[|turns| - 1];
      SaidTurns(front);
      AssistantIsNoUser(last.answer);
      OneMore(Said(front), last.user);
      OneMore(Asked(turns), Assistant(last.answer));
      hide Usable, TurnOf, UserTurns;
    }
  }

  lemma {:induction false} OneMore(messages: seq<Message>, m: Message)
    ensures UserTurns(messages + [m]) == UserTurns(messages) + TurnOf(m)
    ensures Usable(m) ==> |TurnOf(m)| == 1
  {
    assert (messages + [m])[..|messages|] == messages;
  }

  lemma {:induction false} SaidBegins(turns: seq<Exchange>, m: nat)
    requires m <= |turns|
    ensures Said(turns[..m]) <= Said(turns)
    ensures m < |turns| ==> Said(turns[..m]) + [turns[m].user] <= Said(turns)
  {
    if m == |turns| {
      assert turns[..m] == turns;
    } else {
      var n := |turns| - 1;
      TakeTake(turns, n, m);
      if m == n {
      } else {
        SaidBegins(turns[..n], m);
        assert turns[..n][m] == turns[m];
        LongerStill(Said(turns[..m]), Said(turns[..n]), turns[n].user, Assistant(turns[n].answer));
        LongerStill(Said(turns[..m]) + [turns[m].user], Said(turns[..n]), turns[n].user, Assistant(turns[n].answer));
      }
    }
  }

  lemma LongerStill<T>(a: seq<T>, b: seq<T>, x: T, y: T)
    requires a <= b
    ensures a <= b + [x] + [y]
  {
  }

  /** Everything remembered at some turn is still recorded at the end. */
  lemma {:induction false} StillRecorded(turns: seq<Exchange>, m: nat, suffix: Key, window: WindowKey, transcript: Key)
    requires m <= |turns|
    ensures SuffixRecorded(turns[..m], suffix) ==> SuffixRecorded(turns, suffix)
    ensures WindowRecorded(turns[..m], window) ==> WindowRecorded(turns, window)
    ensures TranscriptRecorded(turns[..m], transcript) ==> TranscriptRecorded(turns, transcript)
  {
    if m == |turns| {
      assert turns[..m] == turns;
    } else {
      var n := |turns| - 1;
      hide SuffixRecorded, WindowRecorded, TranscriptRecorded;
      StillRecorded(turns[..n], m, suffix, window, transcript);
      TakeTake(turns, n, m);
      RecordedOnward(turns, suffix, window, transcript);
    }
  }

  lemma {:induction false} RecordedOnward(turns: seq<Exchange>, suffix: Key, window: WindowKey, transcript: Key)
    requires turns != []
    ensures SuffixRecorded(turns[..|turns| - 1], suffix) ==> SuffixRecorded(turns, suffix)
    ensures WindowRecorded(turns[..|turns| - 1], window) ==> WindowRecorded(turns, window)
    ensures TranscriptRecorded(turns[..|turns| - 1], transcript) ==> TranscriptRecorded(turns, transcript)
  {
    hide Said, Asked, SuffixKeys, WindowKeys, Fingerprint;
  }

  /** Two exchanges say the same, up to normalization. */
  predicate SameExchange(a: Exchange, b: Exchange) {
    Normalize(a.user) == Normalize(b.user) && Normalize(Assistant(a.answer)) == Normalize(Assistant(b.answer))
  }

  predicate SayAgain(turns: seq<Exchange>, first: Exchange) {
    exists k :: 1 <= k < |turns| && SameExchange(turns[k], first)
  }

  /** Of the suffixes recorded for a list, only its last two messages can be two. */
  lemma PairSuffix(messages: seq<Message>, a: Message, b: Message)
    ensures Fingerprint([a, b]) in SuffixKeys(messages)
      <==> |messages| >= 4 && Normalize(messages[|messages| - 2]) == Normalize(a)
           && Normalize(messages[|messages| - 1]) == Normalize(b)
  {
    hide Normalize, Fingerprint;
    if |messages| >= 4 {
      var n := |messages| - 2;
      var keys := SuffixKeys(messages);
      assert |keys| == n && keys[n - 1] == Fingerprint(messages[n..]);
      PairOf(messages, a, b);
      forall i | 0 <= i < |keys| && keys[i] == Fingerprint([a, b])
        ensures i == n - 1
      {
        LengthOfKey(messages[i + 1..], [a, b]);
      }
    }
  }

  lemma LengthOfKey(a: seq<Message>, b: seq<Message>)
    requires Fingerprint(a) == Fingerprint(b)
    ensures |a| == |b|
  {
    assert |Normalized(a)| == |a| && |Normalized(b)| == |b|;
  }

  lemma PairOf(messages: seq<Message>, a: Message, b: Message)
    requires |messages| >= 2
    ensures var n := |messages| - 2;
      Fingerprint(messages[n..]) == Fingerprint([a, b])
      <==> Normalize(messages[n]) == Normalize(a) && Normalize(messages[n + 1]) == Normalize(b)
  {
    var n := |messages| - 2;
    assert messages[n..] == [messages[n], messages[n + 1]];
    assert Normalized([messages[n], messages[n + 1]]) == [Normalize(messages[n]), Normalize(messages[n + 1])];
    assert Normalized([a, b]) == [Normalize(a), Normalize(b)];
    hide Normalize;
  }

  /** The first exchange is a recorded suffix exactly when it was said again later. */
  lemma {:induction false} FirstRecorded(turns: seq<Exchange>, first: Exchange)
    requires AllUsable(turns) && turns != [] && IsUser(first.user)
    ensures SuffixRecorded(turns, Fingerprint([first.user, Assistant(first.answer)])) <==> SayAgain(turns, first)
  {
    hide Said, Asked, SuffixKeys, Fingerprint, Normalize, SameExchange;
    if |turns| == 1 {
      assert !SuffixRecorded(turns[..0], Fingerprint([first.user, Assistant(first.answer)]));
    } else {
      FirstRecorded(turns[..|turns| - 1], first);
      AgainStep(turns, first);
    }
    FirstRecordedNow(turns, first);
  }

  /** A turn records the exchange anew when it says it again. */
  lemma {:induction false} FirstRecordedNow(turns: seq<Exchange>, first: Exchange)
    requires AllUsable(turns) && turns != [] && IsUser(first.user)
    ensures var key := Fingerprint([first.user, Assistant(first.answer)]);
      key !in SuffixKeys(Asked(turns))
      && (key in SuffixKeys(Said(turns)) <==> |turns| >= 2 && SameExchange(turns[|turns| - 1], first))
  {
    hide UserTurns, SuffixKeys, Fingerprint;
    var last := turns[|turns| - 1];
    SaidTurns(turns);
    AssistantIsNoUser(first.answer);
    PairSuffix(Asked(turns), first.user, Assistant(first.answer));
    PairSuffix(Said(turns), first.user, Assistant(first.answer));
    assert Normalize(last.user).role == "user" && Normalize(Assistant(first.answer)).role == "assistant";
  }

  lemma AgainStep(turns: seq<Exchange>, first: Exchange)
    requires |turns| >= 2
    ensures SayAgain(turns, first) <==> SayAgain(turns[..|turns| - 1], first) || SameExchange(turns[|turns| - 1], first)
  {
    var n := |turns| - 1;
    assert forall k :: 0 <= k < n ==> turns[..n][k] == turns[k];
  }

  lemma {:induction false} WindowOfTurns(turns: seq<Exchange>, m: nat)
    requires AllUsable(turns) && m <= |turns|
    ensures WindowFingerprint(Said(turns[..m]), 2, 4) != NoWindow <==> m >= 2
    ensures m >= 2 ==> WindowRecorded(turns, WindowFingerprint(Said(turns[..m]), 2, 4))
  {
    var sooner := turns[..m];
    SaidTurns(sooner);
    if m >= 2 {
      hide Said, WindowFingerprint, WindowKeys, UserTurns, SuffixRecorded, TranscriptRecorded;
      SaidWindow(sooner);
      StillRecorded(turns, m, NoKey, WindowFingerprint(Said(sooner), 2, 4), NoKey);
    } else {
      hide Said, UserTurns;
    }
  }

  lemma {:induction false} SaidWindow(turns: seq<Exchange>)
    requires turns != [] && |UserTurns(Said(turns))| >= 2
    ensures WindowRecorded(turns, WindowFingerprint(Said(turns), 2, 4))
    ensures WindowFingerprint(Said(turns), 2, 4) != NoWindow
  {
    hide Said, WindowFingerprint, WindowKeys, UserTurns;
    assert Said(turns)[0..] == Said(turns);
    SuffixWindowIsNoted(Said(turns), 0);
  }

  lemma SaidFirst(turns: seq<Exchange>)
    requires turns != []
    ensures Said(turns[..1]) == [turns[0].user, Assistant(turns[0].answer)]
  {
    assert turns[..1] == [turns[0]] && [turns[0]][..0] == [];
    assert Said([]) == [];
  }

  lemma {:induction false} AskedRecorded(turns: seq<Exchange>, m: nat)
    requires m < |turns|
    ensures TranscriptRecorded(turns, Fingerprint(Said(turns[..m]) + [turns[m].user]))
  {
    var sooner := turns[..m + 1];
    TakeTake(turns, m + 1, m);
    assert sooner[m] == turns[m] && Asked(sooner) == Said(turns[..m]) + [turns[m].user];
    StillRecorded(turns, m + 1, NoKey, NoWindow, Fingerprint(Asked(sooner)));
    hide Fingerprint;
  }

  // ---- The tables know no more than what was recorded ----

  ghost predicate FewerIn<K>(t: Table<K, Id>, next: Table<K, Id>) {
    forall k :: k in next.ctx ==> k in t.ctx && next.ctx[k] == t.ctx[k]
  }

  ghost predicate Fewer(ix: Index, next: Index) {
    && FewerIn(ix.transcripts, next.transcripts) && FewerIn(ix.suffixes, next.suffixes)
    && FewerIn(ix.windows, next.windows) && FewerIn(ix.roots, next.roots)
  }

  /** Every entry is p's and was recorded. */
  ghost predicate Knows(ix: Index, p: Id, turns: seq<Exchange>) {
    && Sole(ix, p)
    && (forall k :: k in ix.suffixes.ctx ==> SuffixRecorded(turns, k))
    && (forall k :: k in ix.windows.ctx ==> WindowRecorded(turns, k))
    && (forall k :: k in ix.transcripts.ctx ==> TranscriptRecorded(turns, k))
  }

  /** The index follows p's conversation. */
  ghost predicate Follows(ix: Index, p: Id, turns: seq<Exchange>) {
    && Inv(ix) && Knows(ix, p, turns) && RetainedOf(ix, p) == Said(turns)
    && (turns != [] ==> p in ix.frontier.latest && ix.frontier.latest[p] == Fingerprint(Said(turns)))
  }

  lemma {:induction false} KnowsFewer(ix: Index, next: Index, p: Id, turns: seq<Exchange>)
    requires Knows(ix, p, turns) && Fewer(ix, next)
    ensures Knows(next, p, turns)
  {
    hide SuffixRecorded, WindowRecorded, TranscriptRecorded;
  }

  lemma PrunedFewer<K>(t: Table<K, Id>, next: Table<K, Id>, now: int, ttl: int, cap: nat)
    requires Pruned(t, next, now, ttl, cap)
    ensures FewerIn(t, next)
  {
  }

  lemma PruneFewer(ix: Index, now: int, next: Index)
    requires PruneStep(ix, now, next)
    ensures Fewer(ix, next)
  {
    hide Capped, Expire, Orphaned, FewerIn;
    PrunedFewer(ix.transcripts, next.transcripts, now, TRANSCRIPT_CONTEXT_TTL, MAX_TRANSCRIPT_CONTEXT_ENTRIES);
    PrunedFewer(ix.suffixes, next.suffixes, now, TRANSCRIPT_CONTEXT_TTL, MAX_TRANSCRIPT_CONTEXT_ENTRIES);
    PrunedFewer(ix.windows, next.windows, now, TRANSCRIPT_CONTEXT_TTL, MAX_TRANSCRIPT_CONTEXT_ENTRIES);
    PrunedFewer(ix.roots, next.roots, now, TRANSCRIPT_CONTEXT_TTL, MAX_TRANSCRIPT_CONTEXT_ENTRIES);
  }

  lemma LookedUpFewer<K>(t: Table<K, Id>, k: K, now: int)
    ensures FewerIn(t, t) && FewerIn(t, Drop(t, {k})) && FewerIn(t, Touch(t, k, now))
  {
  }

  lemma LookupFewer(ix: Index, op: Op, now: int)
    requires LooksUp(op)
    ensures var next := Lookup(ix, op, now).1;
      Fewer(ix, next) && next.frontier == ix.frontier && next.retained == ix.retained
  {
    hide FewerIn, Fingerprint, WindowFingerprint, RootFingerprint, Ready, IsStale, Find, Drop, Touch;
    LookedUpFewer(ix.transcripts, NoKey, now);
    LookedUpFewer(ix.suffixes, NoKey, now);
    LookedUpFewer(ix.windows, NoWindow, now);
    LookedUpFewer(ix.roots, NoKey, now);
    match op {
      case Exact(messages, up) => LookedUpFewer(ix.transcripts, Fingerprint(messages), now);
      case Any(messages, up) => LookedUpFewer(ix.transcripts, Fingerprint(messages), now);
      case Suffix(messages, up) => LookedUpFewer(ix.suffixes, Fingerprint(messages), now);
      case Window(messages, up) => LookedUpFewer(ix.windows, WindowFingerprint(messages, 2, 4), now);
      case Root(messages, up) => LookedUpFewer(ix.roots, RootFingerprint(messages), now);
      case Explicit(client, up) =>
    }
  }

  // ---- Recording a turn ----

  /** The tables after a turn is recorded on a pruned index. */
  lemma RememberedTables(ix: Index, plan: ContextPlan, now: int) returns (bound: Index, asked: Index, next: Index)
    requires RequestOf(ix, plan) != []
    ensures bound.transcripts == ix.transcripts && bound.suffixes == ix.suffixes && bound.windows == ix.windows
    ensures bound.roots == ix.roots
    ensures asked == NoteTranscript(bound, RequestOf(ix, plan), plan.provider, now)
    ensures next == NoteTranscript(asked, TranscriptOf(ix, plan), plan.provider, now)
    ensures var after := Remembered(ix, plan, now);
      && after.transcripts == next.transcripts && after.suffixes == next.suffixes && after.windows == next.windows
      && after.roots == next.roots
  {
    hide NoteTranscript, RequestOf, TranscriptOf;
    bound := if plan.client == NoId then ix else ix.(explicit := Put(ix.explicit, plan.client, plan.provider, now));
    asked := NoteTranscript(bound, RequestOf(ix, plan), plan.provider, now);
    next := NoteTranscript(asked, TranscriptOf(ix, plan), plan.provider, now);
  }

  /** The client repeats all that was said, so the request stands as it is, whether or not
      it is still retained. */
  lemma RequestStands(ix: Index, plan: ContextPlan, said: seq<Message>, user: Message)
    requires RetainedOf(ix, plan.provider) == said || RetainedOf(ix, plan.provider) == []
    requires plan.requestMessages == said + [user]
    ensures RequestOf(ix, plan) == said + [user]
    ensures TranscriptOf(ix, plan) == said + [user] + [Assistant(plan.responseText)]
  {
    assert (said + [user])[..|said|] == said;
    hide Fingerprint;
  }

  lemma PruneRetains(ix: Index, now: int, next: Index, p: Id)
    requires PruneStep(ix, now, next)
    ensures RetainedOf(next, p) == RetainedOf(ix, p) || RetainedOf(next, p) == []
  {
  }

  lemma {:induction false} PutEachOnly<K>(t: Table<K, Id>, keys: seq<K>, p: Id, now: int)
    requires Only(t, p)
    ensures Only(PutEach(t, keys, p, now), p)
  {
    if keys == [] {
    } else {
      PutEachOnly(t, keys[..|keys| - 1], p, now);
    }
  }

  lemma NoteSole(ix: Index, messages: seq<Message>, p: Id, now: int)
    requires Sole(ix, p)
    ensures Sole(NoteTranscript(ix, messages, p, now), p)
  {
    hide PutEach, SuffixKeys, WindowKeys, Fingerprint, RootFingerprint;
    PutEachOnly(ix.suffixes, SuffixKeys(messages), p, now);
    PutEachOnly(ix.windows, WindowKeys(messages), p, now);
  }

  /** Which keys noting a transcript adds. */
  ghost predicate Noted(ix: Index, messages: seq<Message>, next: Index) {
    && (forall k :: k in next.suffixes.ctx <==> k in ix.suffixes.ctx || k in SuffixKeys(messages))
    && (forall k :: k in next.windows.ctx <==> k in ix.windows.ctx || k in WindowKeys(messages))
    && (forall k :: k in next.transcripts.ctx <==> k in ix.transcripts.ctx || k == Fingerprint(messages))
  }

  lemma NoteIs(ix: Index, messages: seq<Message>, p: Id, now: int)
    ensures Noted(ix, messages, NoteTranscript(ix, messages, p, now))
  {
    hide PutEach, SuffixKeys, WindowKeys, Fingerprint, RootFingerprint;
    PutEachKeys(ix.suffixes, SuffixKeys(messages), p, now);
    PutEachKeys(ix.windows, WindowKeys(messages), p, now);
  }

  lemma {:induction false} KnowsAfter(ix: Index, asked: Index, next: Index, p: Id, turns: seq<Exchange>)
    requires turns != [] && Knows(ix, p, turns[..|turns| - 1]) && Sole(next, p)
    requires Noted(ix, Asked(turns), asked) && Noted(asked, Said(turns), next)
    ensures Knows(next, p, turns)
  {
    hide Said, Asked, Sole, SuffixKeys, WindowKeys, Fingerprint;
  }

  lemma {:induction false} SameTables(a: Index, b: Index, p: Id, turns: seq<Exchange>)
    requires a.transcripts == b.transcripts && a.suffixes == b.suffixes && a.windows == b.windows && a.roots == b.roots
    requires Knows(a, p, turns)
    ensures Knows(b, p, turns)
  {
    hide SuffixRecorded, WindowRecorded, TranscriptRecorded;
  }

  /** A recorded turn: mid is the index just pruned. */
  ghost predicate RecordsTurn(mid: Index, plan: ContextPlan, turns: seq<Exchange>) {
    turns != [] && RequestOf(mid, plan) == Asked(turns) && TranscriptOf(mid, plan) == Said(turns)
  }

  lemma {:induction false} KnowsNext(mid: Index, plan: ContextPlan, now: int, turns: seq<Exchange>)
    requires RecordsTurn(mid, plan, turns) && Knows(mid, plan.provider, turns[..|turns| - 1])
    ensures Knows(Remembered(mid, plan, now), plan.provider, turns)
  {
    hide NoteTranscript, Remembered, RequestOf, TranscriptOf, Said, Sole, Fingerprint;
    hide SuffixRecorded, WindowRecorded, TranscriptRecorded, SuffixKeys, WindowKeys;
    var p := plan.provider;
    var bound, asked, next := RememberedTables(mid, plan, now);
    SameTables(mid, bound, p, turns[..|turns| - 1]);
    NoteIs(bound, Asked(turns), p, now);
    NoteIs(asked, Said(turns), p, now);
    NoteSole(bound, Asked(turns), p, now);
    NoteSole(asked, Said(turns), p, now);
    KnowsAfter(bound, asked, next, p, turns);
    SameTables(next, Remembered(mid, plan, now), p, turns);
  }

  /** One more turn. */
  function NextTurns(turns: seq<Exchange>, plan: ContextPlan, at: int): seq<Exchange>
    requires plan.requestMessages != []
  {
    turns + [Exchange(plan.requestMessages[|plan.requestMessages| - 1], plan.responseText, at)]
  }

  lemma {:induction false} TurnRecorded(ix: Index, mid: Index, plan: ContextPlan, up: Upstream, now: int,
                                        turns: seq<Exchange>)
    requires Speaks(plan.provider, Remember(plan, up), turns) && RetainedOf(ix, plan.provider) == Said(turns)
    requires PruneStep(ix, now, mid)
    ensures RecordsTurn(mid, plan, NextTurns(turns, plan, now))
    ensures NextTurns(turns, plan, now)[..|turns|] == turns
  {
    hide PruneStep, RequestOf, TranscriptOf, Memorable, Usable, RetainedOf, Said, Asked, Fingerprint;
    var user := plan.requestMessages[|plan.requestMessages| - 1];
    PruneRetains(ix, now, mid, plan.provider);
    RequestStands(mid, plan, Said(turns), user);
    NextSaid(turns, Exchange(user, plan.responseText, now));
  }

  lemma {:induction false} NextSaid(turns: seq<Exchange>, turn: Exchange)
    ensures (turns + [turn])[..|turns|] == turns
    ensures Asked(turns + [turn]) == Said(turns) + [turn.user]
    ensures Said(turns + [turn]) == Said(turns) + [turn.user] + [Assistant(turn.answer)]
  {
    assert (turns + [turn])[..|turns|] == turns;
    SnocTwo(Said(turns), turn.user, Assistant(turn.answer));
  }

  lemma {:induction false} FollowsRemember(ix: Index, plan: ContextPlan, up: Upstream, now: int, next: Index,
                                           turns: seq<Exchange>)
    requires Follows(ix, plan.provider, turns) && Speaks(plan.provider, Remember(plan, up), turns)
    requires RememberStep(ix, plan, up, now, next)
    ensures Follows(next, plan.provider, NextTurns(turns, plan, now))
  {
    hide Knows, Inv, PruneStep, Remembered, RequestOf, TranscriptOf, Said, Usable, Fingerprint;
    var mid :| PruneStep(ix, now, mid) && next == Remembered(mid, plan, now);
    InvPrune(ix, now, mid);
    InvRemembered(mid, plan, now);
    PruneFewer(ix, now, mid);
    KnowsFewer(ix, mid, plan.provider, turns);
    TurnRecorded(ix, mid, plan, up, now, turns);
    KnowsNext(mid, plan, now, NextTurns(turns, plan, now));
    RememberedIsExact(mid, plan, now);
  }

  lemma {:induction false} FollowsLookup(ix: Index, op: Op, now: int, p: Id, turns: seq<Exchange>)
    requires Follows(ix, p, turns) && LooksUp(op)
    ensures Follows(Lookup(ix, op, now).1, p, turns)
  {
    hide Knows, Inv, Lookup, Said, Fingerprint;
    InvLookup(ix, op, now);
    LookupFewer(ix, op, now);
    KnowsFewer(ix, Lookup(ix, op, now).1, p, turns);
  }

  lemma {:induction false} FollowsBridge(ix: Index, q: Id, signature: Signature, now: int, p: Id,
                                         turns: seq<Exchange>)
    requires Follows(ix, p, turns)
    ensures Follows(RememberBridge(ix, q, signature, now), p, turns)
  {
    hide Inv, Said, Fingerprint, SuffixRecorded, WindowRecorded, TranscriptRecorded;
    InvStep(ix, BridgeRemember(q, signature), now, RememberBridge(ix, q, signature, now));
  }

  lemma {:induction false} TurnsStep(ops: seq<Op>, times: seq<int>, n: nat)
    requires |times| == |ops| && n < |ops|
    ensures TurnsOf(ops[..n + 1], times[..n + 1]) == TurnsOf(ops[..n], times[..n]) + TurnAt(ops[n], times[n])
  {
    assert ops[..n + 1][..n] == ops[..n] && times[..n + 1][..n] == times[..n];
  }

  lemma {:induction false} FollowsStep(ix: Index, op: Op, now: int, next: Index, p: Id, turns: seq<Exchange>)
    requires Follows(ix, p, turns) && Speaks(p, op, turns) && Step(ix, op, now, next)
    ensures Follows(next, p, turns + TurnAt(op, now))
  {
    hide Follows, RememberStep, Lookup;
    assert turns + [] == turns;
    match op {
      case Remember(plan, up) => FollowsRemember(ix, plan, up, now, next, turns);
      case BridgeRemember(q, signature) => FollowsBridge(ix, q, signature, now, p, turns);
      case ForgetProvider(_) =>
      case Recover =>
      case _ => FollowsLookup(ix, op, now, p, turns);
    }
  }

  lemma {:induction false} EmptyFollows(p: Id)
    ensures Follows(EMPTY_INDEX, p, [])
  {
  }

  /** The index follows the conversation through any such run, pruned at every turn. */
  lemma {:induction false} RunFollows(p: Id, ops: seq<Op>, times: seq<int>, states: seq<Index>, n: nat)
    requires TurnRun(p, ops, times, states) && n <= |ops|
    ensures Follows(states[n], p, TurnsOf(ops[..n], times[..n]))
  {
    hide Follows, Step, Speaks;
    if n == 0 {
      EmptyFollows(p);
    } else {
      RunFollows(p, ops, times, states, n - 1);
      TurnsStep(ops, times, n - 1);
      FollowsStep(states[n - 1], ops[n - 1], times[n - 1], states[n], p, TurnsOf(ops[..n - 1], times[..n - 1]));
    }
  }

  lemma {:induction false} TurnsUsable(p: Id, ops: seq<Op>, times: seq<int>, states: seq<Index>, n: nat)
    requires TurnRun(p, ops, times, states) && n <= |ops|
    ensures AllUsable(TurnsOf(ops[..n], times[..n]))
  {
    hide Step, Usable, Said, Memorable;
    if n == 0 {
    } else {
      TurnsUsable(p, ops, times, states, n - 1);
      TurnsStep(ops, times, n - 1);
      assert Speaks(p, ops[n - 1], TurnsOf(ops[..n - 1], times[..n - 1]));
    }
  }

  // ---- Going back to an earlier answer ----

  /** The condition on what was said: two or more user messages are repeated, or one
      exchange that was said again later. */
  predicate GoingBackResumes(turns: seq<Exchange>, m: nat) {
    m >= 2 || (m == 1 && turns != [] && SayAgain(turns, turns[0]))
  }

  /** The condition on the tables: the suffix or the window of the repeated messages still
      has an entry in use. */
  predicate EntryLives(ix: Index, said: seq<Message>, now: int) {
    (|said| >= 2 && Live(ix.suffixes, Fingerprint(said), now)) || Live(ix.windows, WindowFingerprint(said, 2, 4), now)
  }

  lemma {:induction false} Rolled(ix: Index, p: Id, turns: seq<Exchange>, prefix: seq<Message>)
    requires Follows(ix, p, turns) && turns != [] && prefix <= Said(turns) && |prefix| < |Said(turns)|
    ensures RollsBack(ix, prefix, p)
  {
    hide Inv, Knows, Said;
    NormalizedTake(Said(turns), |prefix|);
    assert Said(turns)[..|prefix|] == prefix;
    assert |Normalized(Said(turns))| == |Said(turns)|;
  }

  /** A turn after the m-th answer repeats the first m exchanges. */
  lemma {:induction false} GoesBack(ix: Index, p: Id, turns: seq<Exchange>, m: nat, turn: Message)
    requires Follows(ix, p, turns) && AllUsable(turns) && Usable(turn) && 1 <= m < |turns|
    ensures var messages := Said(turns[..m]) + [turn];
      && ToolResultUser(messages) == -1 && RepeatsHistory(messages) && Repeated(messages) == Said(turns[..m])
      && RollsBack(ix, Repeated(messages), p)
  {
    hide Said, Follows, RollsBack, ToolResultUser;
    var said := Said(turns[..m]);
    var messages := said + [turn];
    UserEndsTurn(messages);
    assert messages[..|messages| - 1] == said;
    SaidTurns(turns[..m]);
    SaidTurns(turns);
    SaidBegins(turns, m);
    Rolled(ix, p, turns, said);
  }

  /** In an index that knows only p, an entry in use names p. */
  lemma {:induction false} LivesNames(ix: Index, p: Id, turns: seq<Exchange>, messages: seq<Message>, now: int)
    requires Follows(ix, p, turns)
    ensures SuffixNames(ix, messages, p, now) || WindowNames(ix, messages, p, now) <==> EntryLives(ix, messages, now)
    ensures TranscriptNames(ix, messages, p, now)
      <==> messages != [] && Live(ix.transcripts, Fingerprint(messages), now)
  {
    hide Said, SuffixRecorded, WindowRecorded, TranscriptRecorded, Fingerprint, WindowFingerprint;
    InvTables(ix);
    hide Inv;
  }

  /** Only recorded entries can be in use. */
  lemma {:induction false} LivesRecorded(ix: Index, p: Id, turns: seq<Exchange>, m: nat, now: int)
    requires Follows(ix, p, turns) && AllUsable(turns) && m < |turns|
    ensures EntryLives(ix, Said(turns[..m]), now) ==> GoingBackResumes(turns, m)
  {
    hide Said, SuffixRecorded, WindowRecorded, TranscriptRecorded, Fingerprint, WindowFingerprint, SayAgain;
    InvTables(ix);
    hide Inv;
    WindowOfTurns(turns, m);
    SaidTurns(turns[..m]);
    if m == 1 {
      SaidFirst(turns);
      FirstRecorded(turns, turns[0]);
    }
  }

  /** A first message is no one's history. */
  lemma FirstMessageStarts(ix: Index, up: Upstream, conversationID: string, turn: Message, now: int, drawn: Id)
    requires Usable(turn) && CanonicalId(conversationID) == NoId
    ensures !PlanRequest(ix, up, Request(conversationID, [turn]), now, drawn).0.autoContext
  {
    hide CanonicalId, Usable;
  }

  /** A conversation of any number of turns, recorded in any run; the client goes back to
      the m-th answer and says something else, with or without a conversation_id (a first
      message of its own has none): it is put into the conversation that has moved on
      exactly when the suffix or the window of what it repeats is still in use, which takes
      GoingBackResumes. */
  lemma {:induction false} GoingBackIff(p: Id, ops: seq<Op>, times: seq<int>, states: seq<Index>, m: nat,
                                        turn: Message, up: Upstream, now: int, drawn: Id, conversationID: string)
    requires p != NoId && Ready(up, p) && TurnRun(p, ops, times, states) && Usable(turn)
    requires m < |TurnsOf(ops, times)| && (m == 0 ==> CanonicalId(conversationID) == NoId)
    ensures var (ix, turns) := (states[|ops|], TurnsOf(ops, times));
      var plan := PlanRequest(ix, up, Request(conversationID, Said(turns[..m]) + [turn]), now, drawn).0;
      && (Resumes(plan, p) <==> EntryLives(ix, Said(turns[..m]), now))
      && (Resumes(plan, p) ==> GoingBackResumes(turns, m))
  {
    hide Said, Follows, SuffixNames, WindowNames, TranscriptNames, Inv, RollsBack, TurnRun, EntryLives;
    hide PlanRequest, Ready, Sole, GoingBackResumes, RepeatsHistory, CanonicalId, TurnsOf;
    RunEnds(p, ops, times, states);
    var ix, turns := states[|ops|], TurnsOf(ops, times);
    LivesNames(ix, p, turns, Said(turns[..m]), now);
    LivesRecorded(ix, p, turns, m, now);
    FollowsFacts(ix, p, turns);
    var messages := Said(turns[..m]) + [turn];
    if m == 0 {
      SaidTurns(turns[..0]);
      assert messages == [turn];
      FirstMessageStarts(ix, up, conversationID, turn, now, drawn);
      NothingGoesBack(turns);
    } else {
      GoesBack(ix, p, turns, m, turn);
      assert messages[..|messages| - 1] == Said(turns[..m]);
      RollbackAloneIff(ix, up, Request(conversationID, messages), now, drawn, p);
    }
  }

  lemma NothingGoesBack(turns: seq<Exchange>)
    ensures !GoingBackResumes(turns, 0)
  {
  }

  lemma FollowsFacts(ix: Index, p: Id, turns: seq<Exchange>)
    requires Follows(ix, p, turns)
    ensures Inv(ix) && Sole(ix, p)
  {
  }

  lemma {:induction false} RunEnds(p: Id, ops: seq<Op>, times: seq<int>, states: seq<Index>)
    requires TurnRun(p, ops, times, states)
    ensures |times| == |ops| && |states| == |ops| + 1
    ensures Follows(states[|ops|], p, TurnsOf(ops, times)) && AllUsable(TurnsOf(ops, times))
  {
    hide Follows, Step, Speaks;
    RunFollows(p, ops, times, states, |ops|);
    TurnsUsable(p, ops, times, states, |ops|);
    assert ops[..|ops|] == ops && times[..|ops|] == times;
  }

  // ---- While nothing expires and nothing is evicted ----

  ghost predicate Since<K>(t: Table<K, Id>, start: int) {
    forall k :: k in t.at ==> t.at[k] >= start
  }

  ghost predicate AllSince(ix: Index, start: int) {
    Since(ix.transcripts, start) && Since(ix.suffixes, start) && Since(ix.windows, start)
  }

  /** Everything happens within one lifetime. */
  ghost predicate Timely(times: seq<int>, start: int) {
    forall i :: 0 <= i < |times| ==> start <= times[i] <= start + TRANSCRIPT_CONTEXT_TTL
  }

  /** So many turns fit under the cap: n turns record at most (2n - 1)(n - 1) suffixes, 3n
      windows and 2n transcripts, and are pruned before the last is recorded. */
  const SUFFIX_TURNS: nat := 24
  const WINDOW_TURNS: nat := 334
  const TRANSCRIPT_TURNS: nat := 501

  function SuffixRoom(n: nat): nat {
    if n == 0 then 0 else (2 * n - 1) * (n - 1)
  }

  lemma RoomStep(n: nat)
    requires n >= 1
    ensures SuffixRoom(n) == SuffixRoom(n - 1) + if n == 1 then 0 else 4 * n - 5
  {
    if n >= 2 {
      assert (2 * n - 1) * (n - 1) == (2 * (n - 1) - 1) * (n - 2) + 4 * n - 5;
    }
  }

  lemma {:induction false} RoomFits(n: nat)
    requires n < SUFFIX_TURNS
    ensures SuffixRoom(n) <= MAX_TRANSCRIPT_CONTEXT_ENTRIES
  {
    if n >= 1 {
      assert (45 - (2 * n - 1)) * (n - 1) >= 0;
      assert (2 * n - 1) * (n - 1) <= 45 * (n - 1);
    }
  }

  ghost predicate SuffixesFull(t: Table<Key, Id>, turns: seq<Exchange>) {
    (forall k :: SuffixRecorded(turns, k) ==> k in t.ctx) && |t.ctx| <= SuffixRoom(|turns|)
  }

  ghost predicate WindowsFull(t: Table<WindowKey, Id>, turns: seq<Exchange>) {
    (forall k :: WindowRecorded(turns, k) ==> k in t.ctx) && |t.ctx| <= 3 * |turns|
  }

  ghost predicate TranscriptsFull(t: Table<Key, Id>, turns: seq<Exchange>) {
    (forall k :: TranscriptRecorded(turns, k) ==> k in t.ctx) && |t.ctx| <= 2 * |turns|
  }

  /** While they are few enough, everything recorded is still there. */
  ghost predicate Full(ix: Index, turns: seq<Exchange>, start: int) {
    && AllSince(ix, start)
    && (|turns| <= SUFFIX_TURNS ==> SuffixesFull(ix.suffixes, turns))
    && (|turns| <= WINDOW_TURNS ==> WindowsFull(ix.windows, turns))
    && (|turns| <= TRANSCRIPT_TURNS ==> TranscriptsFull(ix.transcripts, turns))
  }

  /** A table in which nothing is stale is only pruned above the cap. */
  lemma PruneIdle<K>(t: Table<K, Id>, next: Table<K, Id>, now: int, start: int)
    requires Synced(t) && Pruned(t, next, now, TRANSCRIPT_CONTEXT_TTL, MAX_TRANSCRIPT_CONTEXT_ENTRIES)
    requires Since(t, start) && now <= start + TRANSCRIPT_CONTEXT_TTL
    ensures Since(next, start)
    ensures |t.ctx| <= MAX_TRANSCRIPT_CONTEXT_ENTRIES ==> next == t
  {
    assert Stale(t.at, now, TRANSCRIPT_CONTEXT_TTL) == {};
    DropNone(t);
    if |t.ctx| <= MAX_TRANSCRIPT_CONTEXT_ENTRIES {
      CapIdle(t, next, MAX_TRANSCRIPT_CONTEXT_ENTRIES);
    }
  }

  /** Pruned before the next turn. */
  ghost predicate StillFull(mid: Index, turns: seq<Exchange>, start: int) {
    && AllSince(mid, start)
    && (|turns| < SUFFIX_TURNS ==> SuffixesFull(mid.suffixes, turns))
    && (|turns| < WINDOW_TURNS ==> WindowsFull(mid.windows, turns))
    && (|turns| < TRANSCRIPT_TURNS ==> TranscriptsFull(mid.transcripts, turns))
  }

  lemma {:induction false} FullPruned(ix: Index, now: int, mid: Index, turns: seq<Exchange>, start: int)
    requires Inv(ix) && Full(ix, turns, start) && PruneStep(ix, now, mid) && now <= start + TRANSCRIPT_CONTEXT_TTL
    ensures StillFull(mid, turns, start)
  {
    InvTables(ix);
    hide Inv, Capped, Expire, Orphaned, Since, SuffixRecorded, WindowRecorded, TranscriptRecorded, Synced;
    PruneIdle(ix.suffixes, mid.suffixes, now, start);
    PruneIdle(ix.windows, mid.windows, now, start);
    PruneIdle(ix.transcripts, mid.transcripts, now, start);
    if |turns| < SUFFIX_TURNS {
      RoomFits(|turns|);
    }
  }

  lemma {:induction false} PutEachSince<K>(t: Table<K, Id>, keys: seq<K>, p: Id, now: int, start: int)
    requires Since(t, start) && now >= start
    ensures Since(PutEach(t, keys, p, now), start)
  {
    if keys == [] {
    } else {
      PutEachSince(t, keys[..|keys| - 1], p, now, start);
    }
  }

  lemma NoteSince(ix: Index, messages: seq<Message>, p: Id, now: int, start: int)
    requires AllSince(ix, start) && now >= start
    ensures AllSince(NoteTranscript(ix, messages, p, now), start)
  {
    hide PutEach, SuffixKeys, WindowKeys, Fingerprint, RootFingerprint;
    PutEachSince(ix.suffixes, SuffixKeys(messages), p, now, start);
    PutEachSince(ix.windows, WindowKeys(messages), p, now, start);
  }

  lemma PutSize<K, V>(m: map<K, V>, k: K, v: V)
    ensures |m[k := v]| <= |m| + 1 && (k in m ==> |m[k := v]| == |m|)
  {
    assert m[k := v].Keys == m.Keys + {k};
    assert |m[k := v].Keys| == |m[k := v]| && |m.Keys| == |m|;
  }

  lemma {:induction false} PutEachSize<K>(t: Table<K, Id>, keys: seq<K>, p: Id, now: int)
    ensures |PutEach(t, keys, p, now).ctx| <= |t.ctx| + |keys|
    ensures (forall i :: 0 <= i < |keys| ==> keys[i] in t.ctx) ==> |PutEach(t, keys, p, now).ctx| == |t.ctx|
  {
    if keys == [] {
    } else {
      var n := |keys| - 1;
      PutEachSize(t, keys[..n], p, now);
      PutEachKeys(t, keys[..n], p, now);
      PutSize(PutEach(t, keys[..n], p, now).ctx, keys[n], p);
    }
  }

  lemma {:induction false} SaidLength(turns: seq<Exchange>)
    ensures |Said(turns)| == 2 * |turns|
    ensures turns != [] ==> |Asked(turns)| == 2 * |turns| - 1
  {
    if turns == [] {
    } else {
      SaidLength(turns[..|turns| - 1]);
    }
  }

  lemma SuffixCount(messages: seq<Message>)
    ensures |SuffixKeys(messages)| == if |messages| < 4 then 0 else |messages| - 2
  {
  }

  lemma {:induction false} SuffixesNext(t: Table<Key, Id>, p: Id, now: int, turns: seq<Exchange>)
    requires turns != [] && SuffixesFull(t, turns[..|turns| - 1])
    ensures SuffixesFull(PutEach(PutEach(t, SuffixKeys(Asked(turns)), p, now), SuffixKeys(Said(turns)), p, now), turns)
  {
    hide Said, Asked, SuffixKeys, PutEach, SuffixRoom;
    var asked := PutEach(t, SuffixKeys(Asked(turns)), p, now);
    PutEachKeys(t, SuffixKeys(Asked(turns)), p, now);
    PutEachKeys(asked, SuffixKeys(Said(turns)), p, now);
    SuffixesFit(t, p, now, turns);
  }

  lemma {:induction false} SuffixesFit(t: Table<Key, Id>, p: Id, now: int, turns: seq<Exchange>)
    requires turns != [] && |t.ctx| <= SuffixRoom(|turns| - 1)
    ensures |PutEach(PutEach(t, SuffixKeys(Asked(turns)), p, now), SuffixKeys(Said(turns)), p, now).ctx|
         <= SuffixRoom(|turns|)
  {
    hide Said, Asked, SuffixKeys, PutEach, SuffixRoom;
    PutEachSize(t, SuffixKeys(Asked(turns)), p, now);
    PutEachSize(PutEach(t, SuffixKeys(Asked(turns)), p, now), SuffixKeys(Said(turns)), p, now);
    SaidLength(turns);
    SuffixCount(Asked(turns));
    SuffixCount(Said(turns));
    RoomStep(|turns|);
  }

  /** An answer adds no window. */
  lemma {:induction false} AnswerAddsNoWindow(turns: seq<Exchange>)
    requires turns != []
    ensures WindowKeys(Said(turns)) == WindowKeys(Asked(turns)) && |WindowKeys(Asked(turns))| <= 3
  {
    var last := turns[|turns| - 1];
    AssistantIsNoUser(last.answer);
    OneMore(Asked(turns), Assistant(last.answer));
    assert UserTurns(Asked(turns)) + [] == UserTurns(Asked(turns));
    SameWindows(Said(turns), Asked(turns), 4);
    FewWindows(Asked(turns), 4);
  }

  lemma {:induction false} SameWindows(a: seq<Message>, b: seq<Message>, size: nat)
    requires UserTurns(a) == UserTurns(b)
    ensures WindowKeysUpTo(a, size) == WindowKeysUpTo(b, size)
  {
    hide UserTurns;
    if size < 2 {
    } else {
      SameWindows(a, b, size - 1);
    }
  }

  lemma {:induction false} FewWindows(messages: seq<Message>, size: nat)
    ensures |WindowKeysUpTo(messages, size)| <= if size < 2 then 0 else size - 1
  {
    hide WindowFingerprint;
    if size < 2 {
    } else {
      FewWindows(messages, size - 1);
    }
  }

  lemma {:induction false} WindowsNext(t: Table<WindowKey, Id>, p: Id, now: int, turns: seq<Exchange>)
    requires turns != [] && WindowsFull(t, turns[..|turns| - 1])
    ensures WindowsFull(PutEach(PutEach(t, WindowKeys(Asked(turns)), p, now), WindowKeys(Said(turns)), p, now), turns)
  {
    hide Said, Asked, WindowKeys, PutEach;
    var asked := PutEach(t, WindowKeys(Asked(turns)), p, now);
    AnswerAddsNoWindow(turns);
    PutEachKeys(t, WindowKeys(Asked(turns)), p, now);
    PutEachKeys(asked, WindowKeys(Said(turns)), p, now);
    PutEachSize(t, WindowKeys(Asked(turns)), p, now);
    PutEachSize(asked, WindowKeys(Said(turns)), p, now);
  }

  lemma {:induction false} TranscriptsNext(t: Table<Key, Id>, p: Id, now: int, turns: seq<Exchange>)
    requires turns != [] && TranscriptsFull(t, turns[..|turns| - 1])
    ensures TranscriptsFull(Put(Put(t, Fingerprint(Asked(turns)), p, now), Fingerprint(Said(turns)), p, now), turns)
  {
    hide Said, Asked, Fingerprint;
    PutSize(t.ctx, Fingerprint(Asked(turns)), p);
    PutSize(t.ctx[Fingerprint(Asked(turns)) := p], Fingerprint(Said(turns)), p);
  }

  lemma {:induction false} FullNext(mid: Index, plan: ContextPlan, now: int, turns: seq<Exchange>, start: int)
    requires RecordsTurn(mid, plan, turns) && StillFull(mid, turns[..|turns| - 1], start) && now >= start
    ensures Full(Remembered(mid, plan, now), turns, start)
  {
    hide Remembered, RequestOf, TranscriptOf, Said, Fingerprint, RootFingerprint, Since, PutEach;
    hide SuffixRecorded, WindowRecorded, TranscriptRecorded, SuffixKeys, WindowKeys;
    hide SuffixesFull, WindowsFull, TranscriptsFull;
    var p, front := plan.provider, turns[..|turns| - 1];
    var bound, asked, next := RememberedTables(mid, plan, now);
    NoteSince(bound, Asked(turns), p, now, start);
    NoteSince(asked, Said(turns), p, now, start);
    if |turns| <= SUFFIX_TURNS {
      SuffixesNext(mid.suffixes, p, now, turns);
    }
    if |turns| <= WINDOW_TURNS {
      WindowsNext(mid.windows, p, now, turns);
    }
    if |turns| <= TRANSCRIPT_TURNS {
      TranscriptsNext(mid.transcripts, p, now, turns);
    }
  }

  lemma {:induction false} FullRemember(ix: Index, plan: ContextPlan, up: Upstream, now: int, next: Index,
                                        turns: seq<Exchange>, start: int)
    requires Follows(ix, plan.provider, turns) && Speaks(plan.provider, Remember(plan, up), turns)
    requires Full(ix, turns, start) && start <= now <= start + TRANSCRIPT_CONTEXT_TTL
    requires RememberStep(ix, plan, up, now, next)
    ensures Full(next, NextTurns(turns, plan, now), start)
  {
    hide Knows, Inv, PruneStep, Remembered, RequestOf, TranscriptOf, Said, Usable, Fingerprint, Full, StillFull;
    var mid :| PruneStep(ix, now, mid) && next == Remembered(mid, plan, now);
    FullPruned(ix, now, mid, turns, start);
    TurnRecorded(ix, mid, plan, up, now, turns);
    FullNext(mid, plan, now, NextTurns(turns, plan, now), start);
  }

  /** A lookup within the lifetime only touches. */
  lemma LookedUpSince<K>(t: Table<K, Id>, k: K, now: int, start: int)
    requires Since(t, start) && start <= now <= start + TRANSCRIPT_CONTEXT_TTL
    ensures !IsStale(t.at, k, now) && Since(Touch(t, k, now), start) && Touch(t, k, now).ctx == t.ctx
  {
  }

  /** The tables a rolled-back request may be found in have the same entries. */
  ghost predicate SameEntries(ix: Index, next: Index) {
    && next.transcripts.ctx == ix.transcripts.ctx && next.suffixes.ctx == ix.suffixes.ctx
    && next.windows.ctx == ix.windows.ctx
  }

  lemma LookupTouches(ix: Index, op: Op, now: int, start: int)
    requires LooksUp(op) && AllSince(ix, start) && start <= now <= start + TRANSCRIPT_CONTEXT_TTL
    ensures var next := Lookup(ix, op, now).1;
      AllSince(next, start) && SameEntries(ix, next)
  {
    hide Since, Fingerprint, WindowFingerprint, RootFingerprint, Ready, IsStale, Find, Drop, Touch;
    match op {
      case Exact(messages, up) => LookedUpSince(ix.transcripts, Fingerprint(messages), now, start);
      case Any(messages, up) => LookedUpSince(ix.transcripts, Fingerprint(messages), now, start);
      case Suffix(messages, up) => LookedUpSince(ix.suffixes, Fingerprint(messages), now, start);
      case Window(messages, up) => LookedUpSince(ix.windows, WindowFingerprint(messages, 2, 4), now, start);
      case Root(messages, up) =>
      case Explicit(client, up) =>
    }
  }

  lemma {:induction false} FullSame(ix: Index, next: Index, turns: seq<Exchange>, start: int)
    requires Full(ix, turns, start) && AllSince(next, start) && SameEntries(ix, next)
    ensures Full(next, turns, start)
  {
    hide SuffixRecorded, WindowRecorded, TranscriptRecorded, SuffixRoom, Since;
  }

  lemma {:induction false} FullStep(ix: Index, op: Op, now: int, next: Index, p: Id, turns: seq<Exchange>, start: int)
    requires Follows(ix, p, turns) && Speaks(p, op, turns) && Step(ix, op, now, next)
    requires Full(ix, turns, start) && start <= now <= start + TRANSCRIPT_CONTEXT_TTL
    ensures Full(next, turns + TurnAt(op, now), start)
  {
    hide Follows, RememberStep, Lookup, Since, SuffixesFull, WindowsFull, TranscriptsFull;
    assert turns + [] == turns;
    match op {
      case Remember(plan, up) => FullRemember(ix, plan, up, now, next, turns, start);
      case BridgeRemember(q, signature) => FullSame(ix, next, turns, start);
      case ForgetProvider(_) =>
      case Recover =>
      case _ =>
        LookupTouches(ix, op, now, start);
        FullSame(ix, next, turns, start);
    }
  }

  lemma EmptyFull(start: int)
    ensures Full(EMPTY_INDEX, [], start)
  {
  }

  lemma {:induction false} RunFull(p: Id, ops: seq<Op>, times: seq<int>, states: seq<Index>, start: int, n: nat)
    requires TurnRun(p, ops, times, states) && Timely(times, start) && n <= |ops|
    ensures Full(states[n], TurnsOf(ops[..n], times[..n]), start)
  {
    hide Follows, Step, Speaks, Full;
    if n == 0 {
      EmptyFull(start);
    } else {
      RunFull(p, ops, times, states, start, n - 1);
      RunFollows(p, ops, times, states, n - 1);
      TurnsStep(ops, times, n - 1);
      FullStep(states[n - 1], ops[n - 1], times[n - 1], states[n], p, TurnsOf(ops[..n - 1], times[..n - 1]), start);
    }
  }

  lemma {:induction false} FullLives(ix: Index, p: Id, turns: seq<Exchange>, m: nat, start: int, now: int)
    requires Follows(ix, p, turns) && AllUsable(turns) && Full(ix, turns, start) && m < |turns|
    requires now <= start + TRANSCRIPT_CONTEXT_TTL
    ensures |turns| <= WINDOW_TURNS && m >= 2 ==> EntryLives(ix, Said(turns[..m]), now)
    ensures |turns| <= SUFFIX_TURNS && GoingBackResumes(turns, m) ==> EntryLives(ix, Said(turns[..m]), now)
  {
    hide Said, SuffixRecorded, WindowRecorded, TranscriptRecorded, Fingerprint, WindowFingerprint, SayAgain, Knows;
    hide SuffixRoom;
    InvTables(ix);
    hide Inv;
    WindowOfTurns(turns, m);
    SaidTurns(turns[..m]);
    if m == 1 {
      SaidFirst(turns);
      FirstRecorded(turns, turns[0]);
    }
  }

  /** When everything happens within one lifetime, going back behind two or more user
      messages resumes the conversation for as long as the windows of all turns fit under
      the cap, and up to the turns whose suffixes fit, GoingBackResumes decides. */
  lemma {:induction false} GoingBackInTime(p: Id, ops: seq<Op>, times: seq<int>, states: seq<Index>, start: int,
                                           m: nat, turn: Message, up: Upstream, now: int, drawn: Id,
                                           conversationID: string)
    requires p != NoId && Ready(up, p) && TurnRun(p, ops, times, states) && Usable(turn)
    requires m < |TurnsOf(ops, times)| && (m == 0 ==> CanonicalId(conversationID) == NoId)
    requires Timely(times, start) && now <= start + TRANSCRIPT_CONTEXT_TTL
    ensures var (ix, turns) := (states[|ops|], TurnsOf(ops, times));
      var plan := PlanRequest(ix, up, Request(conversationID, Said(turns[..m]) + [turn]), now, drawn).0;
      && (|turns| <= WINDOW_TURNS && m >= 2 ==> Resumes(plan, p))
      && (|turns| <= SUFFIX_TURNS ==> (Resumes(plan, p) <==> GoingBackResumes(turns, m)))
  {
    hide Said, Follows, TurnRun, EntryLives, PlanRequest, Ready, GoingBackResumes, CanonicalId, TurnsOf, Resumes;
    hide Full, Timely;
    RunEnds(p, ops, times, states);
    RunFullEnds(p, ops, times, states, start);
    FullLives(states[|ops|], p, TurnsOf(ops, times), m, start, now);
    GoingBackIff(p, ops, times, states, m, turn, up, now, drawn, conversationID);
  }

  lemma {:induction false} RunFullEnds(p: Id, ops: seq<Op>, times: seq<int>, states: seq<Index>, start: int)
    requires TurnRun(p, ops, times, states) && Timely(times, start) && |times| == |ops| && |states| == |ops| + 1
    ensures Full(states[|ops|], TurnsOf(ops, times), start)
  {
    hide Full, TurnRun, Timely;
    RunFull(p, ops, times, states, start, |ops|);
    assert ops[..|ops|] == ops && times[..|ops|] == times;
  }

  // ---- A tool result for an earlier user message ----

  lemma {:induction false} AskedGoesBack(ix: Index, p: Id, turns: seq<Exchange>, m: nat)
    requires Follows(ix, p, turns) && AllUsable(turns) && m < |turns|
    ensures var main := Said(turns[..m]) + [turns[m].user];
      |main| == 2 * m + 1 && |Said(turns[..m])| == 2 * m && RollsBack(ix, main, p)
  {
    hide Said, Follows, RollsBack;
    SaidTurns(turns[..m]);
    SaidBegins(turns, m);
    SaidTurns(turns);
    Rolled(ix, p, turns, Said(turns[..m]) + [turns[m].user]);
  }

  /** The condition on the tables for the tool result of turn m: an entry for what was said
      before the user message, or for what was said with it, is in use. */
  predicate ToolEntryLives(ix: Index, turns: seq<Exchange>, m: nat, now: int)
    requires m < |turns|
  {
    var base, main := Said(turns[..m]), Said(turns[..m]) + [turns[m].user];
    EntryLives(ix, base, now) || Live(ix.transcripts, Fingerprint(main), now) || EntryLives(ix, main, now)
  }

  /** A tool result for the user message of turn m is put into the conversation that has
      moved on exactly when one of those entries is still in use. */
  lemma {:induction false} ToolResultIff(p: Id, ops: seq<Op>, times: seq<int>, states: seq<Index>, m: nat,
                                         messages: seq<Message>, up: Upstream, now: int, drawn: Id,
                                         conversationID: string)
    requires p != NoId && Ready(up, p) && TurnRun(p, ops, times, states) && m < |TurnsOf(ops, times)|
    requires var turns := TurnsOf(ops, times);
      ToolResultUser(messages) == 2 * m && messages[..2 * m + 1] == Said(turns[..m]) + [turns[m].user]
    ensures var ix := states[|ops|];
      Resumes(PlanRequest(ix, up, Request(conversationID, messages), now, drawn).0, p)
      <==> ToolEntryLives(ix, TurnsOf(ops, times), m, now)
  {
    hide Said, Follows, SuffixNames, WindowNames, TranscriptNames, Inv, RollsBack, TurnRun, EntryLives;
    hide PlanRequest, Ready, Sole, TurnsOf, ToolResultUser, AllUsable, Resumes, Fingerprint, Live;
    RunEnds(p, ops, times, states);
    var ix, turns := states[|ops|], TurnsOf(ops, times);
    var base, main := Said(turns[..m]), Said(turns[..m]) + [turns[m].user];
    AskedGoesBack(ix, p, turns, m);
    LivesNames(ix, p, turns, base, now);
    LivesNames(ix, p, turns, main, now);
    FollowsFacts(ix, p, turns);
    assert messages[..2 * m] == messages[..2 * m + 1][..2 * m] == base;
    assert RepeatsHistory(messages) && Repeated(messages) == main;
    RollbackAloneIff(ix, up, Request(conversationID, messages), now, drawn, p);
  }

  lemma {:induction false} AskedLives(ix: Index, p: Id, turns: seq<Exchange>, m: nat, start: int, now: int)
    requires Follows(ix, p, turns) && Full(ix, turns, start) && m < |turns| <= TRANSCRIPT_TURNS
    requires now <= start + TRANSCRIPT_CONTEXT_TTL
    ensures ToolEntryLives(ix, turns, m, now)
  {
    hide Said, SuffixRecorded, WindowRecorded, TranscriptRecorded, Fingerprint, WindowFingerprint, Knows, EntryLives;
    InvTables(ix);
    hide Inv;
    AskedRecorded(turns, m);
  }

  /** Within one lifetime, and up to the turns whose transcripts fit under the cap, that is
      always so: the request up to the user message was recorded, and the lookup for it does
      not ask whether the conversation is still there. */
  lemma {:induction false} ToolResultGoesBack(p: Id, ops: seq<Op>, times: seq<int>, states: seq<Index>, start: int,
                                              m: nat, messages: seq<Message>, up: Upstream, now: int, drawn: Id,
                                              conversationID: string)
    requires p != NoId && Ready(up, p) && TurnRun(p, ops, times, states)
    requires m < |TurnsOf(ops, times)| <= TRANSCRIPT_TURNS
    requires var turns := TurnsOf(ops, times);
      ToolResultUser(messages) == 2 * m && messages[..2 * m + 1] == Said(turns[..m]) + [turns[m].user]
    requires Timely(times, start) && now <= start + TRANSCRIPT_CONTEXT_TTL
    ensures Resumes(PlanRequest(states[|ops|], up, Request(conversationID, messages), now, drawn).0, p)
  {
    hide Said, Follows, TurnRun, PlanRequest, Ready, TurnsOf, Resumes, Full, Timely, ToolResultUser, ToolEntryLives;
    RunEnds(p, ops, times, states);
    RunFullEnds(p, ops, times, states, start);
    AskedLives(states[|ops|], p, TurnsOf(ops, times), m, start, now);
    ToolResultIff(p, ops, times, states, m, messages, up, now, drawn, conversationID);
  }

  // ---- Longer conversations lose their oldest entries ----

  /** The entries no newer than k's. */
  ghost function Older<K(!new)>(t: Table<K, Id>, k: K): set<K> {
    set j | j in t.ctx && j in t.at && k in t.at && t.at[j] <= t.at[k]
  }

  /** A prune evicts an entry for sure when those no newer fit into what exceeds the cap. */
  lemma EvictedWhenOld<K(!new)>(t: Table<K, Id>, next: Table<K, Id>, now: int, k: K)
    requires Synced(t) && Pruned(t, next, now, TRANSCRIPT_CONTEXT_TTL, MAX_TRANSCRIPT_CONTEXT_ENTRIES)
    requires Stale(t.at, now, TRANSCRIPT_CONTEXT_TTL) == {} && k in t.ctx
    requires |Older(t, k)| + MAX_TRANSCRIPT_CONTEXT_ENTRIES <= |t.ctx|
    ensures k !in next.ctx
  {
    DropNone(t);
    if k in next.ctx {
      var gone := t.ctx.Keys - next.ctx.Keys;
      assert k in Older(t, k) && k !in gone;
      GoneCount(t.ctx, next.ctx);
      SubsetSize(gone, Older(t, k) - {k});
    }
  }

  lemma GoneCount<K, V>(m: map<K, V>, next: map<K, V>)
    requires next.Keys <= m.Keys
    ensures |m.Keys - next.Keys| == |m| - |next|
  {
    assert |m.Keys| == |m| && |next.Keys| == |next|;
    assert m.Keys == next.Keys + (m.Keys - next.Keys);
  }

  lemma {:induction false} SuffixesAfter(mid: Index, plan: ContextPlan, now: int, turns: seq<Exchange>, key: Key)
    requires RecordsTurn(mid, plan, turns)
    requires key !in mid.suffixes.ctx && key !in SuffixKeys(Asked(turns)) && key !in SuffixKeys(Said(turns))
    ensures key !in Remembered(mid, plan, now).suffixes.ctx
  {
    hide Remembered, RequestOf, TranscriptOf, Said, Fingerprint, SuffixKeys, NoteTranscript;
    var bound, asked, next := RememberedTables(mid, plan, now);
    NoteIs(bound, Asked(turns), plan.provider, now);
    NoteIs(asked, Said(turns), plan.provider, now);
  }

  lemma PruneEvicts(ix: Index, now: int, mid: Index, key: Key)
    requires Inv(ix) && PruneStep(ix, now, mid) && Stale(ix.suffixes.at, now, TRANSCRIPT_CONTEXT_TTL) == {}
    requires key in ix.suffixes.ctx ==>
      |Older(ix.suffixes, key)| + MAX_TRANSCRIPT_CONTEXT_ENTRIES <= |ix.suffixes.ctx|
    ensures key !in mid.suffixes.ctx
  {
    hide Capped, Orphaned, Older, Synced, FrontierAgrees, NoBlanks, Stale;
    if key in ix.suffixes.ctx {
      EvictedWhenOld(ix.suffixes, mid.suffixes, now, key);
    } else {
      PruneFewer(ix, now, mid);
    }
  }

  lemma {:induction false} EvictedByTurn(ix: Index, plan: ContextPlan, up: Upstream, now: int, next: Index,
                                         turns: seq<Exchange>)
    requires Follows(ix, plan.provider, turns) && Speaks(plan.provider, Remember(plan, up), turns)
    requires RememberStep(ix, plan, up, now, next) && AllUsable(turns) && turns != []
    requires Stale(ix.suffixes.at, now, TRANSCRIPT_CONTEXT_TTL) == {}
    requires var key := Fingerprint([turns[0].user, Assistant(turns[0].answer)]);
      key in ix.suffixes.ctx ==> |Older(ix.suffixes, key)| + MAX_TRANSCRIPT_CONTEXT_ENTRIES <= |ix.suffixes.ctx|
    requires !SameExchange(NextTurns(turns, plan, now)[|turns|], turns[0])
    ensures Fingerprint([turns[0].user, Assistant(turns[0].answer)]) !in next.suffixes.ctx
  {
    hide Inv, Knows, Remembered, RequestOf, TranscriptOf, Said, Fingerprint, PruneStep, Older, Stale;
    hide SameExchange, SuffixKeys, Memorable;
    var key := Fingerprint([turns[0].user, Assistant(turns[0].answer)]);
    var mid :| PruneStep(ix, now, mid) && next == Remembered(mid, plan, now);
    var all := NextTurns(turns, plan, now);
    PruneEvicts(ix, now, mid, key);
    TurnRecorded(ix, mid, plan, up, now, turns);
    hide Usable;
    FirstRecordedNow(all, turns[0]);
    SuffixesAfter(mid, plan, now, all, key);
  }

  /** So a conversation long enough forgets its first exchange: when the table is over the
      cap by at least the entries no newer than that of the first exchange, and the newest
      turn does not repeat it, going back to the first answer is not resumed any more, even
      if the exchange was said again once. */
  lemma {:induction false} LongRunsForget(p: Id, ops: seq<Op>, times: seq<int>, states: seq<Index>, turn: Message,
                                          up: Upstream, now: int, drawn: Id, conversationID: string)
    requires p != NoId && Ready(up, p) && TurnRun(p, ops, times, states) && Usable(turn)
    requires ops != [] && ops[|ops| - 1].Remember? && |TurnsOf(ops, times)| >= 2
    requires var (n, turns) := (|ops| - 1, TurnsOf(ops, times));
      var (t, key) := (states[n].suffixes, Fingerprint([turns[0].user, Assistant(turns[0].answer)]));
      && Stale(t.at, times[n], TRANSCRIPT_CONTEXT_TTL) == {}
      && (key in t.ctx ==> |Older(t, key)| + MAX_TRANSCRIPT_CONTEXT_ENTRIES <= |t.ctx|)
      && !SameExchange(turns[|turns| - 1], turns[0])
    ensures var turns := TurnsOf(ops, times);
      !Resumes(PlanRequest(states[|ops|], up, Request(conversationID, Said(turns[..1]) + [turn]), now, drawn).0, p)
  {
    hide Follows, PlanRequest, Ready, Resumes, Usable, Stale, Older, SameExchange, Said, Fingerprint, RememberStep;
    var n := |ops| - 1;
    var front, turns := TurnsOf(ops[..n], times[..n]), TurnsOf(ops, times);
    RunFollows(p, ops, times, states, n);
    TurnsUsable(p, ops, times, states, n);
    assert Speaks(p, ops[n], front) && Step(states[n], ops[n], times[n], states[n + 1]);
    assert turns == NextTurns(front, ops[n].plan, times[n]) && turns[0] == front[0];
    EvictedByTurn(states[n], ops[n].plan, ops[n].up, times[n], states[n + 1], front);
    GoingBackIff(p, ops, times, states, 1, turn, up, now, drawn, conversationID);
    RunEnds(p, ops, times, states);
    OnlySuffix(states[|ops|], p, turns, now);
  }

  /** For the first exchange there is only the suffix. */
  lemma {:induction false} OnlySuffix(ix: Index, p: Id, turns: seq<Exchange>, now: int)
    requires Follows(ix, p, turns) && AllUsable(turns) && turns != []
    ensures EntryLives(ix, Said(turns[..1]), now) ==>
      Fingerprint([turns[0].user, Assistant(turns[0].answer)]) in ix.suffixes.ctx
  {
    hide Said, Knows, Fingerprint, WindowFingerprint;
    InvTables(ix);
    hide Inv;
    WindowOfTurns(turns, 1);
    SaidFirst(turns);
  }

  // ---- Such runs exist ----

  lemma {:induction false} SnocRun(ops: seq<Op>, times: seq<int>, states: seq<Index>, op: Op, at: int, next: Index)
    requires Run(ops, times, states) && Step(states[|ops|], op, at, next)
    ensures Run(ops + [op], times + [at], states + [next])
  {
    hide Step;
  }

  lemma {:induction false} SnocTurnRun(p: Id, ops: seq<Op>, times: seq<int>, states: seq<Index>, op: Op, at: int,
                                       next: Index)
    requires TurnRun(p, ops, times, states) && Step(states[|ops|], op, at, next)
    requires Speaks(p, op, TurnsOf(ops, times))
    ensures TurnRun(p, ops + [op], times + [at], states + [next])
    ensures TurnsOf(ops + [op], times + [at]) == TurnsOf(ops, times) + TurnAt(op, at)
  {
    hide Step, Speaks;
    SnocRun(ops, times, states, op, at, next);
    var all, at' := ops + [op], times + [at];
    forall i | 0 <= i < |all|
      ensures Speaks(p, all[i], TurnsOf(all[..i], at'[..i]))
    {
      if i == |ops| {
        assert all[..i] == ops && at'[..i] == times;
      } else {
        assert all[..i] == ops[..i] && at'[..i] == times[..i];
      }
    }
    assert all[..|ops|] == ops && at'[..|ops|] == times;
  }

  /** Any usable messages and answers that are not blank are the turns of such a run. */
  lemma {:induction false} EveryConversationRuns(p: Id, turns: seq<Exchange>, up: Upstream)
    returns (ops: seq<Op>, times: seq<int>, states: seq<Index>)
    requires p != NoId && HasState(up, p) && AllUsable(turns)
    requires forall i :: 0 <= i < |turns| ==> TrimSpace(turns[i].answer) != ""
    ensures TurnRun(p, ops, times, states) && |times| == |ops| && TurnsOf(ops, times) == turns
  {
    hide Usable, Step, TrimSpace, Said, TurnRun, TurnsOf, Follows, Speaks, Memorable;
    if turns == [] {
      ops, times, states := [], [], [EMPTY_INDEX];
      NothingSaid(p);
    } else {
      var n := |turns| - 1;
      ops, times, states := EveryConversationRuns(p, turns[..n], up);
      var last := turns[n];
      var plan := TurnPlan(p, Said(turns[..n]), last);
      RunEnds(p, ops, times, states);
      FollowsFacts(states[|ops|], p, turns[..n]);
      NextSpeaks(p, turns[..n], last, up);
      var next := RememberExists(states[|ops|], plan, up, last.at);
      SnocTurnRun(p, ops, times, states, Remember(plan, up), last.at, next);
      TurnOfPlan(p, turns[..n], last, up);
      ops, times, states := ops + [Remember(plan, up)], times + [last.at], states + [next];
    }
  }

  function TurnPlan(p: Id, said: seq<Message>, turn: Exchange): ContextPlan {
    MainPlan(said + [turn.user], NoId, p).(responseText := turn.answer)
  }

  lemma NothingSaid(p: Id)
    ensures TurnRun(p, [], [], [EMPTY_INDEX]) && TurnsOf([], []) == []
  {
  }

  lemma {:induction false} NextSpeaks(p: Id, turns: seq<Exchange>, turn: Exchange, up: Upstream)
    requires p != NoId && HasState(up, p) && Usable(turn.user) && TrimSpace(turn.answer) != ""
    ensures var plan := TurnPlan(p, Said(turns), turn);
      Memorable(plan, up) && Speaks(p, Remember(plan, up), turns)
  {
    hide Usable, TrimSpace, Said, HasState;
  }

  lemma {:induction false} TurnOfPlan(p: Id, turns: seq<Exchange>, turn: Exchange, up: Upstream)
    ensures TurnAt(Remember(TurnPlan(p, Said(turns), turn), up), turn.at) == [turn]
  {
    hide Said;
  }

  lemma RememberExists(ix: Index, plan: ContextPlan, up: Upstream, now: int) returns (next: Index)
    requires Inv(ix) && Memorable(plan, up)
    ensures Step(ix, Remember(plan, up), now, next)
  {
    hide Inv, PruneStep, Remembered, Memorable;
    var mid := PruneExists(ix, now);
    next := Remembered(mid, plan, now);
  }

  lemma PruneExists(ix: Index, now: int) returns (next: Index)
    requires Inv(ix)
    ensures PruneStep(ix, now, next)
  {
    hide Inv, Capped, ExpireAll, Orphaned, DropFrontier, Synced;
    InvExpireAll(ix, now);
    var e := ExpireAll(ix, now);
    InvSynced(e);
    var t := CapExists(e.transcripts, MAX_TRANSCRIPT_CONTEXT_ENTRIES);
    var r := CapExists(e.retained, MAX_TRANSCRIPT_CONTEXT_ENTRIES);
    var o := CapExists(e.roots, MAX_TRANSCRIPT_CONTEXT_ENTRIES);
    var s := CapExists(e.suffixes, MAX_TRANSCRIPT_CONTEXT_ENTRIES);
    var w := CapExists(e.windows, MAX_TRANSCRIPT_CONTEXT_ENTRIES);
    var orphans := Orphaned(e.frontier.latest, e.transcripts.ctx, e.transcripts.ctx.Keys - t.ctx.Keys);
    next := Index(t, s, w, o, e.explicit, DropFrontier(e.frontier, orphans), r, e.toolBridge);
  }

  lemma InvSynced(ix: Index)
    requires Inv(ix)
    ensures AllSynced(ix)
  {
  }
}
