/** Requests that fall behind a conversation: which lookup answers them, and exactly when
    they are put into a conversation that has moved on (openai_service.go). */
module Rollback {
  import opened Text
  import opened Messages
  import opened Tables
  import opened ContextIndex
  import opened Planner

  // ---- Who answers ----

  /** A table entry in use. */
  predicate Live<K>(t: Table<K, Id>, k: K, now: int) {
    k in t.ctx && !IsStale(t.at, k, now)
  }

  /** A table entry in use that names p. */
  predicate Names<K>(t: Table<K, Id>, k: K, p: Id, now: int) {
    Live(t, k, now) && t.ctx[k] == p
  }

  /** The recorded transcript answers: its provider is ready and has not moved on. */
  predicate ExactAnswers(ix: Index, up: Upstream, messages: seq<Message>, now: int) {
    && messages != [] && Live(ix.transcripts, Fingerprint(messages), now)
    && var p := ix.transcripts.ctx[Fingerprint(messages)];
    Ready(up, p) && (p in ix.frontier.latest ==> ix.frontier.latest[p] == Fingerprint(messages))
  }

  /** The recorded transcript answers, whether or not its provider has moved on. */
  predicate AnyAnswers(ix: Index, up: Upstream, messages: seq<Message>, now: int) {
    && messages != [] && Live(ix.transcripts, Fingerprint(messages), now)
    && Ready(up, ix.transcripts.ctx[Fingerprint(messages)])
  }

  predicate SuffixAnswers(ix: Index, up: Upstream, messages: seq<Message>, now: int) {
    && |messages| >= 2 && Live(ix.suffixes, Fingerprint(messages), now)
    && var p := ix.suffixes.ctx[Fingerprint(messages)];
    Ready(up, p) && p in ix.frontier.latest && ix.frontier.latest[p] != Fingerprint(messages)
  }

  predicate WindowAnswers(ix: Index, up: Upstream, messages: seq<Message>, now: int) {
    var key := WindowFingerprint(messages, 2, 4);
    key != NoWindow && Live(ix.windows, key, now) && Ready(up, ix.windows.ctx[key])
  }

  predicate RootAnswers(ix: Index, up: Upstream, messages: seq<Message>, now: int) {
    var key := RootFingerprint(messages);
    && key != NoKey && Live(ix.roots, key, now)
    && var p := ix.roots.ctx[key];
    Ready(up, p) && (p in ix.frontier.length ==> |messages| >= ix.frontier.length[p])
  }

  function ExactId(ix: Index, up: Upstream, messages: seq<Message>, now: int): Id {
    if ExactAnswers(ix, up, messages, now) then ix.transcripts.ctx[Fingerprint(messages)] else NoId
  }

  function AnyId(ix: Index, up: Upstream, messages: seq<Message>, now: int): Id {
    if AnyAnswers(ix, up, messages, now) then ix.transcripts.ctx[Fingerprint(messages)] else NoId
  }

  function SuffixId(ix: Index, up: Upstream, messages: seq<Message>, now: int): Id {
    if SuffixAnswers(ix, up, messages, now) then ix.suffixes.ctx[Fingerprint(messages)] else NoId
  }

  function WindowId(ix: Index, up: Upstream, messages: seq<Message>, now: int): Id {
    if WindowAnswers(ix, up, messages, now) then ix.windows.ctx[WindowFingerprint(messages, 2, 4)] else NoId
  }

  function RootId(ix: Index, up: Upstream, messages: seq<Message>, now: int): Id {
    if RootAnswers(ix, up, messages, now) then ix.roots.ctx[RootFingerprint(messages)] else NoId
  }

  // ---- A lookup that finds no one drops at most stale entries ----

  ghost predicate ThinTable<K>(t: Table<K, Id>, next: Table<K, Id>, now: int) {
    && (forall k :: k in next.ctx ==>
          k in t.ctx && next.ctx[k] == t.ctx[k] && k in t.at && k in next.at && next.at[k] == t.at[k])
    && forall k :: k in t.ctx ==> IsStale(t.at, k, now) || k in next.ctx
  }

  ghost predicate Thin(ix: Index, next: Index, now: int) {
    && ThinTable(ix.transcripts, next.transcripts, now) && ThinTable(ix.suffixes, next.suffixes, now)
    && ThinTable(ix.windows, next.windows, now) && ThinTable(ix.roots, next.roots, now)
    && next.frontier == ix.frontier && Inv(next)
  }

  lemma ThinLive<K>(t: Table<K, Id>, next: Table<K, Id>, k: K, now: int)
    requires ThinTable(t, next, now) && Synced(t)
    ensures Live(next, k, now) <==> Live(t, k, now)
    ensures Live(t, k, now) ==> k in next.ctx && k in t.ctx && next.ctx[k] == t.ctx[k]
  {
  }

  lemma ThinTrans<K>(a: Table<K, Id>, b: Table<K, Id>, c: Table<K, Id>, now: int)
    requires ThinTable(a, b, now) && ThinTable(b, c, now)
    ensures ThinTable(a, c, now)
  {
  }

  lemma ThinOnward(a: Index, b: Index, c: Index, now: int)
    requires Thin(a, b, now) && Thin(b, c, now)
    ensures Thin(a, c, now)
  {
    ThinTrans(a.transcripts, b.transcripts, c.transcripts, now);
    ThinTrans(a.suffixes, b.suffixes, c.suffixes, now);
    ThinTrans(a.windows, b.windows, c.windows, now);
    ThinTrans(a.roots, b.roots, c.roots, now);
    hide ThinTable, Inv;
  }

  lemma ThinTranscripts(ix: Index, next: Index, up: Upstream, messages: seq<Message>, now: int)
    requires Inv(ix) && Thin(ix, next, now)
    ensures ExactId(next, up, messages, now) == ExactId(ix, up, messages, now)
    ensures AnyId(next, up, messages, now) == AnyId(ix, up, messages, now)
  {
    InvTables(ix);
    ThinLive(ix.transcripts, next.transcripts, Fingerprint(messages), now);
    hide ThinTable, Inv, Live, Ready, Fingerprint, WindowFingerprint, RootFingerprint;
  }

  lemma ThinSuffixes(ix: Index, next: Index, up: Upstream, messages: seq<Message>, now: int)
    requires Inv(ix) && Thin(ix, next, now)
    ensures SuffixId(next, up, messages, now) == SuffixId(ix, up, messages, now)
  {
    InvTables(ix);
    ThinLive(ix.suffixes, next.suffixes, Fingerprint(messages), now);
    hide ThinTable, Inv, Live, Ready, Fingerprint, WindowFingerprint, RootFingerprint;
  }

  lemma ThinWindows(ix: Index, next: Index, up: Upstream, messages: seq<Message>, now: int)
    requires Inv(ix) && Thin(ix, next, now)
    ensures WindowId(next, up, messages, now) == WindowId(ix, up, messages, now)
  {
    InvTables(ix);
    ThinLive(ix.windows, next.windows, WindowFingerprint(messages, 2, 4), now);
    hide ThinTable, Inv, Live, Ready, Fingerprint, WindowFingerprint, RootFingerprint;
  }

  lemma ThinRoots(ix: Index, next: Index, up: Upstream, messages: seq<Message>, now: int)
    requires Inv(ix) && Thin(ix, next, now)
    ensures RootId(next, up, messages, now) == RootId(ix, up, messages, now)
  {
    InvTables(ix);
    ThinLive(ix.roots, next.roots, RootFingerprint(messages), now);
    hide ThinTable, Inv, Live, Ready, Fingerprint, WindowFingerprint, RootFingerprint;
  }

  /** Such an index gives the same answers. */
  lemma ThinAnswers(ix: Index, next: Index, up: Upstream, messages: seq<Message>, now: int)
    requires Inv(ix) && Thin(ix, next, now)
    ensures ExactId(next, up, messages, now) == ExactId(ix, up, messages, now)
    ensures AnyId(next, up, messages, now) == AnyId(ix, up, messages, now)
    ensures SuffixId(next, up, messages, now) == SuffixId(ix, up, messages, now)
    ensures WindowId(next, up, messages, now) == WindowId(ix, up, messages, now)
    ensures RootId(next, up, messages, now) == RootId(ix, up, messages, now)
  {
    hide Inv, Thin, ExactId, AnyId, SuffixId, WindowId, RootId;
    ThinTranscripts(ix, next, up, messages, now);
    ThinSuffixes(ix, next, up, messages, now);
    ThinWindows(ix, next, up, messages, now);
    ThinRoots(ix, next, up, messages, now);
  }

  lemma ThinDrop<K>(t: Table<K, Id>, k: K, now: int)
    requires Synced(t)
    ensures ThinTable(t, t, now)
    ensures IsStale(t.at, k, now) ==> ThinTable(t, Drop(t, {k}), now)
  {
  }

  lemma ThinBy(ix: Index, next: Index, now: int)
    requires Inv(ix) && Inv(next) && next.frontier == ix.frontier
    requires next.transcripts == ix.transcripts || ThinTable(ix.transcripts, next.transcripts, now)
    requires next.suffixes == ix.suffixes || ThinTable(ix.suffixes, next.suffixes, now)
    requires next.windows == ix.windows || ThinTable(ix.windows, next.windows, now)
    requires next.roots == ix.roots || ThinTable(ix.roots, next.roots, now)
    ensures Thin(ix, next, now)
  {
    InvTables(ix);
    ThinDrop(ix.transcripts, NoKey, now);
    ThinDrop(ix.suffixes, NoKey, now);
    ThinDrop(ix.windows, NoWindow, now);
    ThinDrop(ix.roots, NoKey, now);
    hide ThinTable, Inv;
  }

  lemma ExactIs(ix: Index, up: Upstream, messages: seq<Message>, now: int)
    requires Inv(ix)
    ensures var (p, next) := LookupExact(ix, up, messages, now);
      p == ExactId(ix, up, messages, now) && (p == NoId ==> Thin(ix, next, now))
  {
    var (p, next) := LookupExact(ix, up, messages, now);
    InvExact(ix, up, messages, now);
    if p == NoId {
      ThinDrop(ix.transcripts, Fingerprint(messages), now);
      ThinBy(ix, next, now);
    }
    hide Thin, ThinTable;
  }

  lemma AnyIs(ix: Index, up: Upstream, messages: seq<Message>, now: int)
    requires Inv(ix)
    ensures var (p, next) := LookupAny(ix, up, messages, now);
      p == AnyId(ix, up, messages, now) && (p == NoId ==> Thin(ix, next, now))
  {
    var (p, next) := LookupAny(ix, up, messages, now);
    InvAny(ix, up, messages, now);
    if p == NoId {
      ThinDrop(ix.transcripts, Fingerprint(messages), now);
      ThinBy(ix, next, now);
    }
    hide Thin, ThinTable;
  }

  lemma SuffixIs(ix: Index, up: Upstream, messages: seq<Message>, now: int)
    requires Inv(ix)
    ensures var (p, next) := LookupSuffix(ix, up, messages, now);
      p == SuffixId(ix, up, messages, now) && (p == NoId ==> Thin(ix, next, now))
  {
    var (p, next) := LookupSuffix(ix, up, messages, now);
    InvSuffix(ix, up, messages, now);
    if p == NoId {
      ThinDrop(ix.suffixes, Fingerprint(messages), now);
      ThinBy(ix, next, now);
    }
    hide Thin, ThinTable;
  }

  lemma WindowIs(ix: Index, up: Upstream, messages: seq<Message>, now: int)
    requires Inv(ix)
    ensures var (p, next) := LookupWindow(ix, up, messages, now);
      p == WindowId(ix, up, messages, now) && (p == NoId ==> Thin(ix, next, now))
  {
    var (p, next) := LookupWindow(ix, up, messages, now);
    InvWindow(ix, up, messages, now);
    if p == NoId {
      ThinDrop(ix.windows, WindowFingerprint(messages, 2, 4), now);
      ThinBy(ix, next, now);
    }
    hide Thin, ThinTable;
  }

  lemma RootIs(ix: Index, up: Upstream, messages: seq<Message>, now: int)
    requires Inv(ix)
    ensures var (p, next) := LookupRoot(ix, up, messages, now);
      p == RootId(ix, up, messages, now) && (p == NoId ==> Thin(ix, next, now))
  {
    var (p, next) := LookupRoot(ix, up, messages, now);
    InvRoot(ix, up, messages, now);
    if p == NoId {
      ThinDrop(ix.roots, RootFingerprint(messages), now);
      ThinBy(ix, next, now);
    }
    hide Thin, ThinTable;
  }

  function FirstOf(a: Id, b: Id): Id {
    if a != NoId then a else b
  }

  /** The first answer of exact, suffix, window and root. */
  function HistoryId(ix: Index, up: Upstream, prefix: seq<Message>, now: int): Id {
    FirstOf(ExactId(ix, up, prefix, now),
            FirstOf(SuffixId(ix, up, prefix, now), FirstOf(WindowId(ix, up, prefix, now), RootId(ix, up, prefix, now))))
  }

  /** The same for a tool result: without the user message, then with it. */
  function ToolId(ix: Index, up: Upstream, base: seq<Message>, main: seq<Message>, now: int): Id {
    FirstOf(HistoryId(ix, up, base, now),
            FirstOf(AnyId(ix, up, main, now),
                    FirstOf(SuffixId(ix, up, main, now),
                            FirstOf(WindowId(ix, up, main, now), RootId(ix, up, main, now)))))
  }

  /** The last three lookups of a chain. */
  function FindTail(ix: Index, up: Upstream, messages: seq<Message>, now: int): (Id, Index) {
    var suffix := LookupSuffix(ix, up, messages, now);
    if suffix.0 != NoId then suffix
    else
      var window := LookupWindow(suffix.1, up, messages, now);
      if window.0 != NoId then window else LookupRoot(window.1, up, messages, now)
  }

  lemma TailIsFirstHit(ix: Index, up: Upstream, messages: seq<Message>, now: int)
    requires Inv(ix)
    ensures var (p, next) := FindTail(ix, up, messages, now);
      && p == FirstOf(SuffixId(ix, up, messages, now),
                      FirstOf(WindowId(ix, up, messages, now), RootId(ix, up, messages, now)))
      && (p == NoId ==> Thin(ix, next, now))
  {
    hide LookupSuffix, LookupWindow, LookupRoot, SuffixId, WindowId, RootId, Inv;
    SuffixIs(ix, up, messages, now);
    var suffix := LookupSuffix(ix, up, messages, now);
    if suffix.0 == NoId {
      ThinAnswers(ix, suffix.1, up, messages, now);
      WindowIs(suffix.1, up, messages, now);
      var window := LookupWindow(suffix.1, up, messages, now);
      if window.0 == NoId {
        ThinOnward(ix, suffix.1, window.1, now);
        ThinAnswers(ix, window.1, up, messages, now);
        RootIs(window.1, up, messages, now);
        var root := LookupRoot(window.1, up, messages, now);
        if root.0 == NoId {
          ThinOnward(ix, window.1, root.1, now);
        }
      }
    }
  }

  /** The lookups of one request do not disturb each other: what is found is the first
      answer on the index as it was. */
  lemma HistoryIsFirstHit(ix: Index, up: Upstream, prefix: seq<Message>, now: int)
    requires Inv(ix)
    ensures var (p, next) := FindHistory(ix, up, prefix, now);
      p == HistoryId(ix, up, prefix, now) && (p == NoId ==> Thin(ix, next, now))
  {
    hide LookupExact, LookupSuffix, LookupWindow, LookupRoot, ExactId, SuffixId, WindowId, RootId, Inv;
    ExactIs(ix, up, prefix, now);
    var exact := LookupExact(ix, up, prefix, now);
    if exact.0 == NoId {
      ThinAnswers(ix, exact.1, up, prefix, now);
      TailIsFirstHit(exact.1, up, prefix, now);
      var tail := FindTail(exact.1, up, prefix, now);
      assert FindHistory(ix, up, prefix, now) == tail;
      if tail.0 == NoId {
        ThinOnward(ix, exact.1, tail.1, now);
      }
    }
  }

  lemma ToolIsFirstHit(ix: Index, up: Upstream, base: seq<Message>, main: seq<Message>, now: int)
    requires Inv(ix)
    ensures FindToolContext(ix, up, base, main, now).0 == ToolId(ix, up, base, main, now)
  {
    hide LookupAny, LookupSuffix, LookupWindow, LookupRoot, AnyId, SuffixId;
    hide WindowId, RootId, Inv, FindHistory, HistoryId;
    HistoryIsFirstHit(ix, up, base, now);
    var history := FindHistory(ix, up, base, now);
    if history.0 == NoId {
      ThinAnswers(ix, history.1, up, main, now);
      AnyIs(history.1, up, main, now);
      var any := LookupAny(history.1, up, main, now);
      if any.0 == NoId {
        ThinOnward(ix, history.1, any.1, now);
        ThinAnswers(ix, any.1, up, main, now);
        TailIsFirstHit(any.1, up, main, now);
        assert FindToolContext(ix, up, base, main, now) == FindTail(any.1, up, main, now);
      }
    }
  }

  // ---- Rolling back ----

  /** A request that repeats only part of what p's conversation has become. */
  ghost predicate RollsBack(ix: Index, prefix: seq<Message>, p: Id) {
    && p in ix.frontier.latest && ix.frontier.latest[p].Key?
    && |prefix| < |ix.frontier.latest[p].messages|
    && Normalized(prefix) == ix.frontier.latest[p].messages[..|prefix|]
  }

  /** The request repeats a suffix recorded for p. */
  predicate SuffixNames(ix: Index, prefix: seq<Message>, p: Id, now: int) {
    |prefix| >= 2 && Names(ix.suffixes, Fingerprint(prefix), p, now)
  }

  /** The request has at least two usable user messages, recorded as a window of p. */
  predicate WindowNames(ix: Index, prefix: seq<Message>, p: Id, now: int) {
    WindowFingerprint(prefix, 2, 4) != NoWindow && Names(ix.windows, WindowFingerprint(prefix, 2, 4), p, now)
  }

  /** The request repeats a list of messages recorded for p. */
  predicate TranscriptNames(ix: Index, messages: seq<Message>, p: Id, now: int) {
    messages != [] && Names(ix.transcripts, Fingerprint(messages), p, now)
  }

  /** The exact and root lookups never resume a conversation that has moved past the
      request; the other three do whenever they have an entry for it. */
  lemma RolledBackIds(ix: Index, up: Upstream, prefix: seq<Message>, now: int, p: Id)
    requires Inv(ix) && RollsBack(ix, prefix, p) && p != NoId
    ensures ExactId(ix, up, prefix, now) != p && RootId(ix, up, prefix, now) != p
    ensures SuffixId(ix, up, prefix, now) == p <==> Ready(up, p) && SuffixNames(ix, prefix, p, now)
    ensures WindowId(ix, up, prefix, now) == p <==> Ready(up, p) && WindowNames(ix, prefix, p, now)
    ensures AnyId(ix, up, prefix, now) == p <==> Ready(up, p) && TranscriptNames(ix, prefix, p, now)
  {
    assert |Normalized(prefix)| == |prefix|;
    assert Fingerprint(prefix) != ix.frontier.latest[p];
    hide Fingerprint, WindowFingerprint, RootFingerprint, Live, Ready;
  }

  lemma ExactRefusesRollback(ix: Index, up: Upstream, prefix: seq<Message>, now: int, p: Id)
    requires Inv(ix) && RollsBack(ix, prefix, p) && p != NoId
    ensures LookupExact(ix, up, prefix, now).0 != p && LookupRoot(ix, up, prefix, now).0 != p
  {
    RolledBackIds(ix, up, prefix, now, p);
    ExactIs(ix, up, prefix, now);
    RootIs(ix, up, prefix, now);
    hide LookupExact, LookupRoot, ExactId, RootId;
  }

  /** The plan goes on in p's conversation, trusting what it holds. */
  predicate Resumes(plan: ContextPlan, p: Id) {
    plan.autoContext && plan.provider == p
  }

  predicate RepeatsHistory(messages: seq<Message>) {
    ToolResultUser(messages) >= 0 || SplitHistory(messages).Some?
  }

  /** The messages a request repeats, its new part aside: up to the user message for a
      tool result, all but the newest message otherwise. */
  function Repeated(messages: seq<Message>): seq<Message>
    requires RepeatsHistory(messages)
  {
    if ToolResultUser(messages) >= 0 then messages[..ToolResultUser(messages) + 1] else messages[..|messages| - 1]
  }

  /** p has an entry for the repeated messages in the suffix or, no one answering by
      suffix, in the user-window table, and no one answers exactly. */
  predicate HistoryResumes(ix: Index, up: Upstream, prefix: seq<Message>, now: int, p: Id) {
    && Ready(up, p) && !ExactAnswers(ix, up, prefix, now)
    && (SuffixNames(ix, prefix, p, now) || (!SuffixAnswers(ix, up, prefix, now) && WindowNames(ix, prefix, p, now)))
  }

  /** For a tool result, that holds without the user message; or, no one answering without
      it, p has an entry with it in the transcript, the suffix or the window table, none
      earlier in this order answering. */
  predicate ToolResumes(ix: Index, up: Upstream, base: seq<Message>, main: seq<Message>, now: int, p: Id) {
    || HistoryResumes(ix, up, base, now, p)
    || (&& Ready(up, p) && !ExactAnswers(ix, up, base, now) && !SuffixAnswers(ix, up, base, now)
        && !WindowAnswers(ix, up, base, now) && !RootAnswers(ix, up, base, now)
        && (|| TranscriptNames(ix, main, p, now)
            || (!AnyAnswers(ix, up, main, now)
                && (SuffixNames(ix, main, p, now)
                    || (!SuffixAnswers(ix, up, main, now) && WindowNames(ix, main, p, now))))))
  }

  lemma IdsTell(ix: Index, up: Upstream, messages: seq<Message>, now: int)
    requires Inv(ix)
    ensures ExactId(ix, up, messages, now) != NoId <==> ExactAnswers(ix, up, messages, now)
    ensures AnyId(ix, up, messages, now) != NoId <==> AnyAnswers(ix, up, messages, now)
    ensures SuffixId(ix, up, messages, now) != NoId <==> SuffixAnswers(ix, up, messages, now)
    ensures WindowId(ix, up, messages, now) != NoId <==> WindowAnswers(ix, up, messages, now)
    ensures RootId(ix, up, messages, now) != NoId <==> RootAnswers(ix, up, messages, now)
  {
    InvTables(ix);
    hide Inv, Fingerprint, WindowFingerprint, RootFingerprint, Ready;
  }

  lemma HistoryIdIff(ix: Index, up: Upstream, prefix: seq<Message>, now: int, p: Id)
    requires Inv(ix) && RollsBack(ix, prefix, p) && p != NoId
    ensures HistoryId(ix, up, prefix, now) == p <==> HistoryResumes(ix, up, prefix, now, p)
  {
    RolledBackIds(ix, up, prefix, now, p);
    IdsTell(ix, up, prefix, now);
    hide ExactId, SuffixId, WindowId, RootId, ExactAnswers, SuffixAnswers;
    hide SuffixNames, WindowNames, Inv, RollsBack, Ready;
  }

  lemma ToolIdIff(ix: Index, up: Upstream, base: seq<Message>, main: seq<Message>, now: int, p: Id)
    requires Inv(ix) && RollsBack(ix, base, p) && RollsBack(ix, main, p) && p != NoId
    ensures ToolId(ix, up, base, main, now) == p <==> ToolResumes(ix, up, base, main, now, p)
  {
    HistoryIdIff(ix, up, base, now, p);
    IdsTell(ix, up, base, now);
    RolledBackIds(ix, up, main, now, p);
    IdsTell(ix, up, main, now);
    hide ExactId, AnyId, SuffixId, WindowId, RootId;
    hide ExactAnswers, AnyAnswers, SuffixAnswers, WindowAnswers, RootAnswers;
    hide HistoryResumes, TranscriptNames, SuffixNames, WindowNames, Inv, RollsBack, Ready;
  }

  lemma RollsBackShorter(ix: Index, main: seq<Message>, n: nat, p: Id)
    requires RollsBack(ix, main, p) && n <= |main|
    ensures RollsBack(ix, main[..n], p)
  {
    NormalizedTake(main, n);
    TakeTake(ix.frontier.latest[p].messages, |main|, n);
  }

  lemma BaseRollsBack(ix: Index, messages: seq<Message>, user: nat, p: Id)
    requires user < |messages| && RollsBack(ix, messages[..user + 1], p)
    ensures RollsBack(ix, messages[..user], p)
  {
    RollsBackShorter(ix, messages[..user + 1], user, p);
    TakeTake(messages, user + 1, user);
  }

  lemma NormalizedTake(messages: seq<Message>, n: nat)
    requires n <= |messages|
    ensures Normalized(messages[..n]) == Normalized(messages)[..n]
  {
  }

  /** Which provider the plan of a request that repeats history goes on with. */
  function FoundId(ix: Index, up: Upstream, messages: seq<Message>, now: int): Id
    requires RepeatsHistory(messages)
  {
    var user := ToolResultUser(messages);
    if user >= 0 then ToolId(ix, up, messages[..user], messages[..user + 1], now)
    else HistoryId(ix, up, messages[..|messages| - 1], now)
  }

  lemma ToolPlanFinds(ix: Index, up: Upstream, messages: seq<Message>, now: int, drawn: Id, p: Id)
    requires Inv(ix) && p != NoId && ToolResultUser(messages) >= 0
    ensures Resumes(PlanToolResult(ix, up, messages, now, drawn).0, p) <==> FoundId(ix, up, messages, now) == p
  {
    hide FindToolContext, ToolId, HistoryId, ToolResultUser, Inv, ToolMessages;
    var user := ToolResultUser(messages);
    ToolIsFirstHit(ix, up, messages[..user], messages[..user + 1], now);
  }

  lemma HistoryPlanFinds(ix: Index, up: Upstream, messages: seq<Message>, client: Id, now: int, drawn: Id, p: Id)
    requires Inv(ix) && p != NoId && ToolResultUser(messages) < 0 && SplitHistory(messages).Some?
    ensures Resumes(PlanHistory(ix, up, messages, client, now, drawn).0, p) <==> FoundId(ix, up, messages, now) == p
  {
    hide FindHistory, ToolId, HistoryId, ToolResultUser, Inv;
    HistoryIsFirstHit(ix, up, messages[..|messages| - 1], now);
  }

  lemma PlanResumesFound(ix: Index, up: Upstream, req: Request, now: int, drawn: Id, p: Id)
    requires Inv(ix) && p != NoId && RepeatsHistory(req.messages)
    ensures Resumes(PlanRequest(ix, up, req, now, drawn).0, p) <==> FoundId(ix, up, req.messages, now) == p
  {
    hide FoundId, PlanToolResult, PlanHistory, LookupExplicit, Resumes, ToolResultUser, Inv, CanonicalId;
    if ToolResultUser(req.messages) >= 0 {
      ToolPlanFinds(ix, up, req.messages, now, drawn, p);
    } else {
      HistoryPlanFinds(ix, up, req.messages, CanonicalId(req.conversationID), now, drawn, p);
    }
  }

  /** Exactly when a request that has fallen behind a conversation resumes it all the
      same, whatever kind of request it is. */
  lemma RollbackResumesIff(ix: Index, up: Upstream, req: Request, now: int, drawn: Id, p: Id)
    requires Inv(ix) && p != NoId && RepeatsHistory(req.messages) && RollsBack(ix, Repeated(req.messages), p)
    ensures var (messages, user) := (req.messages, ToolResultUser(req.messages));
      Resumes(PlanRequest(ix, up, req, now, drawn).0, p)
      <==> (if user >= 0 then ToolResumes(ix, up, messages[..user], messages[..user + 1], now, p)
            else HistoryResumes(ix, up, messages[..|messages| - 1], now, p))
  {
    var messages, user := req.messages, ToolResultUser(req.messages);
    hide ToolResumes, HistoryResumes, ToolId, HistoryId, PlanRequest, Inv, RollsBack, ToolResultUser;
    PlanResumesFound(ix, up, req, now, drawn, p);
    if user >= 0 {
      BaseRollsBack(ix, messages, user, p);
      ToolIdIff(ix, up, messages[..user], messages[..user + 1], now, p);
    } else {
      HistoryIdIff(ix, up, messages[..|messages| - 1], now, p);
    }
  }

  // ---- An index that knows one conversation ----

  ghost predicate Only<K>(t: Table<K, Id>, p: Id) {
    forall k :: k in t.ctx ==> t.ctx[k] == p
  }

  /** No entry is anyone else's. */
  ghost predicate Sole(ix: Index, p: Id) {
    Only(ix.transcripts, p) && Only(ix.suffixes, p) && Only(ix.windows, p) && Only(ix.roots, p)
  }

  lemma SoleAnswers(ix: Index, up: Upstream, messages: seq<Message>, now: int, p: Id)
    requires Inv(ix) && RollsBack(ix, messages, p) && p != NoId && Sole(ix, p)
    ensures !ExactAnswers(ix, up, messages, now) && !RootAnswers(ix, up, messages, now)
    ensures SuffixAnswers(ix, up, messages, now) ==> SuffixNames(ix, messages, p, now)
    ensures WindowAnswers(ix, up, messages, now) ==> WindowNames(ix, messages, p, now)
    ensures AnyAnswers(ix, up, messages, now) ==> TranscriptNames(ix, messages, p, now)
  {
    RolledBackIds(ix, up, messages, now, p);
    hide Inv, RollsBack, Fingerprint, WindowFingerprint, RootFingerprint, Ready;
  }

  lemma AloneHistory(ix: Index, up: Upstream, prefix: seq<Message>, now: int, p: Id)
    requires Inv(ix) && RollsBack(ix, prefix, p) && p != NoId && Sole(ix, p)
    ensures HistoryResumes(ix, up, prefix, now, p)
      <==> Ready(up, p) && (SuffixNames(ix, prefix, p, now) || WindowNames(ix, prefix, p, now))
  {
    hide Inv, RollsBack, Sole, ExactAnswers, SuffixAnswers, SuffixNames, WindowNames, Ready;
    SoleAnswers(ix, up, prefix, now, p);
  }

  lemma AloneTool(ix: Index, up: Upstream, base: seq<Message>, main: seq<Message>, now: int, p: Id)
    requires Inv(ix) && RollsBack(ix, base, p) && RollsBack(ix, main, p) && p != NoId && Sole(ix, p)
    ensures ToolResumes(ix, up, base, main, now, p)
      <==> Ready(up, p) && (|| SuffixNames(ix, base, p, now) || WindowNames(ix, base, p, now)
                            || TranscriptNames(ix, main, p, now) || SuffixNames(ix, main, p, now)
                            || WindowNames(ix, main, p, now))
  {
    hide Inv, RollsBack, Sole, ExactAnswers, AnyAnswers, SuffixAnswers, WindowAnswers, RootAnswers, Ready;
    hide TranscriptNames, SuffixNames, WindowNames, HistoryResumes;
    AloneHistory(ix, up, base, now, p);
    SoleAnswers(ix, up, base, now, p);
    SoleAnswers(ix, up, main, now, p);
  }

  /** Then the tables alone decide: a rolled-back request resumes p exactly when p is
      ready and some table other than the root table names it. */
  lemma RollbackAloneIff(ix: Index, up: Upstream, req: Request, now: int, drawn: Id, p: Id)
    requires Inv(ix) && p != NoId && Sole(ix, p)
    requires RepeatsHistory(req.messages) && RollsBack(ix, Repeated(req.messages), p)
    ensures var (messages, user) := (req.messages, ToolResultUser(req.messages));
      var base := if user >= 0 then messages[..user] else messages[..|messages| - 1];
      Resumes(PlanRequest(ix, up, req, now, drawn).0, p)
      <==> Ready(up, p) && (|| SuffixNames(ix, base, p, now) || WindowNames(ix, base, p, now)
                            || (user >= 0 && var main := messages[..user + 1];
                                || TranscriptNames(ix, main, p, now) || SuffixNames(ix, main, p, now)
                                || WindowNames(ix, main, p, now)))
  {
    hide PlanRequest, Inv, RollsBack, Sole, HistoryResumes, ToolResumes, Ready, Resumes, ToolResultUser;
    hide TranscriptNames, SuffixNames, WindowNames;
    var messages, user := req.messages, ToolResultUser(req.messages);
    RollbackResumesIff(ix, up, req, now, drawn, p);
    if user >= 0 {
      BaseRollsBack(ix, messages, user, p);
      AloneTool(ix, up, messages[..user], messages[..user + 1], now, p);
    } else {
      AloneHistory(ix, up, messages[..|messages| - 1], now, p);
    }
  }
}
