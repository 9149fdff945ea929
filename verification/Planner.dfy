/** The request planner: which provider conversation a turn continues and what it
    sends there (openai_service.go). */
module Planner {
  import opened Text
  import opened Messages
  import opened Tables
  import opened ContextIndex
  import opened ContextService

  datatype Request = Request(conversationID: string, messages: seq<Message>)

  // ---- The four history lookups ----

  function FindHistory(ix: Index, up: Upstream, prefix: seq<Message>, now: int): (Id, Index) {
    var exact := LookupExact(ix, up, prefix, now);
    if exact.0 != NoId then exact
    else
      var suffix := LookupSuffix(exact.1, up, prefix, now);
      if suffix.0 != NoId then suffix
      else
        var window := LookupWindow(suffix.1, up, prefix, now);
        if window.0 != NoId then window else LookupRoot(window.1, up, prefix, now)
  }

  /** The same for the conversation a tool result belongs to: first without, then
      with the user message that led to the tool call. */
  function FindToolContext(ix: Index, up: Upstream, base: seq<Message>, main: seq<Message>, now: int): (Id, Index) {
    var history := FindHistory(ix, up, base, now);
    if history.0 != NoId then history
    else
      var any := LookupAny(history.1, up, main, now);
      if any.0 != NoId then any
      else
        var suffix := LookupSuffix(any.1, up, main, now);
        if suffix.0 != NoId then suffix
        else
          var window := LookupWindow(suffix.1, up, main, now);
          if window.0 != NoId then window else LookupRoot(window.1, up, main, now)
  }

  // ---- Tool results ----

  /** The last message up to position end that carries tool calls, or -1. */
  function ToolCallIndex(messages: seq<Message>, end: int): (i: int)
    requires -1 <= end < |messages|
    ensures -1 <= i <= end
    ensures i >= 0 ==> messages[i].toolCalls != []
    decreases end + 1
  {
    if end < 0 then -1 else if messages[end].toolCalls != [] then end else ToolCallIndex(messages, end - 1)
  }

  function ToolMessages(messages: seq<Message>): seq<Message> {
    if messages == [] then []
    else
      var last := messages[|messages| - 1];
      ToolMessages(messages[..|messages| - 1]) + (if IsTool(last) then [last] else [])
  }

  predicate IsTool(m: Message) {
    ToLower(TrimSpace(m.role)) == "tool"
  }

  /** Position of the user message a closing tool result answers. */
  function ToolResultUser(messages: seq<Message>): (i: int)
    ensures -1 <= i < |messages| - 2 || i == -1
  {
    if |messages| < 3 || RoleOf(messages[|messages| - 1]) != "tool" then -1
    else
      var call := ToolCallIndex(messages, |messages| - 2);
      if call <= 0 || !IsUser(messages[call - 1]) then -1 else call - 1
  }

  function PlanToolResult(ix: Index, up: Upstream, messages: seq<Message>, now: int, drawn: Id): (ContextPlan, Index)
    requires ToolResultUser(messages) >= 0
  {
    var user := ToolResultUser(messages);
    var base, main := messages[..user], messages[..user + 1];
    var prompt := ToolResultPrompt(messages[user], messages[user + 1], ToolMessages(messages[user + 2..]));
    var (p, next) := FindToolContext(ix, up, base, main, now);
    (ContextPlan(prompt, if p == NoId then drawn else p, NoId, "tool_result_answer", p != NoId, main, ""), next)
  }

  // ---- Planning ----

  function MainPlan(messages: seq<Message>, client: Id, provider: Id): ContextPlan {
    ContextPlan(FullPrompt(messages), provider, client, "main", false, messages, "")
  }

  function Continue(plan: ContextPlan, provider: Id, latest: Message): ContextPlan {
    plan.(provider := provider, prompt := RawPrompt(latest), autoContext := true)
  }

  function PlanHistory(ix: Index, up: Upstream, messages: seq<Message>, client: Id, now: int,
                       drawn: Id): (ContextPlan, Index)
    requires SplitHistory(messages).Some?
  {
    var (prefix, latest) := SplitHistory(messages).value;
    var (p, next) := FindHistory(ix, up, prefix, now);
    (if p == NoId then MainPlan(messages, client, drawn) else Continue(MainPlan(messages, client, p), p, latest), next)
  }

  /** planRequestContext; drawn is the fresh random id it would use. */
  function PlanRequest(ix: Index, up: Upstream, req: Request, now: int, drawn: Id): (ContextPlan, Index) {
    var client := CanonicalId(req.conversationID);
    var messages := req.messages;
    if ToolResultUser(messages) >= 0 then PlanToolResult(ix, up, messages, now, drawn)
    else if SplitHistory(messages).Some? then PlanHistory(ix, up, messages, client, now, drawn)
    else if client == NoId then (MainPlan(messages, NoId, drawn), ix)
    else if LatestUser(messages).Some? then
      var (p, next) := LookupExplicit(ix, up, client, now);
      var provider := if p != NoId then p else if !Ready(up, client) then drawn else client;
      (Continue(MainPlan(messages, client, provider), provider, LatestUser(messages).value), next)
    else (MainPlan(messages, client, client), ix)
  }

  method FindHistoryProvider(s: OpenAIService, prefix: seq<Message>, up: Upstream, now: int) returns (p: Id)
    requires s.Valid()
    modifies s
    ensures s.Valid() && (p, s.View()) == FindHistory(old(s.View()), up, prefix, now)
  {
    p := s.ProviderForTranscript(prefix, up, now);
    if p != NoId {
      return;
    }
    p := s.ProviderForTranscriptSuffix(prefix, up, now);
    if p != NoId {
      return;
    }
    p := s.ProviderForUserWindow(prefix, up, now);
    if p != NoId {
      return;
    }
    p := s.ProviderForRoot(prefix, up, now);
  }

  method FindToolProvider(s: OpenAIService, base: seq<Message>, main: seq<Message>, up: Upstream, now: int)
    returns (p: Id)
    requires s.Valid()
    modifies s
    ensures s.Valid() && (p, s.View()) == FindToolContext(old(s.View()), up, base, main, now)
  {
    p := FindHistoryProvider(s, base, up, now);
    if p != NoId {
      return;
    }
    p := s.ProviderForTranscriptAny(main, up, now);
    if p != NoId {
      return;
    }
    p := s.ProviderForTranscriptSuffix(main, up, now);
    if p != NoId {
      return;
    }
    p := s.ProviderForUserWindow(main, up, now);
    if p != NoId {
      return;
    }
    p := s.ProviderForRoot(main, up, now);
  }

  method PlanRequestContext(s: OpenAIService, req: Request, up: Upstream, now: int, drawn: Id)
    returns (plan: ContextPlan)
    requires s.Valid()
    modifies s
    ensures s.Valid() && (plan, s.View()) == PlanRequest(old(s.View()), up, req, now, drawn)
  {
    var messages := req.messages;
    var user := ToolResultUser(messages);
    if user >= 0 {
      var base, main := messages[..user], messages[..user + 1];
      var prompt := ToolResultPrompt(messages[user], messages[user + 1], ToolMessages(messages[user + 2..]));
      plan := ContextPlan(prompt, drawn, NoId, "tool_result_answer", false, main, "");
      var p := FindToolProvider(s, base, main, up, now);
      if p != NoId {
        plan := plan.(provider := p, autoContext := true);
      }
      return;
    }
    var explicitID := CanonicalId(req.conversationID);
    plan := MainPlan(messages, explicitID, explicitID);
    if SplitHistory(messages).Some? {
      var (prefix, latest) := SplitHistory(messages).value;
      var p := FindHistoryProvider(s, prefix, up, now);
      plan := if p != NoId then Continue(plan, p, latest) else plan.(provider := drawn);
      return;
    }
    if explicitID == NoId {
      plan := plan.(provider := drawn);
      return;
    }
    if LatestUser(messages).Some? {
      var p := s.ProviderForExplicitID(explicitID, up, now);
      if p == NoId {
        p := if !Ready(up, explicitID) then drawn else explicitID;
      }
      plan := Continue(plan, p, LatestUser(messages).value);
    }
  }

  // ---- What every plan promises ----

  lemma ExactIsReady(ix: Index, up: Upstream, messages: seq<Message>, now: int)
    ensures var p := LookupExact(ix, up, messages, now).0; p != NoId ==> Ready(up, p)
  {
  }

  lemma AnyIsReady(ix: Index, up: Upstream, messages: seq<Message>, now: int)
    ensures var p := LookupAny(ix, up, messages, now).0; p != NoId ==> Ready(up, p)
  {
  }

  lemma SuffixIsReady(ix: Index, up: Upstream, messages: seq<Message>, now: int)
    ensures var p := LookupSuffix(ix, up, messages, now).0; p != NoId ==> Ready(up, p)
  {
  }

  lemma WindowIsReady(ix: Index, up: Upstream, messages: seq<Message>, now: int)
    ensures var p := LookupWindow(ix, up, messages, now).0; p != NoId ==> Ready(up, p)
  {
  }

  lemma RootIsReady(ix: Index, up: Upstream, messages: seq<Message>, now: int)
    ensures var p := LookupRoot(ix, up, messages, now).0; p != NoId ==> Ready(up, p)
  {
  }

  lemma HistoryIsReady(ix: Index, up: Upstream, prefix: seq<Message>, now: int)
    ensures var p := FindHistory(ix, up, prefix, now).0; p != NoId ==> Ready(up, p)
  {
    var exact := LookupExact(ix, up, prefix, now);
    var suffix := LookupSuffix(exact.1, up, prefix, now);
    var window := LookupWindow(suffix.1, up, prefix, now);
    ExactIsReady(ix, up, prefix, now);
    SuffixIsReady(exact.1, up, prefix, now);
    WindowIsReady(suffix.1, up, prefix, now);
    RootIsReady(window.1, up, prefix, now);
  }

  lemma ToolContextIsReady(ix: Index, up: Upstream, base: seq<Message>, main: seq<Message>, now: int)
    ensures var p := FindToolContext(ix, up, base, main, now).0; p != NoId ==> Ready(up, p)
  {
    HistoryIsReady(ix, up, base, now);
    var history := FindHistory(ix, up, base, now);
    var any := LookupAny(history.1, up, main, now);
    var suffix := LookupSuffix(any.1, up, main, now);
    var window := LookupWindow(suffix.1, up, main, now);
    AnyIsReady(history.1, up, main, now);
    SuffixIsReady(any.1, up, main, now);
    WindowIsReady(suffix.1, up, main, now);
    RootIsReady(window.1, up, main, now);
  }

  /** Server-side context is only relied on in a conversation that can bear it: a plan
      with AutoContext names a fresh id or a ready one and, in the main phase, carries
      only a usable newest message; a main-phase plan without it carries the whole
      message list. */
  ghost predicate SafePlan(plan: ContextPlan, up: Upstream, req: Request, drawn: Id) {
    && (plan.autoContext ==> plan.provider == drawn || Ready(up, plan.provider))
    && (plan.phase == "main" && !plan.autoContext ==> plan.prompt == FullPrompt(req.messages))
    && (plan.phase == "main" && plan.autoContext ==>
          req.messages != [] && plan.prompt == RawPrompt(req.messages[|req.messages| - 1])
          && Usable(req.messages[|req.messages| - 1]))
    && (plan.phase == "main" ==> plan.requestMessages == req.messages && plan.client == CanonicalId(req.conversationID))
    && (plan.phase == "main" || plan.phase == "tool_result_answer")
  }

  lemma ToolPlanIsSafe(ix: Index, up: Upstream, req: Request, now: int, drawn: Id)
    requires ToolResultUser(req.messages) >= 0
    ensures SafePlan(PlanToolResult(ix, up, req.messages, now, drawn).0, up, req, drawn)
  {
    hide FindToolContext, Ready, ToolMessages, ToolResultUser;
    var user := ToolResultUser(req.messages);
    ToolContextIsReady(ix, up, req.messages[..user], req.messages[..user + 1], now);
  }

  lemma HistoryPlanIsSafe(ix: Index, up: Upstream, req: Request, now: int, drawn: Id)
    requires SplitHistory(req.messages).Some?
    ensures SafePlan(PlanHistory(ix, up, req.messages, CanonicalId(req.conversationID), now, drawn).0, up, req, drawn)
  {
    hide FindHistory, Ready, CanonicalId;
    HistoryIsReady(ix, up, SplitHistory(req.messages).value.0, now);
  }

  lemma ExplicitIsReady(ix: Index, up: Upstream, client: Id, now: int)
    ensures var p := LookupExplicit(ix, up, client, now).0; p != NoId ==> Ready(up, p)
  {
  }

  lemma PlansAreSafe(ix: Index, up: Upstream, req: Request, now: int, drawn: Id)
    ensures SafePlan(PlanRequest(ix, up, req, now, drawn).0, up, req, drawn)
  {
    ExplicitIsReady(ix, up, CanonicalId(req.conversationID), now);
    hide PlanToolResult, PlanHistory, LookupExplicit, Ready, CanonicalId;
    if ToolResultUser(req.messages) >= 0 {
      ToolPlanIsSafe(ix, up, req, now, drawn);
    } else if SplitHistory(req.messages).Some? {
      HistoryPlanIsSafe(ix, up, req, now, drawn);
    }
  }

  /** A client that sends only its newest message always has nothing but that message sent
      on: into the conversation p its id is bound to exactly when p is ready and the binding
      is still in use, or p is the id itself. Otherwise what was said before is lost. */
  lemma NewestMessageIff(ix: Index, up: Upstream, req: Request, now: int, drawn: Id, p: Id)
    requires |req.messages| == 1 && Usable(req.messages[0]) && p != NoId && drawn != p
    requires var c := CanonicalId(req.conversationID);
      c != NoId && c in ix.explicit.ctx && ix.explicit.ctx[c] == p
    ensures var (plan, c) := (PlanRequest(ix, up, req, now, drawn).0, CanonicalId(req.conversationID));
      && plan.autoContext && plan.prompt == RawPrompt(req.messages[0])
      && (plan.provider == p <==> Ready(up, p) && (!IsStale(ix.explicit.at, c, now) || p == c))
  {
    hide CanonicalId, Usable, Ready;
    UserAlone(req.messages);
  }

  lemma UserAlone(messages: seq<Message>)
    requires |messages| == 1 && Usable(messages[0])
    ensures ToolResultUser(messages) == -1 && SplitHistory(messages) == None
    ensures LatestUser(messages) == Some(messages[0])
  {
    UserEndsTurn(messages);
  }

  // ---- What is sent with a tool result ----

  /** The messages close with a tool result: the newest tool calls before it stand right
      after a user message. */
  ghost predicate ClosesWithResult(messages: seq<Message>, user: nat) {
    var n := |messages|;
    && user + 2 < n && IsTool(messages[n - 1]) && messages[user + 1].toolCalls != []
    && ToLower(TrimSpace(messages[user].role)) == "user"
    && forall k :: user + 1 < k < n - 1 ==> messages[k].toolCalls == []
  }

  lemma {:induction false} CallIndexIs(messages: seq<Message>, end: int)
    requires -1 <= end < |messages|
    ensures forall k :: ToolCallIndex(messages, end) < k <= end ==> messages[k].toolCalls == []
    decreases end + 1
  {
    if end >= 0 && messages[end].toolCalls == [] {
      CallIndexIs(messages, end - 1);
    }
  }

  lemma ResultUserIff(messages: seq<Message>, user: nat)
    ensures ToolResultUser(messages) == user <==> ClosesWithResult(messages, user)
  {
    hide TrimSpace, ToLower;
    if |messages| >= 3 {
      CallIndexIs(messages, |messages| - 2);
    }
  }

  ghost predicate ResultsAt(messages: seq<Message>, results: seq<Message>, ps: seq<nat>) {
    Marks(messages, IsTool, ps) && |results| == |ps| && forall i :: 0 <= i < |ps| ==> results[i] == messages[ps[i]]
  }

  lemma {:induction false} ToolMessagesAre(messages: seq<Message>) returns (ps: seq<nat>)
    ensures ResultsAt(messages, ToolMessages(messages), ps)
  {
    hide IsTool, ResultsAt;
    ps := [];
    if messages == [] {
      NoResults();
    } else {
      var n := |messages| - 1;
      var front := ToolMessagesAre(messages[..n]);
      ResultsPush(messages[..n], ToolMessages(messages[..n]), front, messages[n]);
      assert messages == messages[..n] + [messages[n]];
      NoneMore(ToolMessages(messages[..n]));
      ps := if IsTool(messages[n]) then front + [n] else front;
    }
  }

  lemma NoneMore<T>(s: seq<T>)
    ensures s + [] == s
  {
  }

  lemma NoResults()
    ensures ResultsAt([], [], [])
  {
  }

  lemma ResultsPush(messages: seq<Message>, results: seq<Message>, ps: seq<nat>, m: Message)
    requires ResultsAt(messages, results, ps)
    ensures ResultsAt(messages + [m], if IsTool(m) then results + [m] else results,
                      if IsTool(m) then ps + [|messages|] else ps)
  {
    hide IsTool, Marks;
    MarksPush(messages, IsTool, ps, m);
    MarkedInside(messages, IsTool, ps);
  }

  /** A closing tool result is answered from the user message that led to the call: the
      prompt holds that message, the calling message, and the tool messages after it, all
      of them and in their order; what is recorded ends with that user message. */
  lemma ToolResultPlanIff(ix: Index, up: Upstream, req: Request, now: int, drawn: Id, user: nat)
    returns (ps: seq<nat>)
    ensures var (messages, plan) := (req.messages, PlanRequest(ix, up, req, now, drawn).0);
      && (plan.phase == "tool_result_answer" <==> exists k :: ClosesWithResult(messages, k))
      && (ClosesWithResult(messages, user) ==>
            && plan.prompt.ToolResultPrompt? && plan.prompt.user == messages[user]
            && plan.prompt.call == messages[user + 1]
            && ResultsAt(messages[user + 2..], plan.prompt.results, ps)
            && plan.requestMessages == messages[..user + 1] && plan.client == NoId
            && (plan.provider == drawn || (plan.autoContext && Ready(up, plan.provider))))
  {
    hide ToolResultUser, ClosesWithResult, SplitHistory, LatestUser, FindToolContext, FindHistory, LookupExplicit;
    hide Ready, CanonicalId;
    var messages := req.messages;
    forall k: nat ensures ToolResultUser(messages) == k <==> ClosesWithResult(messages, k) {
      ResultUserIff(messages, k);
    }
    if ToolResultUser(messages) >= 0 {
      assert ClosesWithResult(messages, ToolResultUser(messages));
    }
    ps := [];
    if ClosesWithResult(messages, user) {
      ResultUserIff(messages, user);
      ToolContextIsReady(ix, up, messages[..user], messages[..user + 1], now);
      ps := ToolMessagesAre(messages[user + 2..]);
    }
  }

  /** With nothing to continue (no tool result, and the newest message is no user message
      that says something) everything is sent, under the client's id as it is or else a
      fresh one, and the index is left alone. */
  lemma NothingToContinue(ix: Index, up: Upstream, req: Request, now: int, drawn: Id)
    requires forall user :: !ClosesWithResult(req.messages, user)
    requires req.messages == [] || !Usable(req.messages[|req.messages| - 1])
    ensures var c := CanonicalId(req.conversationID);
      PlanRequest(ix, up, req, now, drawn)
      == (ContextPlan(FullPrompt(req.messages), if c == NoId then drawn else c, c, "main", false, req.messages, ""), ix)
  {
    hide CanonicalId, Usable, ClosesWithResult;
    if ToolResultUser(req.messages) >= 0 {
      ResultUserIff(req.messages, ToolResultUser(req.messages));
    }
  }

  /** A list that repeats what was said and adds a user message goes on in the conversation
      the history lookups find, with that message alone; when they find none it is sent
      whole, to a fresh one. */
  lemma HistoryPlanIs(ix: Index, up: Upstream, req: Request, now: int, drawn: Id)
    requires |req.messages| >= 2 && Usable(req.messages[|req.messages| - 1])
    ensures var (messages, c) := (req.messages, CanonicalId(req.conversationID));
      var n := |messages| - 1;
      var p := FindHistory(ix, up, messages[..n], now).0;
      PlanRequest(ix, up, req, now, drawn).0
      == if p == NoId then ContextPlan(FullPrompt(messages), drawn, c, "main", false, messages, "")
         else ContextPlan(RawPrompt(messages[n]), p, c, "main", true, messages, "")
  {
    hide FindHistory, CanonicalId;
    UserEndsTurn(req.messages);
  }

  // ---- Right after remember ----

  lemma UserEndsTurn(messages: seq<Message>)
    requires messages != [] && IsUser(messages[|messages| - 1])
    ensures ToolResultUser(messages) == -1
  {
  }

  lemma SameFingerprint(a: seq<Message>, b: seq<Message>)
    requires Normalized(a) == Normalized(b)
    ensures Fingerprint(a) == Fingerprint(b)
  {
    assert |Normalized(a)| == |a| && |Normalized(b)| == |b|;
  }

  /** A remembered provider's transcript is its frontier, is found by its exact key and is
      retained, all as of now. */
  lemma RememberedIsExact(ix: Index, plan: ContextPlan, now: int)
    requires plan.provider != NoId
    ensures var p := plan.provider;
      var next := Remembered(ix, plan, now);
      var key := Fingerprint(TranscriptOf(ix, plan));
      && key.Key? && key in next.transcripts.ctx && next.transcripts.ctx[key] == p
      && key in next.transcripts.at && next.transcripts.at[key] == now
      && p in next.frontier.latest && next.frontier.latest[p] == key
      && p in next.retained.ctx && next.retained.ctx[p] == TranscriptOf(ix, plan)
      && p in next.retained.at && next.retained.at[p] == now
  {
  }

  lemma TranscriptIsLong(ix: Index, plan: ContextPlan)
    ensures TranscriptOf(ix, plan) != []
  {
    hide RequestOf;
  }

  lemma RepeatedIsFound(ix: Index, plan: ContextPlan, now: int, up: Upstream, history: seq<Message>, later: int)
    requires plan.provider != NoId && Ready(up, plan.provider) && later - now <= TRANSCRIPT_CONTEXT_TTL
    requires Normalized(history) == Normalized(TranscriptOf(ix, plan))
    ensures LookupExact(Remembered(ix, plan, now), up, history, later).0 == plan.provider
  {
    hide Remembered, TranscriptOf, Fingerprint, Ready, Normalized;
    RememberedIsExact(ix, plan, now);
    SameFingerprint(history, TranscriptOf(ix, plan));
  }

  /** Right after remember, the recorded transcript (as the client repeats it, up to
      normalization) and a new user turn continue the same conversation with nothing
      but that turn, with or without a conversation_id. */
  lemma NextTurnContinues(ix: Index, plan: ContextPlan, now: int, up: Upstream, req: Request, history: seq<Message>,
                          turn: Message, later: int, drawn: Id)
    requires plan.provider != NoId && Ready(up, plan.provider) && later - now <= TRANSCRIPT_CONTEXT_TTL
    requires Normalized(history) == Normalized(TranscriptOf(ix, plan))
    requires Usable(turn) && req.messages == history + [turn]
    ensures PlanRequest(Remembered(ix, plan, now), up, req, later, drawn).0
         == Continue(MainPlan(req.messages, CanonicalId(req.conversationID), plan.provider), plan.provider, turn)
  {
    hide Remembered, TranscriptOf, Fingerprint, Ready, LookupExact, LookupSuffix, LookupWindow, LookupRoot;
    hide ToolResultUser, CanonicalId;
    RepeatedIsFound(ix, plan, now, up, history, later);
    assert |Normalized(history)| == |history| && |Normalized(TranscriptOf(ix, plan))| == |TranscriptOf(ix, plan)|;
    TranscriptIsLong(ix, plan);
    UserEndsTurn(req.messages);
    assert req.messages[..|req.messages| - 1] == history;
    assert SplitHistory(req.messages) == Some((history, turn));
  }

  lemma {:induction false} WindowIsNoted(messages: seq<Message>, size: nat, top: nat)
    requires 2 <= size <= top && |UserTurns(messages)| >= size
    ensures WindowKey.Window(LastN(UserTurns(messages), size)) in WindowKeysUpTo(messages, top)
  {
    hide UserTurns, LastN, WindowFingerprint;
    if size == top {
      WindowOfSize(messages, size);
    } else {
      WindowIsNoted(messages, size, top - 1);
    }
  }

  lemma {:induction false} WindowOfSize(messages: seq<Message>, size: nat)
    requires 2 <= size <= |UserTurns(messages)|
    ensures WindowFingerprint(messages, size, size) == WindowKey.Window(LastN(UserTurns(messages), size))
  {
    hide UserTurns;
  }

  /** The windows stored for a transcript, sizes 2 to 4, answer the query for the last
      min(4, n) user turns of any suffix that has at least two. */
  lemma SuffixWindowIsNoted(messages: seq<Message>, start: nat)
    requires start <= |messages| && |UserTurns(messages[start..])| >= 2
    ensures WindowFingerprint(messages[start..], 2, 4) in WindowKeys(messages)
    ensures WindowFingerprint(messages[start..], 2, 4) != NoWindow
  {
    var suffix := messages[start..];
    var turns := UserTurns(suffix);
    var size := if |turns| < 4 then |turns| else 4;
    assert messages == messages[..start] + suffix;
    UserTurnsAppend(messages[..start], suffix);
    LastNOfSuffix(UserTurns(messages[..start]), turns, size);
    assert LastN(turns, 4) == LastN(turns, size);
    WindowIsNoted(messages, size, 4);
  }

  /** Right after remember, any suffix of the recorded transcript with two usable user
      messages finds the provider by its user window. */
  lemma SuffixFindsProvider(ix: Index, plan: ContextPlan, now: int, up: Upstream, start: nat, later: int)
    requires plan.provider != NoId && Ready(up, plan.provider) && later - now <= TRANSCRIPT_CONTEXT_TTL
    requires start <= |TranscriptOf(ix, plan)| && |UserTurns(TranscriptOf(ix, plan)[start..])| >= 2
    ensures LookupWindow(Remembered(ix, plan, now), up, TranscriptOf(ix, plan)[start..], later).0 == plan.provider
  {
    var p := plan.provider;
    var transcript := TranscriptOf(ix, plan);
    var key := WindowFingerprint(transcript[start..], 2, 4);
    SuffixWindowIsNoted(transcript, start);
    var before := WindowsRemembered(ix, plan, now);
    PutEachKeys(before, WindowKeys(transcript), p, now);
    PutEachTimes(before, WindowKeys(transcript), p, now, key);
    hide Remembered, WindowKeys, WindowFingerprint, TranscriptOf, PutEach;
  }

  /** The window table a transcript's keys are put into. */
  lemma WindowsRemembered(ix: Index, plan: ContextPlan, now: int) returns (before: Table<WindowKey, Id>)
    ensures Remembered(ix, plan, now).windows == PutEach(before, WindowKeys(TranscriptOf(ix, plan)), plan.provider, now)
  {
    var p := plan.provider;
    var request := RequestOf(ix, plan);
    var bound := if plan.client == NoId then ix else ix.(explicit := Put(ix.explicit, plan.client, p, now));
    before := (if request == [] then bound else NoteTranscript(bound, request, p, now)).windows;
  }
}
