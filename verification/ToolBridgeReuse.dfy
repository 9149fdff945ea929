/** Which prompt the tool-call bridge sends: the full tool list, or the short reminder
    in a conversation that has been given that list before (openai_service.go). */
module ToolBridgeReuse {
  import opened Text
  import opened Messages
  import opened ContextIndex

  function SpecOf(t: Tool): ToolSpec {
    ToolSpec(TrimSpace(t.name), TrimSpace(t.description), TrimSpace(t.parameters))
  }

  /** The tools a full prompt lists, in request order. */
  function Listed(tools: seq<Tool>): seq<ToolSpec> {
    if tools == [] then []
    else
      Listed(tools[..|tools| - 1]) + (if IsFunctionTool(tools[|tools| - 1]) then [SpecOf(tools[|tools| - 1])] else [])
  }

  // ---- The order on names ----

  predicate NameLess(a: string, b: string) {
    if b == "" then false
    else if a == "" then true
    else a[0] < b[0] || (a[0] == b[0] && NameLess(a[1..], b[1..]))
  }

  lemma {:induction false} NameTotal(a: string, b: string)
    ensures NameLess(a, b) || NameLess(b, a) || a == b
  {
    if a != "" && b != "" && a[0] == b[0] {
      NameTotal(a[1..], b[1..]);
      assert a == [a[0]] + a[1..] && b == [b[0]] + b[1..];
    }
  }

  lemma {:induction false} NameAsym(a: string, b: string)
    requires NameLess(a, b)
    ensures !NameLess(b, a) && a != b
  {
    if a != "" && b != "" && a[0] == b[0] {
      NameAsym(a[1..], b[1..]);
    }
  }

  lemma {:induction false} NameTrans(a: string, b: string, c: string)
    requires !NameLess(b, a) && !NameLess(c, b)
    ensures !NameLess(c, a)
  {
    if a != "" && b != "" && c != "" && a[0] == b[0] == c[0] {
      NameTrans(a[1..], b[1..], c[1..]);
    }
  }

  ghost predicate Sorted(s: seq<ToolSpec>) {
    forall i, j :: 0 <= i < j < |s| ==> !NameLess(s[j].name, s[i].name)
  }

  // ---- The signature ----

  /** sig is a name-sorted rearrangement of the listed tools; how the sort arranges
      tools of equal name is its own affair. */
  ghost predicate IsSignature(tools: seq<Tool>, sig: Signature) {
    if Listed(tools) == [] then sig == NoSignature
    else sig.Signature? && Sorted(sig.tools) && multiset(sig.tools) == multiset(Listed(tools))
  }

  function Insert(x: ToolSpec, s: seq<ToolSpec>): seq<ToolSpec> {
    if s == [] then [x]
    else if NameLess(x.name, s[0].name) then [x] + s
    else [s[0]] + Insert(x, s[1..])
  }

  lemma {:induction false} InsertAdds(x: ToolSpec, s: seq<ToolSpec>)
    ensures multiset(Insert(x, s)) == multiset(s) + multiset{x}
  {
    if s == [] {
    } else {
      assert s == [s[0]] + s[1..];
      InsertAdds(x, s[1..]);
    }
  }

  ghost predicate AllFrom(name: string, s: seq<ToolSpec>) {
    forall j :: 0 <= j < |s| ==> !NameLess(s[j].name, name)
  }

  lemma SortedCons(x: ToolSpec, s: seq<ToolSpec>)
    requires Sorted(s) && AllFrom(x.name, s)
    ensures Sorted([x] + s)
  {
  }

  lemma SortedTail(s: seq<ToolSpec>)
    requires Sorted(s) && s != []
    ensures Sorted(s[1..]) && AllFrom(s[0].name, s[1..])
  {
  }

  lemma {:induction false} AllFromMeans(name: string, s: seq<ToolSpec>)
    ensures AllFrom(name, s) <==> forall x :: x in multiset(s) ==> !NameLess(x.name, name)
  {
    if forall x :: x in multiset(s) ==> !NameLess(x.name, name) {
      assert forall j :: 0 <= j < |s| ==> s[j] in multiset(s);
    }
  }

  lemma {:induction false} AllFromLower(low: string, name: string, s: seq<ToolSpec>)
    requires !NameLess(name, low) && AllFrom(name, s)
    ensures AllFrom(low, s)
  {
    forall j | 0 <= j < |s| ensures !NameLess(s[j].name, low) {
      NameTrans(low, name, s[j].name);
    }
  }

  lemma {:induction false} InsertSorts(x: ToolSpec, s: seq<ToolSpec>)
    requires Sorted(s)
    ensures Sorted(Insert(x, s))
  {
    if s == [] {
    } else {
      SortedTail(s);
      if NameLess(x.name, s[0].name) {
        NameAsym(x.name, s[0].name);
        AllFromLower(x.name, s[0].name, s[1..]);
        assert AllFrom(x.name, s) by {
          assert forall j :: 1 <= j < |s| ==> s[j] == s[1..][j - 1];
        }
        SortedCons(x, s);
      } else {
        InsertSorts(x, s[1..]);
        InsertAdds(x, s[1..]);
        AllFromMeans(s[0].name, s[1..]);
        AllFromMeans(s[0].name, Insert(x, s[1..]));
        SortedCons(s[0], Insert(x, s[1..]));
      }
    }
  }

  /** toolBridgeSignature. */
  method ToolBridgeSignature(tools: seq<Tool>) returns (sig: Signature)
    ensures IsSignature(tools, sig)
  {
    var specs: seq<ToolSpec> := [];
    for i := 0 to |tools|
      invariant Sorted(specs) && multiset(specs) == multiset(Listed(tools[..i]))
    {
      assert tools[..i + 1][..i] == tools[..i];
      if IsFunctionTool(tools[i]) {
        InsertSorts(SpecOf(tools[i]), specs);
        InsertAdds(SpecOf(tools[i]), specs);
        specs := Insert(SpecOf(tools[i]), specs);
      }
    }
    assert tools[..|tools|] == tools;
    assert |specs| == |multiset(specs)| == |multiset(Listed(tools))| == |Listed(tools)|;
    sig := if specs == [] then NoSignature else Signature(specs);
  }

  /** Tools that share a name are the same tool. */
  ghost predicate NamesTell(s: seq<ToolSpec>) {
    forall i, j :: 0 <= i < |s| && 0 <= j < |s| && s[i].name == s[j].name ==> s[i] == s[j]
  }

  lemma SortedHeads(a: seq<ToolSpec>, b: seq<ToolSpec>)
    requires Sorted(a) && Sorted(b) && multiset(a) == multiset(b) && NamesTell(a) && a != [] && b != []
    ensures a[0] == b[0]
  {
    assert a[0] in multiset(b) && b[0] in multiset(a);
    var i :| 0 <= i < |b| && b[i] == a[0];
    var j :| 0 <= j < |a| && a[j] == b[0];
    NameTotal(a[0].name, b[0].name);
  }

  lemma HeadOff(s: seq<ToolSpec>)
    requires s != []
    ensures s == [s[0]] + s[1..] && multiset(s[1..]) == multiset(s) - multiset{s[0]}
  {
    assert s == [s[0]] + s[1..];
  }

  lemma TailTells(s: seq<ToolSpec>)
    requires Sorted(s) && NamesTell(s) && s != []
    ensures Sorted(s[1..]) && NamesTell(s[1..])
  {
  }

  lemma {:induction false} SortedUnique(a: seq<ToolSpec>, b: seq<ToolSpec>)
    requires Sorted(a) && Sorted(b) && multiset(a) == multiset(b) && NamesTell(a)
    ensures a == b
  {
    SameSize(a, b);
    if a == [] {
    } else {
      SortedHeads(a, b);
      HeadOff(a);
      HeadOff(b);
      TailTells(a);
      SortedTail(b);
      hide Sorted, NamesTell;
      SortedUnique(a[1..], b[1..]);
    }
  }

  lemma NamesTellSurvives(a: seq<ToolSpec>, b: seq<ToolSpec>)
    requires multiset(a) == multiset(b) && NamesTell(a)
    ensures NamesTell(b)
  {
    forall i, j | 0 <= i < |b| && 0 <= j < |b| && b[i].name == b[j].name ensures b[i] == b[j] {
      assert b[i] in multiset(a) && b[j] in multiset(a);
    }
  }

  /** Reordering the tools of a request leaves the signature alone, as long as tools
      of one name are the same tool. */
  lemma {:induction false} SignatureIgnoresOrder(tools: seq<Tool>, shuffled: seq<Tool>, sig: Signature,
                                                 other: Signature)
    requires multiset(Listed(tools)) == multiset(Listed(shuffled)) && NamesTell(Listed(tools))
    requires IsSignature(tools, sig) && IsSignature(shuffled, other)
    ensures sig == other
  {
    assert |Listed(tools)| == |multiset(Listed(tools))| == |Listed(shuffled)|;
    if Listed(tools) != [] {
      NamesTellSurvives(Listed(tools), sig.tools);
      SortedUnique(sig.tools, other.tools);
    }
  }

  lemma {:induction false} ListedAppend(a: seq<Tool>, b: seq<Tool>)
    ensures Listed(a + b) == Listed(a) + Listed(b)
  {
    if b == [] {
      assert a + b == a;
    } else {
      var n := |b| - 1;
      ListedAppend(a, b[..n]);
      assert (a + b)[..|a + b| - 1] == a + b[..n];
      Assoc(Listed(a), Listed(b[..n]), if IsFunctionTool(b[n]) then [SpecOf(b[n])] else []);
    }
  }

  function Skip<T>(s: seq<T>, k: nat): seq<T>
    requires k < |s|
  {
    s[..k] + s[k + 1..]
  }

  lemma Cut<T>(s: seq<T>, k: nat)
    requires k < |s|
    ensures s == s[..k] + [s[k]] + s[k + 1..]
  {
  }

  lemma SkipOne<T>(s: seq<T>, k: nat)
    requires k < |s|
    ensures multiset(Skip(s, k)) == multiset(s) - multiset{s[k]} && |Skip(s, k)| == |s| - 1
  {
    Cut(s, k);
    calc {
      multiset(s);
      multiset(s[..k] + [s[k]] + s[k + 1..]);
      multiset(s[..k]) + multiset{s[k]} + multiset(s[k + 1..]);
    }
  }

  lemma {:induction false} ListedAround(a: seq<Tool>, t: Tool, b: seq<Tool>)
    ensures multiset(Listed(a + [t] + b)) == multiset(Listed(a + b)) + multiset(Listed([t]))
  {
    hide Listed;
    ListedAppend(a + [t], b);
    ListedAppend(a, [t]);
    ListedAppend(a, b);
  }

  lemma {:induction false} ListedSkip(tools: seq<Tool>, k: nat)
    requires k < |tools|
    ensures multiset(Listed(tools)) == multiset(Listed(Skip(tools, k))) + multiset(Listed([tools[k]]))
  {
    Cut(tools, k);
    ListedAround(tools[..k], tools[k], tools[k + 1..]);
  }

  lemma Occurs<T>(s: seq<T>, x: T) returns (k: nat)
    requires x in multiset(s)
    ensures k < |s| && s[k] == x
  {
    k :| 0 <= k < |s| && s[k] == x;
  }

  lemma SameSize<T>(a: seq<T>, b: seq<T>)
    requires multiset(a) == multiset(b)
    ensures |a| == |b|
  {
    assert |multiset(a)| == |a| && |multiset(b)| == |b|;
  }

  /** Permuting the request permutes the list. */
  lemma {:induction false} ShuffledLists(tools: seq<Tool>, shuffled: seq<Tool>)
    requires multiset(tools) == multiset(shuffled)
    ensures multiset(Listed(tools)) == multiset(Listed(shuffled))
    decreases |tools|
  {
    hide Listed, Skip;
    SameSize(tools, shuffled);
    if tools == [] {
      assert tools == shuffled;
    } else {
      assert tools[0] in multiset(tools);
      var k := Occurs(shuffled, tools[0]);
      SkipOne(tools, 0);
      SkipOne(shuffled, k);
      ListedSkip(tools, 0);
      ListedSkip(shuffled, k);
      ShuffledLists(Skip(tools, 0), Skip(shuffled, k));
    }
  }

  ghost predicate OneSignature(tools: seq<Tool>) {
    forall sig, other :: IsSignature(tools, sig) && IsSignature(tools, other) ==> sig == other
  }

  lemma SwapClash(s: seq<ToolSpec>, i: nat, j: nat)
    requires i < j < |s| && Sorted(s) && s[i].name == s[j].name
    ensures Sorted(s[i := s[j]][j := s[i]]) && multiset(s[i := s[j]][j := s[i]]) == multiset(s)
  {
    var w := s[i := s[j]][j := s[i]];
    assert forall k :: 0 <= k < |s| ==> w[k].name == s[k].name;
    forall m, n | 0 <= m < n < |w| ensures !NameLess(w[n].name, w[m].name) {
      assert !NameLess(s[n].name, s[m].name);
    }
  }

  lemma Clash(s: seq<ToolSpec>) returns (i: nat, j: nat)
    requires !NamesTell(s)
    ensures i < j < |s| && s[i].name == s[j].name && s[i] != s[j]
  {
    i, j :| i < j < |s| && s[i].name == s[j].name && s[i] != s[j];
  }

  lemma OtherSignature(tools: seq<Tool>, sig: Signature) returns (other: Signature)
    requires IsSignature(tools, sig) && sig.Signature? && !NamesTell(sig.tools)
    ensures IsSignature(tools, other) && other != sig
  {
    var s := sig.tools;
    var i, j := Clash(s);
    SwapClash(s, i, j);
    other := Signature(s[i := s[j]][j := s[i]]);
    assert other.tools[i] == s[j];
    hide Sorted;
  }

  /** The order of the request can matter exactly when two different tools share a
      name. */
  lemma {:induction false} SignatureUniqueIff(tools: seq<Tool>, sig: Signature)
    requires IsSignature(tools, sig)
    ensures OneSignature(tools) <==> NamesTell(Listed(tools))
  {
    if NamesTell(Listed(tools)) {
      forall a, b | IsSignature(tools, a) && IsSignature(tools, b) ensures a == b {
        SignatureIgnoresOrder(tools, tools, a, b);
      }
    } else {
      assert Listed(tools) != [];
      assert multiset(sig.tools) == multiset(Listed(tools));
      hide IsSignature, NamesTell;
      if NamesTell(sig.tools) {
        NamesTellSurvives(sig.tools, Listed(tools));
      }
      var other := OtherSignature(tools, sig);
    }
  }

  // ---- Requests, interleaved ----

  datatype BridgePrompt = FullTools(listed: seq<ToolSpec>) | Reminder

  datatype Sent = Sent(provider: Id, prompt: BridgePrompt, listed: seq<ToolSpec>, signature: Signature)

  datatype Event = Dispatched(call: Sent) | Answered(call: Sent)

  /** A request between sending its prompt and recording what it taught. */
  datatype Pending = Waiting(call: Sent) | Recording(call: Sent)

  datatype State = State(ix: Index, pending: map<nat, Pending>, log: seq<Event>)

  datatype Action =
    | Other(op: Op)
    | Begin(request: nat, plan: ContextPlan, tools: seq<Tool>, signature: Signature)
    | Fail(request: nat)
    | Migrate(request: nat, drawn: Id)
    | Answer(request: nat)
    | Record(request: nat)

  /** buildToolBridgePromptForPlan. */
  function ChoosePrompt(ix: Index, plan: ContextPlan, listed: seq<ToolSpec>, signature: Signature): BridgePrompt {
    if plan.provider != NoId && plan.autoContext && BridgeReady(ix, plan.provider, signature) then Reminder
    else FullTools(listed)
  }

  function Dispatch(s: State, r: nat, call: Sent): State {
    s.(pending := s.pending[r := Waiting(call)], log := s.log + [Dispatched(call)])
  }

  ghost predicate Step(s: State, a: Action, now: int, next: State) {
    match a
    case Other(op) =>
      !op.BridgeRemember? && next.pending == s.pending && next.log == s.log && ContextIndex.Step(s.ix, op, now, next.ix)
    case Begin(r, plan, tools, signature) =>
      && r !in s.pending && IsSignature(tools, signature)
      && var prompt := ChoosePrompt(s.ix, plan, Listed(tools), signature);
      next == Dispatch(s, r, Sent(plan.provider, prompt, Listed(tools), signature))
    case Fail(r) => r in s.pending && s.pending[r].Waiting? && next == s.(pending := s.pending - {r})
    case Migrate(r, drawn) =>
      && r in s.pending && s.pending[r].Waiting?
      && var call := s.pending[r].call;
      next == Dispatch(s.(ix := Forget(s.ix, call.provider)), r,
                       Sent(drawn, FullTools(call.listed), call.listed, call.signature))
    case Answer(r) =>
      && r in s.pending && s.pending[r].Waiting?
      && next == s.(pending := s.pending[r := Recording(s.pending[r].call)],
                    log := s.log + [Answered(s.pending[r].call)])
    case Record(r) =>
      && r in s.pending && s.pending[r].Recording?
      && var call := s.pending[r].call;
      next == s.(ix := RememberBridge(s.ix, call.provider, call.signature, now), pending := s.pending - {r})
  }

  ghost predicate Run(actions: seq<Action>, times: seq<int>, states: seq<State>) {
    && |times| == |actions| && |states| == |actions| + 1
    && states[0] == State(EMPTY_INDEX, map[], [])
    && forall i :: 0 <= i < |actions| ==> Step(states[i], actions[i], times[i], states[i + 1])
  }

  /** An answered call to p carried the full prompt for exactly these tools. */
  ghost predicate Teaches(e: Event, p: Id, tools: multiset<ToolSpec>) {
    e.Answered? && e.call.provider == p && e.call.prompt.FullTools? && multiset(e.call.prompt.listed) == tools
  }

  ghost predicate Taught(log: seq<Event>, p: Id, tools: multiset<ToolSpec>) {
    exists k :: 0 <= k < |log| && Teaches(log[k], p, tools)
  }

  lemma TaughtLasts(log: seq<Event>, e: Event, p: Id, tools: multiset<ToolSpec>)
    requires Taught(log, p, tools)
    ensures Taught(log + [e], p, tools)
  {
    var k :| 0 <= k < |log| && Teaches(log[k], p, tools);
    assert (log + [e])[k] == log[k];
  }

  /** What is known of a call: a reminder only follows teaching. */
  ghost predicate Justified(log: seq<Event>, call: Sent) {
    && (call.prompt.FullTools? ==> call.prompt.listed == call.listed)
    && (call.signature.Signature? ==> multiset(call.signature.tools) == multiset(call.listed))
    && (call.prompt.Reminder? ==> call.signature.Signature? && Taught(log, call.provider, multiset(call.listed)))
  }

  ghost predicate IndexTaught(s: State) {
    forall p :: p in s.ix.toolBridge.ctx ==>
      s.ix.toolBridge.ctx[p].Signature? && Taught(s.log, p, multiset(s.ix.toolBridge.ctx[p].tools))
  }

  ghost predicate PendingJustified(s: State) {
    forall r :: r in s.pending ==>
      && Justified(s.log, s.pending[r].call)
      && (s.pending[r].Recording? && s.pending[r].call.signature.Signature? ==>
            Taught(s.log, s.pending[r].call.provider, multiset(s.pending[r].call.listed)))
  }

  ghost predicate LogJustified(log: seq<Event>) {
    forall k :: 0 <= k < |log| ==> Justified(log[..k], log[k].call)
  }

  ghost predicate Inv(s: State) {
    IndexTaught(s) && PendingJustified(s) && LogJustified(s.log)
  }

  lemma JustifiedLasts(log: seq<Event>, e: Event, call: Sent)
    requires Justified(log, call)
    ensures Justified(log + [e], call)
  {
    if call.prompt.Reminder? {
      TaughtLasts(log, e, call.provider, multiset(call.listed));
    }
  }

  lemma LogGrows(log: seq<Event>, e: Event)
    requires LogJustified(log) && Justified(log, e.call)
    ensures LogJustified(log + [e])
  {
    forall k | 0 <= k < |log + [e]| ensures Justified((log + [e])[..k], (log + [e])[k].call) {
      assert (log + [e])[..k] == log[..k];
      assert log[..|log|] == log;
    }
  }

  /** Growing the log by a justified event keeps everything that was known. */
  lemma InvLogs(s: State, e: Event)
    requires Inv(s) && Justified(s.log, e.call)
    ensures Inv(s.(log := s.log + [e]))
  {
    forall p | p in s.ix.toolBridge.ctx ensures Taught(s.log + [e], p, multiset(s.ix.toolBridge.ctx[p].tools)) {
      TaughtLasts(s.log, e, p, multiset(s.ix.toolBridge.ctx[p].tools));
    }
    forall r | r in s.pending
      ensures Justified(s.log + [e], s.pending[r].call)
      ensures s.pending[r].Recording? && s.pending[r].call.signature.Signature? ==>
                Taught(s.log + [e], s.pending[r].call.provider, multiset(s.pending[r].call.listed))
    {
      JustifiedLasts(s.log, e, s.pending[r].call);
      if s.pending[r].Recording? && s.pending[r].call.signature.Signature? {
        TaughtLasts(s.log, e, s.pending[r].call.provider, multiset(s.pending[r].call.listed));
      }
    }
    LogGrows(s.log, e);
  }

  lemma InvDispatch(s: State, r: nat, call: Sent)
    requires Inv(s) && Justified(s.log, call)
    ensures Inv(Dispatch(s, r, call))
  {
    InvLogs(s.(pending := s.pending[r := Waiting(call)]), Dispatched(call));
  }

  /** Every other operation on the index can only lose tool-bridge entries. */
  ghost predicate BridgeShrinks(ix: Index, next: Index) {
    forall p :: p in next.toolBridge.ctx ==> p in ix.toolBridge.ctx && next.toolBridge.ctx[p] == ix.toolBridge.ctx[p]
  }

  lemma RememberedKeepsBridge(ix: Index, plan: ContextPlan, now: int)
    ensures Remembered(ix, plan, now).toolBridge == ix.toolBridge
  {
  }

  lemma PruneShrinks(ix: Index, now: int, next: Index)
    requires PruneStep(ix, now, next)
    ensures BridgeShrinks(ix, next)
  {
    hide Orphaned, DropFrontier;
  }

  lemma LookupKeepsBridge(ix: Index, op: Op, now: int)
    requires LooksUp(op)
    ensures Lookup(ix, op, now).1.toolBridge == ix.toolBridge
  {
    hide Fingerprint, WindowFingerprint, RootFingerprint, Ready, IsStale, Find;
  }

  lemma ForgetShrinks(ix: Index, p: Id)
    ensures BridgeShrinks(ix, Forget(ix, p))
  {
  }

  lemma OtherShrinks(ix: Index, op: Op, now: int, next: Index)
    requires ContextIndex.Step(ix, op, now, next) && !op.BridgeRemember?
    ensures BridgeShrinks(ix, next)
  {
    hide PruneStep, Remembered, Memorable, Forget, Lookup;
    match op {
      case Remember(plan, up) =>
        if Memorable(plan, up) {
          var mid :| PruneStep(ix, now, mid) && next == Remembered(mid, plan, now);
          PruneShrinks(ix, now, mid);
          RememberedKeepsBridge(mid, plan, now);
        }
      case ForgetProvider(p) => ForgetShrinks(ix, p);
      case Recover => PruneShrinks(ix, now, next);
      case _ => LookupKeepsBridge(ix, op, now);
    }
  }

  lemma InvShrinks(s: State, ix: Index)
    requires Inv(s) && BridgeShrinks(s.ix, ix)
    ensures Inv(s.(ix := ix))
  {
  }

  lemma InvAnswer(s: State, r: nat)
    requires Inv(s) && r in s.pending && s.pending[r].Waiting?
    ensures Inv(s.(pending := s.pending[r := Recording(s.pending[r].call)],
                   log := s.log + [Answered(s.pending[r].call)]))
  {
    var call := s.pending[r].call;
    var e := Answered(call);
    InvLogs(s, e);
    if call.prompt.FullTools? {
      assert (s.log + [e])[|s.log|] == e;
      assert Teaches(e, call.provider, multiset(call.listed));
    }
    assert call.signature.Signature? ==> Taught(s.log + [e], call.provider, multiset(call.listed));
  }

  lemma InvStep(s: State, a: Action, now: int, next: State)
    requires Inv(s) && Step(s, a, now, next)
    ensures Inv(next)
  {
    match a {
      case Other(op) =>
        OtherShrinks(s.ix, op, now, next.ix);
        InvShrinks(s, next.ix);
        assert next == s.(ix := next.ix);
      case Begin(r, plan, tools, signature) =>
        var prompt := ChoosePrompt(s.ix, plan, Listed(tools), signature);
        InvDispatch(s, r, Sent(plan.provider, prompt, Listed(tools), signature));
      case Fail(r) =>
      case Migrate(r, drawn) =>
        var call := s.pending[r].call;
        InvShrinks(s, Forget(s.ix, call.provider));
        InvDispatch(s.(ix := Forget(s.ix, call.provider)), r,
                    Sent(drawn, FullTools(call.listed), call.listed, call.signature));
      case Answer(r) => InvAnswer(s, r);
      case Record(r) =>
    }
  }

  lemma {:induction false} ReachableInv(actions: seq<Action>, times: seq<int>, states: seq<State>, i: nat)
    requires Run(actions, times, states) && i < |states|
    ensures Inv(states[i])
  {
    if i == 0 {
    } else {
      ReachableInv(actions, times, states, i - 1);
      InvStep(states[i - 1], actions[i - 1], times[i - 1], states[i]);
    }
  }

  /** In every run, with requests interleaved in any way: a reminder only goes to a
      provider conversation that was earlier given, in an answered call, the full
      prompt for exactly the request's tools. */
  lemma ReminderFollowsFullList(actions: seq<Action>, times: seq<int>, states: seq<State>, i: nat, k: nat)
    requires Run(actions, times, states) && i < |states|
    requires k < |states[i].log| && states[i].log[k].call.prompt.Reminder?
    ensures exists j ::
      0 <= j < k && Teaches(states[i].log[j], states[i].log[k].call.provider, multiset(states[i].log[k].call.listed))
  {
    ReachableInv(actions, times, states, i);
    var log, call := states[i].log, states[i].log[k].call;
    assert Justified(log[..k], call);
    var j :| 0 <= j < k && Teaches(log[..k][j], call.provider, multiset(call.listed));
    assert log[j] == log[..k][j];
  }
}
