/** When the short reminder is sent instead of the full tool list, over every interleaving
    of requests: exactly where the same tools were the last taught (openai_service.go). */
module ToolBridgeReminders {
  import opened Text
  import opened Messages
  import opened Tables
  import opened ContextIndex
  import opened ToolBridgeReuse

  // ---- The tools listed ----

  /** A function tool with a name. */
  predicate Named(t: Tool) {
    ToLower(t.kind) == "function" && TrimSpace(t.name) != ""
  }

  ghost predicate ListedAt(tools: seq<Tool>, listed: seq<ToolSpec>, ps: seq<nat>) {
    && Marks(tools, Named, ps) && |listed| == |ps|
    && forall i :: 0 <= i < |ps| ==>
         listed[i] == ToolSpec(TrimSpace(tools[ps[i]].name), TrimSpace(tools[ps[i]].description),
                               TrimSpace(tools[ps[i]].parameters))
  }

  lemma NoneListed()
    ensures ListedAt([], [], [])
  {
  }

  lemma ListedPush(tools: seq<Tool>, listed: seq<ToolSpec>, ps: seq<nat>, t: Tool)
    requires ListedAt(tools, listed, ps)
    ensures ListedAt(tools + [t], if Named(t) then listed + [SpecOf(t)] else listed,
                     if Named(t) then ps + [|tools|] else ps)
  {
    hide Named, Marks, TrimSpace;
    MarksPush(tools, Named, ps, t);
    MarkedInside(tools, Named, ps);
  }

  /** A full prompt lists the named function tools of the request, in its order. */
  lemma {:induction false} ListedAre(tools: seq<Tool>) returns (ps: seq<nat>)
    ensures ListedAt(tools, Listed(tools), ps)
  {
    hide ListedAt, SpecOf, TrimSpace;
    ps := [];
    if tools == [] {
      NoneListed();
    } else {
      var n := |tools| - 1;
      var front := ListedAre(tools[..n]);
      ListedPush(tools[..n], Listed(tools[..n]), front, tools[n]);
      assert tools == tools[..n] + [tools[n]];
      assert Listed(tools[..n]) + [] == Listed(tools[..n]);
      ps := if Named(tools[n]) then front + [n] else front;
    }
  }

  // ---- What was taught last ----

  /** A tool set and when it was taught. */
  datatype Lesson = Untaught | Lesson(signature: Signature, at: int)

  /** The step clears old lessons away: a request's answer is recorded, or its teaching is,
      or the index is pruned for a migration. */
  ghost predicate Clears(s: State, a: Action) {
    match a
    case Record(r) =>
      r in s.pending && s.pending[r].call.provider != NoId && s.pending[r].call.signature != NoSignature
    case Other(op) => op.Recover? || (op.Remember? && Memorable(op.plan, op.up))
    case _ => false
  }

  /** A lesson is too old after twelve hours, but is forgotten only by a step that clears. */
  ghost function Remaining(s: State, a: Action, now: int, lesson: Lesson): Lesson {
    if lesson.Lesson? && Clears(s, a) && now - lesson.at > 12 * 3600 * 1_000_000_000 then Untaught else lesson
  }

  /** The tool set p was last taught, by the history alone: that of the last request recorded
      there; none when p was given up since, or when that was too long ago and has been
      cleared. */
  ghost function LastTaught(actions: seq<Action>, times: seq<int>, states: seq<State>, n: nat, p: Id): Lesson
    requires n <= |actions| == |times| < |states|
  {
    if n == 0 then Untaught
    else
      var s, a, now := states[n - 1], actions[n - 1], times[n - 1];
      var kept := Remaining(s, a, now, LastTaught(actions, times, states, n - 1, p));
      match a
      case Record(r) =>
        if r in s.pending && s.pending[r].call.provider == p && s.pending[r].call.signature != NoSignature
          then Lesson(s.pending[r].call.signature, now) else kept
      case Migrate(r, _) => if r in s.pending && s.pending[r].call.provider == p then Untaught else kept
      case Other(op) => if op == ForgetProvider(p) then Untaught else kept
      case _ => kept
  }

  function LessonIn(t: Table<Id, Signature>, p: Id): Lesson {
    if p in t.ctx && p in t.at then Lesson(t.ctx[p], t.at[p]) else Untaught
  }

  lemma ExpiredLesson(t: Table<Id, Signature>, now: int, p: Id)
    requires Synced(t)
    ensures var (lesson, next) := (LessonIn(t, p), Expire(t, now, TRANSCRIPT_CONTEXT_TTL));
      && Synced(next)
      && LessonIn(next, p) == if lesson.Lesson? && now - lesson.at > TRANSCRIPT_CONTEXT_TTL then Untaught else lesson
  {
  }

  lemma DroppedLesson(t: Table<Id, Signature>, q: Id, p: Id)
    requires Synced(t)
    ensures Synced(Drop(t, {q})) && LessonIn(Drop(t, {q}), p) == if p == q then Untaught else LessonIn(t, p)
  {
  }

  lemma PutLesson(t: Table<Id, Signature>, q: Id, signature: Signature, now: int, p: Id)
    requires Synced(t)
    ensures var next := Put(t, q, signature, now);
      Synced(next) && LessonIn(next, p) == if p == q then Lesson(signature, now) else LessonIn(t, p)
  {
  }

  lemma PruneExpires(ix: Index, now: int, next: Index)
    requires PruneStep(ix, now, next)
    ensures next.toolBridge == Expire(ix.toolBridge, now, TRANSCRIPT_CONTEXT_TTL)
  {
    hide Capped, Orphaned, DropFrontier, Expire;
  }

  lemma ForgetsBridge(ix: Index, p: Id)
    ensures Forget(ix, p).toolBridge == if p == NoId then ix.toolBridge else Drop(ix.toolBridge, {p})
  {
  }

  /** What an index operation does to the table. */
  lemma OtherBridge(ix: Index, op: Op, now: int, next: Index)
    requires ContextIndex.Step(ix, op, now, next) && !op.BridgeRemember?
    ensures next.toolBridge
      == if op.Recover? || (op.Remember? && Memorable(op.plan, op.up))
           then Expire(ix.toolBridge, now, TRANSCRIPT_CONTEXT_TTL)
         else if op.ForgetProvider? && op.provider != NoId then Drop(ix.toolBridge, {op.provider})
         else ix.toolBridge
  {
    hide PruneStep, Remembered, Memorable, Forget, Lookup, Expire, Drop;
    match op {
      case Remember(plan, up) =>
        if Memorable(plan, up) {
          var mid :| PruneStep(ix, now, mid) && next == Remembered(mid, plan, now);
          PruneExpires(ix, now, mid);
          RememberedKeepsBridge(mid, plan, now);
        }
      case ForgetProvider(p) => ForgetsBridge(ix, p);
      case Recover => PruneExpires(ix, now, next);
      case _ => LookupKeepsBridge(ix, op, now);
    }
  }

  /** The table after a step. */
  ghost predicate BridgeStep(s: State, a: Action, now: int, next: Table<Id, Signature>) {
    var t := s.ix.toolBridge;
    var cleared := Expire(t, now, TRANSCRIPT_CONTEXT_TTL);
    match a
    case Record(r) =>
      r in s.pending &&
      var call := s.pending[r].call;
      next == if Clears(s, a) then Put(cleared, call.provider, call.signature, now) else t
    case Migrate(r, _) =>
      r in s.pending &&
      var p := s.pending[r].call.provider;
      next == if p == NoId then t else Drop(t, {p})
    case Other(op) =>
      next == if Clears(s, a) then cleared
              else if op.ForgetProvider? && op.provider != NoId then Drop(t, {op.provider}) else t
    case _ => next == t
  }

  lemma StepBridge(s: State, a: Action, now: int, next: State)
    requires ToolBridgeReuse.Step(s, a, now, next)
    ensures BridgeStep(s, a, now, next.ix.toolBridge)
  {
    hide Expire, Drop, Put, IsSignature, ChoosePrompt, Listed, ContextIndex.Step, Forget, Memorable;
    match a {
      case Other(op) => OtherBridge(s.ix, op, now, next.ix);
      case Migrate(r, drawn) => ForgetsBridge(s.ix, s.pending[r].call.provider);
      case _ =>
    }
  }

  lemma {:induction false} LessonIsLastTaught(actions: seq<Action>, times: seq<int>, states: seq<State>, n: nat, p: Id)
    requires ToolBridgeReuse.Run(actions, times, states) && n < |states| && p != NoId
    ensures Synced(states[n].ix.toolBridge)
    ensures LessonIn(states[n].ix.toolBridge, p) == LastTaught(actions, times, states, n, p)
  {
    hide ToolBridgeReuse.Step;
    if n == 0 {
    } else {
      LessonIsLastTaught(actions, times, states, n - 1, p);
      assert ToolBridgeReuse.Step(states[n - 1], actions[n - 1], times[n - 1], states[n]);
      StepBridge(states[n - 1], actions[n - 1], times[n - 1], states[n]);
      StepTaught(actions, times, states, n, p);
    }
  }

  lemma {:induction false} StepTaught(actions: seq<Action>, times: seq<int>, states: seq<State>, n: nat, p: Id)
    requires |times| == |actions| < |states| && 1 <= n <= |actions| && p != NoId
    requires BridgeStep(states[n - 1], actions[n - 1], times[n - 1], states[n].ix.toolBridge)
    requires Synced(states[n - 1].ix.toolBridge)
    requires LessonIn(states[n - 1].ix.toolBridge, p) == LastTaught(actions, times, states, n - 1, p)
    ensures Synced(states[n].ix.toolBridge)
    ensures LessonIn(states[n].ix.toolBridge, p) == LastTaught(actions, times, states, n, p)
  {
    hide Expire, Drop, Put, LessonIn, Synced, Memorable;
    var s, a, now := states[n - 1], actions[n - 1], times[n - 1];
    var t := s.ix.toolBridge;
    ExpiredLesson(t, now, p);
    if a.Record? {
      var call := s.pending[a.request].call;
      PutLesson(Expire(t, now, TRANSCRIPT_CONTEXT_TTL), call.provider, call.signature, now, p);
    } else if a.Migrate? {
      DroppedLesson(t, s.pending[a.request].call.provider, p);
    } else if a.Other? && a.op.ForgetProvider? {
      DroppedLesson(t, a.op.provider, p);
    }
  }

  /** In every run: a request is sent the reminder exactly when it continues a conversation
      whose last teaching, by an answered request that was recorded and neither given up nor
      cleared since, was of this same tool set; otherwise it is sent the full list of its
      tools. */
  lemma ReminderIff(actions: seq<Action>, times: seq<int>, states: seq<State>, i: nat)
    requires ToolBridgeReuse.Run(actions, times, states)
    requires i < |actions| && actions[i].Begin?
    ensures var (r, plan, sig) := (actions[i].request, actions[i].plan, actions[i].signature);
      && r in states[i + 1].pending && states[i + 1].pending[r].Waiting?
      && var call := states[i + 1].pending[r].call;
      && states[i + 1].log == states[i].log + [Dispatched(call)] && call.provider == plan.provider
      && (call.prompt == Reminder <==>
            plan.autoContext && plan.provider != NoId && sig != NoSignature
            && var lesson := LastTaught(actions, times, states, i, plan.provider);
            lesson.Lesson? && lesson.signature == sig)
      && (call.prompt != Reminder ==> call.prompt == FullTools(Listed(actions[i].tools)))
  {
    hide LastTaught, Listed, IsSignature;
    assert ToolBridgeReuse.Step(states[i], actions[i], times[i], states[i + 1]);
    if actions[i].plan.provider != NoId {
      LessonIsLastTaught(actions, times, states, i, actions[i].plan.provider);
    }
  }
}
