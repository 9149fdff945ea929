/** The streamed chat completion (openai_service.go): forwarding upstream text as it
    comes, holding it back while it may still be tool-call JSON, and closing the stream
    with either content or tool calls. */
module ToolBridgeStream {
  import opened Text
  import opened Messages
  import opened ToolBridgePlan

  datatype Event = Thinking(delta: string) | Content(delta: string) | Unknown

  datatype Chunk =
    | Role
    | ReasoningChunk(delta: string)
    | ContentChunk(text: string)
    | ToolCallsChunk(calls: seq<Call>)
    | FinishChunk(reason: string)
    | UsageChunk(promptTokens: nat, completionTokens: nat, totalTokens: nat)

  datatype StreamError = Rejected | OtherError | EmptyStream | PlanFailed(err: PlanError)

  /** What one upstream call delivers. */
  datatype Upstream = Upstream(events: seq<Event>, err: Option<StreamError>)

  datatype Prefix = Undecided | ToolJson | Plain

  /** classifyToolBridgeStreamPrefix. */
  function Classify(text: string): Prefix {
    var trimmed := TrimSpace(text);
    if trimmed == "" then Undecided
    else if HasPrefix(trimmed, "```") then Undecided
    else if HasPrefix(trimmed, "{") || HasPrefix(trimmed, "[") then ToolJson
    else Plain
  }

  // ---- When held-back text is released ----

  function Deltas(events: seq<Event>): seq<string> {
    if events == [] then []
    else
      var last := events[|events| - 1];
      Deltas(events[..|events| - 1]) + (if last.Content? then [last.delta] else [])
  }

  function Thoughts(events: seq<Event>): seq<string> {
    if events == [] then []
    else
      var last := events[|events| - 1];
      Thoughts(events[..|events| - 1]) + (if last.Thinking? then [last.delta] else [])
  }

  /** The event shows the client something. */
  predicate Shows(e: Event) {
    !e.Unknown? && e.delta != ""
  }

  ghost predicate AnyShows(events: seq<Event>) {
    exists i :: 0 <= i < |events| && Shows(events[i])
  }

  /** Some chunk boundary shows a text that is plainly content. */
  ghost predicate Released(deltas: seq<string>) {
    exists k :: 0 <= k <= |deltas| && Classify(Concat(deltas[..k])) == Plain
  }

  lemma ReleasedKept(deltas: seq<string>, delta: string)
    requires Released(deltas)
    ensures Released(deltas + [delta])
  {
    var k :| 0 <= k <= |deltas| && Classify(Concat(deltas[..k])) == Plain;
    hide Classify, Concat;
    assert (deltas + [delta])[..k] == deltas[..k];
  }

  lemma {:induction false} ReleasedNow(deltas: seq<string>, delta: string)
    requires Classify(Concat(deltas) + delta) == Plain
    ensures Released(deltas + [delta])
  {
    hide Classify;
    ConcatPush(deltas, delta);
    hide Concat;
    assert (deltas + [delta])[..|deltas| + 1] == deltas + [delta];
  }

  lemma {:induction false} ReleasedEarlier(deltas: seq<string>, delta: string)
    requires Released(deltas + [delta])
    ensures Released(deltas) || Classify(Concat(deltas) + delta) == Plain
  {
    hide Classify;
    ConcatPush(deltas, delta);
    hide Concat;
    var longer := deltas + [delta];
    var k :| 0 <= k <= |longer| && Classify(Concat(longer[..k])) == Plain;
    if k <= |deltas| {
      assert longer[..k] == deltas[..k];
    } else {
      assert longer[..k] == longer;
    }
  }

  lemma {:induction false} ReleasedGrows(deltas: seq<string>, delta: string)
    ensures Released(deltas + [delta]) <==> Released(deltas) || Classify(Concat(deltas) + delta) == Plain
  {
    hide Classify, Concat;
    if Released(deltas) {
      ReleasedKept(deltas, delta);
    } else if Classify(Concat(deltas) + delta) == Plain {
      ReleasedNow(deltas, delta);
    } else if Released(deltas + [delta]) {
      ReleasedEarlier(deltas, delta);
    }
  }

  lemma {:induction false} ConcatSplit(deltas: seq<string>, k: nat)
    requires k <= |deltas|
    ensures Concat(deltas) == Concat(deltas[..k]) + Concat(deltas[k..])
  {
    assert deltas == deltas[..k] + deltas[k..];
    ConcatAppend(deltas[..k], deltas[k..]);
  }

  /** Head of the visible text. */
  predicate StartsWith(text: string, c: char) {
    TrimSpace(text) != "" && TrimSpace(text)[0] == c
  }

  /** A text whose first non-space character opens JSON is never released, however it
      is cut into chunks. */
  lemma {:induction false} JsonNeverReleased(deltas: seq<string>)
    requires StartsWith(Concat(deltas), '{') || StartsWith(Concat(deltas), '[')
    ensures !Released(deltas)
  {
    forall k | 0 <= k <= |deltas| ensures Classify(Concat(deltas[..k])) != Plain {
      ConcatSplit(deltas, k);
      if TrimSpace(Concat(deltas[..k])) != "" {
        TrimHeadStable(Concat(deltas[..k]), Concat(deltas[k..]));
      }
    }
  }

  /** The part of an opening fence a chunk boundary can leave visible. */
  predicate PartOfFence(text: string) {
    TrimSpace(text) == "`" || TrimSpace(text) == "``"
  }

  lemma {:induction false} TrimLeftStable(s: string, more: string)
    requires TrimLeft(s) != ""
    ensures TrimLeft(s + more) == TrimLeft(s) + more
  {
    if s != "" && IsSpace(s[0]) {
      assert (s + more)[1..] == s[1..] + more;
      TrimLeftStable(s[1..], more);
    }
  }

  lemma {:induction false} TrimRightKeeps(s: string, n: nat)
    requires n <= |s| && (n > 0 ==> !IsSpace(s[n - 1]))
    ensures |TrimRight(s)| >= n && TrimRight(s) <= s
  {
    if s != "" && IsSpace(s[|s| - 1]) {
      TrimRightKeeps(s[..|s| - 1], n);
      assert s[..|s| - 1] <= s;
    }
  }

  lemma {:induction false} VisibleIsPrefix(p: string, rest: string)
    requires TrimSpace(p) != ""
    ensures TrimSpace(p) <= TrimLeft(p + rest) && TrimLeft(p) <= TrimLeft(p + rest) && TrimSpace(p) <= TrimLeft(p)
  {
    assert TrimLeft(p) != "";
    TrimLeftStable(p, rest);
    TrimRightKeeps(TrimLeft(p), 0);
  }

  lemma HeadPrefix(s: string, c: char)
    ensures HasPrefix(s, [c]) <==> s != "" && s[0] == c
  {
  }

  lemma {:induction false} ShortFence(s: string)
    requires s == "`" || s == "``"
    ensures TrimRight(s) == s && !HasPrefix(s, "```") && !HasPrefix(s, "{") && !HasPrefix(s, "[")
  {
    assert s[0] == s[|s| - 1] == '`';
    HeadPrefix(s, '{');
    HeadPrefix(s, '[');
  }

  /** Where the text opens with a code fence, a boundary shows content exactly when it
      falls inside the fence. */
  lemma FencePrefix(p: string, rest: string)
    requires HasPrefix(TrimSpace(p + rest), "```")
    ensures Classify(p) == Plain <==> PartOfFence(p)
  {
    var whole := TrimLeft(p + rest);
    TrimRightKeeps(whole, 0);
    assert "```" <= whole;
    if TrimSpace(p) != "" {
      VisibleIsPrefix(p, rest);
      var seen := TrimLeft(p);
      if |seen| >= 3 {
        assert seen[2] == whole[2] == '`';
        TrimRightKeeps(seen, 3);
        assert "```" <= TrimSpace(p);
      } else {
        assert seen == whole[..|seen|];
        assert seen == "`" || seen == "``";
        ShortFence(seen);
      }
    }
  }

  /** When a chunked text is released: exactly when it says something, does not open
      with a JSON bracket, and, if it opens with a code fence, some chunk boundary cuts
      the fence. So only texts that open with a fence depend on the chunking. */
  lemma {:induction false} ReleasedIff(deltas: seq<string>)
    ensures var text := TrimSpace(Concat(deltas));
      Released(deltas) <==>
        && text != "" && text[0] != '{' && text[0] != '['
        && (HasPrefix(text, "```") ==> exists k :: 0 <= k <= |deltas| && PartOfFence(Concat(deltas[..k])))
  {
    var text := TrimSpace(Concat(deltas));
    assert deltas[..|deltas|] == deltas;
    if text == "" {
      forall k | 0 <= k <= |deltas| ensures Classify(Concat(deltas[..k])) != Plain {
        ConcatSplit(deltas, k);
        if TrimSpace(Concat(deltas[..k])) != "" {
          TrimHeadStable(Concat(deltas[..k]), Concat(deltas[k..]));
        }
      }
    } else if text[0] == '{' || text[0] == '[' {
      JsonNeverReleased(deltas);
    } else if HasPrefix(text, "```") {
      forall k | 0 <= k <= |deltas|
        ensures Classify(Concat(deltas[..k])) == Plain <==> PartOfFence(Concat(deltas[..k]))
      {
        ConcatSplit(deltas, k);
        FencePrefix(Concat(deltas[..k]), Concat(deltas[k..]));
      }
    } else {
      assert Classify(Concat(deltas[..|deltas|])) == Plain;
    }
  }

  /** A fenced tool call sent whole is held back; cut after its first backtick it is
      released as content. */
  lemma FenceSplitIsReleased(body: string)
    ensures !Released(["```" + body])
    ensures Released(["`", "``" + body])
  {
    var whole, cut := ["```" + body], ["`", "``" + body];
    assert Concat(whole) == "```" + body by {
      assert whole[1..] == [];
    }
    var text := "```" + body;
    assert TrimLeft(text) == text;
    TrimRightKeeps(text, 3);
    assert HasPrefix(TrimSpace(text), "```");
    forall k | 0 <= k <= |whole| ensures Classify(Concat(whole[..k])) != Plain {
      if k == 0 {
        assert whole[..0] == [];
        BlankTrims("");
      } else {
        assert whole[..1] == whole;
      }
    }
    assert cut[..1] == ["`"] && ["`"][1..] == [];
    assert Concat(cut[..1]) == "`";
    TrimCore("", "`", "");
    assert Classify(Concat(cut[..1])) == Plain;
  }

  /** The text and the release flag are those of the deltas so far. */
  ghost predicate Follows(deltas: seq<string>, text: string, released: bool, mayStream: bool) {
    text == Concat(deltas) && (released <==> mayStream && Released(deltas))
  }

  lemma FollowsNext(deltas: seq<string>, text: string, was: bool, mayStream: bool, delta: string, now: bool)
    requires Follows(deltas, text, was, mayStream)
    requires now <==> was || (mayStream && Classify(text + delta) == Plain)
    ensures Follows(deltas + [delta], text + delta, now, mayStream)
  {
    ConcatPush(deltas, delta);
    ReleasedGrows(deltas, delta);
  }

  // ---- What a stream may consist of ----

  /** The upstream text among the chunks. */
  function ContentOf(chunks: seq<Chunk>): string {
    if chunks == [] then ""
    else
      var last := chunks[|chunks| - 1];
      ContentOf(chunks[..|chunks| - 1]) + (if last.ContentChunk? then last.text else "")
  }

  lemma {:induction false} ContentPush(chunks: seq<Chunk>, c: Chunk)
    ensures ContentOf(chunks + [c]) == ContentOf(chunks) + (if c.ContentChunk? then c.text else "")
  {
    assert (chunks + [c])[..|chunks|] == chunks;
  }

  /** The thinking among the chunks. */
  function ReasoningOf(chunks: seq<Chunk>): seq<string> {
    if chunks == [] then []
    else
      var last := chunks[|chunks| - 1];
      ReasoningOf(chunks[..|chunks| - 1]) + (if last.ReasoningChunk? then [last.delta] else [])
  }

  lemma {:induction false} ReasoningPush(chunks: seq<Chunk>, c: Chunk)
    ensures ReasoningOf(chunks + [c]) == ReasoningOf(chunks) + (if c.ReasoningChunk? then [c.delta] else [])
  {
    assert (chunks + [c])[..|chunks|] == chunks;
  }

  ghost predicate OnlyText(chunks: seq<Chunk>) {
    forall i :: 0 <= i < |chunks| ==> chunks[i].ReasoningChunk? || chunks[i].ContentChunk?
  }

  /** The resolved answer is text that had been held back. */
  predicate HeldText(held: bool, plan: Plan) {
    held && plan.err.None? && plan.calls == [] && plan.noTool && TrimSpace(plan.content) != ""
  }

  /** How a stream whose upstream succeeded finishes, after the forwarded text: with the
      resolved tool calls and finish_reason tool_calls, or, with finish_reason stop,
      with resolved text that had been held back or nothing. */
  function Ending(held: bool, plan: Plan): seq<Chunk> {
    if held && plan.err.Some? then []
    else if held && plan.calls != [] then [ToolCallsChunk(plan.calls), FinishChunk("tool_calls")]
    else if HeldText(held, plan) then [ContentChunk(plan.content), FinishChunk("stop")]
    else [FinishChunk("stop")]
  }

  /** Roughly four characters a token. */
  function Usage(promptLength: nat, completionLength: nat): Chunk {
    UsageChunk(promptLength / 4, completionLength / 4, promptLength / 4 + completionLength / 4)
  }

  /** The finish and, when the client asked for it, the usage. */
  function Tail(held: bool, plan: Plan, usage: bool, promptLength: nat, textLength: nat): seq<Chunk> {
    Ending(held, plan)
    + (if usage && !(held && plan.err.Some?) then
         [Usage(promptLength, if HeldText(held, plan) then |plan.content| else textLength)]
       else [])
  }

  /** What one upstream call amounts to when the client takes every chunk. */
  ghost function Outcome(up: Upstream): Option<StreamError> {
    if up.err.Some? then up.err else if AnyShows(up.events) then None else Some(EmptyStream)
  }

  ghost predicate MustMigrate(first: Upstream, fallback: Option<Upstream>) {
    fallback.Some? && first.err == Some(Rejected) && !AnyShows(first.events)
  }

  lemma ShowsStep(events: seq<Event>, i: nat)
    requires i < |events|
    ensures AnyShows(events[..i + 1]) <==> AnyShows(events[..i]) || Shows(events[i])
  {
    assert events[..i + 1][i] == events[i];
    assert forall k :: 0 <= k < i ==> events[..i + 1][k] == events[..i][k];
  }

  lemma ThoughtsStep(before: seq<string>, events: seq<Event>, i: nat)
    requires i < |events|
    ensures before + Thoughts(events[..i + 1])
         == (before + Thoughts(events[..i])) + (if events[i].Thinking? then [events[i].delta] else [])
  {
    assert events[..i + 1][..i] == events[..i];
  }

  class ChatStream {
    const req: ToolRequest
    const useBridge: bool
    const includeUsage: bool
    /** What the client answers to the n-th chunk; false stops the upstream. */
    const sink: nat -> bool
    var sent: seq<Chunk>
    var completionText: string
    var undecided: bool
    var streaming: bool
    var observed: bool
    /** The content deltas handled so far, and the chunks forwarded for the events. */
    ghost var deltas: seq<string>
    ghost var body: seq<Chunk>
    ghost var thoughts: seq<string>

    constructor (req: ToolRequest, useBridge: bool, includeUsage: bool, sink: nat -> bool)
      ensures Valid() && this.req == req && this.useBridge == useBridge && this.includeUsage == includeUsage
        && this.sink == sink
      ensures deltas == [] && body == [] && thoughts == [] && !observed
    {
      this.req, this.useBridge, this.includeUsage, this.sink := req, useBridge, includeUsage, sink;
      sent, completionText, observed, deltas, body, thoughts := [Role], "", false, [], [], [];
      undecided, streaming := useBridge && !RequiresCall(req), false;
      new;
      NothingReleased();
      assert sent == [Role] + body;
    }

    ghost predicate Valid()
      reads this
    {
      && Gates() && Carries(completionText) && ReasoningOf(body) == thoughts
      && Follows(deltas, completionText, streaming, MayStream())
      && (!observed ==> completionText == "")
    }

    /** The client turns some chunk down. */
    ghost predicate Refuses() {
      exists n :: !sink(n)
    }

    /** Text is held back, but not to the end. */
    predicate MayStream() {
      useBridge && !RequiresCall(req)
    }

    ghost predicate Gates()
      reads `undecided, `streaming
    {
      (undecided <==> MayStream() && !streaming) && (streaming ==> MayStream())
    }

    /** The forwarded chunks carry the whole text, or none of it while it is held back. */
    ghost predicate Carries(text: string)
      reads `sent, `body, `streaming
    {
      sent == [Role] + body && OnlyText(body) && ContentOf(body) == if useBridge && !streaming then "" else text
    }

    /** What a content delta adds to the forwarded chunks: itself, all the text so far
        when it is released now, or nothing while it is held back. */
    ghost function NewChunks(wasStreaming: bool, delta: string): seq<Chunk>
      reads `streaming, `completionText
    {
      if !useBridge || wasStreaming then [ContentChunk(delta)]
      else if streaming then [ContentChunk(completionText)]
      else []
    }

    method Send(c: Chunk) returns (go: bool)
      modifies this`sent
      ensures sent == old(sent) + [c] && (!go ==> Refuses())
    {
      go := sink(|sent|);
      sent := sent + [c];
    }

    method Forward(c: Chunk) returns (go: bool)
      requires sent == [Role] + body && OnlyText(body) && (c.ReasoningChunk? || c.ContentChunk?)
      modifies this`sent, this`body
      ensures sent == [Role] + body && OnlyText(body) && (!go ==> Refuses())
      ensures body == old(body) + [c]
      ensures ContentOf(body) == ContentOf(old(body)) + (if c.ContentChunk? then c.text else "")
      ensures ReasoningOf(body) == ReasoningOf(old(body)) + (if c.ReasoningChunk? then [c.delta] else [])
    {
      go := Send(c);
      ContentPush(body, c);
      ReasoningPush(body, c);
      Assoc([Role], body, [c]);
      body := body + [c];
    }

    /** handleStreamEvent: false tells the upstream to stop. */
    method Handle(event: Event) returns (go: bool)
      requires Valid()
      modifies this
      ensures Valid()
      ensures deltas == old(deltas) + (if event.Content? then [event.delta] else [])
      ensures thoughts == old(thoughts) + (if event.Thinking? then [event.delta] else [])
      ensures observed <==> old(observed) || Shows(event)
      ensures !go ==> Refuses()
    {
      hide Valid, Refuses;
      NoneAdded(deltas);
      NoneAdded(thoughts);
      match event {
        case Unknown =>
          go := true;
        case Thinking(delta) =>
          go := HandleThinking(delta);
        case Content(delta) =>
          Observe(delta);
          go := HandleContent(delta);
      }
    }

    method Observe(delta: string)
      requires Valid()
      modifies this`observed
      ensures Valid() && (observed <==> old(observed) || delta != "")
    {
      observed := observed || delta != "";
    }

    /** The thinking_text case. */
    method HandleThinking(delta: string) returns (go: bool)
      requires Valid()
      modifies this`observed, this`sent, this`body, this`thoughts
      ensures Valid()
      ensures body == old(body) + [ReasoningChunk(delta)] && thoughts == old(thoughts) + [delta]
      ensures observed <==> old(observed) || delta != ""
      ensures !go ==> Refuses()
    {
      hide Gates, OnlyText, Follows, ContentOf, ReasoningOf, MayStream, Refuses;
      observed := observed || delta != "";
      go := Forward(ReasoningChunk(delta));
      thoughts := thoughts + [delta];
    }

    /** The content_delta case. */
    method HandleContent(delta: string) returns (go: bool)
      requires Valid() && (delta != "" ==> observed)
      modifies this`completionText, this`deltas, this`sent, this`body, this`undecided, this`streaming
      ensures Valid()
      ensures deltas == old(deltas) + [delta]
      ensures body == old(body) + NewChunks(old(streaming), delta)
      ensures !go ==> Refuses()
    {
      hide Gates, Carries, Follows, Classify, MayStream, Refuses, ReasoningOf, NewChunks;
      ghost var before, was := completionText, streaming;
      completionText := completionText + delta;
      go := Route(before, delta);
      FollowsNext(deltas, before, was, MayStream(), delta, streaming);
      deltas := deltas + [delta];
      assert !observed ==> completionText == "";
    }

    /** Holds the new text back, releases all of it, or forwards the new part. */
    method Route(ghost before: string, delta: string) returns (go: bool)
      requires Gates() && Carries(before) && completionText == before + delta
      modifies this`sent, this`body, this`undecided, this`streaming
      ensures Gates() && Carries(completionText) && ReasoningOf(body) == ReasoningOf(old(body))
      ensures body == old(body) + NewChunks(old(streaming), delta)
      ensures streaming <==> old(streaming) || (MayStream() && Classify(completionText) == Plain)
      ensures !go ==> Refuses()
    {
      hide Classify, RequiresCall, ContentOf, ReasoningOf;
      assert body + [] == body;
      if useBridge && RequiresCall(req) {
        return true;
      }
      if undecided {
        match Classify(completionText) {
          case Undecided => return true;
          case ToolJson => return true;
          case Plain =>
            undecided, streaming := false, true;
            go := Forward(ContentChunk(completionText));
            assert "" + completionText == completionText;
            return;
        }
      }
      if useBridge && !streaming {
        return true;
      }
      go := Forward(ContentChunk(delta));
    }

    /** Hands one upstream response to the handler until it ends or the client turns a
        chunk down; a refusal ends the call without an error. */
    method Receive(up: Upstream) returns (err: Option<StreamError>, ghost taken: nat)
      requires Valid()
      modifies this
      ensures Valid() && taken <= |up.events|
      ensures completionText == Concat(deltas) && (!observed ==> completionText == "")
      ensures deltas == old(deltas) + Deltas(up.events[..taken])
      ensures thoughts == old(thoughts) + Thoughts(up.events[..taken])
      ensures observed <==> old(observed) || AnyShows(up.events[..taken])
      ensures err.Some? ==> taken == |up.events| && err == up.err
      ensures taken < |up.events| || err != up.err ==> Refuses()
    {
      hide Gates, Carries, Released, Concat, ReasoningOf, Deltas, Thoughts, AnyShows, Shows, Refuses;
      var i := 0;
      taken := 0;
      NothingTaken(up.events);
      NoneAdded(deltas);
      NoneAdded(thoughts);
      while i < |up.events|
        invariant Valid() && i <= |up.events| && taken == i
        invariant deltas == old(deltas) + Deltas(up.events[..i])
        invariant thoughts == old(thoughts) + Thoughts(up.events[..i])
        invariant observed <==> old(observed) || AnyShows(up.events[..i])
      {
        var go := Handle(up.events[i]);
        DeltasStep(old(deltas), up.events, i);
        ThoughtsStep(old(thoughts), up.events, i);
        ShowsStep(up.events, i);
        i := i + 1;
        taken := i;
        if !go {
          return None, taken;
        }
      }
      err := up.err;
    }

    /** Tool calls, held-back text, the finish reason. */
    method SendEnding(plan: Plan) returns (completionLength: nat)
      requires useBridge && !streaming ==> plan.err.None?
      modifies this`sent
      ensures sent == old(sent) + Ending(useBridge && !streaming, plan)
      ensures completionLength == if HeldText(useBridge && !streaming, plan) then |plan.content| else |completionText|
    {
      completionLength := |completionText|;
      var finishReason := "stop";
      if useBridge && !streaming {
        if |plan.calls| > 0 {
          finishReason := "tool_calls";
          var _ := Send(ToolCallsChunk(plan.calls));
          SnocTwo(old(sent), ToolCallsChunk(plan.calls), FinishChunk("tool_calls"));
        } else if plan.noTool && TrimSpace(plan.content) != "" {
          var _ := Send(ContentChunk(plan.content));
          completionLength := |plan.content|;
          SnocTwo(old(sent), ContentChunk(plan.content), FinishChunk("stop"));
        }
      }
      var _ := Send(FinishChunk(finishReason));
    }

    /** After the upstream is done: the ending, and the usage if it was asked for. */
    method Finish(codec: Codec, repair: Repair, promptLength: nat) returns (err: Option<StreamError>)
      requires Sound(codec)
      modifies this`sent
      ensures var held, plan := useBridge && !streaming, Resolved(req, codec, completionText, repair);
        && sent == old(sent) + Tail(held, plan, includeUsage, promptLength, |completionText|)
        && err == if held && plan.err.Some? then Some(PlanFailed(plan.err.value)) else None
    {
      hide Resolved;
      NoneAdded(sent);
      var plan := Plan([], "", false, None);
      if useBridge && !streaming {
        var asked: bool;
        plan, asked := ResolveOutput(req, codec, completionText, repair);
        if plan.err.Some? {
          return Some(PlanFailed(plan.err.value));
        }
      }
      var completionLength := SendEnding(plan);
      ghost var ending := Ending(useBridge && !streaming, plan);
      NoneAdded(ending);
      if includeUsage {
        var _ := Send(Usage(promptLength, completionLength));
        Assoc(old(sent), ending, [Usage(promptLength, completionLength)]);
      }
      err := None;
    }

    /** The upstream part: a rejected first response that showed nothing is replaced by
        one from a new conversation, when there is something to send there. */
    method Upstreams(first: Upstream, fallback: Option<Upstream>)
      returns (err: Option<StreamError>, migrated: bool, ghost shown: nat)
      requires Valid() && deltas == [] && thoughts == [] && !observed
      modifies this
      ensures Valid()
      ensures migrated ==> MustMigrate(first, fallback)
      ensures shown <= |Answer(first, fallback, migrated).events|
      ensures completionText == Concat(Deltas(Answer(first, fallback, migrated).events[..shown]))
      ensures thoughts == Before(first, migrated) + Thoughts(Answer(first, fallback, migrated).events[..shown])
      ensures !Refuses() ==> shown == |Answer(first, fallback, migrated).events|
      ensures !Refuses() ==>
        (migrated <==> MustMigrate(first, fallback)) && err == Outcome(Answer(first, fallback, migrated))
    {
      hide Valid, Concat, Deltas, Thoughts, AnyShows, Refuses;
      migrated := false;
      err, shown := Receive(first);
      WholeTaken(first.events);
      NoneBefore(Deltas(first.events[..shown]));
      NoneBefore(Thoughts(first.events[..shown]));
      if err.None? && !observed {
        err := Some(EmptyStream);
      }
      if err == Some(Rejected) && !observed && fallback.Some? {
        migrated := true;
        var second := fallback.value;
        ghost var before := deltas;
        err, shown := Receive(second);
        WholeTaken(second.events);
        ConcatAppend(before, Deltas(second.events[..shown]));
        NoneBefore(Concat(Deltas(second.events[..shown])));
        if err.None? && !observed {
          err := Some(EmptyStream);
        }
      }
    }

    /** CreateChatCompletionStream from the first chunk on: the role, the forwarded text
        of one response, all of it or none, and, when the upstream succeeded, the
        tail. */
    method Run(first: Upstream, fallback: Option<Upstream>, codec: Codec, repair: Repair, promptLength: nat,
               fallbackLength: nat)
      returns (err: Option<StreamError>, ghost upErr: Option<StreamError>, migrated: bool, ghost shown: nat)
      requires Valid() && deltas == [] && thoughts == [] && !observed && Sound(codec)
      modifies this
      ensures var held, plan := useBridge && !streaming, Resolved(req, codec, completionText, repair);
        && sent == [Role] + body
                   + (if upErr.Some? then []
                      else
                        var prompt := if migrated then fallbackLength else promptLength;
                        Tail(held, plan, includeUsage, prompt, |completionText|))
        && err == if upErr.Some? then upErr
                  else if held && plan.err.Some? then Some(PlanFailed(plan.err.value)) else None
      ensures OnlyText(body) && ContentOf(body) == (if useBridge && !streaming then "" else completionText)
      ensures streaming <==> useBridge && !RequiresCall(req) && Released(deltas)
      ensures completionText == Concat(deltas)
      ensures shown <= |Answer(first, fallback, migrated).events|
      ensures completionText == Concat(Deltas(Answer(first, fallback, migrated).events[..shown]))
      ensures ReasoningOf(body) == Before(first, migrated) + Thoughts(Answer(first, fallback, migrated).events[..shown])
      ensures migrated ==> MustMigrate(first, fallback)
      ensures !Refuses() ==> shown == |Answer(first, fallback, migrated).events|
      ensures !Refuses() ==>
        (migrated <==> MustMigrate(first, fallback)) && upErr == Outcome(Answer(first, fallback, migrated))
    {
      hide Released, Concat, RequiresCall, ContentOf, ReasoningOf, Tail;
      hide Deltas, Thoughts, Before, Answer, MustMigrate, Outcome;
      hide Refuses, Resolved;
      err, migrated, shown := Upstreams(first, fallback);
      upErr := err;
      assert [Role] + body + [] == [Role] + body;
      if err.None? {
        err := Finish(codec, repair, if migrated then fallbackLength else promptLength);
      }
    }
  }

  /** How a successful stream ends: one finish chunk, preceded by at most one chunk and
      followed by nothing but the usage; finish_reason is tool_calls exactly when calls
      are sent; calls are good and sent only while the upstream text is held back; a
      required call is always there. */
  lemma TailIsSound(req: ToolRequest, codec: Codec, text: string, repair: Repair, useBridge: bool, released: bool,
                    usage: bool, promptLength: nat, textLength: nat)
    requires released ==> useBridge && !RequiresCall(req)
    ensures var held, plan := useBridge && !released, Resolved(req, codec, text, repair);
      var tail, n := Tail(held, plan, usage, promptLength, textLength), |Ending(held, plan)|;
      !(held && plan.err.Some?) ==>
        && 1 <= n <= 2 && tail[n - 1].FinishChunk?
        && |tail| == n + (if usage then 1 else 0) && (usage ==> tail[n].UsageChunk?)
        && (tail[n - 1] == FinishChunk("tool_calls") <==> n == 2 && tail[0].ToolCallsChunk?)
        && (n == 2 && tail[0].ToolCallsChunk? ==>
              !released && tail[0].calls != [] && forall i :: 0 <= i < |tail[0].calls| ==>
                GoodCall(req, codec, tail[0].calls[i]))
        && (n == 2 ==> held && (tail[0].ToolCallsChunk? || tail[0].ContentChunk?))
        && (useBridge && RequiresCall(req) ==> n == 2 && tail[0].ToolCallsChunk?)
  {
    ResolvedIsGood(req, codec, text, repair);
    hide Resolved, GoodCall;
  }

  /** Thinking forwarded from a response that was replaced: only empty deltas. */
  function Before(first: Upstream, migrated: bool): seq<string> {
    if migrated then Thoughts(first.events) else []
  }

  /** The response whose text the client sees. */
  ghost function Answer(first: Upstream, fallback: Option<Upstream>, migrated: bool): Upstream {
    if migrated && fallback.Some? then fallback.value else first
  }

  lemma NothingReleased()
    ensures !Released([])
  {
    BlankTrims("");
    var none: seq<string> := [];
    assert none[..0] == [];
  }

  lemma NoneAdded<T>(s: seq<T>)
    ensures s + [] == s
  {
  }

  lemma NoneBefore<T>(s: seq<T>)
    ensures [] + s == s
  {
  }

  lemma WholeTaken(events: seq<Event>)
    ensures events[..|events|] == events
  {
  }

  lemma NothingTaken(events: seq<Event>)
    ensures Deltas(events[..0]) == [] && Thoughts(events[..0]) == [] && !AnyShows(events[..0])
  {
  }

  lemma DeltasStep(before: seq<string>, events: seq<Event>, i: nat)
    requires i < |events|
    ensures before + Deltas(events[..i + 1])
      == (before + Deltas(events[..i])) + (if events[i].Content? then [events[i].delta] else [])
  {
    assert events[..i + 1][..i] == events[..i];
  }
}
