/** What a streamed chat completion hands over at its end, and from which response, said
    of the model's texts alone (openai_service.go). */
module ToolBridgeDelivery {
  import opened Text
  import opened Messages
  import opened ToolBridgePlan
  import opened ToolBridgeStream
  import opened ToolBridgeMeaning
  import JsonScan

  // ---- The end of a stream ----

  /** Four characters a token, each part rounded down. */
  function Counted(usage: bool, prompt: nat, completion: nat): seq<Chunk> {
    if usage then [UsageChunk(prompt / 4, completion / 4, prompt / 4 + completion / 4)] else []
  }

  /** Text that was not held back is already with the client: only the finish and the usage
      follow. A plan's calls or its text come before the finish otherwise, and nothing
      follows when the plan failed. */
  lemma TailHandsOver(req: ToolRequest, codec: Codec, text: string, repair: Repair, held: bool, usage: bool,
                      prompt: nat)
    ensures var plan := Resolved(req, codec, text, repair);
      Tail(held, plan, usage, prompt, |text|)
      == if !held then [FinishChunk("stop")] + Counted(usage, prompt, |text|)
         else if plan.err.Some? then []
         else if plan.calls != [] then
           [ToolCallsChunk(plan.calls), FinishChunk("tool_calls")] + Counted(usage, prompt, |text|)
         else if TrimSpace(plan.content) != "" then
           [ContentChunk(plan.content), FinishChunk("stop")] + Counted(usage, prompt, |plan.content|)
         else [FinishChunk("stop")] + Counted(usage, prompt, |text|)
  {
    hide Resolved, TrimSpace, GoodCall;
    ResolvedIsGood(req, codec, text, repair);
  }

  /** A held-back answer that makes tool calls: the client is handed those calls, in order,
      under their names and with the arguments the model sent, and finish_reason
      tool_calls. */
  lemma CallsAreHandedOver(req: ToolRequest, codec: Codec, text: string, repair: Repair, usage: bool, prompt: nat,
                           k: nat)
    requires Faithful(codec) && TakesAt(req, codec, text, k)
    requires var payload := codec.payload(JsonScan.Candidates(StripCodeFence(text))[k]).value;
      ToLower(TrimSpace(payload.status)) == "tool_calls"
    ensures var payload := codec.payload(JsonScan.Candidates(StripCodeFence(text))[k]).value;
      var tail := Tail(true, Resolved(req, codec, text, repair), usage, prompt, |text|);
      && |tail| >= 2 && tail[0].ToolCallsChunk? && tail[1] == FinishChunk("tool_calls")
      && Answers(codec, payload.toolCalls, tail[0].calls)
      && tail[2..] == Counted(usage, prompt, |text|)
  {
    hide Faithful, Resolved, Tail, Delivers, TrimSpace, ToLower, StripCodeFence, Acceptable, MustCall, LooksLikeAttempt;
    OutputIs(req, codec, text, repair);
    TailHandsOver(req, codec, text, repair, true, usage, prompt);
    TakesOnce(req, codec, text, k);
  }

  /** There is only one first object that may be taken. */
  lemma TakesOnce(req: ToolRequest, codec: Codec, text: string, k: nat)
    requires TakesAt(req, codec, text, k)
    ensures forall j: nat :: TakesAt(req, codec, text, j) ==> j == k
  {
    hide TakeableText, StripCodeFence;
  }

  // ---- Whose response it is ----

  /** Something of the response was shown. */
  ghost predicate Visible(up: Upstream) {
    exists i :: 0 <= i < |up.events| && !up.events[i].Unknown? && up.events[i].delta != ""
  }

  /** A response is given up for the one from a new conversation just when it was rejected
      before anything of it was visible and there is one to give it up for; what is left
      fails as it failed, or as an empty stream when nothing was visible. */
  lemma ResponseIs(first: Upstream, fallback: Option<Upstream>)
    ensures var migrated := MustMigrate(first, fallback);
      var answer := Answer(first, fallback, migrated);
      && answer == (if first.err == Some(Rejected) && !Visible(first) && fallback.Some? then fallback.value else first)
      && (migrated <==> first.err == Some(Rejected) && !Visible(first) && fallback.Some?)
      && Outcome(answer) == (if answer.err.Some? then answer.err
                             else if Visible(answer) then None else Some(EmptyStream))
      && Before(first, migrated) == (if migrated then Thoughts(first.events) else [])
  {
  }
}
