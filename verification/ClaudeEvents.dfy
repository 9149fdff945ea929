/** The Claude event translator (claude_service.go): provider events become a
    bracketed, indexed event stream for a sink that may close at any point. */
module ClaudeEvents {
  import opened Text

  datatype Kind = Thinking | Prose | ToolUse(id: string, name: string)

  datatype Event =
    | MessageStart
    | BlockStart(index: int, kind: Kind)
    | BlockDelta(index: int, kind: Kind, delta: string)
    | BlockStop(index: int)
    | MessageDelta(stopReason: string, outputTokens: nat)
    | MessageStop

  datatype ProviderEvent = ThinkingText(delta: string) | ContentDelta(delta: string) | OtherEvent

  /** The content blocks of an answer so far, newest last: each Start opens a block
      and each Add puts a delta into the open one. */
  datatype Draft = Nothing | Start(before: Draft, kind: Kind) | Add(before: Draft, delta: string)

  // ---- The word of an answer ----

  function Count(d: Draft): nat {
    match d
    case Nothing => 0
    case Start(before, _) => Count(before) + 1
    case Add(before, _) => Count(before)
  }

  function LastKind(d: Draft): Kind {
    match d
    case Nothing => Prose
    case Start(_, kind) => kind
    case Add(before, _) => LastKind(before)
  }

  /** Deltas only go into blocks. */
  predicate Good(d: Draft) {
    match d
    case Nothing => true
    case Start(before, _) => Good(before)
    case Add(before, _) => Good(before) && before != Nothing
  }

  predicate EndsWith(d: Draft, kind: Kind) {
    d != Nothing && LastKind(d) == kind
  }

  /** The events of a draft whose last block is still open. */
  function OpenWord(d: Draft): seq<Event>
    decreases d, 0
  {
    match d
    case Nothing => [MessageStart]
    case Start(before, kind) => ClosedWord(before) + [BlockStart(Count(before), kind)]
    case Add(before, delta) => OpenWord(before) + [BlockDelta(Count(before) - 1, LastKind(before), delta)]
  }

  /** The same with every block stopped. */
  function ClosedWord(d: Draft): seq<Event>
    decreases d, 1
  {
    if d == Nothing then [MessageStart] else OpenWord(d) + [BlockStop(Count(d) - 1)]
  }

  function Tail(stopReason: string, outputTokens: nat): seq<Event> {
    [MessageDelta(stopReason, outputTokens), MessageStop]
  }

  function Opened(d: Draft, kind: Kind): Draft {
    if EndsWith(d, kind) then d else Start(d, kind)
  }

  /** Consecutive events of one kind share a block; an empty thinking delta may
      open one but adds nothing to it. */
  function Push(d: Draft, e: ProviderEvent): Draft {
    match e
    case ThinkingText(delta) => if delta == "" then Opened(d, Thinking) else Add(Opened(d, Thinking), delta)
    case ContentDelta(delta) => Add(Opened(d, Prose), delta)
    case OtherEvent => d
  }

  function DraftOf(events: seq<ProviderEvent>): Draft {
    if events == [] then Nothing else Push(DraftOf(events[..|events| - 1]), events[|events| - 1])
  }

  function ContentOf(events: seq<ProviderEvent>): string {
    if events == [] then ""
    else
      var last := events[|events| - 1];
      ContentOf(events[..|events| - 1]) + (if last.ContentDelta? then last.delta else "")
  }

  function ThinkingOf(events: seq<ProviderEvent>): string {
    if events == [] then ""
    else
      var last := events[|events| - 1];
      ThinkingOf(events[..|events| - 1]) + (if last.ThinkingText? then last.delta else "")
  }

  /** What an obliging sink receives for a provider run. */
  function DirectWord(events: seq<ProviderEvent>, failed: bool): seq<Event> {
    var d := DraftOf(events);
    if failed then ClosedWord(d)
    else ClosedWord(if d == Nothing then Start(d, Prose) else d) + Tail("end_turn", |ContentOf(events)| / 4)
  }

  /** How many events the sink accepts before it refuses for good. */
  datatype Limit = Endless | AtMost(n: nat)

  function TakeUpTo<T>(s: seq<T>, limit: Limit): (taken: seq<T>)
    ensures taken <= s && |taken| == if limit.AtMost? && limit.n < |s| then limit.n else |s|
  {
    if limit.Endless? || limit.n >= |s| then s else s[..limit.n]
  }

  lemma {:induction false} OpenStep(d: Draft)
    ensures match d
      case Nothing => OpenWord(d) == [MessageStart]
      case Start(before, kind) => OpenWord(d) == ClosedWord(before) + [BlockStart(Count(before), kind)]
      case Add(before, delta) =>
        OpenWord(d) == OpenWord(before) + [BlockDelta(Count(before) - 1, LastKind(before), delta)]
  {
    hide Count, LastKind;
    match d {
      case Nothing => hide ClosedWord;
      case Start(before, kind) => hide ClosedWord;
      case Add(before, delta) => hide ClosedWord;
    }
  }

  lemma {:induction false} CloseStep(d: Draft)
    ensures ClosedWord(d) == if d == Nothing then [MessageStart] else OpenWord(d) + [BlockStop(Count(d) - 1)]
  {
    hide OpenWord, Count;
  }

  lemma {:induction false} CountStep(d: Draft)
    ensures match d
      case Nothing => Count(d) == 0
      case Start(before, kind) => Count(d) == Count(before) + 1 && LastKind(d) == kind
      case Add(before, _) => Count(d) == Count(before) && LastKind(d) == LastKind(before)
  {
  }

  /** The words of a draft, from those of the draft before. */
  lemma {:induction false} WordStep(d: Draft)
    ensures match d
      case Nothing => OpenWord(d) == [MessageStart]
      case Start(before, kind) => OpenWord(d) == ClosedWord(before) + [BlockStart(Count(before), kind)]
      case Add(before, delta) =>
        OpenWord(d) == OpenWord(before) + [BlockDelta(Count(before) - 1, LastKind(before), delta)]
    ensures ClosedWord(d) == if d == Nothing then [MessageStart] else OpenWord(d) + [BlockStop(Count(d) - 1)]
    ensures match d
      case Nothing => Count(d) == 0
      case Start(before, kind) => Count(d) == Count(before) + 1 && LastKind(d) == kind
      case Add(before, _) => Count(d) == Count(before) && LastKind(d) == LastKind(before)
  {
    hide OpenWord, ClosedWord, Count, LastKind;
    OpenStep(d);
    CloseStep(d);
    CountStep(d);
  }

  // ---- The translator ----

  class Translator {
    const limit: Limit
    var sent: seq<Event>
    var contentIndex: nat
    var blockOpen: bool
    var inThinking: bool
    var outputLen: nat

    constructor (limit: Limit)
      ensures this.limit == limit && sent == []
      ensures contentIndex == 0 && !blockOpen && !inThinking && outputLen == 0
    {
      this.limit := limit;
      sent := [];
      contentIndex, blockOpen, inThinking, outputLen := 0, false, false, 0;
    }

    predicate Full()
      reads this
    {
      limit.AtMost? && |sent| >= limit.n
    }

    predicate Bounded()
      reads this
    {
      limit.AtMost? ==> |sent| <= limit.n
    }

    method OnEvent(e: Event) returns (ok: bool)
      requires Bounded()
      modifies this`sent
      ensures Bounded()
      ensures ok == !old(Full())
      ensures sent == if ok then old(sent) + [e] else old(sent)
    {
      ok := !Full();
      if ok {
        sent := sent + [e];
      }
    }

    /** Nothing has been refused: everything up to the open block was accepted. */
    ghost predicate InStep(d: Draft)
      reads this
    {
      && Bounded() && Good(d)
      && sent == OpenWord(d)
      && blockOpen == (d != Nothing)
      && contentIndex == (if d == Nothing then 0 else Count(d) - 1)
      && inThinking == EndsWith(d, Thinking)
      && OnlyProse(d)
    }

    /** The same with no block open. */
    ghost predicate Between(d: Draft)
      reads this
    {
      Bounded() && Good(d) && OnlyProse(d) && sent == ClosedWord(d) && !blockOpen && contentIndex == Count(d)
    }

    /** The sink has refused part of word. */
    ghost predicate CutShort(word: seq<Event>)
      reads this
    {
      Bounded() && Full() && sent <= word
    }

    /** live says that nothing has been refused yet; a closed sink takes nothing. */
    method CloseBlock(ghost d: Draft, ghost live: bool) returns (ok: bool)
      requires Bounded() && if live then InStep(d) else Full()
      modifies this`sent, this`blockOpen, this`contentIndex
      ensures Bounded()
      ensures live && ok ==> Between(d)
      ensures live && !ok ==> d != Nothing && CutShort(OpenWord(d))
      ensures !live ==> sent == old(sent)
    {
      hide OpenWord, ClosedWord, Count, LastKind, Good, OnlyProse;
      WordStep(d);
      WordStep(Nothing);
      if blockOpen {
        blockOpen := false;
        ok := OnEvent(BlockStop(contentIndex));
        if !ok {
          return;
        }
        contentIndex := contentIndex + 1;
      }
      ok := true;
    }

    method StartBlock(kind: Kind, ghost d: Draft) returns (ok: bool)
      requires Between(d) && (kind == Thinking || kind == Prose)
      modifies this
      ensures outputLen == old(outputLen)
      ensures ok ==> InStep(Start(d, kind))
      ensures !ok ==> CutShort(ClosedWord(d))
    {
      ok := OnEvent(BlockStart(contentIndex, kind));
      if ok {
        blockOpen := true;
        inThinking := kind == Thinking;
      }
    }

    /** A delta for the open block. */
    method SendDelta(kind: Kind, delta: string, ghost d: Draft) returns (ok: bool)
      requires InStep(d) && EndsWith(d, kind)
      modifies this`sent
      ensures ok ==> InStep(Add(d, delta))
      ensures !ok ==> CutShort(OpenWord(Add(d, delta)))
    {
      ok := OnEvent(BlockDelta(contentIndex, kind, delta));
    }

    method HandleThinking(delta: string, ghost d: Draft) returns (ok: bool)
      requires InStep(d)
      modifies this
      ensures ok ==> InStep(Push(d, ThinkingText(delta))) && outputLen == old(outputLen)
      ensures !ok ==> CutShort(OpenWord(Push(d, ThinkingText(delta))))
    {
      hide OpenWord, ClosedWord, Count;
      WordStep(Nothing);
      PushExtends(d, ThinkingText(delta));
      if !inThinking {
        ok := CloseBlock(d, true);
        if !ok {
          return;
        }
        ok := StartBlock(Thinking, d);
        if !ok {
          return;
        }
      }
      if delta != "" {
        ok := SendDelta(Thinking, delta, Opened(d, Thinking));
        return;
      }
      ok := true;
    }

    method HandleContent(delta: string, ghost d: Draft) returns (ok: bool)
      requires InStep(d)
      modifies this
      ensures ok ==> InStep(Push(d, ContentDelta(delta))) && outputLen == old(outputLen) + |delta|
      ensures !ok ==> CutShort(OpenWord(Push(d, ContentDelta(delta))))
    {
      hide OpenWord, ClosedWord, Count;
      WordStep(Nothing);
      PushExtends(d, ContentDelta(delta));
      LastIsPlain(d);
      if inThinking {
        ok := CloseBlock(d, true);
        if !ok {
          return;
        }
        inThinking := false;
      }
      if !blockOpen {
        ok := StartBlock(Prose, d);
        if !ok {
          return;
        }
      }
      outputLen := outputLen + |delta|;
      ok := SendDelta(Prose, delta, Opened(d, Prose));
    }

    method Handle(e: ProviderEvent, ghost d: Draft) returns (ok: bool)
      requires InStep(d)
      modifies this
      ensures ok ==> InStep(Push(d, e))
      ensures ok ==> outputLen == old(outputLen) + if e.ContentDelta? then |e.delta| else 0
      ensures !ok ==> CutShort(OpenWord(Push(d, e)))
    {
      match e {
        case ThinkingText(delta) => ok := HandleThinking(delta, d);
        case ContentDelta(delta) => ok := HandleContent(delta, d);
        case OtherEvent => ok := true;
      }
    }

    /** The provider run: events arrive until there are none left or one is refused. */
    method Receive(events: seq<ProviderEvent>, ghost failed: bool) returns (ok: bool)
      requires InStep(Nothing) && outputLen == 0 && contentIndex == 0
      modifies this
      ensures ok ==> InStep(DraftOf(events)) && outputLen == |ContentOf(events)|
      ensures !ok ==> CutShort(DirectWord(events, failed))
    {
      ok := true;
      var i := 0;
      while i < |events| && ok
        invariant 0 <= i <= |events|
        invariant ok ==> InStep(DraftOf(events[..i])) && outputLen == |ContentOf(events[..i])|
        invariant !ok ==> CutShort(DirectWord(events, failed))
      {
        assert events[..i + 1][..i] == events[..i];
        OpenIsPrefix(events, failed, i + 1);
        ok := Handle(events[i], DraftOf(events[..i]));
        i := i + 1;
      }
      assert ok ==> events[..i] == events;
    }

    method SendTail(stopReason: string, outputTokens: nat)
      requires Bounded()
      modifies this`sent
      ensures Bounded()
      ensures sent == TakeUpTo(old(sent) + Tail(stopReason, outputTokens), limit)
    {
      var ok := OnEvent(MessageDelta(stopReason, outputTokens));
      if !ok {
        return;
      }
      ok := OnEvent(MessageStop);
    }

    /** The end of an unfailed run: an empty text block if there was no block at
        all, then the closing events. */
    method Finish()
      requires Bounded()
      modifies this`sent
      ensures Bounded()
      ensures sent == TakeUpTo(old(sent)
        + ((if contentIndex == 0 && !blockOpen then [BlockStart(0, Prose), BlockStop(0)] else [])
           + Tail("end_turn", outputLen / 4)), limit)
    {
      if contentIndex == 0 && !blockOpen {
        var ok := OnEvent(BlockStart(0, Prose));
        if !ok {
          return;
        }
        ok := OnEvent(BlockStop(0));
        if !ok {
          return;
        }
      }
      SendTail("end_turn", outputLen / 4);
    }

    /** streamDirect: the sink accepts exactly the first events of the word, all of
        them when it never refuses. */
    method StreamDirect(events: seq<ProviderEvent>, streamErr: bool) returns (failed: bool)
      requires sent == [] && contentIndex == 0 && !blockOpen && !inThinking && outputLen == 0
      modifies this
      ensures sent == TakeUpTo(DirectWord(events, streamErr), limit)
      ensures failed ==> streamErr
      ensures !limit.AtMost? ==> failed == streamErr
    {
      hide OpenWord, ClosedWord, Count, LastKind, DraftOf, ContentOf;
      WordStep(Nothing);
      failed := false;
      ghost var d := DraftOf(events);
      var ok := OnEvent(MessageStart);
      DirectWordStarts(events, streamErr);
      if !ok {
        return;
      }
      ghost var live := Receive(events, streamErr);
      DraftIsGood(events);
      CountPositive(d);
      ok := CloseBlock(d, live);
      ClosedIsPrefix(events, streamErr);
      if !ok {
        return;
      }
      if streamErr {
        return true;
      }
      DirectWordEnds(events);
      ghost var before := sent;
      assert live ==> (contentIndex == 0 && !blockOpen <==> d == Nothing) && outputLen == |ContentOf(events)|;
      ghost var end := (if d == Nothing then [BlockStart(0, Prose), BlockStop(0)] else [])
        + Tail("end_turn", |ContentOf(events)| / 4);
      Finish();
      if live {
        assert before == ClosedWord(d);
        assert sent == TakeUpTo(before + end, limit);
        assert sent == TakeUpTo(DirectWord(events, false), limit);
      } else {
        assert |before| == limit.n && before == DirectWord(events, false)[..limit.n];
        assert sent == before;
      }
    }

    method SendToolUse(u: ToolUseCall, ghost d: Draft) returns (ok: bool)
      requires Bounded() && sent == ClosedWord(d) && contentIndex == Count(d)
      modifies this`sent, this`contentIndex
      ensures Bounded()
      ensures var next := Add(Start(d, ToolUse(u.id, u.name)), u.inputJSON);
        if ok then sent == ClosedWord(next) && contentIndex == Count(next) else CutShort(ClosedWord(next))
    {
      ghost var start := Start(d, ToolUse(u.id, u.name));
      ok := OnEvent(BlockStart(contentIndex, ToolUse(u.id, u.name)));
      if !ok {
        return;
      }
      assert sent == OpenWord(start);
      ok := OnEvent(BlockDelta(contentIndex, ToolUse(u.id, u.name), u.inputJSON));
      if !ok {
        return;
      }
      assert sent == OpenWord(Add(start, u.inputJSON));
      ok := OnEvent(BlockStop(contentIndex));
      if !ok {
        return;
      }
      contentIndex := contentIndex + 1;
    }

    method SendToolUses(uses: seq<ToolUseCall>) returns (ok: bool)
      requires Bounded() && sent == [MessageStart] && contentIndex == 0
      modifies this`sent, this`contentIndex
      ensures Bounded()
      ensures if ok then sent == ClosedWord(ToolDraft(uses)) else CutShort(ClosedWord(ToolDraft(uses)))
    {
      var i := 0;
      while i < |uses|
        invariant 0 <= i <= |uses|
        invariant Bounded() && sent == ClosedWord(ToolDraft(uses[..i])) && contentIndex == Count(ToolDraft(uses[..i]))
      {
        assert uses[..i + 1][..i] == uses[..i];
        ok := SendToolUse(uses[i], ToolDraft(uses[..i]));
        if !ok {
          ToolDraftGrows(uses, i + 1);
          return;
        }
        i := i + 1;
      }
      assert uses[..i] == uses;
      ok := true;
    }

    method SendChunks(chunks: seq<string>) returns (ok: bool)
      requires Bounded() && sent == [MessageStart] && contentIndex == 0
      modifies this`sent, this`contentIndex
      ensures Bounded()
      ensures if ok then sent == ClosedWord(ChunkDraft(chunks)) else CutShort(ClosedWord(ChunkDraft(chunks)))
    {
      hide OpenWord, ClosedWord, ChunkDraft;
      NoChunks();
      ChunkDraftGrows(chunks, 0);
      ok := OnEvent(BlockStart(contentIndex, Prose));
      if !ok {
        return;
      }
      var i := 0;
      while i < |chunks|
        invariant 0 <= i <= |chunks|
        invariant Bounded() && sent == OpenWord(ChunkDraft(chunks[..i])) && contentIndex == 0
      {
        ChunkDraftGrows(chunks, i);
        NextChunk(chunks, i);
        ok := OnEvent(BlockDelta(contentIndex, Prose, chunks[i]));
        if !ok {
          return;
        }
        i := i + 1;
      }
      assert chunks[..i] == chunks;
      ChunkDraftGrows(chunks, i);
      ChunksClose(chunks);
      ok := OnEvent(BlockStop(contentIndex));
      if !ok {
        return;
      }
      contentIndex := contentIndex + 1;
    }

    method SendBuffered(uses: seq<ToolUseCall>, text: string, outputTokens: nat)
      requires Bounded() && sent == [] && contentIndex == 0
      modifies this`sent, this`contentIndex
      ensures sent == TakeUpTo(BufferedWord(uses, text, outputTokens), limit)
    {
      ToolDraftGrows(uses, 0);
      ChunkDraftGrows(SplitAfterSpaces(text), 0);
      var ok := OnEvent(MessageStart);
      if !ok {
        return;
      }
      if uses != [] {
        ok := SendToolUses(uses);
        if !ok {
          return;
        }
        SendTail("tool_use", outputTokens);
      } else {
        var chunks := SplitResponseIntoChunks(text);
        ok := SendChunks(chunks);
        if !ok {
          return;
        }
        SendTail("end_turn", outputTokens);
      }
    }

    /** streamWithToolBridge: nothing is sent before the provider is done; parse is
        the tool-bridge reading of the buffered text. */
    method StreamWithToolBridge(events: seq<ProviderEvent>, streamErr: bool,
                                parse: string -> (seq<ToolUseCall>, string)) returns (failed: bool)
      requires sent == [] && contentIndex == 0
      modifies this`sent, this`contentIndex
      ensures failed == streamErr
      ensures streamErr ==> sent == []
      ensures !streamErr ==>
        sent == TakeUpTo(BufferedWord(parse(ContentOf(events)).0, parse(ContentOf(events)).1,
                                      |ContentOf(events)| / 4), limit)
    {
      var fullText := BufferContent(events);
      if streamErr {
        return true;
      }
      failed := false;
      var (uses, text) := parse(fullText);
      SendBuffered(uses, text, |fullText| / 4);
    }
  }

  method BufferContent(events: seq<ProviderEvent>) returns (fullText: string)
    ensures fullText == ContentOf(events)
  {
    fullText := "";
    for i := 0 to |events|
      invariant fullText == ContentOf(events[..i])
    {
      assert events[..i + 1][..i] == events[..i];
      if events[i].ContentDelta? {
        fullText := fullText + events[i].delta;
      }
    }
    assert events[..|events|] == events;
  }

  /** What an obliging sink receives for a buffered answer. */
  function BufferedWord(uses: seq<ToolUseCall>, text: string, outputTokens: nat): seq<Event> {
    if uses != [] then ClosedWord(ToolDraft(uses)) + Tail("tool_use", outputTokens)
    else ClosedWord(ChunkDraft(SplitAfterSpaces(text))) + Tail("end_turn", outputTokens)
  }

  /** Only the two kinds streamDirect opens. */
  predicate OnlyProse(d: Draft) {
    match d
    case Nothing => true
    case Start(before, kind) => OnlyProse(before) && (kind == Thinking || kind == Prose)
    case Add(before, _) => OnlyProse(before)
  }

  // ---- Growth of the word ----

  lemma {:induction false} PushExtends(d: Draft, e: ProviderEvent)
    ensures OpenWord(d) <= OpenWord(Push(d, e))
    ensures !e.OtherEvent? && !EndsWith(d, if e.ThinkingText? then Thinking else Prose) ==>
      ClosedWord(d) <= OpenWord(Push(d, e))
  {
    hide OpenWord, ClosedWord, Count, LastKind;
    var next := Opened(d, if e.ThinkingText? then Thinking else Prose);
    WordStep(d);
    WordStep(next);
    WordStep(Push(d, e));
  }

  lemma {:induction false} LastIsPlain(d: Draft)
    requires OnlyProse(d)
    ensures LastKind(d) == Thinking || LastKind(d) == Prose
  {
    if !d.Add? {
    } else {
      LastIsPlain(d.before);
    }
  }

  lemma {:induction false} CountPositive(d: Draft)
    requires Good(d)
    ensures Count(d) == 0 <==> d == Nothing
  {
    if !d.Add? {
    } else {
      CountPositive(d.before);
    }
  }

  lemma {:induction false} DraftIsGood(events: seq<ProviderEvent>)
    ensures Good(DraftOf(events)) && OnlyProse(DraftOf(events))
  {
    if events == [] {
    } else {
      DraftIsGood(events[..|events| - 1]);
    }
  }

  lemma {:induction false} DirectWordEnds(events: seq<ProviderEvent>)
    ensures DirectWord(events, false) == ClosedWord(DraftOf(events))
      + ((if DraftOf(events) == Nothing then [BlockStart(0, Prose), BlockStop(0)] else [])
         + Tail("end_turn", |ContentOf(events)| / 4))
  {
    if DraftOf(events) == Nothing {
      assert ClosedWord(Start(Nothing, Prose)) == [MessageStart, BlockStart(0, Prose), BlockStop(0)];
    }
  }

  lemma {:induction false} ClosedIsPrefix(events: seq<ProviderEvent>, failed: bool)
    ensures OpenWord(DraftOf(events)) <= ClosedWord(DraftOf(events)) <= DirectWord(events, failed)
  {
    var d := DraftOf(events);
    assert ClosedWord(d) <= ClosedWord(if d == Nothing then Start(d, Prose) else d);
  }

  lemma {:induction false} OpenIsPrefix(events: seq<ProviderEvent>, failed: bool, i: nat)
    requires i <= |events|
    ensures OpenWord(DraftOf(events[..i])) <= DirectWord(events, failed)
    decreases |events| - i
  {
    hide OpenWord, Push, DirectWord, ClosedWord;
    if i < |events| {
      OpenIsPrefix(events, failed, i + 1);
      assert events[..i + 1][..i] == events[..i];
      PushExtends(DraftOf(events[..i]), events[i]);
    } else {
      assert events[..i] == events;
      ClosedIsPrefix(events, failed);
    }
  }

  lemma DirectWordStarts(events: seq<ProviderEvent>, failed: bool)
    ensures [MessageStart] <= DirectWord(events, failed)
  {
    OpenIsPrefix(events, failed, 0);
  }

  // ---- The grammar of the event stream ----

  /** Where a reader of the event stream stands. */
  datatype Reader = Fresh | AtBlock(next: int) | InBlock(index: int, kind: Kind) | Ending(blocks: int) | Done | Broken

  function Read(r: Reader, e: Event): Reader {
    match (r, e)
    case (Fresh, MessageStart) => AtBlock(0)
    case (AtBlock(n), BlockStart(i, kind)) => if i == n then InBlock(n, kind) else Broken
    case (InBlock(n, kind), BlockDelta(i, k, _)) => if i == n && k == kind then r else Broken
    case (InBlock(n, kind), BlockStop(i)) => if i == n then AtBlock(n + 1) else Broken
    case (AtBlock(n), MessageDelta(_, _)) => if n >= 1 then Ending(n) else Broken
    case (Ending(_), MessageStop) => Done
    case _ => Broken
  }

  function ReadAll(r: Reader, events: seq<Event>): Reader {
    if events == [] then r else Read(ReadAll(r, events[..|events| - 1]), events[|events| - 1])
  }

  lemma {:induction false} ReadOne(r: Reader, events: seq<Event>, e: Event)
    ensures ReadAll(r, events + [e]) == Read(ReadAll(r, events), e)
  {
    assert (events + [e])[..|events|] == events;
  }

  lemma {:induction false} PrefixIsSound(r: Reader, events: seq<Event>, n: nat)
    requires n <= |events| && ReadAll(r, events) != Broken
    ensures ReadAll(r, events[..n]) != Broken
  {
    if n == |events| {
      assert events[..n] == events;
    } else {
      var front := events[..|events| - 1];
      PrefixIsSound(r, front, n);
      assert front[..n] == events[..n];
    }
  }

  lemma {:induction false} OpenWordReads(d: Draft)
    requires Good(d)
    ensures ReadAll(Fresh, OpenWord(d)) == if d == Nothing then AtBlock(0) else InBlock(Count(d) - 1, LastKind(d))
    decreases d, 0
  {
    hide ReadAll, OpenWord, ClosedWord;
    match d {
      case Nothing =>
        WordStep(Nothing);
        MessageStartReads();
      case Start(before, kind) =>
        ClosedWordReads(before);
        StartReads(before, kind);
      case Add(before, delta) =>
        OpenWordReads(before);
        AddReads(before, delta);
    }
  }

  lemma {:induction false} StartReads(before: Draft, kind: Kind)
    requires ReadAll(Fresh, ClosedWord(before)) == AtBlock(Count(before))
    ensures ReadAll(Fresh, OpenWord(Start(before, kind))) == InBlock(Count(before), kind)
  {
    hide ReadAll, ClosedWord, Count;
    ReadOne(Fresh, ClosedWord(before), BlockStart(Count(before), kind));
  }

  lemma {:induction false} AddReads(before: Draft, delta: string)
    requires ReadAll(Fresh, OpenWord(before)) == InBlock(Count(before) - 1, LastKind(before))
    ensures ReadAll(Fresh, OpenWord(Add(before, delta))) == InBlock(Count(before) - 1, LastKind(before))
  {
    hide ReadAll, Count, LastKind;
    assert OpenWord(Add(before, delta)) == OpenWord(before) + [BlockDelta(Count(before) - 1, LastKind(before), delta)];
    hide OpenWord;
    ReadOne(Fresh, OpenWord(before), BlockDelta(Count(before) - 1, LastKind(before), delta));
  }

  lemma MessageStartReads()
    ensures ReadAll(Fresh, [MessageStart]) == AtBlock(0)
  {
    ReadOne(Fresh, [], MessageStart);
    assert [] + [MessageStart] == [MessageStart];
  }

  lemma {:induction false} ClosedWordReads(d: Draft)
    requires Good(d)
    ensures ReadAll(Fresh, ClosedWord(d)) == AtBlock(Count(d))
    decreases d, 1
  {
    if d == Nothing {
      MessageStartReads();
    } else {
      hide ReadAll, OpenWord;
      OpenWordReads(d);
      StopReads(OpenWord(d), Count(d) - 1, LastKind(d));
    }
  }

  lemma {:induction false} StopReads(events: seq<Event>, n: int, kind: Kind)
    requires ReadAll(Fresh, events) == InBlock(n, kind)
    ensures ReadAll(Fresh, events + [BlockStop(n)]) == AtBlock(n + 1)
  {
    ReadOne(Fresh, events, BlockStop(n));
  }

  lemma {:induction false} TailReads(events: seq<Event>, blocks: int, stopReason: string, outputTokens: nat)
    requires ReadAll(Fresh, events) == AtBlock(blocks) && blocks >= 1
    ensures ReadAll(Fresh, events + Tail(stopReason, outputTokens)) == Done
  {
    var end := MessageDelta(stopReason, outputTokens);
    ReadOne(Fresh, events, end);
    ReadOne(Fresh, events + [end], MessageStop);
    assert events + [end] + [MessageStop] == events + Tail(stopReason, outputTokens);
  }

  /** Whatever the provider interleaves, the events the sink accepts never break
      the grammar: message_start, blocks 0, 1, ... each started, fed deltas of its
      own type and stopped, message_delta, message_stop. */
  lemma AcceptedEventsFollowGrammar(events: seq<ProviderEvent>, failed: bool, limit: Limit)
    ensures ReadAll(Fresh, TakeUpTo(DirectWord(events, failed), limit)) != Broken
  {
    WholeWordReads(events, failed);
    var word := DirectWord(events, failed);
    PrefixIsSound(Fresh, word, if limit.AtMost? && limit.n < |word| then limit.n else |word|);
    assert word[..|word|] == word;
  }

  /** An obliging sink and an unfailed provider: the whole word, with a block. */
  lemma {:induction false} WholeWordReads(events: seq<ProviderEvent>, failed: bool)
    ensures ReadAll(Fresh, DirectWord(events, failed)) == if failed then AtBlock(Count(DraftOf(events))) else Done
  {
    var d := DraftOf(events);
    DraftIsGood(events);
    CountPositive(d);
    var full := if d == Nothing then Start(d, Prose) else d;
    ClosedWordReads(d);
    ClosedWordReads(full);
    if !failed {
      TailReads(ClosedWord(full), Count(full), "end_turn", |ContentOf(events)| / 4);
    }
  }

  // ---- What the client reads ----

  /** The deltas of one type, put together. */
  function TextOf(events: seq<Event>, kind: Kind): string {
    if events == [] then ""
    else
      var e := events[|events| - 1];
      var so := TextOf(events[..|events| - 1], kind);
      if e.BlockDelta? && e.kind == kind then so + e.delta else so
  }

  function DraftText(d: Draft, kind: Kind): string {
    match d
    case Nothing => ""
    case Start(before, _) => DraftText(before, kind)
    case Add(before, delta) =>
      if LastKind(before) == kind then DraftText(before, kind) + delta else DraftText(before, kind)
  }

  lemma {:induction false} TextOne(events: seq<Event>, e: Event, kind: Kind)
    ensures TextOf(events + [e], kind)
         == if e.BlockDelta? && e.kind == kind then TextOf(events, kind) + e.delta else TextOf(events, kind)
  {
    assert (events + [e])[..|events|] == events;
  }

  lemma {:induction false} WordText(d: Draft, kind: Kind)
    ensures TextOf(OpenWord(d), kind) == DraftText(d, kind)
    ensures TextOf(ClosedWord(d), kind) == DraftText(d, kind)
  {
    hide TextOf, OpenWord, ClosedWord, Count, LastKind;
    WordStep(d);
    match d {
      case Nothing => StartText(kind);
      case Start(before, k) =>
        WordText(before, kind);
        TextOne(ClosedWord(before), BlockStart(Count(before), k), kind);
      case Add(before, delta) =>
        WordText(before, kind);
        TextOne(OpenWord(before), BlockDelta(Count(before) - 1, LastKind(before), delta), kind);
    }
    if d != Nothing {
      TextOne(OpenWord(d), BlockStop(Count(d) - 1), kind);
    }
  }

  lemma {:induction false} StartText(kind: Kind)
    ensures TextOf([MessageStart], kind) == ""
  {
    TextOne([], MessageStart, kind);
    assert [] + [MessageStart] == [MessageStart];
  }

  lemma {:induction false} PushText(d: Draft, e: ProviderEvent)
    requires OnlyProse(d)
    ensures DraftText(Push(d, e), Prose) == DraftText(d, Prose) + (if e.ContentDelta? then e.delta else "")
    ensures DraftText(Push(d, e), Thinking) == DraftText(d, Thinking) + (if e.ThinkingText? then e.delta else "")
  {
    LastIsPlain(d);
  }

  lemma {:induction false} DraftKeepsText(events: seq<ProviderEvent>)
    ensures DraftText(DraftOf(events), Prose) == ContentOf(events)
    ensures DraftText(DraftOf(events), Thinking) == ThinkingOf(events)
  {
    if events == [] {
    } else {
      var front := events[..|events| - 1];
      DraftKeepsText(front);
      DraftIsGood(front);
      PushText(DraftOf(front), events[|events| - 1]);
    }
  }

  lemma {:induction false} TailText(events: seq<Event>, stopReason: string, outputTokens: nat, kind: Kind)
    ensures TextOf(events + Tail(stopReason, outputTokens), kind) == TextOf(events, kind)
  {
    var end := MessageDelta(stopReason, outputTokens);
    TextOne(events, end, kind);
    TextOne(events + [end], MessageStop, kind);
    assert events + [end] + [MessageStop] == events + Tail(stopReason, outputTokens);
  }

  /** Nothing is lost and nothing is invented: the text deltas add up to the
      provider's content and the thinking deltas to its thinking. */
  lemma {:induction false} WordKeepsText(events: seq<ProviderEvent>, failed: bool)
    ensures TextOf(DirectWord(events, failed), Prose) == ContentOf(events)
    ensures TextOf(DirectWord(events, failed), Thinking) == ThinkingOf(events)
  {
    var d := DraftOf(events);
    var full := if d == Nothing && !failed then Start(d, Prose) else d;
    DraftKeepsText(events);
    forall kind | kind == Prose || kind == Thinking
      ensures TextOf(DirectWord(events, failed), kind) == DraftText(d, kind)
    {
      WordText(full, kind);
      TailText(ClosedWord(full), "end_turn", |ContentOf(events)| / 4, kind);
    }
  }

  // ---- The buffered path ----

  datatype ToolUseCall = ToolUseCall(id: string, name: string, inputJSON: string)

  function ToolDraft(uses: seq<ToolUseCall>): Draft {
    if uses == [] then Nothing
    else
      var u := uses[|uses| - 1];
      Add(Start(ToolDraft(uses[..|uses| - 1]), ToolUse(u.id, u.name)), u.inputJSON)
  }

  function ChunkDraft(chunks: seq<string>): Draft {
    if chunks == [] then Start(Nothing, Prose)
    else Add(ChunkDraft(chunks[..|chunks| - 1]), chunks[|chunks| - 1])
  }

  /** The text cut after each space. */
  function SplitAfterSpaces(text: string): seq<string> {
    var i := FirstSpace(text);
    if i < 0 then [text] else [text[..i + 1]] + SplitAfterSpaces(text[i + 1..])
  }

  function FirstSpace(s: string): (i: int)
    ensures -1 <= i < |s|
    ensures i >= 0 ==> s[i] == ' ' && ' ' !in s[..i]
    ensures i < 0 ==> ' ' !in s
  {
    if s == "" then -1
    else if s[0] == ' ' then 0
    else
      var j := FirstSpace(s[1..]);
      assert j >= 0 ==> s[..j + 1] == [s[0]] + s[1..][..j];
      if j < 0 then -1 else j + 1
  }

  lemma {:induction false} ChunkingIsLossless(text: string)
    ensures Concat(SplitAfterSpaces(text)) == text
  {
    var i := FirstSpace(text);
    if i < 0 {
      assert [text][1..] == [];
    } else {
      ChunkingIsLossless(text[i + 1..]);
      assert ([text[..i + 1]] + SplitAfterSpaces(text[i + 1..]))[1..] == SplitAfterSpaces(text[i + 1..]);
    }
  }

  /** strings.Split on a single space. */
  function SplitWords(text: string): seq<string> {
    var i := FirstSpace(text);
    if i < 0 then [text] else [text[..i]] + SplitWords(text[i + 1..])
  }

  /** The same cuts, the space left out. */
  function WithSpaces(words: seq<string>): seq<string> {
    if |words| <= 1 then words else [words[0] + " "] + WithSpaces(words[1..])
  }

  lemma {:induction false} WordsAreChunks(text: string)
    ensures SplitWords(text) != [] && WithSpaces(SplitWords(text)) == SplitAfterSpaces(text)
  {
    var i := FirstSpace(text);
    if i < 0 {
    } else {
      WordsAreChunks(text[i + 1..]);
      assert text[..i + 1] == text[..i] + " ";
      assert SplitWords(text)[1..] == SplitWords(text[i + 1..]);
    }
  }

  lemma {:induction false} WithSpacesAt(words: seq<string>, i: nat)
    requires i < |words|
    ensures |WithSpaces(words)| == |words|
    ensures WithSpaces(words)[i] == words[i] + (if i < |words| - 1 then " " else "")
  {
    if |words| > 1 {
      WithSpacesAt(words[1..], if i == 0 then 0 else i - 1);
    } else {
      assert words[0] + "" == words[0];
    }
  }

  method SplitResponseIntoChunks(text: string) returns (chunks: seq<string>)
    ensures chunks == SplitAfterSpaces(text)
    ensures Concat(chunks) == text
  {
    var words := SplitWords(text);
    WordsAreChunks(text);
    WithSpacesAt(words, 0);
    chunks := [];
    for i := 0 to |words|
      invariant |SplitAfterSpaces(text)| == |words|
      invariant chunks == SplitAfterSpaces(text)[..i]
    {
      WithSpacesAt(words, i);
      var content := words[i];
      if i < |words| - 1 {
        content := content + " ";
      }
      assert content == SplitAfterSpaces(text)[i];
      chunks := chunks + [content];
      assert SplitAfterSpaces(text)[..i + 1] == SplitAfterSpaces(text)[..i] + [content];
    }
    ChunkingIsLossless(text);
  }

  lemma {:induction false} ToolDraftGrows(uses: seq<ToolUseCall>, i: nat)
    requires i <= |uses|
    ensures ClosedWord(ToolDraft(uses[..i])) <= ClosedWord(ToolDraft(uses))
    ensures [MessageStart] <= ClosedWord(ToolDraft(uses))
    decreases |uses| - i
  {
    if i < |uses| {
      ToolDraftGrows(uses, i + 1);
      assert uses[..i + 1][..i] == uses[..i];
      var u := uses[i];
      var d := ToolDraft(uses[..i]);
      var start := Start(d, ToolUse(u.id, u.name));
      assert ClosedWord(d) <= OpenWord(start) <= OpenWord(Add(start, u.inputJSON));
    } else {
      assert uses[..i] == uses;
      ClosedStarts(ToolDraft(uses));
    }
  }

  lemma {:induction false} ClosedStarts(d: Draft)
    ensures [MessageStart] <= OpenWord(d) && [MessageStart] <= ClosedWord(d)
  {
    if d.Start? || d.Add? {
      ClosedStarts(d.before);
    }
  }

  lemma {:induction false} ChunkDraftGrows(chunks: seq<string>, i: nat)
    requires i <= |chunks|
    ensures OpenWord(ChunkDraft(chunks[..i])) <= ClosedWord(ChunkDraft(chunks))
    ensures [MessageStart] <= ClosedWord(ChunkDraft(chunks))
    ensures Count(ChunkDraft(chunks[..i])) == 1 && LastKind(ChunkDraft(chunks[..i])) == Prose
    decreases |chunks| - i
  {
    ClosedStarts(ChunkDraft(chunks));
    ChunkDraftIsOneBlock(chunks[..i]);
    if i < |chunks| {
      ChunkDraftGrows(chunks, i + 1);
      assert chunks[..i + 1][..i] == chunks[..i];
    } else {
      assert chunks[..i] == chunks;
    }
  }

  lemma NoChunks()
    ensures OpenWord(ChunkDraft([])) == [MessageStart, BlockStart(0, Prose)]
  {
    WordStep(Start(Nothing, Prose));
  }

  lemma NextChunk(chunks: seq<string>, i: nat)
    requires i < |chunks|
    ensures OpenWord(ChunkDraft(chunks[..i + 1]))
      == OpenWord(ChunkDraft(chunks[..i])) + [BlockDelta(0, Prose, chunks[i])]
  {
    hide OpenWord;
    assert chunks[..i + 1][..i] == chunks[..i];
    ChunkDraftIsOneBlock(chunks[..i]);
    WordStep(ChunkDraft(chunks[..i + 1]));
  }

  lemma {:induction false} ChunksClose(chunks: seq<string>)
    ensures ClosedWord(ChunkDraft(chunks)) == OpenWord(ChunkDraft(chunks)) + [BlockStop(0)]
  {
    hide OpenWord, ClosedWord, ChunkDraft;
    ChunkDraftIsOneBlock(chunks);
    WordStep(ChunkDraft(chunks));
  }

  lemma {:induction false} ChunkDraftIsOneBlock(chunks: seq<string>)
    ensures ChunkDraft(chunks) != Nothing && Good(ChunkDraft(chunks))
    ensures Count(ChunkDraft(chunks)) == 1 && LastKind(ChunkDraft(chunks)) == Prose
    ensures DraftText(ChunkDraft(chunks), Prose) == Concat(chunks)
  {
    if chunks == [] {
    } else {
      var front := chunks[..|chunks| - 1];
      ChunkDraftIsOneBlock(front);
      ConcatPush(front, chunks[|chunks| - 1]);
      assert front + [chunks[|chunks| - 1]] == chunks;
    }
  }

  lemma {:induction false} ToolDraftIsGood(uses: seq<ToolUseCall>)
    ensures Good(ToolDraft(uses)) && Count(ToolDraft(uses)) == |uses|
  {
    if uses == [] {
    } else {
      ToolDraftIsGood(uses[..|uses| - 1]);
    }
  }

  /** The buffered answer obeys the same grammar, one block per tool call; without
      tool calls its chunks add up to the text that was cut. */
  lemma BufferedWordIsWhole(uses: seq<ToolUseCall>, text: string, outputTokens: nat)
    ensures ReadAll(Fresh, BufferedWord(uses, text, outputTokens)) == Done
    ensures uses == [] ==> TextOf(BufferedWord(uses, text, outputTokens), Prose) == text
  {
    var chunks := SplitAfterSpaces(text);
    var d := if uses != [] then ToolDraft(uses) else ChunkDraft(chunks);
    var stop := if uses != [] then "tool_use" else "end_turn";
    ToolDraftIsGood(uses);
    ChunkDraftIsOneBlock(chunks);
    ClosedWordReads(d);
    TailReads(ClosedWord(d), Count(d), stop, outputTokens);
    if uses == [] {
      ChunkingIsLossless(text);
      WordText(d, Prose);
      TailText(ClosedWord(d), stop, outputTokens, Prose);
    }
  }
}
