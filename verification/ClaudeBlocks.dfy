/** What a reader of the Claude event stream can take out of it: the blocks by index, what
    each one says, in which order, and how the message ends (claude_service.go). */
module ClaudeBlocks {
  import opened Text
  import opened ClaudeEvents

  // ---- Reading a stream ----

  /** What the events say under one index: the blocks started, their text, how often
      stopped. */
  datatype Block = Block(started: seq<Kind>, text: string, stopped: nat)

  const NO_BLOCK: Block := Block([], "", 0)

  function BlockAt(events: seq<Event>, k: int): Block {
    if events == [] then NO_BLOCK else Noted(BlockAt(events[..|events| - 1], k), events[|events| - 1], k)
  }

  function Noted(b: Block, e: Event, k: int): Block {
    match e
    case BlockStart(i, kind) => if i == k then b.(started := b.started + [kind]) else b
    case BlockDelta(i, _, delta) => if i == k then b.(text := b.text + delta) else b
    case BlockStop(i) => if i == k then b.(stopped := b.stopped + 1) else b
    case _ => b
  }

  /** How the message ends: every stop reason with its token count. */
  function Reports(events: seq<Event>): seq<(string, nat)> {
    if events == [] then []
    else
      var last := events[|events| - 1];
      Reports(events[..|events| - 1]) + if last.MessageDelta? then [(last.stopReason, last.outputTokens)] else []
  }

  /** All deltas in the order they come, whatever their block. */
  function AllDeltas(events: seq<Event>): seq<(Kind, string)> {
    if events == [] then []
    else
      var last := events[|events| - 1];
      AllDeltas(events[..|events| - 1]) + if last.BlockDelta? then [(last.kind, last.delta)] else []
  }

  /** The types of the blocks in the order they are started. */
  function AllStarts(events: seq<Event>): seq<Kind> {
    if events == [] then []
    else
      var last := events[|events| - 1];
      AllStarts(events[..|events| - 1]) + if last.BlockStart? then [last.kind] else []
  }

  lemma {:induction false} ReadPush(events: seq<Event>, e: Event, k: int)
    ensures BlockAt(events + [e], k) == Noted(BlockAt(events, k), e, k)
    ensures Reports(events + [e]) == Reports(events) + if e.MessageDelta? then [(e.stopReason, e.outputTokens)] else []
    ensures AllDeltas(events + [e]) == AllDeltas(events) + if e.BlockDelta? then [(e.kind, e.delta)] else []
    ensures AllStarts(events + [e]) == AllStarts(events) + if e.BlockStart? then [e.kind] else []
  {
    assert (events + [e])[..|events|] == events;
  }

  // ---- The word of a draft ----

  function DraftBlock(d: Draft, k: int): Block {
    match d
    case Nothing => NO_BLOCK
    case Start(before, kind) => if k == Count(before) then Block([kind], "", 1) else DraftBlock(before, k)
    case Add(before, delta) =>
      var b := DraftBlock(before, k);
      if k == Count(before) - 1 then b.(text := b.text + delta) else b
  }

  /** The block that is still open has not been stopped yet. */
  function StillOpen(d: Draft, k: int): Block {
    var b := DraftBlock(d, k);
    if d != Nothing && k == Count(d) - 1 then b.(stopped := 0) else b
  }

  lemma {:induction false} DraftBlockIs(d: Draft, k: int)
    requires Good(d)
    ensures k < 0 || k >= Count(d) ==> DraftBlock(d, k) == NO_BLOCK
    ensures 0 <= k < Count(d) ==> |DraftBlock(d, k).started| == 1 && DraftBlock(d, k).stopped == 1
    ensures d != Nothing ==> Count(d) > 0 && DraftBlock(d, Count(d) - 1).started == [LastKind(d)]
  {
    match d {
      case Nothing =>
      case Start(before, kind) => DraftBlockIs(before, k);
      case Add(before, delta) => DraftBlockIs(before, k);
    }
  }

  lemma {:induction false} WordBlocks(d: Draft, k: int)
    requires Good(d)
    ensures BlockAt(OpenWord(d), k) == StillOpen(d, k) && BlockAt(ClosedWord(d), k) == DraftBlock(d, k)
    ensures Reports(OpenWord(d)) == [] && Reports(ClosedWord(d)) == []
  {
    hide BlockAt, Reports, OpenWord, ClosedWord, Count, LastKind, AllDeltas;
    WordStep(d);
    match d {
      case Nothing =>
        ReadPush([], MessageStart, k);
        assert [] + [MessageStart] == [MessageStart];
        NothingRead(k);
      case Start(before, kind) =>
        WordBlocks(before, k);
        ReadPush(ClosedWord(before), BlockStart(Count(before), kind), k);
        DraftBlockIs(before, k);
      case Add(before, delta) =>
        WordBlocks(before, k);
        ReadPush(OpenWord(before), BlockDelta(Count(before) - 1, LastKind(before), delta), k);
    }
    if d != Nothing {
      DraftBlockIs(d, k);
      ReadPush(OpenWord(d), BlockStop(Count(d) - 1), k);
    }
  }

  lemma {:induction false} NothingRead(k: int)
    ensures BlockAt([], k) == NO_BLOCK && Reports([]) == [] && AllDeltas([]) == [] && AllStarts([]) == []
  {
  }

  lemma {:induction false} TailBlocks(events: seq<Event>, stopReason: string, outputTokens: nat, k: int)
    ensures BlockAt(events + Tail(stopReason, outputTokens), k) == BlockAt(events, k)
    ensures Reports(events + Tail(stopReason, outputTokens)) == Reports(events) + [(stopReason, outputTokens)]
    ensures AllDeltas(events + Tail(stopReason, outputTokens)) == AllDeltas(events)
    ensures AllStarts(events + Tail(stopReason, outputTokens)) == AllStarts(events)
  {
    hide BlockAt, Reports, AllDeltas, AllStarts;
    var end := MessageDelta(stopReason, outputTokens);
    ReadPush(events, end, k);
    ReadPush(events + [end], MessageStop, k);
    SnocTwo(events, end, MessageStop);
    NothingMore(Reports(events) + [(stopReason, outputTokens)]);
    NothingMore(AllDeltas(events));
    NothingMore(AllStarts(events));
  }

  lemma NothingMore<T>(s: seq<T>)
    ensures s + [] == s
  {
  }

  // ---- The buffered answer ----

  lemma {:induction false} ToolDraftBlocks(uses: seq<ToolUseCall>, k: int)
    ensures Good(ToolDraft(uses)) && Count(ToolDraft(uses)) == |uses|
    ensures DraftBlock(ToolDraft(uses), k)
      == if 0 <= k < |uses| then Block([ToolUse(uses[k].id, uses[k].name)], uses[k].inputJSON, 1) else NO_BLOCK
  {
    if uses != [] {
      ToolDraftBlocks(uses[..|uses| - 1], k);
    }
  }

  lemma {:induction false} ChunkDraftBlocks(chunks: seq<string>, k: int)
    ensures Good(ChunkDraft(chunks)) && Count(ChunkDraft(chunks)) == 1
    ensures DraftBlock(ChunkDraft(chunks), k) == if k == 0 then Block([Prose], Concat(chunks), 1) else NO_BLOCK
  {
    ChunkDraftIsOneBlock(chunks);
    if chunks != [] {
      var front := chunks[..|chunks| - 1];
      ChunkDraftBlocks(front, k);
      ConcatPush(front, chunks[|chunks| - 1]);
      assert front + [chunks[|chunks| - 1]] == chunks;
    }
  }

  /** The buffered answer has one block for each tool call, in order: started with its id and
      name, holding its input, stopped once; or one text block with the whole text. It ends
      once, with tool_use exactly when there are calls, and the tokens counted; and it obeys
      the grammar of the event stream. */
  lemma {:induction false} BufferedWordSays(uses: seq<ToolUseCall>, text: string, outputTokens: nat, k: int)
    ensures BlockAt(BufferedWord(uses, text, outputTokens), k)
      == if 0 <= k < |uses| then Block([ToolUse(uses[k].id, uses[k].name)], uses[k].inputJSON, 1)
         else if uses == [] && k == 0 then Block([Prose], text, 1)
         else NO_BLOCK
    ensures Reports(BufferedWord(uses, text, outputTokens))
      == [(if uses == [] then "end_turn" else "tool_use", outputTokens)]
    ensures ReadAll(Fresh, BufferedWord(uses, text, outputTokens)) == Done
  {
    BufferedWordIsWhole(uses, text, outputTokens);
    hide BlockAt, Reports, OpenWord, ClosedWord, Tail, ToolDraft, ChunkDraft, DraftBlock, SplitAfterSpaces;
    var chunks := SplitAfterSpaces(text);
    var d := if uses != [] then ToolDraft(uses) else ChunkDraft(chunks);
    ToolDraftBlocks(uses, k);
    ChunkDraftBlocks(chunks, k);
    ChunkingIsLossless(text);
    WordBlocks(d, k);
    TailBlocks(ClosedWord(d), if uses == [] then "end_turn" else "tool_use", outputTokens, k);
  }

  /** A chunk ends with its only space; the last one has none. */
  predicate EndsInSpace(chunk: string, isLast: bool) {
    if isLast then ' ' !in chunk else chunk != "" && chunk[|chunk| - 1] == ' ' && ' ' !in chunk[..|chunk| - 1]
  }

  lemma {:induction false} FirstChunk(text: string)
    ensures var at := FirstSpace(text);
      if at < 0 then EndsInSpace(text, true) else EndsInSpace(text[..at + 1], false)
  {
    var at := FirstSpace(text);
    if at >= 0 {
      assert text[..at + 1][..at] == text[..at];
    }
  }

  /** Text is cut after each space and nowhere else. */
  lemma {:induction false} SpacesCut(text: string, i: nat)
    requires i < |SplitAfterSpaces(text)|
    ensures EndsInSpace(SplitAfterSpaces(text)[i], i == |SplitAfterSpaces(text)| - 1)
    ensures Concat(SplitAfterSpaces(text)) == text
    decreases |text|
  {
    hide FirstSpace, EndsInSpace;
    ChunkingIsLossless(text);
    FirstChunk(text);
    var at := FirstSpace(text);
    if at >= 0 {
      ChunksLeft(text[at + 1..]);
      if i > 0 {
        SpacesCut(text[at + 1..], i - 1);
      }
    }
  }

  lemma {:induction false} ChunksLeft(text: string)
    ensures |SplitAfterSpaces(text)| > 0
  {
  }

  // ---- The direct answer ----

  /** What the provider says, piece by piece: thinking that is not empty, and content. */
  function Spoken(events: seq<ProviderEvent>): seq<(Kind, string)> {
    if events == [] then []
    else
      var last := events[|events| - 1];
      Spoken(events[..|events| - 1])
      + match last
        case ThinkingText(delta) => if delta == "" then [] else [(Thinking, delta)]
        case ContentDelta(delta) => [(Prose, delta)]
        case OtherEvent => []
  }

  function DraftDeltas(d: Draft): seq<(Kind, string)> {
    match d
    case Nothing => []
    case Start(before, _) => DraftDeltas(before)
    case Add(before, delta) => DraftDeltas(before) + [(LastKind(before), delta)]
  }

  function DraftKinds(d: Draft): seq<Kind> {
    match d
    case Nothing => []
    case Start(before, kind) => DraftKinds(before) + [kind]
    case Add(before, _) => DraftKinds(before)
  }

  lemma {:induction false} WordPieces(d: Draft)
    ensures AllDeltas(OpenWord(d)) == DraftDeltas(d) && AllDeltas(ClosedWord(d)) == DraftDeltas(d)
    ensures AllStarts(OpenWord(d)) == DraftKinds(d) && AllStarts(ClosedWord(d)) == DraftKinds(d)
  {
    hide BlockAt, Reports, AllDeltas, AllStarts, OpenWord, ClosedWord, Count, LastKind;
    WordStep(d);
    NothingMore(DraftDeltas(d));
    NothingMore(DraftKinds(d));
    match d {
      case Nothing =>
        ReadPush([], MessageStart, 0);
        assert [] + [MessageStart] == [MessageStart];
        NothingRead(0);
      case Start(before, kind) =>
        WordPieces(before);
        ReadPush(ClosedWord(before), BlockStart(Count(before), kind), 0);
      case Add(before, delta) =>
        WordPieces(before);
        ReadPush(OpenWord(before), BlockDelta(Count(before) - 1, LastKind(before), delta), 0);
    }
    if d != Nothing {
      ReadPush(OpenWord(d), BlockStop(Count(d) - 1), 0);
    }
  }

  /** The runs of thinking and of content in what the provider sends, empty deltas counted. */
  function Runs(events: seq<ProviderEvent>): seq<Kind> {
    if events == [] then []
    else
      var before := Runs(events[..|events| - 1]);
      match events[|events| - 1]
      case ThinkingText(_) => if before != [] && before[|before| - 1] == Thinking then before else before + [Thinking]
      case ContentDelta(_) => if before != [] && before[|before| - 1] == Prose then before else before + [Prose]
      case OtherEvent => before
  }

  lemma {:induction false} LastOfKinds(d: Draft)
    requires Good(d)
    ensures d == Nothing <==> DraftKinds(d) == []
    ensures d != Nothing ==> LastKind(d) == DraftKinds(d)[|DraftKinds(d)| - 1]
  {
    match d {
      case Nothing =>
      case Start(before, kind) =>
      case Add(before, delta) => LastOfKinds(before);
    }
  }

  lemma {:induction false} DraftRuns(events: seq<ProviderEvent>)
    ensures DraftKinds(DraftOf(events)) == Runs(events)
  {
    if events != [] {
      var front := events[..|events| - 1];
      DraftRuns(front);
      DraftIsGood(front);
      LastOfKinds(DraftOf(front));
    }
  }

  lemma {:induction false} DraftSpeaks(events: seq<ProviderEvent>)
    ensures DraftDeltas(DraftOf(events)) == Spoken(events)
  {
    if events != [] {
      var front := events[..|events| - 1];
      DraftSpeaks(front);
      DraftIsGood(front);
      LastIsPlain(DraftOf(front));
    }
  }

  /** The direct answer repeats what the provider says, piece by piece and in its order, in
      one block for each run of thinking or content, started and stopped once; a message
      without any has one empty text block. It ends once, unless the provider failed, with
      end_turn and a quarter of its text's length. */
  lemma {:induction false} DirectWordSays(events: seq<ProviderEvent>, failed: bool, k: nat)
    ensures var (word, runs) := (DirectWord(events, failed), Runs(events));
      && AllDeltas(word) == Spoken(events)
      && AllStarts(word) == (if runs == [] && !failed then [Prose] else runs)
      && Reports(word) == (if failed then [] else [("end_turn", |TextOf(word, Prose)| / 4)])
      && (k < |AllStarts(word)| ==> BlockAt(word, k).started == [AllStarts(word)[k]] && BlockAt(word, k).stopped == 1)
      && (k >= |AllStarts(word)| ==> BlockAt(word, k) == NO_BLOCK)
  {
    hide BlockAt, Reports, AllDeltas, AllStarts, OpenWord, ClosedWord, Tail, TextOf, Spoken, DraftOf, Good, OnlyProse;
    hide DraftBlock, ContentOf, Count, Runs;
    var d := DraftOf(events);
    var full := if d == Nothing && !failed then Start(d, Prose) else d;
    DraftIsGood(events);
    LastOfKinds(d);
    FullDraft(d, full);
    DraftSpeaks(events);
    DraftRuns(events);
    WordKeepsText(events, failed);
    WordPieces(full);
    ReadsFull(full, |ContentOf(events)| / 4, k);
    BlocksByKind(full, k);
  }

  lemma {:induction false} FullDraft(d: Draft, full: Draft)
    requires Good(d) && (full == d || (d == Nothing && full == Start(d, Prose)))
    ensures Good(full) && DraftDeltas(full) == DraftDeltas(d)
    ensures DraftKinds(full) == if full == d then DraftKinds(d) else [Prose]
  {
  }

  lemma {:induction false} BlocksByKind(d: Draft, k: nat)
    requires Good(d)
    ensures |DraftKinds(d)| == Count(d)
    ensures if k < Count(d) then DraftBlock(d, k).started == [DraftKinds(d)[k]] && DraftBlock(d, k).stopped == 1
            else DraftBlock(d, k) == NO_BLOCK
  {
    match d {
      case Nothing =>
      case Start(before, kind) => BlocksByKind(before, k);
      case Add(before, delta) => BlocksByKind(before, k);
    }
  }

  lemma {:induction false} ReadsFull(full: Draft, tokens: nat, k: int)
    requires Good(full)
    ensures BlockAt(ClosedWord(full), k) == DraftBlock(full, k) && Reports(ClosedWord(full)) == []
    ensures var word := ClosedWord(full) + Tail("end_turn", tokens);
      && BlockAt(word, k) == DraftBlock(full, k) && Reports(word) == [("end_turn", tokens)]
      && AllDeltas(word) == AllDeltas(ClosedWord(full)) && AllStarts(word) == AllStarts(ClosedWord(full))
  {
    hide BlockAt, Reports, AllDeltas, AllStarts, OpenWord, ClosedWord, Tail, DraftBlock;
    WordBlocks(full, k);
    TailBlocks(ClosedWord(full), "end_turn", tokens, k);
  }
}
