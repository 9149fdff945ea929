/** Recognising the entry that ends an upstream stream (gemini_service.go). The check
    looks at a whole block of lines at once and gives up on the block when one of its
    bracket lines does not decode. */
module StreamTerminal {
  import opened Text
  import opened StreamParser

  /** What decoding one bracket line gives: nothing, or whether it holds the end entry. */
  type Decoder = string -> Entry

  datatype Entry = Undecodable | Decoded(ends: bool)

  predicate Ends(decode: Decoder, line: string) {
    HasPrefix(line, "[") && decode(line) == Decoded(true)
  }

  predicate Broken(decode: Decoder, line: string) {
    HasPrefix(line, "[") && decode(line) == Undecodable
  }

  ghost predicate AnyEnds(decode: Decoder, lines: seq<string>) {
    exists i :: 0 <= i < |lines| && Ends(decode, lines[i])
  }

  ghost predicate AnyBroken(decode: Decoder, lines: seq<string>) {
    exists i :: 0 <= i < |lines| && Broken(decode, lines[i])
  }

  /** hasStreamTerminalEntry on one block; a block without a bracket line decodes to
      nothing. */
  method HasTerminalEntry(decode: Decoder, lines: seq<string>) returns (terminal: bool)
    ensures terminal <==> AnyEnds(decode, lines) && !AnyBroken(decode, lines)
    ensures terminal <==>
      && (exists i :: 0 <= i < |lines| && "[" <= lines[i] && decode(lines[i]) == Decoded(true))
      && forall i :: 0 <= i < |lines| && "[" <= lines[i] ==> decode(lines[i]) != Undecodable
  {
    terminal := false;
    for i := 0 to |lines|
      invariant !AnyBroken(decode, lines[..i])
      invariant terminal <==> AnyEnds(decode, lines[..i])
    {
      assert lines[..i + 1] == lines[..i] + [lines[i]];
      AnyAppend(decode, lines[..i], [lines[i]]);
      if HasPrefix(lines[i], "[") {
        match decode(lines[i]) {
          case Undecodable =>
            assert Broken(decode, lines[i]);
            return false;
          case Decoded(ends) =>
            terminal := terminal || ends;
        }
      }
    }
    assert lines[..|lines|] == lines;
  }

  ghost predicate Terminal(decode: Decoder, block: string) {
    AnyEnds(decode, Lines(block)) && !AnyBroken(decode, Lines(block))
  }

  /** Some block shown to the visitor is recognised as terminal. */
  ghost predicate Seen(decode: Decoder, visits: seq<Visit>) {
    exists i :: 0 <= i < |visits| && Terminal(decode, visits[i].block)
  }

  lemma AnyAppend(decode: Decoder, a: seq<string>, b: seq<string>)
    ensures AnyEnds(decode, a + b) <==> AnyEnds(decode, a) || AnyEnds(decode, b)
    ensures AnyBroken(decode, a + b) <==> AnyBroken(decode, a) || AnyBroken(decode, b)
  {
    assert forall i :: 0 <= i < |a| ==> a[i] == (a + b)[i];
    assert forall i :: 0 <= i < |b| ==> b[i] == (a + b)[|a| + i];
  }

  lemma SeenCons(decode: Decoder, v: Visit, visits: seq<Visit>)
    ensures Seen(decode, [v] + visits) <==> Terminal(decode, v.block) || Seen(decode, visits)
  {
    assert forall i :: 0 <= i < |visits| ==> visits[i] == ([v] + visits)[1 + i];
    assert ([v] + visits)[0] == v;
  }

  /** Without a broken line, the blocks recognise exactly what their lines hold. */
  lemma {:induction false} SoundBlocks(decode: Decoder, visits: seq<Visit>)
    requires !AnyBroken(decode, SeenLines(visits))
    ensures Seen(decode, visits) <==> AnyEnds(decode, SeenLines(visits))
  {
    if visits == [] {
    } else {
      AnyAppend(decode, Lines(visits[0].block), SeenLines(visits[1..]));
      SoundBlocks(decode, visits[1..]);
      assert visits == [visits[0]] + visits[1..];
      SeenCons(decode, visits[0], visits[1..]);
    }
  }

  lemma {:induction false} NothingToSee(decode: Decoder, visits: seq<Visit>)
    requires !AnyEnds(decode, SeenLines(visits))
    ensures !Seen(decode, visits)
  {
    if visits == [] {
    } else {
      AnyAppend(decode, Lines(visits[0].block), SeenLines(visits[1..]));
      NothingToSee(decode, visits[1..]);
      assert visits == [visits[0]] + visits[1..];
      SeenCons(decode, visits[0], visits[1..]);
    }
  }

  // ---- One line at a time ----

  ghost predicate Unbroken(raws: seq<string>) {
    forall i :: 0 <= i < |raws| ==> '\n' !in raws[i]
  }

  /** A text of whole lines. */
  function TextOf(raws: seq<string>): string {
    if raws == [] then "" else raws[0] + "\n" + TextOf(raws[1..])
  }

  function LineByLine(raws: seq<string>): (chunks: seq<string>)
    ensures chunks != []
  {
    if raws == [] then [""] else [raws[0] + "\n"] + LineByLine(raws[1..])
  }

  lemma {:induction false} LineByLineIsSplit(raws: seq<string>)
    ensures Concat(LineByLine(raws)) == TextOf(raws)
  {
    if raws != [] {
      LineByLineIsSplit(raws[1..]);
      assert LineByLine(raws)[1..] == LineByLine(raws[1..]);
    } else {
      assert [""][1..] == [] && Concat([""]) == "";
    }
  }

  lemma TakeRaw(ex: Extractor, lastText: string, raw: string)
    requires '\n' !in raw
    ensures var (next, visits) := TakeLines(ex, State("", lastText), raw + "\n");
      next.pending == ""
      && (if TrimSpace(raw) == "" then visits == [] else |visits| == 1 && Lines(visits[0].block) == OneLine(raw))
  {
    var buffer := raw + "\n";
    assert "" + buffer == buffer && buffer[..|raw|] == raw && buffer[|raw| + 1..] == "";
    LinesWhole(raw);
    LinesOfTrimmed(raw);
  }

  lemma OneTerminal(decode: Decoder, raw: string, visits: seq<Visit>)
    requires if TrimSpace(raw) == "" then visits == [] else |visits| == 1 && Lines(visits[0].block) == OneLine(raw)
    ensures Seen(decode, visits) <==> AnyEnds(decode, OneLine(raw))
  {
    if TrimSpace(raw) != "" {
      assert AnyEnds(decode, OneLine(raw)) ==> !AnyBroken(decode, OneLine(raw));
      assert Terminal(decode, visits[0].block) <==> AnyEnds(decode, OneLine(raw));
    }
  }

  lemma SeenAppend(decode: Decoder, a: seq<Visit>, b: seq<Visit>)
    ensures Seen(decode, a + b) <==> Seen(decode, a) || Seen(decode, b)
  {
    assert forall i :: 0 <= i < |a| ==> a[i] == (a + b)[i];
    assert forall i :: 0 <= i < |b| ==> b[i] == (a + b)[|a| + i];
  }

  lemma {:induction false} FirstLine(raws: seq<string>)
    requires Unbroken(raws) && raws != []
    ensures Lines(TextOf(raws)) == OneLine(raws[0]) + Lines(TextOf(raws[1..]))
  {
    LinesFront(raws[0], TextOf(raws[1..]));
  }

  /** Read line by line, an end line is always recognised. */
  lemma {:induction false} ApartSeesAll(decode: Decoder, ex: Extractor, visit: Visit -> bool,
                                        raws: seq<string>, lastText: string)
    requires NeverStops(visit) && Unbroken(raws)
    ensures Seen(decode, ReadAll(ex, visit, State("", lastText), LineByLine(raws)).1)
      <==> AnyEnds(decode, Lines(TextOf(raws)))
  {
    var chunks := LineByLine(raws);
    if raws == [] {
      NothingSeen(decode, ex, visit, lastText);
    } else {
      var (next, visits) := TakeLines(ex, State("", lastText), chunks[0]);
      TakeRaw(ex, lastText, raws[0]);
      OneTerminal(decode, raws[0], visits);
      assert chunks[1..] == LineByLine(raws[1..]) && |chunks| > 1;
      ReadAllVisits(ex, visit, State("", lastText), chunks);
      hide AnyEnds, Seen, Lines, OneLine, ReadAll, TakeLines, LineByLine;
      ApartSeesAll(decode, ex, visit, raws[1..], next.lastText);
      assert next == State("", next.lastText);
      SeenAppend(decode, visits, ReadAll(ex, visit, next, chunks[1..]).1);
      FirstLine(raws);
      AnyAppend(decode, OneLine(raws[0]), Lines(TextOf(raws[1..])));
    }
  }

  lemma {:induction false} NothingSeen(decode: Decoder, ex: Extractor, visit: Visit -> bool, lastText: string)
    requires NeverStops(visit)
    ensures !Seen(decode, ReadAll(ex, visit, State("", lastText), [""]).1) && !AnyEnds(decode, Lines(""))
  {
    EveryLineOnce(ex, visit, State("", lastText), [""]);
    OnePiece("");
    NoLines([]);
    assert "" + "" == "";
    NothingToSee(decode, ReadAll(ex, visit, State("", lastText), [""]).1);
  }

  // ---- Any text, cut anywhere ----

  /** A read that ends inside the unfinished line shows the ended lines as one block. */
  lemma {:induction false} FrontSeen(decode: Decoder, ex: Extractor, lastText: string, front: string, last: string)
    requires WholeLines(front) && '\n' !in last
    ensures var (next, visits) := TakeLines(ex, State("", lastText), front + last);
      next.pending == last
        && (Seen(decode, visits) <==> AnyEnds(decode, Lines(front)) && !AnyBroken(decode, Lines(front)))
  {
    NoLines([]);
    if front == "" {
      assert "" + last == last;
    } else {
      var x := front[..|front| - 1];
      assert front == x + "\n" && front == x + "\n" + "" && Lines(x) + [] == Lines(x);
      LinesJoin(x, "");
      hide Seen, Lines, AnyEnds, AnyBroken;
      EndedSeen(decode, ex, lastText, x, last);
    }
  }

  lemma {:induction false} EndedSeen(decode: Decoder, ex: Extractor, lastText: string, x: string, last: string)
    requires '\n' !in last
    ensures var (next, visits) := TakeLines(ex, State("", lastText), x + "\n" + last);
      next.pending == last && (Seen(decode, visits) <==> AnyEnds(decode, Lines(x)) && !AnyBroken(decode, Lines(x)))
  {
    var buffer := x + "\n" + last;
    assert "" + buffer == buffer && buffer[|x|] == '\n' && buffer[|x| + 1..] == last && buffer[..|x|] == x;
    LastNewlineIs(buffer, |x|);
    LinesOfTrimmed(x);
    NoLines([]);
    var visits := TakeLines(ex, State("", lastText), buffer).1;
    hide Lines, TrimSpace, AnyBroken;
    if visits != [] {
      SeenOne(decode, visits[0]);
      assert visits == [visits[0]];
    }
  }

  lemma SeenOne(decode: Decoder, v: Visit)
    ensures Seen(decode, [v]) <==> Terminal(decode, v.block)
  {
    assert [v][0] == v;
  }

  /** The unfinished line is a block of its own. */
  lemma LastSeen(decode: Decoder, ex: Extractor, st: State)
    requires '\n' !in st.pending
    ensures Seen(decode, Flush(ex, st).1) <==> AnyEnds(decode, OneLine(st.pending))
  {
    LinesWhole(st.pending);
    LinesOfTrimmed(st.pending);
    OneTerminal(decode, st.pending, Flush(ex, st).1);
  }

  /** Whatever the split: blocks of ended lines, then the unfinished one. */
  lemma {:induction false} FrontThenLast(ex: Extractor, visit: Visit -> bool, st: State, chunks: seq<string>,
                                         front: string, last: string)
    returns (blocks: seq<Visit>, mid: State)
    requires chunks != [] && NeverStops(visit) && Parts(st.pending + Concat(chunks), front, last)
    ensures ReadAll(ex, visit, st, chunks).1 == blocks + Flush(ex, mid).1
    ensures SeenLines(blocks) == Lines(front) && mid.pending == last
    decreases |chunks|
  {
    var (next, early) := TakeLines(ex, st, chunks[0]);
    var rest := Concat(chunks[1..]);
    ConcatHead(st.pending, chunks);
    var later := EndedTaken(ex, st, chunks[0], rest, front, last);
    ReadAllVisits(ex, visit, st, chunks);
    hide ReadAll, TakeLines, Flush, Lines, SeenLines;
    if |chunks| == 1 {
      assert rest == "" && next.pending + rest == next.pending;
      PendingIsLast(next.pending, later, last);
      NoLines([]);
      blocks, mid := early, next;
      assert SeenLines(early) + [] == SeenLines(early);
    } else {
      var more: seq<Visit>;
      more, mid := FrontThenLast(ex, visit, next, chunks[1..], later, last);
      blocks := early + more;
      VisitsAppend(early, more);
      Assoc(early, more, Flush(ex, mid).1);
    }
  }

  lemma {:induction false} ReadAllVisits(ex: Extractor, visit: Visit -> bool, st: State, chunks: seq<string>)
    requires chunks != [] && NeverStops(visit)
    ensures var (next, early) := TakeLines(ex, st, chunks[0]);
      ReadAll(ex, visit, st, chunks).1
      == early + if |chunks| == 1 then Flush(ex, next).1 else ReadAll(ex, visit, next, chunks[1..]).1
  {
  }

  lemma TakenLines(ex: Extractor, st: State, data: string)
    ensures var (buffer, early) := (st.pending + data, TakeLines(ex, st, data).1);
      if LastNewline(buffer) < 0 then early == [] else SeenLines(early) == Lines(buffer[..LastNewline(buffer)])
  {
    var buffer := st.pending + data;
    var end := LastNewline(buffer);
    if end >= 0 {
      LinesOfTrimmed(buffer[..end]);
      NoLines([]);
      VisitOne(ParseBlock(ex, st.lastText, TrimSpace(buffer[..end])).1);
      hide Lines, ParseBlock, TrimSpace;
    }
  }

  lemma EndedTaken(ex: Extractor, st: State, data: string, rest: string, front: string, last: string)
    returns (later: string)
    requires Parts(st.pending + data + rest, front, last)
    ensures var (next, early) := TakeLines(ex, st, data);
      && '\n' !in next.pending && Parts(next.pending + rest, later, last)
      && Lines(front) == SeenLines(early) + Lines(later)
  {
    var buffer := st.pending + data;
    var end := LastNewline(buffer);
    hide TakeLines, Lines, Parts;
    NoPendingNewline(ex, st, data);
    TakenLines(ex, st, data);
    TakeEnds(ex, st, data);
    if end < 0 {
      later := front;
      NoneBefore(Lines(front));
    } else {
      later := PartsAfter(buffer, end, rest, front, last);
      LinesJoin(buffer[..end], later);
    }
  }

  lemma NoneBefore<T>(s: seq<T>)
    ensures [] + s == s
  {
  }

  /** A split sees the end in its blocks of ended lines or in the unfinished line. */
  lemma {:induction false} SplitSees(decode: Decoder, ex: Extractor, visit: Visit -> bool, chunks: seq<string>,
                                     text: string, front: string, last: string)
    requires NeverStops(visit) && Split(chunks, text) && Parts(text, front, last)
    requires AnyEnds(decode, OneLine(last)) || !AnyEnds(decode, Lines(front)) || !AnyBroken(decode, Lines(front))
    ensures Seen(decode, ReadAll(ex, visit, State("", ""), chunks).1)
       <==> AnyEnds(decode, OneLine(last)) || AnyEnds(decode, Lines(front))
  {
    assert "" + text == text;
    var blocks, mid := FrontThenLast(ex, visit, State("", ""), chunks, front, last);
    SeenAppend(decode, blocks, Flush(ex, mid).1);
    LastSeen(decode, ex, mid);
    hide AnyEnds, AnyBroken, Seen, Lines, ReadAll, Flush;
    if !AnyEnds(decode, Lines(front)) {
      NothingToSee(decode, blocks);
    } else if !AnyBroken(decode, Lines(front)) {
      SoundBlocks(decode, blocks);
    }
  }

  /** Read in one piece. */
  lemma {:induction false} TogetherSees(decode: Decoder, ex: Extractor, visit: Visit -> bool, front: string,
                                        last: string)
    requires NeverStops(visit) && WholeLines(front) && '\n' !in last
    ensures Seen(decode, ReadAll(ex, visit, State("", ""), [front + last]).1)
       <==> (AnyEnds(decode, Lines(front)) && !AnyBroken(decode, Lines(front))) || AnyEnds(decode, OneLine(last))
  {
    var chunks := [front + last];
    var (next, early) := TakeLines(ex, State("", ""), front + last);
    FrontSeen(decode, ex, "", front, last);
    ReadAllVisits(ex, visit, State("", ""), chunks);
    SeenAppend(decode, early, Flush(ex, next).1);
    LastSeen(decode, ex, next);
    hide AnyEnds, AnyBroken, Seen, Lines, ReadAll, TakeLines, Flush;
  }

  /** Read so that one end line is a block of its own. */
  lemma {:induction false} AloneSees(decode: Decoder, ex: Extractor, visit: Visit -> bool, before: string,
                                     line: string, rest: string)
    requires NeverStops(visit) && WholeLines(before) && WholeLines(line)
    requires AnyEnds(decode, Lines(line)) && !AnyBroken(decode, Lines(line))
    ensures Seen(decode, ReadAll(ex, visit, State("", ""), [before, line, rest]).1)
  {
    var chunks := [before, line, rest];
    assert before + "" == before && line + "" == line && chunks[1..] == [line, rest] && [line, rest][1..] == [rest];
    var (first, early) := TakeLines(ex, State("", ""), before);
    var (second, shown) := TakeLines(ex, first, line);
    FrontSeen(decode, ex, "", before, "");
    FrontSeen(decode, ex, first.lastText, line, "");
    assert first == State("", first.lastText);
    ReadAllVisits(ex, visit, State("", ""), chunks);
    ReadAllVisits(ex, visit, first, chunks[1..]);
    hide AnyEnds, AnyBroken, Seen, Lines, ReadAll, TakeLines;
    var later := ReadAll(ex, visit, second, [rest]).1;
    SeenAppend(decode, shown, later);
    SeenAppend(decode, early, shown + later);
  }

  lemma SliceOne<T>(s: seq<T>, i: nat)
    requires i < |s|
    ensures s[..i + 1][i..] == [s[i]] && |s[..i + 1]| == i + 1
  {
  }

  /** Ended lines around one of them. */
  lemma Isolate(front: string, i: nat) returns (before: string, line: string, after: string)
    requires WholeLines(front) && i < |Lines(front)|
    ensures front == before + line + after && WholeLines(before) && WholeLines(line)
    ensures Lines(line) == [Lines(front)[i]]
  {
    hide Lines, WholeLines;
    var p, q := CutAfterLine(front, i);
    SliceOne(Lines(front), i);
    if i == 0 {
      before, line, after := "", p, q;
      NoneBefore(p);
      EmptyIsWhole();
      assert Lines(front)[..i + 1][0..] == Lines(front)[..i + 1];
    } else {
      before, line := CutAfterLine(p, i - 1);
      after := q;
    }
  }

  lemma EmptyIsWhole()
    ensures WholeLines("")
  {
  }

  lemma ThreePieces(a: string, b: string, c: string)
    ensures Concat([a, b, c]) == a + b + c
  {
    assert [a, b, c][1..] == [b, c];
    TwoPieces(b, c);
    Assoc(a, b, c);
  }

  lemma OneLineAlone(decode: Decoder, line: string)
    requires Ends(decode, line)
    ensures AnyEnds(decode, [line]) && !AnyBroken(decode, [line])
  {
    assert [line][0] == line;
  }

  /** Every way of cutting the text into chunks recognises the end, or none does. */
  ghost predicate SplitsAgree(decode: Decoder, ex: Extractor, visit: Visit -> bool, text: string) {
    forall a, b :: Split(a, text) && Split(b, text) ==>
      (Seen(decode, ReadAll(ex, visit, State("", ""), a).1) <==> Seen(decode, ReadAll(ex, visit, State("", ""), b).1))
  }

  /** An end line and a broken line among the ended ones: alone the end line is
      recognised, together with the broken one it is not. */
  lemma SplitsDisagree(decode: Decoder, ex: Extractor, visit: Visit -> bool, text: string, front: string, last: string)
    returns (a: seq<string>, b: seq<string>)
    requires NeverStops(visit) && Parts(text, front, last) && !AnyEnds(decode, OneLine(last))
    requires AnyEnds(decode, Lines(front)) && AnyBroken(decode, Lines(front))
    ensures Split(a, text) && Split(b, text)
    ensures Seen(decode, ReadAll(ex, visit, State("", ""), a).1)
    ensures !Seen(decode, ReadAll(ex, visit, State("", ""), b).1)
  {
    var i :| 0 <= i < |Lines(front)| && Ends(decode, Lines(front)[i]);
    var before, line, after := Isolate(front, i);
    OneLineAlone(decode, Lines(front)[i]);
    hide AnyEnds, AnyBroken, Seen, Lines, ReadAll, Concat;
    a, b := [before, line, after + last], [front + last];
    ThreePieces(before, line, after + last);
    OnePiece(front + last);
    Assoc(before + line, after, last);
    AloneSees(decode, ex, visit, before, line, after + last);
    TogetherSees(decode, ex, visit, front, last);
  }

  /** Whether the end of a stream is recognised is independent of the chunking exactly
      when its unfinished last line holds the end, or its ended lines hold no end, or
      none of them is broken. */
  lemma {:induction false} SplitsAgreeIff(decode: Decoder, ex: Extractor, visit: Visit -> bool, text: string,
                                          front: string, last: string)
    requires NeverStops(visit) && Parts(text, front, last)
    ensures SplitsAgree(decode, ex, visit, text)
       <==> AnyEnds(decode, OneLine(last)) || !AnyEnds(decode, Lines(front)) || !AnyBroken(decode, Lines(front))
  {
    hide AnyEnds, AnyBroken, Seen, Lines, OneLine, Parts;
    if !AnyEnds(decode, OneLine(last)) && AnyEnds(decode, Lines(front)) && AnyBroken(decode, Lines(front)) {
      var a, b := SplitsDisagree(decode, ex, visit, text, front, last);
      hide ReadAll;
    } else {
      forall a, b | Split(a, text) && Split(b, text)
        ensures Seen(decode, ReadAll(ex, visit, State("", ""), a).1)
          <==> Seen(decode, ReadAll(ex, visit, State("", ""), b).1)
      {
        SplitSees(decode, ex, visit, a, text, front, last);
        SplitSees(decode, ex, visit, b, text, front, last);
      }
    }
  }
}
