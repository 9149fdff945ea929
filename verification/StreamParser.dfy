/** The incremental line parser of the upstream stream engine and its bounded
    tail buffer (gemini_service.go). Extracting the answer text from one line is
    a parameter; everything around it is modelled. */
module StreamParser {
  import opened Text

  /** How text is read out of a line, and out of a whole block whose lines give none. */
  datatype Extractor = Extractor(ofLine: string -> string, ofBlock: string -> string)

  datatype Visit = Visit(block: string, delta: string)

  datatype State = State(pending: string, lastText: string)

  function LastNewline(s: string): (i: int)
    ensures -1 <= i < |s|
    ensures i == -1 ==> '\n' !in s
    ensures i >= 0 ==> s[i] == '\n' && '\n' !in s[i + 1..]
  {
    if s == "" then -1
    else if s[|s| - 1] == '\n' then |s| - 1
    else
      var front := s[..|s| - 1];
      var j := LastNewline(front);
      assert s == front + [s[|s| - 1]];
      assert j >= 0 ==> s[j + 1..] == front[j + 1..] + [s[|s| - 1]];
      j
  }

  /** The last non-empty line text. */
  function LastText(ex: Extractor, lines: seq<string>): string {
    if lines == [] then ""
    else if ex.ofLine(lines[|lines| - 1]) != "" then ex.ofLine(lines[|lines| - 1])
    else LastText(ex, lines[..|lines| - 1])
  }

  function BlockText(ex: Extractor, block: string): string {
    var text := LastText(ex, Lines(block));
    if text != "" then text else ex.ofBlock(block)
  }

  /** What a cumulative snapshot adds to the previous one. */
  function TextDelta(previous: string, current: string): string {
    if current == "" || current == previous then ""
    else if previous == "" then current
    else if HasPrefix(current, previous) then current[|previous|..]
    else ""
  }

  function ParseBlock(ex: Extractor, lastText: string, block: string): (string, Visit) {
    var text := BlockText(ex, block);
    var delta := TextDelta(lastText, text);
    (if delta != "" || (text != "" && HasPrefix(text, lastText)) then text else lastText, Visit(block, delta))
  }

  /** Everything up to the last newline is one block. */
  function TakeLines(ex: Extractor, st: State, data: string): (State, seq<Visit>) {
    var buffer := st.pending + data;
    var end := LastNewline(buffer);
    if end < 0 then (State(buffer, st.lastText), [])
    else
      var complete := TrimSpace(buffer[..end]);
      if complete == "" then (State(buffer[end + 1..], st.lastText), [])
      else
        var (last, v) := ParseBlock(ex, st.lastText, complete);
        (State(buffer[end + 1..], last), [v])
  }

  /** At the end of the stream the remainder is a block of its own. */
  function Flush(ex: Extractor, st: State): (State, seq<Visit>) {
    if TrimSpace(st.pending) == "" then (st, [])
    else
      var (last, v) := ParseBlock(ex, st.lastText, TrimSpace(st.pending));
      (State("", last), [v])
  }

  /** One Feed: the new state, the visits made and whether reading goes on. */
  function Feed(ex: Extractor, visit: Visit -> bool, st: State, data: string, final: bool)
    : (State, seq<Visit>, bool)
  {
    var (mid, early) := TakeLines(ex, st, data);
    if early != [] && !visit(early[0]) then (mid, early, false)
    else if !final then (mid, early, true)
    else
      var (last, late) := Flush(ex, mid);
      (last, early + late, late == [] || visit(late[0]))
  }

  class IncrementalParser {
    var pending: string
    var lastText: string
    const ex: Extractor

    constructor (ex: Extractor)
      ensures this.ex == ex && View() == State("", "")
    {
      this.ex := ex;
      pending, lastText := "", "";
    }

    function View(): State
      reads this
    {
      State(pending, lastText)
    }

    method ParseLine(block: string, visit: Visit -> bool) returns (v: Visit, ok: bool)
      modifies this
      ensures (lastText, v) == ParseBlock(ex, old(lastText), block)
      ensures pending == old(pending) && ok == visit(v)
    {
      var text := BlockText(ex, block);
      var delta := TextDelta(lastText, text);
      if delta != "" || (text != "" && HasPrefix(text, lastText)) {
        lastText := text;
      }
      v := Visit(block, delta);
      ok := visit(v);
    }

    method TakeBlock(data: string, visit: Visit -> bool) returns (visits: seq<Visit>, ok: bool)
      modifies this
      ensures (View(), visits) == TakeLines(ex, old(View()), data)
      ensures ok == (visits == [] || visit(visits[0]))
    {
      hide ParseBlock, TrimSpace;
      visits, ok := [], true;
      pending := pending + data;
      var end := LastNewline(pending);
      if end >= 0 {
        var complete := TrimSpace(pending[..end]);
        pending := pending[end + 1..];
        if complete != "" {
          var v, more := ParseLine(complete, visit);
          visits, ok := [v], more;
        }
      }
    }

    method FlushPending(visit: Visit -> bool) returns (visits: seq<Visit>, ok: bool)
      modifies this
      ensures (View(), visits) == Flush(ex, old(View()))
      ensures ok == (visits == [] || visit(visits[0]))
    {
      visits, ok := [], true;
      var complete := TrimSpace(pending);
      if complete != "" {
        pending := "";
        var v, more := ParseLine(complete, visit);
        visits, ok := [v], more;
      }
    }

    method FeedBytes(data: string, final: bool, visit: Visit -> bool) returns (visits: seq<Visit>, ok: bool)
      modifies this
      ensures (View(), visits, ok) == Feed(ex, visit, old(View()), data, final)
    {
      visits, ok := TakeBlock(data, visit);
      if ok && final {
        var late, more := FlushPending(visit);
        visits, ok := visits + late, more;
      }
    }
  }

  /** The read loop: every chunk but the last is an ordinary read, the last one
      carries the end of the stream; a refused visit ends it early. */
  function ReadAll(ex: Extractor, visit: Visit -> bool, st: State, chunks: seq<string>): (State, seq<Visit>)
    requires chunks != []
    decreases |chunks|
  {
    var (next, visits, ok) := Feed(ex, visit, st, chunks[0], |chunks| == 1);
    if |chunks| == 1 || !ok then (next, visits)
    else
      var (last, more) := ReadAll(ex, visit, next, chunks[1..]);
      (last, visits + more)
  }

  function SeenLines(visits: seq<Visit>): seq<string> {
    if visits == [] then [] else Lines(visits[0].block) + SeenLines(visits[1..])
  }

  function Deltas(visits: seq<Visit>): string {
    if visits == [] then "" else visits[0].delta + Deltas(visits[1..])
  }

  lemma VisitOne(v: Visit)
    ensures SeenLines([v]) == Lines(v.block) && Deltas([v]) == v.delta
  {
    assert [v][1..] == [];
  }

  lemma TailOfSum<T>(a: seq<T>, b: seq<T>)
    requires a != []
    ensures (a + b)[0] == a[0] && (a + b)[1..] == a[1..] + b
  {
  }

  lemma {:induction false} VisitsAppend(a: seq<Visit>, b: seq<Visit>)
    ensures SeenLines(a + b) == SeenLines(a) + SeenLines(b)
    ensures Deltas(a + b) == Deltas(a) + Deltas(b)
  {
    if a == [] {
      assert a + b == b;
    } else {
      hide Lines;
      TailOfSum(a, b);
      VisitsAppend(a[1..], b);
      Assoc(Lines(a[0].block), SeenLines(a[1..]), SeenLines(b));
      Assoc(a[0].delta, Deltas(a[1..]), Deltas(b));
    }
  }

  lemma SplitAtNewline(s: string, rest: string, end: nat)
    requires end < |s| && s[end] == '\n'
    ensures Lines(s + rest) == Lines(TrimSpace(s[..end])) + Lines(s[end + 1..] + rest)
  {
    assert s + rest == s[..end] + "\n" + (s[end + 1..] + rest);
    LinesJoin(s[..end], s[end + 1..] + rest);
    LinesOfTrimmed(s[..end]);
  }

  ghost predicate NeverStops(visit: Visit -> bool) {
    forall v :: visit(v)
  }

  /** One read moves whole lines from the buffer to the visitor: what was visited
      followed by what stays pending is what was there. */
  lemma {:induction false} TakeKeepsLines(ex: Extractor, st: State, data: string, rest: string)
    ensures SeenLines(TakeLines(ex, st, data).1) + Lines(TakeLines(ex, st, data).0.pending + rest)
         == Lines(st.pending + data + rest)
  {
    var buffer := st.pending + data;
    var end := LastNewline(buffer);
    if end >= 0 {
      SplitAtNewline(buffer, rest, end);
      var complete := TrimSpace(buffer[..end]);
      VisitOne(ParseBlock(ex, st.lastText, complete).1);
      NoLines(Lines(buffer[end + 1..] + rest));
      hide Lines, ParseBlock, TrimSpace;
    }
  }

  lemma FlushDrains(ex: Extractor, st: State)
    ensures SeenLines(Flush(ex, st).1) == Lines(st.pending)
  {
    LinesOfTrimmed(st.pending);
    VisitOne(ParseBlock(ex, st.lastText, TrimSpace(st.pending)).1);
  }

  /** Whatever the split into chunks, the visitor sees the trimmed non-blank lines
      of the whole input, once each and in order. */
  lemma {:induction false} EveryLineOnce(ex: Extractor, visit: Visit -> bool, st: State, chunks: seq<string>)
    requires chunks != [] && NeverStops(visit)
    ensures SeenLines(ReadAll(ex, visit, st, chunks).1) == Lines(st.pending + Concat(chunks))
    decreases |chunks|
  {
    hide Lines, TakeLines;
    var (mid, early) := TakeLines(ex, st, chunks[0]);
    var rest := Concat(chunks[1..]);
    TakeKeepsLines(ex, st, chunks[0], rest);
    Assoc(st.pending, chunks[0], rest);
    if |chunks| == 1 {
      FlushDrains(ex, mid);
      VisitsAppend(early, Flush(ex, mid).1);
      assert chunks[1..] == [] && mid.pending + rest == mid.pending;
    } else {
      EveryLineOnce(ex, visit, mid, chunks[1..]);
      VisitsAppend(early, ReadAll(ex, visit, mid, chunks[1..]).1);
    }
  }

  lemma BlockDelta(ex: Extractor, lastText: string, block: string)
    ensures ParseBlock(ex, lastText, block).0 == lastText + ParseBlock(ex, lastText, block).1.delta
  {
  }

  lemma TakeDeltas(ex: Extractor, st: State, data: string)
    ensures TakeLines(ex, st, data).0.lastText == st.lastText + Deltas(TakeLines(ex, st, data).1)
  {
    var buffer := st.pending + data;
    var end := LastNewline(buffer);
    var complete := if end >= 0 then TrimSpace(buffer[..end]) else "";
    BlockDelta(ex, st.lastText, complete);
    VisitOne(ParseBlock(ex, st.lastText, complete).1);
  }

  lemma FlushDeltas(ex: Extractor, st: State)
    ensures Flush(ex, st).0.lastText == st.lastText + Deltas(Flush(ex, st).1)
  {
    BlockDelta(ex, st.lastText, TrimSpace(st.pending));
    VisitOne(ParseBlock(ex, st.lastText, TrimSpace(st.pending)).1);
  }

  lemma FeedDeltas(ex: Extractor, visit: Visit -> bool, st: State, data: string, final: bool)
    ensures Feed(ex, visit, st, data, final).0.lastText == st.lastText + Deltas(Feed(ex, visit, st, data, final).1)
  {
    var (mid, early) := TakeLines(ex, st, data);
    TakeDeltas(ex, st, data);
    FlushDeltas(ex, mid);
    var late := Flush(ex, mid).1;
    VisitsAppend(early, late);
    Assoc(st.lastText, Deltas(early), Deltas(late));
  }

  /** The deltas handed out always add up to the parser's last text, for any
      visitor and any split. */
  lemma {:induction false} DeltasAddUp(ex: Extractor, visit: Visit -> bool, st: State, chunks: seq<string>)
    requires chunks != []
    ensures ReadAll(ex, visit, st, chunks).0.lastText == st.lastText + Deltas(ReadAll(ex, visit, st, chunks).1)
    decreases |chunks|
  {
    FeedDeltas(ex, visit, st, chunks[0], |chunks| == 1);
    var step := Feed(ex, visit, st, chunks[0], |chunks| == 1);
    if |chunks| > 1 && step.2 {
      DeltasAddUp(ex, visit, step.0, chunks[1..]);
      var more := ReadAll(ex, visit, step.0, chunks[1..]).1;
      VisitsAppend(step.1, more);
      Assoc(st.lastText, Deltas(step.1), Deltas(more));
    }
  }

  lemma NoLines(later: seq<string>)
    ensures Lines("") + later == later
  {
    BlankTrims("");
  }

  lemma {:induction false} ReadAllStep(ex: Extractor, visit: Visit -> bool, st: State, chunks: seq<string>)
    requires chunks != [] && NeverStops(visit)
    ensures var mid := TakeLines(ex, st, chunks[0]).0;
      ReadAll(ex, visit, st, chunks).0
      == if |chunks| == 1 then Flush(ex, mid).0 else ReadAll(ex, visit, mid, chunks[1..]).0
  {
  }

  lemma {:induction false} ConcatHead(pending: string, chunks: seq<string>)
    requires chunks != []
    ensures pending + Concat(chunks) == pending + chunks[0] + Concat(chunks[1..])
  {
  }

  lemma {:induction false} DeliversLastText(ex: Extractor, visit: Visit -> bool, chunks: seq<string>)
    requires chunks != []
    ensures Delivered(ex, visit, chunks) == ReadAll(ex, visit, State("", ""), chunks).0.lastText
  {
    DeltasAddUp(ex, visit, State("", ""), chunks);
  }

  /** What a client is given of a stream that arrives in these chunks. */
  function Delivered(ex: Extractor, visit: Visit -> bool, chunks: seq<string>): string
    requires chunks != []
  {
    Deltas(ReadAll(ex, visit, State("", ""), chunks).1)
  }

  // ---- Whole lines, and the unfinished last one ----

  /** Nothing, or lines that are all ended. */
  predicate WholeLines(front: string) {
    front == "" || front[|front| - 1] == '\n'
  }

  /** A text as its ended lines and the unfinished last one, if any. */
  ghost predicate Parts(text: string, front: string, last: string) {
    text == front + last && WholeLines(front) && '\n' !in last
  }

  lemma PartsExist(text: string) returns (front: string, last: string)
    ensures Parts(text, front, last)
  {
    var end := LastNewline(text);
    front, last := text[..end + 1], text[end + 1..];
    assert front != "" ==> front[|front| - 1] == text[end];
  }

  lemma {:induction false} LinesOfParts(text: string, front: string, last: string)
    requires Parts(text, front, last)
    ensures Lines(text) == Lines(front) + OneLine(last)
  {
    LinesWhole(last);
    if front == "" {
      NoLines(Lines(last));
      assert text == last;
    } else {
      var x := front[..|front| - 1];
      assert front == x + "\n" && text == x + "\n" + last && front == x + "\n" + "";
      LinesJoin(x, last);
      LinesJoin(x, "");
      NoLines([]);
      assert Lines(x) + [] == Lines(x);
    }
  }

  lemma TakeEnded(ex: Extractor, lastText: string, x: string, last: string)
    requires '\n' !in last
    ensures TakeLines(ex, State("", lastText), x + "\n" + last).0
         == State(last, if TrimSpace(x) == "" then lastText else ParseBlock(ex, lastText, TrimSpace(x)).0)
  {
    var buffer := x + "\n" + last;
    assert "" + buffer == buffer && buffer[|x|] == '\n' && buffer[|x| + 1..] == last && buffer[..|x|] == x;
    LastNewlineIs(buffer, |x|);
    hide ParseBlock, TrimSpace;
  }

  lemma {:induction false} LastNewlineIs(s: string, i: nat)
    requires i < |s| && s[i] == '\n' && '\n' !in s[i + 1..]
    ensures LastNewline(s) == i
  {
    var j := LastNewline(s);
    assert forall k :: i < k < |s| ==> s[k] == s[i + 1..][k - i - 1];
    assert j >= 0 ==> forall k :: j < k < |s| ==> s[k] == s[j + 1..][k - j - 1];
  }

  lemma CutFirst(front: string) returns (x: string, y: string)
    requires WholeLines(front) && front != ""
    ensures front == x + "\n" + y && '\n' !in x && WholeLines(y) && |y| < |front|
    ensures Lines(front) == OneLine(x) + Lines(y)
  {
    assert front[|front| - 1] in front;
    x, y := CutAtNewline(front);
    assert y != "" ==> front[|front| - 1] == y[|y| - 1];
    LinesFront(x, y);
  }

  lemma {:induction false} FrontEnded(x: string, p: string)
    requires '\n' !in x && WholeLines(p)
    ensures WholeLines(x + "\n" + p) && Lines(x + "\n" + p) == OneLine(x) + Lines(p)
  {
    LinesFront(x, p);
  }

  lemma SliceAfter<T>(head: seq<T>, tail: seq<T>, i: nat)
    requires |head| <= i < |head| + |tail|
    ensures (head + tail)[..i + 1] == head + tail[..i - |head| + 1]
    ensures (head + tail)[i + 1..] == tail[i - |head| + 1..]
  {
  }

  lemma {:induction false} CutHere(x: string, y: string)
    requires '\n' !in x && |OneLine(x)| == 1
    ensures WholeLines(x + "\n")
    ensures Lines(x + "\n") == (OneLine(x) + Lines(y))[..1] && Lines(y) == (OneLine(x) + Lines(y))[1..]
  {
    FrontEnded(x, "");
    NoLines([]);
    assert x + "\n" + "" == x + "\n" && OneLine(x) + [] == OneLine(x);
    hide Lines, OneLine;
  }

  lemma {:induction false} CutLater(x: string, y: string, p: string, q: string, i: nat)
    requires '\n' !in x && y == p + q && WholeLines(p)
    requires |OneLine(x)| <= i < |OneLine(x)| + |Lines(y)|
    requires Lines(p) == Lines(y)[..i - |OneLine(x)| + 1] && Lines(q) == Lines(y)[i - |OneLine(x)| + 1..]
    ensures x + "\n" + y == (x + "\n" + p) + q && WholeLines(x + "\n" + p)
    ensures Lines(x + "\n" + p) == (OneLine(x) + Lines(y))[..i + 1] && Lines(q) == (OneLine(x) + Lines(y))[i + 1..]
  {
    hide Lines, OneLine;
    FrontEnded(x, p);
    SliceAfter(OneLine(x), Lines(y), i);
    Assoc(x + "\n", p, q);
  }

  /** Ended lines can be cut after any of them. */
  lemma {:induction false} CutAfterLine(front: string, i: nat) returns (p: string, q: string)
    requires WholeLines(front) && i < |Lines(front)|
    ensures front == p + q && WholeLines(p) && WholeLines(q)
    ensures Lines(p) == Lines(front)[..i + 1] && Lines(q) == Lines(front)[i + 1..]
    decreases |front|
  {
    NotEmpty(front);
    hide Lines, OneLine, WholeLines;
    var x, y := CutFirst(front);
    HeadIsOne(x);
    if i < |OneLine(x)| {
      p, q := x + "\n", y;
      CutHere(x, y);
    } else {
      var p', q' := CutAfterLine(y, i - |OneLine(x)|);
      CutLater(x, y, p', q', i);
      p, q := x + "\n" + p', q';
    }
  }

  lemma {:induction false} NotEmpty(front: string)
    ensures Lines(front) != [] ==> front != ""
  {
    NoLines([]);
  }

  lemma HeadIsOne(x: string)
    ensures |OneLine(x)| <= 1
  {
  }

  lemma NoPendingNewline(ex: Extractor, st: State, data: string)
    ensures '\n' !in TakeLines(ex, st, data).0.pending
  {
  }

  lemma WholeHasNewline(front: string)
    requires WholeLines(front)
    ensures front == "" || '\n' in front
  {
    if front == "" {
    } else {
      assert front[|front| - 1] in front;
    }
  }

  lemma PendingIsLast(pending: string, front: string, last: string)
    requires Parts(pending, front, last) && '\n' !in pending
    ensures front == "" && pending == last
  {
    WholeHasNewline(front);
    assert '\n' in front + last <==> '\n' in front || '\n' in last;
  }

  lemma InSecond(front: string, last: string, k: nat)
    requires |front| <= k < |front + last|
    ensures (front + last)[k] in last
  {
    assert (front + last)[k] == last[k - |front|];
  }

  lemma NewlineInFront(text: string, front: string, last: string, end: nat)
    requires Parts(text, front, last) && end < |text| && text[end] == '\n'
    ensures end < |front|
  {
    if end >= |front| {
      InSecond(front, last, end);
    }
  }

  lemma SuffixWhole(front: string, n: nat)
    requires WholeLines(front) && n <= |front|
    ensures WholeLines(front[n..])
  {
    assert n < |front| ==> front[n..][|front| - n - 1] == front[|front| - 1];
  }

  lemma CutAt(front: string, last: string, buffer: string, rest: string, end: nat)
    requires front + last == buffer + rest && end < |front| && end < |buffer|
    ensures front[..end] == buffer[..end] && front[end] == buffer[end]
    ensures buffer[end + 1..] + rest == front[end + 1..] + last
  {
    var text := front + last;
    assert text[end + 1..] == front[end + 1..] + last && text[end + 1..] == buffer[end + 1..] + rest;
    assert text[..end] == front[..end] && text[..end] == buffer[..end];
    assert text[end] == front[end] && text[end] == buffer[end];
  }

  lemma PartsAfter(buffer: string, end: nat, rest: string, front: string, last: string) returns (later: string)
    requires end < |buffer| && buffer[end] == '\n' && Parts(buffer + rest, front, last)
    ensures Parts(buffer[end + 1..] + rest, later, last) && front == buffer[..end] + "\n" + later
  {
    NewlineInFront(buffer + rest, front, last, end);
    later := front[end + 1..];
    CutAt(front, last, buffer, rest, end);
    SuffixWhole(front, end + 1);
    assert front == front[..end] + [front[end]] + later;
  }

  lemma TakeEnds(ex: Extractor, st: State, data: string)
    ensures var buffer := st.pending + data;
      var (end, next) := (LastNewline(buffer), TakeLines(ex, st, data).0);
      if end < 0 then next == State(buffer, st.lastText)
      else next == State(buffer[end + 1..],
                         if TrimSpace(buffer[..end]) == "" then st.lastText
                         else ParseBlock(ex, st.lastText, TrimSpace(buffer[..end])).0)
  {
    hide ParseBlock, TrimSpace;
  }

  /** A text as it arrives. */
  ghost predicate Split(chunks: seq<string>, text: string) {
    chunks != [] && Concat(chunks) == text
  }

  lemma OnePiece(s: string)
    ensures Concat([s]) == s
  {
    assert [s][1..] == [] && s + "" == s;
  }

  lemma TwoPieces(s: string, t: string)
    ensures Concat([s, t]) == s + t
  {
    assert [s, t][1..] == [t];
    OnePiece(t);
  }

  // ---- A visitor that stops ----

  /** Of the visits there are, mine are made: all of them, or those up to and including the
      first that is refused. */
  ghost predicate StopsAt(visit: Visit -> bool, mine: seq<Visit>, whole: seq<Visit>) {
    && mine <= whole && (forall i :: 0 <= i < |mine| - 1 ==> visit(mine[i]))
    && (mine != whole ==> mine != [] && !visit(mine[|mine| - 1]))
  }

  ghost predicate AllTaken(visit: Visit -> bool, mine: seq<Visit>) {
    forall i :: 0 <= i < |mine| ==> visit(mine[i])
  }

  lemma OneBlock(ex: Extractor, st: State, data: string)
    ensures |TakeLines(ex, st, data).1| <= 1 && |Flush(ex, st).1| <= 1
  {
    hide TrimSpace, ParseBlock;
  }

  lemma FeedStops(ex: Extractor, visit: Visit -> bool, all: Visit -> bool, st: State, data: string, final: bool)
    requires NeverStops(all)
    ensures var (mine, whole) := (Feed(ex, visit, st, data, final), Feed(ex, all, st, data, final));
      && StopsAt(visit, mine.1, whole.1) && whole.2
      && (mine.2 <==> AllTaken(visit, mine.1)) && (mine.2 ==> mine == whole)
  {
    hide TakeLines, Flush;
    var (mid, early) := TakeLines(ex, st, data);
    var late := Flush(ex, mid).1;
    OneBlock(ex, st, data);
    OneBlock(ex, mid, data);
    assert early <= early + late;
    assert early != [] ==> all(early[0]);
    assert late != [] ==> all(late[0]);
    var mine := Feed(ex, visit, st, data, final);
    assert early != [] ==> mine.1[0] == early[0];
    if (early == [] || visit(early[0])) && final && late != [] {
      assert mine.1[|early|] == late[0];
    }
  }

  lemma StopsEarlier(visit: Visit -> bool, mine: seq<Visit>, whole: seq<Visit>, more: seq<Visit>)
    requires StopsAt(visit, mine, whole) && !AllTaken(visit, mine)
    ensures StopsAt(visit, mine, whole + more)
  {
  }

  lemma StopsLater(visit: Visit -> bool, first: seq<Visit>, mine: seq<Visit>, whole: seq<Visit>)
    requires AllTaken(visit, first) && StopsAt(visit, mine, whole)
    ensures StopsAt(visit, first + mine, first + whole)
  {
  }

  /** A visitor that refuses ends the run there: it has seen the visits an obliging one would
      have seen, up to and including the one it refused. */
  lemma {:induction false} StoppingSeesPrefix(ex: Extractor, visit: Visit -> bool, all: Visit -> bool,
                                              st: State, chunks: seq<string>)
    requires chunks != [] && NeverStops(all)
    ensures StopsAt(visit, ReadAll(ex, visit, st, chunks).1, ReadAll(ex, all, st, chunks).1)
    decreases |chunks|
  {
    hide Feed, NeverStops, StopsAt, AllTaken;
    FeedStops(ex, visit, all, st, chunks[0], |chunks| == 1);
    var (next, seen, ok) := Feed(ex, all, st, chunks[0], |chunks| == 1);
    if |chunks| > 1 {
      var more := ReadAll(ex, all, next, chunks[1..]).1;
      if Feed(ex, visit, st, chunks[0], false).2 {
        StoppingSeesPrefix(ex, visit, all, next, chunks[1..]);
        StopsLater(visit, seen, ReadAll(ex, visit, next, chunks[1..]).1, more);
      } else {
        StopsEarlier(visit, Feed(ex, visit, st, chunks[0], false).1, seen, more);
      }
    }
  }

  // ---- The bounded tail ----

  const MAX_STREAM_TAIL_BYTES: nat := 131072

  function LastBytes(s: string, n: nat): string {
    if |s| <= n then s else s[|s| - n..]
  }

  class StreamTail {
    var buf: string

    constructor ()
      ensures buf == ""
    {
      buf := "";
    }

    method Append(data: string)
      requires |buf| <= MAX_STREAM_TAIL_BYTES
      modifies this
      ensures buf == LastBytes(old(buf) + data, MAX_STREAM_TAIL_BYTES)
    {
      if |data| >= MAX_STREAM_TAIL_BYTES {
        buf := data[|data| - MAX_STREAM_TAIL_BYTES..];
        return;
      }
      if |buf| + |data| > MAX_STREAM_TAIL_BYTES {
        var keep := MAX_STREAM_TAIL_BYTES - |data|;
        buf := buf[|buf| - keep..];
      }
      buf := buf + data;
    }
  }

  function TailAfter(chunks: seq<string>, n: nat): string {
    if chunks == [] then ""
    else LastBytes(TailAfter(chunks[..|chunks| - 1], n) + chunks[|chunks| - 1], n)
  }

  lemma LastBytesStep(all: string, last: string, n: nat)
    ensures LastBytes(LastBytes(all, n) + last, n) == LastBytes(all + last, n)
  {
    var kept := LastBytes(all, n);
    if |all| > n {
      assert all + last == all[..|all| - n] + (kept + last);
    }
  }

  /** After any run of appends the tail is the last min(total, n) bytes received. */
  lemma {:induction false} TailIsSuffix(chunks: seq<string>, n: nat)
    ensures var (tail, all) := (TailAfter(chunks, n), Concat(chunks));
      |tail| == (if |all| <= n then |all| else n) && tail == all[|all| - |tail|..]
  {
    hide Concat;
    TailIsLast(chunks, n);
  }

  lemma {:induction false} TailIsLast(chunks: seq<string>, n: nat)
    ensures TailAfter(chunks, n) == LastBytes(Concat(chunks), n)
  {
    if chunks == [] {
    } else {
      var front, last := chunks[..|chunks| - 1], chunks[|chunks| - 1];
      TailIsLast(front, n);
      ConcatPush(front, last);
      assert front + [last] == chunks;
      LastBytesStep(Concat(front), last, n);
    }
  }
}
