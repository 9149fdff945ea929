/** What the split of a byte stream into chunks can change about the delivered text, and
    exactly when it changes nothing (gemini_service.go). */
module StreamSplits {
  import opened Text
  import opened StreamParser

  // ---- Texts of lines ----

  lemma {:induction false} LastTextAppend(ex: Extractor, a: seq<string>, b: seq<string>)
    ensures LastText(ex, a + b) == if LastText(ex, b) != "" then LastText(ex, b) else LastText(ex, a)
  {
    if b == [] {
      assert a + b == a;
    } else {
      assert (a + b)[..|a + b| - 1] == a + b[..|b| - 1];
      LastTextAppend(ex, a, b[..|b| - 1]);
    }
  }

  /** Some line has the last text. */
  lemma {:induction false} LastTextWhere(ex: Extractor, lines: seq<string>) returns (i: nat)
    requires LastText(ex, lines) != ""
    ensures i < |lines| && ex.ofLine(lines[i]) == LastText(ex, lines)
  {
    var n := |lines| - 1;
    if ex.ofLine(lines[n]) != "" {
      i := n;
    } else {
      i := LastTextWhere(ex, lines[..n]);
    }
  }

  lemma {:induction false} NoText(ex: Extractor, lines: seq<string>)
    requires LastText(ex, lines) == ""
    ensures forall i :: 0 <= i < |lines| ==> ex.ofLine(lines[i]) == ""
  {
    if lines == [] {
    } else {
      NoText(ex, lines[..|lines| - 1]);
    }
  }

  /** A line with a text has the last one when nothing behind it has any. */
  lemma {:induction false} LastOfFirst(ex: Extractor, lines: seq<string>, i: nat)
    requires i < |lines| && ex.ofLine(lines[i]) != ""
    ensures LastText(ex, lines[..i + 1]) == ex.ofLine(lines[i])
    ensures LastText(ex, lines)
      == if LastText(ex, lines[i + 1..]) != "" then LastText(ex, lines[i + 1..]) else ex.ofLine(lines[i])
  {
    assert lines == lines[..i + 1] + lines[i + 1..];
    LastTextAppend(ex, lines[..i + 1], lines[i + 1..]);
  }

  /** Every line text begins the final one. */
  ghost predicate LinesBegin(ex: Extractor, lines: seq<string>, final: string) {
    forall i :: 0 <= i < |lines| ==> ex.ofLine(lines[i]) <= final
  }

  /** Growing snapshots are such lines: each non-empty text extends the ones before. */
  lemma {:induction false} GrowthSuffices(ex: Extractor, lines: seq<string>)
    requires forall i, j :: 0 <= i < j < |lines| && ex.ofLine(lines[i]) != "" && ex.ofLine(lines[j]) != "" ==>
               ex.ofLine(lines[i]) <= ex.ofLine(lines[j])
    ensures LinesBegin(ex, lines, LastText(ex, lines))
  {
    if LastText(ex, lines) == "" {
      NoText(ex, lines);
    } else {
      var n := LastTextWhere(ex, lines);
      LastIsLatest(ex, lines, n);
    }
  }

  lemma {:induction false} LastIsLatest(ex: Extractor, lines: seq<string>, n: nat)
    requires n < |lines| && ex.ofLine(lines[n]) == LastText(ex, lines) != ""
    ensures forall i :: 0 <= i < |lines| && ex.ofLine(lines[i]) != "" ==>
      i <= n || ex.ofLine(lines[i]) == LastText(ex, lines)
         || exists j :: i < j < |lines| && ex.ofLine(lines[j]) == LastText(ex, lines)
  {
    forall i | n < i < |lines| && ex.ofLine(lines[i]) != ""
      ensures ex.ofLine(lines[i]) == LastText(ex, lines)
              || exists j :: i < j < |lines| && ex.ofLine(lines[j]) == LastText(ex, lines)
    {
      LastOfFirst(ex, lines, i);
      if LastText(ex, lines[i + 1..]) != "" {
        var k := LastTextWhere(ex, lines[i + 1..]);
        assert lines[i + 1..][k] == lines[i + 1 + k];
      }
    }
  }

  // ---- Reading a piece at once ----

  /** The text after a piece of the given text: it must begin with the one so far. */
  function After(lastText: string, text: string): string {
    if text != "" && lastText <= text then text else lastText
  }

  /** The text of a piece that is read as one block. */
  function PieceText(ex: Extractor, piece: string): string {
    if TrimSpace(piece) == "" then "" else BlockText(ex, TrimSpace(piece))
  }

  function Taken(ex: Extractor, lastText: string, piece: string): string {
    After(lastText, PieceText(ex, piece))
  }

  /** Reading pieces one after the other. */
  function TakenAll(ex: Extractor, lastText: string, pieces: seq<string>): string
    decreases |pieces|
  {
    if pieces == [] then lastText else TakenAll(ex, Taken(ex, lastText, pieces[0]), pieces[1..])
  }

  lemma {:induction false} TakenAllAppend(ex: Extractor, lastText: string, a: seq<string>, b: seq<string>)
    ensures TakenAll(ex, lastText, a + b) == TakenAll(ex, TakenAll(ex, lastText, a), b)
    decreases |a|
  {
    hide Taken;
    if a == [] {
      assert a + b == b;
    } else {
      assert (a + b)[1..] == a[1..] + b;
      TakenAllAppend(ex, Taken(ex, lastText, a[0]), a[1..], b);
    }
  }

  lemma ParsedIsTaken(ex: Extractor, lastText: string, raw: string)
    ensures Taken(ex, lastText, raw)
         == if TrimSpace(raw) == "" then lastText else ParseBlock(ex, lastText, TrimSpace(raw)).0
  {
    hide TrimSpace, BlockText;
  }

  lemma TrimEnded(x: string)
    ensures TrimSpace(x + "\n") == TrimSpace(x)
  {
    var a, b := TrimSplit(x);
    TrimCore(a, TrimSpace(x), b + "\n");
    assert x + "\n" == a + TrimSpace(x) + (b + "\n");
  }

  // ---- A split reads what a cut of the ended lines gives ----

  /** The ended lines cut into stretches of whole lines. */
  ghost predicate Cut(pieces: seq<string>, front: string) {
    Concat(pieces) == front && forall i :: 0 <= i < |pieces| ==> WholeLines(pieces[i])
  }

  lemma TakeIsCut(ex: Extractor, st: State, data: string, rest: string, front: string, last: string)
    returns (first: seq<string>, later: string)
    requires Parts(st.pending + data + rest, front, last)
    ensures var next := TakeLines(ex, st, data).0;
      && '\n' !in next.pending && Parts(next.pending + rest, later, last)
      && Cut(first, Concat(first)) && front == Concat(first) + later
      && next.lastText == TakenAll(ex, st.lastText, first)
  {
    hide Parts, TakeLines, Taken, TrimSpace, ParseBlock, LastNewline;
    var buffer := st.pending + data;
    var end := LastNewline(buffer);
    NoPendingNewline(ex, st, data);
    TakeEnds(ex, st, data);
    if end < 0 {
      first, later := [], front;
    } else {
      later := PartsAfter(buffer, end, rest, front, last);
      var piece := buffer[..end] + "\n";
      first := [piece];
      OnePiece(piece);
      TakenEnded(ex, st.lastText, buffer[..end]);
      TakenOne(ex, st.lastText, piece);
    }
  }

  lemma {:induction false} TakenOne(ex: Extractor, lastText: string, piece: string)
    ensures TakenAll(ex, lastText, [piece]) == Taken(ex, lastText, piece)
  {
    hide Taken;
    assert [piece][1..] == [];
  }

  lemma TakenEnded(ex: Extractor, lastText: string, x: string)
    ensures Taken(ex, lastText, x + "\n")
         == if TrimSpace(x) == "" then lastText else ParseBlock(ex, lastText, TrimSpace(x)).0
  {
    hide Taken, TrimSpace, ParseBlock;
    TrimEnded(x);
    ParsedIsTaken(ex, lastText, x + "\n");
  }

  lemma {:induction false} CutAppend(a: seq<string>, b: seq<string>)
    requires Cut(a, Concat(a)) && Cut(b, Concat(b))
    ensures Cut(a + b, Concat(a) + Concat(b))
  {
    hide WholeLines;
    ConcatAppend(a, b);
  }

  lemma FlushTaken(ex: Extractor, st: State)
    ensures Flush(ex, st).0.lastText == Taken(ex, st.lastText, st.pending)
  {
    hide Taken, TrimSpace, ParseBlock;
    ParsedIsTaken(ex, st.lastText, st.pending);
  }

  /** Whatever the chunks, some cut of the ended lines is read, then the unfinished line
      on its own. */
  lemma {:induction false} SplitIsCut(ex: Extractor, visit: Visit -> bool, st: State, chunks: seq<string>,
                                      front: string, last: string) returns (pieces: seq<string>)
    requires chunks != [] && NeverStops(visit) && Parts(st.pending + Concat(chunks), front, last)
    ensures Cut(pieces, front)
    ensures ReadAll(ex, visit, st, chunks).0.lastText == Taken(ex, TakenAll(ex, st.lastText, pieces), last)
    decreases |chunks|
  {
    hide TakeLines, Flush, Taken, Parts;
    var mid := TakeLines(ex, st, chunks[0]).0;
    var rest := Concat(chunks[1..]);
    ConcatHead(st.pending, chunks);
    var first, later := TakeIsCut(ex, st, chunks[0], rest, front, last);
    ReadAllStep(ex, visit, st, chunks);
    hide ReadAll;
    if |chunks| == 1 {
      assert rest == "" && mid.pending + rest == mid.pending;
      PendingIsLast(mid.pending, later, last);
      FlushTaken(ex, mid);
      assert Concat(first) + later == Concat(first);
      pieces := first;
    } else {
      var more := SplitIsCut(ex, visit, mid, chunks[1..], later, last);
      TakenAllAppend(ex, st.lastText, first, more);
      CutAppend(first, more);
      pieces := first + more;
    }
  }

  /** And every cut is read by some split: its pieces are the chunks. */
  lemma {:induction false} CutIsRead(ex: Extractor, visit: Visit -> bool, lastText: string, pieces: seq<string>,
                                     last: string)
    requires NeverStops(visit) && Cut(pieces, Concat(pieces)) && '\n' !in last
    ensures ReadAll(ex, visit, State("", lastText), pieces + [last]).0.lastText
         == Taken(ex, TakenAll(ex, lastText, pieces), last)
    decreases |pieces|
  {
    hide TakeLines, Flush, Taken, WholeLines;
    var chunks := pieces + [last];
    ReadAllStep(ex, visit, State("", lastText), chunks);
    hide ReadAll;
    if pieces == [] {
      assert chunks == [last];
      TakeUnended(ex, lastText, last);
      FlushTaken(ex, State(last, lastText));
    } else {
      TakeWhole(ex, lastText, pieces[0]);
      assert chunks[1..] == pieces[1..] + [last];
      CutIsRead(ex, visit, Taken(ex, lastText, pieces[0]), pieces[1..], last);
    }
  }

  lemma TakeUnended(ex: Extractor, lastText: string, last: string)
    requires '\n' !in last
    ensures TakeLines(ex, State("", lastText), last).0 == State(last, lastText)
  {
    assert "" + last == last;
    hide ParseBlock, TrimSpace;
  }

  lemma TakeWhole(ex: Extractor, lastText: string, piece: string)
    requires WholeLines(piece)
    ensures TakeLines(ex, State("", lastText), piece).0 == State("", Taken(ex, lastText, piece))
  {
    hide TakeLines, Taken, ParseBlock, TrimSpace;
    if piece == "" {
      TakeUnended(ex, lastText, "");
      BlankTrims("");
      ParsedIsTaken(ex, lastText, "");
    } else {
      var x := piece[..|piece| - 1];
      assert piece == x + "\n" && x + "\n" + "" == piece;
      TakeEnded(ex, lastText, x, "");
      TakenEnded(ex, lastText, x);
    }
  }

  /** What the splits of a stream can deliver is exactly what the cuts of its ended lines
      give, for every extractor: nothing else about the chunks matters. */
  lemma {:induction false} SplitsAreCuts(ex: Extractor, visit: Visit -> bool, text: string, front: string,
                                         last: string, t: string)
    requires NeverStops(visit) && Parts(text, front, last)
    ensures (exists chunks :: Split(chunks, text) && Delivered(ex, visit, chunks) == t)
       <==> (exists pieces :: Cut(pieces, front) && Taken(ex, TakenAll(ex, "", pieces), last) == t)
  {
    hide Delivered, Taken, Parts, Cut;
    if chunks :| Split(chunks, text) && Delivered(ex, visit, chunks) == t {
      var pieces := DeliveredByCut(ex, visit, chunks, text, front, last);
    }
    if pieces :| Cut(pieces, front) && Taken(ex, TakenAll(ex, "", pieces), last) == t {
      CutDelivered(ex, visit, pieces, text, front, last);
    }
  }

  lemma {:induction false} DeliveredByCut(ex: Extractor, visit: Visit -> bool, chunks: seq<string>, text: string,
                                          front: string, last: string) returns (pieces: seq<string>)
    requires NeverStops(visit) && Split(chunks, text) && Parts(text, front, last)
    ensures Cut(pieces, front) && Delivered(ex, visit, chunks) == Taken(ex, TakenAll(ex, "", pieces), last)
  {
    hide Delivered, Taken, Parts, Cut, ReadAll;
    assert "" + Concat(chunks) == text;
    pieces := SplitIsCut(ex, visit, State("", ""), chunks, front, last);
    DeliversLastText(ex, visit, chunks);
  }

  lemma {:induction false} CutDelivered(ex: Extractor, visit: Visit -> bool, pieces: seq<string>, text: string,
                                        front: string, last: string)
    requires NeverStops(visit) && Cut(pieces, front) && Parts(text, front, last)
    ensures Split(pieces + [last], text)
    ensures Delivered(ex, visit, pieces + [last]) == Taken(ex, TakenAll(ex, "", pieces), last)
  {
    hide Delivered, Taken, ReadAll;
    ConcatPush(pieces, last);
    CutIsRead(ex, visit, "", pieces, last);
    DeliversLastText(ex, visit, pieces + [last]);
  }

  // ---- Stretches of whole lines ----

  /** From i to j in the ended lines. */
  ghost predicate Stretch(front: string, i: int, j: int) {
    0 <= i <= j <= |front| && WholeLines(front[..i]) && WholeLines(front[..j])
  }

  /** Every stretch whose lines give no text has a text as a whole that begins the final
      one, if it has any. */
  ghost predicate BlocksBegin(ex: Extractor, front: string, final: string) {
    forall i, j :: Stretch(front, i, j) && LastText(ex, Lines(front[i..j])) == "" ==>
      PieceText(ex, front[i..j]) <= final
  }

  lemma {:induction false} LinesBehind(p: string, s: string)
    requires WholeLines(p)
    ensures Lines(p + s) == Lines(p) + Lines(s)
  {
    NoLines(Lines(s));
    if p == "" {
      assert p + s == s;
    } else {
      var x := p[..|p| - 1];
      assert p == x + "\n" && p == x + "\n" + "";
      LinesJoin(x, s);
      LinesJoin(x, "");
      NoLines([]);
      assert Lines(x) + [] == Lines(x);
    }
  }

  lemma WholeAppend(p: string, s: string)
    requires WholeLines(p) && WholeLines(s)
    ensures WholeLines(p + s)
  {
    assert s == "" ==> p + s == p;
  }

  lemma {:induction false} WholeConcat(pieces: seq<string>)
    requires forall i :: 0 <= i < |pieces| ==> WholeLines(pieces[i])
    ensures WholeLines(Concat(pieces))
  {
    hide WholeLines;
    if pieces == [] {
      NothingWhole();
    } else {
      WholeConcat(pieces[1..]);
      WholeAppend(pieces[0], Concat(pieces[1..]));
    }
  }

  lemma NothingWhole()
    ensures WholeLines("")
  {
  }

  lemma {:induction false} TextOfPiece(ex: Extractor, piece: string)
    ensures LastText(ex, Lines(piece)) != "" ==> PieceText(ex, piece) == LastText(ex, Lines(piece))
    ensures PieceText(ex, piece) != "" ==> TrimSpace(piece) != ""
  {
    LinesOfTrimmed(piece);
    NoLines([]);
    hide TrimSpace, Lines;
  }

  lemma {:induction false} LinesAround(front: string, i: nat, j: nat)
    requires Stretch(front, i, j)
    ensures Lines(front) == Lines(front[..i]) + Lines(front[i..j]) + Lines(front[j..])
  {
    hide Lines, WholeLines;
    assert front[..i] + front[i..j] == front[..j] && front[..j] + front[j..] == front;
    LinesBehind(front[..i], front[i..j]);
    LinesBehind(front[..j], front[j..]);
  }

  /** Every stretch's text begins the final one. */
  lemma {:induction false} StretchBegins(ex: Extractor, front: string, i: nat, j: nat, final: string)
    requires Stretch(front, i, j) && LinesBegin(ex, Lines(front), final) && BlocksBegin(ex, front, final)
    ensures PieceText(ex, front[i..j]) <= final
  {
    hide Lines, LastText, PieceText, WholeLines, LinesBegin;
    var s := front[i..j];
    if LastText(ex, Lines(s)) != "" {
      TextOfPiece(ex, s);
      LinesAround(front, i, j);
      LineWithin(ex, Lines(front[..i]), Lines(s), Lines(front[j..]), final);
    }
  }

  lemma {:induction false} LineWithin(ex: Extractor, a: seq<string>, b: seq<string>, c: seq<string>, final: string)
    requires LinesBegin(ex, a + b + c, final) && LastText(ex, b) != ""
    ensures LastText(ex, b) <= final
  {
    var k := LastTextWhere(ex, b);
    InMiddle(a, b, c, k);
    hide LastText;
    assert ex.ofLine((a + b + c)[|a| + k]) <= final;
  }

  lemma InMiddle<T>(a: seq<T>, b: seq<T>, c: seq<T>, k: nat)
    requires k < |b|
    ensures |a| + k < |a + b + c| && (a + b + c)[|a| + k] == b[k]
  {
  }

  lemma {:induction false} PieceIsStretch(pieces: seq<string>, front: string, n: nat) returns (i: nat, j: nat)
    requires Cut(pieces, front) && n < |pieces|
    ensures Stretch(front, i, j) && front[i..j] == pieces[n]
  {
    hide WholeLines;
    var p, s, q := Concat(pieces[..n]), pieces[n], Concat(pieces[n + 1..]);
    assert pieces == pieces[..n + 1] + pieces[n + 1..] && pieces[..n + 1] == pieces[..n] + [s];
    ConcatAppend(pieces[..n + 1], pieces[n + 1..]);
    ConcatPush(pieces[..n], s);
    WholeConcat(pieces[..n]);
    WholeAppend(p, s);
    i, j := |p|, |p + s|;
    MiddleOf(p, s, q);
  }

  lemma MiddleOf(p: string, s: string, q: string)
    ensures var all := p + s + q;
      all[..|p|] == p && all[..|p + s|] == p + s && all[|p|..|p + s|] == s
  {
  }

  ghost predicate PiecesBegin(ex: Extractor, pieces: seq<string>, final: string) {
    forall n :: 0 <= n < |pieces| ==> PieceText(ex, pieces[n]) <= final
  }

  lemma {:induction false} CutBegins(ex: Extractor, pieces: seq<string>, front: string, final: string)
    requires Cut(pieces, front) && LinesBegin(ex, Lines(front), final) && BlocksBegin(ex, front, final)
    ensures PiecesBegin(ex, pieces, final)
  {
    hide LinesBegin, BlocksBegin, PieceText, Cut;
    forall n | 0 <= n < |pieces|
      ensures PieceText(ex, pieces[n]) <= final
    {
      var i, j := PieceIsStretch(pieces, front, n);
      StretchBegins(ex, front, i, j, final);
    }
  }

  lemma {:induction false} StaysBelow(ex: Extractor, lastText: string, pieces: seq<string>, final: string)
    requires lastText <= final && PiecesBegin(ex, pieces, final)
    ensures TakenAll(ex, lastText, pieces) <= final
    decreases |pieces|
  {
    hide PieceText;
    if pieces == [] {
    } else {
      assert forall n :: 0 <= n < |pieces[1..]| ==> pieces[1..][n] == pieces[n + 1];
      StaysBelow(ex, Taken(ex, lastText, pieces[0]), pieces[1..], final);
    }
  }

  /** What is delivered of ended lines, cut in any way, when everything begins the last
      line text. */
  lemma {:induction false} CutSettles(ex: Extractor, pieces: seq<string>, front: string)
    requires Cut(pieces, front) && PiecesBegin(ex, pieces, LastText(ex, Lines(front)))
    ensures TakenAll(ex, "", pieces) == LastText(ex, Lines(front))
    decreases |pieces|
  {
    hide PieceText, WholeLines, Lines, LastText, Cut, PiecesBegin;
    if pieces == [] {
      NothingSettles(ex, pieces, front);
    } else {
      var n := |pieces| - 1;
      var before, piece, final := pieces[..n], pieces[n], LastText(ex, Lines(front));
      assert before + [piece] == pieces;
      LastOfCut(ex, pieces, front, final);
      TextOfPiece(ex, piece);
      TakenAllAppend(ex, "", before, [piece]);
      TakenOne(ex, TakenAll(ex, "", before), piece);
      if LastText(ex, Lines(piece)) != "" {
        StaysBelow(ex, "", before, final);
      } else {
        CutSettles(ex, before, Concat(before));
      }
    }
  }

  lemma {:induction false} NothingSettles(ex: Extractor, pieces: seq<string>, front: string)
    requires Cut(pieces, front) && pieces == []
    ensures LastText(ex, Lines(front)) == ""
  {
    NoLines([]);
  }

  /** The last piece of a cut, and the ones before it. */
  lemma {:induction false} LastOfCut(ex: Extractor, pieces: seq<string>, front: string, final: string)
    requires Cut(pieces, front) && pieces != [] && PiecesBegin(ex, pieces, final)
    ensures var (before, piece) := (pieces[..|pieces| - 1], pieces[|pieces| - 1]);
      && Cut(before, Concat(before)) && PiecesBegin(ex, before, final) && PieceText(ex, piece) <= final
      && LastText(ex, Lines(front))
         == (if LastText(ex, Lines(piece)) != "" then LastText(ex, Lines(piece))
             else LastText(ex, Lines(Concat(before))))
  {
    hide PieceText, WholeLines, Lines, LastText;
    var before, piece := pieces[..|pieces| - 1], pieces[|pieces| - 1];
    assert before + [piece] == pieces;
    ConcatPush(before, piece);
    WholeConcat(before);
    LinesBehind(Concat(before), piece);
    LastTextAppend(ex, Lines(Concat(before)), Lines(piece));
  }

  // ---- Exactly when the split does not matter ----

  /** Every way of cutting the text into chunks delivers the same. */
  ghost predicate SplitsDeliverAlike(ex: Extractor, visit: Visit -> bool, text: string) {
    forall a, b :: Split(a, text) && Split(b, text) ==> Delivered(ex, visit, a) == Delivered(ex, visit, b)
  }

  /** The ended lines settle to their last text, or the unfinished line has a text that
      takes over from all of them. */
  ghost predicate LinesSettle(ex: Extractor, front: string, last: string) {
    || LinesBegin(ex, Lines(front), LastText(ex, Lines(front)))
    || (PieceText(ex, last) != "" && LinesBegin(ex, Lines(front), PieceText(ex, last)))
  }

  /** When the text of every ended line begins that of the last one, and so does what a
      stretch of them without a line text has as a whole, every split delivers that last
      text and what the unfinished line adds to it. */
  lemma {:induction false} SettlesToLastLine(ex: Extractor, visit: Visit -> bool, chunks: seq<string>, front: string,
                                             last: string)
    requires chunks != [] && NeverStops(visit) && Parts(Concat(chunks), front, last)
    requires LinesBegin(ex, Lines(front), LastText(ex, Lines(front)))
    requires BlocksBegin(ex, front, LastText(ex, Lines(front)))
    ensures Delivered(ex, visit, chunks) == After(LastText(ex, Lines(front)), PieceText(ex, last))
  {
    hide LinesBegin, BlocksBegin, PieceText, Cut, Lines, LastText, Parts, Delivered;
    var pieces := DeliveredByCut(ex, visit, chunks, Concat(chunks), front, last);
    CutBegins(ex, pieces, front, LastText(ex, Lines(front)));
    CutSettles(ex, pieces, front);
  }

  /** When all of it begins the text of the unfinished line, every split delivers that. */
  lemma {:induction false} LastLineTakesOver(ex: Extractor, visit: Visit -> bool, chunks: seq<string>, front: string,
                                             last: string)
    requires chunks != [] && NeverStops(visit) && Parts(Concat(chunks), front, last)
    requires PieceText(ex, last) != "" && LinesBegin(ex, Lines(front), PieceText(ex, last))
    requires BlocksBegin(ex, front, PieceText(ex, last))
    ensures Delivered(ex, visit, chunks) == PieceText(ex, last)
  {
    hide LinesBegin, BlocksBegin, PieceText, Cut, Lines, LastText, Parts, Delivered;
    var pieces := DeliveredByCut(ex, visit, chunks, Concat(chunks), front, last);
    CutBegins(ex, pieces, front, PieceText(ex, last));
    StaysBelow(ex, "", pieces, PieceText(ex, last));
  }

  /** Chunk independence: two splits of one such stream show the same lines and deliver the
      same answer. */
  lemma {:induction false} ChunkIndependence(ex: Extractor, visit: Visit -> bool, a: seq<string>, b: seq<string>,
                                             front: string, last: string)
    requires a != [] && b != [] && Concat(a) == Concat(b) && NeverStops(visit) && Parts(Concat(a), front, last)
    requires LinesBegin(ex, Lines(front), LastText(ex, Lines(front)))
    requires BlocksBegin(ex, front, LastText(ex, Lines(front)))
    ensures Delivered(ex, visit, a) == After(LastText(ex, Lines(front)), PieceText(ex, last))
    ensures Delivered(ex, visit, a) == Delivered(ex, visit, b)
    ensures SeenLines(ReadAll(ex, visit, State("", ""), a).1) == SeenLines(ReadAll(ex, visit, State("", ""), b).1)
  {
    hide LinesBegin, BlocksBegin, PieceText, Lines, LastText, Parts, Delivered, ReadAll;
    SettlesToLastLine(ex, visit, a, front, last);
    SettlesToLastLine(ex, visit, b, front, last);
    assert "" + Concat(a) == Concat(a) == "" + Concat(b);
    EveryLineOnce(ex, visit, State("", ""), a);
    EveryLineOnce(ex, visit, State("", ""), b);
  }

  lemma PrefixTrans(a: string, b: string, c: string)
    ensures a <= b && b <= c ==> a <= c
  {
  }

  /** A line whose text does not begin the texts that come after it. */
  lemma Straggler(ex: Extractor, front: string, last: string) returns (i: nat)
    requires !LinesSettle(ex, front, last)
    ensures var lines, final, l := Lines(front), LastText(ex, Lines(front)), PieceText(ex, last);
      i < |lines| && !(ex.ofLine(lines[i]) <= final) && (l != "" && final <= l ==> !(ex.ofLine(lines[i]) <= l))
  {
    hide Lines, LastText, PieceText;
    var lines, final, l := Lines(front), LastText(ex, Lines(front)), PieceText(ex, last);
    if l != "" && final <= l {
      i :| 0 <= i < |lines| && !(ex.ofLine(lines[i]) <= l);
      PrefixTrans(ex.ofLine(lines[i]), final, l);
    } else {
      i :| 0 <= i < |lines| && !(ex.ofLine(lines[i]) <= final);
    }
  }

  /** Two cuts of the ended lines that leave different texts: all at once, and after a
      straggler. */
  lemma {:induction false} CutsDiffer(ex: Extractor, front: string, last: string)
    returns (a: seq<string>, b: seq<string>)
    requires WholeLines(front) && !LinesSettle(ex, front, last)
    ensures Cut(a, front) && Cut(b, front)
    ensures Taken(ex, TakenAll(ex, "", a), last) != Taken(ex, TakenAll(ex, "", b), last)
  {
    hide Lines, LastText, PieceText, WholeLines;
    var i := Straggler(ex, front, last);
    var p, q := CutAfterLine(front, i);
    var t, final := ex.ofLine(Lines(front)[i]), LastText(ex, Lines(front));
    assert !(t <= final) ==> t != "";
    LastOfFirst(ex, Lines(front), i);
    a, b := [front], [p, q];
    OnePiece(front);
    TwoPieces(p, q);
    TextOfPiece(ex, front);
    TextOfPiece(ex, p);
    TextOfPiece(ex, q);
    TakenOne(ex, "", front);
    TakenTwo(ex, "", p, q);
  }

  lemma {:induction false} TakenTwo(ex: Extractor, lastText: string, p: string, q: string)
    ensures TakenAll(ex, lastText, [p, q]) == Taken(ex, Taken(ex, lastText, p), q)
  {
    hide Taken;
    assert [p, q][1..] == [q];
    TakenOne(ex, Taken(ex, lastText, p), q);
  }

  /** Whatever whole blocks give: when the line texts do not settle, two splits differ. */
  lemma {:induction false} UnsettledDiffer(ex: Extractor, visit: Visit -> bool, text: string, front: string,
                                           last: string)
    requires NeverStops(visit) && Parts(text, front, last) && !LinesSettle(ex, front, last)
    ensures !SplitsDeliverAlike(ex, visit, text)
  {
    hide LinesSettle, Cut, Delivered, Split, Taken, WholeLines;
    var a, b := CutsDiffer(ex, front, last);
    CutDelivered(ex, visit, a, text, front, last);
    CutDelivered(ex, visit, b, text, front, last);
  }

  /** The split into chunks never matters exactly when every line text begins the last one
      of the ended lines, or the unfinished line, read on its own in any split, has a text
      that all of them begin. That this is needed holds for every extractor; that it is
      enough takes that no stretch of this stream's ended lines without a line text has as
      a whole a text that does not begin the last one. */
  lemma {:induction false} SplitsDeliverIff(ex: Extractor, visit: Visit -> bool, text: string, front: string,
                                            last: string)
    requires NeverStops(visit) && Parts(text, front, last)
    ensures SplitsDeliverAlike(ex, visit, text) ==> LinesSettle(ex, front, last)
    ensures BlocksBegin(ex, front, LastText(ex, Lines(front))) ==>
      (SplitsDeliverAlike(ex, visit, text) <==> LinesSettle(ex, front, last))
  {
    hide Delivered, PieceText, Lines, LastText, WholeLines, Parts;
    if !LinesSettle(ex, front, last) {
      UnsettledDiffer(ex, visit, text, front, last);
    } else if BlocksBegin(ex, front, LastText(ex, Lines(front))) {
      forall a, b | Split(a, text) && Split(b, text)
        ensures Delivered(ex, visit, a) == Delivered(ex, visit, b)
      {
        DeliverAlike(ex, visit, a, b, front, last);
      }
    }
  }

  lemma {:induction false} DeliverAlike(ex: Extractor, visit: Visit -> bool, a: seq<string>, b: seq<string>,
                                        front: string, last: string)
    requires a != [] && b != [] && Concat(a) == Concat(b) && NeverStops(visit) && Parts(Concat(a), front, last)
    requires BlocksBegin(ex, front, LastText(ex, Lines(front))) && LinesSettle(ex, front, last)
    ensures Delivered(ex, visit, a) == Delivered(ex, visit, b)
  {
    hide Delivered, PieceText, Lines, LastText, Parts, LinesBegin, BlocksBegin;
    var final := LastText(ex, Lines(front));
    if LinesBegin(ex, Lines(front), final) {
      SettlesToLastLine(ex, visit, a, front, last);
      SettlesToLastLine(ex, visit, b, front, last);
    } else {
      BlocksBeginLonger(ex, front, PieceText(ex, last));
      LastLineTakesOver(ex, visit, a, front, last);
      LastLineTakesOver(ex, visit, b, front, last);
    }
  }

  lemma {:induction false} BlocksBeginLonger(ex: Extractor, front: string, longer: string)
    requires BlocksBegin(ex, front, LastText(ex, Lines(front))) && LinesBegin(ex, Lines(front), longer)
    ensures BlocksBegin(ex, front, longer)
  {
    hide Lines, LastText, PieceText;
    var final := LastText(ex, Lines(front));
    if final != "" {
      var i := LastTextWhere(ex, Lines(front));
    }
    forall i, j | Stretch(front, i, j) && LastText(ex, Lines(front[i..j])) == ""
      ensures PieceText(ex, front[i..j]) <= longer
    {
      PrefixTrans(PieceText(ex, front[i..j]), final, longer);
    }
  }

  // ---- Over all streams ----

  /** A block, as the parser is given it, whose lines give no text gives none as a whole. */
  ghost predicate LinesSuffice(ex: Extractor) {
    forall block :: Solid(block) && block != "" && LastText(ex, Lines(block)) == "" ==> ex.ofBlock(block) == ""
  }

  /** Whatever the texts are, when every line text begins the last one, that one is
      delivered. */
  ghost predicate LastTextDelivered(ex: Extractor, visit: Visit -> bool) {
    forall chunks :: chunks != [] && LinesBegin(ex, Lines(Concat(chunks)), LastText(ex, Lines(Concat(chunks)))) ==>
      Delivered(ex, visit, chunks) == LastText(ex, Lines(Concat(chunks)))
  }

  lemma {:induction false} TextOfLines(ex: Extractor, piece: string)
    requires LinesSuffice(ex)
    ensures PieceText(ex, piece) == LastText(ex, Lines(piece))
  {
    TextOfPiece(ex, piece);
    TrimSplitSolid(piece);
    LinesOfTrimmed(piece);
    NoLines([]);
    hide TrimSpace, Solid, Lines;
  }

  lemma {:induction false} BlocksSuffice(ex: Extractor, front: string, final: string)
    requires LinesSuffice(ex)
    ensures BlocksBegin(ex, front, final)
  {
    hide LinesSuffice, PieceText, Lines, LastText;
    forall i, j | Stretch(front, i, j) && LastText(ex, Lines(front[i..j])) == ""
      ensures PieceText(ex, front[i..j]) <= final
    {
      TextOfLines(ex, front[i..j]);
    }
  }

  lemma {:induction false} DeliversLast(ex: Extractor, visit: Visit -> bool, chunks: seq<string>)
    requires NeverStops(visit) && LinesSuffice(ex) && chunks != []
    requires LinesBegin(ex, Lines(Concat(chunks)), LastText(ex, Lines(Concat(chunks))))
    ensures Delivered(ex, visit, chunks) == LastText(ex, Lines(Concat(chunks)))
  {
    hide LinesSuffice, PieceText, Lines, LastText, Delivered, OneLine, LinesBegin, BlocksBegin, Parts;
    var front, last := PartsExist(Concat(chunks));
    LinesOfParts(Concat(chunks), front, last);
    LastTextAppend(ex, Lines(front), OneLine(last));
    LinesOfLast(Concat(chunks), front, last);
    TextOfLines(ex, last);
    FirstBegin(ex, Lines(front), OneLine(last), LastText(ex, Lines(Concat(chunks))));
    if PieceText(ex, last) != "" {
      BlocksSuffice(ex, front, PieceText(ex, last));
      LastLineTakesOver(ex, visit, chunks, front, last);
    } else {
      BlocksSuffice(ex, front, LastText(ex, Lines(front)));
      SettlesToLastLine(ex, visit, chunks, front, last);
    }
  }

  lemma {:induction false} LinesOfLast(text: string, front: string, last: string)
    requires Parts(text, front, last)
    ensures Lines(last) == OneLine(last)
  {
    LinesWhole(last);
  }

  lemma FirstBegin(ex: Extractor, a: seq<string>, b: seq<string>, final: string)
    requires LinesBegin(ex, a + b, final)
    ensures LinesBegin(ex, a, final)
  {
    assert forall i :: 0 <= i < |a| ==> (a + b)[i] == a[i];
  }

  /** A block read at once, with no line text of its own. */
  lemma {:induction false} BlockDelivered(ex: Extractor, visit: Visit -> bool, block: string)
    requires NeverStops(visit) && Solid(block) && block != "" && LastText(ex, Lines(block)) == ""
    ensures Delivered(ex, visit, [block + "\n"]) == ex.ofBlock(block)
    ensures Lines(Concat([block + "\n"])) == Lines(block)
  {
    var chunks := [block + "\n"];
    LinesJoin(block, "");
    NoLines([]);
    OnePiece(block + "\n");
    assert block + "\n" + "" == block + "\n" && Lines(block) + [] == Lines(block);
    SolidTrims(block);
    TakeEnded(ex, "", block, "");
    ReadAllStep(ex, visit, State("", ""), chunks);
    BlankTrims("");
    DeliversLastText(ex, visit, chunks);
    hide Lines, LastText, Delivered, TakeLines, ReadAll, TrimSpace, Solid;
    assert ParseBlock(ex, "", block).0 == ex.ofBlock(block);
  }

  lemma SolidTrims(s: string)
    requires Solid(s)
    ensures TrimSpace(s) == s
  {
    TrimCore("", s, "");
    assert "" + s + "" == s;
  }

  /** For every stream and every split at once, this takes exactly that no block outdoes
      its lines. */
  lemma {:induction false} LinesSufficeIff(ex: Extractor, visit: Visit -> bool)
    requires NeverStops(visit)
    ensures LastTextDelivered(ex, visit) <==> LinesSuffice(ex)
  {
    hide Lines, LastText, Delivered, Solid, LinesBegin;
    if LinesSuffice(ex) {
      forall chunks | chunks != [] && LinesBegin(ex, Lines(Concat(chunks)), LastText(ex, Lines(Concat(chunks))))
        ensures Delivered(ex, visit, chunks) == LastText(ex, Lines(Concat(chunks)))
      {
        DeliversLast(ex, visit, chunks);
      }
    } else {
      var block :| Solid(block) && block != "" && LastText(ex, Lines(block)) == "" && ex.ofBlock(block) != "";
      BlockDelivered(ex, visit, block);
      NoTextBegins(ex, Lines(block));
    }
  }

  lemma {:induction false} NoTextBegins(ex: Extractor, lines: seq<string>)
    requires LastText(ex, lines) == ""
    ensures LinesBegin(ex, lines, "")
  {
    NoText(ex, lines);
  }
}
