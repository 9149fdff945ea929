/** The bracket scanners that find JSON objects and arrays inside free text
    (openai_service.go, gemini_service.go), against the grammar in JsonText. */
module JsonScan {
  import opened Text
  import opened JsonText

  /** What the scanning loops carry from one byte to the next. */
  datatype Scan = Scan(depth: int, inString: bool, escaped: bool)

  function Step(open: char, close: char, st: Scan, ch: char): Scan {
    if st.inString then
      if st.escaped then st.(escaped := false)
      else if ch == '\\' then st.(escaped := true)
      else if ch == '"' then st.(inString := false)
      else st
    else if ch == '"' then st.(inString := true)
    else if ch == open then st.(depth := st.depth + 1)
    else if ch == close then st.(depth := st.depth - 1)
    else st
  }

  predicate Hit(close: char, st: Scan, ch: char) {
    !st.inString && ch == close && st.depth == 1
  }

  function Run(open: char, close: char, st: Scan, s: string): Scan
    decreases |s|
  {
    if s == "" then st else Run(open, close, Step(open, close, st, s[0]), s[1..])
  }

  function Shift(e: int, n: nat): int {
    if e < 0 then -1 else e + n
  }

  /** Position in s of the first bracket that closes everything opened, or -1. */
  function ScanEnd(open: char, close: char, st: Scan, s: string): (e: int)
    ensures -1 <= e < |s|
    decreases |s|
  {
    if s == "" then -1
    else if Hit(close, st, s[0]) then 0
    else Shift(ScanEnd(open, close, Step(open, close, st, s[0]), s[1..]), 1)
  }

  const START := Scan(0, false, false)

  predicate Brackets(open: char, close: char) {
    (open == '{' && close == '}') || (open == '[' && close == ']')
  }

  method MatchingEnd(text: string, start: int, open: char, close: char) returns (end: int)
    requires Brackets(open, close)
    ensures end == if 0 <= start < |text| && text[start] == open
                   then Shift(ScanEnd(open, close, START, text[start..]), start) else -1
  {
    if start < 0 || start >= |text| || text[start] != open {
      return -1;
    }
    var depth, inString, escaped := 0, false, false;
    var i := start;
    while i < |text|
      invariant start <= i <= |text|
      invariant ScanEnd(open, close, START, text[start..])
             == Shift(ScanEnd(open, close, Scan(depth, inString, escaped), text[i..]), i - start)
    {
      var ch := text[i];
      assert text[i..][1..] == text[i + 1..];
      if inString {
        if escaped {
          escaped := false;
        } else if ch == '\\' {
          escaped := true;
        } else if ch == '"' {
          inString := false;
        }
      } else if ch == '"' {
        inString := true;
      } else if ch == open {
        depth := depth + 1;
      } else if ch == close {
        depth := depth - 1;
        if depth == 0 {
          return i;
        }
      }
      i := i + 1;
    }
    return -1;
  }

  method MatchingJSONObjectEnd(text: string, start: int) returns (end: int)
    ensures end == if 0 <= start < |text| && text[start] == '{'
                   then Shift(ScanEnd('{', '}', START, text[start..]), start) else -1
  {
    end := MatchingEnd(text, start, '{', '}');
  }

  /** One past the closing bracket. */
  method FindJSONArrayEnd(s: string, start: int) returns (end: int)
    ensures end == if 0 <= start < |s| && s[start] == '['
                   then Shift(ScanEnd('[', ']', START, s[start..]), start + 1) else -1
  {
    end := MatchingEnd(s, start, '[', ']');
    if end >= 0 {
      end := end + 1;
    }
  }

  // ---- Composition ----

  lemma {:induction false} RunSplit(open: char, close: char, st: Scan, a: string, b: string)
    ensures Run(open, close, st, a + b) == Run(open, close, Run(open, close, st, a), b)
    ensures ScanEnd(open, close, st, a + b)
         == if ScanEnd(open, close, st, a) >= 0 then ScanEnd(open, close, st, a)
            else Shift(ScanEnd(open, close, Run(open, close, st, a), b), |a|)
    decreases |a|
  {
    if a == "" {
      assert a + b == b;
    } else {
      assert (a + b)[1..] == a[1..] + b;
      RunSplit(open, close, Step(open, close, st, a[0]), a[1..], b);
    }
  }

  /** Reading s takes st to st' without closing the outermost bracket. */
  ghost predicate Quiet(open: char, close: char, st: Scan, s: string, st': Scan) {
    Run(open, close, st, s) == st' && ScanEnd(open, close, st, s) < 0
  }

  lemma QuietAppend(open: char, close: char, st: Scan, a: string, mid: Scan, b: string, end: Scan)
    requires Quiet(open, close, st, a, mid) && Quiet(open, close, mid, b, end)
    ensures Quiet(open, close, st, a + b, end)
  {
    RunSplit(open, close, st, a, b);
  }

  lemma QuietOne(open: char, close: char, st: Scan, c: char)
    requires !Hit(close, st, c)
    ensures Quiet(open, close, st, [c], Step(open, close, st, c))
  {
    assert [c][1..] == "";
    assert ScanEnd(open, close, Step(open, close, st, c), "") == -1;
    assert Run(open, close, Step(open, close, st, c), "") == Step(open, close, st, c);
  }

  predicate InertChar(c: char) {
    c != '"' && c != '{' && c != '}' && c != '[' && c != ']'
  }

  predicate Inert(s: string) {
    forall i :: 0 <= i < |s| ==> InertChar(s[i])
  }

  lemma {:induction false} InertIsQuiet(open: char, close: char, d: int, s: string)
    requires Brackets(open, close) && Inert(s)
    ensures Quiet(open, close, Scan(d, false, false), s, Scan(d, false, false))
  {
    if s == "" {
    } else {
      InertIsQuiet(open, close, d, s[1..]);
    }
  }

  lemma {:induction false} CharsAreQuiet(open: char, close: char, d: int, chars: seq<StrChar>)
    requires GoodChars(chars)
    ensures Quiet(open, close, Scan(d, true, false), RenderChars(chars), Scan(d, true, false))
  {
    if chars == [] {
    } else {
      var st := Scan(d, true, false);
      CharsAreQuiet(open, close, d, chars[1..]);
      CharIsQuiet(open, close, d, chars[0]);
      QuietAppend(open, close, st, RenderChar(chars[0]), st, RenderChars(chars[1..]), st);
    }
  }

  lemma {:induction false} PlainRunIsQuiet(open: char, close: char, d: int, s: string)
    requires forall i :: 0 <= i < |s| ==> s[i] != '"' && s[i] != '\\'
    ensures Quiet(open, close, Scan(d, true, false), s, Scan(d, true, false))
  {
    if s == "" {
    } else {
      PlainRunIsQuiet(open, close, d, s[1..]);
    }
  }

  lemma CharIsQuiet(open: char, close: char, d: int, x: StrChar)
    requires GoodChar(x)
    ensures Quiet(open, close, Scan(d, true, false), RenderChar(x), Scan(d, true, false))
  {
    var st, esc := Scan(d, true, false), Scan(d, true, true);
    match x {
      case Plain(c) =>
        QuietOne(open, close, st, c);
      case Escaped(c) =>
        QuietOne(open, close, st, '\\');
        QuietOne(open, close, esc, c);
        QuietAppend(open, close, st, "\\", esc, [c], st);
        assert "\\" + [c] == RenderChar(x);
      case Unicode(h0, h1, h2, h3) =>
        QuietOne(open, close, st, '\\');
        QuietOne(open, close, esc, 'u');
        QuietAppend(open, close, st, "\\", esc, "u", st);
        PlainRunIsQuiet(open, close, d, [h0, h1, h2, h3]);
        QuietAppend(open, close, st, "\\" + "u", st, [h0, h1, h2, h3], st);
        assert "\\" + "u" + [h0, h1, h2, h3] == RenderChar(x);
    }
  }

  lemma StringIsQuiet(open: char, close: char, d: int, chars: seq<StrChar>)
    requires Brackets(open, close) && GoodChars(chars)
    ensures Quiet(open, close, Scan(d, false, false), RenderString(chars), Scan(d, false, false))
  {
    var out, inside := Scan(d, false, false), Scan(d, true, false);
    QuietOne(open, close, out, '"');
    CharsAreQuiet(open, close, d, chars);
    QuietOne(open, close, inside, '"');
    QuietAppend(open, close, out, "\"", inside, RenderChars(chars), inside);
    QuietAppend(open, close, out, "\"" + RenderChars(chars), inside, "\"", out);
  }

  lemma {:induction false} ScalarIsInert(v: Value)
    requires WellFormed(v) && !v.Str? && !v.Arr? && !v.Obj?
    ensures Inert(Render(v))
  {
    if v.Number? {
      InertAppend(if v.negative then "-" else "", v.digits);
      InertAppend((if v.negative then "-" else "") + v.digits, v.fraction);
      assert v.fraction != "" ==> v.fraction == "." + v.fraction[1..];
      ExponentIsInert(v.exponent);
      InertAppend((if v.negative then "-" else "") + v.digits + v.fraction, v.exponent);
    }
  }

  lemma InertAppend(a: string, b: string)
    requires Inert(a) && Inert(b)
    ensures Inert(a + b)
  {
  }

  lemma ExponentIsInert(s: string)
    requires GoodExponent(s)
    ensures Inert(s)
  {
    if s != "" {
      assert forall i :: 1 <= i < |s| ==> s[i] == s[1..][i - 1];
      if !Digits(s[1..]) {
        assert forall i :: 2 <= i < |s| ==> s[i] == s[2..][i - 2];
      }
    }
  }

  /** Inside an open bracket, a whole value leaves the scanner where it was. */
  lemma {:induction false} ValueIsQuiet(open: char, close: char, d: int, v: Value)
    requires Brackets(open, close) && d >= 1 && WellFormed(v)
    ensures Quiet(open, close, Scan(d, false, false), Render(v), Scan(d, false, false))
    decreases v, 1
  {
    if v.Str? {
      StringIsQuiet(open, close, d, v.chars);
    } else if v.Arr? {
      InnerIsQuiet(open, close, if open == '[' then d + 1 else d, v);
      Wrapped(open, close, d, '[', Inner(v), ']');
    } else if v.Obj? {
      InnerIsQuiet(open, close, if open == '{' then d + 1 else d, v);
      Wrapped(open, close, d, '{', Inner(v), '}');
    } else {
      ScalarIsInert(v);
      InertIsQuiet(open, close, d, Render(v));
    }
  }

  lemma Wrapped(open: char, close: char, d: int, left: char, inner: string, right: char)
    requires Brackets(open, close) && Brackets(left, right) && d >= 1
    requires var e := Scan(if open == left then d + 1 else d, false, false); Quiet(open, close, e, inner, e)
    ensures Quiet(open, close, Scan(d, false, false), [left] + inner + [right], Scan(d, false, false))
  {
    var st := Scan(d, false, false);
    var e := Scan(if open == left then d + 1 else d, false, false);
    QuietOne(open, close, st, left);
    QuietOne(open, close, e, right);
    QuietAppend(open, close, st, [left], e, inner, e);
    QuietAppend(open, close, st, [left] + inner, e, [right], st);
  }

  /** What stands between a container's brackets. */
  function Inner(v: Value): string
    requires v.Arr? || v.Obj?
  {
    match v
    case Arr(space, items) => if items.NoItems? then space else RenderItems(items)
    case Obj(space, members) => if members.NoMembers? then space else RenderMembers(members)
  }

  lemma {:induction false} InnerIsQuiet(open: char, close: char, d: int, v: Value)
    requires Brackets(open, close) && d >= 1 && (v.Arr? || v.Obj?) && WellFormed(v)
    ensures Quiet(open, close, Scan(d, false, false), Inner(v), Scan(d, false, false))
    decreases v, 0
  {
    match v {
      case Arr(space, items) =>
        InertIsQuiet(open, close, d, space);
        ItemsAreQuiet(open, close, d, items);
      case Obj(space, members) =>
        InertIsQuiet(open, close, d, space);
        MembersAreQuiet(open, close, d, members);
    }
  }

  lemma {:induction false} ItemsAreQuiet(open: char, close: char, d: int, items: Items)
    requires Brackets(open, close) && d >= 1 && WellFormedItems(items)
    ensures Quiet(open, close, Scan(d, false, false), RenderItems(items), Scan(d, false, false))
    decreases items, 0
  {
    match items {
      case NoItems =>
      case Item(before, v, after, rest) =>
        var st := Scan(d, false, false);
        InertIsQuiet(open, close, d, before);
        ValueIsQuiet(open, close, d, v);
        InertIsQuiet(open, close, d, after);
        InertIsQuiet(open, close, d, ",");
        ItemsAreQuiet(open, close, d, rest);
        QuietAppend(open, close, st, before, st, Render(v), st);
        QuietAppend(open, close, st, before + Render(v), st, after, st);
        QuietAppend(open, close, st, ",", st, RenderItems(rest), st);
        var tail := if rest.NoItems? then "" else "," + RenderItems(rest);
        QuietAppend(open, close, st, before + Render(v) + after, st, tail, st);
    }
  }

  lemma {:induction false} MembersAreQuiet(open: char, close: char, d: int, members: Members)
    requires Brackets(open, close) && d >= 1 && WellFormedMembers(members)
    ensures Quiet(open, close, Scan(d, false, false), RenderMembers(members), Scan(d, false, false))
    decreases members, 0
  {
    match members {
      case NoMembers =>
      case Member(before, key, mid, pre, v, after, rest) =>
        var st := Scan(d, false, false);
        InertIsQuiet(open, close, d, before);
        StringIsQuiet(open, close, d, key);
        InertIsQuiet(open, close, d, mid);
        InertIsQuiet(open, close, d, ":");
        InertIsQuiet(open, close, d, pre);
        ValueIsQuiet(open, close, d, v);
        InertIsQuiet(open, close, d, after);
        InertIsQuiet(open, close, d, ",");
        MembersAreQuiet(open, close, d, rest);
        var s := before;
        QuietAppend(open, close, st, s, st, RenderString(key), st);
        s := s + RenderString(key);
        QuietAppend(open, close, st, s, st, mid, st);
        s := s + mid;
        QuietAppend(open, close, st, s, st, ":", st);
        s := s + ":";
        QuietAppend(open, close, st, s, st, pre, st);
        s := s + pre;
        QuietAppend(open, close, st, s, st, Render(v), st);
        s := s + Render(v);
        QuietAppend(open, close, st, s, st, after, st);
        QuietAppend(open, close, st, ",", st, RenderMembers(rest), st);
        var tail := if rest.NoMembers? then "" else "," + RenderMembers(rest);
        QuietAppend(open, close, st, s + after, st, tail, st);
    }
  }

  lemma {:induction false} ContainerEnd(open: char, close: char, inner: string, rest: string)
    requires Brackets(open, close)
    requires Quiet(open, close, Scan(1, false, false), inner, Scan(1, false, false))
    ensures ScanEnd(open, close, START, [open] + inner + [close] + rest) == |inner| + 1
  {
    var one := Scan(1, false, false);
    QuietOne(open, close, START, open);
    QuietAppend(open, close, START, [open], one, inner, one);
    RunSplit(open, close, START, [open] + inner, [close] + rest);
    assert [open] + inner + [close] + rest == ([open] + inner) + ([close] + rest);
  }

  /** For any JSON object text followed by anything, the scanner stops on the
      object's last byte. */
  lemma {:induction false} ObjectScan(v: Value, rest: string)
    requires v.Obj? && WellFormed(v)
    ensures ScanEnd('{', '}', START, Render(v) + rest) == |Render(v)| - 1
  {
    InnerIsQuiet('{', '}', 1, v);
    ContainerEnd('{', '}', Inner(v), rest);
    assert Render(v) == "{" + Inner(v) + "}";
  }

  lemma {:induction false} ArrayScan(v: Value, rest: string)
    requires v.Arr? && WellFormed(v)
    ensures ScanEnd('[', ']', START, Render(v) + rest) == |Render(v)| - 1
  {
    InnerIsQuiet('[', ']', 1, v);
    ContainerEnd('[', ']', Inner(v), rest);
    assert Render(v) == "[" + Inner(v) + "]";
  }

  /** An object cut off anywhere is never closed: nothing is half recovered. */
  lemma {:induction false} TruncatedObjectNeverCloses(v: Value, n: nat)
    requires v.Obj? && WellFormed(v) && n < |Render(v)|
    ensures ScanEnd('{', '}', START, Render(v)[..n]) == -1
  {
    ObjectScan(v, "");
    assert Render(v) + "" == Render(v) == Render(v)[..n] + Render(v)[n..];
    RunSplit('{', '}', START, Render(v)[..n], Render(v)[n..]);
  }

  // ---- Candidates ----

  function Candidates(s: string): seq<string>
    decreases |s|
  {
    if s == "" then []
    else if s[0] != '{' then Candidates(s[1..])
    else
      var e := ScanEnd('{', '}', START, s);
      if e < 0 then [] else [TrimSpace(s[..e + 1])] + Candidates(s[e + 1..])
  }

  /** The extraction loop comes to position k and finds a candidate there. */
  predicate StartsAt(text: string, k: nat)
    decreases |text|
  {
    if text == "" then false
    else if text[0] != '{' then k > 0 && StartsAt(text[1..], k - 1)
    else
      var e := ScanEnd('{', '}', START, text);
      e >= 0 && (k == 0 || (k > e && StartsAt(text[e + 1..], k - e - 1)))
  }

  /** Where the loop stands at i, the positions from i on are those of the rest. */
  ghost predicate StandsAt(text: string, i: nat)
    requires i <= |text|
  {
    forall k: nat :: k >= i ==> (StartsAt(text, k) <==> StartsAt(text[i..], k - i))
  }

  /** starts are the positions found before i. */
  ghost predicate StartsBefore(text: string, starts: seq<nat>, i: nat)
    requires i <= |text|
  {
    StandsAt(text, i) && forall k: nat :: k in starts <==> k < i && StartsAt(text, k)
  }

  lemma NoneBefore(text: string)
    ensures StartsBefore(text, [], 0)
  {
    assert text[0..] == text;
  }

  lemma StartsNext(text: string, starts: seq<nat>, i: nat)
    requires i < |text| && text[i] != '{' && StartsBefore(text, starts, i)
    ensures StartsBefore(text, starts, i + 1)
  {
    assert text[i..][1..] == text[i + 1..];
  }

  lemma StartsFound(text: string, starts: seq<nat>, i: nat, end: nat)
    requires i <= end < |text| && text[i] == '{' && StartsBefore(text, starts, i)
    requires ScanEnd('{', '}', START, text[i..]) == end - i
    ensures StartsBefore(text, starts + [i], end + 1)
  {
    assert text[i..][end - i + 1..] == text[end + 1..];
    assert StartsAt(text, i) && forall k: nat :: i < k <= end ==> !StartsAt(text, k);
  }

  lemma {:induction false} StartsAll(text: string, starts: seq<nat>, i: nat)
    requires i <= |text| && StartsBefore(text, starts, i)
    requires i < |text| ==> text[i] == '{' && ScanEnd('{', '}', START, text[i..]) < 0
    ensures forall k: nat :: k in starts <==> StartsAt(text, k)
  {
  }

  /** Each candidate is cut out of the text where it starts. */
  ghost predicate Located(text: string, out: seq<string>, starts: seq<nat>) {
    |starts| == |out| && forall n :: 0 <= n < |out| ==> CutAt(text, out[n], starts[n])
  }

  ghost predicate CutAt(text: string, piece: string, i: nat) {
    i < |text| && exists e :: i <= e <= |text| && piece == TrimSpace(text[i..e])
  }

  lemma LocatedPush(text: string, out: seq<string>, starts: seq<nat>, i: nat, e: nat)
    requires Located(text, out, starts) && i < |text| && i <= e <= |text|
    ensures Located(text, out + [TrimSpace(text[i..e])], starts + [i])
  {
    hide TrimSpace;
    assert CutAt(text, TrimSpace(text[i..e]), i);
  }

  /** The candidates, and where they start. */
  method ExtractJSONObjectCandidates(text: string) returns (out: seq<string>, ghost starts: seq<nat>)
    ensures out == Candidates(text) && Located(text, out, starts)
    ensures forall k: nat :: k in starts <==> StartsAt(text, k)
  {
    hide StartsBefore, Located, TrimSpace, StartsAt;
    out, starts := [], [];
    NoneBefore(text);
    NothingLocated(text);
    var i := 0;
    while i < |text|
      invariant 0 <= i <= |text|
      invariant out + Candidates(text[i..]) == Candidates(text)
      invariant Located(text, out, starts) && StartsBefore(text, starts, i)
    {
      if text[i] != '{' {
        assert text[i..][1..] == text[i + 1..];
        StartsNext(text, starts, i);
        i := i + 1;
      } else {
        var end := MatchingJSONObjectEnd(text, i);
        if end < 0 {
          break;
        }
        assert text[i..][..end - i + 1] == text[i..end + 1] && text[i..][end - i + 1..] == text[end + 1..];
        LocatedPush(text, out, starts, i, end + 1);
        StartsFound(text, starts, i, end);
        out := out + [TrimSpace(text[i..end + 1])];
        starts := starts + [i];
        i := end + 1;
      }
    }
    StartsAll(text, starts, i);
  }

  lemma {:induction false} NothingLocated(text: string)
    ensures Located(text, [], []) && text[0..] == text && [] + Candidates(text) == Candidates(text)
  {
  }

  lemma {:induction false} ProseSkipped(prose: string, s: string)
    requires '{' !in prose
    ensures Candidates(prose + s) == Candidates(s)
  {
    if prose == "" {
      assert prose + s == s;
    } else {
      assert (prose + s)[1..] == prose[1..] + s;
      ProseSkipped(prose[1..], s);
    }
  }

  lemma {:induction false} ObjectTaken(v: Value, s: string)
    requires v.Obj? && WellFormed(v)
    ensures Candidates(Render(v) + s) == [Render(v)] + Candidates(s)
  {
    ObjectScan(v, s);
    var text := Render(v) + s;
    assert text[..|Render(v)|] == Render(v) && text[|Render(v)|..] == s;
    assert Render(v) == "{" + Inner(v) + "}";
    TrimCore("", Render(v), "");
    assert "" + Render(v) + "" == Render(v);
  }

  // ---- Exactly when an object is found ----

  /** Every brace met at top level in the text is closed in it. */
  predicate Closes(text: string)
    decreases |text|
  {
    if text == "" then true
    else if text[0] != '{' then Closes(text[1..])
    else
      var e := ScanEnd('{', '}', START, text);
      e >= 0 && Closes(text[e + 1..])
  }

  /** Scanning on after a text that stays open ends beyond it, if at all. */
  lemma {:induction false} StaysOpen(text: string, more: string)
    requires ScanEnd('{', '}', START, text) < 0
    ensures ScanEnd('{', '}', START, text + more) < 0 || ScanEnd('{', '}', START, text + more) >= |text|
  {
    RunSplit('{', '}', START, text, more);
  }

  lemma {:induction false} StaysClosed(text: string, more: string)
    requires ScanEnd('{', '}', START, text) >= 0
    ensures ScanEnd('{', '}', START, text + more) == ScanEnd('{', '}', START, text)
  {
    RunSplit('{', '}', START, text, more);
  }

  lemma DropInFirst(a: string, b: string, n: nat)
    requires n <= |a|
    ensures (a + b)[n..] == a[n..] + b
  {
  }

  /** Behind a text that closes, the loop is where it would be without that text. */
  lemma {:induction false} StartsBehind(text: string, more: string, k: nat)
    requires Closes(text)
    ensures StartsAt(text + more, |text| + k) <==> StartsAt(more, k)
    decreases |text|
  {
    if text == "" {
      assert text + more == more;
    } else if text[0] != '{' {
      DropInFirst(text, more, 1);
      StartsBehind(text[1..], more, k);
    } else {
      var e := ScanEnd('{', '}', START, text);
      StaysClosed(text, more);
      DropInFirst(text, more, e + 1);
      StartsBehind(text[e + 1..], more, k);
    }
  }

  /** Right behind a text that does not close, no candidate starts. */
  lemma {:induction false} NoStartBehind(text: string, more: string)
    requires !Closes(text)
    ensures !StartsAt(text + more, |text|)
    decreases |text|
  {
    if text[0] != '{' {
      DropInFirst(text, more, 1);
      NoStartBehind(text[1..], more);
    } else {
      var e := ScanEnd('{', '}', START, text);
      if e < 0 {
        StaysOpen(text, more);
      } else {
        StaysClosed(text, more);
        DropInFirst(text, more, e + 1);
        NoStartBehind(text[e + 1..], more);
      }
    }
  }

  /** An object inside any text is found exactly when every brace met at top level
      before it is closed before it. */
  lemma {:induction false} ObjectFoundIff(before: string, v: Value, rest: string)
    requires v.Obj? && WellFormed(v)
    ensures StartsAt(before + (Render(v) + rest), |before|) <==> Closes(before)
  {
    if Closes(before) {
      ObjectScan(v, rest);
      StartsBehind(before, Render(v) + rest, 0);
      assert Render(v) == "{" + Inner(v) + "}";
    } else {
      NoStartBehind(before, Render(v) + rest);
    }
  }

  /** What comes behind a text that closes is scanned as if it stood alone. */
  lemma {:induction false} CandidatesBehind(before: string, more: string)
    requires Closes(before)
    ensures Candidates(before + more) == Candidates(before) + Candidates(more)
    decreases |before|
  {
    if before == "" {
      assert before + more == more && Candidates("") + Candidates(more) == Candidates(more);
    } else if before[0] != '{' {
      DropInFirst(before, more, 1);
      CandidatesBehind(before[1..], more);
    } else {
      var e := ScanEnd('{', '}', START, before);
      StaysClosed(before, more);
      DropInFirst(before, more, e + 1);
      assert (before + more)[..e + 1] == before[..e + 1];
      CandidatesBehind(before[e + 1..], more);
      Assoc([TrimSpace(before[..e + 1])], Candidates(before[e + 1..]), Candidates(more));
    }
  }

  /** An object behind a text that closes is a candidate of its own. */
  lemma {:induction false} ObjectBehind(before: string, v: Value, rest: string)
    requires Closes(before) && v.Obj? && WellFormed(v)
    ensures Candidates(before + (Render(v) + rest)) == Candidates(before) + ([Render(v)] + Candidates(rest))
  {
    CandidatesBehind(before, Render(v) + rest);
    ObjectTaken(v, rest);
  }

  lemma {:induction false} BraceFreeCloses(prose: string)
    requires '{' !in prose
    ensures Closes(prose) && Candidates(prose) == []
  {
    if prose == "" {
    } else {
      BraceFreeCloses(prose[1..]);
    }
  }

  datatype Piece = Piece(prose: string, found: Value)

  /** Objects, each behind a text that closes. */
  ghost predicate ClosingPieces(pieces: seq<Piece>) {
    forall i :: 0 <= i < |pieces| ==> Closes(pieces[i].prose) && pieces[i].found.Obj? && WellFormed(pieces[i].found)
  }

  /** Objects, each behind prose without an opening brace. */
  ghost predicate GoodPieces(pieces: seq<Piece>) {
    forall i :: 0 <= i < |pieces| ==>
      '{' !in pieces[i].prose && pieces[i].found.Obj? && WellFormed(pieces[i].found)
  }

  function Interleave(pieces: seq<Piece>, tail: string): string {
    if pieces == [] then tail
    else pieces[0].prose + (Render(pieces[0].found) + Interleave(pieces[1..], tail))
  }

  function Objects(pieces: seq<Piece>): seq<string> {
    if pieces == [] then [] else [Render(pieces[0].found)] + Objects(pieces[1..])
  }

  /** The objects and whatever balanced braces the prose holds, in order. */
  function Found(pieces: seq<Piece>): seq<string> {
    if pieces == [] then []
    else Candidates(pieces[0].prose) + ([Render(pieces[0].found)] + Found(pieces[1..]))
  }

  lemma {:induction false} PiecesTaken(pieces: seq<Piece>, tail: string)
    requires ClosingPieces(pieces)
    ensures Candidates(Interleave(pieces, tail)) == Found(pieces) + Candidates(tail)
  {
    if pieces == [] {
      assert Found(pieces) + Candidates(tail) == Candidates(tail);
    } else {
      var rest := Interleave(pieces[1..], tail);
      ObjectBehind(pieces[0].prose, pieces[0].found, rest);
      PiecesTaken(pieces[1..], tail);
      var taken := [Render(pieces[0].found)];
      Assoc(taken, Found(pieces[1..]), Candidates(tail));
      Assoc(Candidates(pieces[0].prose), taken + Found(pieces[1..]), Candidates(tail));
    }
  }

  lemma {:induction false} NothingElse(pieces: seq<Piece>)
    requires GoodPieces(pieces)
    ensures ClosingPieces(pieces) && Found(pieces) == Objects(pieces)
  {
    if pieces == [] {
    } else {
      BraceFreeCloses(pieces[0].prose);
      NothingElse(pieces[1..]);
      assert forall i :: 1 <= i < |pieces| ==> pieces[i] == pieces[1..][i - 1];
    }
  }

  /** Objects among prose that closes, ended by anything without an opening brace: the
      objects and the balanced braces of the prose, in order; only the objects when the
      prose has no opening brace. */
  lemma {:induction false} CandidatesAreTheObjects(pieces: seq<Piece>, tail: string)
    requires ClosingPieces(pieces) && '{' !in tail
    ensures Candidates(Interleave(pieces, tail)) == Found(pieces)
    ensures GoodPieces(pieces) ==> Candidates(Interleave(pieces, tail)) == Objects(pieces)
  {
    PiecesTaken(pieces, tail);
    BraceFreeCloses(tail);
    if GoodPieces(pieces) {
      NothingElse(pieces);
    }
  }

  /** The same when the output breaks off inside a last object: that one is
      skipped. */
  lemma {:induction false} CutOffObjectIsSkipped(pieces: seq<Piece>, prose: string, last: Value, n: nat)
    requires ClosingPieces(pieces) && Closes(prose)
    requires last.Obj? && WellFormed(last) && 0 < n < |Render(last)|
    ensures Candidates(Interleave(pieces, prose + Render(last)[..n])) == Found(pieces) + Candidates(prose)
    ensures GoodPieces(pieces) && '{' !in prose ==>
      Candidates(Interleave(pieces, prose + Render(last)[..n])) == Objects(pieces)
  {
    var cut := Render(last)[..n];
    assert Render(last) == "{" + Inner(last) + "}" && cut[0] == '{';
    TruncatedObjectNeverCloses(last, n);
    CandidatesBehind(prose, cut);
    PiecesTaken(pieces, prose + cut);
    if GoodPieces(pieces) && '{' !in prose {
      NothingElse(pieces);
      BraceFreeCloses(prose);
    }
  }

  lemma {:induction false} PiecesAreQuiet(d: int, pieces: seq<Piece>, tail: string)
    requires d >= 1 && GoodPieces(pieces) && Inert(tail)
    requires forall i :: 0 <= i < |pieces| ==> Inert(pieces[i].prose)
    ensures Quiet('{', '}', Scan(d, false, false), Interleave(pieces, tail), Scan(d, false, false))
  {
    var st := Scan(d, false, false);
    if pieces == [] {
      InertIsQuiet('{', '}', d, tail);
    } else {
      InertIsQuiet('{', '}', d, pieces[0].prose);
      ValueIsQuiet('{', '}', d, pieces[0].found);
      PiecesAreQuiet(d, pieces[1..], tail);
      QuietAppend('{', '}', st, Render(pieces[0].found), st, Interleave(pieces[1..], tail), st);
      QuietAppend('{', '}', st, pieces[0].prose, st, Render(pieces[0].found) + Interleave(pieces[1..], tail), st);
    }
  }

  /** The worst case: one stray opening brace in otherwise inert prose hides every object
      after it. */
  lemma {:induction false} StrayBraceHidesAll(prose: string, pieces: seq<Piece>, tail: string)
    requires '{' !in prose && GoodPieces(pieces) && Inert(tail)
    requires forall i :: 0 <= i < |pieces| ==> Inert(pieces[i].prose)
    ensures Candidates(prose + ("{" + Interleave(pieces, tail))) == []
  {
    var rest := Interleave(pieces, tail);
    ProseSkipped(prose, "{" + rest);
    QuietOne('{', '}', START, '{');
    PiecesAreQuiet(1, pieces, tail);
    QuietAppend('{', '}', START, "{", Scan(1, false, false), rest, Scan(1, false, false));
    assert ("{" + rest)[0] == '{';
  }
}
