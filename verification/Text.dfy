/** Text helpers the proxy takes from Go's strings package, and the facts about
    trimming and line splitting that the stream engine relies on. */
module Text {

  /** unicode.IsSpace. */
  predicate IsSpace(c: char) {
    || '\t' <= c <= '\r'
    || c == ' ' || c == '\U{85}' || c == '\U{A0}' || c == '\U{1680}'
    || '\U{2000}' <= c <= '\U{200A}'
    || c == '\U{2028}' || c == '\U{2029}' || c == '\U{202F}' || c == '\U{205F}' || c == '\U{3000}'
  }

  predicate Blank(s: string) {
    forall i :: 0 <= i < |s| ==> IsSpace(s[i])
  }

  /** No white space at either end. */
  predicate Solid(s: string) {
    s != "" ==> !IsSpace(s[0]) && !IsSpace(s[|s| - 1])
  }

  function TrimLeft(s: string): string {
    if s != "" && IsSpace(s[0]) then TrimLeft(s[1..]) else s
  }

  function TrimRight(s: string): string {
    if s != "" && IsSpace(s[|s| - 1]) then TrimRight(s[..|s| - 1]) else s
  }

  function TrimSpace(s: string): string {
    TrimRight(TrimLeft(s))
  }

  /** strings.ToLower on the ASCII letters. */
  function ToLower(s: string): string {
    seq(|s|, i requires 0 <= i < |s| => if 'A' <= s[i] <= 'Z' then (s[i] as int + 32) as char else s[i])
  }

  predicate HasPrefix(s: string, prefix: string) {
    prefix <= s
  }

  function Concat<T>(parts: seq<seq<T>>): seq<T> {
    if parts == [] then [] else parts[0] + Concat(parts[1..])
  }

  lemma Assoc<T>(a: seq<T>, b: seq<T>, c: seq<T>)
    ensures a + (b + c) == (a + b) + c
  {
  }

  lemma SnocTwo<T>(s: seq<T>, a: T, b: T)
    ensures s + [a] + [b] == s + [a, b]
  {
  }

  lemma TakeTake<T>(s: seq<T>, n: nat, m: nat)
    requires m <= n <= |s|
    ensures s[..n][..m] == s[..m]
  {
  }

  lemma {:induction false} ConcatAppend<T>(a: seq<seq<T>>, b: seq<seq<T>>)
    ensures Concat(a + b) == Concat(a) + Concat(b)
  {
    if a == [] {
      assert a + b == b;
    } else {
      assert (a + b)[1..] == a[1..] + b;
      ConcatAppend(a[1..], b);
    }
  }

  lemma {:induction false} ConcatPush<T>(a: seq<seq<T>>, x: seq<T>)
    ensures Concat(a + [x]) == Concat(a) + x
  {
    ConcatAppend(a, [x]);
    assert [x][1..] == [];
  }

  lemma {:induction false} TrimLeftSkips(a: string, t: string)
    requires Blank(a)
    ensures TrimLeft(a + t) == TrimLeft(t)
  {
    if a == "" {
      assert a + t == t;
    } else {
      assert (a + t)[1..] == a[1..] + t;
      TrimLeftSkips(a[1..], t);
    }
  }

  lemma {:induction false} TrimRightSkips(t: string, b: string)
    requires Blank(b)
    ensures TrimRight(t + b) == TrimRight(t)
  {
    if b == "" {
      assert t + b == t;
    } else {
      assert (t + b)[..|t + b| - 1] == t + b[..|b| - 1];
      TrimRightSkips(t, b[..|b| - 1]);
    }
  }

  lemma BlankTrims(s: string)
    requires Blank(s)
    ensures TrimSpace(s) == ""
  {
    TrimLeftSkips(s, "");
    assert s + "" == s;
  }

  /** A solid core between blank margins is what trimming returns. */
  lemma TrimCore(a: string, t: string, b: string)
    requires Blank(a) && Blank(b) && Solid(t)
    ensures TrimSpace(a + t + b) == t
  {
    if t == "" {
      BlankTrims(a + t + b);
    } else {
      assert a + t + b == a + (t + b);
      TrimLeftSkips(a, t + b);
      TrimRightSkips(t, b);
    }
  }

  lemma {:induction false} TrimLeftSplit(s: string) returns (a: string)
    ensures s == a + TrimLeft(s) && Blank(a)
    ensures TrimLeft(s) != "" ==> !IsSpace(TrimLeft(s)[0])
  {
    if s != "" && IsSpace(s[0]) {
      var rest := TrimLeftSplit(s[1..]);
      a := [s[0]] + rest;
    } else {
      a := "";
    }
  }

  lemma {:induction false} TrimRightSplit(s: string) returns (b: string)
    ensures s == TrimRight(s) + b && Blank(b)
    ensures TrimRight(s) != "" ==> !IsSpace(TrimRight(s)[|TrimRight(s)| - 1])
  {
    if s != "" && IsSpace(s[|s| - 1]) {
      var rest := TrimRightSplit(s[..|s| - 1]);
      b := rest + [s[|s| - 1]];
      assert s == s[..|s| - 1] + [s[|s| - 1]];
    } else {
      b := "";
    }
  }

  /** Trimming removes blank margins and nothing else. */
  lemma TrimSplit(s: string) returns (a: string, b: string)
    ensures s == a + TrimSpace(s) + b
    ensures Blank(a) && Blank(b) && Solid(TrimSpace(s))
  {
    a := TrimLeftSplit(s);
    b := TrimRightSplit(TrimLeft(s));
    var t := TrimSpace(s);
    if t != "" {
      assert TrimLeft(s)[0] == (t + b)[0] == t[0];
    }
  }

  lemma TrimSplitSolid(s: string)
    ensures Solid(TrimSpace(s))
  {
    var a, b := TrimSplit(s);
  }

  lemma TrimIdempotent(s: string)
    ensures TrimSpace(TrimSpace(s)) == TrimSpace(s)
  {
    var a, b := TrimSplit(s);
    TrimCore("", TrimSpace(s), "");
    assert "" + TrimSpace(s) + "" == TrimSpace(s);
  }

  /** Growing a text that already shows a non-blank character keeps that
      character first after trimming. */
  lemma TrimHeadStable(s: string, more: string)
    requires TrimSpace(s) != ""
    ensures TrimSpace(s + more) != "" && TrimSpace(s + more)[0] == TrimSpace(s)[0]
  {
    var a, b := TrimSplit(s);
    var t := TrimSpace(s);
    assert s + more == a + (t + b + more);
    TrimLeftSkips(a, t + b + more);
    var u := t + b + more;
    assert TrimLeft(u) == u;
    var e := TrimRightSplit(u);
    assert u == TrimRight(u) + e;
    assert !Blank(u) by { assert !IsSpace(u[0]); }
    assert TrimRight(u) != "";
  }

  // ---- Lines ----

  function FirstNewline(s: string): (i: int)
    ensures -1 <= i < |s|
    ensures i == -1 ==> '\n' !in s
    ensures i >= 0 ==> s[i] == '\n' && '\n' !in s[..i]
  {
    if s == "" then -1
    else if s[0] == '\n' then 0
    else
      var j := FirstNewline(s[1..]);
      if j < 0 then -1
      else
        assert s[..j + 1] == [s[0]] + s[1..][..j];
        j + 1
  }

  lemma {:induction false} FirstNewlineIs(s: string, i: nat)
    requires i < |s| && s[i] == '\n' && '\n' !in s[..i]
    ensures FirstNewline(s) == i
  {
    var j := FirstNewline(s);
    assert forall k :: 0 <= k < i ==> s[k] in s[..i];
    assert j >= 0 ==> forall k :: 0 <= k < j ==> s[k] in s[..j];
  }

  function OneLine(s: string): seq<string> {
    if TrimSpace(s) == "" then [] else [TrimSpace(s)]
  }

  /** The trimmed non-blank lines of a text, in order. */
  function Lines(s: string): seq<string> {
    var i := FirstNewline(s);
    if i < 0 then OneLine(s) else OneLine(s[..i]) + Lines(s[i + 1..])
  }

  lemma {:induction false} LinesWhole(s: string)
    requires '\n' !in s
    ensures Lines(s) == OneLine(s)
  {
  }

  lemma {:induction false} LinesFront(x: string, y: string)
    requires '\n' !in x
    ensures Lines(x + "\n" + y) == OneLine(x) + Lines(y)
  {
    var s := x + "\n" + y;
    assert s[..|x|] == x && s[|x| + 1..] == y;
    FirstNewlineIs(s, |x|);
  }

  lemma CutAtNewline(s: string) returns (x: string, y: string)
    requires FirstNewline(s) >= 0
    ensures '\n' !in x && s == x + "\n" + y && |y| < |s|
  {
    var i := FirstNewline(s);
    x, y := s[..i], s[i + 1..];
  }

  lemma Splice(x: string, y: string, b: string)
    ensures x + "\n" + y + "\n" + b == x + "\n" + (y + "\n" + b)
  {
  }

  lemma {:induction false} LinesJoin(a: string, b: string)
    ensures Lines(a + "\n" + b) == Lines(a) + Lines(b)
    decreases |a|
  {
    if FirstNewline(a) < 0 {
      LinesFront(a, b);
      LinesWhole(a);
    } else {
      var x, y := CutAtNewline(a);
      LinesJoin(y, b);
      calc {
        Lines(a + "\n" + b);
        { Splice(x, y, b); }
        Lines(x + "\n" + (y + "\n" + b));
        { LinesFront(x, y + "\n" + b); }
        OneLine(x) + (Lines(y) + Lines(b));
        { Assoc(OneLine(x), Lines(y), Lines(b)); }
        OneLine(x) + Lines(y) + Lines(b);
        { LinesFront(x, y); }
        Lines(a) + Lines(b);
      }
    }
  }

  lemma TrimSkipsMargins(a: string, s: string, b: string)
    requires Blank(a) && Blank(b)
    ensures TrimSpace(a + s + b) == TrimSpace(s)
  {
    var c, d := TrimSplit(s);
    assert a + s + b == (a + c) + TrimSpace(s) + (d + b);
    TrimCore(a + c, TrimSpace(s), d + b);
  }

  lemma OneLineSkips(a: string, s: string, b: string)
    requires Blank(a) && Blank(b)
    ensures OneLine(a + s + b) == OneLine(s)
  {
    TrimSkipsMargins(a, s, b);
  }

  lemma {:induction false} LinesSkipInFirst(c: char, x: string, y: string)
    requires IsSpace(c) && c != '\n' && '\n' !in x
    ensures Lines([c] + x + "\n" + y) == Lines(x + "\n" + y)
  {
    OneLineSkips([c], x, "");
    assert [c] + x + "" == [c] + x;
    LinesFront(x, y);
    LinesFront([c] + x, y);
  }

  lemma {:induction false} LinesSkipInOnly(c: char, s: string)
    requires IsSpace(c) && c != '\n' && '\n' !in s
    ensures Lines([c] + s) == Lines(s)
  {
    OneLineSkips([c], s, "");
    assert [c] + s + "" == [c] + s;
    LinesWhole([c] + s);
    LinesWhole(s);
  }

  lemma {:induction false} LinesSkipFirst(c: char, s: string)
    requires IsSpace(c)
    ensures Lines([c] + s) == Lines(s)
  {
    if c == '\n' {
      LinesFront("", s);
      assert "" + "\n" + s == [c] + s;
    } else if FirstNewline(s) < 0 {
      LinesSkipInOnly(c, s);
    } else {
      var x, y := CutAtNewline(s);
      LinesSkipInFirst(c, x, y);
      Assoc([c], x, "\n");
      Assoc([c], x + "\n", y);
    }
  }

  lemma {:induction false} LinesSkipLeft(a: string, s: string)
    requires Blank(a)
    ensures Lines(a + s) == Lines(s)
  {
    if a == "" {
      assert a + s == s;
    } else {
      assert a + s == [a[0]] + (a[1..] + s);
      LinesSkipFirst(a[0], a[1..] + s);
      LinesSkipLeft(a[1..], s);
    }
  }

  lemma {:induction false} LinesSkipLast(s: string, c: char)
    requires IsSpace(c)
    ensures Lines(s + [c]) == Lines(s)
    decreases |s|
  {
    if c == '\n' {
      LinesJoin(s, "");
      assert s + "\n" + "" == s + [c];
    } else if FirstNewline(s) < 0 {
      OneLineSkips("", s, [c]);
      assert "" + s + [c] == s + [c];
      LinesWhole(s + [c]);
    } else {
      var x, y := CutAtNewline(s);
      LinesFront(x, y);
      LinesFront(x, y + [c]);
      Assoc(x + "\n", y, [c]);
      hide Lines;
      LinesSkipLast(y, c);
    }
  }

  lemma {:induction false} LinesSkipRight(s: string, b: string)
    requires Blank(b)
    ensures Lines(s + b) == Lines(s)
  {
    if b == "" {
      assert s + b == s;
    } else {
      LinesSkipRight(s, b[..|b| - 1]);
      assert s + b == (s + b[..|b| - 1]) + [b[|b| - 1]];
      LinesSkipLast(s + b[..|b| - 1], b[|b| - 1]);
    }
  }

  /** Trimming a block does not change its trimmed non-blank lines. */
  lemma {:induction false} LinesOfTrimmed(s: string)
    ensures Lines(TrimSpace(s)) == Lines(s)
  {
    var a, b := TrimSplit(s);
    LinesSkipRight(a + TrimSpace(s), b);
    LinesSkipLeft(a, TrimSpace(s));
  }

  // ---- Choosing from a sequence ----

  /** ps are the positions of s that keep accepts, all of them and in order. */
  ghost predicate Marks<T>(s: seq<T>, keep: T -> bool, ps: seq<nat>) {
    Rising(ps) && MarksOnly(s, keep, ps) && MarksAll(s, keep, ps)
  }

  ghost predicate Rising(ps: seq<nat>) {
    forall i, j :: 0 <= i < j < |ps| ==> ps[i] < ps[j]
  }

  ghost predicate MarksOnly<T>(s: seq<T>, keep: T -> bool, ps: seq<nat>) {
    forall i :: 0 <= i < |ps| ==> ps[i] < |s| && keep(s[ps[i]])
  }

  ghost predicate MarksAll<T>(s: seq<T>, keep: T -> bool, ps: seq<nat>) {
    forall k: nat :: k < |s| && keep(s[k]) ==> k in ps
  }

  lemma MarksPush<T>(s: seq<T>, keep: T -> bool, ps: seq<nat>, x: T)
    requires Marks(s, keep, ps)
    ensures Marks(s + [x], keep, if keep(x) then ps + [|s|] else ps)
  {
    var next := if keep(x) then ps + [|s|] else ps;
    assert forall k :: 0 <= k < |s| ==> (s + [x])[k] == s[k];
    assert MarksOnly(s + [x], keep, next);
    assert Rising(next);
    forall k: nat | k < |s + [x]| && keep((s + [x])[k]) ensures k in next {
      if k < |s| {
        assert k in ps;
      }
    }
  }

  lemma MarkedInside<T>(s: seq<T>, keep: T -> bool, ps: seq<nat>)
    requires Marks(s, keep, ps)
    ensures forall i :: 0 <= i < |ps| ==> ps[i] < |s|
  {
  }
}
