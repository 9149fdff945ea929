/** What an answer of the conversation index stands for, said of messages alone: a
    conversation is only found by messages that were recorded for it, the latest
    recording decides, and twelve hours without use end it (openai_service.go). */
module Hits {
  import opened Text
  import opened Messages
  import opened Tables
  import opened ContextIndex

  // ---- What two keys have in common ----

  /** Two messages the index does not tell apart. */
  predicate Alike(m: Message, n: Message) {
    && ToLower(TrimSpace(m.role)) == ToLower(TrimSpace(n.role))
    && TrimSpace(m.content) == TrimSpace(n.content)
    && m.toolCalls == n.toolCalls
    && TrimSpace(m.toolCallID) == TrimSpace(n.toolCallID)
    && TrimSpace(m.name) == TrimSpace(n.name)
    && m.attachments == n.attachments
  }

  predicate AllAlike(a: seq<Message>, b: seq<Message>) {
    |a| == |b| && forall i :: 0 <= i < |a| ==> Alike(a[i], b[i])
  }

  lemma FingerprintIff(a: seq<Message>, b: seq<Message>)
    ensures Fingerprint(a) == Fingerprint(b) <==> AllAlike(a, b)
    ensures Fingerprint(a) == NoKey <==> a == []
  {
    hide TrimSpace, ToLower;
    assert |Normalized(a)| == |a| && |Normalized(b)| == |b|;
    if Fingerprint(a) == Fingerprint(b) {
      assert Normalized(a) == Normalized(b);
      forall i | 0 <= i < |a| ensures Alike(a[i], b[i]) {
        assert Normalized(a)[i] == Normalized(b)[i];
      }
    }
    if AllAlike(a, b) {
      forall i | 0 <= i < |a| ensures Normalized(a)[i] == Normalized(b)[i] {
        assert Alike(a[i], b[i]);
      }
      assert Normalized(a) == Normalized(b);
    }
  }

  // ---- Ids and merged requests ----

  /** Two spellings are one id exactly when they are equal once trimmed. */
  lemma CanonicalIff(a: string, b: string)
    ensures CanonicalId(a) == CanonicalId(b) <==> TrimSpace(a) == TrimSpace(b)
    ensures CanonicalId(a) == NoId <==> TrimSpace(a) == ""
  {
    hide TrimSpace;
  }

  /** What is recorded and sent again: a single new user message is added to what is retained,
      unless it repeats it; anything else stands for the whole conversation. */
  lemma MergedIs(base: seq<Message>, incoming: seq<Message>)
    ensures MergeRecovery(base, incoming)
      == if base != [] && |incoming| == 1 && Says(incoming[0]) && !AllAlike(base, incoming) then base + incoming
         else incoming
  {
    hide TrimSpace, ToLower, Alike, Fingerprint;
    if 0 < |base| <= |incoming| {
      FingerprintIff(incoming[..|base|], base);
      AlikeSymmetric(incoming, base);
      assert |incoming| == |base| ==> incoming[..|base|] == incoming;
    }
  }

  lemma AlikeSymmetric(a: seq<Message>, b: seq<Message>)
    ensures AllAlike(a, b) <==> AllAlike(b, a)
  {
    hide TrimSpace, ToLower;
  }

  // ---- Openings ----

  /** The conversation opens at position k: a user message after system messages only. */
  predicate Opening(messages: seq<Message>, k: nat) {
    && k < |messages| && ToLower(TrimSpace(messages[k].role)) == "user"
    && forall i :: 0 <= i < k ==> ToLower(TrimSpace(messages[i].role)) == "system"
  }

  ghost predicate SameOpening(a: seq<Message>, b: seq<Message>) {
    exists k :: Opening(a, k) && Opening(b, k) && AllAlike(a[..k + 1], b[..k + 1])
  }

  lemma {:induction false} RootAt(messages: seq<Message>, k: nat)
    requires Opening(messages, k)
    ensures RootOf(messages) == messages[..k + 1]
  {
    if k == 0 {
      assert messages[..1] == [messages[0]];
    } else {
      var rest := messages[1..];
      assert forall i :: 0 <= i < k - 1 ==> rest[i] == messages[i + 1];
      RootAt(rest, k - 1);
      assert messages[..k + 1] == [messages[0]] + rest[..k];
    }
  }

  lemma {:induction false} RootOpens(messages: seq<Message>)
    ensures RootOf(messages) != [] ==> Opening(messages, |RootOf(messages)| - 1)
  {
    if messages != [] && RoleOf(messages[0]) == "system" {
      RootOpens(messages[1..]);
      assert forall i :: 1 <= i < |messages| ==> messages[1..][i - 1] == messages[i];
    }
  }

  ghost predicate RootEnds(messages: seq<Message>, k: nat) {
    k < |messages| && RootOf(messages) == messages[..k + 1]
  }

  /** Root keys are equal exactly when the conversations open with like messages, the
      system messages included; there is none when nothing opens. */
  lemma RootKeyIff(a: seq<Message>, b: seq<Message>)
    ensures RootFingerprint(a) == RootFingerprint(b) != NoKey <==> SameOpening(a, b)
    ensures RootFingerprint(a) == NoKey <==> forall k :: !Opening(a, k)
  {
    RootIff(a);
    RootIff(b);
    hide RootOf, Opening, Fingerprint, AllAlike, RootEnds;
    FingerprintIff(RootOf(a), RootOf(b));
    FingerprintIff(RootOf(b), RootOf(a));
    RootsMeet(a, b);
  }

  lemma {:induction false} RootIff(messages: seq<Message>)
    ensures forall k: nat :: Opening(messages, k) ==> RootEnds(messages, k)
    ensures RootOf(messages) != [] ==> Opening(messages, |RootOf(messages)| - 1)
  {
    hide RootOf;
    RootOpens(messages);
    forall k: nat | Opening(messages, k) ensures RootEnds(messages, k) {
      RootAt(messages, k);
    }
  }

  lemma {:induction false} RootsMeet(a: seq<Message>, b: seq<Message>)
    requires forall k: nat :: Opening(a, k) ==> RootEnds(a, k)
    requires forall k: nat :: Opening(b, k) ==> RootEnds(b, k)
    requires RootOf(a) != [] ==> Opening(a, |RootOf(a)| - 1)
    requires RootOf(b) != [] ==> Opening(b, |RootOf(b)| - 1)
    ensures SameOpening(a, b) <==> RootOf(a) != [] && RootOf(b) != [] && AllAlike(RootOf(a), RootOf(b))
    ensures RootOf(a) == [] <==> forall k :: !Opening(a, k)
  {
    hide RootOf, Alike;
    if RootOf(a) != [] && RootOf(b) != [] && AllAlike(RootOf(a), RootOf(b)) {
      var k := |RootOf(a)| - 1;
      assert Opening(a, k) && Opening(b, k);
    }
    if SameOpening(a, b) {
      var k :| Opening(a, k) && Opening(b, k) && AllAlike(a[..k + 1], b[..k + 1]);
      assert RootEnds(a, k) && RootEnds(b, k);
    }
    if k: nat :| Opening(a, k) {
      assert RootEnds(a, k);
    }
  }

  // ---- User windows ----

  /** ps are the positions of the newest user messages that say something, in order. */
  ghost predicate Newest(messages: seq<Message>, ps: seq<nat>) {
    && Rising(ps) && MarksOnly(messages, Says, ps)
    && forall k: nat :: k < |messages| && Says(messages[k]) && ps != [] && ps[0] <= k ==> k in ps
  }

  predicate Says(m: Message) {
    ToLower(TrimSpace(m.role)) == "user" && (TrimSpace(m.content) != "" || m.attachments != [])
  }

  /** The two say the same at these positions. */
  ghost predicate SayAlike(a: seq<Message>, ps: seq<nat>, b: seq<Message>, qs: seq<nat>) {
    && |ps| == |qs|
    && (forall i :: 0 <= i < |ps| ==> ps[i] < |a|) && (forall i :: 0 <= i < |qs| ==> qs[i] < |b|)
    && forall i :: 0 <= i < |ps| ==>
         TrimSpace(a[ps[i]].content) == TrimSpace(b[qs[i]].content)
         && a[ps[i]].attachments == b[qs[i]].attachments
  }

  /** The newest n user messages of both, and all of a's where it has fewer than four. */
  ghost predicate SameUsers(a: seq<Message>, b: seq<Message>, n: nat) {
    exists ps: seq<nat>, qs: seq<nat> :: Newest(a, ps) && Newest(b, qs) && |ps| == n && SayAlike(a, ps, b, qs)
      && (n < 4 ==> MarksAll(a, Says, ps))
  }

  function TurnThere(m: Message): UserTurn {
    UserTurn(TrimSpace(m.content), m.attachments)
  }

  /** The last of the turns are those at these positions. */
  ghost predicate Sits(messages: seq<Message>, ps: seq<nat>, turns: seq<UserTurn>) {
    |ps| <= |turns| && forall i :: 0 <= i < |ps| ==>
      ps[i] < |messages| && turns[|turns| - |ps| + i] == TurnThere(messages[ps[i]])
  }

  lemma LastPosition(messages: seq<Message>, ps: seq<nat>)
    requires Newest(messages, ps) && messages != []
    ensures var n := |messages| - 1;
      if Says(messages[n]) && ps != [] then ps[|ps| - 1] == n && Newest(messages[..n], ps[..|ps| - 1])
      else Newest(messages[..n], ps)
    ensures var n := |messages| - 1;
      MarksAll(messages, Says, ps) ==>
        (Says(messages[n]) ==> ps != [] && MarksAll(messages[..n], Says, ps[..|ps| - 1]))
        && (!Says(messages[n]) ==> MarksAll(messages[..n], Says, ps))
  {
    hide Says;
    var n := |messages| - 1;
    if Says(messages[n]) && ps != [] {
      assert n in ps;
      var front := ps[..|ps| - 1];
      assert forall k :: k in ps ==> k in front || k == ps[|ps| - 1];
      assert forall i :: 0 <= i < |front| ==> front[i] == ps[i];
    }
  }

  lemma {:induction false} NewestSit(messages: seq<Message>, ps: seq<nat>)
    requires Newest(messages, ps)
    ensures Sits(messages, ps, UserTurns(messages))
    ensures MarksAll(messages, Says, ps) ==> |ps| == |UserTurns(messages)|
  {
    hide Newest, UserTurns, MarksAll, Sits, Says;
    if messages == [] {
      NoneSit(messages, ps);
    } else {
      var n := |messages| - 1;
      LastPosition(messages, ps);
      UserTurnsStep(messages, n);
      assert messages[..n + 1] == messages;
      TurnSays(messages[n]);
      if Says(messages[n]) && ps != [] {
        NewestSit(messages[..n], ps[..|ps| - 1]);
        SitsPush(messages, ps[..|ps| - 1], UserTurns(messages[..n]));
        assert ps == ps[..|ps| - 1] + [n];
      } else {
        NewestSit(messages[..n], ps);
        SitsStay(messages, ps, UserTurns(messages[..n]), TurnOf(messages[n]));
      }
    }
  }

  lemma {:induction false} NoneSit(messages: seq<Message>, ps: seq<nat>)
    requires Newest(messages, ps)
    ensures ps != [] ==> messages != []
    ensures messages == [] ==> UserTurns(messages) == [] && Sits(messages, [], [])
  {
    hide Says, Rising;
    if ps != [] {
      assert ps[0] < |messages|;
    }
  }

  lemma TurnSays(m: Message)
    ensures TurnOf(m) == if Says(m) then [TurnThere(m)] else []
  {
    hide TrimSpace;
  }

  lemma SitsPush(messages: seq<Message>, before: seq<nat>, turns: seq<UserTurn>)
    requires messages != [] && Sits(messages[..|messages| - 1], before, turns)
    ensures Sits(messages, before + [|messages| - 1], turns + [TurnThere(messages[|messages| - 1])])
  {
    hide TurnThere;
  }

  lemma SitsStay(messages: seq<Message>, ps: seq<nat>, turns: seq<UserTurn>, more: seq<UserTurn>)
    requires messages != [] && Sits(messages[..|messages| - 1], ps, turns) && (ps == [] || more == [])
    ensures Sits(messages, ps, turns + more)
  {
    hide TurnThere;
  }

  /** The positions of all user messages that say something. */
  lemma {:induction false} Positions(messages: seq<Message>) returns (ps: seq<nat>)
    ensures Marks(messages, Says, ps)
  {
    hide Says, Marks;
    ps := [];
    if messages == [] {
      NoMarks();
    } else {
      var n := |messages| - 1;
      var front := Positions(messages[..n]);
      MarksPush(messages[..n], Says, front, messages[n]);
      assert messages == messages[..n] + [messages[n]];
      ps := if Says(messages[n]) then front + [n] else front;
    }
  }

  lemma NoMarks()
    ensures Marks([], Says, [])
  {
  }

  lemma NewestOf(messages: seq<Message>, n: nat) returns (ps: seq<nat>)
    requires n <= |UserTurns(messages)|
    ensures Newest(messages, ps) && |ps| == n
    ensures n == |UserTurns(messages)| ==> MarksAll(messages, Says, ps)
  {
    var all := Positions(messages);
    NewestSit(messages, all);
    hide Says, UserTurns, Sits;
    ps := all[|all| - n..];
    LastOnes(messages, all, n);
  }

  lemma LastOnes(messages: seq<Message>, all: seq<nat>, n: nat)
    requires Newest(messages, all) && MarksAll(messages, Says, all) && n <= |all|
    ensures Newest(messages, all[|all| - n..])
  {
    hide Says;
    var ps := all[|all| - n..];
    forall k: nat | k < |messages| && Says(messages[k]) && ps != [] && ps[0] <= k ensures k in ps {
      assert k in all;
      var i :| 0 <= i < |all| && all[i] == k;
      assert i >= |all| - n;
      assert ps[i - (|all| - n)] == k;
    }
  }

  lemma SitsLast(messages: seq<Message>, ps: seq<nat>, turns: seq<UserTurn>)
    requires Sits(messages, ps, turns)
    ensures |LastN(turns, |ps|)| == |ps|
    ensures forall i :: 0 <= i < |ps| ==>
      ps[i] < |messages| && LastN(turns, |ps|)[i] == TurnThere(messages[ps[i]])
  {
    hide TurnThere;
  }

  lemma {:induction false} SayAlikeIff(a: seq<Message>, ps: seq<nat>, b: seq<Message>, qs: seq<nat>)
    requires Newest(a, ps) && Newest(b, qs) && |ps| == |qs|
    ensures SayAlike(a, ps, b, qs) <==> LastN(UserTurns(a), |ps|) == LastN(UserTurns(b), |ps|)
  {
    NewestSit(a, ps);
    NewestSit(b, qs);
    hide Newest, UserTurns, Sits, LastN;
    SitsLast(a, ps, UserTurns(a));
    SitsLast(b, qs, UserTurns(b));
    Pointwise(a, ps, LastN(UserTurns(a), |ps|), b, qs, LastN(UserTurns(b), |ps|));
  }

  lemma Pointwise(a: seq<Message>, ps: seq<nat>, us: seq<UserTurn>, b: seq<Message>, qs: seq<nat>, vs: seq<UserTurn>)
    requires |ps| == |qs| == |us| == |vs|
    requires forall i :: 0 <= i < |ps| ==> ps[i] < |a| && us[i] == TurnThere(a[ps[i]])
    requires forall i :: 0 <= i < |qs| ==> qs[i] < |b| && vs[i] == TurnThere(b[qs[i]])
    ensures SayAlike(a, ps, b, qs) <==> us == vs
  {
    hide TrimSpace;
    if us == vs {
      forall i | 0 <= i < |ps| ensures TurnThere(a[ps[i]]) == TurnThere(b[qs[i]]) {
        assert us[i] == vs[i];
      }
    }
  }

  /** The window a caller asks by is one of those stored for the transcript. */
  lemma WindowIff(a: seq<Message>, b: seq<Message>)
    ensures var w := WindowFingerprint(a, 2, 4);
      w != NoWindow && w in WindowKeys(b) <==> exists n: nat :: 2 <= n <= 4 && SameUsers(a, b, n)
  {
    hide UserTurns, WindowKeysUpTo, SameUsers;
    var users := UserTurns(a);
    if |users| >= 2 {
      var n := if |users| < 4 then |users| else 4;
      WindowStored(b, n, LastN(users, n));
      assert LastN(users, 4) == LastN(users, n);
      forall m: nat | 2 <= m <= 4 && SameUsers(a, b, m) ensures m == n {
        UsersMean(a, b, m);
      }
      UsersMean(a, b, n);
    } else {
      forall m: nat | 2 <= m <= 4 ensures !SameUsers(a, b, m) {
        UsersMean(a, b, m);
      }
    }
  }

  lemma {:induction false} UsersMean(a: seq<Message>, b: seq<Message>, n: nat)
    requires n <= 4
    ensures SameUsers(a, b, n) <==>
      n <= |UserTurns(a)| && n <= |UserTurns(b)| && LastN(UserTurns(a), n) == LastN(UserTurns(b), n)
      && (n < 4 ==> n == |UserTurns(a)|)
  {
    hide UserTurns, Newest, MarksAll, SayAlike, LastN;
    if SameUsers(a, b, n) {
      var ps: seq<nat>, qs: seq<nat> :| Newest(a, ps) && Newest(b, qs) && |ps| == n && SayAlike(a, ps, b, qs)
        && (n < 4 ==> MarksAll(a, Says, ps));
      SayAlikeSize(a, ps, b, qs);
      NewestSit(a, ps);
      NewestSit(b, qs);
      SayAlikeIff(a, ps, b, qs);
    } else if n <= |UserTurns(a)| && n <= |UserTurns(b)| && (n < 4 ==> n == |UserTurns(a)|) {
      var ps := NewestOf(a, n);
      var qs := NewestOf(b, n);
      SayAlikeIff(a, ps, b, qs);
    }
  }

  lemma SayAlikeSize(a: seq<Message>, ps: seq<nat>, b: seq<Message>, qs: seq<nat>)
    requires SayAlike(a, ps, b, qs)
    ensures |ps| == |qs|
  {
    hide TrimSpace;
  }

  lemma {:induction false} WindowStored(messages: seq<Message>, n: nat, users: seq<UserTurn>)
    requires |users| == n && 2 <= n <= 4
    ensures WindowKey.Window(users) in WindowKeys(messages) <==>
      n <= |UserTurns(messages)| && users == LastN(UserTurns(messages), n)
  {
    hide UserTurns;
    WindowSizes(messages);
    WindowOf(messages, 2);
    WindowOf(messages, 3);
    WindowOf(messages, 4);
  }

  lemma {:induction false} WindowOf(messages: seq<Message>, n: nat)
    requires n > 0
    ensures var w := WindowFingerprint(messages, n, n);
      if n <= |UserTurns(messages)| then w == WindowKey.Window(LastN(UserTurns(messages), n)) && |w.turns| == n
      else w == NoWindow
  {
    hide UserTurns;
  }

  lemma {:induction false} WindowSizes(messages: seq<Message>)
    ensures forall w :: w in WindowKeys(messages) <==>
      w != NoWindow && (w == WindowFingerprint(messages, 2, 2) || w == WindowFingerprint(messages, 3, 3)
                        || w == WindowFingerprint(messages, 4, 4))
  {
    hide WindowFingerprint;
    assert WindowKeysUpTo(messages, 1) == [];
    assert WindowKeysUpTo(messages, 2)
        == WindowKeysUpTo(messages, 1)
           + var w := WindowFingerprint(messages, 2, 2); if w == NoWindow then [] else [w];
    assert WindowKeysUpTo(messages, 3)
        == WindowKeysUpTo(messages, 2)
           + var w := WindowFingerprint(messages, 3, 3); if w == NoWindow then [] else [w];
    assert WindowKeysUpTo(messages, 4)
        == WindowKeysUpTo(messages, 3)
           + var w := WindowFingerprint(messages, 4, 4); if w == NoWindow then [] else [w];
  }

  // ---- What the tables hold ----

  datatype Entry = Whole(key: Key) | Part(key: Key) | Users(window: WindowKey) | Start(root: Key) | Named(client: Id)

  /** Whom an entry names and when it was last used. */
  datatype Cell = Cell(holder: Id, used: int)

  const BLANK: Cell := Cell(NoId, 0)

  function CellIn<K>(t: Table<K, Id>, k: K): Cell {
    if k in t.ctx && k in t.at then Cell(t.ctx[k], t.at[k]) else BLANK
  }

  function At(ix: Index, e: Entry): Cell {
    match e
    case Whole(k) => CellIn(ix.transcripts, k)
    case Part(k) => CellIn(ix.suffixes, k)
    case Users(w) => CellIn(ix.windows, w)
    case Start(k) => CellIn(ix.roots, k)
    case Named(c) => CellIn(ix.explicit, c)
  }

  /** The entry a lookup goes by. */
  function EntryOf(op: Op): Entry
    requires LooksUp(op)
  {
    match op
    case Exact(messages, _) => Whole(Fingerprint(messages))
    case Any(messages, _) => Whole(Fingerprint(messages))
    case Suffix(messages, _) => Part(Fingerprint(messages))
    case Window(messages, _) => Users(WindowFingerprint(messages, 2, 4))
    case Root(messages, _) => Start(RootFingerprint(messages))
    case Explicit(client, _) => Named(client)
  }

  /** Noting these messages leaves this entry. */
  ghost predicate Leaves(messages: seq<Message>, e: Entry) {
    match e
    case Whole(k) => k == Fingerprint(messages)
    case Part(k) => k in SuffixKeys(messages)
    case Users(w) => w in WindowKeys(messages)
    case Start(k) => k == RootFingerprint(messages) != NoKey
    case Named(_) => false
  }

  lemma {:induction false} PutEachCell<K>(t: Table<K, Id>, keys: seq<K>, p: Id, now: int, k: K)
    ensures CellIn(PutEach(t, keys, p, now), k) == if k in keys then Cell(p, now) else CellIn(t, k)
  {
    if keys == [] {
    } else {
      var n := |keys| - 1;
      PutEachCell(t, keys[..n], p, now, k);
      assert k in keys <==> k in keys[..n] || k == keys[n];
    }
  }

  lemma NoteCell(ix: Index, messages: seq<Message>, p: Id, now: int, e: Entry)
    ensures At(NoteTranscript(ix, messages, p, now), e) == if Leaves(messages, e) then Cell(p, now) else At(ix, e)
  {
    hide SuffixKeys, WindowKeys, Fingerprint, RootFingerprint, PutEach;
    match e {
      case Part(k) => PutEachCell(ix.suffixes, SuffixKeys(messages), p, now, k);
      case Users(w) => PutEachCell(ix.windows, WindowKeys(messages), p, now, w);
      case _ =>
    }
  }

  /** The operation recorded a transcript that leaves this entry: with the new answer or
      without it, or by the client's id. */
  ghost predicate Records(op: Op, next: Index, e: Entry) {
    && op.Remember? && Memorable(op.plan, op.up) && op.plan.provider in next.retained.ctx
    && RecordedBy(op.plan, next.retained.ctx[op.plan.provider], e)
  }

  ghost predicate RecordedBy(plan: ContextPlan, t: seq<Message>, e: Entry) {
    || Leaves(t, e) || (|t| > 1 && Leaves(t[..|t| - 1], e))
    || (e == Named(plan.client) && plan.client != NoId)
  }

  lemma RememberedCell(ix: Index, plan: ContextPlan, now: int, e: Entry)
    ensures var next := Remembered(ix, plan, now);
      && plan.provider in next.retained.ctx
      && At(next, e) == if RecordedBy(plan, next.retained.ctx[plan.provider], e) then Cell(plan.provider, now)
                        else At(ix, e)
  {
    var p := plan.provider;
    var request, next := RequestOf(ix, plan), TranscriptOf(ix, plan);
    assert next[..|next| - 1] == request;
    var bound := if plan.client == NoId then ix else ix.(explicit := Put(ix.explicit, plan.client, p, now));
    var asked := if request == [] then bound else NoteTranscript(bound, request, p, now);
    hide RequestOf, NoteTranscript, Leaves, SetFrontier;
    BoundCell(ix, plan.client, p, now, e);
    NoteCell(bound, request, p, now, e);
    NoteCell(asked, next, p, now, e);
    NamedIsLeft(request, next, e);
    assert Remembered(ix, plan, now).retained == Put(asked.retained, p, next, now);
    SameTables(NoteTranscript(asked, next, p, now), Remembered(ix, plan, now), e);
  }

  lemma NamedIsLeft(request: seq<Message>, next: seq<Message>, e: Entry)
    ensures e.Named? ==> !Leaves(request, e) && !Leaves(next, e)
  {
  }

  lemma SameTables(ix: Index, next: Index, e: Entry)
    requires next == ix.(frontier := next.frontier, retained := next.retained)
    ensures At(next, e) == At(ix, e)
  {
  }

  lemma BoundCell(ix: Index, client: Id, p: Id, now: int, e: Entry)
    ensures var bound := if client == NoId then ix else ix.(explicit := Put(ix.explicit, client, p, now));
      At(bound, e) == if e == Named(client) && client != NoId then Cell(p, now) else At(ix, e)
  {
  }

  lemma CappedCell<K>(t: Table<K, Id>, next: Table<K, Id>, cap: nat, k: K)
    requires Capped(t, next, cap)
    ensures CellIn(next, k) == BLANK || CellIn(next, k) == CellIn(t, k)
  {
  }

  lemma ExpiredCell<K>(t: Table<K, Id>, now: int, ttl: int, k: K)
    ensures CellIn(Expire(t, now, ttl), k) == BLANK || CellIn(Expire(t, now, ttl), k) == CellIn(t, k)
  {
  }

  lemma PrunedCell(ix: Index, now: int, next: Index, e: Entry)
    requires PruneStep(ix, now, next)
    ensures At(next, e) == BLANK || At(next, e) == At(ix, e)
  {
    hide CellIn, Capped, Expire, Orphaned;
    var ttl, cap := TRANSCRIPT_CONTEXT_TTL, MAX_TRANSCRIPT_CONTEXT_ENTRIES;
    match e {
      case Whole(k) =>
        ExpiredCell(ix.transcripts, now, ttl, k);
        CappedCell(Expire(ix.transcripts, now, ttl), next.transcripts, cap, k);
      case Part(k) =>
        ExpiredCell(ix.suffixes, now, ttl, k);
        CappedCell(Expire(ix.suffixes, now, ttl), next.suffixes, cap, k);
      case Users(w) =>
        ExpiredCell(ix.windows, now, ttl, w);
        CappedCell(Expire(ix.windows, now, ttl), next.windows, cap, w);
      case Start(k) =>
        ExpiredCell(ix.roots, now, ttl, k);
        CappedCell(Expire(ix.roots, now, ttl), next.roots, cap, k);
      case Named(c) => ExpiredCell(ix.explicit, now, ttl, c);
    }
  }

  lemma ForgottenCell(ix: Index, p: Id, e: Entry)
    requires p != NoId
    ensures At(Forget(ix, p), e) == if At(ix, e).holder == p then BLANK else At(ix, e)
  {
  }

  lemma LookupCells<K>(t: Table<K, Id>, k: K, now: int, j: K)
    ensures CellIn(Drop(t, {k}), j) == if j == k then BLANK else CellIn(t, j)
    ensures k in t.ctx ==> CellIn(Touch(t, k, now), j) == if j == k then Cell(t.ctx[k], now) else CellIn(t, j)
  {
  }

  lemma SyncedCell<K>(t: Table<K, Id>, k: K)
    requires Synced(t)
    ensures CellIn(t, k).holder == Find(t, k)
    ensures k in t.ctx ==> k in t.at && CellIn(t, k) == Cell(t.ctx[k], t.at[k])
  {
  }

  /** What a lookup does to a table, and what a hit says of the entry. */
  ghost predicate LooksInto<K>(t: Table<K, Id>, k: K, now: int, p: Id, next: Table<K, Id>) {
    && (next == t || next == Drop(t, {k}) || (p != NoId && k in t.ctx && t.ctx[k] == p && next == Touch(t, k, now)))
    && (p != NoId ==> k in t.ctx && t.ctx[k] == p && !IsStale(t.at, k, now))
  }

  lemma LookedInto<K>(t: Table<K, Id>, k: K, now: int, p: Id, next: Table<K, Id>, j: K)
    requires Synced(t) && LooksInto(t, k, now, p, next)
    ensures
      || CellIn(next, j) == BLANK || CellIn(next, j) == CellIn(t, j)
      || (j == k && p != NoId && CellIn(next, j) == Cell(p, now) && CellIn(t, j).holder == p)
    ensures p != NoId ==> CellIn(t, k).holder == p && now - CellIn(t, k).used <= TRANSCRIPT_CONTEXT_TTL
  {
    SyncedCell(t, k);
    LookupCells(t, k, now, j);
  }

  lemma ExactLooks(ix: Index, up: Upstream, messages: seq<Message>, now: int)
    ensures var (p, next) := LookupExact(ix, up, messages, now);
      next == ix.(transcripts := next.transcripts)
      && LooksInto(ix.transcripts, Fingerprint(messages), now, p, next.transcripts)
  {
    hide Fingerprint, Drop, Touch, Ready, IsStale;
  }

  lemma AnyLooks(ix: Index, up: Upstream, messages: seq<Message>, now: int)
    ensures var (p, next) := LookupAny(ix, up, messages, now);
      next == ix.(transcripts := next.transcripts)
      && LooksInto(ix.transcripts, Fingerprint(messages), now, p, next.transcripts)
  {
    hide Fingerprint, Drop, Touch, Ready, IsStale;
  }

  lemma SuffixLooks(ix: Index, up: Upstream, messages: seq<Message>, now: int)
    ensures var (p, next) := LookupSuffix(ix, up, messages, now);
      next == ix.(suffixes := next.suffixes)
      && LooksInto(ix.suffixes, Fingerprint(messages), now, p, next.suffixes)
  {
    hide Fingerprint, Drop, Touch, Ready, IsStale;
  }

  lemma WindowLooks(ix: Index, up: Upstream, messages: seq<Message>, now: int)
    ensures var (p, next) := LookupWindow(ix, up, messages, now);
      next == ix.(windows := next.windows)
      && LooksInto(ix.windows, WindowFingerprint(messages, 2, 4), now, p, next.windows)
  {
    hide WindowFingerprint, Drop, Touch, Ready, IsStale;
  }

  lemma RootLooks(ix: Index, up: Upstream, messages: seq<Message>, now: int)
    ensures var (p, next) := LookupRoot(ix, up, messages, now);
      next == ix.(roots := next.roots) && LooksInto(ix.roots, RootFingerprint(messages), now, p, next.roots)
  {
    hide RootFingerprint, Drop, Touch, Ready, IsStale;
  }

  lemma ExplicitLooks(ix: Index, up: Upstream, client: Id, now: int)
    ensures var (p, next) := LookupExplicit(ix, up, client, now);
      next == ix.(explicit := next.explicit) && LooksInto(ix.explicit, client, now, p, next.explicit)
  {
    hide Drop, Touch, Ready, IsStale;
  }

  /** Elsewhere a cell does not change. */
  lemma CellElsewhere(ix: Index, next: Index, e: Entry)
    ensures next.transcripts == ix.transcripts && e.Whole? ==> At(next, e) == At(ix, e)
    ensures next.suffixes == ix.suffixes && e.Part? ==> At(next, e) == At(ix, e)
    ensures next.windows == ix.windows && e.Users? ==> At(next, e) == At(ix, e)
    ensures next.roots == ix.roots && e.Start? ==> At(next, e) == At(ix, e)
    ensures next.explicit == ix.explicit && e.Named? ==> At(next, e) == At(ix, e)
  {
    hide CellIn;
  }

  ghost predicate LookedUp(ix: Index, op: Op, now: int, p: Id, next: Index, e: Entry)
    requires LooksUp(op)
  {
    && (|| At(next, e) == BLANK || At(next, e) == At(ix, e)
        || (e == EntryOf(op) && p != NoId && At(next, e) == Cell(p, now) && At(ix, e).holder == p))
    && (p != NoId ==> At(ix, EntryOf(op)).holder == p
                      && now - At(ix, EntryOf(op)).used <= 12 * 3600 * 1_000_000_000)
  }

  lemma LookedUpWhole(ix: Index, op: Op, now: int, p: Id, next: Index, e: Entry)
    requires LooksUp(op) && EntryOf(op).Whole? && Synced(ix.transcripts)
    requires next == ix.(transcripts := next.transcripts)
    requires LooksInto(ix.transcripts, EntryOf(op).key, now, p, next.transcripts)
    ensures LookedUp(ix, op, now, p, next, e)
  {
    hide CellIn, LooksInto, EntryOf;
    CellElsewhere(ix, next, e);
    LookedInto(ix.transcripts, EntryOf(op).key, now, p, next.transcripts,
               if e.Whole? then e.key else EntryOf(op).key);
  }

  lemma LookedUpPart(ix: Index, op: Op, now: int, p: Id, next: Index, e: Entry)
    requires LooksUp(op) && EntryOf(op).Part? && Synced(ix.suffixes)
    requires next == ix.(suffixes := next.suffixes)
    requires LooksInto(ix.suffixes, EntryOf(op).key, now, p, next.suffixes)
    ensures LookedUp(ix, op, now, p, next, e)
  {
    hide CellIn, LooksInto, EntryOf;
    CellElsewhere(ix, next, e);
    LookedInto(ix.suffixes, EntryOf(op).key, now, p, next.suffixes, if e.Part? then e.key else EntryOf(op).key);
  }

  lemma LookedUpUsers(ix: Index, op: Op, now: int, p: Id, next: Index, e: Entry)
    requires LooksUp(op) && EntryOf(op).Users? && Synced(ix.windows)
    requires next == ix.(windows := next.windows)
    requires LooksInto(ix.windows, EntryOf(op).window, now, p, next.windows)
    ensures LookedUp(ix, op, now, p, next, e)
  {
    hide CellIn, LooksInto, EntryOf;
    CellElsewhere(ix, next, e);
    LookedInto(ix.windows, EntryOf(op).window, now, p, next.windows,
               if e.Users? then e.window else EntryOf(op).window);
  }

  lemma LookedUpStart(ix: Index, op: Op, now: int, p: Id, next: Index, e: Entry)
    requires LooksUp(op) && EntryOf(op).Start? && Synced(ix.roots)
    requires next == ix.(roots := next.roots)
    requires LooksInto(ix.roots, EntryOf(op).root, now, p, next.roots)
    ensures LookedUp(ix, op, now, p, next, e)
  {
    hide CellIn, LooksInto, EntryOf;
    CellElsewhere(ix, next, e);
    LookedInto(ix.roots, EntryOf(op).root, now, p, next.roots, if e.Start? then e.root else EntryOf(op).root);
  }

  lemma LookedUpNamed(ix: Index, op: Op, now: int, p: Id, next: Index, e: Entry)
    requires LooksUp(op) && EntryOf(op).Named? && Synced(ix.explicit)
    requires next == ix.(explicit := next.explicit)
    requires LooksInto(ix.explicit, EntryOf(op).client, now, p, next.explicit)
    ensures LookedUp(ix, op, now, p, next, e)
  {
    hide CellIn, LooksInto, EntryOf;
    CellElsewhere(ix, next, e);
    LookedInto(ix.explicit, EntryOf(op).client, now, p, next.explicit,
               if e.Named? then e.client else EntryOf(op).client);
  }

  lemma LookedUpCell(ix: Index, op: Op, now: int, e: Entry)
    requires LooksUp(op) && Inv(ix)
    ensures LookedUp(ix, op, now, Lookup(ix, op, now).0, Lookup(ix, op, now).1, e)
  {
    hide LookedUp, LooksInto, FrontierAgrees, NoBlanks, Synced, Fingerprint, WindowFingerprint, RootFingerprint;
    hide LookupExact, LookupAny, LookupSuffix, LookupWindow, LookupRoot, LookupExplicit;
    var (p, next) := Lookup(ix, op, now);
    match op {
      case Exact(messages, up) =>
        ExactLooks(ix, up, messages, now);
        LookedUpWhole(ix, op, now, p, next, e);
      case Any(messages, up) =>
        AnyLooks(ix, up, messages, now);
        LookedUpWhole(ix, op, now, p, next, e);
      case Suffix(messages, up) =>
        SuffixLooks(ix, up, messages, now);
        LookedUpPart(ix, op, now, p, next, e);
      case Window(messages, up) =>
        WindowLooks(ix, up, messages, now);
        LookedUpUsers(ix, op, now, p, next, e);
      case Root(messages, up) =>
        RootLooks(ix, up, messages, now);
        LookedUpStart(ix, op, now, p, next, e);
      case Explicit(client, up) =>
        ExplicitLooks(ix, up, client, now);
        LookedUpNamed(ix, op, now, p, next, e);
    }
  }

  // ---- Every run ----

  /** At step j p's transcript was recorded and left the entry; since then nothing else
      was recorded there and p was not forgotten. */
  ghost predicate Latest(ops: seq<Op>, states: seq<Index>, i: nat, e: Entry, p: Id, j: nat)
    requires i <= |ops| < |states|
  {
    && j < i && Records(ops[j], states[j + 1], e) && ops[j].plan.provider == p
    && forall m :: j < m < i ==> !Records(ops[m], states[m + 1], e) && ops[m] != ForgetProvider(p)
  }

  /** The entry was recorded at step u, or a lookup found p there. */
  ghost predicate Used(ops: seq<Op>, times: seq<int>, states: seq<Index>, e: Entry, p: Id, u: nat)
    requires u < |ops| == |times| < |states|
  {
    || (Records(ops[u], states[u + 1], e) && ops[u].plan.provider == p)
    || (LooksUp(ops[u]) && EntryOf(ops[u]) == e && Lookup(states[u], ops[u], times[u]).0 == p)
  }

  lemma StepCell(ix: Index, op: Op, now: int, next: Index, e: Entry)
    requires Inv(ix) && Step(ix, op, now, next) && At(next, e).holder != NoId
    ensures
      || (Records(op, next, e) && At(next, e) == Cell(op.plan.provider, now))
      || (!Records(op, next, e) && At(next, e) == At(ix, e) && op != ForgetProvider(At(ix, e).holder))
      || (LooksUp(op) && EntryOf(op) == e && At(next, e) == Cell(Lookup(ix, op, now).0, now)
          && At(ix, e).holder == At(next, e).holder && !Records(op, next, e))
  {
    hide At, Inv, PruneStep, Remembered, Forget, Lookup, RecordedBy, EntryOf;
    match op {
      case Remember(plan, up) =>
        if Memorable(plan, up) {
          var mid :| PruneStep(ix, now, mid) && next == Remembered(mid, plan, now);
          PrunedCell(ix, now, mid, e);
          RememberedCell(mid, plan, now, e);
        }
      case ForgetProvider(p) =>
        if p == NoId {
          ForgetNone(ix);
        } else {
          ForgottenCell(ix, p, e);
        }
      case Recover => PrunedCell(ix, now, next, e);
      case BridgeRemember(p, signature) => BridgeCell(ix, p, signature, now, e);
      case _ => LookedUpCell(ix, op, now, e);
    }
  }

  lemma ForgetNone(ix: Index)
    ensures Forget(ix, NoId) == ix
  {
  }

  lemma BridgeCell(ix: Index, p: Id, signature: Signature, now: int, e: Entry)
    ensures At(RememberBridge(ix, p, signature, now), e) == At(ix, e)
  {
  }

  /** What an entry names was the last thing recorded there, and it was used when the entry
      says. */
  lemma {:induction false} EntryIsLatest(ops: seq<Op>, times: seq<int>, states: seq<Index>, i: nat, e: Entry)
    returns (j: nat, u: nat)
    requires Run(ops, times, states) && states[0] == EMPTY_INDEX && i < |states| && At(states[i], e).holder != NoId
    ensures Latest(ops, states, i, e, At(states[i], e).holder, j)
    ensures j <= u < i && times[u] == At(states[i], e).used && Used(ops, times, states, e, At(states[i], e).holder, u)
  {
    hide At, Step, Inv, Records, EntryOf, Lookup;
    j, u := 0, 0;
    if i == 0 {
      NothingAtFirst(e);
    } else {
      ReachableInv(ops, times, states, i - 1);
      var ix, op, now, next := states[i - 1], ops[i - 1], times[i - 1], states[i];
      assert Step(ix, op, now, next);
      StepCell(ix, op, now, next, e);
      if Records(op, next, e) {
        j, u := i - 1, i - 1;
      } else {
        j, u := EntryIsLatest(ops, times, states, i - 1, e);
        if At(next, e) != At(ix, e) {
          u := i - 1;
        }
      }
    }
  }

  lemma NothingAtFirst(e: Entry)
    ensures At(EMPTY_INDEX, e) == BLANK
  {
  }

  // ---- The same, of messages ----

  /** The caller's messages stand for t the way this kind of lookup goes by: equal to it,
      to one of its suffixes, in the newest user messages, in the opening. */
  ghost predicate Matches(op: Op, t: seq<Message>)
    requires LooksUp(op)
  {
    match op
    case Exact(messages, _) => AllAlike(messages, t)
    case Any(messages, _) => AllAlike(messages, t)
    case Suffix(messages, _) => |t| >= 4 && exists start :: 1 <= start < |t| - 1 && AllAlike(messages, t[start..])
    case Window(messages, _) => exists n: nat :: 2 <= n <= 4 && SameUsers(messages, t, n)
    case Root(messages, _) => SameOpening(messages, t)
    case Explicit(_, _) => false
  }

  /** The lookup has something to go by. */
  predicate Asks(op: Op)
    requires LooksUp(op)
  {
    match EntryOf(op)
    case Whole(k) => k != NoKey
    case Part(k) => k != NoKey
    case Users(w) => w != NoWindow
    case Start(k) => k != NoKey
    case Named(c) => c != NoId
  }

  lemma LeavesIff(op: Op, t: seq<Message>)
    requires LooksUp(op) && Asks(op)
    ensures Leaves(t, EntryOf(op)) <==> Matches(op, t)
  {
    hide AllAlike, SameUsers, SameOpening, Fingerprint, RootFingerprint, WindowFingerprint, WindowKeys;
    match op {
      case Exact(messages, _) => FingerprintIff(messages, t);
      case Any(messages, _) => FingerprintIff(messages, t);
      case Suffix(messages, _) => SuffixIff(messages, t);
      case Window(messages, _) => WindowIff(messages, t);
      case Root(messages, _) => RootKeyIff(messages, t);
      case Explicit(_, _) =>
    }
  }

  lemma SuffixIff(messages: seq<Message>, t: seq<Message>)
    ensures Fingerprint(messages) in SuffixKeys(t) <==>
      |t| >= 4 && exists start :: 1 <= start < |t| - 1 && AllAlike(messages, t[start..])
  {
    hide AllAlike, Fingerprint;
    var keys := SuffixKeys(t);
    if |t| >= 4 {
      forall start | 1 <= start < |t| - 1
        ensures keys[start - 1] == Fingerprint(messages) <==> AllAlike(messages, t[start..])
      {
        FingerprintIff(messages, t[start..]);
      }
      if Fingerprint(messages) in keys {
        var i :| 0 <= i < |keys| && keys[i] == Fingerprint(messages);
        assert AllAlike(messages, t[i + 1..]);
      }
    }
  }

  /** An answer is recorded when it is not blank and the client has state for its
      conversation. */
  predicate Recordable(plan: ContextPlan, up: Upstream) {
    && plan.provider != NoId && TrimSpace(plan.responseText) != ""
    && (up.NoClient? || plan.provider in up.hasState)
  }

  /** The operation recorded, for its provider, a transcript the lookup goes by: whole or
      without the answer that ends it. */
  ghost predicate Told(told: Op, next: Index, op: Op)
    requires LooksUp(op)
  {
    && told.Remember? && Recordable(told.plan, told.up) && told.plan.provider in next.retained.ctx
    && var t := next.retained.ctx[told.plan.provider];
    || Matches(op, t) || (|t| > 1 && Matches(op, t[..|t| - 1]))
    || (op.Explicit? && told.plan.client == op.client)
  }

  lemma RecordsIff(told: Op, next: Index, op: Op)
    requires LooksUp(op) && Asks(op)
    ensures Records(told, next, EntryOf(op)) <==> Told(told, next, op)
  {
    hide Leaves, Matches, TrimSpace;
    if told.Remember? && told.plan.provider in next.retained.ctx {
      var t := next.retained.ctx[told.plan.provider];
      LeavesIff(op, t);
      if |t| > 1 {
        LeavesIff(op, t[..|t| - 1]);
      }
    }
    assert Asks(op) && op.Explicit? ==> op.client != NoId;
  }

  lemma HitAsks(ix: Index, op: Op, now: int)
    requires LooksUp(op) && Lookup(ix, op, now).0 != NoId
    ensures Asks(op)
    ensures Ready(op.up, Lookup(ix, op, now).0)
  {
    hide Fingerprint, WindowFingerprint, RootFingerprint, Ready;
  }

  /** In every run, whatever is interleaved: what a lookup answers was recorded at step j
      with a transcript that the caller's messages stand for, no one else recorded such
      a transcript since, the provider was not forgotten since, it is ready, and within
      the last twelve hours (step u) the entry was recorded or answered. */
  lemma {:induction false} HitsAreLatest(ops: seq<Op>, times: seq<int>, states: seq<Index>, i: nat, op: Op, now: int)
    returns (j: nat, u: nat)
    requires Run(ops, times, states) && states[0] == EMPTY_INDEX && i < |states| && LooksUp(op)
    requires Lookup(states[i], op, now).0 != NoId
    ensures var p := Lookup(states[i], op, now).0;
      && j <= u < i && Told(ops[j], states[j + 1], op) && ops[j].plan.provider == p
      && (forall m :: j < m < i ==> !Told(ops[m], states[m + 1], op) && ops[m] != ForgetProvider(p))
      && (op.up.NoClient? || (p in op.up.hasState && !(op.up.localFallback && p in op.up.untrusted)))
      && now - times[u] <= 12 * 3600 * 1_000_000_000
      && (u == j || (LooksUp(ops[u]) && Lookup(states[u], ops[u], times[u]).0 == p))
  {
    ReachableInv(ops, times, states, i);
    LookedUpCell(states[i], op, now, EntryOf(op));
    HitAsks(states[i], op, now);
    j, u := EntryIsLatest(ops, times, states, i, EntryOf(op));
    hide Told, Records, Lookup, Inv, EntryOf, At;
    forall m: nat | m < i ensures Records(ops[m], states[m + 1], EntryOf(op)) <==> Told(ops[m], states[m + 1], op) {
      RecordsIff(ops[m], states[m + 1], op);
    }
  }

  /** A hit holds for the next twelve hours: the same question gets the same answer, asked
      of the index the hit leaves. */
  lemma HitsLast(ix: Index, op: Op, now: int, later: int)
    requires LooksUp(op) && Lookup(ix, op, now).0 != NoId && later - now <= 12 * 3600 * 1_000_000_000
    ensures Lookup(Lookup(ix, op, now).1, op, later).0 == Lookup(ix, op, now).0
  {
    hide Fingerprint, WindowFingerprint, RootFingerprint, Ready;
  }

  lemma OpeningInFront(messages: seq<Message>, t: seq<Message>, n: nat)
    requires n <= |t| && SameOpening(messages, t[..n])
    ensures SameOpening(messages, t)
  {
    hide TrimSpace, ToLower, AllAlike;
    var k :| Opening(messages, k) && Opening(t[..n], k) && AllAlike(messages[..k + 1], t[..n][..k + 1]);
    OpensAlready(t, n, k);
  }

  lemma OpensAlready(t: seq<Message>, n: nat, k: nat)
    requires n <= |t| && Opening(t[..n], k)
    ensures Opening(t, k) && t[..k + 1] == t[..n][..k + 1]
  {
    hide TrimSpace, ToLower;
    assert forall i :: 0 <= i < n ==> t[..n][i] == t[i];
  }

  lemma RootTold(told: Op, next: Index, messages: seq<Message>, up: Upstream)
    requires Told(told, next, Op.Root(messages, up))
    ensures told.Remember? && told.plan.provider in next.retained.ctx
    ensures SameOpening(messages, next.retained.ctx[told.plan.provider])
  {
    hide SameOpening, Memorable;
    var t := next.retained.ctx[told.plan.provider];
    if |t| > 1 && SameOpening(messages, t[..|t| - 1]) {
      OpeningInFront(messages, t, |t| - 1);
    }
  }

  /** p's newest transcript is at most n messages long. */
  ghost predicate NoLonger(ix: Index, p: Id, n: nat) {
    p in ix.frontier.latest ==>
      && ix.frontier.latest[p].Key? && |ix.frontier.latest[p].messages| <= n
      && (p in ix.retained.ctx ==> |ix.retained.ctx[p]| <= n)
  }

  lemma RootHitLength(ix: Index, up: Upstream, messages: seq<Message>, now: int)
    requires Inv(ix) && LookupRoot(ix, up, messages, now).0 != NoId
    ensures NoLonger(ix, LookupRoot(ix, up, messages, now).0, |messages|)
  {
    hide LookupRoot;
    RootHit(ix, up, messages, now);
  }

  /** A root hit on p means that a transcript recorded for p opens like the caller's messages,
      system messages and first user message alike, and that the caller's messages are at
      least as long as p's newest transcript. */
  lemma RootHitOpens(ops: seq<Op>, times: seq<int>, states: seq<Index>, i: nat, messages: seq<Message>, up: Upstream,
                     now: int) returns (j: nat)
    requires Run(ops, times, states) && states[0] == EMPTY_INDEX && i < |states|
    requires LookupRoot(states[i], up, messages, now).0 != NoId
    ensures var p := LookupRoot(states[i], up, messages, now).0;
      && j < i && ops[j].Remember? && ops[j].plan.provider == p && p in states[j + 1].retained.ctx
      && SameOpening(messages, states[j + 1].retained.ctx[p]) && NoLonger(states[i], p, |messages|)
  {
    hide LookupRoot, Run, SameOpening, NoLonger, Inv, Told, Lookup;
    RunLength(ops, times, states);
    RootIsLookup(states[i], messages, up, now);
    ReachableInv(ops, times, states, i);
    RootHitLength(states[i], up, messages, now);
    var u: nat;
    j, u := HitsAreLatest(ops, times, states, i, Op.Root(messages, up), now);
    RootTold(ops[j], states[j + 1], messages, up);
  }

  lemma RunLength(ops: seq<Op>, times: seq<int>, states: seq<Index>)
    requires Run(ops, times, states)
    ensures |times| == |ops| && |states| == |ops| + 1
  {
    hide Step;
  }

  lemma RootIsLookup(ix: Index, messages: seq<Message>, up: Upstream, now: int)
    ensures Lookup(ix, Op.Root(messages, up), now) == LookupRoot(ix, up, messages, now)
  {
    hide LookupRoot;
  }
}
