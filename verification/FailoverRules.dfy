/** Which failure is retried, where, and what the client then sees, said of the script of
    a request alone (gemini_service.go, gemini_client_pool.go, openai_service.go). */
module FailoverRules {
  import opened Text
  import opened Messages
  import opened StreamFailover

  // ---- One body ----

  /** Of the deltas from the n-th on, the k-th is the first the client turns down. */
  ghost predicate TurnsDown(sink: nat -> bool, n: nat, k: nat) {
    n <= k && !sink(k) && forall j: nat :: n <= j < k ==> sink(j)
  }

  lemma {:induction false} SentIs(sink: nat -> bool, n: nat, outs: seq<Out>, k: nat)
    requires TurnsDown(sink, n, k) && k < n + |outs|
    ensures Sent(sink, n, outs) == outs[..k - n + 1] && Refused(sink, n, outs)
    decreases |outs|
  {
    if sink(n) {
      SentIs(sink, n + 1, outs[1..], k);
      assert outs[..k - n + 1] == [outs[0]] + outs[1..][..k - n];
    } else {
      assert k == n;
    }
  }

  lemma {:induction false} AllSent(sink: nat -> bool, n: nat, outs: seq<Out>)
    requires forall j: nat :: n <= j < n + |outs| ==> sink(j)
    ensures Sent(sink, n, outs) == outs && !Refused(sink, n, outs)
    decreases |outs|
  {
    if outs != [] {
      AllSent(sink, n + 1, outs[1..]);
    }
  }

  /** Block i names another conversation, and nothing was shown before it. */
  ghost predicate Strays(visits: seq<Visit>, i: nat) {
    i < |visits| && visits[i].mismatch && forall j :: 0 <= j < i ==> visits[j].delta == ""
  }

  lemma {:induction false} EndIs(visits: seq<Visit>, end: Option<Failure>)
    ensures if exists i: nat :: Strays(visits, i) then EndOf(visits, false, end) == Some(Failure(false, true))
            else EndOf(visits, false, end) == end
  {
    if visits == [] {
    } else if visits[0].mismatch {
      assert Strays(visits, 0);
    } else if visits[0].delta != "" {
      ShownEnd(visits[1..], end);
    } else {
      EndIs(visits[1..], end);
      forall i: nat ensures Strays(visits[1..], i) ==> Strays(visits, i + 1) {
      }
      forall i: nat | Strays(visits, i) ensures i > 0 && Strays(visits[1..], i - 1) {
        assert forall j :: 0 <= j < i - 1 ==> visits[1..][j] == visits[j + 1];
      }
    }
  }

  lemma {:induction false} ShownEnd(visits: seq<Visit>, end: Option<Failure>)
    ensures EndOf(visits, true, end) == end
  {
    if visits != [] {
      ShownEnd(visits[1..], end);
    }
  }

  /** What a body comes to: all it shows, or what it shows up to the first delta that is
      turned down; it ends in a rejection when it strays, as the network says otherwise,
      and well when the client stopped it. */
  ghost predicate Shows(sink: nat -> bool, visits: seq<Visit>, end: Option<Failure>, r: Result) {
    var all := Outs(visits, [], false);
    if exists k: nat :: k < |all| && TurnsDown(sink, 0, k) then
      r.err == None && exists k: nat :: k < |all| && TurnsDown(sink, 0, k) && r.outs == all[..k + 1]
    else
      r.outs == all && r.err == if exists i: nat :: Strays(visits, i) then Some(Failure(false, true)) else end
  }

  lemma BodyComesTo(sink: nat -> bool, n: nat, visits: seq<Visit>, end: Option<Failure>)
    ensures var r := BodyResult(sink, n, visits, end); r.dispatches == n && Shows(sink, visits, end, r)
  {
    hide Outs, EndOf, Strays;
    var all := Outs(visits, [], false);
    EndIs(visits, end);
    if k: nat :| k < |all| && TurnsDown(sink, 0, k) {
      SentIs(sink, 0, all, k);
    } else {
      NoneDown(sink, |all|);
      AllSent(sink, 0, all);
    }
  }

  lemma {:induction false} NoneDown(sink: nat -> bool, n: nat)
    requires forall k: nat :: k < n ==> !TurnsDown(sink, 0, k)
    ensures forall j: nat :: j < n ==> sink(j)
  {
    if n > 0 {
      NoneDown(sink, n - 1);
      assert !TurnsDown(sink, 0, n - 1);
    }
  }

  // ---- One account ----

  /** What one attempt comes to. */
  ghost predicate ComesTo(sink: nat -> bool, attempt: Attempt, left: Left, r: Result) {
    match attempt
    case Unbuilt(failure) => r == Result(0, [], Some(failure))
    case Dispatched(reply) =>
      if left.Some? && left.value <= 0 then r == Result(0, [], Some(Failure(false, false)))
      else
        r.dispatches == 1 &&
        match reply
        case Unsent(_, failure) => r.outs == [] && r.err == Some(failure)
        case BadStatus(failure) => r.outs == [] && r.err == Some(failure)
        case Body(visits, end) => Shows(sink, visits, end, r)
  }

  /** The request of an attempt was not written: it could not be built, or it was paid for
      and failed before. */
  predicate NotWritten(attempt: Attempt, left: Left) {
    match attempt
    case Unbuilt(_) => true
    case Dispatched(reply) => (left.Some? ==> left.value > 0) && reply.Unsent? && !reply.written
  }

  /** The budget after n dispatches. */
  function After(left: Left, n: nat): Left {
    match left
    case None => None
    case Some(value) => Some(value - n)
  }

  lemma AttemptComesTo(sink: nat -> bool, n: nat, attempt: Attempt, left: Left)
    ensures var r := AttemptResult(sink, n, attempt, left);
      r.dispatches >= n && ComesTo(sink, attempt, left, r.(dispatches := r.dispatches - n))
  {
    hide BodyResult, Shows;
    if attempt.Dispatched? && attempt.reply.Body? {
      BodyComesTo(sink, n + 1, attempt.reply.visits, attempt.reply.end);
      ShowsAnyway(sink, attempt.reply.visits, attempt.reply.end, n);
    }
  }

  lemma ShowsAnyway(sink: nat -> bool, visits: seq<Visit>, end: Option<Failure>, n: nat)
    ensures var r := BodyResult(sink, n + 1, visits, end);
      Shows(sink, visits, end, r) ==> Shows(sink, visits, end, r.(dispatches := r.dispatches - n))
  {
    hide Outs, Strays, TurnsDown;
  }

  /** What one account makes of the request. Only a request that was not written is tried
      again, once, if the settings allow two attempts; written ones, and those that got a
      status or a body, never are. */
  ghost predicate Serves(sink: nat -> bool, account: Account, left: Left, r: Result) {
    if account.unready.Some? then r == Result(0, [], account.unready)
    else if account.maxRetries < 2 || !NotWritten(account.first, left) then ComesTo(sink, account.first, left, r)
    else
      var n := if account.first.Unbuilt? then 0 else 1;
      if account.cancelled.Some? then r == Result(n, [], account.cancelled)
      else r.dispatches >= n && ComesTo(sink, account.second, After(left, n), r.(dispatches := r.dispatches - n))
  }

  lemma AccountServes(sink: nat -> bool, account: Account, left: Left)
    ensures Serves(sink, account, left, ClientResult(sink, account, left))
  {
    hide AttemptResult, ComesTo;
    if account.unready.None? {
      AttemptComesTo(sink, 0, account.first, left);
      var first := AttemptResult(sink, 0, account.first, left);
      assert first.(dispatches := first.dispatches - 0) == first;
      if NotWritten(account.first, left) {
        FirstDispatches(sink, account.first, left);
      }
      AttemptComesTo(sink, first.dispatches, account.second, Pay(left, first.dispatches));
      assert Pay(left, first.dispatches) == After(left, first.dispatches);
    }
  }

  lemma FirstDispatches(sink: nat -> bool, attempt: Attempt, left: Left)
    requires NotWritten(attempt, left)
    ensures AttemptResult(sink, 0, attempt, left).dispatches == if attempt.Unbuilt? then 0 else 1
  {
  }

  // ---- The pool and the service ----

  /** Both tries cost; the second is what the client gets. */
  function Both(first: Result, second: Result): Result {
    Result(first.dispatches + second.dispatches, second.outs, second.err)
  }

  /** The backup account is asked after a sign-in failure that showed nothing, in a request
      that goes on, and never where the conversation has state. */
  ghost predicate PoolServes(sink: nat -> bool, pool: Pool, left: Left, r: Result) {
    if pool.chosen.None? then r == Result(0, [], Some(pool.unavailable))
    else exists first :: Serves(sink, pool.chosen.value, left, first) && PoolGoesOn(sink, pool, left, first, r)
  }

  ghost predicate PoolGoesOn(sink: nat -> bool, pool: Pool, left: Left, first: Result, r: Result) {
    if first.err.Some? && first.err.value.auth && first.outs == [] && !pool.hadState && !pool.cancelled
      && pool.backup.Some? then
      exists second :: Serves(sink, pool.backup.value, After(left, first.dispatches), second)
        && r == Both(first, second)
    else r == first
  }

  /** Success without anything shown is a failure. */
  function Shown(r: Result): Result {
    if r.err == None && r.outs == [] then Result(r.dispatches, [], Some(Failure(false, false))) else r
  }

  /** A new conversation is tried when the old one was rejected before anything was shown,
      and there is something to send to it. */
  ghost predicate RequestServes(sink: nat -> bool, pool: Pool, fallback: Option<Pool>, left: Left, r: Result) {
    exists first :: PoolServes(sink, pool, left, first) && RequestGoesOn(sink, fallback, left, first, r)
  }

  ghost predicate RequestGoesOn(sink: nat -> bool, fallback: Option<Pool>, left: Left, first: Result, r: Result) {
    if first.err.Some? && first.err.value.rejected && first.outs == [] && fallback.Some? then
      exists second :: PoolServes(sink, fallback.value, After(left, first.dispatches), second)
        && r == Both(first, Shown(second))
    else r == Shown(first)
  }

  lemma PoolResultServes(sink: nat -> bool, pool: Pool, left: Left)
    ensures PoolServes(sink, pool, left, PoolResult(sink, pool, left))
  {
    hide ClientResult, Serves;
    if pool.chosen.Some? {
      var first := ClientResult(sink, pool.chosen.value, left);
      AccountServes(sink, pool.chosen.value, left);
      if pool.backup.Some? {
        assert Pay(left, first.dispatches) == After(left, first.dispatches);
        AccountServes(sink, pool.backup.value, Pay(left, first.dispatches));
      }
    }
  }

  /** Every request comes out by these rules, whatever fails. */
  lemma RequestRule(sink: nat -> bool, pool: Pool, fallback: Option<Pool>, left: Left)
    ensures RequestServes(sink, pool, fallback, left, ServiceResult(sink, pool, fallback, left))
  {
    hide PoolResult, PoolServes;
    var first := PoolResult(sink, pool, left);
    PoolResultServes(sink, pool, left);
    if fallback.Some? {
      assert Pay(left, first.dispatches) == After(left, first.dispatches);
      PoolResultServes(sink, fallback.value, Pay(left, first.dispatches));
    }
  }

  /** A request that was written, or got any answer, is not sent again by its account, no
      matter how the account is set up for a second attempt. */
  lemma WrittenIsFinal(sink: nat -> bool, account: Account, left: Left, retries: int, second: Attempt,
                       cancelled: Option<Failure>)
    requires account.first.Dispatched? && (account.first.reply.Unsent? ==> account.first.reply.written)
    ensures var r := ClientResult(sink, account, left);
      && r.dispatches <= 1
      && r == ClientResult(sink, account.(maxRetries := retries, second := second, cancelled := cancelled), left)
  {
    hide BodyResult, Outs;
    if account.first.reply.Body? {
      BodyComesTo(sink, 1, account.first.reply.visits, account.first.reply.end);
    }
  }

  /** One that was not written is sent again: the client sees all of the second attempt's
      body when it takes every delta. */
  lemma UnwrittenIsRepeated(sink: nat -> bool, account: Account, left: Left)
    requires account.unready.None? && account.cancelled.None? && account.maxRetries >= 2
    requires account.first.Unbuilt? || (account.first.reply.Unsent? && !account.first.reply.written)
    requires account.second.Dispatched? && account.second.reply.Body? && (left.Some? ==> left.value >= 2)
    requires forall k: nat :: sink(k)
    ensures var (r, visits) := (ClientResult(sink, account, left), account.second.reply.visits);
      && r.outs == Outs(visits, [], false) && r.dispatches == (if account.first.Unbuilt? then 1 else 2)
      && ((forall i :: 0 <= i < |visits| ==> !visits[i].mismatch) ==> r.err == account.second.reply.end)
  {
    hide Outs, Serves;
    AccountServes(sink, account, left);
    UnwrittenServed(sink, account, left, ClientResult(sink, account, left));
  }

  lemma UnwrittenServed(sink: nat -> bool, account: Account, left: Left, r: Result)
    requires account.unready.None? && account.cancelled.None? && account.maxRetries >= 2
    requires account.first.Unbuilt? || (account.first.reply.Unsent? && !account.first.reply.written)
    requires account.second.Dispatched? && account.second.reply.Body? && (left.Some? ==> left.value >= 2)
    requires (forall k: nat :: sink(k)) && Serves(sink, account, left, r)
    ensures var visits := account.second.reply.visits;
      && r.outs == Outs(visits, [], false) && r.dispatches == (if account.first.Unbuilt? then 1 else 2)
      && ((forall i :: 0 <= i < |visits| ==> !visits[i].mismatch) ==> r.err == account.second.reply.end)
  {
    hide Outs;
  }

  // ---- Thinking is shown too ----

  /** What is left out of a thinking text is its longest earlier proper beginning. */
  lemma {:induction false} BestPrefixIs(previous: seq<string>, text: string)
    requires text != ""
    ensures var best := BestPrefix(previous, text);
      && (best == "" || best in previous) && best < text
      && forall i :: 0 <= i < |previous| && previous[i] < text ==> |previous[i]| <= |best|
  {
    if previous != [] {
      var n := |previous| - 1;
      BestPrefixIs(previous[..n], text);
      assert previous == previous[..n] + [previous[n]];
      if previous[n] < text && |previous[n]| > |BestPrefix(previous[..n], text)| {
        assert BestPrefix(previous, text) == previous[n];
      }
    }
  }

  /** The thinking texts of a body up to its first content. */
  function Early(visits: seq<Visit>): seq<string> {
    if visits == [] || visits[0].mismatch then []
    else visits[0].thinking + (if visits[0].delta != "" then [] else Early(visits[1..]))
  }

  function ThoughtOf(outs: seq<Out>): string {
    if outs == [] then "" else (if outs[0].kind.ThinkingText? then outs[0].delta else "") + ThoughtOf(outs[1..])
  }

  lemma {:induction false} ThoughtAppend(a: seq<Out>, b: seq<Out>)
    ensures ThoughtOf(a + b) == ThoughtOf(a) + ThoughtOf(b)
  {
    if a == [] {
      assert a + b == b;
    } else {
      assert (a + b)[1..] == a[1..] + b;
      ThoughtAppend(a[1..], b);
    }
  }

  lemma {:induction false} OnlyContent(outs: seq<Out>)
    requires OnlyKind(outs, ContentDelta)
    ensures ThoughtOf(outs) == ""
  {
    if outs != [] {
      OnlyContent(outs[1..]);
    }
  }

  lemma {:induction false} OnlyThoughts(outs: seq<Out>)
    requires OnlyKind(outs, ThinkingText)
    ensures ThoughtOf(outs) == DeltasOf(outs)
  {
    if outs != [] {
      OnlyThoughts(outs[1..]);
    }
  }

  lemma {:induction false} ThinkingSplit(seen: seq<string>, a: seq<string>, b: seq<string>)
    ensures ThinkingOuts(seen, a + b) == ThinkingOuts(seen, a) + ThinkingOuts(Seen(seen, a), b)
    decreases |a|
  {
    hide TrimSpace, Beyond;
    if a == [] {
      assert a + b == b;
    } else {
      assert (a + b)[1..] == a[1..] + b;
      var t := NewThought(seen, a[0]);
      ThinkingSplit(if t.Some? then seen + [t.value] else seen, a[1..], b);
    }
  }

  lemma {:induction false} BodyThoughts(visits: seq<Visit>, seen: seq<string>)
    ensures ThoughtOf(Outs(visits, seen, false)) == DeltasOf(ThinkingOuts(seen, Early(visits)))
    decreases |visits|
  {
    hide ThinkingOuts, Seen;
    if visits == [] || visits[0].mismatch {
      ThinkingShape(seen, []);
      NoThoughts(seen);
    } else {
      var v := visits[0];
      var later := Outs(visits[1..], Seen(seen, v.thinking), v.delta != "");
      ThinkingShape(seen, v.thinking);
      OnlyThoughts(ThinkingOuts(seen, v.thinking));
      ContentShape(v.delta);
      OnlyContent(ContentOut(v.delta));
      ThoughtAppend(ContentOut(v.delta), later);
      ThoughtAppend(ThinkingOuts(seen, v.thinking), ContentOut(v.delta) + later);
      if v.delta != "" {
        BodyShape(visits[1..], Seen(seen, v.thinking), true);
        OnlyContent(later);
        assert v.thinking + [] == v.thinking;
      } else {
        BodyThoughts(visits[1..], Seen(seen, v.thinking));
        ThinkingSplit(seen, v.thinking, Early(visits[1..]));
        DeltasAppend(ThinkingOuts(seen, v.thinking), ThinkingOuts(Seen(seen, v.thinking), Early(visits[1..])));
      }
    }
  }

  lemma {:induction false} NoThoughts(seen: seq<string>)
    ensures ThinkingOuts(seen, []) == []
  {
  }

  lemma {:induction false} DeltasAppend(a: seq<Out>, b: seq<Out>)
    ensures DeltasOf(a + b) == DeltasOf(a) + DeltasOf(b)
  {
    if a == [] {
      assert a + b == b;
    } else {
      assert (a + b)[1..] == a[1..] + b;
      DeltasAppend(a[1..], b);
    }
  }

  /** Growing snapshots of the thinking, up to the first content, are shown in full. */
  lemma {:induction false} BodyKeepsThinking(visits: seq<Visit>)
    requires Growing(Early(visits))
    requires forall i :: 0 <= i < |Early(visits)| ==> TrimSpace(Early(visits)[i]) == Early(visits)[i] != ""
    ensures ThoughtOf(Outs(visits, [], false)) == Last(Early(visits))
  {
    hide Early, ThinkingOuts, Outs, TrimSpace, Growing;
    BodyThoughts(visits, []);
    assert [] + Early(visits) == Early(visits);
    ThinkingAddsUp([], Early(visits));
    assert Last([]) == "";
  }
}
