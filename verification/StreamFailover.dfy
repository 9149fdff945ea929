/** Retry, failover and migration of one streamed request without the tool bridge:
    the client's attempts, the pool's backup account, the service's move to a new
    conversation, and the budget they share (gemini_service.go, gemini_client_pool.go,
    openai_service.go, retry_budget.go). What the network does is a script. */
module StreamFailover {
  import opened Text
  import opened Messages

  // ---- The retry budget ----

  const DEFAULT_ATTEMPTS: int := 4

  /** The conversion to a 32-bit integer. */
  function ToInt32(n: int): int {
    (n + 0x8000_0000) % 0x1_0000_0000 - 0x8000_0000
  }

  function StartBudget(attempts: int): int {
    ToInt32(if attempts <= 0 then DEFAULT_ATTEMPTS else attempts)
  }

  function AtLeastZero(n: int): nat {
    if n < 0 then 0 else n
  }

  class RetryBudget {
    var remaining: int

    /** ContextWithRetryBudget. */
    constructor (attempts: int)
      ensures remaining == StartBudget(attempts)
      ensures attempts < 0x8000_0000 ==> remaining == if attempts <= 0 then 4 else attempts
    {
      remaining := ToInt32(if attempts <= 0 then DEFAULT_ATTEMPTS else attempts);
    }

    method Consume() returns (ok: bool)
      modifies this
      ensures ok <==> old(remaining) > 0
      ensures remaining == if ok then old(remaining) - 1 else old(remaining)
    {
      ok := remaining > 0;
      if ok {
        remaining := remaining - 1;
      }
    }
  }

  /** The compare-and-swap loop of several callers on one counter. */
  datatype Counter = Counter(remaining: int, loaded: map<nat, int>, granted: nat, denied: nat)

  datatype Move = Load(caller: nat) | Swap(caller: nat)

  ghost predicate Moves(c: Counter, m: Move, next: Counter) {
    match m
    case Load(t) => t !in c.loaded && next == c.(loaded := c.loaded[t := c.remaining])
    case Swap(t) =>
      && t in c.loaded
      && var current, done := c.loaded[t], c.loaded - {t};
      if current <= 0 then next == c.(loaded := done, denied := c.denied + 1)
      else if c.remaining == current then next == Counter(current - 1, done, c.granted + 1, c.denied)
      else next == c.(loaded := done)
  }

  ghost predicate CounterRun(moves: seq<Move>, states: seq<Counter>, start: int) {
    && |states| == |moves| + 1 && states[0] == Counter(start, map[], 0, 0)
    && forall i :: 0 <= i < |moves| ==> Moves(states[i], moves[i], states[i + 1])
  }

  ghost predicate CounterInv(c: Counter, start: int) {
    && c.granted + c.remaining == start
    && (c.granted > 0 ==> c.remaining >= 0)
    && (forall t :: t in c.loaded ==> c.loaded[t] >= c.remaining)
    && ((c.denied > 0 || exists t :: t in c.loaded && c.loaded[t] <= 0) ==> c.granted == AtLeastZero(start))
  }

  /** Whatever the interleaving, no more calls are let through than the budget has, and
      none is turned away while some of it is left. */
  lemma {:induction false} BudgetHolds(moves: seq<Move>, states: seq<Counter>, start: int, i: nat)
    requires CounterRun(moves, states, start) && i < |states|
    ensures CounterInv(states[i], start)
    ensures states[i].granted <= AtLeastZero(start)
    ensures states[i].denied > 0 ==> states[i].granted == AtLeastZero(start)
  {
    if i == 0 {
    } else {
      BudgetHolds(moves, states, start, i - 1);
      assert Moves(states[i - 1], moves[i - 1], states[i]);
    }
  }

  // ---- Thinking deltas ----

  /** The longest earlier text that properly begins this one. */
  function BestPrefix(previous: seq<string>, text: string): string {
    if previous == [] then ""
    else
      var n := |previous| - 1;
      var best := BestPrefix(previous[..n], text);
      if |previous[n]| > |best| && |previous[n]| < |text| && HasPrefix(text, previous[n]) then previous[n] else best
  }

  lemma {:induction false} PrefixIsShorter(previous: seq<string>, text: string)
    ensures text != "" ==> |BestPrefix(previous, text)| < |text|
    ensures BestPrefix(previous, text) <= text
  {
    if previous == [] {
    } else {
      PrefixIsShorter(previous[..|previous| - 1], text);
    }
  }

  class StreamState {
    var thinkingTexts: seq<string>
    var hasContent: bool

    constructor ()
      ensures thinkingTexts == [] && !hasContent
    {
      thinkingTexts, hasContent := [], false;
    }

    method NextThinkingDelta(raw: string) returns (delta: string)
      modifies this`thinkingTexts
      ensures var text := TrimSpace(raw);
        if text == "" || text in old(thinkingTexts) then delta == "" && thinkingTexts == old(thinkingTexts)
        else
          delta != "" && text == BestPrefix(old(thinkingTexts), text) + delta
          && thinkingTexts == old(thinkingTexts) + [text]
    {
      var text := TrimSpace(raw);
      if text == "" || text in thinkingTexts {
        return "";
      }
      var best := "";
      for i := 0 to |thinkingTexts|
        invariant best == BestPrefix(thinkingTexts[..i], text) && HasPrefix(text, best) && |best| < |text|
      {
        assert thinkingTexts[..i + 1][..i] == thinkingTexts[..i];
        var previous := thinkingTexts[i];
        if |previous| > |best| && |previous| < |text| && HasPrefix(text, previous) {
          best := previous;
        }
      }
      assert thinkingTexts[..|thinkingTexts|] == thinkingTexts;
      thinkingTexts := thinkingTexts + [text];
      delta := text[|best|..];
    }
  }

  /** Cumulative snapshots: each extends the one before. */
  ghost predicate Growing(texts: seq<string>) {
    forall i, j :: 0 <= i < j < |texts| ==> |texts[i]| < |texts[j]| && texts[i] <= texts[j]
  }

  lemma {:induction false} BestIsLatest(texts: seq<string>, text: string)
    requires Growing(texts + [text]) && texts != []
    ensures BestPrefix(texts, text) == texts[|texts| - 1]
  {
    var n, all := |texts| - 1, texts + [text];
    assert all[n] == texts[n] && all[n + 1] == text;
    if n == 0 {
    } else {
      var shorter := texts[..n] + [text];
      assert forall i :: 0 <= i < n ==> shorter[i] == all[i];
      BestIsLatest(texts[..n], text);
      assert all[n - 1] == texts[n - 1];
    }
  }

  // ---- The script ----

  /** An error by the two classes its message may fall in: expired sign-in, and a
      rejected conversation. */
  datatype Failure = Failure(auth: bool, rejected: bool)

  const BUDGET_EXHAUSTED: Failure := Failure(false, false)
  const EMPTY_STREAM: Failure := Failure(false, false)
  const MISMATCH: Failure := Failure(false, true)

  /** What one parsed block shows: whether it names another conversation, the thinking
      texts, the new content. */
  datatype Visit = Visit(mismatch: bool, thinking: seq<string>, delta: string)

  datatype Reply =
    | Unsent(written: bool, failure: Failure)
    | BadStatus(failure: Failure)
    | Body(visits: seq<Visit>, end: Option<Failure>)

  datatype Attempt = Unbuilt(failure: Failure) | Dispatched(reply: Reply)

  /** One account for one request; cancelled is set when the request is cancelled in
      the pause before the second attempt. */
  datatype Account = Account(unready: Option<Failure>, maxRetries: int, first: Attempt, second: Attempt,
                             cancelled: Option<Failure>)

  /** What the pool finds: an account or none, whether the conversation had state there,
      whether the request was cancelled, and a different healthy account or none. */
  datatype Pool = Pool(chosen: Option<Account>, unavailable: Failure, hadState: bool, cancelled: bool,
                       backup: Option<Account>)

  // ---- What one response shows ----

  lemma {:induction false} BeyondIs(seen: seq<string>, text: string, delta: string)
    requires text != "" && text == BestPrefix(seen, text) + delta
    ensures delta == Beyond(seen, text)
  {
  }

  datatype Kind = ThinkingText | ContentDelta

  datatype Out = Out(kind: Kind, delta: string)

  /** A thinking text is new when it is not blank and was not seen before. */
  function NewThought(seen: seq<string>, raw: string): Option<string> {
    if TrimSpace(raw) == "" || TrimSpace(raw) in seen then None else Some(TrimSpace(raw))
  }

  function Seen(seen: seq<string>, texts: seq<string>): seq<string>
    decreases |texts|
  {
    if texts == [] then seen
    else
      var t := NewThought(seen, texts[0]);
      Seen(if t.Some? then seen + [t.value] else seen, texts[1..])
  }

  function ThinkingOuts(seen: seq<string>, texts: seq<string>): seq<Out>
    decreases |texts|
  {
    if texts == [] then []
    else
      var t := NewThought(seen, texts[0]);
      if t.None? then ThinkingOuts(seen, texts[1..])
      else [Out(ThinkingText, Beyond(seen, t.value))] + ThinkingOuts(seen + [t.value], texts[1..])
  }

  /** The text without its longest earlier beginning. */
  function Beyond(seen: seq<string>, text: string): (delta: string)
    ensures text != "" ==> delta != ""
  {
    PrefixIsShorter(seen, text);
    if text == "" then "" else text[|BestPrefix(seen, text)|..]
  }

  /** What a whole body shows: thinking until the first content, then content; nothing
      after a block that names another conversation before any content. */
  function Outs(visits: seq<Visit>, seen: seq<string>, hasContent: bool): seq<Out> {
    if visits == [] || (visits[0].mismatch && !hasContent) then []
    else
      var v := visits[0];
      (if hasContent then [] else ThinkingOuts(seen, v.thinking))
      + ((if v.delta == "" then [] else [Out(ContentDelta, v.delta)])
         + Outs(visits[1..], if hasContent then seen else Seen(seen, v.thinking), hasContent || v.delta != ""))
  }

  function EndOf(visits: seq<Visit>, hasContent: bool, end: Option<Failure>): Option<Failure> {
    if visits == [] then end
    else if visits[0].mismatch && !hasContent then Some(MISMATCH)
    else EndOf(visits[1..], hasContent || visits[0].delta != "", end)
  }

  /** How much of it is handed over when the client answers the n-th delta by sink. */
  function Sent(sink: nat -> bool, n: nat, outs: seq<Out>): seq<Out>
    decreases |outs|
  {
    if outs == [] then []
    else if !sink(n) then [outs[0]]
    else [outs[0]] + Sent(sink, n + 1, outs[1..])
  }

  predicate Refused(sink: nat -> bool, n: nat, outs: seq<Out>)
    decreases |outs|
  {
    outs != [] && (!sink(n) || Refused(sink, n + 1, outs[1..]))
  }

  /** Of all there is to hand over, done has been, and rest is left. */
  ghost predicate Progress(sink: nat -> bool, all: seq<Out>, done: seq<Out>, rest: seq<Out>) {
    && Sent(sink, 0, all) == done + Sent(sink, |done|, rest)
    && (Refused(sink, 0, all) <==> Refused(sink, |done|, rest))
  }

  lemma Starting(sink: nat -> bool, all: seq<Out>)
    ensures Progress(sink, all, [], all)
  {
  }

  lemma {:induction false} Taken(sink: nat -> bool, all: seq<Out>, done: seq<Out>, o: Out, rest: seq<Out>)
    requires Progress(sink, all, done, [o] + rest)
    ensures if sink(|done|) then Progress(sink, all, done + [o], rest)
            else Sent(sink, 0, all) == done + [o] && Refused(sink, 0, all)
  {
    assert ([o] + rest)[1..] == rest;
    Assoc(done, [o], Sent(sink, |done| + 1, rest));
  }

  lemma {:induction false} Finished(sink: nat -> bool, all: seq<Out>, done: seq<Out>)
    requires Progress(sink, all, done, [])
    ensures Sent(sink, 0, all) == done && !Refused(sink, 0, all)
  {
    assert done + [] == done;
  }

  // ---- Attempts, accounts, conversations ----

  /** What a call made of its request: dispatches, what the client was handed, how it
      ended. */
  datatype Result = Result(dispatches: nat, outs: seq<Out>, err: Option<Failure>)

  /** The budget left, if there is one. */
  type Left = Option<int>

  predicate CanPay(left: Left) {
    left.None? || left.value > 0
  }

  function Pay(left: Left, n: nat): Left {
    if left.None? then None else Some(left.value - n)
  }

  function BodyResult(sink: nat -> bool, k: nat, visits: seq<Visit>, end: Option<Failure>): Result {
    var outs := Outs(visits, [], false);
    Result(k, Sent(sink, 0, outs), if Refused(sink, 0, outs) then None else EndOf(visits, false, end))
  }

  predicate Retryable(attempt: Attempt) {
    attempt.Unbuilt? || (attempt.reply.Unsent? && !attempt.reply.written)
  }

  /** One attempt, made as dispatch number k + 1 if it gets that far. */
  function AttemptResult(sink: nat -> bool, k: nat, attempt: Attempt, left: Left): Result {
    match attempt
    case Unbuilt(failure) => Result(k, [], Some(failure))
    case Dispatched(reply) =>
      if !CanPay(left) then Result(k, [], Some(BUDGET_EXHAUSTED))
      else match reply
        case Unsent(_, failure) => Result(k + 1, [], Some(failure))
        case BadStatus(failure) => Result(k + 1, [], Some(failure))
        case Body(visits, end) => BodyResult(sink, k + 1, visits, end)
  }

  function ClientResult(sink: nat -> bool, account: Account, left: Left): Result {
    if account.unready.Some? then Result(0, [], account.unready)
    else
      var first := AttemptResult(sink, 0, account.first, left);
      if account.maxRetries < 2 || !Retryable(account.first) || (account.first.Dispatched? && !CanPay(left)) then first
      else if account.cancelled.Some? then Result(first.dispatches, [], account.cancelled)
      else AttemptResult(sink, first.dispatches, account.second, Pay(left, first.dispatches))
  }

  predicate FailsOver(pool: Pool, first: Result) {
    first.err.Some? && first.outs == [] && !pool.hadState && first.err.value.auth && !pool.cancelled
      && pool.backup.Some?
  }

  function Then(first: Result, second: Result): Result {
    Result(first.dispatches + second.dispatches, second.outs, second.err)
  }

  function PoolResult(sink: nat -> bool, pool: Pool, left: Left): Result {
    if pool.chosen.None? then Result(0, [], Some(pool.unavailable))
    else
      var first := ClientResult(sink, pool.chosen.value, left);
      if !FailsOver(pool, first) then first
      else Then(first, ClientResult(sink, pool.backup.value, Pay(left, first.dispatches)))
  }

  /** A stream that ended well but showed nothing counts as failed. */
  function Judged(r: Result): Result {
    if r.err.None? && r.outs == [] then r.(err := Some(EMPTY_STREAM)) else r
  }

  predicate Migrates(first: Result, fallback: Option<Pool>) {
    first.err.Some? && first.outs == [] && first.err.value.rejected && fallback.Some?
  }

  function ServiceResult(sink: nat -> bool, pool: Pool, fallback: Option<Pool>, left: Left): Result {
    var first := Judged(PoolResult(sink, pool, left));
    if !Migrates(first, fallback) then first
    else Then(first, Judged(PoolResult(sink, fallback.value, Pay(left, first.dispatches))))
  }

  // ---- The stream ----

  /** A delta as the client sees it, marked with the dispatch it came from. */
  datatype Emitted = Emitted(dispatch: nat, out: Out)

  function Marked(d: nat, outs: seq<Out>): seq<Emitted> {
    seq(|outs|, i requires 0 <= i < |outs| => Emitted(d, outs[i]))
  }

  lemma MarkedPush(d: nat, outs: seq<Out>, o: Out)
    ensures Marked(d, outs + [o]) == Marked(d, outs) + [Emitted(d, o)]
  {
  }

  class Stream {
    const budget: RetryBudget?
    /** What the client answers to the n-th delta; false stops the upstream. */
    const sink: nat -> bool
    var dispatched: nat
    var log: seq<Emitted>

    constructor (budget: RetryBudget?, sink: nat -> bool)
      ensures this.budget == budget && this.sink == sink && dispatched == 0 && log == []
    {
      this.budget, this.sink := budget, sink;
      dispatched, log := 0, [];
    }

    ghost function Frame(): set<object> {
      if budget == null then {this} else {this, budget}
    }

    ghost function Budget(): Left
      reads budget
    {
      if budget == null then None else Some(budget.remaining)
    }

    /** The call came out as r: dispatched and paid for, handed over, ended. */
    twostate predicate CameOutAs(r: Result, new err: Option<Failure>)
      reads this, budget
    {
      && dispatched == old(dispatched) + r.dispatches
      && Budget() == Pay(old(Budget()), r.dispatches)
      && log == Marked(dispatched, r.outs)
      && err == r.err
    }

    /** ConsumeRetryBudget, and the dispatch it pays for. */
    method Dispatch() returns (ok: bool)
      modifies this`dispatched, budget
      ensures ok <==> CanPay(old(Budget()))
      ensures var n := if ok then 1 else 0;
        dispatched == old(dispatched) + n && Budget() == Pay(old(Budget()), n)
    {
      ok := true;
      if budget != null {
        ok := budget.Consume();
      }
      if ok {
        dispatched := dispatched + 1;
      }
    }

    method Emit(out: Out) returns (go: bool)
      modifies this`log
      ensures log == old(log) + [Emitted(dispatched, out)] && go == sink(|old(log)|)
    {
      go := sink(|log|);
      log := log + [Emitted(dispatched, out)];
    }

    /** The callback for a block before its content: its new thinking texts. all is what
        the body shows, done what was handed over, tail what comes after these. */
    method EmitThinking(state: StreamState, texts: seq<string>, ghost all: seq<Out>, ghost done: seq<Out>,
                        ghost tail: seq<Out>)
      returns (go: bool, ghost next: seq<Out>)
      requires log == Marked(dispatched, done)
      requires Progress(sink, all, done, ThinkingOuts(state.thinkingTexts, texts) + tail)
      modifies this`log, state`thinkingTexts
      ensures log == Marked(dispatched, next)
      ensures if go then Progress(sink, all, next, tail) && state.thinkingTexts == Seen(old(state.thinkingTexts), texts)
              else next == Sent(sink, 0, all) && Refused(sink, 0, all)
    {
      hide Progress, Sent, Refused, Marked, ThinkingOuts, Seen, BestPrefix, TrimSpace;
      next := done;
      var i := 0;
      assert texts[0..] == texts;
      while i < |texts|
        invariant 0 <= i <= |texts| && log == Marked(dispatched, next)
        invariant Progress(sink, all, next, ThinkingOuts(state.thinkingTexts, texts[i..]) + tail)
        invariant Seen(state.thinkingTexts, texts[i..]) == Seen(old(state.thinkingTexts), texts)
      {
        ThinkingStep(state.thinkingTexts, texts, i, tail);
        ghost var seen := state.thinkingTexts;
        var delta := state.NextThinkingDelta(texts[i]);
        if delta != "" {
          BeyondIs(seen, TrimSpace(texts[i]), delta);
          ghost var rest := ThinkingOuts(state.thinkingTexts, texts[i + 1..]) + tail;
          Taken(sink, all, next, Out(ThinkingText, delta), rest);
          MarkedPush(dispatched, next, Out(ThinkingText, delta));
          MarkedLength(dispatched, next);
          go := Emit(Out(ThinkingText, delta));
          next := next + [Out(ThinkingText, delta)];
          if !go {
            return;
          }
        }
        i := i + 1;
      }
      NoneLeft(state.thinkingTexts, texts[i..], tail);
      go := true;
    }

    /** The read loop on one response body: it hands over exactly what the body shows, up
        to the delta the client turns down. */
    method Read(state: StreamState, visits: seq<Visit>, end: Option<Failure>) returns (err: Option<Failure>)
      requires log == [] && !state.hasContent && state.thinkingTexts == []
      modifies this`log, state
      ensures var r := BodyResult(sink, 0, visits, end); log == Marked(dispatched, r.outs) && err == r.err
    {
      hide Progress, Sent, Refused, ThinkingOuts, Seen, Outs, EndOf, Marked;
      ghost var all := Outs(visits, [], false);
      ghost var done: seq<Out> := [];
      Starting(sink, all);
      NoneMarked(dispatched);
      assert visits[0..] == visits;
      var i := 0;
      while i < |visits|
        invariant 0 <= i <= |visits| && log == Marked(dispatched, done)
        invariant Progress(sink, all, done, Outs(visits[i..], state.thinkingTexts, state.hasContent))
        invariant EndOf(visits[i..], state.hasContent, end) == EndOf(visits, false, end)
      {
        var visit := visits[i];
        VisitStep(visits, i, state.thinkingTexts, state.hasContent, end);
        if visit.mismatch && !state.hasContent {
          Finished(sink, all, done);
          return Some(MISMATCH);
        }
        ghost var seen := if state.hasContent then state.thinkingTexts else Seen(state.thinkingTexts, visit.thinking);
        ghost var later := Outs(visits[i + 1..], seen, state.hasContent || visit.delta != "");
        ghost var tail := ContentOut(visit.delta) + later;
        if !state.hasContent {
          var go: bool;
          go, done := EmitThinking(state, visit.thinking, all, done, tail);
          if !go {
            return None;
          }
        } else {
          NoneBefore(tail);
        }
        if visit.delta != "" {
          state.hasContent := true;
          Taken(sink, all, done, Out(ContentDelta, visit.delta), later);
          MarkedPush(dispatched, done, Out(ContentDelta, visit.delta));
          MarkedLength(dispatched, done);
          var go := Emit(Out(ContentDelta, visit.delta));
          done := done + [Out(ContentDelta, visit.delta)];
          if !go {
            return None;
          }
        } else {
          NoneBefore(later);
        }
        i := i + 1;
      }
      NoVisits(visits[i..], state.thinkingTexts, state.hasContent, end);
      Finished(sink, all, done);
      err := end;
    }

    /** One attempt; retry tells whether it failed before the request was written. */
    method TryOnce(attempt: Attempt) returns (err: Option<Failure>, retry: bool)
      requires log == []
      modifies Frame()
      ensures CameOutAs(AttemptResult(sink, 0, attempt, old(Budget())), err)
      ensures retry <==> Retryable(attempt) && (attempt.Dispatched? ==> CanPay(old(Budget())))
    {
      retry := false;
      match attempt {
        case Unbuilt(failure) =>
          return Some(failure), true;
        case Dispatched(reply) =>
          var ok := Dispatch();
          if !ok {
            return Some(BUDGET_EXHAUSTED), false;
          }
          match reply {
            case Unsent(written, failure) =>
              return Some(failure), !written;
            case BadStatus(failure) =>
              return Some(failure), false;
            case Body(visits, end) =>
              var state := new StreamState();
              err := Read(state, visits, end);
          }
      }
    }

    /** One account: at most two attempts, the second only when the request was not
        built or not written. */
    method ClientStream(account: Account) returns (err: Option<Failure>)
      requires log == []
      modifies Frame()
      ensures CameOutAs(ClientResult(sink, account, old(Budget())), err)
    {
      if account.unready.Some? {
        return account.unready;
      }
      var maxAttempts :=
        if account.maxRetries <= 0 then 1 else if account.maxRetries > 2 then 2 else account.maxRetries;
      var retry: bool;
      err, retry := TryOnce(account.first);
      if !retry || maxAttempts == 1 {
        return;
      }
      if account.cancelled.Some? {
        return account.cancelled;
      }
      err, retry := TryOnce(account.second);
    }

    /** The pool: one backup account, only before any output, without conversation
        state, on a sign-in error. */
    method PoolStream(pool: Pool) returns (err: Option<Failure>)
      requires log == []
      modifies Frame()
      ensures CameOutAs(PoolResult(sink, pool, old(Budget())), err)
    {
      if pool.chosen.None? {
        return Some(pool.unavailable);
      }
      err := ClientStream(pool.chosen.value);
      if err.None? {
        return;
      }
      var emitted := log != [];
      if emitted || pool.hadState || !err.value.auth || pool.cancelled || pool.backup.None? {
        return;
      }
      err := ClientStream(pool.backup.value);
    }

    /** The service: a rejected conversation is replaced by a new one, only before any
        output. */
    method ServiceStream(first: Pool, fallback: Option<Pool>) returns (err: Option<Failure>)
      requires log == []
      modifies Frame()
      ensures CameOutAs(ServiceResult(sink, first, fallback, old(Budget())), err)
    {
      hide PoolResult;
      err := PoolStream(first);
      var observed := log != [];
      if err.None? && !observed {
        err := Some(EMPTY_STREAM);
      }
      if err.Some? && !observed && err.value.rejected && fallback.Some? {
        err := PoolStream(fallback.value);
        observed := log != [];
        if err.None? && !observed {
          err := Some(EMPTY_STREAM);
        }
      }
    }
  }

  lemma {:induction false} NoVisits(visits: seq<Visit>, seen: seq<string>, hasContent: bool, end: Option<Failure>)
    requires visits == []
    ensures Outs(visits, seen, hasContent) == [] && EndOf(visits, hasContent, end) == end
  {
  }

  lemma NoneMarked(d: nat)
    ensures Marked(d, []) == []
  {
  }

  lemma MarkedLength(d: nat, outs: seq<Out>)
    ensures |Marked(d, outs)| == |outs|
  {
  }

  lemma {:induction false} NoneLeft(seen: seq<string>, texts: seq<string>, tail: seq<Out>)
    requires texts == []
    ensures ThinkingOuts(seen, texts) + tail == tail && Seen(seen, texts) == seen
  {
  }

  lemma NoneBefore(tail: seq<Out>)
    ensures [] + tail == tail
  {
  }

  lemma {:induction false} ThinkingStep(seen: seq<string>, texts: seq<string>, i: nat, tail: seq<Out>)
    requires i < |texts|
    ensures var t := NewThought(seen, texts[i]);
      var next := if t.Some? then seen + [t.value] else seen;
      && Seen(seen, texts[i..]) == Seen(next, texts[i + 1..])
      && ThinkingOuts(seen, texts[i..]) + tail
         == (if t.None? then ThinkingOuts(seen, texts[i + 1..]) + tail
             else [Out(ThinkingText, Beyond(seen, t.value))] + (ThinkingOuts(next, texts[i + 1..]) + tail))
  {
    assert texts[i..][1..] == texts[i + 1..];
    var t := NewThought(seen, texts[i]);
    if t.Some? {
      Assoc([Out(ThinkingText, Beyond(seen, t.value))], ThinkingOuts(seen + [t.value], texts[i + 1..]), tail);
    }
  }

  function ContentOut(delta: string): seq<Out> {
    if delta == "" then [] else [Out(ContentDelta, delta)]
  }

  lemma {:induction false} VisitStep(visits: seq<Visit>, i: nat, seen: seq<string>, hasContent: bool,
                                     end: Option<Failure>)
    requires i < |visits|
    ensures var v := visits[i];
      if v.mismatch && !hasContent then
        Outs(visits[i..], seen, hasContent) == [] && EndOf(visits[i..], hasContent, end) == Some(MISMATCH)
      else
        && EndOf(visits[i..], hasContent, end) == EndOf(visits[i + 1..], hasContent || v.delta != "", end)
        && Outs(visits[i..], seen, hasContent)
           == (if hasContent then [] else ThinkingOuts(seen, v.thinking))
              + (ContentOut(v.delta)
                 + Outs(visits[i + 1..], if hasContent then seen else Seen(seen, v.thinking),
                        hasContent || v.delta != ""))
  {
    assert visits[i..][1..] == visits[i + 1..];
  }

  // ---- What every request can count on ----

  /** Nothing empty, and thinking before content. */
  ghost predicate WellShaped(outs: seq<Out>) {
    && (forall i :: 0 <= i < |outs| ==> outs[i].delta != "")
    && (forall i, j :: 0 <= i < j < |outs| && outs[i].kind.ContentDelta? ==> outs[j].kind.ContentDelta?)
  }

  ghost predicate OnlyKind(outs: seq<Out>, kind: Kind) {
    forall i :: 0 <= i < |outs| ==> outs[i].kind == kind && outs[i].delta != ""
  }

  lemma {:induction false} ThinkingShape(seen: seq<string>, texts: seq<string>)
    ensures OnlyKind(ThinkingOuts(seen, texts), ThinkingText)
    decreases |texts|
  {
    if texts == [] {
    } else {
      var t := NewThought(seen, texts[0]);
      ThinkingShape(if t.Some? then seen + [t.value] else seen, texts[1..]);
    }
  }

  lemma NothingShaped()
    ensures WellShaped([]) && OnlyKind([], ContentDelta)
  {
  }

  lemma ContentShape(delta: string)
    ensures OnlyKind(ContentOut(delta), ContentDelta)
    ensures delta == "" ==> OnlyKind(ContentOut(delta), ThinkingText)
  {
  }

  lemma ShapeAppend(a: seq<Out>, b: seq<Out>)
    requires WellShaped(b) && (OnlyKind(a, ThinkingText) || (OnlyKind(a, ContentDelta) && OnlyKind(b, ContentDelta)))
    ensures WellShaped(a + b)
    ensures OnlyKind(a, ContentDelta) && OnlyKind(b, ContentDelta) ==> OnlyKind(a + b, ContentDelta)
  {
  }

  /** Whatever a body holds, it shows non-empty deltas only, thinking before content. */
  lemma {:induction false} BodyShape(visits: seq<Visit>, seen: seq<string>, hasContent: bool)
    ensures WellShaped(Outs(visits, seen, hasContent))
    ensures hasContent ==> OnlyKind(Outs(visits, seen, hasContent), ContentDelta)
    decreases |visits|
  {
    hide ThinkingOuts, Seen, WellShaped, OnlyKind;
    if visits == [] || (visits[0].mismatch && !hasContent) {
      NothingShaped();
    } else {
      var v := visits[0];
      var seen' := if hasContent then seen else Seen(seen, v.thinking);
      var rest := Outs(visits[1..], seen', hasContent || v.delta != "");
      BodyShape(visits[1..], seen', hasContent || v.delta != "");
      ThinkingShape(seen, v.thinking);
      ContentShape(v.delta);
      NoneBefore(rest);
      ShapeAppend(ContentOut(v.delta), rest);
      var tail := ContentOut(v.delta) + rest;
      NoneBefore(tail);
      ShapeAppend(ThinkingOuts(seen, v.thinking), tail);
    }
  }

  lemma {:induction false} SentIsPrefix(sink: nat -> bool, n: nat, outs: seq<Out>)
    ensures Sent(sink, n, outs) <= outs
    ensures !Refused(sink, n, outs) ==> Sent(sink, n, outs) == outs
    decreases |outs|
  {
    if outs != [] && sink(n) {
      SentIsPrefix(sink, n + 1, outs[1..]);
    }
  }

  lemma {:induction false} ObligingSink(sink: nat -> bool, n: nat, outs: seq<Out>)
    requires forall k :: sink(k)
    ensures !Refused(sink, n, outs)
    decreases |outs|
  {
    if outs == [] {
    } else {
      ObligingSink(sink, n + 1, outs[1..]);
    }
  }

  ghost predicate InAttempt(attempt: Attempt, visits: seq<Visit>) {
    attempt.Dispatched? && attempt.reply.Body? && attempt.reply.visits == visits
  }

  ghost predicate InAccount(account: Option<Account>, visits: seq<Visit>) {
    account.Some? && (InAttempt(account.value.first, visits) || InAttempt(account.value.second, visits))
  }

  ghost predicate InPool(pool: Pool, visits: seq<Visit>) {
    InAccount(pool.chosen, visits) || InAccount(pool.backup, visits)
  }

  /** The deltas are what one body of the script shows, up to a refused one; they took at
      most n dispatches, all within the budget. */
  ghost predicate Sound(sink: nat -> bool, r: Result, n: nat, left: Left, visits: seq<Visit>) {
    && (r.outs != [] ==> r.outs == Sent(sink, 0, Outs(visits, [], false)))
    && r.dispatches <= n && (left.Some? ==> r.dispatches <= AtLeastZero(left.value))
  }

  lemma ClientIsSound(sink: nat -> bool, account: Account, left: Left) returns (visits: seq<Visit>)
    ensures Sound(sink, ClientResult(sink, account, left), 2, left, visits)
    ensures ClientResult(sink, account, left).outs != [] ==> InAccount(Some(account), visits)
  {
    var first := AttemptResult(sink, 0, account.first, left);
    var twice := account.maxRetries >= 2 && Retryable(account.first) && !(account.first.Dispatched? && !CanPay(left));
    var shown := if twice then account.second else account.first;
    visits := if shown.Dispatched? && shown.reply.Body? then shown.reply.visits else [];
  }

  lemma PoolIsSound(sink: nat -> bool, pool: Pool, left: Left) returns (visits: seq<Visit>)
    ensures Sound(sink, PoolResult(sink, pool, left), 4, left, visits)
    ensures PoolResult(sink, pool, left).outs != [] ==> InPool(pool, visits)
  {
    visits := [];
    if pool.chosen.Some? {
      var first := ClientResult(sink, pool.chosen.value, left);
      visits := ClientIsSound(sink, pool.chosen.value, left);
      if FailsOver(pool, first) {
        visits := ClientIsSound(sink, pool.backup.value, Pay(left, first.dispatches));
      }
    }
  }

  /** Under every failure pattern: all the client sees is what one upstream response
      shows, non-empty and thinking first; dispatches stay within the budget and
      eight; success means something was seen. */
  lemma RequestIsSound(sink: nat -> bool, pool: Pool, fallback: Option<Pool>, left: Left) returns (visits: seq<Visit>)
    ensures var r := ServiceResult(sink, pool, fallback, left);
      && Sound(sink, r, 8, left, visits) && WellShaped(r.outs)
      && (r.outs != [] ==> InPool(pool, visits) || (fallback.Some? && InPool(fallback.value, visits)))
      && (r.err.None? ==> r.outs != [])
  {
    hide PoolResult, Outs, InPool, WellShaped, OnlyKind, Sent, Refused;
    var first := Judged(PoolResult(sink, pool, left));
    visits := PoolIsSound(sink, pool, left);
    if Migrates(first, fallback) {
      visits := PoolIsSound(sink, fallback.value, Pay(left, first.dispatches));
    }
    SentIsShaped(sink, visits);
  }

  lemma {:induction false} SentIsShaped(sink: nat -> bool, visits: seq<Visit>)
    ensures WellShaped(Sent(sink, 0, Outs(visits, [], false))) && WellShaped([])
  {
    hide Outs, Sent, Refused, WellShaped, OnlyKind;
    BodyShape(visits, [], false);
    SentIsPrefix(sink, 0, Outs(visits, [], false));
    PrefixShaped(Sent(sink, 0, Outs(visits, [], false)), Outs(visits, [], false));
    NothingShaped();
  }

  lemma PrefixShaped(front: seq<Out>, outs: seq<Out>)
    requires front <= outs && WellShaped(outs)
    ensures WellShaped(front)
  {
    assert forall i :: 0 <= i < |front| ==> front[i] == outs[i];
  }

  // ---- Nothing is lost ----

  function Last(texts: seq<string>): string {
    if texts == [] then "" else texts[|texts| - 1]
  }

  function DeltasOf(outs: seq<Out>): string {
    if outs == [] then "" else outs[0].delta + DeltasOf(outs[1..])
  }

  lemma {:induction false} NextGrows(seen: seq<string>, t: string, more: seq<string>)
    requires Growing(seen + ([t] + more))
    ensures Growing(seen + [t]) && t !in seen && BestPrefix(seen, t) == Last(seen) && Last(seen) <= t
  {
    var all := seen + ([t] + more);
    assert all[|seen|] == t;
    assert forall i :: 0 <= i <= |seen| ==> (seen + [t])[i] == all[i];
    forall i | 0 <= i < |seen| ensures seen[i] != t {
      assert |all[i]| < |all[|seen|]|;
    }
    if seen != [] {
      BestIsLatest(seen, t);
      assert all[|seen| - 1] == Last(seen);
    }
  }

  /** Thinking deltas of growing snapshots add up to the last snapshot. */
  lemma {:induction false} ThinkingAddsUp(seen: seq<string>, texts: seq<string>)
    requires Growing(seen + texts) && forall i :: 0 <= i < |texts| ==> TrimSpace(texts[i]) == texts[i] != ""
    ensures Last(seen) + DeltasOf(ThinkingOuts(seen, texts)) == Last(seen + texts)
    decreases |texts|
  {
    if texts == [] {
      assert seen + texts == seen;
    } else {
      hide Growing, Beyond, ThinkingOuts, TrimSpace;
      var t := texts[0];
      assert seen + texts == (seen + [t]) + texts[1..];
      FirstThought(seen, texts);
      ThinkingAddsUp(seen + [t], texts[1..]);
      var d, rest := Beyond(seen, t), ThinkingOuts(seen + [t], texts[1..]);
      assert ([Out(ThinkingText, d)] + rest)[1..] == rest;
      Assoc(Last(seen), d, DeltasOf(rest));
    }
  }

  lemma {:induction false} FirstThought(seen: seq<string>, texts: seq<string>)
    requires Growing(seen + texts) && texts != [] && TrimSpace(texts[0]) == texts[0] != ""
    ensures var t := texts[0];
      && ThinkingOuts(seen, texts) == [Out(ThinkingText, Beyond(seen, t))] + ThinkingOuts(seen + [t], texts[1..])
      && t == Last(seen) + Beyond(seen, t)
  {
    var t := texts[0];
    assert texts == [t] + texts[1..];
    NextGrows(seen, t, texts[1..]);
  }

  function TextOf(outs: seq<Out>): string {
    if outs == [] then "" else (if outs[0].kind.ContentDelta? then outs[0].delta else "") + TextOf(outs[1..])
  }

  function BodyText(visits: seq<Visit>): string {
    if visits == [] then "" else visits[0].delta + BodyText(visits[1..])
  }

  lemma {:induction false} TextAppend(a: seq<Out>, b: seq<Out>)
    ensures TextOf(a + b) == TextOf(a) + TextOf(b)
  {
    if a == [] {
      assert a + b == b;
    } else {
      assert (a + b)[1..] == a[1..] + b;
      TextAppend(a[1..], b);
    }
  }

  lemma {:induction false} ThinkingHasNoText(outs: seq<Out>)
    requires OnlyKind(outs, ThinkingText)
    ensures TextOf(outs) == ""
  {
    if outs == [] {
    } else {
      ThinkingHasNoText(outs[1..]);
    }
  }

  lemma ContentText(delta: string)
    ensures TextOf(ContentOut(delta)) == delta
  {
    if delta != "" {
      assert ContentOut(delta)[1..] == [];
    }
  }

  /** A body that does not turn out to be another conversation's shows all its text. */
  lemma {:induction false} BodyKeepsText(visits: seq<Visit>, seen: seq<string>, hasContent: bool)
    requires hasContent || forall i :: 0 <= i < |visits| ==> !visits[i].mismatch
    ensures TextOf(Outs(visits, seen, hasContent)) == BodyText(visits)
    decreases |visits|
  {
    if visits == [] {
    } else {
      var v := visits[0];
      var seen' := if hasContent then seen else Seen(seen, v.thinking);
      var rest := Outs(visits[1..], seen', hasContent || v.delta != "");
      BodyKeepsText(visits[1..], seen', hasContent || v.delta != "");
      var thinking := if hasContent then [] else ThinkingOuts(seen, v.thinking);
      ThinkingShape(seen, v.thinking);
      ThinkingHasNoText(thinking);
      ContentText(v.delta);
      TextAppend(ContentOut(v.delta), rest);
      TextAppend(thinking, ContentOut(v.delta) + rest);
    }
  }
}
