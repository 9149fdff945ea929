/** How long a selected account is kept, and who comes after it, over whole runs of the
    account pool (gemini_client_pool.go). */
module AccountWindows {
  import opened Messages
  import opened AccountPool

  /** How long account a is kept: what is set for it, or three hours. */
  function KeptFor(p: Pool, a: Account): int {
    if a in p.stay && p.stay[a] > 0 then p.stay[a] else 3 * 3600 * 1_000_000_000
  }

  /** No account can be kept: none is active, its time is over, or it is not healthy. */
  predicate NoneToKeep(p: Pool, now: int, healthy: set<Account>)
    requires p.active < |p.clients|
  {
    p.active < 0 || p.until <= now || p.clients[p.active] !in healthy
  }

  /** The operation chooses account a anew. */
  ghost predicate Chooses(p: Pool, op: Op, now: int, a: Account)
    requires -1 <= p.active < |p.clients|
  {
    match op
    case Rotate(force, healthy) =>
      (force || NoneToKeep(p, now, healthy)) && Select(p, now, force, healthy).0 == By(a)
    case Request(c, healthy, recovered) =>
      && !(c in p.boundTo && p.boundTo[c] in p.clients && p.boundTo[c] in healthy)
      && NoneToKeep(p, now, healthy) && NoneToKeep(p, now, recovered)
      && Serve(p, c, now, healthy, recovered).0 == By(a)
    case _ => false
  }

  /** Account a is the active one, until this time. */
  predicate Keeps(p: Pool, a: Account, until: int) {
    0 <= p.active < |p.clients| && p.clients[p.active] == a && p.until == until
  }

  lemma ChosenAnew(p: Pool, now: int, force: bool, healthy: set<Account>, a: Account)
    requires -1 <= p.active < |p.clients| && (force || NoneToKeep(p, now, healthy))
    requires Select(p, now, force, healthy).0 == By(a)
    ensures Keeps(Select(p, now, force, healthy).1, a, now + KeptFor(p, a))
  {
  }

  /** A new choice starts that account's time. */
  lemma ChoiceKeeps(p: Pool, op: Op, now: int, next: Pool, a: Account)
    requires Step(p, op, now, next) && Chooses(p, op, now, a)
    ensures Keeps(next, a, now + KeptFor(p, a))
  {
    hide Select, Prune;
    match op {
      case Rotate(force, healthy) => ChosenAnew(p, now, force, healthy, a);
      case Request(c, healthy, recovered) =>
        var free := if c != NoId && c in p.boundTo then Unbind(p, c) else p;
        if Select(free, now, false, healthy).0.NoneHealthy? {
          SelectStays(free, now, healthy);
          ChosenAnew(free, now, false, recovered, a);
        } else {
          ChosenAnew(free, now, false, healthy, a);
        }
        PruneSpares(Bind(SelectOrRecover(free, now, healthy, recovered).1, c, a, now), now);
    }
  }

  lemma PruneSpares(p: Pool, now: int)
    ensures var next := Prune(p, now);
      next.clients == p.clients && next.active == p.active && next.until == p.until
  {
  }

  /** The operation lets account a's time run: it finds a healthy and comes before the end,
      and it removes nothing, forces nothing and restores nothing. */
  predicate LetsRun(op: Op, now: int, a: Account, until: int) {
    match op
    case Request(_, healthy, _) => a in healthy && now < until
    case Rotate(force, healthy) => !force && a in healthy && now < until
    case Ask(_, _, _) => true
    case InsertOp(_, _) => true
    case RemoveOp(_) => false
    case Restore(_, _) => false
  }

  /** What an operation answers while account a is kept: a, and the pool stays as it is; a
      conversation that is bound is served by its own account. */
  ghost predicate AnswersKept(p: Pool, op: Op, now: int, next: Pool, a: Account)
    requires -1 <= p.active < |p.clients|
  {
    match op
    case Rotate(force, healthy) => Select(p, now, force, healthy).0 == By(a) && next == p
    case Request(c, healthy, recovered) =>
      && (c !in p.boundTo || p.boundTo[c] !in p.clients || p.boundTo[c] !in healthy ==>
            Serve(p, c, now, healthy, recovered).0 == By(a))
      && (c == NoId && c !in p.boundTo ==> next == p)
    case _ => true
  }

  lemma KeptStep(p: Pool, op: Op, now: int, next: Pool, a: Account, until: int)
    requires Step(p, op, now, next) && Keeps(p, a, until) && LetsRun(op, now, a, until)
    ensures Keeps(next, a, until) && next.active == p.active && p.clients <= next.clients
    ensures AnswersKept(p, op, now, next, a)
  {
    hide Prune;
    match op {
      case Request(c, healthy, recovered) =>
        var free := if c != NoId && c in p.boundTo then Unbind(p, c) else p;
        PruneSpares(Bind(free, c, a, now), now);
      case _ =>
    }
  }

  /** Over any run: from the moment account a is chosen, at time t, until t plus its time,
      every operation that lets its time run answers a and leaves the choice alone. */
  lemma {:induction false} WindowHolds(ops: seq<Op>, times: seq<int>, states: seq<Pool>, i: nat, j: nat, a: Account)
    requires Run(ops, times, states) && i < j <= |ops|
    requires -1 <= states[i].active < |states[i].clients| && Chooses(states[i], ops[i], times[i], a)
    requires forall k :: i < k < j ==> LetsRun(ops[k], times[k], a, times[i] + KeptFor(states[i], a))
    ensures Keeps(states[j], a, times[i] + KeptFor(states[i], a))
    ensures states[j].active == states[i + 1].active && states[i + 1].clients <= states[j].clients
    ensures forall k :: i < k < j ==>
      (-1 <= states[k].active < |states[k].clients| && AnswersKept(states[k], ops[k], times[k], states[k + 1], a))
  {
    hide Chooses, LetsRun, Step, AnswersKept, KeptFor;
    var until := times[i] + KeptFor(states[i], a);
    if j == i + 1 {
      ChoiceKeeps(states[i], ops[i], times[i], states[i + 1], a);
    } else {
      WindowHolds(ops, times, states, i, j - 1, a);
      assert Step(states[j - 1], ops[j - 1], times[j - 1], states[j]);
      KeptStep(states[j - 1], ops[j - 1], times[j - 1], states[j], a, until);
    }
  }

  /** idx is the first healthy position after start, going round; start comes last. */
  ghost predicate ComesNext(clients: seq<Account>, healthy: set<Account>, start: int, idx: int)
    requires -1 <= start
  {
    && 0 <= idx < |clients| && clients[idx] in healthy
    && (forall k :: start < k < |clients| && (k < idx || idx <= start) ==> clients[k] !in healthy)
    && forall k :: 0 <= k < idx <= start ==> clients[k] !in healthy
  }

  lemma NextChosen(p: Pool, now: int, force: bool, healthy: set<Account>)
    requires p.clients != [] && -1 <= p.active < |p.clients| && (force || NoneToKeep(p, now, healthy))
    ensures var (served, next) := Select(p, now, force, healthy);
      if exists b :: b in p.clients && b in healthy then
        && ComesNext(p.clients, healthy, p.active, next.active) && served == By(p.clients[next.active])
        && next == p.(active := next.active, until := now + KeptFor(p, p.clients[next.active]))
      else served == NoneHealthy && next == p
  {
    NextHealthy(p.clients, healthy, p.active);
  }

  /** And the first selection at or after that end moves on to the next healthy account,
      going round, or keeps the pool as it is when none is healthy. */
  lemma WindowEnds(ops: seq<Op>, times: seq<int>, states: seq<Pool>, i: nat, j: nat, a: Account, healthy: set<Account>)
    requires Run(ops, times, states) && i < j < |ops|
    requires -1 <= states[i].active < |states[i].clients| && Chooses(states[i], ops[i], times[i], a)
    requires forall k :: i < k < j ==> LetsRun(ops[k], times[k], a, times[i] + KeptFor(states[i], a))
    requires ops[j] == Rotate(false, healthy) && times[j] >= times[i] + KeptFor(states[i], a)
    ensures Keeps(states[j], a, times[i] + KeptFor(states[i], a))
    ensures var (served, next) := (Select(states[j], times[j], false, healthy).0, states[j + 1]);
      if exists b :: b in states[j].clients && b in healthy then
        && ComesNext(states[j].clients, healthy, states[j].active, next.active)
        && served == By(states[j].clients[next.active])
        && Keeps(next, states[j].clients[next.active],
                 times[j] + KeptFor(states[j], states[j].clients[next.active]))
      else served == NoneHealthy && next == states[j]
  {
    hide Chooses, LetsRun, Select, KeptFor;
    WindowHolds(ops, times, states, i, j, a);
    assert Step(states[j], ops[j], times[j], states[j + 1]);
    NextChosen(states[j], times[j], false, healthy);
  }

  // ---- Serving and binding ----

  ghost predicate SomeHealthy(clients: seq<Account>, healthy: set<Account>) {
    exists a :: a in clients && a in healthy
  }

  lemma SelectedIff(p: Pool, now: int, healthy: set<Account>)
    requires -1 <= p.active < |p.clients|
    ensures match Select(p, now, false, healthy).0
      case By(a) => a in p.clients && a in healthy
      case NoAccounts => p.clients == []
      case NoneHealthy => p.clients != [] && !SomeHealthy(p.clients, healthy)
  {
    if p.clients != [] {
      NextHealthy(p.clients, healthy, p.active);
    }
  }

  /** A request is refused exactly when there is no account, or none is healthy even after
      the recovery; a bound conversation goes to its account while that one can be used, and
      any other one to a healthy account, which it is then bound to. */
  lemma ServedIff(p: Pool, c: Id, now: int, healthy: set<Account>, recovered: set<Account>)
    requires -1 <= p.active < |p.clients|
    ensures var (served, next) := Serve(p, c, now, healthy, recovered);
      && (served == NoAccounts <==> p.clients == [])
      && (served == NoneHealthy <==>
            p.clients != [] && !SomeHealthy(p.clients, healthy) && !SomeHealthy(p.clients, recovered))
      && (served.By? ==> served.account in p.clients
                         && served.account in (if SomeHealthy(p.clients, healthy) then healthy else recovered))
      && (c != NoId && c in p.boundTo && p.boundTo[c] in p.clients && p.boundTo[c] in healthy ==>
            served == By(p.boundTo[c]))
      && (c != NoId && served.By? ==> c in next.boundTo && next.boundTo[c] == served.account && next.seen[c] == now)
  {
    hide Select;
    var free := if c != NoId && c in p.boundTo then Unbind(p, c) else p;
    SelectedIff(free, now, healthy);
    SelectedIff(free, now, recovered);
    SelectStays(free, now, healthy);
    var (served, next) := SelectOrRecover(free, now, healthy, recovered);
    if served.By? {
      JustBound(next, c, served.account, now);
    }
  }

  lemma JustBound(p: Pool, c: Id, a: Account, now: int)
    ensures var next := Prune(Bind(p, c, a, now), now);
      c in next.boundTo && next.boundTo[c] == a && c in next.seen && next.seen[c] == now
  {
  }

  /** Binding a conversation lets go of just those that were not used for twelve hours. */
  lemma IdleBindingsGo(p: Pool, c: Id, now: int, healthy: set<Account>, recovered: set<Account>, d: Id)
    requires Inv(p) && c != NoId && d != c
    requires !(c in p.boundTo && p.boundTo[c] in p.clients && p.boundTo[c] in healthy)
    ensures var (served, next) := Serve(p, c, now, healthy, recovered);
      served.By? ==>
        && (d in next.boundTo <==> d in p.boundTo && now - p.seen[d] <= 12 * 3600 * 1_000_000_000)
        && (d in next.boundTo ==> next.boundTo[d] == p.boundTo[d])
  {
    hide Select;
    var free := if c in p.boundTo then Unbind(p, c) else p;
    SelectBinds(free, now, healthy);
    SelectBinds(free, now, recovered);
    SelectStays(free, now, healthy);
  }

  lemma SelectBinds(p: Pool, now: int, healthy: set<Account>)
    requires -1 <= p.active < |p.clients|
    ensures var next := Select(p, now, false, healthy).1; next.boundTo == p.boundTo && next.seen == p.seen
  {
  }

  /** The first healthy account that knows the conversation stands at position k. */
  ghost predicate FirstKnowing(clients: seq<Account>, healthy: set<Account>, knowing: set<Account>, k: nat) {
    && k < |clients| && clients[k] in healthy && clients[k] in knowing
    && forall i :: 0 <= i < k ==> !(clients[i] in healthy && clients[i] in knowing)
  }

  lemma {:induction false} OwnerIs(clients: seq<Account>, healthy: set<Account>, knowing: set<Account>)
    ensures match Owner(clients, knowing * healthy)
      case Some(a) => exists k: nat :: FirstKnowing(clients, healthy, knowing, k) && clients[k] == a
      case None => forall a :: a in clients ==> !(a in healthy && a in knowing)
  {
    if clients != [] {
      OwnerIs(clients[1..], healthy, knowing);
      if clients[0] in knowing * healthy {
        assert FirstKnowing(clients, healthy, knowing, 0);
      } else if Owner(clients, knowing * healthy).Some? {
        var k: nat :| FirstKnowing(clients[1..], healthy, knowing, k)
          && clients[1..][k] == Owner(clients, knowing * healthy).value;
        assert forall i :: 1 <= i < |clients| ==> clients[i] == clients[1..][i - 1];
        assert FirstKnowing(clients, healthy, knowing, k + 1);
      }
    }
  }

  /** Asking after a conversation that is bound nowhere binds it to the first healthy account
      that knows it, which serves it next; one whose account cannot be used is let go; nothing
      else changes. */
  lemma AskedThenServed(p: Pool, c: Id, now: int, healthy: set<Account>, knowing: set<Account>, later: int,
                        recovered: set<Account>)
    requires -1 <= p.active < |p.clients| && c != NoId
    ensures var next := Asked(p, c, now, healthy, knowing);
      && next == p.(boundTo := next.boundTo, seen := next.seen)
      && (forall d :: d != c ==>
            (d in next.boundTo <==> d in p.boundTo) && (d in p.boundTo ==> next.boundTo[d] == p.boundTo[d]))
      && (c in p.boundTo ==> (c in next.boundTo <==> p.boundTo[c] in p.clients && p.boundTo[c] in healthy))
      && (c !in p.boundTo ==>
            (c in next.boundTo <==> exists a :: a in p.clients && a in healthy && a in knowing))
      && (c !in p.boundTo && c in next.boundTo ==>
            (exists k: nat :: FirstKnowing(p.clients, healthy, knowing, k) && p.clients[k] == next.boundTo[c])
            && Serve(next, c, later, healthy, recovered).0 == By(next.boundTo[c]))
  {
    hide Select, Prune;
    OwnerIs(p.clients, healthy, knowing);
  }

  /** Removing an account takes its settings and its bindings along and no others. */
  lemma RemovedAccount(p: Pool, a: Account)
    ensures var next := Remove(p, a);
      && (forall b :: b in next.clients <==> b in p.clients && b != a)
      && (forall b :: b in next.stay <==> b in p.stay && b != a)
      && (forall b :: b in next.stay ==> next.stay[b] == p.stay[b])
      && (forall c :: c in next.boundTo <==> c in p.boundTo && p.boundTo[c] != a)
      && (forall c :: c in next.boundTo ==> next.boundTo[c] == p.boundTo[c])
      && next.seen == p.seen && next.until == p.until
  {
    WithoutIs(p.clients, a);
  }
}
