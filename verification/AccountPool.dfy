/** The account pool (gemini_client_pool.go): which account serves a request, how the
    active account rotates, and which conversation stays with which account. Account
    health changes from outside, so every operation is given the healthy accounts. */
module AccountPool {
  import opened Text
  import opened Messages

  /** Three and twelve hours in nanoseconds. */
  const DEFAULT_STAY: int := 3 * 3600 * 1_000_000_000
  const CONVERSATION_BINDING_TTL: int := 12 * 3600 * 1_000_000_000

  type Account = string

  datatype Pool = Pool(clients: seq<Account>, stay: map<Account, int>, active: int, until: int,
                       boundTo: map<Id, Account>, seen: map<Id, int>)

  datatype Served = By(account: Account) | NoAccounts | NoneHealthy

  ghost predicate Inv(p: Pool) {
    && -1 <= p.active < |p.clients|
    && p.boundTo.Keys <= p.seen.Keys && NoId !in p.boundTo
    && forall c :: c in p.boundTo ==> p.boundTo[c] in p.clients
  }

  /** No id stands in the list twice. */
  ghost predicate Unique(clients: seq<Account>) {
    forall i, j :: 0 <= i < j < |clients| ==> clients[i] != clients[j]
  }

  // ---- Selection ----

  /** The i-th position after start, going round. */
  function Turn(n: nat, start: int, i: nat): (idx: nat)
    requires n > 0 && -1 <= start < n && i < n
    ensures idx < n && idx == if start + 1 + i < n then start + 1 + i else start + 1 + i - n
  {
    var idx := (start + 1 + i + n) % n;
    assert idx == if start + 1 + i < n then start + 1 + i else start + 1 + i - n by {
      Around(start + 1 + i, n);
    }
    idx
  }

  lemma {:induction false} MoreIsMore(q: nat, m: nat)
    requires q > 0
    ensures q * m >= m
  {
    if q <= 1 {
    } else {
      MoreIsMore(q - 1, m);
      assert q * m == (q - 1) * m + m;
    }
  }

  lemma Apart(q: nat, r: nat, m: nat)
    requires q < r
    ensures r * m >= q * m + m
  {
    MoreIsMore(r - q, m);
    assert r * m == (r - q) * m + q * m;
  }

  lemma Residue(m: nat, q: nat, r: nat)
    requires r < m
    ensures (q * m + r) % m == r
  {
    var x := q * m + r;
    var q', r' := x / m, x % m;
    assert x == q' * m + r' && 0 <= r' < m;
    if q < q' {
      Apart(q, q', m);
    } else if q' < q {
      Apart(q', q, m);
    }
  }

  lemma Around(k: nat, n: nat)
    requires n > 0 && k < 2 * n
    ensures (k + n) % n == if k < n then k else k - n
  {
    if k < n {
      Residue(n, 1, k);
    } else {
      Residue(n, 2, k - n);
    }
  }

  /** The first healthy position from the i-th on, or -1. */
  function FirstFrom(clients: seq<Account>, healthy: set<Account>, start: int, i: nat): (idx: int)
    requires clients != [] && -1 <= start < |clients| && i <= |clients|
    ensures -1 <= idx < |clients|
    decreases |clients| - i
  {
    if i == |clients| then -1
    else if clients[Turn(|clients|, start, i)] in healthy then Turn(|clients|, start, i)
    else FirstFrom(clients, healthy, start, i + 1)
  }

  function StayOf(p: Pool, a: Account): int {
    if a in p.stay && p.stay[a] > 0 then p.stay[a] else DEFAULT_STAY
  }

  /** The active account's window is over, or the account cannot be used. */
  predicate Expired(p: Pool, now: int, healthy: set<Account>) {
    !(0 <= p.active < |p.clients| && now < p.until && p.clients[p.active] in healthy)
  }

  /** selectActiveLocked. */
  function Select(p: Pool, now: int, force: bool, healthy: set<Account>): (Served, Pool)
    requires -1 <= p.active < |p.clients|
  {
    if p.clients == [] then (NoAccounts, p)
    else if !force && !Expired(p, now, healthy) then (By(p.clients[p.active]), p)
    else
      var idx := FirstFrom(p.clients, healthy, p.active, 0);
      if idx < 0 then (NoneHealthy, p)
      else (By(p.clients[idx]), p.(active := idx, until := now + StayOf(p, p.clients[idx])))
  }

  // ---- Serving a request ----

  function Unbind(p: Pool, c: Id): Pool {
    p.(boundTo := p.boundTo - {c}, seen := p.seen - {c})
  }

  function Bind(p: Pool, c: Id, a: Account, now: int): Pool {
    p.(boundTo := p.boundTo[c := a], seen := p.seen[c := now])
  }

  function Stale(seen: map<Id, int>, now: int): set<Id> {
    set c | c in seen && now - seen[c] > CONVERSATION_BINDING_TTL
  }

  function Prune(p: Pool, now: int): Pool {
    p.(boundTo := p.boundTo - Stale(p.seen, now), seen := p.seen - Stale(p.seen, now))
  }

  predicate Usable(p: Pool, c: Id, healthy: set<Account>) {
    c in p.boundTo && p.boundTo[c] in p.clients && p.boundTo[c] in healthy
  }

  /** Selection, tried again after a recovery when no account was healthy. */
  function SelectOrRecover(p: Pool, now: int, healthy: set<Account>, recovered: set<Account>): (Served, Pool)
    requires -1 <= p.active < |p.clients|
  {
    var first := Select(p, now, false, healthy);
    if first.0.NoneHealthy? then Select(p, now, false, recovered) else first
  }

  /** clientForOptions; recovered is what is healthy after the recovery. */
  function Serve(p: Pool, c: Id, now: int, healthy: set<Account>, recovered: set<Account>): (Served, Pool)
    requires -1 <= p.active < |p.clients|
  {
    if c != NoId && Usable(p, c, healthy) then (By(p.boundTo[c]), p.(seen := p.seen[c := now]))
    else
      var free := if c != NoId && c in p.boundTo then Unbind(p, c) else p;
      var (served, next) := SelectOrRecover(free, now, healthy, recovered);
      if c == NoId || !served.By? then (served, next)
      else (served, Prune(Bind(next, c, served.account, now), now))
  }

  /** The first healthy account that knows the conversation. */
  function Owner(clients: seq<Account>, knowing: set<Account>): Option<Account> {
    if clients == [] then None else if clients[0] in knowing then Some(clients[0]) else Owner(clients[1..], knowing)
  }

  /** HasConversationState and IsConversationUntrusted leave the same bindings: knowing
      are the healthy accounts that have state for c. */
  function Asked(p: Pool, c: Id, now: int, healthy: set<Account>, knowing: set<Account>): Pool {
    if c == NoId then p
    else if c in p.boundTo then (if Usable(p, c, healthy) then p else Unbind(p, c))
    else
      var owner := Owner(p.clients, knowing * healthy);
      if owner.Some? then Bind(p, c, owner.value, now) else p
  }

  function Without(clients: seq<Account>, a: Account): seq<Account> {
    if clients == [] then []
    else
      var n := |clients| - 1;
      Without(clients[..n], a) + (if clients[n] == a then [] else [clients[n]])
  }

  /** RemoveAccount: conversationSeen keeps its entries. */
  function Remove(p: Pool, a: Account): Pool {
    var rest := Without(p.clients, a);
    p.(clients := rest, stay := p.stay - {a}, active := if p.active >= |rest| then -1 else p.active,
       boundTo := map c | c in p.boundTo && p.boundTo[c] != a :: p.boundTo[c])
  }

  /** The second critical section of AddAccount: it does not look again. */
  function Insert(p: Pool, a: Account, stay: int): Pool {
    p.(clients := p.clients + [a], stay := p.stay[a := stay])
  }

  lemma SelectStays(p: Pool, now: int, healthy: set<Account>)
    requires -1 <= p.active < |p.clients|
    ensures var (served, next) := Select(p, now, false, healthy);
      next.clients == p.clients && -1 <= next.active < |next.clients| && (served.NoneHealthy? ==> next == p)
  {
  }

  // ---- The class ----

  class ClientPool {
    var clients: seq<Account>
    var stayByID: map<Account, int>
    var activeIndex: int
    var activeUntil: int
    var conversationTo: map<Id, Account>
    var conversationSeen: map<Id, int>

    ghost function View(): Pool
      reads this
    {
      Pool(clients, stayByID, activeIndex, activeUntil, conversationTo, conversationSeen)
    }

    constructor ()
      ensures View() == Pool([], map[], -1, 0, map[], map[])
    {
      clients, stayByID, activeIndex, activeUntil := [], map[], -1, 0;
      conversationTo, conversationSeen := map[], map[];
    }

    method SelectActive(now: int, force: bool, healthy: set<Account>) returns (served: Served)
      requires -1 <= activeIndex < |clients|
      modifies this`activeIndex, this`activeUntil
      ensures (served, View()) == Select(old(View()), now, force, healthy)
    {
      if |clients| == 0 {
        return NoAccounts;
      }
      if !force && activeIndex >= 0 && activeIndex < |clients| && now < activeUntil {
        var active := clients[activeIndex];
        if active in healthy {
          return By(active);
        }
      }
      var start := activeIndex;
      var i := 0;
      while i < |clients|
        invariant 0 <= i <= |clients|
        invariant activeIndex == start && activeUntil == old(activeUntil)
        invariant FirstFrom(clients, healthy, start, i) == FirstFrom(clients, healthy, start, 0)
      {
        var idx := (start + 1 + i + |clients|) % |clients|;
        assert idx == Turn(|clients|, start, i);
        var client := clients[idx];
        if client in healthy {
          activeIndex := idx;
          var stay := if client in stayByID then stayByID[client] else 0;
          if stay <= 0 {
            stay := DEFAULT_STAY;
          }
          activeUntil := now + stay;
          return By(client);
        }
        i := i + 1;
      }
      served := NoneHealthy;
    }

    method PruneConversationBindings(now: int)
      modifies this`conversationTo, this`conversationSeen
      ensures View() == Prune(old(View()), now)
    {
      var todo := conversationSeen.Keys;
      ghost var gone: set<Id> := {};
      ghost var boundTo, seen := conversationTo, conversationSeen;
      while todo != {}
        invariant todo <= seen.Keys && gone == Stale(seen, now) - todo
        invariant conversationTo == boundTo - gone && conversationSeen == seen - gone
        decreases todo
      {
        var c :| c in todo;
        todo := todo - {c};
        if now - conversationSeen[c] > CONVERSATION_BINDING_TTL {
          MinusTwice(boundTo, gone, c);
          MinusTwice(seen, gone, c);
          conversationTo := conversationTo - {c};
          conversationSeen := conversationSeen - {c};
          gone := gone + {c};
        }
      }
      assert gone == Stale(seen, now);
    }

    method ClientFor(c: Id, now: int, healthy: set<Account>, recovered: set<Account>) returns (served: Served)
      requires -1 <= activeIndex < |clients|
      modifies this
      ensures (served, View()) == Serve(old(View()), c, now, healthy, recovered)
    {
      hide Select, Prune;
      if c != NoId && c in conversationTo {
        var account := conversationTo[c];
        if account in clients && account in healthy {
          conversationSeen := conversationSeen[c := now];
          return By(account);
        }
        conversationTo := conversationTo - {c};
        conversationSeen := conversationSeen - {c};
      }
      SelectStays(View(), now, healthy);
      served := SelectActive(now, false, healthy);
      if served.NoneHealthy? {
        SelectStays(View(), now, recovered);
        served := SelectActive(now, false, recovered);
      }
      if served.By? && c != NoId {
        conversationTo := conversationTo[c := served.account];
        conversationSeen := conversationSeen[c := now];
        PruneConversationBindings(now);
      }
    }

    method HasConversationState(c: Id, now: int, healthy: set<Account>, knowing: set<Account>) returns (known: bool)
      modifies this`conversationTo, this`conversationSeen
      ensures View() == Asked(old(View()), c, now, healthy, knowing)
      ensures known <==> c != NoId && c in conversationTo && conversationTo[c] in knowing * healthy
    {
      if c == NoId {
        return false;
      }
      if c in conversationTo {
        if conversationTo[c] in clients && conversationTo[c] in healthy {
          return conversationTo[c] in knowing;
        }
        conversationTo := conversationTo - {c};
        conversationSeen := conversationSeen - {c};
        return false;
      }
      for i := 0 to |clients|
        invariant View() == old(View())
        invariant Owner(clients, knowing * healthy) == Owner(clients[i..], knowing * healthy)
      {
        if clients[i] in healthy && clients[i] in knowing {
          conversationTo := conversationTo[c := clients[i]];
          conversationSeen := conversationSeen[c := now];
          return true;
        }
        assert clients[i..][1..] == clients[i + 1..];
      }
      known := false;
    }

    method RemoveAccount(raw: string) returns (found: bool)
      modifies this
      ensures found <==> TrimSpace(raw) in old(clients)
      ensures View() == if found then Remove(old(View()), TrimSpace(raw)) else old(View())
    {
      var a := TrimSpace(raw);
      found := a in clients;
      if !found {
        return;
      }
      stayByID := stayByID - {a};
      var rest: seq<Account> := [];
      for i := 0 to |clients|
        invariant rest == Without(clients[..i], a) && clients == old(clients)
        invariant View() == old(View()).(stay := old(stayByID) - {a})
      {
        assert clients[..i + 1][..i] == clients[..i];
        if clients[i] != a {
          rest := rest + [clients[i]];
        }
      }
      assert clients[..|clients|] == clients;
      clients := rest;
      if activeIndex >= |clients| {
        activeIndex := -1;
      }
      conversationTo := map c | c in conversationTo && conversationTo[c] != a :: conversationTo[c];
    }

    /** The first critical section of AddAccount. */
    method CheckAccount(a: Account) returns (free: bool)
      ensures free <==> a !in clients
    {
      free := a !in clients;
    }

    /** Its second. The client is made in between, the lock given up. */
    method InsertAccount(a: Account, stay: int)
      modifies this`clients, this`stayByID
      ensures View() == Insert(old(View()), a, stay)
    {
      clients := clients + [a];
      stayByID := stayByID[a := stay];
    }

    /** AddAccount when no other call comes in between. */
    method AddAccount(raw: string, secure1PSID: string, stay: int) returns (added: bool)
      modifies this`clients, this`stayByID
      ensures added <==> TrimSpace(raw) != "" && secure1PSID != "" && TrimSpace(raw) !in old(clients)
      ensures View() == if added then Insert(old(View()), TrimSpace(raw), stay) else old(View())
      ensures Unique(old(clients)) ==> Unique(clients)
    {
      var a := TrimSpace(raw);
      if a == "" || secure1PSID == "" {
        return false;
      }
      added := CheckAccount(a);
      if added {
        InsertAccount(a, stay);
      }
    }
  }

  lemma MinusTwice<K, V>(m: map<K, V>, gone: set<K>, k: K)
    ensures m - gone - {k} == m - (gone + {k})
  {
  }

  // ---- Fair rotation ----

  /** The healthy positions below n, in order. */
  function HealthyBelow(clients: seq<Account>, healthy: set<Account>, n: nat): (hs: seq<nat>)
    requires n <= |clients|
    ensures forall i :: 0 <= i < |hs| ==> hs[i] < n && clients[hs[i]] in healthy
    ensures forall i, j :: 0 <= i < j < |hs| ==> hs[i] < hs[j]
    ensures forall k :: 0 <= k < n && clients[k] in healthy ==> k in hs
  {
    if n == 0 then []
    else HealthyBelow(clients, healthy, n - 1) + (if clients[n - 1] in healthy then [n - 1] else [])
  }

  function Round(clients: seq<Account>, healthy: set<Account>): seq<nat> {
    HealthyBelow(clients, healthy, |clients|)
  }

  lemma {:induction false} FirstFromIs(clients: seq<Account>, healthy: set<Account>, start: int, i: nat)
    requires clients != [] && -1 <= start < |clients| && i <= |clients|
    ensures var idx := FirstFrom(clients, healthy, start, i);
      if idx < 0 then forall k :: i <= k < |clients| ==> clients[Turn(|clients|, start, k)] !in healthy
      else exists k :: i <= k < |clients| && idx == Turn(|clients|, start, k) && clients[idx] in healthy
             && forall l :: i <= l < k ==> clients[Turn(|clients|, start, l)] !in healthy
    decreases |clients| - i
  {
    if i < |clients| && clients[Turn(|clients|, start, i)] !in healthy {
      FirstFromIs(clients, healthy, start, i + 1);
    }
  }

  /** How far round from start position k lies. */
  function Steps(n: nat, start: int, k: nat): (i: nat)
    requires n > 0 && -1 <= start < n && k < n
    ensures i < n && Turn(n, start, i) == k
    ensures k > start ==> i == k - start - 1
    ensures k <= start ==> i == k - start - 1 + n
  {
    if k > start then k - start - 1 else k - start - 1 + n
  }

  /** Selection takes the next healthy position after start, or the first one of all. */
  lemma {:induction false} NextHealthy(clients: seq<Account>, healthy: set<Account>, start: int)
    requires clients != [] && -1 <= start < |clients|
    ensures var idx := FirstFrom(clients, healthy, start, 0);
      && (idx < 0 ==> forall k :: 0 <= k < |clients| ==> clients[k] !in healthy)
      && (idx >= 0 ==> clients[idx] in healthy)
      && (idx > start ==> forall k :: start < k < idx ==> clients[k] !in healthy)
      && (0 <= idx <= start ==> forall k :: start < k < |clients| || 0 <= k < idx ==> clients[k] !in healthy)
  {
    FirstFromIs(clients, healthy, start, 0);
    var n := |clients|;
    var idx := FirstFrom(clients, healthy, start, 0);
    forall k | 0 <= k < n && (idx < 0 || Steps(n, start, k) < Steps(n, start, idx)) ensures clients[k] !in healthy {
      assert Turn(n, start, Steps(n, start, k)) == k;
    }
    assert forall k :: 0 <= k < n && idx >= 0 && clients[k] in healthy ==> Steps(n, start, k) >= Steps(n, start, idx);
  }

  lemma {:induction false} RoundStep(clients: seq<Account>, healthy: set<Account>, r: nat)
    requires clients != []
    requires r < |Round(clients, healthy)|
    ensures var hs := Round(clients, healthy);
      FirstFrom(clients, healthy, hs[r], 0) == hs[if r + 1 < |hs| then r + 1 else 0]
  {
    var hs := Round(clients, healthy);
    var next := if r + 1 < |hs| then r + 1 else 0;
    NextHealthy(clients, healthy, hs[r]);
    var idx := FirstFrom(clients, healthy, hs[r], 0);
    assert clients[hs[next]] in healthy;
    assert idx in hs;
    var q :| 0 <= q < |hs| && hs[q] == idx;
    if hs[next] > hs[r] {
      assert idx > hs[r] && idx <= hs[next];
      Ascending(hs, r, q);
      Ascending(hs, q, next);
    } else {
      Ascending(hs, r, |hs| - 1);
      Ascending(hs, 0, q);
      assert forall k :: hs[r] < k < |clients| ==> clients[k] !in healthy by {
        assert forall k :: hs[r] < k < |clients| ==> k !in hs;
      }
      assert idx <= hs[r];
    }
  }

  lemma Ascending(hs: seq<nat>, i: nat, j: nat)
    requires forall i, j :: 0 <= i < j < |hs| ==> hs[i] < hs[j]
    requires i < |hs| && j < |hs|
    ensures i < j <==> hs[i] < hs[j]
    ensures i == j <==> hs[i] == hs[j]
  {
    if j < i {
      assert hs[j] < hs[i];
    }
  }

  lemma Distinct(hs: seq<nat>, i: nat, j: nat)
    requires forall i, j :: 0 <= i < j < |hs| ==> hs[i] < hs[j]
    requires i < |hs| && j < |hs|
    ensures i == j <==> hs[i] == hs[j]
  {
    Ascending(hs, i, j);
  }

  /** Calls of selectActive with a fixed set of accounts and healthy ones. */
  ghost predicate Selections(times: seq<int>, states: seq<Pool>, healthy: set<Account>) {
    && |states| == |times| + 1
    && (forall i :: 0 <= i < |states| ==> -1 <= states[i].active < |states[i].clients|)
    && forall i :: 0 <= i < |times| ==> states[i + 1] == Select(states[i], times[i], false, healthy).1
  }

  /** How many of the first n calls found the window over. */
  ghost function Expiries(times: seq<int>, states: seq<Pool>, healthy: set<Account>, n: nat): nat
    requires n <= |times| && |states| == |times| + 1
  {
    if n == 0 then 0
    else Expiries(times, states, healthy, n - 1) + (if Expired(states[n - 1], times[n - 1], healthy) then 1 else 0)
  }

  /** x modulo m. */
  ghost function Wrap(m: nat, x: nat): (r: nat)
    requires m > 0
    ensures r < m
  {
    if x < m then x else Wrap(m, x - m)
  }

  ghost predicate RankIs(hs: seq<nat>, idx: int, first: nat, turns: nat)
    requires |hs| > 0
  {
    idx == hs[Wrap(|hs|, first + turns)]
  }

  lemma {:induction false} NextRank(m: nat, x: nat)
    requires m > 0
    ensures Wrap(m, x + 1) == if Wrap(m, x) + 1 < m then Wrap(m, x) + 1 else 0
  {
    if x < m {
    } else {
      NextRank(m, x - m);
    }
  }

  /** Where the active position is after k expiries, from start. */
  ghost predicate Placed(hs: seq<nat>, start: int, active: int, first: nat, k: nat) {
    |hs| > 0 && (if k == 0 then active == start else RankIs(hs, active, first, k - 1))
  }

  /** After the k-th expiry the active account is k - 1 places further round the healthy
      ones than the first choice, however many calls fell inside the windows. */
  lemma {:induction false} ActiveAfter(times: seq<int>, states: seq<Pool>, healthy: set<Account>, first: nat, n: nat)
    requires Selections(times, states, healthy) && n <= |times|
    requires states[0].clients != [] && first < |Round(states[0].clients, healthy)|
    requires FirstFrom(states[0].clients, healthy, states[0].active, 0) == Round(states[0].clients, healthy)[first]
    ensures states[n].clients == states[0].clients
    ensures Placed(Round(states[0].clients, healthy), states[0].active, states[n].active, first,
                   Expiries(times, states, healthy, n))
  {
    assert |states| == |times| + 1;
    hide Placed, Round, FirstFrom, Select, Selections, Expired, Expiries;
    if n == 0 {
      NoSelectionYet(times, states, healthy, first);
    } else {
      ActiveAfter(times, states, healthy, first, n - 1);
      SelectionAt(times, states, healthy, n);
      PlacedNext(states[n - 1], times[n - 1], healthy, states[0].active, first,
                 Expiries(times, states, healthy, n - 1));
    }
  }

  lemma {:induction false} NoSelectionYet(times: seq<int>, states: seq<Pool>, healthy: set<Account>, first: nat)
    requires Selections(times, states, healthy) && |Round(states[0].clients, healthy)| > 0
    ensures Expiries(times, states, healthy, 0) == 0
    ensures Placed(Round(states[0].clients, healthy), states[0].active, states[0].active, first, 0)
  {
    hide Round;
  }

  lemma SelectionAt(times: seq<int>, states: seq<Pool>, healthy: set<Account>, n: nat)
    requires Selections(times, states, healthy) && 1 <= n <= |times|
    ensures -1 <= states[0].active < |states[0].clients| && -1 <= states[n - 1].active < |states[n - 1].clients|
    ensures states[n] == Select(states[n - 1], times[n - 1], false, healthy).1
    ensures Expiries(times, states, healthy, n)
         == var k := Expiries(times, states, healthy, n - 1);
            if Expired(states[n - 1], times[n - 1], healthy) then k + 1 else k
  {
  }

  lemma {:induction false} PlacedNext(p: Pool, now: int, healthy: set<Account>, start: int, first: nat, k: nat)
    requires -1 <= p.active < |p.clients| && p.clients != [] && -1 <= start < |p.clients|
    requires first < |Round(p.clients, healthy)|
    requires FirstFrom(p.clients, healthy, start, 0) == Round(p.clients, healthy)[first]
    requires Placed(Round(p.clients, healthy), start, p.active, first, k)
    ensures Select(p, now, false, healthy).1.clients == p.clients
    ensures Placed(Round(p.clients, healthy), start, Select(p, now, false, healthy).1.active, first,
                   if Expired(p, now, healthy) then k + 1 else k)
  {
    hide Round, RankIs, FirstFrom, Select;
    SelectMoves(p, now, healthy);
    if Expired(p, now, healthy) && k > 0 {
      RankMoves(p.clients, healthy, p.active, first, k - 1);
    } else if k == 0 {
      FirstRank(Round(p.clients, healthy), first);
    }
  }

  lemma {:induction false} SelectMoves(p: Pool, now: int, healthy: set<Account>)
    requires -1 <= p.active < |p.clients| && p.clients != []
    ensures var next := Select(p, now, false, healthy).1;
      && next.clients == p.clients
      && (!Expired(p, now, healthy) ==> next.active == p.active)
      && (Expired(p, now, healthy) && FirstFrom(p.clients, healthy, p.active, 0) >= 0 ==>
            next.active == FirstFrom(p.clients, healthy, p.active, 0))
  {
  }

  lemma {:induction false} RankMoves(clients: seq<Account>, healthy: set<Account>, active: int, first: nat, turns: nat)
    requires clients != [] && Round(clients, healthy) != [] && RankIs(Round(clients, healthy), active, first, turns)
    ensures RankIs(Round(clients, healthy), FirstFrom(clients, healthy, active, 0), first, turns + 1)
    ensures FirstFrom(clients, healthy, active, 0) >= 0
  {
    var hs := Round(clients, healthy);
    RoundStep(clients, healthy, Wrap(|hs|, first + turns));
    NextRank(|hs|, first + turns);
  }

  lemma FirstRank(hs: seq<nat>, first: nat)
    requires first < |hs|
    ensures RankIs(hs, hs[first], first, 0)
  {
  }

  ghost predicate Meets(m: nat, first: nat, q: nat, j: nat)
    requires m > 0
  {
    j < m && Wrap(m, first + j) == q
  }

  lemma EachRankOnce(m: nat, first: nat, q: nat) returns (j: nat)
    requires q < m && first < m
    ensures Meets(m, first, q, j)
    ensures forall i :: Meets(m, first, q, i) ==> i == j
  {
    j := if q >= first then q - first else q - first + m;
    WrapOnce(m, first + j);
    forall i | Meets(m, first, q, i) ensures i == j {
      WrapOnce(m, first + i);
    }
  }

  lemma {:induction false} WrapOnce(m: nat, x: nat)
    requires m > 0 && x < 2 * m
    ensures Wrap(m, x) == if x < m then x else x - m
  {
  }

  /** The position selected by the k-th expiry of a run, counted from 1. */
  ghost predicate SelectedBy(times: seq<int>, states: seq<Pool>, healthy: set<Account>, k: nat, n: nat)
    requires |states| == |times| + 1
  {
    1 <= n <= |times| && Expired(states[n - 1], times[n - 1], healthy) && Expiries(times, states, healthy, n) == k
  }

  /** Fairness: among the first |H| expiries, from any start, each healthy account is
      selected exactly once, in cyclic order. */
  lemma RotationIsFair(times: seq<int>, states: seq<Pool>, healthy: set<Account>, idx: nat) returns (turn: nat)
    requires Selections(times, states, healthy) && states[0].clients != []
    requires idx < |states[0].clients| && states[0].clients[idx] in healthy
    ensures 1 <= turn <= |Round(states[0].clients, healthy)|
    ensures forall k: nat, n: nat ::
              SelectedBy(times, states, healthy, k, n) && 1 <= k <= |Round(states[0].clients, healthy)| ==>
                (states[n].active == idx <==> k == turn)
  {
    var hs := Round(states[0].clients, healthy);
    assert idx in hs;
    var q :| 0 <= q < |hs| && hs[q] == idx;
    NextHealthy(states[0].clients, healthy, states[0].active);
    var chosen := FirstFrom(states[0].clients, healthy, states[0].active, 0);
    assert chosen in hs;
    var first :| 0 <= first < |hs| && hs[first] == chosen;
    var j := EachRankOnce(|hs|, first, q);
    turn := j + 1;
    hide Selections, FirstFrom, Round, SelectedBy, Meets;
    forall k: nat, n: nat | SelectedBy(times, states, healthy, k, n) && 1 <= k <= |hs|
      ensures states[n].active == idx <==> k == turn
    {
      TurnDecides(times, states, healthy, first, n, k, q, j);
    }
  }

  lemma {:induction false} TurnDecides(times: seq<int>, states: seq<Pool>, healthy: set<Account>, first: nat, n: nat,
                                       k: nat, q: nat, j: nat)
    requires Selections(times, states, healthy) && states[0].clients != []
    requires first < |Round(states[0].clients, healthy)| && q < |Round(states[0].clients, healthy)|
    requires FirstFrom(states[0].clients, healthy, states[0].active, 0) == Round(states[0].clients, healthy)[first]
    requires SelectedBy(times, states, healthy, k, n) && 1 <= k <= |Round(states[0].clients, healthy)|
    requires Meets(|Round(states[0].clients, healthy)|, first, q, j)
    requires forall i :: Meets(|Round(states[0].clients, healthy)|, first, q, i) ==> i == j
    ensures states[n].active == Round(states[0].clients, healthy)[q] <==> k == j + 1
  {
    assert |states| == |times| + 1;
    hide Selections, FirstFrom, Expired, Expiries, Wrap, Meets;
    var hs := Round(states[0].clients, healthy);
    ActiveAfter(times, states, healthy, first, n);
    var rank := Wrap(|hs|, first + (k - 1));
    assert Meets(|hs|, first, rank, k - 1);
    Distinct(hs, rank, q);
  }

  // ---- Affinity ----

  datatype Op =
    | Request(c: Id, healthy: set<Account>, recovered: set<Account>)
    | Ask(c: Id, healthy: set<Account>, knowing: set<Account>)
    | InsertOp(a: Account, stay: int)
    | RemoveOp(a: Account)
    | Rotate(force: bool, healthy: set<Account>)
    | Restore(active: int, until: int)

  ghost predicate Step(p: Pool, op: Op, now: int, next: Pool) {
    -1 <= p.active < |p.clients| &&
    match op
    case Request(c, healthy, recovered) => next == Serve(p, c, now, healthy, recovered).1
    case Ask(c, healthy, knowing) => next == Asked(p, c, now, healthy, knowing)
    case InsertOp(a, stay) => next == Insert(p, a, stay)
    case RemoveOp(a) => next == if a in p.clients then Remove(p, a) else p
    case Rotate(force, healthy) => next == Select(p, now, force, healthy).1
    case Restore(active, until) => 0 <= active < |p.clients| && next == p.(active := active, until := until)
  }

  ghost predicate Run(ops: seq<Op>, times: seq<int>, states: seq<Pool>) {
    && |times| == |ops| && |states| == |ops| + 1
    && forall i :: 0 <= i < |ops| ==> Step(states[i], ops[i], times[i], states[i + 1])
  }

  lemma {:induction false} WithoutIs(clients: seq<Account>, a: Account)
    ensures forall x :: x in Without(clients, a) <==> x in clients && x != a
    ensures Unique(clients) ==> Unique(Without(clients, a))
  {
    if clients == [] {
    } else {
      var n := |clients| - 1;
      WithoutIs(clients[..n], a);
      assert forall x :: x in clients <==> x in clients[..n] || x == clients[n];
      if Unique(clients) {
        assert clients[n] !in clients[..n];
      }
    }
  }

  lemma {:induction false} OwnerIsClient(clients: seq<Account>, knowing: set<Account>)
    ensures var o := Owner(clients, knowing); o.Some? ==> o.value in clients && o.value in knowing
  {
    if clients != [] && clients[0] !in knowing {
      OwnerIsClient(clients[1..], knowing);
    }
  }

  lemma SelectKeeps(p: Pool, now: int, force: bool, healthy: set<Account>)
    requires Inv(p)
    ensures var (served, next) := Select(p, now, force, healthy);
      && Inv(next) && next.clients == p.clients && next.boundTo == p.boundTo && next.seen == p.seen
      && (served.By? ==> served.account in p.clients)
  {
  }

  lemma RecoverKeeps(p: Pool, now: int, healthy: set<Account>, recovered: set<Account>)
    requires Inv(p)
    ensures var (served, next) := SelectOrRecover(p, now, healthy, recovered);
      && Inv(next) && next.clients == p.clients && next.boundTo == p.boundTo && next.seen == p.seen
      && (served.By? ==> served.account in p.clients)
  {
    SelectKeeps(p, now, false, healthy);
    SelectKeeps(p, now, false, recovered);
    hide Select, Inv;
  }

  lemma UnbindKeeps(p: Pool, d: Id)
    requires Inv(p)
    ensures Inv(Unbind(p, d))
  {
  }

  lemma BindKeeps(p: Pool, c: Id, a: Account, now: int)
    requires Inv(p) && c != NoId && a in p.clients
    ensures Inv(Prune(Bind(p, c, a, now), now))
  {
  }

  lemma InvServe(p: Pool, c: Id, now: int, healthy: set<Account>, recovered: set<Account>)
    requires Inv(p)
    ensures Inv(Serve(p, c, now, healthy, recovered).1)
  {
    if c == NoId || !Usable(p, c, healthy) {
      var free := if c != NoId && c in p.boundTo then Unbind(p, c) else p;
      UnbindKeeps(p, c);
      hide Inv, Select, SelectOrRecover, Bind, Prune, Unbind;
      RecoverKeeps(free, now, healthy, recovered);
      var (served, next) := SelectOrRecover(free, now, healthy, recovered);
      if served.By? && c != NoId {
        BindKeeps(next, c, served.account, now);
      }
    }
  }

  lemma InvStep(p: Pool, op: Op, now: int, next: Pool)
    requires Inv(p) && Step(p, op, now, next)
    ensures Inv(next)
  {
    match op {
      case Request(c, healthy, recovered) => InvServe(p, c, now, healthy, recovered);
      case Ask(c, healthy, knowing) => OwnerIsClient(p.clients, knowing * healthy);
      case InsertOp(a, stay) =>
      case RemoveOp(a) => WithoutIs(p.clients, a);
      case Rotate(force, healthy) => SelectKeeps(p, now, force, healthy);
      case Restore(active, until) =>
    }
  }

  /** Every reachable pool: bindings have a time and name a present account, and the
      active position, if any, exists. */
  lemma {:induction false} ReachablePool(ops: seq<Op>, times: seq<int>, states: seq<Pool>, i: nat)
    requires Run(ops, times, states) && states[0] == Pool([], map[], -1, 0, map[], map[]) && i < |states|
    ensures Inv(states[i])
  {
    if i == 0 {
    } else {
      ReachablePool(ops, times, states, i - 1);
      InvStep(states[i - 1], ops[i - 1], times[i - 1], states[i]);
    }
  }

  /** The operation leaves account a where it is, healthy, while c may depend on it. */
  predicate Spares(op: Op, c: Id, a: Account) {
    match op
    case Request(d, healthy, _) => d == c ==> a in healthy
    case Ask(d, healthy, _) => d == c ==> a in healthy
    case RemoveOp(b) => b != a
    case _ => true
  }

  lemma BindKeepsOthers(p: Pool, d: Id, a: Account, now: int, c: Id)
    requires c != d && c in p.boundTo && c in p.seen && now - p.seen[c] <= CONVERSATION_BINDING_TTL
    ensures var next := Prune(Bind(p, d, a, now), now); c in next.boundTo && next.boundTo[c] == p.boundTo[c]
  {
  }

  lemma OtherServed(p: Pool, d: Id, now: int, healthy: set<Account>, recovered: set<Account>, c: Id)
    requires Inv(p) && c != d && c in p.boundTo && now - p.seen[c] <= CONVERSATION_BINDING_TTL
    ensures var next := Serve(p, d, now, healthy, recovered).1; c in next.boundTo && next.boundTo[c] == p.boundTo[c]
  {
    var free := if d != NoId && d in p.boundTo then Unbind(p, d) else p;
    UnbindKeeps(p, d);
    assert c in free.boundTo && c in free.seen && free.boundTo[c] == p.boundTo[c] && free.seen[c] == p.seen[c];
    hide Inv, Select, SelectOrRecover, Bind, Prune, Unbind;
    RecoverKeeps(free, now, healthy, recovered);
    var (served, next) := SelectOrRecover(free, now, healthy, recovered);
    if served.By? {
      BindKeepsOthers(next, d, served.account, now, c);
    }
  }

  lemma BindingKept(p: Pool, op: Op, now: int, next: Pool, c: Id, a: Account)
    requires Inv(p) && Step(p, op, now, next) && Spares(op, c, a) && c != NoId
    requires c in p.boundTo && p.boundTo[c] == a && now - p.seen[c] <= CONVERSATION_BINDING_TTL
    ensures c in next.boundTo && next.boundTo[c] == a
    ensures op.Request? && op.c == c ==> Serve(p, c, now, op.healthy, op.recovered).0 == By(a)
  {
    match op {
      case Request(d, healthy, recovered) =>
        if d != c {
          OtherServed(p, d, now, healthy, recovered, c);
        }
      case RemoveOp(b) => WithoutIs(p.clients, b);
      case Rotate(force, healthy) => SelectKeeps(p, now, force, healthy);
      case _ =>
    }
  }

  /** A bound conversation that is used often enough keeps its account, and is served by
      it, through any rotations, additions and removals of others, as long as that
      account is present and healthy. */
  lemma {:induction false} AffinityHolds(ops: seq<Op>, times: seq<int>, states: seq<Pool>, c: Id, a: Account, i: nat,
                                         j: nat)
    requires Run(ops, times, states) && Inv(states[0]) && i <= j < |states| && c != NoId
    requires c in states[i].boundTo && states[i].boundTo[c] == a
    requires forall k :: i <= k < j ==> Spares(ops[k], c, a)
    requires forall k :: i <= k < j && c in states[k].seen ==> times[k] - states[k].seen[c] <= CONVERSATION_BINDING_TTL
    ensures Inv(states[j]) && c in states[j].boundTo && states[j].boundTo[c] == a
    ensures forall k :: i <= k < j && ops[k].Request? && ops[k].c == c ==>
              Inv(states[k]) && Serve(states[k], c, times[k], ops[k].healthy, ops[k].recovered).0 == By(a)
  {
    hide Inv, Step, Spares, Serve;
    InvReached(ops, times, states, j);
    if i >= j {
    } else {
      InvReached(ops, times, states, j - 1);
      assert states[j - 1].boundTo.Keys <= states[j - 1].seen.Keys by {
        BoundIsSeen(states[j - 1]);
      }
      AffinityHolds(ops, times, states, c, a, i, j - 1);
      BindingKept(states[j - 1], ops[j - 1], times[j - 1], states[j], c, a);
    }
  }

  lemma BoundIsSeen(p: Pool)
    requires Inv(p)
    ensures p.boundTo.Keys <= p.seen.Keys
  {
  }

  lemma {:induction false} InvReached(ops: seq<Op>, times: seq<int>, states: seq<Pool>, i: nat)
    requires Run(ops, times, states) && Inv(states[0]) && i < |states|
    ensures Inv(states[i])
  {
    if i == 0 {
    } else {
      InvReached(ops, times, states, i - 1);
      InvStep(states[i - 1], ops[i - 1], times[i - 1], states[i]);
    }
  }

  // ---- Adding an account takes two critical sections ----

  /** What a step does to the list of accounts. */
  lemma StepAccounts(p: Pool, op: Op, now: int, next: Pool)
    requires Inv(p) && Step(p, op, now, next)
    ensures op.InsertOp? ==> next.clients == p.clients + [op.a]
    ensures op.RemoveOp? ==> next.clients == Without(p.clients, op.a)
    ensures !op.InsertOp? && !op.RemoveOp? ==> next.clients == p.clients
  {
    match op {
      case Request(c, healthy, recovered) => ServedAccounts(p, c, now, healthy, recovered);
      case RemoveOp(a) =>
        if a !in p.clients {
          NoneWithout(p.clients, a);
        }
      case Rotate(force, healthy) => SelectKeeps(p, now, force, healthy);
      case _ =>
    }
  }

  lemma ServedAccounts(p: Pool, c: Id, now: int, healthy: set<Account>, recovered: set<Account>)
    requires Inv(p)
    ensures Serve(p, c, now, healthy, recovered).1.clients == p.clients
  {
    hide Inv, Select, SelectOrRecover;
    var free := if c != NoId && c in p.boundTo then Unbind(p, c) else p;
    UnbindKeeps(p, c);
    RecoverKeeps(free, now, healthy, recovered);
  }

  lemma StepUnique(p: Pool, op: Op, now: int, next: Pool)
    requires Inv(p) && Step(p, op, now, next) && Unique(p.clients)
    ensures Unique(next.clients) <==> (op.InsertOp? ==> op.a !in p.clients)
  {
    StepAccounts(p, op, now, next);
    hide Inv, Step;
    if op.RemoveOp? {
      WithoutIs(p.clients, op.a);
    } else if op.InsertOp? {
      var n := |p.clients|;
      assert next.clients[n] == op.a && next.clients[..n] == p.clients;
      if i :| 0 <= i < n && p.clients[i] == op.a {
        assert next.clients[i] == next.clients[n];
      }
    }
  }

  /** Every insertion of the first n operations finds its id absent. */
  ghost predicate InsertsFresh(ops: seq<Op>, states: seq<Pool>, n: nat)
    requires n <= |ops| < |states|
  {
    forall i :: 0 <= i < n && ops[i].InsertOp? ==> ops[i].a !in states[i].clients
  }

  /** The ids stay unique exactly as long as every insertion still finds its id absent. */
  lemma {:induction false} UniqueIff(ops: seq<Op>, times: seq<int>, states: seq<Pool>, n: nat)
    requires Run(ops, times, states) && Inv(states[0]) && Unique(states[0].clients) && n <= |ops|
    ensures (forall i :: 0 <= i <= n ==> Unique(states[i].clients)) <==> InsertsFresh(ops, states, n)
  {
    hide Inv, Step, Unique;
    if n == 0 {
    } else {
      UniqueIff(ops, times, states, n - 1);
      InvReached(ops, times, states, n - 1);
      if InsertsFresh(ops, states, n - 1) {
        StepUnique(states[n - 1], ops[n - 1], times[n - 1], states[n]);
      }
    }
  }

  /** The insertion at i checked its id at some k, and no one else inserted that id since. */
  ghost predicate Undisputed(ops: seq<Op>, states: seq<Pool>, i: nat)
    requires i < |ops| < |states| && ops[i].InsertOp?
  {
    exists k :: 0 <= k <= i && ops[i].a !in states[k].clients
      && forall m :: k <= m < i && ops[m].InsertOp? ==> ops[m].a != ops[i].a
  }

  lemma {:induction false} StaysAbsent(ops: seq<Op>, times: seq<int>, states: seq<Pool>, a: Account, k: nat, i: nat)
    requires Run(ops, times, states) && Inv(states[0]) && k <= i <= |ops| && a !in states[k].clients
    requires forall m :: k <= m < i && ops[m].InsertOp? ==> ops[m].a != a
    ensures a !in states[i].clients
  {
    hide Inv, Step;
    if k == i {
    } else {
      StaysAbsent(ops, times, states, a, k, i - 1);
      InvReached(ops, times, states, i - 1);
      StepAccounts(states[i - 1], ops[i - 1], times[i - 1], states[i]);
      if ops[i - 1].RemoveOp? {
        WithoutIs(states[i - 1].clients, ops[i - 1].a);
      }
    }
  }

  /** When no two additions of one id overlap, ids stay unique through any run. */
  lemma AddsApartStayUnique(ops: seq<Op>, times: seq<int>, states: seq<Pool>)
    requires Run(ops, times, states) && Inv(states[0]) && Unique(states[0].clients)
    requires forall i :: 0 <= i < |ops| && ops[i].InsertOp? ==> Undisputed(ops, states, i)
    ensures forall i :: 0 <= i < |states| ==> Unique(states[i].clients)
  {
    hide Inv, Step, Unique;
    forall i | 0 <= i < |ops| && ops[i].InsertOp?
      ensures ops[i].a !in states[i].clients
    {
      assert Undisputed(ops, states, i);
      var k :| 0 <= k <= i && ops[i].a !in states[k].clients
        && forall m :: k <= m < i && ops[m].InsertOp? ==> ops[m].a != ops[i].a;
      StaysAbsent(ops, times, states, ops[i].a, k, i);
    }
    UniqueIff(ops, times, states, |ops|);
  }

  /** Two overlapping additions of one id, both of which found it absent, leave it in the
      list twice; one removal then takes both away. */
  lemma OverlappingAdds(p: Pool, a: Account, stay: int, other: int)
    requires Unique(p.clients) && a !in p.clients
    ensures var next := Insert(Insert(p, a, stay), a, other);
      !Unique(next.clients) && Remove(next, a).clients == p.clients
  {
    var next := Insert(Insert(p, a, stay), a, other);
    var n := |p.clients|;
    assert next.clients[n] == next.clients[n + 1] == a;
    NoneWithout(p.clients, a);
    WithoutLast(p.clients, a);
    WithoutLast(p.clients + [a], a);
  }

  lemma {:induction false} WithoutLast(clients: seq<Account>, a: Account)
    ensures Without(clients + [a], a) == Without(clients, a)
  {
    assert (clients + [a])[..|clients|] == clients;
  }

  // ---- What removing an account does to the active one ----

  lemma SpliceEnd<T>(s: seq<T>, k: nat)
    requires k < |s| - 1
    ensures var front := s[..|s| - 1]; front[..k] + front[k + 1..] + [s[|s| - 1]] == s[..k] + s[k + 1..]
  {
  }

  lemma {:induction false} WithoutAt(clients: seq<Account>, a: Account, k: nat)
    requires Unique(clients) && k < |clients| && clients[k] == a
    ensures Without(clients, a) == clients[..k] + clients[k + 1..]
  {
    var n := |clients| - 1;
    if k < n {
      assert clients[n] != a;
      WithoutAt(clients[..n], a, k);
      SpliceEnd(clients, k);
    } else {
      NoneWithout(clients[..n], a);
      assert clients[..k] + clients[k + 1..] == clients[..n];
    }
  }

  lemma {:induction false} NoneWithout(clients: seq<Account>, a: Account)
    requires a !in clients
    ensures Without(clients, a) == clients
  {
    if clients == [] {
    } else {
      NoneWithout(clients[..|clients| - 1], a);
    }
  }

  /** Removing another account keeps the same account active exactly when the active one
      stands before it; otherwise the active position passes to the next account, or to
      none. */
  lemma RemovalShiftsActive(p: Pool, k: nat)
    requires Inv(p) && Unique(p.clients) && k < |p.clients| && 0 <= p.active && p.active != k
    ensures var next := Remove(p, p.clients[k]);
      (0 <= next.active && next.clients[next.active] == p.clients[p.active]) <==> p.active < k
  {
    WithoutAt(p.clients, p.clients[k], k);
  }
}
