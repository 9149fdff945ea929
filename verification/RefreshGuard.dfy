/** The guard that lets one session refresh run per account (gemini_client_pool.go):
    pool start, manual, background and external refresh, and the validation of staged
    cookies, interleaved in any way. */
module RefreshGuard {
  import opened Text

  /** clientByID: a blank id means the only account there is. */
  ghost predicate Resolves(accounts: set<string>, raw: string, account: string) {
    && account in accounts
    && if TrimSpace(raw) == "" && |accounts| == 1 then true else account == TrimSpace(raw)
  }

  /** Account ids are trimmed when accounts are made. */
  ghost predicate Ids(accounts: set<string>) {
    forall a :: a in accounts ==> a != "" && TrimSpace(a) == a
  }

  datatype Kind = PoolStart | Manual | Background | External

  /** A refresh under way: for which account, and the key it holds the guard under. */
  datatype Task = Task(account: string, key: string)

  datatype State = State(refreshing: set<string>, inside: map<nat, Task>)

  const IDLE: State := State({}, map[])

  /** StageFails is a cookie update turned down before validation. Every task but a
      cookie update takes the guard under the account's own id. */
  datatype Action =
    | Begin(task: nat, kind: Kind, account: string)
    | BeginCookies(task: nat, raw: string, account: string)
    | StageFails(task: nat)
    | Finish(task: nat)

  function Enter(s: State, task: nat, account: string, key: string): State {
    if key in s.refreshing then s
    else State(s.refreshing + {key}, s.inside[task := Task(account, key)])
  }

  /** A refresh is over and gives back key. */
  function Leave(s: State, task: nat, key: string): State {
    State(s.refreshing - {key}, s.inside - {task})
  }

  /** The guard itself; the accounts refreshed are known to the refreshes only. */
  class Guard {
    var refreshing: set<string>
    ghost var inside: map<nat, Task>

    ghost function View(): State
      reads this
    {
      State(refreshing, inside)
    }

    constructor ()
      ensures View() == IDLE
    {
      refreshing := {};
      inside := map[];
    }

    /** beginAccountRefresh, in one critical section. */
    method Begin(key: string, ghost task: nat, ghost account: string) returns (ok: bool)
      modifies this
      ensures ok <==> key !in old(refreshing)
      ensures View() == Enter(old(View()), task, account, key)
    {
      if key in refreshing {
        return false;
      }
      refreshing := refreshing + {key};
      inside := inside[task := Task(account, key)];
      ok := true;
    }

    /** endAccountRefresh. */
    method End(key: string, ghost task: nat)
      modifies this
      ensures View() == Leave(old(View()), task, key)
    {
      refreshing := refreshing - {key};
      inside := inside - {task};
    }
  }

  ghost predicate Step(accounts: set<string>, s: State, a: Action, next: State) {
    match a
    case Begin(t, _, account) => t !in s.inside && account in accounts && next == Enter(s, t, account, account)
    case BeginCookies(t, raw, account) =>
      t !in s.inside && Resolves(accounts, raw, account) && next == Enter(s, t, account, raw)
    case StageFails(t) =>
      t in s.inside && next == Leave(s, t, s.inside[t].key)
    case Finish(t) =>
      t in s.inside && next == Leave(s, t, s.inside[t].account)
  }

  ghost predicate Run(accounts: set<string>, actions: seq<Action>, states: seq<State>) {
    && |states| == |actions| + 1
    && forall i :: 0 <= i < |actions| ==> Step(accounts, states[i], actions[i], states[i + 1])
  }

  /** At most one task per account, and the flag is set exactly while there is one. */
  ghost predicate SingleFlight(s: State) {
    && (forall t, u :: t in s.inside && u in s.inside && s.inside[t].account == s.inside[u].account ==> t == u)
    && (forall a :: a in s.refreshing <==> exists t :: t in s.inside && s.inside[t].account == a)
  }

  ghost predicate Keyed(s: State) {
    forall t :: t in s.inside ==> s.inside[t].key == s.inside[t].account
  }

  lemma StepKeeps(accounts: set<string>, s: State, a: Action, next: State)
    requires SingleFlight(s) && Keyed(s) && Step(accounts, s, a, next)
    requires a.BeginCookies? ==> a.raw == a.account
    ensures SingleFlight(next) && Keyed(next)
  {
    if a.Begin? || a.BeginCookies? {
      if a.account !in s.refreshing {
        EnterKeeps(s, a.task, a.account);
      }
    } else {
      LeaveKeeps(s, a.task);
    }
  }

  lemma EnterKeeps(s: State, task: nat, account: string)
    requires SingleFlight(s) && Keyed(s) && task !in s.inside && account !in s.refreshing
    ensures SingleFlight(Enter(s, task, account, account)) && Keyed(Enter(s, task, account, account))
  {
    var next := Enter(s, task, account, account);
    forall a ensures a in next.refreshing <==> exists t :: t in next.inside && next.inside[t].account == a {
      if a == account {
        assert next.inside[task].account == a;
      } else if a in s.refreshing {
        var t :| t in s.inside && s.inside[t].account == a;
        assert t in next.inside && next.inside[t].account == a;
      }
    }
  }

  lemma LeaveKeeps(s: State, task: nat)
    requires SingleFlight(s) && Keyed(s) && task in s.inside
    ensures var next := Leave(s, task, s.inside[task].account);
      SingleFlight(next) && Keyed(next)
  {
    var next := Leave(s, task, s.inside[task].account);
    forall a ensures a in next.refreshing <==> exists t :: t in next.inside && next.inside[t].account == a {
      if a in next.refreshing {
        var t :| t in s.inside && s.inside[t].account == a;
        assert t in next.inside && next.inside[t].account == a;
      }
    }
  }

  /** Every cookie update of the run names its account by the account's own id. */
  ghost predicate Canonical(actions: seq<Action>) {
    forall i :: 0 <= i < |actions| && actions[i].BeginCookies? ==> actions[i].raw == actions[i].account
  }

  /** Over all interleavings, with account ids given as they are stored. */
  lemma {:induction false} SingleFlightHolds(accounts: set<string>, actions: seq<Action>, states: seq<State>, i: nat)
    requires Run(accounts, actions, states) && states[0] == IDLE && Canonical(actions) && i < |states|
    ensures SingleFlight(states[i]) && Keyed(states[i])
  {
    if i == 0 {
    } else {
      SingleFlightHolds(accounts, actions, states, i - 1);
      StepKeeps(accounts, states[i - 1], actions[i - 1], states[i]);
    }
  }

  /** Cookie updates of the run are canonical, or spell the id as raw. */
  ghost predicate Spelled(actions: seq<Action>, raw: string) {
    forall i :: 0 <= i < |actions| && actions[i].BeginCookies? ==>
      actions[i].raw == actions[i].account || actions[i].raw == raw
  }

  /** No interleaving with updates spelled this way breaks the guard. */
  ghost predicate SpellingIsSafe(accounts: set<string>, raw: string) {
    forall actions, states :: Run(accounts, actions, states) && states[0] == IDLE && Spelled(actions, raw) ==>
      forall i :: 0 <= i < |states| ==> SingleFlight(states[i])
  }

  lemma OwnIdResolves(accounts: set<string>, raw: string, account: string)
    requires Ids(accounts) && raw in accounts && Resolves(accounts, raw, account)
    ensures account == raw
  {
  }

  /** A manual refresh and a cookie update with another spelling run side by side. */
  lemma SideBySide(accounts: set<string>, raw: string, account: string)
    returns (actions: seq<Action>, states: seq<State>)
    requires Resolves(accounts, raw, account) && raw != account
    ensures Run(accounts, actions, states) && states[0] == IDLE && Spelled(actions, raw) && |states| == 3
    ensures !SingleFlight(states[2])
  {
    actions := [Begin(0, Manual, account), BeginCookies(1, raw, account)];
    var s1 := Enter(IDLE, 0, account, account);
    var s2 := Enter(s1, 1, account, raw);
    states := [IDLE, s1, s2];
    assert s2.inside[0].account == s2.inside[1].account;
  }

  ghost function AnyOf(accounts: set<string>): (account: string)
    requires accounts != {}
    ensures account in accounts
  {
    var account :| account in accounts;
    account
  }

  /** Cookie updates that resolve to an account keep the guard exactly when the id is
      spelled as the account's own: surrounding blanks, or a blank id in a pool of one,
      break it. */
  lemma SpellingIsSafeIff(accounts: set<string>, raw: string)
    requires Ids(accounts) && (TrimSpace(raw) in accounts || (TrimSpace(raw) == "" && |accounts| == 1))
    ensures SpellingIsSafe(accounts, raw) <==> raw in accounts
  {
    if raw in accounts {
      forall actions: seq<Action>, states: seq<State> | Run(accounts, actions, states) && states[0] == IDLE
        && Spelled(actions, raw)
        ensures forall i :: 0 <= i < |states| ==> SingleFlight(states[i])
      {
        forall i | 0 <= i < |actions| && actions[i].BeginCookies? ensures actions[i].raw == actions[i].account {
          assert Step(accounts, states[i], actions[i], states[i + 1]);
          if actions[i].raw == raw {
            OwnIdResolves(accounts, raw, actions[i].account);
          }
        }
        forall i | 0 <= i < |states| ensures SingleFlight(states[i]) {
          SingleFlightHolds(accounts, actions, states, i);
        }
      }
    } else {
      var account := if TrimSpace(raw) in accounts then TrimSpace(raw) else AnyOf(accounts);
      var actions, states := SideBySide(accounts, raw, account);
    }
  }

  /** Nothing inside holds the guard under this key. */
  ghost predicate Unheld(s: State, key: string) {
    forall t :: t in s.inside ==> s.inside[t].key != key
  }

  /** A cookie update spelled differently that passes validation leaves its flag
      behind. */
  lemma FinishLeaks(s: State, task: nat, account: string, raw: string)
    requires SingleFlight(s) && Keyed(s) && task !in s.inside && raw !in s.refreshing && raw != account
    ensures var entered := Enter(s, task, account, raw);
      var done := Leave(entered, task, account);
      raw in done.refreshing && Unheld(done, raw)
  {
  }

  /** A flag left under a spelling that is no account's id stays for good, and turns
      down every later cookie update with that spelling. */
  lemma {:induction false} LeakIsPermanent(accounts: set<string>, actions: seq<Action>, states: seq<State>,
                                           raw: string, i: nat)
    requires Run(accounts, actions, states) && raw !in accounts && i < |states|
    requires raw in states[0].refreshing && Unheld(states[0], raw)
    requires forall t :: t in states[0].inside ==> states[0].inside[t].account in accounts
    ensures raw in states[i].refreshing && Unheld(states[i], raw)
    ensures forall t :: t in states[i].inside ==> states[i].inside[t].account in accounts
    ensures forall task, account :: Enter(states[i], task, account, raw) == states[i]
  {
    if i == 0 {
    } else {
      LeakIsPermanent(accounts, actions, states, raw, i - 1);
      assert Step(accounts, states[i - 1], actions[i - 1], states[i]);
    }
  }
}
