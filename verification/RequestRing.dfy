/** The request logger's ring buffer (request_logger.go): the last records since
    Clear, read newest first, and their counts. */
module RequestRing {
  import opened Text

  datatype Record = Record(id: string, timestamp: int, accountID: string, model: string, status: string)

  const EMPTY_RECORD := Record("", 0, "", "", "")

  datatype Stats = Stats(total: nat, successCount: nat, errorCount: nat,
                         byAccount: map<string, nat>, byModel: map<string, nat>, byStatus: map<string, nat>)

  /** The last n of s, newest first. */
  function NewestFirst<T>(s: seq<T>, n: nat): (r: seq<T>)
    requires n <= |s|
    ensures |r| == n && forall i :: 0 <= i < n ==> r[i] == s[|s| - 1 - i]
  {
    seq(n, i requires 0 <= i < n => s[|s| - 1 - i])
  }

  function Bump(m: map<string, nat>, k: string): map<string, nat> {
    m[k := (if k in m then m[k] else 0) + 1]
  }

  /** How often each key occurs. */
  function Tally(records: seq<Record>, key: Record -> string): map<string, nat> {
    if records == [] then map[]
    else Bump(Tally(records[..|records| - 1], key), key(records[|records| - 1]))
  }

  function CountStatus(records: seq<Record>, status: string): nat {
    if records == [] then 0
    else CountStatus(records[..|records| - 1], status) + (if records[|records| - 1].status == status then 1 else 0)
  }

  function StatsOf(records: seq<Record>): Stats {
    Stats(|records|, CountStatus(records, "success"), CountStatus(records, "error"),
          Tally(records, (r: Record) => r.accountID), Tally(records, (r: Record) => r.model),
          Tally(records, (r: Record) => r.status))
  }

  /** The counts with one record more. */
  function Counted(s: Stats, r: Record): Stats {
    Stats(s.total + 1,
          if r.status == "success" then s.successCount + 1 else s.successCount,
          if r.status == "error" then s.errorCount + 1 else s.errorCount,
          Bump(s.byAccount, r.accountID), Bump(s.byModel, r.model), Bump(s.byStatus, r.status))
  }

  lemma StatsStep(records: seq<Record>, r: Record)
    ensures StatsOf(records + [r]) == Counted(StatsOf(records), r)
  {
    hide Bump;
    assert (records + [r])[..|records|] == records;
  }

  lemma NoStats(history: seq<Record>)
    ensures StatsOf(NewestFirst(history, 0)) == Stats(0, 0, 0, map[], map[], map[])
  {
  }

  lemma WrapAround(x: int, cap: nat)
    requires cap > 0 && 0 <= x < 2 * cap
    ensures x % cap == if x < cap then x else x - cap
  {
  }

  class RequestLogger {
    var records: array<Record>
    var capacity: nat
    var head: nat
    var size: nat
    ghost var history: seq<Record>

    /** Where the i-th newest record sits. */
    function Slot(i: nat): int
      reads this
    {
      if head > i then head - 1 - i else head - 1 - i + capacity
    }

    ghost predicate Valid()
      reads this, records
    {
      && records.Length == capacity > 0
      && head < capacity
      && size == (if |history| < capacity then |history| else capacity)
      && forall i :: 0 <= i < size ==> 0 <= Slot(i) < capacity && records[Slot(i)] == history[|history| - 1 - i]
    }

    constructor (capacity: int)
      ensures Valid() && history == [] && fresh(records)
      ensures this.capacity == if capacity <= 0 then 1000 else capacity
    {
      var c := if capacity <= 0 then 1000 else capacity;
      this.capacity := c;
      records := new Record[c](_ => EMPTY_RECORD);
      head, size, history := 0, 0, [];
    }

    method LogRequest(record: Record, now: int)
      requires Valid()
      modifies this, records
      ensures Valid() && records == old(records) && capacity == old(capacity)
      ensures history == old(history) + [if record.timestamp == 0 then record.(timestamp := now) else record]
    {
      var r := record;
      if r.timestamp == 0 {
        r := r.(timestamp := now);
      }
      records[head] := r;
      WrapAround(head + 1, capacity);
      head := (head + 1) % capacity;
      if size < capacity {
        size := size + 1;
      }
      history := history + [r];
      assert Slot(0) == old(head);
      forall i | 1 <= i < size
        ensures 0 <= Slot(i) < capacity && records[Slot(i)] == history[|history| - 1 - i]
      {
        assert Slot(i) == old(Slot(i - 1));
        assert old(Slot(i - 1)) != old(head);
      }
    }

    method GetRecent(n: int) returns (result: seq<Record>)
      requires Valid()
      ensures var m: nat := if n <= 0 || n > size then size else n;
        result == NewestFirst(history, m)
    {
      var m := n;
      if m <= 0 || m > size {
        m := size;
      }
      result := [];
      var i := 0;
      while i < m
        invariant 0 <= i <= m <= size
        invariant result == NewestFirst(history, i)
      {
        WrapAround(head - 1 - i + capacity, capacity);
        var idx := (head - 1 - i + capacity) % capacity;
        assert idx == Slot(i);
        result := result + [records[idx]];
        i := i + 1;
      }
    }

    method Clear()
      requires Valid()
      modifies this, records
      ensures Valid() && history == [] && records == old(records) && capacity == old(capacity)
      ensures forall i :: 0 <= i < records.Length ==> records[i] == EMPTY_RECORD
    {
      var i := 0;
      while i < records.Length
        invariant 0 <= i <= records.Length
        invariant records == old(records) && capacity == old(capacity)
        invariant forall j :: 0 <= j < i ==> records[j] == EMPTY_RECORD
      {
        records[i] := EMPTY_RECORD;
        i := i + 1;
      }
      head, size, history := 0, 0, [];
    }

    method GetStats() returns (stats: Stats)
      requires Valid()
      ensures stats == StatsOf(NewestFirst(history, size))
    {
      hide StatsOf, NewestFirst;
      NoStats(history);
      var success, failure := 0, 0;
      var byAccount, byModel, byStatus: map<string, nat> := map[], map[], map[];
      var i := 0;
      while i < size
        invariant 0 <= i <= size
        invariant Stats(i, success, failure, byAccount, byModel, byStatus) == StatsOf(NewestFirst(history, i))
      {
        WrapAround(head - 1 - i + capacity, capacity);
        var idx := (head - 1 - i + capacity) % capacity;
        assert idx == Slot(i);
        var record := records[idx];
        assert NewestFirst(history, i + 1) == NewestFirst(history, i) + [record];
        StatsStep(NewestFirst(history, i), record);
        byAccount := Bump(byAccount, record.accountID);
        byModel := Bump(byModel, record.model);
        byStatus := Bump(byStatus, record.status);
        if record.status == "success" {
          success := success + 1;
        } else if record.status == "error" {
          failure := failure + 1;
        }
        i := i + 1;
      }
      stats := Stats(size, success, failure, byAccount, byModel, byStatus);
    }
  }

  // ---- Counts ----

  ghost function SumOver(m: map<string, nat>, keys: set<string>): nat
    requires keys <= m.Keys
  {
    if keys == {} then 0
    else
      var k :| k in keys;
      m[k] + SumOver(m, keys - {k})
  }

  lemma {:induction false} SumWithout(m: map<string, nat>, keys: set<string>, k: string)
    requires keys <= m.Keys && k in keys
    ensures SumOver(m, keys) == m[k] + SumOver(m, keys - {k})
    decreases |keys|
  {
    var p :| p in keys && SumOver(m, keys) == m[p] + SumOver(m, keys - {p});
    if p == k {
    } else {
      SumWithout(m, keys - {p}, k);
      SumWithout(m, keys - {k}, p);
      assert keys - {p} - {k} == keys - {k} - {p};
    }
  }

  lemma {:induction false} SumAgrees(m: map<string, nat>, n: map<string, nat>, keys: set<string>)
    requires keys <= m.Keys && keys <= n.Keys && forall k :: k in keys ==> m[k] == n[k]
    ensures SumOver(m, keys) == SumOver(n, keys)
    decreases |keys|
  {
    if keys == {} {
    } else {
      var k :| k in keys;
      SumWithout(m, keys, k);
      SumWithout(n, keys, k);
      SumAgrees(m, n, keys - {k});
    }
  }

  lemma {:induction false} BumpAddsOne(m: map<string, nat>, k: string)
    ensures SumOver(Bump(m, k), Bump(m, k).Keys) == SumOver(m, m.Keys) + 1
  {
    var n := Bump(m, k);
    SumWithout(n, n.Keys, k);
    SumAgrees(m, n, m.Keys - {k});
    assert n.Keys - {k} == m.Keys - {k};
    if k in m {
      SumWithout(m, m.Keys, k);
    } else {
      assert m.Keys - {k} == m.Keys;
    }
  }

  /** Per-account, per-model and per-status counts each add up to the total. */
  lemma {:induction false} CountsAddUp(records: seq<Record>, key: Record -> string)
    ensures SumOver(Tally(records, key), Tally(records, key).Keys) == |records|
  {
    if records == [] {
    } else {
      CountsAddUp(records[..|records| - 1], key);
      BumpAddsOne(Tally(records[..|records| - 1], key), key(records[|records| - 1]));
    }
  }

  /** A key is counted exactly when some record has it. */
  lemma {:induction false} CountsAreExact(records: seq<Record>, key: Record -> string, k: string)
    ensures k in Tally(records, key) <==> exists i :: 0 <= i < |records| && key(records[i]) == k
  {
    if records == [] {
    } else {
      CountsAreExact(records[..|records| - 1], key, k);
    }
  }

  /** Exactly n of the records are such. */
  ghost predicate Counts(records: seq<Record>, such: Record -> bool, n: nat) {
    exists ps :: Marks(records, such, ps) && |ps| == n
  }

  lemma CountsNone(such: Record -> bool)
    ensures Counts([], such, 0)
  {
    var none: seq<nat> := [];
    assert Marks([], such, none);
  }

  lemma CountsPush(records: seq<Record>, such: Record -> bool, n: nat, r: Record)
    requires Counts(records, such, n)
    ensures Counts(records + [r], such, if such(r) then n + 1 else n)
  {
    hide Marks;
    var ps :| Marks(records, such, ps) && |ps| == n;
    MarksPush(records, such, ps, r);
  }

  lemma {:induction false} TallyCounts(records: seq<Record>, key: Record -> string, such: Record -> bool, k: string)
    requires forall r :: such(r) <==> key(r) == k
    ensures var tally := Tally(records, key); Counts(records, such, if k in tally then tally[k] else 0)
  {
    hide Counts;
    if records == [] {
      CountsNone(such);
    } else {
      var n := |records| - 1;
      TallyCounts(records[..n], key, such, k);
      var tally := Tally(records[..n], key);
      CountsPush(records[..n], such, if k in tally then tally[k] else 0, records[n]);
      assert records == records[..n] + [records[n]];
    }
  }

  lemma {:induction false} StatusCounts(records: seq<Record>, such: Record -> bool, status: string)
    requires forall r :: such(r) <==> r.status == status
    ensures Counts(records, such, CountStatus(records, status))
  {
    hide Counts;
    if records == [] {
      CountsNone(such);
    } else {
      var n := |records| - 1;
      StatusCounts(records[..n], such, status);
      CountsPush(records[..n], such, CountStatus(records[..n], status), records[n]);
      assert records == records[..n] + [records[n]];
    }
  }

  function Of(tally: map<string, nat>, k: string): nat {
    if k in tally then tally[k] else 0
  }

  /** Every number of the statistics counts the records it is named for. */
  lemma {:induction false} StatsAreCounts(records: seq<Record>, k: string)
    ensures var stats := StatsOf(records);
      && stats.total == |records|
      && Counts(records, (r: Record) => r.status == "success", stats.successCount)
      && Counts(records, (r: Record) => r.status == "error", stats.errorCount)
      && Counts(records, (r: Record) => r.accountID == k, Of(stats.byAccount, k))
      && Counts(records, (r: Record) => r.model == k, Of(stats.byModel, k))
      && Counts(records, (r: Record) => r.status == k, Of(stats.byStatus, k))
  {
    hide Counts, Tally, CountStatus;
    StatusCounts(records, (r: Record) => r.status == "success", "success");
    StatusCounts(records, (r: Record) => r.status == "error", "error");
    TallyCounts(records, (r: Record) => r.accountID, (r: Record) => r.accountID == k, k);
    TallyCounts(records, (r: Record) => r.model, (r: Record) => r.model == k, k);
    TallyCounts(records, (r: Record) => r.status, (r: Record) => r.status == k, k);
  }
}
