/** Index maps with a timestamp map beside them, and how they are pruned: entries
    older than a lifetime go, then the oldest until a cap holds. The conversation
    index and the provider's conversation cache both prune this way. */
module Tables {

  /** An index map and the map of when each key was last used. */
  datatype Table<K, V> = Table(ctx: map<K, V>, at: map<K, int>)

  ghost predicate Synced<K, V>(t: Table<K, V>) {
    t.ctx.Keys == t.at.Keys
  }

  function Put<K, V>(t: Table<K, V>, k: K, v: V, now: int): Table<K, V> {
    Table(t.ctx[k := v], t.at[k := now])
  }

  /** Puts one value under several keys, in order. */
  function PutEach<K, V>(t: Table<K, V>, keys: seq<K>, v: V, now: int): Table<K, V> {
    if keys == [] then t else Put(PutEach(t, keys[..|keys| - 1], v, now), keys[|keys| - 1], v, now)
  }

  function Drop<K, V>(t: Table<K, V>, keys: set<K>): Table<K, V> {
    Table(t.ctx - keys, t.at - keys)
  }

  function Touch<K, V>(t: Table<K, V>, k: K, now: int): Table<K, V> {
    t.(at := t.at[k := now])
  }

  function Stale<K>(at: map<K, int>, now: int, ttl: int): set<K> {
    set k | k in at && now - at[k] > ttl
  }

  function Expire<K, V>(t: Table<K, V>, now: int, ttl: int): Table<K, V> {
    Drop(t, Stale(t.at, now, ttl))
  }

  /** next is t with the oldest entries removed until at most cap are left. Which of
      several equally old ones goes is open: Go's map order decides. */
  ghost predicate Capped<K, V>(t: Table<K, V>, next: Table<K, V>, cap: nat) {
    var gone := t.ctx.Keys - next.ctx.Keys;
    && next.ctx.Keys <= t.ctx.Keys
    && next == Drop(t, gone)
    && |next.ctx| == (if |t.ctx| <= cap then |t.ctx| else cap)
    && forall g, s :: g in gone && g in t.at && s in next.ctx && s in t.at ==> t.at[g] <= t.at[s]
  }

  lemma DropGrows<K, V>(t: Table<K, V>, gone: set<K>, k: K)
    ensures Drop(Drop(t, gone), {k}) == Drop(t, gone + {k})
  {
    assert t.ctx - gone - {k} == t.ctx - (gone + {k});
    assert t.at - gone - {k} == t.at - (gone + {k});
  }

  lemma DropNone<K, V>(t: Table<K, V>)
    ensures Drop(t, {}) == t
  {
    assert t.ctx - {} == t.ctx && t.at - {} == t.at;
  }

  method ExpireStale<K(==), V>(t: Table<K, V>, now: int, ttl: int) returns (next: Table<K, V>)
    ensures next == Expire(t, now, ttl)
  {
    next := t;
    DropNone(t);
    var todo := t.at.Keys;
    ghost var gone: set<K> := {};
    while todo != {}
      invariant todo <= t.at.Keys && gone == Stale(t.at, now, ttl) - todo
      invariant next == Drop(t, gone)
      decreases todo
    {
      var k :| k in todo;
      todo := todo - {k};
      if now - t.at[k] > ttl {
        DropGrows(t, gone, k);
        next := Table(next.ctx - {k}, next.at - {k});
        gone := gone + {k};
      }
    }
    assert gone == Stale(t.at, now, ttl);
  }

  /** The oldest key, by a scan in arbitrary order; none is the key no entry has. */
  method Oldest<K(==), V>(t: Table<K, V>, none: K) returns (oldest: K)
    requires Synced(t) && none !in t.ctx && |t.ctx| > 0
    ensures oldest in t.ctx && forall k :: k in t.ctx ==> t.at[oldest] <= t.at[k]
  {
    oldest := none;
    var oldestTime := 0;
    var todo := t.ctx.Keys;
    assert todo != {};
    while todo != {}
      invariant todo <= t.ctx.Keys
      invariant oldest == none ==> todo == t.ctx.Keys
      invariant oldest != none ==> oldest in t.ctx && oldestTime == t.at[oldest]
      invariant oldest != none ==> forall k :: k in t.ctx.Keys - todo ==> oldestTime <= t.at[k]
      decreases todo
    {
      var k :| k in todo;
      todo := todo - {k};
      if oldest == none || t.at[k] < oldestTime {
        oldest, oldestTime := k, t.at[k];
      }
    }
  }

  /** What an eviction loop keeps: the keys gone so far are no newer than any left. */
  ghost predicate Evicting<K, V>(t: Table<K, V>, next: Table<K, V>, gone: set<K>, cap: nat) {
    && gone <= t.ctx.Keys && next == Drop(t, gone)
    && (|next.ctx| >= cap || gone == {})
    && forall g, s :: g in gone && g in t.at && s in next.ctx && s in t.at ==> t.at[g] <= t.at[s]
  }

  lemma EvictingStarts<K, V>(t: Table<K, V>, cap: nat)
    ensures Evicting(t, t, {}, cap)
  {
    DropNone(t);
  }

  lemma EvictingStep<K, V>(t: Table<K, V>, next: Table<K, V>, gone: set<K>, cap: nat, k: K)
    requires Synced(t) && Evicting(t, next, gone, cap) && |next.ctx| > cap
    requires k in next.ctx && forall s :: s in next.ctx ==> next.at[k] <= next.at[s]
    ensures Evicting(t, Drop(next, {k}), gone + {k}, cap)
    ensures |Drop(next, {k}).ctx| == |next.ctx| - 1
  {
    DropGrows(t, gone, k);
    CardinalityWithout(next.ctx, k);
  }

  lemma EvictingEnds<K, V>(t: Table<K, V>, next: Table<K, V>, gone: set<K>, cap: nat)
    requires Synced(t) && Evicting(t, next, gone, cap) && |next.ctx| <= cap
    ensures Capped(t, next, cap) && t.ctx.Keys - next.ctx.Keys == gone
  {
    assert t.ctx.Keys - next.ctx.Keys == gone;
    if gone == {} {
      DropNone(t);
    } else {
      CardinalityMonotone(t.ctx, gone);
    }
  }

  method EvictOldest<K(==), V>(t: Table<K, V>, none: K, cap: nat) returns (next: Table<K, V>)
    requires Synced(t) && none !in t.ctx
    ensures Capped(t, next, cap)
  {
    next := t;
    ghost var gone: set<K> := {};
    EvictingStarts(t, cap);
    while |next.ctx| > cap
      invariant Evicting(t, next, gone, cap)
      decreases |next.ctx|
    {
      var k := Oldest(next, none);
      EvictingStep(t, next, gone, cap, k);
      next := Table(next.ctx - {k}, next.at - {k});
      gone := gone + {k};
    }
    EvictingEnds(t, next, gone, cap);
  }

  lemma {:induction false} OldestExists<K, V>(t: Table<K, V>) returns (oldest: K)
    requires Synced(t) && t.ctx != map[]
    ensures oldest in t.ctx && forall k :: k in t.ctx ==> t.at[oldest] <= t.at[k]
    decreases t.ctx.Keys
  {
    var k :| k in t.ctx;
    var rest := Drop(t, {k});
    oldest := k;
    assert forall j :: j in t.ctx ==> j == k || j in rest.ctx;
    if rest.ctx != map[] {
      var other := OldestExists(rest);
      if t.at[other] < t.at[k] {
        oldest := other;
      }
    }
  }

  lemma {:induction false} CapFrom<K, V>(t: Table<K, V>, now: Table<K, V>, gone: set<K>, cap: nat)
    returns (next: Table<K, V>)
    requires Synced(t) && Synced(now) && Evicting(t, now, gone, cap)
    ensures Capped(t, next, cap)
    decreases |now.ctx|
  {
    if |now.ctx| <= cap {
      EvictingEnds(t, now, gone, cap);
      next := now;
    } else {
      var k := OldestExists(now);
      EvictingStep(t, now, gone, cap, k);
      next := CapFrom(t, Drop(now, {k}), gone + {k}, cap);
    }
  }

  /** There is always a way to evict down to the cap. */
  lemma CapExists<K, V>(t: Table<K, V>, cap: nat) returns (next: Table<K, V>)
    requires Synced(t)
    ensures Capped(t, next, cap)
  {
    EvictingStarts(t, cap);
    next := CapFrom(t, t, {}, cap);
  }

  lemma CardinalityWithout<K, V>(m: map<K, V>, k: K)
    requires k in m
    ensures |m - {k}| == |m| - 1
  {
    assert (m - {k}).Keys == m.Keys - {k};
    assert |(m - {k}).Keys| == |m - {k}| && |m.Keys| == |m|;
  }

  lemma CardinalityMonotone<K, V>(m: map<K, V>, keys: set<K>)
    ensures |m - keys| <= |m|
    ensures |m - keys| == |m| ==> m - keys == m
  {
    SubsetSize((m - keys).Keys, m.Keys);
    assert |(m - keys).Keys| == |m - keys| && |m.Keys| == |m|;
    if |m - keys| == |m| {
      assert (m - keys).Keys == m.Keys;
    }
  }

  lemma {:induction false} SubsetSize<T>(a: set<T>, b: set<T>)
    requires a <= b
    ensures |a| <= |b|
    ensures |a| == |b| ==> a == b
  {
    if a == {} {
    } else {
      var x :| x in a;
      SubsetSize(a - {x}, b - {x});
      if |a| == |b| {
        assert a == (a - {x}) + {x} && b == (b - {x}) + {x};
      }
    }
  }

  /** Nothing is evicted from a table within its cap. */
  lemma CapIdle<K, V>(t: Table<K, V>, next: Table<K, V>, cap: nat)
    requires Synced(t) && Capped(t, next, cap) && |t.ctx| <= cap
    ensures next == t
  {
    CardinalityMonotone(t.ctx, t.ctx.Keys - next.ctx.Keys);
    assert next.ctx == t.ctx;
    assert t.ctx.Keys - next.ctx.Keys == {};
    assert t.at - {} == t.at;
  }

  /** One pruned table: expired, then capped. */
  ghost predicate Pruned<K, V>(t: Table<K, V>, next: Table<K, V>, now: int, ttl: int, cap: nat) {
    Capped(Expire(t, now, ttl), next, cap)
  }

  /** The law of pruning: no entry older than the lifetime and at most cap entries
      are left, no survivor is changed, nothing appears, and an entry that was still
      fresh only goes when it is no newer than every survivor and the cap is full. */
  ghost predicate Lawful<K, V>(t: Table<K, V>, next: Table<K, V>, now: int, ttl: int, cap: nat)
    requires Synced(t)
  {
    && Synced(next) && |next.ctx| <= cap
    && (forall k :: k in next.ctx ==> k in t.ctx && next.ctx[k] == t.ctx[k] && next.at[k] == t.at[k])
    && (forall k :: k in next.ctx ==> now - next.at[k] <= ttl)
    && (forall k, s :: k in t.ctx && k !in next.ctx && now - t.at[k] <= ttl && s in next.ctx ==> t.at[k] <= next.at[s])
    && forall k :: k in t.ctx && k !in next.ctx && now - t.at[k] <= ttl ==> |next.ctx| == cap
  }

  lemma PruneLaw<K, V>(t: Table<K, V>, next: Table<K, V>, now: int, ttl: int, cap: nat)
    requires Synced(t) && Pruned(t, next, now, ttl, cap)
    ensures Lawful(t, next, now, ttl, cap)
  {
    var e := Expire(t, now, ttl);
    assert forall k :: k in e.ctx <==> k in t.ctx && now - t.at[k] <= ttl;
    forall k | k in t.ctx && k !in next.ctx && now - t.at[k] <= ttl
      ensures |next.ctx| == cap
    {
      assert k in e.ctx;
      if |e.ctx| <= cap {
        CapIdle(e, next, cap);
      }
    }
  }

  lemma {:induction false} PutEachKeys<K, V>(t: Table<K, V>, keys: seq<K>, v: V, now: int)
    ensures var next := PutEach(t, keys, v, now);
      && (forall k :: k in next.ctx <==> k in t.ctx || k in keys)
      && (forall k :: k in next.ctx ==> next.ctx[k] == if k in keys then v else t.ctx[k])
      && (Synced(t) ==> Synced(next))
  {
    if keys == [] {
    } else {
      var n := |keys| - 1;
      PutEachKeys(t, keys[..n], v, now);
      assert forall k :: k in keys <==> k in keys[..n] || k == keys[n];
    }
  }

  lemma {:induction false} PutEachTimes<K, V>(t: Table<K, V>, keys: seq<K>, v: V, now: int, k: K)
    requires k in keys || k in t.at
    ensures var next := PutEach(t, keys, v, now);
      k in next.at && next.at[k] == if k in keys then now else t.at[k]
  {
    if keys == [] {
    } else {
      var n := |keys| - 1;
      assert k in keys <==> k in keys[..n] || k == keys[n];
      if k in keys[..n] || k in t.at {
        PutEachTimes(t, keys[..n], v, now, k);
      }
    }
  }
}
