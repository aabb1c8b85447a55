/**
 * The response-cache table shared by the Experian cache (`CacheService`) and
 * the DataIris cache (`DataIrisCacheService`): rows keyed by a search hash,
 * each holding the cached payload, a request counter, the last access time
 * and an absolute expiry time. The unique `search_hash` column is the key set
 * of a map. Time is a number of seconds passed in explicitly as `now`; a
 * storage fault raised by the database session is the input flag `fault`.
 */
module ResponseCache {
  import opened Wrappers

  /** `get_cache_expiry_date()` is `now + TTL`: ninety days. */
  const TTL: int := 90 * 24 * 60 * 60

  datatype Entry<C, P> = Entry(
    criteria: C,                   // the search fields stored beside the hash
    payload: P,                    // what `find` hands back on a hit
    apiCallsCount: int,            // number of requests served from this row, counting the first call
    createdAt: int,
    lastAccessedAt: Option<int>,
    expiresAt: int,
    apiSource: string,
    recordCount: Option<int>,      // DataIris rows only
    isPartial: bool,
    errorMessage: Option<string>)

  /** `is_cache_expired`: strictly past the expiry time; a row expiring exactly now is still live. */
  predicate IsExpired<C, P>(e: Entry<C, P>, now: int) {
    e.expiresAt < now
  }

  /** The row after a cache hit: one more request, accessed now, nothing else changed. */
  function Hit<C, P>(e: Entry<C, P>, now: int): (r: Entry<C, P>)
    ensures r.apiCallsCount == e.apiCallsCount + 1 && r.lastAccessedAt == Some(now)
    ensures r.payload == e.payload && r.expiresAt == e.expiresAt && r.criteria == e.criteria
    ensures r.createdAt == e.createdAt && r.apiSource == e.apiSource && r.isPartial == e.isPartial
    ensures r.recordCount == e.recordCount && r.errorMessage == e.errorMessage
  {
    e.(apiCallsCount := e.apiCallsCount + 1, lastAccessedAt := Some(now))
  }

  /** The hashes of the rows expired at `now`. */
  function ExpiredKeys<C, P>(m: map<string, Entry<C, P>>, now: int): (ks: set<string>)
    ensures ks <= m.Keys
    ensures forall h | h in m :: h in ks <==> IsExpired(m[h], now)
  {
    set h | h in m && IsExpired(m[h], now)
  }

  /** The rows still live at `now`. */
  function LiveRows<C, P>(m: map<string, Entry<C, P>>, now: int): (r: map<string, Entry<C, P>>)
    ensures r.Keys == m.Keys - ExpiredKeys(m, now)
    ensures forall h | h in r :: r[h] == m[h]
  {
    map h | h in m && !IsExpired(m[h], now) :: m[h]
  }

  /** The sum of `apiCallsCount` over the rows with hashes in `ks`. */
  ghost function SumCalls<C, P>(m: map<string, Entry<C, P>>, ks: set<string>): int
    requires ks <= m.Keys
    decreases |ks|
  {
    if ks == {} then 0
    else
      var h :| h in ks;
      m[h].apiCallsCount + SumCalls(m, ks - {h})
  }

  /** `SUM(api_calls_count)` over the whole table (`or 0`: an empty table sums to 0). */
  ghost function TotalHits<C, P>(m: map<string, Entry<C, P>>): int {
    SumCalls(m, m.Keys)
  }

  /** The sum does not depend on the order in which rows are visited. */
  lemma {:induction false} SumCallsRemove<C, P>(m: map<string, Entry<C, P>>, ks: set<string>, h: string)
    requires ks <= m.Keys && h in ks
    ensures SumCalls(m, ks) == m[h].apiCallsCount + SumCalls(m, ks - {h})
    decreases |ks|
  {
    var j :| j in ks && SumCalls(m, ks) == m[j].apiCallsCount + SumCalls(m, ks - {j});
    if j != h {
      SumCallsRemove(m, ks - {j}, h);
      SumCallsRemove(m, ks - {h}, j);
      assert ks - {j} - {h} == ks - {h} - {j};
    }
  }

  /** Rows outside `ks` do not contribute. */
  lemma {:induction false} SumCallsFrame<C, P>(m: map<string, Entry<C, P>>, m2: map<string, Entry<C, P>>, ks: set<string>)
    requires ks <= m.Keys && ks <= m2.Keys
    requires forall h | h in ks :: m[h].apiCallsCount == m2[h].apiCallsCount
    ensures SumCalls(m, ks) == SumCalls(m2, ks)
    decreases |ks|
  {
    if ks != {} {
      var h :| h in ks;
      SumCallsRemove(m, ks, h);
      SumCallsRemove(m2, ks, h);
      SumCallsFrame(m, m2, ks - {h});
    }
  }

  /** A cache hit adds exactly one to the table's total hit count. */
  lemma HitAddsOne<C, P>(m: map<string, Entry<C, P>>, h: string, now: int)
    requires h in m
    ensures TotalHits(m[h := Hit(m[h], now)]) == TotalHits(m) + 1
  {
    var m2 := m[h := Hit(m[h], now)];
    assert m2.Keys == m.Keys;
    SumCallsRemove(m, m.Keys, h);
    SumCallsRemove(m2, m.Keys, h);
    SumCallsFrame(m, m2, m.Keys - {h});
  }

  /** Inserting a new row adds its counter to the total. */
  lemma InsertAddsCount<C, P>(m: map<string, Entry<C, P>>, h: string, e: Entry<C, P>)
    requires h !in m
    ensures TotalHits(m[h := e]) == TotalHits(m) + e.apiCallsCount
  {
    var m2 := m[h := e];
    assert m2.Keys - {h} == m.Keys;
    SumCallsRemove(m2, m2.Keys, h);
    SumCallsFrame(m, m2, m.Keys);
  }

  lemma {:induction false} SumCallsPositive<C, P>(m: map<string, Entry<C, P>>, ks: set<string>)
    requires ks <= m.Keys
    requires forall h | h in m :: m[h].apiCallsCount >= 1
    ensures SumCalls(m, ks) >= |ks|
    decreases |ks|
  {
    if ks != {} {
      var h :| h in ks;
      SumCallsRemove(m, ks, h);
      SumCallsPositive(m, ks - {h});
    }
  }

  /** The number of rows with hashes in `ks` that are expired at `now`. */
  function CountExpired<C, P>(m: map<string, Entry<C, P>>, ks: set<string>, now: int): int
    requires ks <= m.Keys
  {
    |set h | h in ks && IsExpired(m[h], now)|
  }

  lemma CountExpiredAdd<C, P>(m: map<string, Entry<C, P>>, ks: set<string>, h: string, now: int)
    requires ks <= m.Keys && h in m && h !in ks
    ensures CountExpired(m, ks + {h}, now) == CountExpired(m, ks, now) + (if IsExpired(m[h], now) then 1 else 0)
  {
    var before := set k | k in ks && IsExpired(m[k], now);
    var after := set k | k in ks + {h} && IsExpired(m[k], now);
    assert after == if IsExpired(m[h], now) then before + {h} else before;
  }

  /** `o` is the least creation time among the rows in `ks` (`None` when there are none). */
  ghost predicate OldestOf<C, P>(m: map<string, Entry<C, P>>, ks: set<string>, o: Option<int>)
    requires ks <= m.Keys
  {
    && (o.None? <==> ks == {})
    && (o.Some? ==> (exists h | h in ks :: m[h].createdAt == o.value) && (forall h | h in ks :: o.value <= m[h].createdAt))
  }

  /** `o` is the greatest creation time among the rows in `ks` (`None` when there are none). */
  ghost predicate NewestOf<C, P>(m: map<string, Entry<C, P>>, ks: set<string>, o: Option<int>)
    requires ks <= m.Keys
  {
    && (o.None? <==> ks == {})
    && (o.Some? ==> (exists h | h in ks :: m[h].createdAt == o.value) && (forall h | h in ks :: m[h].createdAt <= o.value))
  }

  function MinOpt(o: Option<int>, t: int): Option<int> {
    if o.None? || t < o.value then Some(t) else o
  }

  function MaxOpt(o: Option<int>, t: int): Option<int> {
    if o.None? || t > o.value then Some(t) else o
  }

  lemma OldestStep<C, P>(m: map<string, Entry<C, P>>, ks: set<string>, h: string, o: Option<int>)
    requires ks <= m.Keys && h in m && h !in ks && OldestOf(m, ks, o)
    ensures OldestOf(m, ks + {h}, MinOpt(o, m[h].createdAt))
  {
    var o2 := MinOpt(o, m[h].createdAt);
    if o2 == o {
      var w :| w in ks && m[w].createdAt == o.value;
      assert w in ks + {h};
    } else {
      assert h in ks + {h};
    }
  }

  lemma NewestStep<C, P>(m: map<string, Entry<C, P>>, ks: set<string>, h: string, o: Option<int>)
    requires ks <= m.Keys && h in m && h !in ks && NewestOf(m, ks, o)
    ensures NewestOf(m, ks + {h}, MaxOpt(o, m[h].createdAt))
  {
    var o2 := MaxOpt(o, m[h].createdAt);
    if o2 == o {
      var w :| w in ks && m[w].createdAt == o.value;
      assert w in ks + {h};
    } else {
      assert h in ks + {h};
    }
  }

  /** The running aggregates after visiting the rows in `done`. */
  ghost predicate StatsSoFar<C, P>(m: map<string, Entry<C, P>>, done: set<string>, now: int,
                                   total: int, expired: int, hits: int, oldest: Option<int>, newest: Option<int>)
  {
    && done <= m.Keys
    && total == |done|
    && expired == CountExpired(m, done, now)
    && hits == SumCalls(m, done)
    && OldestOf(m, done, oldest)
    && NewestOf(m, done, newest)
  }

  lemma StatsStart<C, P>(m: map<string, Entry<C, P>>, now: int)
    ensures StatsSoFar(m, {}, now, 0, 0, 0, None, None)
  {
  }

  lemma StatsEnd<C, P>(m: map<string, Entry<C, P>>, now: int,
                       total: int, expired: int, hits: int, oldest: Option<int>, newest: Option<int>)
    requires StatsSoFar(m, m.Keys, now, total, expired, hits, oldest, newest)
    ensures total == |m| && expired == |ExpiredKeys(m, now)| && hits == TotalHits(m)
    ensures OldestOf(m, m.Keys, oldest) && NewestOf(m, m.Keys, newest)
  {
    assert (set h | h in m.Keys && IsExpired(m[h], now)) == ExpiredKeys(m, now);
  }

  /** Moving one key from the keys to visit to the visited ones keeps the two apart and their union as it was. */
  lemma MoveOne(todo: set<string>, done: set<string>, h: string)
    requires h in todo && todo !! done
    ensures (todo - {h}) + (done + {h}) == todo + done && (todo - {h}) !! (done + {h})
    ensures |todo - {h}| < |todo|
  {
  }

  lemma StatsStep<C, P>(m: map<string, Entry<C, P>>, done: set<string>, h: string, now: int,
                        total: int, expired: int, hits: int, oldest: Option<int>, newest: Option<int>)
    requires h in m && h !in done
    requires StatsSoFar(m, done, now, total, expired, hits, oldest, newest)
    ensures StatsSoFar(m, done + {h}, now, total + 1, expired + (if IsExpired(m[h], now) then 1 else 0),
                       hits + m[h].apiCallsCount, MinOpt(oldest, m[h].createdAt), MaxOpt(newest, m[h].createdAt))
  {
    CountExpiredAdd(m, done, h, now);
    SumCallsRemove(m, done + {h}, h);
    assert done + {h} - {h} == done;
    OldestStep(m, done, h, oldest);
    NewestStep(m, done, h, newest);
  }

  /** The aggregates `get_cache_statistics` reports. */
  datatype Stats = Stats(
    totalEntries: int,
    activeEntries: int,
    expiredEntries: int,
    totalCacheHits: int,
    oldestEntry: Option<int>,
    newestEntry: Option<int>)

  /**
   * One cache table. `keyOf` is the search-hash function applied to the
   * criteria (`generate_search_hash`), fixed when the table is made.
   */
  /** One pass over the rows of `m`, counting and keeping the extreme creation times. */
  method Tally<C, P>(m: map<string, Entry<C, P>>, now: int)
    returns (total: int, expired: int, hits: int, oldest: Option<int>, newest: Option<int>)
    ensures total == |m| && expired == |ExpiredKeys(m, now)| && hits == TotalHits(m)
    ensures OldestOf(m, m.Keys, oldest) && NewestOf(m, m.Keys, newest)
  {
    total, expired, hits, oldest, newest := 0, 0, 0, None, None;
    var todo := m.Keys;
    ghost var done: set<string> := {};
    StatsStart(m, now);
    while todo != {}
      invariant todo + done == m.Keys && todo !! done
      invariant StatsSoFar(m, done, now, total, expired, hits, oldest, newest)
      decreases |todo|
    {
      var h :| h in todo;
      var e := m[h];
      StatsStep(m, done, h, now, total, expired, hits, oldest, newest);
      total, expired, hits := total + 1, expired + (if IsExpired(e, now) then 1 else 0), hits + e.apiCallsCount;
      oldest, newest := MinOpt(oldest, e.createdAt), MaxOpt(newest, e.createdAt);
      MoveOne(todo, done, h);
      todo, done := todo - {h}, done + {h};
    }
    assert done == m.Keys;
    StatsEnd(m, now, total, expired, hits, oldest, newest);
  }

  class CacheTable<C, P> {
    const keyOf: C -> string
    var table: map<string, Entry<C, P>>

    /** Every row sits under the hash of its own criteria and has served at least one request. */
    ghost predicate Valid()
      reads this
    {
      forall h | h in table :: h == keyOf(table[h].criteria) && table[h].apiCallsCount >= 1
    }

    constructor(keyOf: C -> string)
      ensures this.keyOf == keyOf && table == map[]
      ensures Valid()
    {
      this.keyOf := keyOf;
      table := map[];
    }

    /**
     * `find_cached_result`: a missing row or one with `expires_at < now` is a
     * miss (the expired row stays); a hit bumps the counter and the access
     * time and returns the payload. A storage fault is swallowed as a miss.
     */
    method Find(c: C, now: int, fault: bool) returns (r: Option<P>)
      requires Valid()
      modifies this
      ensures Valid()
      ensures var h := keyOf(c);
        if fault || h !in old(table) || IsExpired(old(table)[h], now) then
          r == None && table == old(table)
        else
          r == Some(old(table)[h].payload) && table == old(table)[h := Hit(old(table)[h], now)]
    {
      var h := keyOf(c);
      if fault || h !in table || IsExpired(table[h], now) {
        return None;
      }
      var e := table[h];
      table := table[h := Hit(e, now)];
      r := Some(e.payload);
    }

    /**
     * `save_cache_result`: a new hash gets a row with one request, expiry
     * `now + TTL` and the given source fields, and the call returns true. An
     * existing hash (the unique-column violation, even for an expired row)
     * or a storage fault rolls back and returns false.
     */
    method Save(c: C, payload: P, apiSource: string, recordCount: Option<int>, isPartial: bool,
                errorMessage: Option<string>, now: int, fault: bool) returns (ok: bool)
      requires Valid()
      modifies this
      ensures Valid()
      ensures var h := keyOf(c);
        if fault || h in old(table) then
          !ok && table == old(table)
        else
          ok && table == old(table)[h := Entry(c, payload, 1, now, None, now + TTL, apiSource, recordCount, isPartial, errorMessage)]
    {
      var h := keyOf(c);
      if fault || h in table {
        return false;
      }
      table := table[h := Entry(c, payload, 1, now, None, now + TTL, apiSource, recordCount, isPartial, errorMessage)];
      ok := true;
    }

    /** `update_cache_hit_count`: unknown hash or fault gives false; otherwise one more request, accessed now. */
    method UpdateHitCount(h: string, now: int, fault: bool) returns (ok: bool)
      requires Valid()
      modifies this
      ensures Valid()
      ensures if fault || h !in old(table) then !ok && table == old(table)
              else ok && table == old(table)[h := Hit(old(table)[h], now)]
    {
      if fault || h !in table {
        return false;
      }
      table := table[h := Hit(table[h], now)];
      ok := true;
    }

    /**
     * `cleanup_expired_cache`: counts the rows with `expires_at < now`; a dry
     * run deletes nothing, otherwise exactly those rows are deleted one by
     * one. A fault rolls back and returns 0.
     */
    method Cleanup(now: int, dryRun: bool, fault: bool) returns (count: int)
      requires Valid()
      modifies this
      ensures Valid()
      ensures fault ==> count == 0 && table == old(table)
      ensures !fault ==> count == |ExpiredKeys(old(table), now)|
      ensures !fault && dryRun ==> table == old(table)
      ensures !fault && !dryRun ==> table == LiveRows(old(table), now)
    {
      if fault {
        return 0;
      }
      var expired := ExpiredKeys(table, now);
      count := |expired|;
      if dryRun {
        return;
      }
      ghost var t0 := table;
      var todo := expired;
      while todo != {}
        invariant todo <= expired
        invariant table.Keys == t0.Keys - (expired - todo)
        invariant forall h | h in table :: table[h] == t0[h]
        decreases |todo|
      {
        var h :| h in todo;
        table := table - {h};
        todo := todo - {h};
      }
      assert table == LiveRows(t0, now);
    }

    /**
     * `get_cache_statistics`: entry counts, the sum of request counters and
     * the oldest and newest creation times; a fault gives `None` (the empty
     * dict). Reads the table and changes nothing.
     */
    method Statistics(now: int, fault: bool) returns (r: Option<Stats>)
      ensures fault ==> r == None
      ensures !fault ==> r.Some?
      ensures r.Some? ==>
        var s := r.value;
        && s.totalEntries == |table|
        && s.expiredEntries == |ExpiredKeys(table, now)|
        && s.activeEntries == s.totalEntries - s.expiredEntries
        && s.totalCacheHits == TotalHits(table)
        && OldestOf(table, table.Keys, s.oldestEntry)
        && NewestOf(table, table.Keys, s.newestEntry)
    {
      if fault {
        return None;
      }
      var total, expired, hits, oldest, newest := Tally(table, now);
      r := Some(Stats(total, total - expired, expired, hits, oldest, newest));
    }
  }

  /**
   * A request whose row has expired: the lookup misses, and the save that
   * follows for the same criteria is refused and leaves the table, the
   * expired row included, as it was.
   */
  method ExpiredRowBlocksSave<C, P>(t: CacheTable<C, P>, c: C, payload: P, apiSource: string, recordCount: Option<int>,
                                    isPartial: bool, errorMessage: Option<string>, now: int)
    returns (hit: Option<P>, ok: bool)
    requires t.Valid() && t.keyOf(c) in t.table && IsExpired(t.table[t.keyOf(c)], now)
    modifies t
    ensures hit.None? && !ok
    ensures t.table == old(t.table)
  {
    hit := t.Find(c, now, false);
    ok := t.Save(c, payload, apiSource, recordCount, isPartial, errorMessage, now, false);
  }

  /** Cleanup leaves no expired row behind and never removes a live one. */
  lemma CleanupRemovesExactlyExpired<C, P>(m: map<string, Entry<C, P>>, now: int)
    ensures forall h | h in LiveRows(m, now) :: !IsExpired(LiveRows(m, now)[h], now)
    ensures forall h | h in m && !IsExpired(m[h], now) :: h in LiveRows(m, now) && LiveRows(m, now)[h] == m[h]
    ensures |LiveRows(m, now)| == |m| - |ExpiredKeys(m, now)|
  {
    assert LiveRows(m, now).Keys == m.Keys - ExpiredKeys(m, now);
  }

  /** Every row counts at least once, so the hit total is at least the number of rows. */
  lemma HitsAtLeastRows<C, P>(m: map<string, Entry<C, P>>)
    requires forall h | h in m :: m[h].apiCallsCount >= 1
    ensures TotalHits(m) >= |m|
  {
    SumCallsPositive(m, m.Keys);
  }
}
