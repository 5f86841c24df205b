/**
 * The traces of the cache-manager tests, replayed against the model. Each
 * trace starts from a fresh coordinator and returns what the test observes.
 * Durations are milliseconds; unless a trace says otherwise every insert
 * happens at clock reading 0.
 */
module Scenarios {
  import opened Positions
  import opened CacheEntries
  import opened CacheStats
  import opened EntryCaches
  import opened FactoryStats

  /** An insert that fits the budget appends the entry, evicts nothing and reports success. */
  method InsertFits(c: EntryCache, entry: Entry) returns (ok: bool)
    requires c.manager.Valid() && c.Admits(entry)
    requires c.manager.size + entry.size <= c.manager.maxSize
    modifies c.manager
    ensures ok && c.manager.Valid()
    ensures c.manager.queue == old(c.manager.queue) + [CachedEntry(c.name, entry, old(c.manager.nextSeqNo), 0)]
    ensures c.manager.size == old(c.manager.size) + entry.size
    ensures c.manager.nextSeqNo == old(c.manager.nextSeqNo) + 1 && c.manager.caches == old(c.manager.caches)
    ensures c.manager.stats == old(c.manager.stats).(inserted := old(c.manager.stats).inserted + 1)
  {
    var e := CachedEntry(c.name, entry, c.manager.nextSeqNo, 0);
    TotalSizeAppend(c.manager.queue, [e]);
    TotalSizeSingle(e);
    ok := c.Insert(entry, 0);
  }

  // The entries of the `simple` trace, in insertion order.
  const E0 := CachedEntry("cache1", Entry(Position(1, 1), 4), 0, 0)
  const E1 := CachedEntry("cache1", Entry(Position(1, 0), 3), 1, 0)
  const F0 := CachedEntry("cache2", Entry(Position(2, 0), 1), 2, 0)
  const F1 := CachedEntry("cache2", Entry(Position(2, 1), 1), 3, 0)
  const F2 := CachedEntry("cache2", Entry(Position(2, 2), 1), 4, 0)
  const F3 := CachedEntry("cache2", Entry(Position(2, 3), 1), 5, 0)

  /**
   * The coordinator of the `simple` trace: budget 10, watermark 0.8 (so
   * target 8), with cache1 and cache2 registered.
   */
  ghost predicate SimpleSetting(m: EntryCacheManager, c1: EntryCache, c2: EntryCache)
    reads m
  {
    && m.Valid() && m.maxSize == 10 && m.watermark == 0.8 && m.Target() == 8
    && c1.name == "cache1" && c1.manager == m && c2.name == "cache2" && c2.manager == m
    && c1.Registered() && c2.Registered()
  }

  method SimpleSetUp() returns (m: EntryCacheManager, c1: EntryCache, c2: EntryCache, bean: FactoryMBean)
    ensures fresh(m) && fresh(bean) && bean.manager == m && SimpleSetting(m, c1, c2)
    ensures m.queue == [] && m.size == 0 && m.nextSeqNo == 0 && m.stats == NoCounters && bean.last == NoCounters
  {
    m := new EntryCacheManager(10, 0.8, 1000);
    bean := new FactoryMBean(m);
    c1 := m.GetEntryCache("cache1");
    c2 := m.GetEntryCache("cache2");
  }

  /** cache1 gets 4 and then 3 bytes. */
  method SimpleFillCache1(m: EntryCacheManager, c1: EntryCache, c2: EntryCache) returns (cache1Size: nat, total: nat)
    requires SimpleSetting(m, c1, c2) && m.queue == [] && m.size == 0 && m.nextSeqNo == 0
    modifies m
    ensures SimpleSetting(m, c1, c2)
    ensures m.queue == [E0, E1] && m.size == 7 && m.nextSeqNo == 2
    ensures m.stats == old(m.stats).(inserted := old(m.stats).inserted + 2)
    ensures cache1Size == 7 && total == 7
  {
    assert c1.Registered();
    var ok := InsertFits(c1, E0.entry);
    assert m.queue == [E0];
    ok := InsertFits(c1, E1.entry);
    assert m.queue == [E0, E1];
    SimpleEarlySizes();
    cache1Size, total := c1.GetSize(), m.size;
  }

  /** cache2 gets two entries of 1 byte. */
  method SimpleFillCache2(m: EntryCacheManager, c1: EntryCache, c2: EntryCache)
    requires SimpleSetting(m, c1, c2) && m.queue == [E0, E1] && m.size == 7 && m.nextSeqNo == 2
    modifies m
    ensures SimpleSetting(m, c1, c2)
    ensures m.queue == [E0, E1, F0, F1] && m.size == 9 && m.nextSeqNo == 4
    ensures m.stats == old(m.stats).(inserted := old(m.stats).inserted + 2)
  {
    assert c2.Registered();
    var ok := InsertFits(c2, F0.entry);
    assert m.queue == [E0, E1, F0];
    ok := InsertFits(c2, F1.entry);
    assert m.queue == [E0, E1, F0, F1];
  }

  /** A third entry of 1 byte in cache2: the aggregate reaches the budget exactly, nothing is evicted. */
  method SimpleReachBudget(m: EntryCacheManager, c1: EntryCache, c2: EntryCache) returns (cache2Size: nat, total: nat)
    requires SimpleSetting(m, c1, c2) && m.queue == [E0, E1, F0, F1] && m.size == 9 && m.nextSeqNo == 4
    modifies m
    ensures SimpleSetting(m, c1, c2)
    ensures m.queue == [E0, E1, F0, F1, F2] && m.size == 10 && m.nextSeqNo == 5
    ensures m.stats == old(m.stats).(inserted := old(m.stats).inserted + 1)
    ensures cache2Size == 3 && total == 10
  {
    assert c2.Registered();
    var ok := InsertFits(c2, F2.entry);
    assert m.queue == [E0, E1, F0, F1, F2];
    SimpleFullSizes();
    cache2Size, total := c2.GetSize(), m.size;
  }

  /**
   * The fourth entry of cache2 breaches the budget: one pass evicts the
   * oldest entry, (1,1) of cache1, and the aggregate drops to 7.
   */
  method SimpleBreach(m: EntryCacheManager, c1: EntryCache, c2: EntryCache) returns (total: nat, cache1Size: nat, cache2Size: nat)
    requires SimpleSetting(m, c1, c2) && m.queue == [E0, E1, F0, F1, F2] && m.nextSeqNo == 5
    modifies m
    ensures SimpleSetting(m, c1, c2)
    ensures m.queue == [E1, F0, F1, F2, F3] && m.size == 7
    ensures m.stats == old(m.stats).(inserted := old(m.stats).inserted + 1, evicted := old(m.stats).evicted + 1,
                                     evictionPasses := old(m.stats).evictionPasses + 1)
    ensures total == 7 && cache1Size == 3 && cache2Size == 4
  {
    SimpleEviction();
    assert c2.Admits(F3.entry);
    ghost var q := m.queue;
    var ok := c2.Insert(F3.entry, 0);
    assert m.queue == Admit(q, F3, 10, 8);
    SimpleLedgers();
    total, cache1Size, cache2Size := m.size, c1.GetSize(), c2.GetSize();
  }

  /** Removing cache1 drops its 3 bytes; cache2 keeps its 4. */
  method SimpleRemoveCache1(m: EntryCacheManager, c1: EntryCache, c2: EntryCache) returns (total: nat, cache2Size: nat)
    requires SimpleSetting(m, c1, c2) && m.queue == [E1, F0, F1, F2, F3] && m.size == 7
    modifies m
    ensures m.Valid() && c2.Registered() && !c1.Registered()
    ensures m.queue == [F0, F1, F2, F3] && m.size == 4
    ensures m.stats == old(m.stats).(evicted := old(m.stats).evicted + 1)
    ensures total == 4 && cache2Size == 4
  {
    SimpleLedgers();
    SimpleCacheRemoval();
    m.RemoveEntryCache("cache1");
    total, cache2Size := m.size, c2.GetSize();
  }

  /** Invalidating cache2 before (2,1) drops (2,0) alone. */
  method SimpleInvalidate(m: EntryCacheManager, c2: EntryCache) returns (total: nat, cache2Size: nat)
    requires m.Valid() && c2.name == "cache2" && c2.manager == m && c2.Registered()
    requires m.queue == [F0, F1, F2, F3] && m.size == 4
    modifies m
    ensures m.Valid()
    ensures m.queue == [F1, F2, F3]
    ensures m.stats == old(m.stats).(evicted := old(m.stats).evicted + 1)
    ensures total == 3 && cache2Size == 3
  {
    SimpleInvalidation();
    c2.InvalidateEntries(Position(2, 1));
    total, cache2Size := m.size, c2.GetSize();
  }

  /**
   * simple, up to the budget: cache1 gets 7 bytes, the statistics are
   * refreshed over one second (no reads: all rates 0), cache2 gets 3 bytes.
   */
  method SimpleFirstHalf(m: EntryCacheManager, c1: EntryCache, c2: EntryCache, bean: FactoryMBean)
    returns (cache1Early: nat, totalEarly: nat, cache2Full: nat, totalFull: nat,
             earlyRates: Rates, earlyPasses: nat, earlyInserted: nat, earlyEvicted: nat, earlyEntries: nat)
    requires bean.manager == m && SimpleSetting(m, c1, c2)
    requires m.queue == [] && m.size == 0 && m.nextSeqNo == 0 && m.stats == NoCounters && bean.last == NoCounters
    modifies m, bean
    ensures SimpleSetting(m, c1, c2)
    ensures m.queue == [E0, E1, F0, F1, F2] && m.nextSeqNo == 5
    ensures m.stats == NoCounters.(inserted := 5) && bean.last == NoCounters.(inserted := 2)
    ensures cache1Early == 7 && totalEarly == 7 && cache2Full == 3 && totalFull == 10
    ensures earlyRates == NoRates && earlyPasses == 0 && earlyInserted == 2 && earlyEvicted == 0 && earlyEntries == 2
  {
    cache1Early, totalEarly := SimpleFillCache1(m, c1, c2);
    bean.RefreshStats(1000);
    earlyRates := bean.rates;
    earlyPasses, earlyInserted, earlyEvicted, earlyEntries :=
      m.stats.evictionPasses, m.stats.inserted, m.stats.evicted, m.EntriesCount();
    SimpleFillCache2(m, c1, c2);
    cache2Full, totalFull := SimpleReachBudget(m, c1, c2);
  }

  /**
   * simple: the sixth insert breaches the budget of 10 and evicts the oldest
   * entry, (1,1) of cache1, bringing the aggregate to 7 (at most 8); then
   * cache1 is removed and cache2 invalidated before (2,1). The statistics
   * count 6 inserts, 3 evictions and one eviction pass, and the rates stay 0.
   */
  method SimpleTrace() returns (cache1Early: nat, totalEarly: nat, maxSize: nat,
                                earlyRates: Rates, earlyPasses: nat, earlyInserted: nat, earlyEvicted: nat, earlyEntries: nat,
                                cache2Full: nat, totalFull: nat, afterEviction: nat, cache1Size: nat, cache2Size: nat,
                                afterRemove: nat, cache2AfterRemove: nat,
                                afterInvalidate: nat, cache2AfterInvalidate: nat,
                                inserted: nat, evicted: nat, entries: nat, passes: nat, rates: Rates)
    ensures cache1Early == 7 && totalEarly == 7 && maxSize == 10
    ensures earlyRates == NoRates && earlyPasses == 0 && earlyInserted == 2 && earlyEvicted == 0 && earlyEntries == 2
    ensures cache2Full == 3 && totalFull == 10
    ensures afterEviction == 7 && cache1Size == 3 && cache2Size == 4
    ensures afterRemove == 4 && cache2AfterRemove == 4
    ensures afterInvalidate == 3 && cache2AfterInvalidate == 3
    ensures inserted == 6 && evicted == 3 && entries == 3 && passes == 1
    ensures rates == NoRates
  {
    var m, c1, c2, bean := SimpleSetUp();
    cache1Early, totalEarly, cache2Full, totalFull, earlyRates, earlyPasses, earlyInserted, earlyEvicted, earlyEntries :=
      SimpleFirstHalf(m, c1, c2, bean);
    maxSize := m.maxSize;
    afterEviction, cache1Size, cache2Size := SimpleBreach(m, c1, c2);
    afterRemove, cache2AfterRemove := SimpleRemoveCache1(m, c1, c2);
    afterInvalidate, cache2AfterInvalidate := SimpleInvalidate(m, c2);
    bean.RefreshStats(1000);
    rates := bean.rates;
    inserted, evicted, entries, passes := m.stats.inserted, m.stats.evicted, m.EntriesCount(), m.stats.evictionPasses;
  }

  /** One step of evaluating the queue functions on a queue whose oldest entry is `e`. */
  lemma Cons(e: CachedEntry, q: Queue, s: Selector)
    ensures TotalSize([e] + q) == e.entry.size + TotalSize(q)
    ensures Remove([e] + q, s) == (if Selects(s, e) then [] else [e]) + Remove(q, s)
    ensures Removed([e] + q, s) == (if Selects(s, e) then [e] else []) + Removed(q, s)
  {
    assert ([e] + q)[0] == e && ([e] + q)[1..] == q;
  }

  /** cache1 after its two inserts. */
  lemma SimpleEarlySizes()
    ensures LedgerSize([E0, E1], "cache1") == 7
  {
    var s := WholeLedger("cache1");
    Cons(E0, [E1], s);
    Cons(E1, [], s);
    TotalSizeSingle(E1);
    assert [E0] + [E1] == [E0, E1];
  }

  /** cache2 after its three inserts. */
  lemma SimpleFullSizes()
    ensures LedgerSize([E0, E1, F0, F1, F2], "cache2") == 3
  {
    var s := WholeLedger("cache2");
    var t := [F0] + ([F1] + [F2]);
    Cons(E0, [E1] + t, s);
    Cons(E1, t, s);
    Cons(F0, [F1] + [F2], s);
    Cons(F1, [F2], s);
    Cons(F2, [], s);
    TotalSizeSingle(F2);
    assert [E0] + ([E1] + t) == [E0, E1, F0, F1, F2];
    assert Removed(t, s) == t;
  }

  /** The sixth insert breaches the budget of 10 and evicts just the oldest entry. */
  lemma SimpleEviction()
    ensures TotalSize([E0, E1, F0, F1, F2]) == 10
    ensures Admit([E0, E1, F0, F1, F2], F3, 10, 8) == [E1, F0, F1, F2, F3]
    ensures AdmitEvicts([E0, E1, F0, F1, F2], F3, 10, 8) == 1
    ensures TotalSize([E1, F0, F1, F2, F3]) == 7
  {
    var s := WholeLedger("cache1");
    var q := [E0] + ([E1] + ([F0] + ([F1] + [F2])));
    TotalSizeSingle(F2);
    Cons(E0, [E1] + ([F0] + ([F1] + [F2])), s);
    Cons(E1, [F0] + ([F1] + [F2]), s);
    Cons(F0, [F1] + [F2], s);
    Cons(F1, [F2], s);
    assert q == [E0, E1, F0, F1, F2];
    var g := q + [F3];
    TotalSizeAppend(q, [F3]);
    assert g[1..] == [E1, F0, F1, F2, F3];
    assert EvictCount(g[1..], 8) == 0;
  }

  /** The per-cache sizes after the eviction. */
  lemma SimpleLedgers()
    ensures LedgerSize([E1, F0, F1, F2, F3], "cache1") == 3 && LedgerSize([E1, F0, F1, F2, F3], "cache2") == 4
  {
    SimpleLedger1();
    SimpleLedger2();
  }

  lemma SimpleLedger1()
    ensures LedgerSize([E1, F0, F1, F2, F3], "cache1") == 3
  {
    var c1 := WholeLedger("cache1");
    var t3 := [F3];
    var t2 := [F2] + t3;
    var t1 := [F1] + t2;
    var t0 := [F0] + t1;
    TotalSizeSingle(E1);
    Cons(E1, t0, c1); Cons(F0, t1, c1); Cons(F1, t2, c1); Cons(F2, t3, c1); Cons(F3, [], c1);
    assert [E1] + t0 == [E1, F0, F1, F2, F3];
  }

  lemma SimpleLedger2()
    ensures LedgerSize([E1, F0, F1, F2, F3], "cache2") == 4
  {
    var c2 := WholeLedger("cache2");
    var t3 := [F3];
    var t2 := [F2] + t3;
    var t1 := [F1] + t2;
    var t0 := [F0] + t1;
    TotalSizeSingle(F3);
    Cons(E1, t0, c2); Cons(F0, t1, c2); Cons(F1, t2, c2); Cons(F2, t3, c2); Cons(F3, [], c2);
    assert [E1] + t0 == [E1, F0, F1, F2, F3];
    assert Removed([E1] + t0, c2) == t0;
  }

  /** Removing cache1 after the eviction takes out (1,0) alone; cache2 keeps its 4 bytes. */
  lemma SimpleCacheRemoval()
    ensures OfLedger([E1, F0, F1, F2, F3], "cache1") == [E1]
    ensures Remove([E1, F0, F1, F2, F3], WholeLedger("cache1")) == [F0, F1, F2, F3]
    ensures LedgerSize([F0, F1, F2, F3], "cache2") == 4
  {
    var c1, c2 := WholeLedger("cache1"), WholeLedger("cache2");
    var t3 := [F3];
    var t2 := [F2] + t3;
    var t1 := [F1] + t2;
    var t0 := [F0] + t1;
    TotalSizeSingle(F3);
    Cons(E1, t0, c1); Cons(F0, t1, c1); Cons(F1, t2, c1); Cons(F2, t3, c1); Cons(F3, [], c1);
    Cons(F0, t1, c2); Cons(F1, t2, c2); Cons(F2, t3, c2); Cons(F3, [], c2);
    assert [E1] + t0 == [E1, F0, F1, F2, F3];
    assert t0 == [F0, F1, F2, F3];
    assert Removed(t0, c2) == t0;
  }

  /** Invalidating cache2 before (2,1) takes out (2,0) alone. */
  lemma SimpleInvalidation()
    ensures Remove([F0, F1, F2, F3], LedgerBefore("cache2", Position(2, 1))) == [F1, F2, F3]
    ensures Removed([F0, F1, F2, F3], LedgerBefore("cache2", Position(2, 1))) == [F0]
    ensures LedgerSize([F1, F2, F3], "cache2") == 3
  {
    var inv, c2 := LedgerBefore("cache2", Position(2, 1)), WholeLedger("cache2");
    var t3 := [F3];
    var t2 := [F2] + t3;
    var t1 := [F1] + t2;
    Cons(F0, t1, inv); Cons(F1, t2, inv); Cons(F2, t3, inv); Cons(F3, [], inv);
    Cons(F1, t2, c2); Cons(F2, t3, c2); Cons(F3, [], c2);
    TotalSizeSingle(F3);
    TotalSizeSingle(F0);
    assert [F0] + t1 == [F0, F1, F2, F3];
    assert t1 == [F1, F2, F3];
    assert Removed(t1, c2) == t1;
  }

  /**
   * doubleInsert: a second insert at a cached position is refused, even with
   * another size, and changes nothing.
   */
  method DoubleInsertSetUp() returns (m: EntryCacheManager, c1: EntryCache)
    ensures fresh(m) && m.Valid() && m.maxSize == 10 && m.watermark == 0.8
    ensures c1.name == "cache1" && c1.manager == m && !c1.disabled && c1.Registered()
    ensures m.queue == [] && m.size == 0 && m.nextSeqNo == 0 && m.stats == NoCounters
  {
    m := new EntryCacheManager(10, 0.8, 1000);
    c1 := m.GetEntryCache("cache1");
  }

  /** The two distinct inserts of `doubleInsert`, both accepted. */
  method DoubleInsertFill() returns (m: EntryCacheManager, c1: EntryCache, first: bool, second: bool)
    ensures fresh(m) && m.Valid() && m.maxSize == 10 && m.watermark == 0.8
    ensures c1.name == "cache1" && c1.manager == m && !c1.disabled && c1.Registered()
    ensures m.queue == [E0, E1] && m.size == 7 && m.nextSeqNo == 2
    ensures m.stats == CacheCounters(2, 0, 0, 0, 0, 0)
    ensures first && second
  {
    m, c1 := DoubleInsertSetUp();
    first := InsertFits(c1, E0.entry);
    assert m.queue == [E0] && m.size == 4 && m.nextSeqNo == 1;
    assert !c1.disabled && Find(m.queue, "cache1", E1.entry.pos).None?;
    second := InsertFits(c1, E1.entry);
  }

  method DoubleInsertTrace() returns (first: bool, second: bool, cache1Size: nat, total: nat,
                                      duplicate: bool, cache1After: nat, totalAfter: nat,
                                      inserted: nat, entries: nat, evicted: nat)
    ensures first && second && cache1Size == 7 && total == 7
    ensures !duplicate && cache1After == 7 && totalAfter == 7
    ensures inserted == 2 && entries == 2 && evicted == 0
  {
    var m, c1;
    m, c1, first, second := DoubleInsertFill();
    SimpleEarlySizes();
    cache1Size, total := c1.GetSize(), m.size;
    assert E1 in m.queue;
    duplicate := c1.Insert(Entry(Position(1, 0), 5), 0);
    cache1After, totalAfter := c1.GetSize(), m.size;
    inserted, entries, evicted := m.stats.inserted, m.EntriesCount(), m.stats.evicted;
  }

  /** The i-th entry of the `cacheSizeUpdate` trace: position (1,i), i + 1 bytes. */
  function RampEntry(i: nat): CachedEntry {
    CachedEntry("cache1", Entry(Position(1, i), i + 1), i, 0)
  }

  /** The first n entries of the `cacheSizeUpdate` trace. */
  function Ramp(n: nat): Queue {
    seq(n, i requires 0 <= i => RampEntry(i))
  }

  lemma RampGrow(n: nat)
    ensures Ramp(n) + [RampEntry(n)] == Ramp(n + 1)
    ensures forall e :: e in Ramp(n) ==> e.entry.pos.entryId < n
  {
  }

  /** 0 + 1 + ... + n. */
  function Tri(n: nat): nat {
    if n == 0 then 0 else n + Tri(n - 1)
  }

  lemma {:induction false} TriMonotone(j: nat, k: nat)
    requires j <= k
    ensures Tri(j) <= Tri(k)
    decreases k
  {
    if j < k {
      TriMonotone(j, k - 1);
    }
  }

  /** The entries of the ramp from the k-th on hold 1 + ... + n bytes less 1 + ... + k. */
  lemma {:induction false} RampSize(n: nat, k: nat)
    requires k <= n
    ensures TotalSize(Ramp(n)[k..]) == Tri(n) - Tri(k)
    ensures Tri(k) <= Tri(n)
    decreases n - k
  {
    TriMonotone(k, n);
    if k < n {
      RampSize(n, k + 1);
      assert Ramp(n)[k..][1..] == Ramp(n)[k + 1..];
      assert Ramp(n)[k..][0] == RampEntry(k);
    } else {
      assert Ramp(n)[k..] == [];
    }
  }

  /** Past the first ten entries, the size-triggered pass over the 20-entry ramp evicts the rest of the first ten. */
  lemma {:induction false} RampEvictCount(k: nat)
    requires k <= 10
    ensures EvictCount(Ramp(20)[k..], 160) == 10 - k
    decreases 10 - k
  {
    RampSize(20, k);
    TriValues();
    if k < 10 {
      TriMonotone(k, 9);
      RampEvictCount(k + 1);
      assert Ramp(20)[k..][1..] == Ramp(20)[k + 1..];
    }
  }

  lemma TriValues()
    ensures Tri(9) == 45 && Tri(10) == 55 && Tri(19) == 190 && Tri(20) == 210
  {
  }

  /** The first 19 inserts of `cacheSizeUpdate` all fit the budget of 200: they reach 190 bytes. */
  method RampFill() returns (m: EntryCacheManager, c1: EntryCache, allInserted: bool)
    ensures fresh(m) && m.Valid() && m.maxSize == 200 && m.Target() == 160
    ensures c1.name == "cache1" && c1.manager == m && c1.Registered()
    ensures m.queue == Ramp(19) && m.size == 190 && m.nextSeqNo == 19
    ensures m.stats == NoCounters.(inserted := 19) && allInserted
  {
    m := new EntryCacheManager(200, 0.8, 20000);
    c1 := m.GetEntryCache("cache1");
    assert m.Target() == 160;
    TriValues();
    allInserted := true;
    var i := 0;
    while i < 19
      invariant 0 <= i <= 19
      invariant m.Valid() && m.maxSize == 200 && m.Target() == 160
      invariant c1.name == "cache1" && c1.manager == m && c1.Registered()
      invariant m.queue == Ramp(i) && m.size == Tri(i) && m.nextSeqNo == i
      invariant m.stats == NoCounters.(inserted := i) && allInserted
    {
      TriMonotone(i + 1, 19);
      RampGrow(i);
      var ok := InsertFits(c1, RampEntry(i).entry);
      allInserted := allInserted && ok;
      i := i + 1;
    }
  }

  /**
   * cacheSizeUpdate: budget 200, watermark 0.8; 20 entries of 1 to 20 bytes.
   * The last insert takes the aggregate to 210, and the pass evicts the ten
   * oldest entries, down to 155 (at most 160). Removing the cache then takes
   * the remaining ten: 20 inserted, 20 evicted, nothing left.
   */
  method CacheSizeUpdateTrace() returns (allInserted: bool, afterEviction: nat,
                                         inserted: nat, entries: nat, total: nat, evicted: nat)
    ensures allInserted && afterEviction == 155
    ensures inserted == 20 && entries == 0 && total == 0 && evicted == 20
  {
    var m, c1;
    m, c1, allInserted := RampFill();
    RampGrow(19);
    RampTwenty();
    RampRemoval();
    var ok := c1.Insert(RampEntry(19).entry, 0);
    allInserted := allInserted && ok;
    afterEviction := m.size;

    m.RemoveEntryCache("cache1");
    inserted, entries, total, evicted := m.stats.inserted, m.EntriesCount(), m.size, m.stats.evicted;
  }

  /** The twentieth insert of `cacheSizeUpdate`: one pass evicting ten entries, leaving 155 bytes. */
  lemma RampTwenty()
    ensures TotalSize(Ramp(19)) == 190
    ensures Admit(Ramp(19), RampEntry(19), 200, 160) == Ramp(20)[10..]
    ensures AdmitEvicts(Ramp(19), RampEntry(19), 200, 160) == 10
    ensures TotalSize(Ramp(20)[10..]) == 155
  {
    assert Ramp(19) + [RampEntry(19)] == Ramp(20);
    RampSize(19, 0);
    RampSize(20, 0);
    RampSize(20, 10);
    assert Ramp(20)[0..] == Ramp(20) && Ramp(19)[0..] == Ramp(19);
    TriValues();
    RampEvictCount(0);
  }

  /** Removing the cache after the pass takes out the ten entries left. */
  lemma RampRemoval()
    ensures Remove(Ramp(20)[10..], WholeLedger("cache1")) == []
    ensures |OfLedger(Ramp(20)[10..], "cache1")| == 10
  {
    var q := Ramp(20)[10..];
    assert forall e :: e in q ==> e.ledger == "cache1";
    RemoveAll(q, WholeLedger("cache1"));
  }

  /**
   * cacheDisabled: with a budget of 0 both caches are the disabled variant;
   * their inserts report success and keep nothing, and every statistic
   * stays 0.
   */
  method CacheDisabledTrace() returns (bothDisabled: bool, inserts: bool, cache1Size: nat, total: nat,
                                       maxSize: nat, rates: Rates, passes: nat, inserted: nat,
                                       entries: nat, evicted: nat, cache2Size: nat, totalAfter: nat)
    ensures bothDisabled && inserts && cache1Size == 0 && total == 0
    ensures maxSize == 0 && rates == NoRates && passes == 0 && inserted == 0 && entries == 0 && evicted == 0
    ensures cache2Size == 0 && totalAfter == 0
  {
    var m := new EntryCacheManager(0, 0.8, 1000);
    var bean := new FactoryMBean(m);
    var c1 := m.GetEntryCache("cache1");
    var c2 := m.GetEntryCache("cache2");
    bothDisabled := c1.disabled && c2.disabled;
    var a := c1.Insert(E0.entry, 0);
    var b := c1.Insert(E1.entry, 0);
    inserts := a && b;
    cache1Size, total := c1.GetSize(), m.size;
    bean.RefreshStats(1000);
    maxSize, rates := m.maxSize, bean.rates;
    passes, inserted, entries, evicted := m.stats.evictionPasses, m.stats.inserted, m.EntriesCount(), m.stats.evicted;
    a := c2.Insert(F0.entry, 0);
    b := c2.Insert(F1.entry, 0);
    var c := c2.Insert(F2.entry, 0);
    inserts := inserts && a && b && c;
    cache2Size, totalAfter := c2.GetSize(), m.size;
  }

  /** The i-th entry of the `verifyHitsMisses` trace: "entry-i" is 7 bytes. */
  function HitEntry(i: nat): CachedEntry {
    CachedEntry("ledger", Entry(Position(1, i), 7), i, 0)
  }

  function HitEntries(n: nat): Queue {
    seq(n, i requires 0 <= i => HitEntry(i))
  }

  lemma {:induction false} HitEntriesSize(n: nat)
    ensures TotalSize(HitEntries(n)) == 7 * n
  {
    if n > 0 {
      HitEntriesSize(n - 1);
      assert HitEntries(n - 1) + [HitEntry(n - 1)] == HitEntries(n);
      TotalSizeAppend(HitEntries(n - 1), [HitEntry(n - 1)]);
      TotalSizeSingle(HitEntry(n - 1));
    }
  }

  lemma HitEntriesGrow(n: nat)
    ensures HitEntries(n) + [HitEntry(n)] == HitEntries(n + 1)
    ensures forall e :: e in HitEntries(n) ==> e.entry.pos.entryId < n
  {
  }

  /** Ten entries of 7 bytes are added to the ledger's cache (budget 100): all fit, 70 bytes. */
  method HitsFill() returns (m: EntryCacheManager, c: EntryCache, bean: FactoryMBean)
    ensures fresh(m) && fresh(bean) && bean.manager == m && bean.last == NoCounters && m.Valid()
    ensures c.name == "ledger" && c.manager == m && c.Registered()
    ensures m.queue == HitEntries(10) && m.size == 70 && m.stats == NoCounters.(inserted := 10)
  {
    m := new EntryCacheManager(100, 0.8, 1000);
    bean := new FactoryMBean(m);
    c := m.GetEntryCache("ledger");
    var i := 0;
    while i < 10
      invariant 0 <= i <= 10
      invariant m.Valid() && m.maxSize == 100 && c.name == "ledger" && c.manager == m && c.Registered()
      invariant m.queue == HitEntries(i) && m.nextSeqNo == i && m.stats == NoCounters.(inserted := i)
      invariant bean.last == NoCounters
    {
      HitEntriesSize(i);
      HitEntriesGrow(i);
      var ok := InsertFits(c, HitEntry(i).entry);
      i := i + 1;
    }
    HitEntriesSize(10);
  }

  /** A cursor reads the ten entries back: ten hits of 7 bytes each, all served from the cache. */
  method HitsRead(m: EntryCacheManager, c: EntryCache) returns (allFromCache: bool)
    requires m.Valid() && c.name == "ledger" && c.manager == m && c.Registered()
    requires m.queue == HitEntries(10)
    modifies m
    ensures m.Valid() && c.Registered() && m.queue == old(m.queue) && allFromCache
    ensures m.caches == old(m.caches) && m.nextSeqNo == old(m.nextSeqNo)
    ensures m.stats == old(m.stats).(hits := old(m.stats).hits + 10, hitBytes := old(m.stats).hitBytes + 70)
  {
    allFromCache := true;
    var i := 0;
    while i < 10
      invariant 0 <= i <= 10
      invariant m.Valid() && c.Registered() && m.queue == HitEntries(10) && allFromCache
      invariant m.caches == old(m.caches) && m.nextSeqNo == old(m.nextSeqNo)
      invariant m.stats == old(m.stats).(hits := old(m.stats).hits + i, hitBytes := old(m.stats).hitBytes + 7 * i)
    {
      FindOwnKey(m.queue, i);
      var r := c.AsyncReadEntry(Position(1, i), NoEntry, 0);
      allFromCache := allFromCache && r.Served? && r.fromCache;
      i := i + 1;
    }
  }

  /**
   * verifyHitsMisses, up to the first cursor's deactivation: after the ten
   * adds the rates are 0; after ten cache reads the window rates are 10
   * hits and 70 bytes per second and no misses; the next window has no reads,
   * so all its rates are 0. The cache stays at 70 bytes and no pass runs.
   */
  method HitsMissesTrace() returns (used1: nat, rates1: Rates, passes1: nat,
                                    allFromCache: bool, used2: nat, rates2: Rates, passes2: nat,
                                    used3: nat, rates3: Rates, passes3: nat)
    ensures used1 == 70 && rates1 == NoRates && passes1 == 0
    ensures allFromCache && used2 == 70 && rates2 == Rates(10.0, 0.0, 70.0) && passes2 == 0
    ensures used3 == 70 && rates3 == NoRates && passes3 == 0
  {
    var m, c, bean := HitsFill();
    RefreshQuiet(bean);
    used1, rates1, passes1 := m.size, bean.rates, m.stats.evictionPasses;
    allFromCache := HitsRead(m, c);
    RefreshAfterTenHits(bean);
    used2, rates2, passes2 := m.size, bean.rates, m.stats.evictionPasses;
    RefreshQuiet(bean);
    used3, rates3, passes3 := m.size, bean.rates, m.stats.evictionPasses;
  }

  /** A one-second refresh after a window without reads: all rates 0. */
  method RefreshQuiet(bean: FactoryMBean)
    requires bean.manager.stats.hits == bean.last.hits && bean.manager.stats.misses == bean.last.misses
    requires bean.manager.stats.hitBytes == bean.last.hitBytes
    modifies bean
    ensures bean.rates == NoRates && bean.last == bean.manager.stats
  {
    QuietWindow(bean.last, bean.manager.stats, 1000);
    bean.RefreshStats(1000);
  }

  /** A one-second refresh after a window of ten cache reads of 7 bytes. */
  method RefreshAfterTenHits(bean: FactoryMBean)
    requires bean.manager.stats == bean.last.(hits := bean.last.hits + 10, hitBytes := bean.last.hitBytes + 70)
    modifies bean
    ensures bean.rates == Rates(10.0, 0.0, 70.0) && bean.last == bean.manager.stats
  {
    OneSecondWindow(bean.last, bean.manager.stats);
    bean.RefreshStats(1000);
  }

  /**
   * verifyTimeBasedEviction: budget 1000, entries expire after 100 ms; two
   * entries inserted at time 0 are gone after the pass at time 1000.
   */
  method TimeBasedEvictionTrace() returns (before: nat, cacheBefore: nat, total: nat, cacheSize: nat)
    ensures before == 0 && cacheBefore == 0 && total == 0 && cacheSize == 0
  {
    var m := new EntryCacheManager(1000, 0.8, 100);
    before := m.size;
    var c := m.GetEntryCache("test");
    cacheBefore := c.GetSize();
    assert c.Registered();
    var ok := InsertFits(c, Entry(Position(1, 0), 4));
    ok := InsertFits(c, Entry(Position(1, 1), 3));
    assert forall e :: e in m.queue ==> e.insertedAt == 0;
    m.EvictExpired(1000);
    total, cacheSize := m.size, c.GetSize();
  }

  /**
   * entryCacheDisabledAsyncReadEntry: with a budget of 0, a read of (1,1)
   * goes to storage and completes with what storage returned; nothing is
   * cached.
   */
  method DisabledReadTrace(stored: nat) returns (r: ReadResult, total: nat)
    ensures r == Served(Entry(Position(1, 1), stored), false)
    ensures total == 0
  {
    var m := new EntryCacheManager(0, 0.8, 1000);
    var c := m.GetEntryCache("cache1");
    r := c.AsyncReadEntry(Position(1, 1), Stored(stored), 0);
    total := m.size;
  }
}
