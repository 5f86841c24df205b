# Managed-ledger entry cache

A model of the entry cache in Apache Pulsar's managed ledger. The model is built from the behaviour that `EntryCacheManagerTest` pins down.

- **The coordinator** is `EntryCacheManager`. It has a byte budget `maxSize`, an eviction watermark and a time threshold. It keeps:
  - a registry that maps ledger names to caches;
  - every cached entry of every ledger in one queue, in global insertion order;
  - the aggregate size;
  - cumulative counters: inserted, evicted, eviction passes, hits, hit bytes and misses.
- **A ledger's cache** is `EntryCache`. Its contents are the queue entries that carry its ledger name, keyed by `Position (ledgerId, entryId)`.
  - `Insert` rejects a position that is already cached.
  - `InvalidateEntries(p)` drops this ledger's entries that lie strictly before `p`.
  - `InvalidateAll` empties the cache.
  - `AsyncReadEntry` serves a hit from the cache. On a miss it completes with the storage reply and offers the entry to the cache.
- **Eviction.** An insert that takes the aggregate strictly above `maxSize` runs a size-triggered pass at once. The pass evicts whole entries, oldest insertion first across all caches, until the aggregate is at most floor(maxSize · watermark). `EvictExpired(now)` is the periodic time-based pass: it removes every entry older than the threshold.
- **The disabled variant.** A budget of 0 hands out the disabled variant for every ledger. Inserts keep nothing and count nothing, so every size stays 0, and every read goes to storage and counts one miss.
- **Statistics.** The statistics bean `FactoryMBean.RefreshStats(periodMs)` turns the counter deltas since the previous refresh into per-second rates.

The module `Scenarios` replays these tests, each by one top-level method: `simple`, `doubleInsert`, `cacheSizeUpdate`, `cacheDisabled`, `verifyHitsMisses` up to line 336, `verifyTimeBasedEviction` and `entryCacheDisabledAsyncReadEntry`. Each method's `ensures` gives the sizes, counters and rates that the test asserts. `verifyNoCacheIfNoConsumer` is not replayed (see "## Left out").

The bound of `invalidateEntries` is exclusive: invalidating at (2,1) removes only (2,0) of the 1-byte entries (2,0)..(2,3) (`EntryCacheManagerTest.java:127-130`).

Some modelled behaviour is not asserted by any test. These are the model's own choices:
- The disabled variant's `Insert` returns true. The test discards that return value (lines 231-232, 248-250).
- A read that is not a hit counts one miss.
- A storage failure completes the read with an error and leaves the cache as it was.
- An entry read from storage is offered to the cache (read-through admission).
- An insert through a handle whose cache was removed from the registry returns false and changes nothing.
- Time-based passes do not count as eviction passes. Only size-triggered passes do.

The storage reply to a read and the clock reading are parameters. They are never performed or read.

## Model

Every row cites the one test file the model is built from.

| member | source | states |
|---|---|---|
| Positions.Compare | managed-ledger/src/test/java/org/apache/bookkeeper/mledger/impl/EntryCacheManagerTest.java:127-130 | Position order is by ledger id, then entry id. The result is negative, zero or positive exactly when the first position is before, equal to or after the second. Invalidation selects the entries whose position compares below the bound. |
| CacheEntries.Find | managed-ledger/src/test/java/org/apache/bookkeeper/mledger/impl/EntryCacheManagerTest.java:157-169 | The lookup of a ledger's position finds nothing exactly when no cached entry of that ledger has that position. Otherwise it returns an entry with that key. |
| CacheEntries.FindOwnKey | managed-ledger/src/test/java/org/apache/bookkeeper/mledger/impl/EntryCacheManagerTest.java:318-326 | In a well-formed queue, looking up a cached entry's own key returns that very entry. This is why a read of a cached position is a hit that serves the stored bytes. |
| CacheEntries.RemoveMembers | managed-ledger/src/test/java/org/apache/bookkeeper/mledger/impl/EntryCacheManagerTest.java:123-130 | A removal keeps exactly the unselected entries and reports exactly the selected ones. |
| CacheEntries.RemoveSplit | managed-ledger/src/test/java/org/apache/bookkeeper/mledger/impl/EntryCacheManagerTest.java:123-130 | The bytes and the entry counts of what a removal keeps and what it reports add up to those of the old queue. So every size delta is accounted exactly once. |
| CacheEntries.RemoveIdempotent | managed-ledger/src/test/java/org/apache/bookkeeper/mledger/impl/EntryCacheManagerTest.java:127-130 | A second removal with the same selector (such as a repeated invalidation at the same bound) keeps the queue and removes nothing. |
| CacheEntries.RemoveAll | managed-ledger/src/test/java/org/apache/bookkeeper/mledger/impl/EntryCacheManagerTest.java:207-211 | When every entry is selected, a removal keeps nothing and reports the whole queue. |
| CacheEntries.RemoveLeavesOtherLedgers | managed-ledger/src/test/java/org/apache/bookkeeper/mledger/impl/EntryCacheManagerTest.java:123-125 | A removal scoped to one ledger leaves the entries of every other ledger exactly as they were. |
| CacheEntries.RemoveWellFormed | managed-ledger/src/test/java/org/apache/bookkeeper/mledger/impl/EntryCacheManagerTest.java:123-130 | A removal keeps the queue in insertion order and keeps every ledger's keys unique. |
| CacheEntries.AppendWellFormed | managed-ledger/src/test/java/org/apache/bookkeeper/mledger/impl/EntryCacheManagerTest.java:157-163 | Appending a newer entry whose key is not cached keeps the queue ordered and its keys unique. |
| CacheEntries.AppendLedgerSize | managed-ledger/src/test/java/org/apache/bookkeeper/mledger/impl/EntryCacheManagerTest.java:89-93 | An appended entry grows the size of its own ledger by its size, and no other ledger's. |
| CacheEntries.DropOldest | managed-ledger/src/test/java/org/apache/bookkeeper/mledger/impl/EntryCacheManagerTest.java:115-121 | Evicting the oldest entry lowers only its own ledger's size, by exactly that entry's size. |
| CacheEntries.EvictCount | managed-ledger/src/test/java/org/apache/bookkeeper/mledger/impl/EntryCacheManagerTest.java:113-121 | The number of oldest entries a pass evicts is at most the queue length. What remains is within the target. |
| CacheEntries.EvictCountMinimal | managed-ledger/src/test/java/org/apache/bookkeeper/mledger/impl/EntryCacheManagerTest.java:113-121 | No shorter prefix would do: before each evicted entry goes, the total is still above the target. A pass never evicts more than it must. |
| CacheEntries.WatermarkTarget | managed-ledger/src/test/java/org/apache/bookkeeper/mledger/impl/EntryCacheManagerTest.java:76-80 | The target is floor(maxSize · watermark). It is never above maxSize. |
| CacheEntries.Admit | managed-ledger/src/test/java/org/apache/bookkeeper/mledger/impl/EntryCacheManagerTest.java:106-121 | An admission that keeps the total at or below maxSize appends the entry and evicts nothing. One that takes the total strictly above maxSize ends at or below the target and keeps a suffix of the grown queue. So the evicted entries are the oldest insertions across all caches, whatever their positions. The result is always within the budget. |
| CacheEntries.AdmitWithinBudget | managed-ledger/src/test/java/org/apache/bookkeeper/mledger/impl/EntryCacheManagerTest.java:89-93 | Within the budget, an admission grows its own ledger's size by the entry's size and leaves every other ledger's size unchanged. |
| CacheEntries.SumOfLedgersAfterDrop | managed-ledger/src/test/java/org/apache/bookkeeper/mledger/impl/EntryCacheManagerTest.java:123-125 | Dropping one ledger leaves the summed size of the other ledgers unchanged. |
| CacheEntries.AggregateIsSumOfLedgers | managed-ledger/src/test/java/org/apache/bookkeeper/mledger/impl/EntryCacheManagerTest.java:89-93 | The total size of the queue equals the sum of the sizes of the distinct registered ledgers its entries belong to. |
| CacheStats.Rate | managed-ledger/src/test/java/org/apache/bookkeeper/mledger/impl/EntryCacheManagerTest.java:322-326 | A rate times the window length equals the delta per 1000 ms. It is 0 exactly when the delta is 0, and never negative for a non-negative delta. |
| CacheStats.WindowRates | managed-ledger/src/test/java/org/apache/bookkeeper/mledger/impl/EntryCacheManagerTest.java:311-336 | The hits rate, misses rate and hit throughput are the per-second deltas of the counters over the window. A window in which nothing changed gives all zeros. |
| CacheStats.OneSecondWindow | managed-ledger/src/test/java/org/apache/bookkeeper/mledger/impl/EntryCacheManagerTest.java:322-326 | Over a one-second window each rate is the counter delta itself. |
| CacheStats.QuietWindow | managed-ledger/src/test/java/org/apache/bookkeeper/mledger/impl/EntryCacheManagerTest.java:329-336 | A window with no reads has all rates 0, whatever else was counted. |
| EntryCaches.EntryCacheManager.EntriesCount | managed-ledger/src/test/java/org/apache/bookkeeper/mledger/impl/EntryCacheManagerTest.java:102-104 | The live entry count equals inserted minus evicted. |
| EntryCaches.EntryCacheManager.AggregateIsSumOfCaches | managed-ledger/src/test/java/org/apache/bookkeeper/mledger/impl/EntryCacheManagerTest.java:89-111 | The aggregate size equals the sum of the registered caches' sizes. Each cache's `GetSize` is its ledger's share of the queue. |
| EntryCaches.EntryCacheManager.constructor | managed-ledger/src/test/java/org/apache/bookkeeper/mledger/impl/EntryCacheManagerTest.java:76-85 | A new coordinator has no caches, no entries, size 0 and all counters 0. |
| EntryCaches.EntryCacheManager.GetEntryCache | managed-ledger/src/test/java/org/apache/bookkeeper/mledger/impl/EntryCacheManagerTest.java:85-87 | Returns the registered cache of the ledger, or registers a fresh one. The cache is the disabled variant exactly when the budget is 0. Entries, sizes and counters are unchanged. |
| EntryCaches.EntryCacheManager.RemoveEntries | managed-ledger/src/test/java/org/apache/bookkeeper/mledger/impl/EntryCacheManagerTest.java:123-130 | The selected entries leave the queue. The aggregate drops by their bytes and the evicted counter grows by their number. |
| EntryCaches.EntryCacheManager.RemoveEntryCache | managed-ledger/src/test/java/org/apache/bookkeeper/mledger/impl/EntryCacheManagerTest.java:123-125 | Unregisters the ledger's cache and evicts all its entries. The aggregate drops by exactly that cache's size, other ledgers keep their entries, the sequence counter is unchanged, and an unknown name changes nothing. |
| EntryCaches.EntryCacheManager.AddEntry | managed-ledger/src/test/java/org/apache/bookkeeper/mledger/impl/EntryCacheManagerTest.java:89-90 | Appends the entry, grows the aggregate by its size and counts one insertion. |
| EntryCaches.EntryCacheManager.EvictToWatermark | managed-ledger/src/test/java/org/apache/bookkeeper/mledger/impl/EntryCacheManagerTest.java:113-121 | Evicts the `EvictCount` oldest entries, ending within the budget and counting them and one pass. |
| EntryCaches.EntryCacheManager.EvictDownTo | managed-ledger/src/test/java/org/apache/bookkeeper/mledger/impl/EntryCacheManagerTest.java:113-121 | Evicts exactly the `EvictCount` oldest entries and no more, leaving the aggregate at or below the target. The evicted counter grows by that number. |
| EntryCaches.EntryCacheManager.CountPass | managed-ledger/src/test/java/org/apache/bookkeeper/mledger/impl/EntryCacheManagerTest.java:139 | Counts one size-triggered pass and changes nothing else. |
| EntryCaches.EntryCacheManager.EvictOldest | managed-ledger/src/test/java/org/apache/bookkeeper/mledger/impl/EntryCacheManagerTest.java:113-121 | Drops the head of the queue and lowers the aggregate by its size. |
| EntryCaches.EntryCacheManager.EvictExpired | managed-ledger/src/test/java/org/apache/bookkeeper/mledger/impl/EntryCacheManagerTest.java:389-396 | Keeps exactly the entries no older than the threshold, whatever the aggregate. Removed bytes and entries are accounted. No size-triggered pass is counted. |
| EntryCaches.NothingSelected | managed-ledger/src/test/java/org/apache/bookkeeper/mledger/impl/EntryCacheManagerTest.java:123 | A removal that selects nothing leaves the queue unchanged. |
| EntryCaches.EntryCache.GetSize | managed-ledger/src/test/java/org/apache/bookkeeper/mledger/impl/EntryCacheManagerTest.java:234-235 | A disabled cache always reports size 0. |
| EntryCaches.EntryCache.Insert | managed-ledger/src/test/java/org/apache/bookkeeper/mledger/impl/EntryCacheManagerTest.java:157-169 | Succeeds exactly when the cache is disabled or the position is not yet cached. A rejected insert changes nothing, even with another payload size. An accepted one appends the entry, then runs a pass exactly when the total exceeds the budget. The counters follow `Admit`. |
| EntryCaches.EntryCache.InvalidateEntries | managed-ledger/src/test/java/org/apache/bookkeeper/mledger/impl/EntryCacheManagerTest.java:127-130 | Removes exactly this ledger's entries strictly before the bound and accounts them. Other ledgers' entries are unchanged. On a removed cache it does nothing. |
| EntryCaches.EntryCache.InvalidateAll | managed-ledger/src/test/java/org/apache/bookkeeper/mledger/impl/EntryCacheManagerTest.java:123-125 | Empties this cache, which stays registered. The aggregate drops by its old size. |
| EntryCaches.EntryCache.AsyncReadEntry | managed-ledger/src/test/java/org/apache/bookkeeper/mledger/impl/EntryCacheManagerTest.java:399-430 | A cached position is served from the cache and counts a hit and its bytes. Otherwise it counts a miss and completes with the storage reply. A stored entry is offered to the cache, and admitting it takes the next sequence number. A storage failure leaves the entries as they were. The disabled variant always goes to storage. |
| FactoryStats.FactoryMBean.constructor | managed-ledger/src/test/java/org/apache/bookkeeper/mledger/impl/EntryCacheManagerTest.java:95-100 | A new bean publishes all rates 0 and takes the coordinator's current counters as the start of its first window. |
| FactoryStats.FactoryMBean.RefreshStats | managed-ledger/src/test/java/org/apache/bookkeeper/mledger/impl/EntryCacheManagerTest.java:311-336 | Publishes the window rates since the previous refresh and remembers the current counters. An empty window changes nothing. |
| Scenarios.InsertFits | managed-ledger/src/test/java/org/apache/bookkeeper/mledger/impl/EntryCacheManagerTest.java:89-90 | An admitted insert that fits the budget succeeds, appends the entry and evicts nothing. |
| Scenarios.SimpleEviction | managed-ledger/src/test/java/org/apache/bookkeeper/mledger/impl/EntryCacheManagerTest.java:106-121 | At aggregate 10, admitting a 1-byte entry with budget 10 and target 8 evicts exactly entry (1,1) of cache1 and leaves 7. |
| Scenarios.SimpleInvalidation | managed-ledger/src/test/java/org/apache/bookkeeper/mledger/impl/EntryCacheManagerTest.java:127-130 | Invalidating (2,0)..(2,3) at (2,1) removes (2,0) alone, leaving 3 bytes. |
| Scenarios.SimpleBreach | managed-ledger/src/test/java/org/apache/bookkeeper/mledger/impl/EntryCacheManagerTest.java:113-121 | The insert that breaks the budget yields aggregate 7, cache1 3, cache2 4, with one eviction and one pass. |
| Scenarios.SimpleTrace | managed-ledger/src/test/java/org/apache/bookkeeper/mledger/impl/EntryCacheManagerTest.java:74-143 | The whole `simple` test. Sizes go 7/7, then 3/10, then 7 with cache1 3 and cache2 4, then 4/4, then 3/3. The maximum size is 10. The first refresh gives all rates 0, passes 0, inserted 2, evicted 0, entries 2. At the end: inserted 6, evicted 3, entries 3, passes 1, all rates 0. |
| Scenarios.DoubleInsertFill | managed-ledger/src/test/java/org/apache/bookkeeper/mledger/impl/EntryCacheManagerTest.java:157-161 | The two distinct inserts of `doubleInsert` both succeed and leave entries (1,1), (1,0) holding 7 bytes, with 2 insertions counted. |
| Scenarios.DoubleInsertTrace | managed-ledger/src/test/java/org/apache/bookkeeper/mledger/impl/EntryCacheManagerTest.java:145-170 | Two inserts succeed (7/7). The duplicate of (1,0) with 5 bytes is refused and sizes stay 7/7. Inserted 2, entries 2, evicted 0. |
| Scenarios.RampSize | managed-ledger/src/test/java/org/apache/bookkeeper/mledger/impl/EntryCacheManagerTest.java:188-191 | The entries of sizes k+1..n hold Tri(n) − Tri(k) bytes. |
| Scenarios.RampEvictCount | managed-ledger/src/test/java/org/apache/bookkeeper/mledger/impl/EntryCacheManagerTest.java:193-197 | A pass over sizes k+1..20 with target 160 evicts the 10 − k oldest entries. |
| Scenarios.RampFill | managed-ledger/src/test/java/org/apache/bookkeeper/mledger/impl/EntryCacheManagerTest.java:188-191 | The first 19 inserts of sizes 1..19 all succeed and hold 190 bytes without eviction. |
| Scenarios.CacheSizeUpdateTrace | managed-ledger/src/test/java/org/apache/bookkeeper/mledger/impl/EntryCacheManagerTest.java:172-212 | 20 inserts of sizes 1..20 with budget 200 and watermark 0.8 all succeed and end at exactly 155. Removing the cache leaves inserted 20, entries 0, size 0, evicted 20. |
| Scenarios.CacheDisabledTrace | managed-ledger/src/test/java/org/apache/bookkeeper/mledger/impl/EntryCacheManagerTest.java:215-254 | With budget 0 both caches are disabled and inserts report success. Every size, counter and rate stays 0. |
| Scenarios.HitsFill | managed-ledger/src/test/java/org/apache/bookkeeper/mledger/impl/EntryCacheManagerTest.java:307-309 | Ten 7-byte entries are admitted one by one. Afterwards the queue holds all ten and the size is 70. |
| Scenarios.HitsRead | managed-ledger/src/test/java/org/apache/bookkeeper/mledger/impl/EntryCacheManagerTest.java:318-320 | Reading the ten cached positions serves them all from the cache: ten hits and 70 hit bytes. The queue, the registry and the sequence counter are unchanged, and no other counter moves. |
| Scenarios.HitsMissesTrace | managed-ledger/src/test/java/org/apache/bookkeeper/mledger/impl/EntryCacheManagerTest.java:288-336 | Used size stays 70 through three one-second refreshes. The rates are 0, then hits 10 and throughput 70, then 0 again. No pass runs. |
| Scenarios.TimeBasedEvictionTrace | managed-ledger/src/test/java/org/apache/bookkeeper/mledger/impl/EntryCacheManagerTest.java:364-397 | Two entries far below the budget are all gone after a time-based pass 1000 ms later with threshold 100 ms. Cache and aggregate end at 0. |
| Scenarios.DisabledReadTrace | managed-ledger/src/test/java/org/apache/bookkeeper/mledger/impl/EntryCacheManagerTest.java:399-430 | A read on a disabled cache completes with the entry from storage, not from the cache. Nothing is cached. |

## Left out

- **Asynchrony.** The completion callbacks and futures are not modelled. Nor are the background eviction scheduler, `waitForPendingCacheEvictions`, Awaitility polling and coalescing of pending passes. A size-triggered pass runs synchronously at the end of the insert that exceeds the budget, which is the state the tests wait for.
- **Concurrency.** Per-key creation races and locking are not modelled: the model is sequential.
- **The periodic time-based scheduler.** `TimeBasedEvictionTrace` runs one `EvictExpired` at the clock reading that ends `Thread.sleep(1000)`. It does not run a pass every 10 ms. The clock is an explicit integer parameter.
- **Reference-counted buffers.** Payloads, `release()` and the random consumption of entry buffers (lines 199-205) are not modelled. An entry is only a position and a byte size.
- **Cursor and ledger machinery.** `ManagedLedgerImpl`, `ManagedCursorImpl` and the rule that nothing is cached without an active consumer are not part of this model. So `verifyNoCacheIfNoConsumer` (lines 256-286) is not modelled. Neither is the second half of `verifyHitsMisses` (lines 338-361), where deactivating/reading cursors and mark-delete eviction empty the cache. In `HitsMissesTrace` the ledger's `addEntry` (lines 307-309) is modelled as a direct cache insert, and `readEntries` on the cursor as ten single-position reads.
- **Read coalescing and range reads.** Range reads and the cache-eviction-by-mark-deleted-position preference are not modelled.
- **Implementation classes.** The source of `EntryCacheManager`, `EntryCache`, `EntryCacheDisabled` and the factory's statistics bean is not part of this model. Their behaviour is reconstructed from what the test asserts, plus the choices listed above.
- **Floating point.** The watermark is an exact real, and the target is its product with the budget, rounded down. Rates are exact rationals, not doubles.
- **Integer widths.** Positions, sizes and counters are unbounded. Java `long` overflow is not modelled.
- **Mocks.** The BookKeeper read handle is replaced by a `StorageReply` parameter. The check that the disabled cache called `readUnconfirmedAsync` (line 429) appears as the read completing with `fromCache == false`.
- **Ledger ids.** Tests that never name a ledger id (`verifyHitsMisses`, `verifyTimeBasedEviction`) use ledger id 1 for their positions.
