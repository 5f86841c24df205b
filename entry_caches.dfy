/**
 * The cache coordinator (EntryCacheManager) and the per-ledger caches
 * (EntryCache, and its disabled variant) it hands out.
 *
 * The coordinator holds every cached entry of every registered ledger in one
 * queue in global insertion order, the aggregate size, and the cumulative
 * counters. An EntryCache is the handle a ledger uses: its contents are the
 * entries of the queue that carry its ledger name.
 */
module EntryCaches {
  import opened Positions
  import opened CacheEntries
  import opened CacheStats

  /** What durable storage answers to a read of one position. */
  datatype StorageReply = Stored(size: nat) | NoEntry | StorageFailure(cause: string)

  datatype CacheError =
    | PositionNotFound       // storage returned no entry for the position
    | StorageError(cause: string)

  datatype ReadResult = Served(entry: Entry, fromCache: bool) | ReadFailed(error: CacheError)

  /** How a read completes once storage has answered it. */
  function FromStorage(pos: Position, reply: StorageReply): ReadResult {
    match reply
    case Stored(s) => Served(Entry(pos, s), false)
    case NoEntry => ReadFailed(PositionNotFound)
    case StorageFailure(c) => ReadFailed(StorageError(c))
  }

  /** The counters after `e` is admitted into `q` and the budget is enforced. */
  function AdmitCounters(st: CacheCounters, q: Queue, e: CachedEntry, maxSize: nat, target: nat): CacheCounters {
    st.(inserted := st.inserted + 1,
        evicted := st.evicted + AdmitEvicts(q, e, maxSize, target),
        evictionPasses := st.evictionPasses + if TotalSize(q) + e.entry.size > maxSize then 1 else 0)
  }

  class EntryCacheManager {
    const maxSize: nat               // the byte budget; 0 disables caching
    const watermark: real            // eviction brings the aggregate to floor(maxSize * watermark)
    const evictionThresholdMs: nat   // entries older than this are removed by time-based eviction

    var caches: map<string, EntryCache>   // the registry, by ledger name
    var queue: Queue                      // all cached entries, oldest insertion first
    var size: nat                         // the aggregate size, kept by size deltas
    var nextSeqNo: nat
    var stats: CacheCounters

    function Target(): nat
      requires 0.0 < watermark <= 1.0
    {
      WatermarkTarget(maxSize, watermark)
    }

    /** Everything the coordinator keeps true, except the budget itself. */
    ghost predicate Consistent()
      reads this
    {
      && 0.0 < watermark <= 1.0
      && size == TotalSize(queue)
      && WellFormed(queue)
      && (forall e :: e in queue ==> e.seqNo < nextSeqNo && e.ledger in caches)
      && (forall n :: n in caches ==>
            caches[n].name == n && caches[n].manager == this && caches[n].disabled == (maxSize == 0))
      && (maxSize == 0 ==> queue == [])
      && stats.inserted == stats.evicted + |queue|
    }

    /** At every point between operations the aggregate is within the budget. */
    ghost predicate Valid()
      reads this
    {
      Consistent() && size <= maxSize
    }

    constructor (maxSize: nat, watermark: real, evictionThresholdMs: nat)
      requires 0.0 < watermark <= 1.0
      ensures Valid()
      ensures this.maxSize == maxSize && this.watermark == watermark
      ensures this.evictionThresholdMs == evictionThresholdMs
      ensures caches == map[] && queue == [] && size == 0 && nextSeqNo == 0 && stats == NoCounters
    {
      this.maxSize := maxSize;
      this.watermark := watermark;
      this.evictionThresholdMs := evictionThresholdMs;
      caches := map[];
      queue := [];
      size := 0;
      nextSeqNo := 0;
      stats := NoCounters;
    }

    /** The number of live cached entries: what was inserted and not yet evicted. */
    function EntriesCount(): (n: nat)
      reads this
      requires Consistent()
      ensures n == stats.inserted - stats.evicted
    {
      |queue|
    }

    /** The aggregate size is the sum of the sizes of the registered caches. */
    lemma AggregateIsSumOfCaches(names: seq<string>)
      requires Consistent()
      requires forall i, j :: 0 <= i < j < |names| ==> names[i] != names[j]
      requires forall n :: n in caches <==> n in names
      ensures size == SumOfLedgers(queue, names)
      ensures forall i :: 0 <= i < |names| ==> caches[names[i]].GetSize() == LedgerSize(queue, names[i])
    {
      AggregateIsSumOfLedgers(queue, names);
    }

    /**
     * getEntryCache: the registered cache of the ledger, created on first
     * use; a disabled one when the budget is 0.
     */
    method GetEntryCache(name: string) returns (c: EntryCache)
      requires Valid()
      modifies this
      ensures Valid()
      ensures c.name == name && c.manager == this && c.disabled == (maxSize == 0)
      ensures name in old(caches) ==> c == old(caches[name])
      ensures name !in old(caches) ==> fresh(c)
      ensures caches == old(caches)[name := c]
      ensures queue == old(queue) && size == old(size) && nextSeqNo == old(nextSeqNo) && stats == old(stats)
    {
      if name in caches {
        c := caches[name];
      } else {
        c := new EntryCache(name, this, maxSize == 0);
        caches := caches[name := c];
      }
    }

    /**
     * Takes the selected entries out of the queue and reports their bytes and
     * their count: the aggregate drops by the one and the evicted counter
     * grows by the other.
     */
    method RemoveEntries(s: Selector)
      requires Valid()
      modifies this
      ensures Valid()
      ensures queue == Remove(old(queue), s)
      ensures old(size) == size + TotalSize(Removed(old(queue), s))
      ensures stats == old(stats).(evicted := old(stats).evicted + |Removed(old(queue), s)|)
      ensures caches == old(caches) && nextSeqNo == old(nextSeqNo)
    {
      var gone := Removed(queue, s);
      RemoveSplit(queue, s);
      RemoveWellFormed(queue, s);
      RemoveMembers(queue, s);
      queue := Remove(queue, s);
      size := size - TotalSize(gone);
      stats := stats.(evicted := stats.evicted + |gone|);
    }

    /**
     * removeEntryCache: unregisters the ledger's cache and evicts all its
     * entries; other caches keep theirs; an unknown name is a no-op.
     */
    method RemoveEntryCache(name: string)
      requires Valid()
      modifies this
      ensures Valid()
      ensures name !in old(caches) ==> unchanged(this)
      ensures caches == old(caches) - {name}
      ensures queue == Remove(old(queue), WholeLedger(name))
      ensures old(size) == size + LedgerSize(old(queue), name)
      ensures stats == old(stats).(evicted := old(stats).evicted + |OfLedger(old(queue), name)|)
      ensures nextSeqNo == old(nextSeqNo)
      ensures forall n :: n != name ==> OfLedger(queue, n) == OfLedger(old(queue), n)
    {
      forall n | n != name ensures OfLedger(Remove(queue, WholeLedger(name)), n) == OfLedger(queue, n) {
        RemoveLeavesOtherLedgers(queue, WholeLedger(name), n);
      }
      if name in caches {
        RemoveEntries(WholeLedger(name));
        RemoveMembers(old(queue), WholeLedger(name));
        caches := caches - {name};
      } else {
        NothingSelected(queue, WholeLedger(name));
      }
    }

    /** Appends a newly admitted entry and reports its size; the budget is enforced by the caller. */
    method AddEntry(e: CachedEntry)
      requires Valid()
      requires e.seqNo == nextSeqNo && e.ledger in caches && maxSize != 0
      requires Find(queue, e.ledger, e.entry.pos).None?
      modifies this
      ensures Consistent()
      ensures queue == old(queue) + [e] && size == old(size) + e.entry.size
      ensures nextSeqNo == old(nextSeqNo) + 1 && caches == old(caches)
      ensures stats == old(stats).(inserted := old(stats).inserted + 1)
    {
      AppendWellFormed(queue, e);
      TotalSizeAppend(queue, [e]);
      TotalSizeSingle(e);
      queue := queue + [e];
      size := size + e.entry.size;
      nextSeqNo := nextSeqNo + 1;
      stats := stats.(inserted := stats.inserted + 1);
    }

    /**
     * The size-triggered pass: evicts whole entries, oldest insertion first
     * across all caches, until the aggregate is at most the watermark target.
     */
    method EvictToWatermark()
      requires Consistent()
      modifies this
      ensures Valid()
      ensures queue == old(queue)[EvictCount(old(queue), Target())..]
      ensures stats == old(stats).(evicted := old(stats).evicted + EvictCount(old(queue), Target()),
                                   evictionPasses := old(stats).evictionPasses + 1)
      ensures caches == old(caches) && nextSeqNo == old(nextSeqNo)
    {
      EvictDownTo(Target());
      CountPass();
    }

    /** Evicts the oldest entries, one by one, until the aggregate is at most `target`. */
    method EvictDownTo(target: nat)
      requires Consistent()
      modifies this
      ensures Consistent() && size <= target
      ensures queue == old(queue)[EvictCount(old(queue), target)..]
      ensures stats == old(stats).(evicted := old(stats).evicted + EvictCount(old(queue), target))
      ensures caches == old(caches) && nextSeqNo == old(nextSeqNo)
    {
      var removed: nat := 0;
      while size > target
        invariant Consistent() && caches == old(caches) && nextSeqNo == old(nextSeqNo)
        invariant removed <= |old(queue)| && queue == old(queue)[removed..]
        invariant EvictCount(old(queue), target) == removed + EvictCount(queue, target)
        invariant stats == old(stats).(evicted := old(stats).evicted + removed)
        decreases |queue|
      {
        EvictStep(old(queue), removed, target);
        EvictOldest();
        removed := removed + 1;
      }
    }

    /** Counts one completed size-triggered pass. */
    method CountPass()
      requires Consistent()
      modifies this
      ensures Consistent()
      ensures stats == old(stats).(evictionPasses := old(stats).evictionPasses + 1)
      ensures queue == old(queue) && size == old(size) && caches == old(caches) && nextSeqNo == old(nextSeqNo)
    {
      stats := stats.(evictionPasses := stats.evictionPasses + 1);
    }

    /** Evicts the oldest cached entry of all caches. */
    method EvictOldest()
      requires Consistent() && queue != []
      modifies this
      ensures Consistent()
      ensures queue == old(queue)[1..] && size == old(size) - old(queue)[0].entry.size
      ensures stats == old(stats).(evicted := old(stats).evicted + 1)
      ensures caches == old(caches) && nextSeqNo == old(nextSeqNo)
    {
      var victim := queue[0];
      SuffixWellFormed(queue, 1);
      assert forall e :: e in queue[1..] ==> e in queue;
      queue := queue[1..];
      size := size - victim.entry.size;
      stats := stats.(evicted := stats.evicted + 1);
    }

    /**
     * The periodic time-based pass: removes every entry, of every cache,
     * older than the threshold at clock reading `now`, whatever the aggregate.
     */
    method EvictExpired(now: int)
      requires Valid()
      modifies this
      ensures Valid()
      ensures queue == Remove(old(queue), InsertedBefore(now - evictionThresholdMs))
      ensures forall e :: e in queue <==> e in old(queue) && now - e.insertedAt <= evictionThresholdMs
      ensures old(size) == size + TotalSize(Removed(old(queue), InsertedBefore(now - evictionThresholdMs)))
      ensures stats == old(stats).(evicted := old(stats).evicted
                                               + |Removed(old(queue), InsertedBefore(now - evictionThresholdMs))|)
      ensures caches == old(caches) && nextSeqNo == old(nextSeqNo)
    {
      RemoveMembers(queue, InsertedBefore(now - evictionThresholdMs));
      RemoveEntries(InsertedBefore(now - evictionThresholdMs));
    }
  }

  /** Evicting the head of a queue still above the target leaves one entry fewer to evict. */
  lemma EvictStep(q: Queue, k: nat, target: nat)
    requires k < |q| && TotalSize(q[k..]) > target
    ensures EvictCount(q[k..], target) == 1 + EvictCount(q[k + 1..], target)
  {
    assert q[k..][1..] == q[k + 1..];
  }

  /** When no entry is selected, a removal leaves the queue as it is. */
  lemma {:induction false} NothingSelected(q: Queue, s: Selector)
    requires forall e :: e in q ==> !Selects(s, e)
    ensures Remove(q, s) == q && Removed(q, s) == []
  {
    if q != [] {
      assert q[0] in q && !Selects(s, q[0]);
      assert forall e :: e in q[1..] ==> e in q;
      NothingSelected(q[1..], s);
      assert [q[0]] + q[1..] == q;
    }
  }

  /**
   * The cache of one ledger. A registered cache's entries are those of the
   * coordinator's queue that carry its name; a removed one holds nothing.
   */
  class EntryCache {
    const name: string
    const manager: EntryCacheManager
    const disabled: bool   // the disabled variant, chosen once at creation

    constructor (name: string, manager: EntryCacheManager, disabled: bool)
      ensures this.name == name && this.manager == manager && this.disabled == disabled
    {
      this.name := name;
      this.manager := manager;
      this.disabled := disabled;
    }

    /** The coordinator's registry still maps this cache's ledger to this cache. */
    predicate Registered()
      reads manager
    {
      name in manager.caches && manager.caches[name] == this
    }

    /** getSize: the bytes this cache holds; a disabled cache always reports 0. */
    function GetSize(): (n: nat)
      reads manager
      ensures manager.Consistent() && disabled ==> n == 0
    {
      if Registered() then LedgerSize(manager.queue, name) else 0
    }

    /** An insert of `entry` is admitted: active, registered, and no entry at that position yet. */
    predicate Admits(entry: Entry)
      reads manager
    {
      !disabled && Registered() && Find(manager.queue, name, entry.pos).None?
    }

    /**
     * insert: admits `entry` unless its position is already cached (even with
     * another size); then, when the aggregate exceeds the budget, runs a
     * size-triggered pass before returning. The disabled variant keeps
     * nothing and reports success.
     */
    method Insert(entry: Entry, now: int) returns (ok: bool)
      requires manager.Valid()
      modifies manager
      ensures manager.Valid()
      ensures ok <==> disabled || old(Admits(entry))
      ensures manager.caches == old(manager.caches)
      ensures !old(Admits(entry)) ==> unchanged(manager)
      ensures old(Admits(entry)) ==>
                var e := CachedEntry(name, entry, old(manager.nextSeqNo), now);
                && manager.nextSeqNo == old(manager.nextSeqNo) + 1
                && manager.queue == Admit(old(manager.queue), e, manager.maxSize, manager.Target())
                && manager.stats == AdmitCounters(old(manager.stats), old(manager.queue), e, manager.maxSize, manager.Target())
    {
      if disabled {
        return true;
      }
      if !Registered() || Find(manager.queue, name, entry.pos).Some? {
        return false;
      }
      var e := CachedEntry(name, entry, manager.nextSeqNo, now);
      manager.AddEntry(e);
      if manager.size > manager.maxSize {
        manager.EvictToWatermark();
      }
      ok := true;
    }

    /**
     * invalidateEntries: removes this cache's entries strictly before
     * `lastPosition` (the bound itself stays); other caches are untouched.
     */
    method InvalidateEntries(lastPosition: Position)
      requires manager.Valid()
      modifies manager
      ensures manager.Valid()
      ensures !old(Registered()) ==> unchanged(manager)
      ensures old(Registered()) ==>
                var s := LedgerBefore(name, lastPosition);
                && manager.queue == Remove(old(manager.queue), s)
                && old(manager.size) == manager.size + TotalSize(Removed(old(manager.queue), s))
                && manager.stats == old(manager.stats).(evicted := old(manager.stats).evicted
                                                                   + |Removed(old(manager.queue), s)|)
                && manager.caches == old(manager.caches) && manager.nextSeqNo == old(manager.nextSeqNo)
      ensures forall e :: e in manager.queue <==>
                e in old(manager.queue) && !(old(Registered()) && e.ledger == name && Before(e.entry.pos, lastPosition))
      ensures forall n :: n != name ==> OfLedger(manager.queue, n) == OfLedger(old(manager.queue), n)
    {
      if Registered() {
        var s := LedgerBefore(name, lastPosition);
        RemoveMembers(manager.queue, s);
        forall n | n != name ensures OfLedger(Remove(manager.queue, s), n) == OfLedger(manager.queue, n) {
          RemoveLeavesOtherLedgers(manager.queue, s, n);
        }
        manager.RemoveEntries(s);
      }
    }

    /** invalidateAll: removes every entry of this cache, which stays registered. */
    method InvalidateAll()
      requires manager.Valid()
      modifies manager
      ensures manager.Valid()
      ensures !old(Registered()) ==> unchanged(manager)
      ensures old(Registered()) ==>
                && manager.queue == Remove(old(manager.queue), WholeLedger(name))
                && GetSize() == 0
                && old(manager.size) == manager.size + old(GetSize())
                && manager.stats == old(manager.stats).(evicted := old(manager.stats).evicted
                                                                   + |OfLedger(old(manager.queue), name)|)
                && manager.caches == old(manager.caches) && manager.nextSeqNo == old(manager.nextSeqNo)
    {
      if Registered() {
        RemoveIdempotent(manager.queue, WholeLedger(name));
        manager.RemoveEntries(WholeLedger(name));
      }
    }

    /**
     * asyncReadEntry: a cached position is served from the cache and counted
     * as a hit with its bytes; otherwise the read is counted as a miss and
     * completes as storage answers, and an entry read from storage is offered
     * to the cache. A storage failure leaves the cached entries as they were.
     * The disabled variant always reads from storage.
     */
    method AsyncReadEntry(pos: Position, storage: StorageReply, now: int) returns (r: ReadResult)
      requires manager.Valid()
      modifies manager
      ensures manager.Valid()
      ensures manager.caches == old(manager.caches)
      ensures var hit := if !disabled && old(Registered()) then old(Find(manager.queue, name, pos)) else None;
              if hit.Some? then
                && r == Served(hit.value.entry, true)
                && manager.queue == old(manager.queue) && manager.nextSeqNo == old(manager.nextSeqNo)
                && manager.stats == old(manager.stats).(hits := old(manager.stats).hits + 1,
                                                        hitBytes := old(manager.stats).hitBytes + hit.value.entry.size)
              else
                && r == FromStorage(pos, storage)
                && var missed := old(manager.stats).(misses := old(manager.stats).misses + 1);
                   if storage.Stored? && !disabled && old(Registered()) then
                     var e := CachedEntry(name, Entry(pos, storage.size), old(manager.nextSeqNo), now);
                     && manager.queue == Admit(old(manager.queue), e, manager.maxSize, manager.Target())
                     && manager.nextSeqNo == old(manager.nextSeqNo) + 1
                     && manager.stats == AdmitCounters(missed, old(manager.queue), e, manager.maxSize, manager.Target())
                   else
                     && manager.queue == old(manager.queue) && manager.nextSeqNo == old(manager.nextSeqNo)
                     && manager.stats == missed
    {
      if !disabled && Registered() {
        var found := Find(manager.queue, name, pos);
        if found.Some? {
          manager.stats := manager.stats.(hits := manager.stats.hits + 1,
                                          hitBytes := manager.stats.hitBytes + found.value.entry.size);
          return Served(found.value.entry, true);
        }
      }
      manager.stats := manager.stats.(misses := manager.stats.misses + 1);
      r := FromStorage(pos, storage);
      if storage.Stored? {
        var admitted := Insert(Entry(pos, storage.size), now);
      }
    }
  }
}
