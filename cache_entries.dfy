/**
 * The cached entries of all ledgers, kept in one queue in global insertion
 * order (oldest first), and the removals the cache performs on it:
 * invalidation of one ledger's entries before a position, dropping a whole
 * ledger, expiry by age, and size-triggered eviction of the oldest entries.
 */
module CacheEntries {
  import opened Positions

  datatype Option<T> = None | Some(value: T)

  /** An entry handed to the cache: its position and the byte length of its payload. */
  datatype Entry = Entry(pos: Position, size: nat)

  /**
   * An entry while it is cached: the ledger whose cache holds it, the
   * global insertion sequence number, and the clock reading at insertion.
   */
  datatype CachedEntry = CachedEntry(ledger: string, entry: Entry, seqNo: nat, insertedAt: int)

  type Queue = seq<CachedEntry>

  /** Sum of the payload sizes of the entries in `q`. */
  function TotalSize(q: Queue): nat {
    if q == [] then 0 else q[0].entry.size + TotalSize(q[1..])
  }

  /** Sequence numbers grow strictly along the queue: it is in insertion order. */
  predicate InInsertionOrder(q: Queue) {
    forall i, j :: 0 <= i < j < |q| ==> q[i].seqNo < q[j].seqNo
  }

  /** No two entries of one ledger's cache share a position. */
  predicate KeysUnique(q: Queue) {
    forall i, j :: 0 <= i < j < |q| ==> !(q[i].ledger == q[j].ledger && q[i].entry.pos == q[j].entry.pos)
  }

  predicate WellFormed(q: Queue) {
    InInsertionOrder(q) && KeysUnique(q)
  }

  /** Look up the entry that the cache of `ledger` holds at `pos`. */
  function Find(q: Queue, ledger: string, pos: Position): (r: Option<CachedEntry>)
    ensures r.Some? ==> r.value in q && r.value.ledger == ledger && r.value.entry.pos == pos
    ensures r.None? <==> forall e :: e in q ==> !(e.ledger == ledger && e.entry.pos == pos)
  {
    if q == [] then None
    else if q[0].ledger == ledger && q[0].entry.pos == pos then Some(q[0])
    else Find(q[1..], ledger, pos)
  }

  /** In a well-keyed queue, looking up an entry's own key finds that entry. */
  lemma {:induction false} FindOwnKey(q: Queue, i: nat)
    requires KeysUnique(q) && i < |q|
    ensures Find(q, q[i].ledger, q[i].entry.pos) == Some(q[i])
  {
    if i > 0 {
      assert !(q[0].ledger == q[i].ledger && q[0].entry.pos == q[i].entry.pos);
      assert q[1..][i - 1] == q[i];
      FindOwnKey(q[1..], i - 1);
    }
  }

  /** Which entries a removal takes out of the cache. */
  datatype Selector =
    | LedgerBefore(ledger: string, bound: Position)  // invalidateEntries: strictly before `bound`
    | WholeLedger(ledger: string)                    // removeEntryCache, invalidateAll
    | InsertedBefore(cutoff: int)                    // time-based eviction

  predicate Selects(s: Selector, e: CachedEntry) {
    match s
    case LedgerBefore(l, b) => e.ledger == l && Compare(e.entry.pos, b) < 0
    case WholeLedger(l) => e.ledger == l
    case InsertedBefore(c) => e.insertedAt < c
  }

  /** The queue without the selected entries, order kept. */
  function Remove(q: Queue, s: Selector): Queue {
    if q == [] then []
    else if Selects(s, q[0]) then Remove(q[1..], s)
    else [q[0]] + Remove(q[1..], s)
  }

  /** The selected entries, in queue order. */
  function Removed(q: Queue, s: Selector): Queue {
    if q == [] then []
    else if Selects(s, q[0]) then [q[0]] + Removed(q[1..], s)
    else Removed(q[1..], s)
  }

  /** The entries held by the cache of `ledger`. */
  function OfLedger(q: Queue, ledger: string): Queue {
    Removed(q, WholeLedger(ledger))
  }

  /** EntryCache.getSize: the bytes held by the cache of `ledger`. */
  function LedgerSize(q: Queue, ledger: string): nat {
    TotalSize(OfLedger(q, ledger))
  }

  lemma {:induction false} TotalSizeAppend(a: Queue, b: Queue)
    ensures TotalSize(a + b) == TotalSize(a) + TotalSize(b)
  {
    if a == [] {
      assert a + b == b;
    } else {
      assert (a + b)[1..] == a[1..] + b;
      TotalSizeAppend(a[1..], b);
    }
  }

  lemma TotalSizeSingle(e: CachedEntry)
    ensures TotalSize([e]) == e.entry.size
  {
    assert [e][1..] == [];
  }

  /** A removal keeps exactly the unselected entries and reports exactly the selected ones. */
  lemma {:induction false} RemoveMembers(q: Queue, s: Selector)
    ensures forall e :: e in Remove(q, s) <==> e in q && !Selects(s, e)
    ensures forall e :: e in Removed(q, s) <==> e in q && Selects(s, e)
  {
    if q != [] {
      RemoveMembers(q[1..], s);
      assert forall e :: e in q <==> e == q[0] || e in q[1..];
    }
  }

  /** A removal splits the queue: kept and removed bytes and entries add up to the old ones. */
  lemma {:induction false} RemoveSplit(q: Queue, s: Selector)
    ensures TotalSize(q) == TotalSize(Remove(q, s)) + TotalSize(Removed(q, s))
    ensures |q| == |Remove(q, s)| + |Removed(q, s)|
  {
    if q != [] {
      RemoveSplit(q[1..], s);
      TotalSizeSingle(q[0]);
      if Selects(s, q[0]) {
        TotalSizeAppend([q[0]], Removed(q[1..], s));
      } else {
        TotalSizeAppend([q[0]], Remove(q[1..], s));
      }
    }
  }

  /** Removing twice with the same selector removes nothing the second time. */
  lemma {:induction false} RemoveIdempotent(q: Queue, s: Selector)
    ensures Remove(Remove(q, s), s) == Remove(q, s)
    ensures Removed(Remove(q, s), s) == []
  {
    if q != [] {
      RemoveIdempotent(q[1..], s);
      if !Selects(s, q[0]) {
        var r := [q[0]] + Remove(q[1..], s);
        assert r[0] == q[0] && r[1..] == Remove(q[1..], s);
      }
    }
  }

  /** When every entry is selected, a removal keeps nothing and reports the whole queue. */
  lemma {:induction false} RemoveAll(q: Queue, s: Selector)
    requires forall e :: e in q ==> Selects(s, e)
    ensures Remove(q, s) == [] && Removed(q, s) == q
  {
    if q != [] {
      assert q[0] in q;
      assert forall e :: e in q[1..] ==> e in q;
      RemoveAll(q[1..], s);
    }
  }

  /** A removal scoped to one ledger leaves every other ledger's cache as it was. */
  lemma {:induction false} RemoveLeavesOtherLedgers(q: Queue, s: Selector, other: string)
    requires (s.LedgerBefore? || s.WholeLedger?) && s.ledger != other
    ensures OfLedger(Remove(q, s), other) == OfLedger(q, other)
  {
    if q != [] {
      RemoveLeavesOtherLedgers(q[1..], s, other);
      if !Selects(s, q[0]) {
        var r := [q[0]] + Remove(q[1..], s);
        assert r[0] == q[0] && r[1..] == Remove(q[1..], s);
      }
    }
  }

  /** The head of a well-formed queue is older than, and keyed apart from, every later entry, and the rest is well formed. */
  lemma HeadAndTail(q: Queue)
    requires WellFormed(q) && q != []
    ensures WellFormed(q[1..])
    ensures forall e :: e in q[1..] ==> q[0].seqNo < e.seqNo && !(q[0].ledger == e.ledger && q[0].entry.pos == e.entry.pos)
  {
    var tail := q[1..];
    assert forall i :: 0 <= i < |tail| ==> tail[i] == q[i + 1];
  }

  /** Prepending an entry older than, and keyed apart from, all of a well-formed queue keeps it well formed. */
  lemma ConsWellFormed(x: CachedEntry, r: Queue)
    requires WellFormed(r)
    requires forall e :: e in r ==> x.seqNo < e.seqNo && !(x.ledger == e.ledger && x.entry.pos == e.entry.pos)
    ensures WellFormed([x] + r)
  {
    var xr := [x] + r;
    assert forall j :: 0 < j < |xr| ==> xr[j] == r[j - 1] && r[j - 1] in r;
  }

  /** Removal keeps the queue in insertion order and keeps keys unique. */
  lemma {:induction false} RemoveWellFormed(q: Queue, s: Selector)
    requires WellFormed(q)
    ensures WellFormed(Remove(q, s))
  {
    if q != [] {
      HeadAndTail(q);
      RemoveWellFormed(q[1..], s);
      RemoveMembers(q[1..], s);
      if !Selects(s, q[0]) {
        ConsWellFormed(q[0], Remove(q[1..], s));
      }
    }
  }

  /** Appending a newer entry with a fresh key keeps the queue well formed. */
  lemma AppendWellFormed(q: Queue, e: CachedEntry)
    requires WellFormed(q)
    requires forall x :: x in q ==> x.seqNo < e.seqNo
    requires Find(q, e.ledger, e.entry.pos).None?
    ensures WellFormed(q + [e])
  {
    var r := q + [e];
    assert forall i :: 0 <= i < |q| ==> r[i] == q[i] && q[i] in q;
  }

  /** A suffix of a well-formed queue is well formed. */
  lemma SuffixWellFormed(q: Queue, k: nat)
    requires WellFormed(q) && k <= |q|
    ensures WellFormed(q[k..])
  {
    assert forall i :: 0 <= i < |q| - k ==> q[k..][i] == q[k + i];
  }

  /** Dropping the oldest entry lowers each ledger's size by its share of that entry. */
  lemma DropOldest(q: Queue, ledger: string)
    requires q != []
    ensures LedgerSize(q, ledger) == LedgerSize(q[1..], ledger) + (if q[0].ledger == ledger then q[0].entry.size else 0)
  {
    if q[0].ledger == ledger {
      TotalSizeSingle(q[0]);
      TotalSizeAppend([q[0]], OfLedger(q[1..], ledger));
    }
  }

  /** Appending an entry grows exactly the size of the ledger it belongs to. */
  lemma {:induction false} AppendLedgerSize(q: Queue, e: CachedEntry, ledger: string)
    ensures LedgerSize(q + [e], ledger) == LedgerSize(q, ledger) + (if e.ledger == ledger then e.entry.size else 0)
  {
    if q == [] {
      assert [] + [e] == [e];
      assert [e][1..] == [];
      TotalSizeSingle(e);
    } else {
      assert (q + [e])[1..] == q[1..] + [e];
      AppendLedgerSize(q[1..], e, ledger);
      DropOldest(q + [e], ledger);
      DropOldest(q, ledger);
    }
  }

  /**
   * The number of oldest entries a size-triggered pass evicts: the fewest
   * whole entries whose removal brings the total to at most `target`.
   */
  function EvictCount(q: Queue, target: nat): (k: nat)
    ensures k <= |q|
    ensures TotalSize(q[k..]) <= target
  {
    if q == [] || TotalSize(q) <= target then 0
    else
      var k := 1 + EvictCount(q[1..], target);
      assert q[k..] == q[1..][k - 1..];
      k
  }

  /** No fewer entries would do: before each of the evicted entries the total is still above the target. */
  lemma {:induction false} EvictCountMinimal(q: Queue, target: nat)
    ensures forall j :: 0 <= j < EvictCount(q, target) ==> TotalSize(q[j..]) > target
  {
    if q != [] && TotalSize(q) > target {
      EvictCountMinimal(q[1..], target);
      forall j | 0 < j < EvictCount(q, target) ensures TotalSize(q[j..]) > target {
        assert q[j..] == q[1..][j - 1..];
      }
    }
  }

  /** floor(maxSize * watermark): the size a pass brings the aggregate down to. */
  function WatermarkTarget(maxSize: nat, watermark: real): (t: nat)
    requires 0.0 < watermark <= 1.0
    ensures t <= maxSize
    ensures t as real <= maxSize as real * watermark < t as real + 1.0
  {
    var x := maxSize as real * watermark;
    assert 0.0 <= x <= maxSize as real;
    x.Floor
  }

  /**
   * The queue after `e` is appended and the budget enforced: a pass runs only
   * when the total is strictly above `maxSize`, and then evicts the oldest
   * entries, across all ledgers, down to `target`.
   */
  function Admit(q: Queue, e: CachedEntry, maxSize: nat, target: nat): (r: Queue)
    requires target <= maxSize
    ensures TotalSize(r) <= maxSize && |r| <= |q| + 1
    ensures TotalSize(q) + e.entry.size <= maxSize ==> r == q + [e] && TotalSize(r) == TotalSize(q) + e.entry.size
    ensures TotalSize(q) + e.entry.size > maxSize ==>
              TotalSize(r) <= target && r == (q + [e])[|q| + 1 - |r|..]
  {
    var grown := q + [e];
    TotalSizeAppend(q, [e]);
    TotalSizeSingle(e);
    if TotalSize(grown) > maxSize then grown[EvictCount(grown, target)..] else grown
  }

  /**
   * Within the budget an admission grows exactly the size of the entry's own
   * ledger, by the entry's size, and no other ledger's.
   */
  lemma AdmitWithinBudget(q: Queue, e: CachedEntry, maxSize: nat, target: nat, ledger: string)
    requires target <= maxSize && TotalSize(q) + e.entry.size <= maxSize
    ensures LedgerSize(Admit(q, e, maxSize, target), ledger)
            == LedgerSize(q, ledger) + (if e.ledger == ledger then e.entry.size else 0)
  {
    AppendLedgerSize(q, e, ledger);
  }

  /** How many entries the pass triggered by admitting `e` evicts (0 when none runs). */
  function AdmitEvicts(q: Queue, e: CachedEntry, maxSize: nat, target: nat): nat {
    var grown := q + [e];
    if TotalSize(grown) > maxSize then EvictCount(grown, target) else 0
  }

  /** The aggregate of the caches named in `names`. */
  function SumOfLedgers(q: Queue, names: seq<string>): nat {
    if names == [] then 0 else LedgerSize(q, names[0]) + SumOfLedgers(q, names[1..])
  }

  lemma {:induction false} SumOfLedgersAfterDrop(q: Queue, dropped: string, names: seq<string>)
    requires dropped !in names
    ensures SumOfLedgers(Remove(q, WholeLedger(dropped)), names) == SumOfLedgers(q, names)
  {
    if names != [] {
      RemoveLeavesOtherLedgers(q, WholeLedger(dropped), names[0]);
      SumOfLedgersAfterDrop(q, dropped, names[1..]);
    }
  }

  /**
   * The aggregate size equals the sum of the per-ledger sizes, when every
   * entry belongs to one of the (distinct) registered ledgers.
   */
  lemma {:induction false} AggregateIsSumOfLedgers(q: Queue, names: seq<string>)
    requires forall i, j :: 0 <= i < j < |names| ==> names[i] != names[j]
    requires forall e :: e in q ==> e.ledger in names
    ensures TotalSize(q) == SumOfLedgers(q, names)
    decreases names
  {
    if names != [] {
      var first := names[0];
      var rest := Remove(q, WholeLedger(first));
      RemoveSplit(q, WholeLedger(first));
      RemoveMembers(q, WholeLedger(first));
      assert first !in names[1..] by {
        forall i | 0 <= i < |names[1..]| ensures names[1..][i] != first {
          assert names[1..][i] == names[i + 1];
        }
      }
      forall e | e in rest ensures e.ledger in names[1..] {
        assert e.ledger in names && e.ledger != first;
        var i :| 0 <= i < |names| && names[i] == e.ledger;
        assert names[1..][i - 1] == names[i];
      }
      AggregateIsSumOfLedgers(rest, names[1..]);
      SumOfLedgersAfterDrop(q, first, names[1..]);
    }
  }
}
