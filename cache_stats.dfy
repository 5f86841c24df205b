/** The statistics the cache keeps: cumulative counters and the windowed rates derived from them. */
module CacheStats {

  /** Cumulative, never reset. */
  datatype CacheCounters = CacheCounters(
    inserted: nat,        // entries admitted into a cache
    evicted: nat,         // entries taken out by eviction, invalidation or cache removal
    evictionPasses: nat,  // size-triggered eviction passes
    hits: nat,            // reads served from a cache
    hitBytes: nat,        // bytes of the reads served from a cache
    misses: nat)          // reads that went to storage

  const NoCounters := CacheCounters(0, 0, 0, 0, 0, 0)

  /**
   * A per-second rate: `delta` events over a window of `periodMs`
   * milliseconds (the rates are exact rationals, not doubles).
   */
  function Rate(delta: int, periodMs: nat): (r: real)
    requires periodMs > 0
    ensures r * (periodMs as real) == (delta as real) * 1000.0
    ensures r == 0.0 <==> delta == 0
    ensures delta >= 0 ==> r >= 0.0
  {
    (delta as real) * 1000.0 / (periodMs as real)
  }

  /** The three windowed rates the statistics bean publishes. */
  datatype Rates = Rates(hitsRate: real, missesRate: real, hitsThroughput: real)

  const NoRates := Rates(0.0, 0.0, 0.0)

  /** The rates over a window that started with counters `prev` and ended with `now`. */
  function WindowRates(prev: CacheCounters, now: CacheCounters, periodMs: nat): (r: Rates)
    requires periodMs > 0
    ensures r.hitsRate * (periodMs as real) == ((now.hits - prev.hits) as real) * 1000.0
    ensures r.missesRate * (periodMs as real) == ((now.misses - prev.misses) as real) * 1000.0
    ensures r.hitsThroughput * (periodMs as real) == ((now.hitBytes - prev.hitBytes) as real) * 1000.0
    ensures now == prev ==> r == NoRates
  {
    Rates(Rate(now.hits - prev.hits, periodMs),
          Rate(now.misses - prev.misses, periodMs),
          Rate(now.hitBytes - prev.hitBytes, periodMs))
  }

  /** Over a window of one second each rate is just the counter's delta. */
  lemma OneSecondWindow(prev: CacheCounters, now: CacheCounters)
    ensures WindowRates(prev, now, 1000) ==
              Rates((now.hits - prev.hits) as real, (now.misses - prev.misses) as real,
                    (now.hitBytes - prev.hitBytes) as real)
  {
  }

  /** A window in which nothing was read has all its rates 0, whatever else was counted. */
  lemma QuietWindow(prev: CacheCounters, now: CacheCounters, periodMs: nat)
    requires periodMs > 0
    requires now.hits == prev.hits && now.misses == prev.misses && now.hitBytes == prev.hitBytes
    ensures WindowRates(prev, now, periodMs) == NoRates
  {
  }
}
