/**
 * The factory's statistics bean: live gauges come straight from the
 * coordinator, the hit and miss rates are recomputed on each refresh over
 * the window since the previous one.
 */
module FactoryStats {
  import opened CacheStats
  import opened EntryCaches

  class FactoryMBean {
    const manager: EntryCacheManager
    var last: CacheCounters   // the counters seen at the previous refresh
    var rates: Rates          // the rates computed by the previous refresh

    constructor (manager: EntryCacheManager)
      ensures this.manager == manager && last == manager.stats && rates == NoRates
    {
      this.manager := manager;
      last := manager.stats;
      rates := NoRates;
    }

    /**
     * refreshStats: over a window of `periodMs` milliseconds, the rates are
     * the counter deltas since the previous refresh per second; a window of
     * no length refreshes nothing.
     */
    method RefreshStats(periodMs: nat)
      modifies this
      ensures periodMs == 0 ==> unchanged(this)
      ensures periodMs > 0 ==> last == manager.stats && rates == WindowRates(old(last), manager.stats, periodMs)
    {
      if periodMs > 0 {
        rates := WindowRates(last, manager.stats, periodMs);
        last := manager.stats;
      }
    }
  }
}
