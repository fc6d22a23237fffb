/**
 * The single cached snapshot of main.py (_cache_blob, _cache_ts) and the
 * two operations that use it: refresh_all, which replaces it, and
 * get_cached_or_refresh, which serves it while it is fresh.
 */
module Cache {
  import opened Wrappers
  import opened Anytime
  import opened Aggregate

  class SnapshotCache {
    /** CACHE_TTL_SECS. */
    const ttl: int
    /** _cache_blob: the last snapshot built, if any. */
    var blob: Option<Snapshot>
    /** _cache_ts: the clock reading taken when that snapshot was built. */
    var ts: real

    /** The module's initial state: no snapshot, time stamp 0.0. */
    constructor (ttl: int)
      ensures this.ttl == ttl && blob == None && ts == 0.0
    {
      this.ttl := ttl;
      blob := None;
      ts := 0.0;
    }

    /** The cached snapshot may be served at clock reading `now`: it exists and its age does not exceed the TTL. */
    predicate Fresh(now: real)
      reads this
      ensures Fresh(now) ==> blob.Some? && ts >= now - ttl as real
    {
      blob.Some? && now - ts <= ttl as real
    }

    /**
     * refresh_all: builds a snapshot and, only when that succeeds, makes it the
     * cached one, stamped with the clock reading `finishedAt` taken afterwards;
     * a failed refresh raises and leaves the cache as it was.
     */
    method Refresh(finishedAt: real, up: Upstream, cfg: Config) returns (r: Result<Snapshot, string>)
      modifies this
      ensures r == BuildSnapshot(up, cfg)
      ensures r.Ok? ==> blob == Some(r.value) && ts == finishedAt
      ensures r.Err? ==> blob == old(blob) && ts == old(ts)
    {
      r := RefreshAll(up, cfg);
      if r.Ok? {
        blob := Some(r.value);
        ts := finishedAt;
      }
    }

    /**
     * get_cached_or_refresh: the cached snapshot itself while it is fresh at
     * `now`; otherwise (no snapshot, or older than the TTL) a refresh, whose
     * clock reading at completion is `finishedAt`.
     */
    method GetCachedOrRefresh(now: real, finishedAt: real, up: Upstream, cfg: Config)
      returns (r: Result<Snapshot, string>)
      modifies this
      ensures old(Fresh(now)) ==> r == Ok(old(blob).value) && blob == old(blob) && ts == old(ts)
      ensures !old(Fresh(now)) ==> r == BuildSnapshot(up, cfg)
      ensures !old(Fresh(now)) && r.Ok? ==> blob == Some(r.value) && ts == finishedAt
      ensures !old(Fresh(now)) && r.Err? ==> blob == old(blob) && ts == old(ts)
    {
      if blob.None? || now - ts > ttl as real {
        r := Refresh(finishedAt, up, cfg);
      } else {
        r := Ok(blob.value);
      }
    }
  }

  /**
   * Reads within the TTL of a successful refresh are served from the cache:
   * after a refresh finishing at t, a read at t + ttl returns that very snapshot
   * and refreshes nothing, and the read after that, past t + ttl, refreshes.
   */
  method ServeWithinTtl(ttl: int, t: real, up: Upstream, later: Upstream, cfg: Config)
    returns (first: Result<Snapshot, string>, second: Result<Snapshot, string>, third: Result<Snapshot, string>)
    requires up.projections.Ok? && up.events.Ok?
    ensures first.Ok? && second == first
    ensures third == BuildSnapshot(later, cfg)
  {
    var cache := new SnapshotCache(ttl);
    first := cache.GetCachedOrRefresh(0.0, t, up, cfg);
    second := cache.GetCachedOrRefresh(t + ttl as real, t + ttl as real, later, cfg);
    third := cache.GetCachedOrRefresh(t + ttl as real + 1.0, t + ttl as real + 2.0, later, cfg);
  }
}
