/**
 * The browser-side video blob cache (`frontend/lib/videoCache.ts`): fetched
 * videos are kept as object URLs, at most eight of them, evicting the oldest
 * first, and at most one fetch per URL is in flight at a time.
 */
module VideoCache {
  import opened Wrappers

  const MaxCacheEntries: nat := 8

  /** An object URL handed out by the browser for a blob; never empty. */
  type ObjectUrl = s: string | s != "" witness "blob:"

  /** How a started fetch ends: a blob turned into an object URL, or a failure (bad status or network). */
  datatype FetchOutcome = Fetched(objectUrl: ObjectUrl) | FetchFailed

  /** The last `MaxCacheEntries` elements of an insertion order: what survives eviction. */
  function Newest(order: seq<string>): (r: seq<string>)
    ensures |r| == if |order| <= MaxCacheEntries then |order| else MaxCacheEntries
    ensures r == order[|order| - |r|..]
  {
    if |order| <= MaxCacheEntries then order else order[|order| - MaxCacheEntries..]
  }

  /**
   * The object URLs held in `cache` for the first `n` source URLs of
   * `order`, in that order: what evicting those entries revokes.
   */
  function ObjectUrls(cache: map<string, string>, order: seq<string>, n: nat): (r: seq<string>)
    requires n <= |order|
    ensures |r| <= n
  {
    if n == 0 then []
    else ObjectUrls(cache, order, n - 1) + (if order[n - 1] in cache then [cache[order[n - 1]]] else [])
  }

  /** A fetched URL is the newest entry, so it always survives the eviction that follows it. */
  lemma FetchedEntrySurvives(order: seq<string>, url: string)
    ensures url in Newest(order + [url])
    ensures Newest(order + [url])[|Newest(order + [url])| - 1] == url
  {
    var r := Newest(order + [url]);
    assert r[|r| - 1] == (order + [url])[|order|];
  }

  /** Eviction is first in, first out: whenever an entry survives, every entry inserted after it survives too. */
  lemma {:induction false} EvictionIsFifo(order: seq<string>, i: int, j: int)
    requires 0 <= i < j < |order|
    requires order[i] in Newest(order)
    requires forall a, b :: 0 <= a < b < |order| ==> order[a] != order[b]
    ensures order[j] in Newest(order)
  {
    var r := Newest(order);
    var k :| 0 <= k < |r| && r[k] == order[i];
    var start := |order| - |r|;
    assert r[k] == order[start + k];
    assert start + k == i;
    assert r[j - start] == order[j];
  }

  /** A cache table and its insertion order agree, hold no duplicates and no empty URL. */
  ghost predicate Consistent(cache: map<string, string>, order: seq<string>)
  {
    && (forall u :: u in cache <==> u in order)
    && (forall i, j :: 0 <= i < j < |order| ==> order[i] != order[j])
    && (forall u :: u in cache ==> u != "" && cache[u] != "")
  }

  /** Every entry of `a` is an entry of `b`. */
  ghost predicate SubMap(a: map<string, string>, b: map<string, string>)
  {
    forall u :: u in a ==> u in b && a[u] == b[u]
  }

  /** Dropping the oldest entry from both keeps them consistent. */
  lemma DropOldest(cache: map<string, string>, order: seq<string>)
    requires Consistent(cache, order) && order != []
    ensures order[0] in cache && cache[order[0]] != ""
    ensures Consistent(cache - {order[0]}, order[1..])
  {
    assert order[0] in order;
    forall u | u in order[1..]
      ensures u != order[0]
    {
      var j :| 0 <= j < |order[1..]| && order[1..][j] == u;
      assert order[j + 1] == u;
    }
  }

  /** Appending a new, uncached URL keeps them consistent. */
  lemma AppendNewest(cache: map<string, string>, order: seq<string>, url: string, objectUrl: ObjectUrl)
    requires Consistent(cache, order) && url != "" && url !in cache
    ensures Consistent(cache[url := objectUrl], order + [url])
  {
    var o := order + [url];
    forall i, j | 0 <= i < j < |o|
      ensures o[i] != o[j]
    {
      if j == |order| {
        assert o[i] == order[i];
        assert order[i] in order;
      }
    }
  }

  /** What holds after `k` rounds of the eviction loop started from `cache0`, `order0`, `revoked0`. */
  ghost predicate EvictInvariant(cache0: map<string, string>, order0: seq<string>, revoked0: seq<string>,
                                 cache: map<string, string>, order: seq<string>, revoked: seq<string>, k: nat)
  {
    && Consistent(cache, order)
    && k <= |order0| && order == order0[k..]
    && (k <= |order0| - MaxCacheEntries || k == 0)
    && SubMap(cache, cache0)
    && revoked == revoked0 + ObjectUrls(cache0, order0, k)
  }

  /** Revoking one more entry of the order extends the revoked list by its object URL. */
  lemma ObjectUrlsStep(cache0: map<string, string>, order0: seq<string>, k: nat)
    requires k < |order0| && order0[k] in cache0
    ensures ObjectUrls(cache0, order0, k + 1) == ObjectUrls(cache0, order0, k) + [cache0[order0[k]]]
  {
  }

  /** One more round of the loop preserves its invariant. */
  lemma EvictStep(cache0: map<string, string>, order0: seq<string>, revoked0: seq<string>,
                  cache: map<string, string>, order: seq<string>, revoked: seq<string>, k: nat)
    requires EvictInvariant(cache0, order0, revoked0, cache, order, revoked, k)
    requires |order| > MaxCacheEntries
    ensures EvictInvariant(cache0, order0, revoked0, cache - {order[0]}, order[1..],
                           revoked + [cache[order[0]]], k + 1)
  {
    DropOldest(cache, order);
    assert order[0] == order0[k];
    assert order[1..] == order0[k + 1..];
    ObjectUrlsStep(cache0, order0, k);
  }

  /**
   * What eviction leaves when started from `cache0`, `order0`, `revoked0`:
   * the newest entries of the order, the table cut down to them, and the
   * dropped entries' object URLs revoked oldest first.
   */
  ghost predicate Evicted(cache0: map<string, string>, order0: seq<string>, revoked0: seq<string>,
                          cache: map<string, string>, order: seq<string>, revoked: seq<string>)
  {
    && Consistent(cache, order)
    && order == Newest(order0)
    && SubMap(cache, cache0)
    && revoked == revoked0 + ObjectUrls(cache0, order0, |order0| - |order|)
  }

  /** When the loop stops, its invariant is the eviction's result. */
  lemma EvictDone(cache0: map<string, string>, order0: seq<string>, revoked0: seq<string>,
                  cache: map<string, string>, order: seq<string>, revoked: seq<string>, k: nat)
    requires EvictInvariant(cache0, order0, revoked0, cache, order, revoked, k)
    requires |order| <= MaxCacheEntries
    ensures Evicted(cache0, order0, revoked0, cache, order, revoked)
  {
    assert order == Newest(order0);
  }

  class Cache {
    /** `blobCache`: source URL to object URL. */
    var blobCache: map<string, string>
    /** `cacheOrder`: source URLs, oldest first. */
    var cacheOrder: seq<string>
    /** `inflightFetches`: source URL to the promise of its running fetch. */
    var inflight: map<string, nat>
    /** Identity of the next promise created; promises are told apart by these numbers. */
    var nextPromise: nat
    /** Object URLs passed to `URL.revokeObjectURL`, in order. */
    ghost var revoked: seq<string>

    ghost predicate Valid()
      reads this
    {
      && Consistent(blobCache, cacheOrder)
      && |cacheOrder| <= MaxCacheEntries
      && (forall u :: u in inflight ==> u != "" && u !in blobCache && inflight[u] < nextPromise)
      && (forall u, v :: u in inflight && v in inflight && u != v ==> inflight[u] != inflight[v])
    }

    constructor ()
      ensures Valid()
      ensures blobCache == map[] && cacheOrder == [] && inflight == map[] && revoked == []
    {
      blobCache := map[];
      cacheOrder := [];
      inflight := map[];
      nextPromise := 0;
      revoked := [];
    }

    /** `getPrefetchedVideoUrl`: the cached object URL, if any; nothing for an absent URL. */
    function GetPrefetchedVideoUrl(url: string): (r: Option<string>)
      reads this
      ensures url == "" ==> r == None
      ensures url != "" ==> (r.Some? <==> url in blobCache)
      ensures r.Some? ==> url in blobCache && r.value == blobCache[url]
    {
      if url == "" then None
      else if url in blobCache then Some(blobCache[url])
      else None
    }

    /** The promise `inflightFetches.get(url)` yields. */
    function InflightPromise(url: string): (r: Option<nat>)
      reads this
      ensures r.Some? <==> url in inflight
    {
      if url in inflight then Some(inflight[url]) else None
    }

    /**
     * `evictIfNeeded`: drops the oldest entries until at most
     * `MaxCacheEntries` remain, revoking each dropped object URL.
     */
    method EvictIfNeeded()
      requires Consistent(blobCache, cacheOrder)
      modifies this
      ensures Evicted(old(blobCache), old(cacheOrder), old(revoked), blobCache, cacheOrder, revoked)
      ensures inflight == old(inflight) && nextPromise == old(nextPromise)
    {
      ghost var order := cacheOrder;
      ghost var k := 0;
      while |cacheOrder| > MaxCacheEntries
        invariant EvictInvariant(old(blobCache), order, old(revoked), blobCache, cacheOrder, revoked, k)
        invariant inflight == old(inflight) && nextPromise == old(nextPromise)
        decreases |cacheOrder|
      {
        ghost var before, beforeOrder, beforeRevoked := blobCache, cacheOrder, revoked;
        DropOldestEntry();
        EvictStep(old(blobCache), order, old(revoked), before, beforeOrder, beforeRevoked, k);
        k := k + 1;
      }
      EvictDone(old(blobCache), order, old(revoked), blobCache, cacheOrder, revoked, k);
    }

    /** One round of the eviction loop: the oldest URL leaves the order, and its object URL is revoked and uncached. */
    method DropOldestEntry()
      requires Consistent(blobCache, cacheOrder) && cacheOrder != []
      modifies this
      ensures Consistent(blobCache, cacheOrder)
      ensures cacheOrder == old(cacheOrder)[1..]
      ensures blobCache == old(blobCache) - {old(cacheOrder)[0]}
      ensures revoked == old(revoked) + [old(blobCache)[old(cacheOrder)[0]]]
      ensures inflight == old(inflight) && nextPromise == old(nextPromise)
    {
      var url := cacheOrder[0];
      DropOldest(blobCache, cacheOrder);
      cacheOrder := cacheOrder[1..];
      var objectUrl := blobCache[url];
      if objectUrl != "" {
        revoked := revoked + [objectUrl];
        blobCache := blobCache - {url};
      }
    }

    /**
     * `prefetchVideoBlob`, up to the point where it returns: an absent URL,
     * a server-side call or an already cached URL yields whatever fetch is
     * registered for it (none, in a valid cache, except server-side); a URL
     * already being fetched yields that same promise; otherwise a new fetch
     * is started and registered.
     */
    method BeginFetch(url: string, inBrowser: bool) returns (promise: Option<nat>)
      requires Valid()
      modifies this
      ensures Valid()
      ensures blobCache == old(blobCache) && cacheOrder == old(cacheOrder) && revoked == old(revoked)
      ensures var starts := url != "" && inBrowser && url !in old(blobCache) && url !in old(inflight);
        && (starts ==> promise == Some(old(nextPromise)) &&
                       inflight == old(inflight)[url := old(nextPromise)] && nextPromise == old(nextPromise) + 1)
        && (!starts ==> promise == old(InflightPromise(url)) &&
                        inflight == old(inflight) && nextPromise == old(nextPromise))
    {
      if url == "" || !inBrowser || url in blobCache {
        return InflightPromise(url);
      }
      if url in inflight {
        return Some(inflight[url]);
      }
      promise := Some(nextPromise);
      inflight := inflight[url := nextPromise];
      nextPromise := nextPromise + 1;
    }

    /**
     * The continuation of a fetch started by `BeginFetch`: on success the
     * object URL is cached as the newest entry and the cache is trimmed; on
     * failure the promise settles to null; either way the fetch is no longer
     * in flight.
     */
    method CompleteFetch(url: string, outcome: FetchOutcome) returns (result: Option<string>)
      requires Valid() && url in inflight
      modifies this
      ensures Valid()
      ensures inflight == old(inflight) - {url} && nextPromise == old(nextPromise)
      ensures outcome.FetchFailed? ==>
        result == None && blobCache == old(blobCache) && cacheOrder == old(cacheOrder) && revoked == old(revoked)
      ensures outcome.Fetched? ==>
        && result == Some(outcome.objectUrl)
        && Evicted(old(blobCache)[url := outcome.objectUrl], old(cacheOrder) + [url], old(revoked),
                   blobCache, cacheOrder, revoked)
        && GetPrefetchedVideoUrl(url) == Some(outcome.objectUrl)
    {
      if outcome.Fetched? {
        AppendNewest(blobCache, cacheOrder, url, outcome.objectUrl);
        blobCache := blobCache[url := outcome.objectUrl];
        cacheOrder := cacheOrder + [url];
        EvictIfNeeded();
        FetchedEntrySurvives(old(cacheOrder), url);
        result := Some(outcome.objectUrl);
      } else {
        result := None;
      }
      inflight := inflight - {url};
    }
  }

  /**
   * Two prefetches of the same URL in the browser share one fetch: the
   * second call returns the promise the first one started.
   */
  method PrefetchTwice(url: string) returns (first: Option<nat>, second: Option<nat>)
    requires url != ""
    ensures first.Some? && second == first
  {
    var cache := new Cache();
    first := cache.BeginFetch(url, true);
    second := cache.BeginFetch(url, true);
  }

  /** A completed fetch is served from the cache afterwards. */
  method FetchThenLookup(url: string, objectUrl: ObjectUrl) returns (cached: Option<string>)
    requires url != ""
    ensures cached == Some(objectUrl)
  {
    var cache := new Cache();
    var promise := cache.BeginFetch(url, true);
    assert url in cache.inflight;
    var settled := cache.CompleteFetch(url, Fetched(objectUrl));
    cached := cache.GetPrefetchedVideoUrl(url);
  }
}
