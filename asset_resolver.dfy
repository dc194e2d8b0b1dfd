/**
 * The asset URL resolver: `local-image://` and web URLs pass through,
 * `assets://` and `file://` URLs are resolved against the open library by a
 * call into the host, and each resolution is memoised in a cache keyed by
 * library root and URL.
 *
 * The cache is a field of `AssetResolver` that `Resolve` and `ClearCache`
 * update in place. The host's answer is a parameter: `Ok(path)` (possibly
 * empty) or `Err(message)` for a call that throws; it is used only on a
 * cache miss.
 */
module AssetResolver {
  import opened Wrappers
  import opened Text

  /** URLs the host must turn into a `local-image://` URL. */
  predicate NeedsResolving(url: string) {
    StartsWith(url, "assets://") || StartsWith(url, "file://")
  }

  function CacheKey(root: string, url: string): (k: string)
    ensures StartsWith(k, root) && EndsWith(k, url)
  {
    root + "::" + url
  }

  /** The URL returned and the cache after one resolveAssetUrl call. */
  function Resolution(cache: map<string, string>, url: string, root: string, hasApi: bool, answer: Result<string, string>)
    : (string, map<string, string>)
  {
    if url == [] || StartsWith(url, "local-image://") || !NeedsResolving(url) then (url, cache)
    else if root == [] || !hasApi then (url, cache)
    else
      var key := CacheKey(root, url);
      if key in cache then (cache[key], cache)
      else match answer
        case Ok(resolved) =>
          var final := if resolved != [] then resolved else url;
          (final, cache[key := final])
        case Err(_) => (url, cache)
  }

  /** No cached URL is empty: `resolved || url` never stores an empty string for a non-empty URL. */
  predicate NoEmptyEntries(cache: map<string, string>) {
    forall k :: k in cache ==> cache[k] != []
  }

  /** URLs that need no resolving, and any URL while no library is open, come back unchanged and leave the cache alone. */
  lemma PassThrough(cache: map<string, string>, url: string, root: string, hasApi: bool, answer: Result<string, string>)
    ensures !NeedsResolving(url) || root == [] || !hasApi ==> Resolution(cache, url, root, hasApi, answer) == (url, cache)
  {
    if StartsWith(url, "local-image://") {
      assert !StartsWith(url, "assets://") by { assert url[0] == 'l'; }
      assert !StartsWith(url, "file://") by { assert url[0] == 'l'; }
    }
  }

  /** The cache only grows, and only under the key of the URL being resolved; existing entries never change. */
  lemma CacheGrowsAtKey(cache: map<string, string>, url: string, root: string, hasApi: bool, answer: Result<string, string>)
    ensures var (_, c) := Resolution(cache, url, root, hasApi, answer);
      (forall k :: k in cache ==> k in c && c[k] == cache[k])
      && (forall k :: k in c && k !in cache ==> k == CacheKey(root, url) && NeedsResolving(url))
  {
  }

  /** The cache keeps its entries non-empty, and a non-empty URL never resolves to the empty one. */
  lemma ResultNonEmpty(cache: map<string, string>, url: string, root: string, hasApi: bool, answer: Result<string, string>)
    requires NoEmptyEntries(cache)
    ensures var (r, c) := Resolution(cache, url, root, hasApi, answer);
      NoEmptyEntries(c) && (url != [] ==> r != [])
  {
  }

  /**
   * A resolution that was stored is served from the cache: resolving the same
   * URL against the same library again gives the same URL whatever the host
   * would answer, and changes nothing.
   */
  lemma SecondCallHits(cache: map<string, string>, url: string, root: string, hasApi: bool,
                       answer: Result<string, string>, again: Result<string, string>)
    requires answer.Ok? || CacheKey(root, url) in cache
    ensures var (r, c) := Resolution(cache, url, root, hasApi, answer);
      Resolution(c, url, root, hasApi, again) == (r, c)
  {
  }

  /** A URL already resolved against this library is served from the cache, whatever the host would answer. */
  lemma CacheHit(cache: map<string, string>, url: string, root: string, hasApi: bool, answer: Result<string, string>)
    requires NeedsResolving(url) && root != [] && hasApi && CacheKey(root, url) in cache
    ensures Resolution(cache, url, root, hasApi, answer) == (cache[CacheKey(root, url)], cache)
  {
    assert url[0] != 'l';
  }

  /** On a miss the host's answer, or the URL itself when the answer is empty, is returned and stored under the key. */
  lemma CacheMiss(cache: map<string, string>, url: string, root: string, hasApi: bool, resolved: string)
    requires NeedsResolving(url) && root != [] && hasApi && CacheKey(root, url) !in cache
    ensures var final := if resolved != [] then resolved else url;
      Resolution(cache, url, root, hasApi, Ok(resolved)) == (final, cache[CacheKey(root, url) := final])
  {
    assert url[0] != 'l';
  }

  /** A host error is not cached: the next call asks the host again. */
  lemma ErrorNotCached(cache: map<string, string>, url: string, root: string, hasApi: bool, e: string, again: Result<string, string>)
    requires CacheKey(root, url) !in cache
    ensures Resolution(cache, url, root, hasApi, Err(e)) == (url, cache)
    ensures Resolution(cache, url, root, hasApi, again) == Resolution(Resolution(cache, url, root, hasApi, Err(e)).1, url, root, hasApi, again)
  {
  }

  /** The module-level `assetUrlCache`. */
  class AssetResolver {
    var cache: map<string, string>

    constructor ()
      ensures cache == map[]
    {
      cache := map[];
    }

    /** resolveAssetUrl */
    method Resolve(url: string, root: string, hasApi: bool, answer: Result<string, string>) returns (r: string)
      modifies this
      ensures (r, cache) == Resolution(old(cache), url, root, hasApi, answer)
    {
      if url == [] {
        return url;
      }
      if StartsWith(url, "local-image://") {
        return url;
      }
      if StartsWith(url, "assets://") || StartsWith(url, "file://") {
        if root == [] || !hasApi {
          return url;
        }
        var key := root + "::" + url;
        if key in cache {
          return cache[key];
        }
        match answer {
          case Ok(resolved) =>
            var final := if resolved != [] then resolved else url;
            cache := cache[key := final];
            return final;
          case Err(_) =>
            return url;
        }
      }
      return url;
    }

    /** clearAssetCache */
    method ClearCache()
      modifies this
      ensures cache == map[]
    {
      cache := map[];
    }
  }
}
