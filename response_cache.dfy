/**
 * The in-memory response cache (backend/app/middleware/cache.py). A
 * module-level dictionary maps a key built from the decorator's prefix, the
 * wrapped function's name and a digest of its keyword arguments to the time
 * a result was stored and the result itself. The clock readings, the digest
 * and the wrapped function are parameters.
 */
module ResponseCache {

  import opened Wrappers
  import opened Text

  /** One value of `_cache`: when it was stored, and what. */
  datatype CacheEntry<V> = CacheEntry(storedAt: real, value: V)

  /** The decorator's default `ttl_seconds`. */
  const DefaultTtlSeconds: real := 300.0

  /**
   * The cache key `"{key_prefix}:{name}:{digest}"`, where `digest` is the MD5
   * hex digest of the JSON dump of `str(kwargs)`. Positional arguments take no
   * part in it.
   */
  function CacheKey(prefix: string, name: string, digest: string): (k: string)
    ensures StartsWith(k, prefix + ":")
    ensures |k| == |prefix| + |name| + |digest| + 2
  {
    assert (prefix + ":" + name + ":" + digest)[..|prefix + ":"|] == prefix + ":";
    prefix + ":" + name + ":" + digest
  }

  /** The cached value for `key` at time `now`, when there is one younger than `ttl`. */
  function Fresh<V>(m: map<string, CacheEntry<V>>, key: string, now: real, ttl: real): (r: Option<V>)
    ensures r.Some? <==> key in m && now - m[key].storedAt < ttl
    ensures r.Some? ==> r.value == m[key].value
  {
    if key in m && now - m[key].storedAt < ttl then Some(m[key].value) else None
  }

  /** The entries `clear_cache(prefix)` keeps: those whose key does not start with `prefix`. */
  function Retained<V>(m: map<string, CacheEntry<V>>, prefix: string): (r: map<string, CacheEntry<V>>)
    ensures forall k :: k in r <==> k in m && !StartsWith(k, prefix)
    ensures forall k :: k in r ==> r[k] == m[k]
  {
    map k | k in m && !StartsWith(k, prefix) :: m[k]
  }

  /** A value stored at `t` is served back exactly while it is younger than `ttl`. */
  lemma StoredThenFresh<V>(m: map<string, CacheEntry<V>>, key: string, v: V, t: real, now: real, ttl: real)
    ensures Fresh(m[key := CacheEntry(t, v)], key, now, ttl) == if now - t < ttl then Some(v) else None
  {
  }

  /** Every string starts with "", so the prefix rule with "" also empties the cache. */
  lemma RetainedEmptyPrefix<V>(m: map<string, CacheEntry<V>>)
    ensures Retained(m, "") == map[]
  {
    assert forall k :: StartsWith(k, "");
  }

  /** Clearing a decorator's prefix drops every entry that decorator stored. */
  lemma RetainedDropsPrefix<V>(m: map<string, CacheEntry<V>>, prefix: string, name: string, digest: string)
    ensures CacheKey(prefix, name, digest) !in Retained(m, prefix)
  {
    var k := CacheKey(prefix, name, digest);
    assert k[..|prefix|] == (prefix + ":")[..|prefix|] == prefix;
  }

  /** The module-level `_cache` dictionary. */
  class ResponseCache<V> {

    var entries: map<string, CacheEntry<V>>

    constructor ()
      ensures entries == map[]
    {
      entries := map[];
    }

    /**
     * The `cache_response` wrapper around `f`, named `name`, called with
     * `args` and `kwargs`. `now` is the clock when the key is checked,
     * `later` the clock after `f` returns; `called` says whether `f` ran.
     * A fresh hit is returned as it is; otherwise `f`'s result is stored.
     */
    method Call(ttl: real, prefix: string, name: string, digest: string -> string,
                f: (seq<string>, string) -> V, args: seq<string>, kwargs: string,
                now: real, later: real)
      returns (result: V, called: bool)
      modifies this
      ensures var key := CacheKey(prefix, name, digest(kwargs));
              match Fresh(old(entries), key, now, ttl)
              case Some(v) => result == v && !called && entries == old(entries)
              case None => result == f(args, kwargs) && called
                           && entries == old(entries)[key := CacheEntry(later, result)]
    {
      var key := CacheKey(prefix, name, digest(kwargs));
      if key in entries {
        var cached := entries[key];
        if now - cached.storedAt < ttl {
          return cached.value, false;
        }
      }
      result := f(args, kwargs);
      called := true;
      entries := entries[key := CacheEntry(later, result)];
    }

    /** `clear_cache(prefix)`: "" empties the cache; otherwise the matching keys are deleted one by one. */
    method ClearCache(prefix: string)
      modifies this
      ensures prefix == "" ==> entries == map[]
      ensures entries == Retained(old(entries), prefix)
    {
      if prefix == "" {
        RetainedEmptyPrefix(entries);
        entries := map[];
        return;
      }
      ghost var start := entries;
      var doomed := set k | k in entries && StartsWith(k, prefix);
      while doomed != {}
        invariant doomed <= start.Keys
        invariant forall k :: k in doomed ==> StartsWith(k, prefix)
        invariant entries == map k | k in start && (k in doomed || !StartsWith(k, prefix)) :: start[k]
        decreases doomed
      {
        var k :| k in doomed;
        entries := entries - {k};
        doomed := doomed - {k};
      }
    }
  }
}
