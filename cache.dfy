/**
 * The time-to-live response caches the job-board clients and the company
 * scraper keep in a dictionary field: each key maps to an entry
 * `{"timestamp": t, "data": value}`, and an entry is served only while it
 * is younger than the client's expiry. Entries are never evicted by age;
 * an expired one is replaced by the next fetch for its key.
 */
module ResponseCache {
  import opened Wrappers
  import Strings
  import Py

  /**
   * A cache entry. Entries the clients write always have both fields; a
   * dictionary put into the cache by other code may lack either key.
   */
  datatype Entry<T> = Entry(timestamp: Option<real>, data: Option<T>)

  type Cache<T> = map<string, Entry<T>>

  /** The entry written after a fetch at time `now`. */
  function Stored<T>(now: real, data: T): (e: Entry<T>)
    ensures e.timestamp == Some(now) && e.data == Some(data)
  {
    Entry(Some(now), Some(data))
  }

  /** `_is_cache_valid`: both fields present and the entry younger than `expiry` seconds at `now`. */
  predicate IsValid<T>(e: Entry<T>, now: real, expiry: int)
  {
    e.timestamp.Some? && e.data.Some? && now - e.timestamp.value < expiry as real
  }

  /**
   * The guard `key in cache and _is_cache_valid(cache[key])` followed by
   * `cache[key]["data"]`: the cached value on a hit, `None` on a miss.
   */
  function Lookup<T>(cache: Cache<T>, key: string, now: real, expiry: int): (r: Option<T>)
    ensures r.Some? <==> key in cache && IsValid(cache[key], now, expiry)
    ensures r.Some? ==> Some(r.value) == cache[key].data
  {
    if key in cache && IsValid(cache[key], now, expiry) then cache[key].data else None
  }

  /**
   * An entry stored at `t` is served exactly while less than `expiry` seconds
   * have passed, and is a miss from the instant `expiry` seconds have passed.
   */
  lemma StoredEntryLifetime<T>(cache: Cache<T>, key: string, t: real, data: T, now: real, expiry: int)
    ensures Lookup(cache[key := Stored(t, data)], key, now, expiry) ==
      (if now - t < expiry as real then Some(data) else None)
  {
  }

  /** Storing one key leaves what every other key serves unchanged. */
  lemma StoreIsolated<T>(cache: Cache<T>, key: string, other: string, e: Entry<T>, now: real, expiry: int)
    requires other != key
    ensures Lookup(cache[key := e], other, now, expiry) == Lookup(cache, other, now, expiry)
  {
  }

  /** An entry missing either field is never served, whatever its age. */
  lemma IncompleteNeverValid<T>(e: Entry<T>, now: real, expiry: int)
    requires e.timestamp.None? || e.data.None?
    ensures !IsValid(e, now, expiry)
  {
  }

  /** Validity only ends: an entry valid at some time was valid at every earlier time. */
  lemma ValidBefore<T>(e: Entry<T>, earlier: real, later: real, expiry: int)
    requires earlier <= later && IsValid(e, later, expiry)
    ensures IsValid(e, earlier, expiry)
  {
  }

  /** The entries whose key starts with `prefix` removed, all others kept as they are. */
  function WithoutPrefix<T>(cache: Cache<T>, prefix: string): (r: Cache<T>)
    ensures forall k :: k in r <==> k in cache && !Strings.StartsWith(k, prefix)
    ensures forall k :: k in r ==> r[k] == cache[k]
  {
    map k | k in cache && !Strings.StartsWith(k, prefix) :: cache[k]
  }

  /** A key that starts with one token and `_` never starts with another token and `_`, for tokens without `_`. */
  lemma SeparatedPrefixes(k: string, token: string, other: string)
    requires '_' !in token && '_' !in other && other != token
    requires Strings.StartsWith(k, other + "_")
    ensures !Strings.StartsWith(k, token + "_")
  {
    var p, q := token + "_", other + "_";
    assert k[..|q|] == q;
    if |p| <= |k| {
      var j: int;
      if |token| < |other| {
        j := |token|;
      } else if |token| > |other| {
        j := |other|;
      } else {
        assert exists i :: 0 <= i < |token| && token[i] != other[i];
        j :| 0 <= j < |token| && token[j] != other[j];
      }
      assert k[j] == q[j] != p[j];
      assert k[..|p|][j] != p[j];
    }
  }

  /**
   * The result and the new cache after a fetch whose outcome is `p`: the
   * fetched value, stored under `key` at `now`; `empty` with the cache
   * untouched when there was nothing to store; or the exception raised,
   * with the cache untouched.
   */
  ghost predicate AfterFetch<T>(r: Py.Res<T>, cache: Cache<T>, before: Cache<T>, key: string, now: real, p: Py.Res<Option<T>>, empty: T)
  {
    match p
    case Fail(e) => r == Py.Fail(e) && cache == before
    case Ok(None) => r == Py.Ok(empty) && cache == before
    case Ok(Some(v)) => r == Py.Ok(v) && cache == before[key := Stored(now, v)]
  }

  /**
   * The expiry setting: `int(get_config(key, default))`, falling back to the
   * default when the configured text is not an integer.
   */
  function ExpirySetting(config: Py.Config, key: string, default: int): (r: int)
    ensures key !in config ==> r == default
    ensures key in config ==> r == Strings.ParseInt(config[key]).GetOr(default)
  {
    if key in config then Strings.ParseInt(config[key]).GetOr(default) else default
  }
}
