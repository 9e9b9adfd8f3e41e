/**
 * `withCache` / `clearCache`: a process-wide map from a caller's key to the data a
 * call returned and the time it was stored. An entry is served while it is younger
 * than five minutes; older entries stay in the map until overwritten or cleared.
 *
 * The clock is explicit: `now` is the time read before the call and `later` the
 * time read after it, as the two `Date.now()` reads of the source.
 */
module ApiCache {
  import opened Common
  import opened Strings
  import opened ApiErrors

  datatype CacheEntry<+T> = CacheEntry(data: T, timestamp: int)

  /** `CACHE_DURATION`: five minutes, in milliseconds. */
  const CacheDuration: int := 5 * 60 * 1000

  /** The data served for `key` at time `now`: present only while the entry is younger than the TTL. */
  function Lookup<T>(entries: map<string, CacheEntry<T>>, key: string, now: int): (r: Option<T>)
    ensures r.Some? <==> key in entries && now - entries[key].timestamp < CacheDuration
    ensures r.Some? ==> r.value == entries[key].data
  {
    if key in entries && now - entries[key].timestamp < CacheDuration then Some(entries[key].data) else None
  }

  /** One `withCache` step: what it returns, whether it invoked the call, and the map afterwards. */
  datatype CacheStep<+T> = CacheStep(result: Outcome<T>, called: bool, entries: map<string, CacheEntry<T>>)

  /** The step `withCache(key, call)` takes on `entries`, where the call settles to `outcome`. */
  function CacheStepSpec<T>(entries: map<string, CacheEntry<T>>, key: string, now: int, outcome: Outcome<T>, later: int): CacheStep<T>
  {
    match Lookup(entries, key, now)
    case Some(d) => CacheStep(Succeeded(d), false, entries)
    case None =>
      match outcome
      case Succeeded(d) => CacheStep(Succeeded(d), true, entries[key := CacheEntry(d, later)])
      case Failed(e) => CacheStep(Failed(e), true, entries)
  }

  /** What `clearCache(pattern)` leaves: nothing for a falsy pattern, else the keys not containing it. */
  function Evict<T>(entries: map<string, CacheEntry<T>>, pattern: Option<string>): map<string, CacheEntry<T>>
  {
    if pattern.None? || pattern.value == "" then map[]
    else map k | k in entries && !Includes(k, pattern.value) :: entries[k]
  }

  class ResponseCache<T> {
    var entries: map<string, CacheEntry<T>>

    constructor ()
      ensures entries == map[]
    {
      entries := map[];
    }

    /** `withCache(key, call)`. */
    method WithCache(key: string, now: int, outcome: Outcome<T>, later: int) returns (result: Outcome<T>, called: bool)
      modifies this
      ensures CacheStep(result, called, entries) == CacheStepSpec(old(entries), key, now, outcome, later)
    {
      if key in entries && now - entries[key].timestamp < CacheDuration {
        return Succeeded(entries[key].data), false;
      }
      called := true;
      match outcome {
        case Succeeded(d) =>
          entries := entries[key := CacheEntry(d, later)];
          result := Succeeded(d);
        case Failed(e) =>
          result := Failed(e);
      }
    }

    /** `clearCache(pattern)`: the loop over the keys deleting those that contain the pattern. */
    method ClearCache(pattern: Option<string>)
      modifies this
      ensures entries == Evict(old(entries), pattern)
    {
      if pattern.None? || pattern.value == "" {
        entries := map[];
        return;
      }
      var p := pattern.value;
      var pending := entries.Keys;
      while pending != {}
        invariant pending <= old(entries).Keys
        invariant entries == map k | k in old(entries) && (k in pending || !Includes(k, p)) :: old(entries)[k]
        decreases pending
      {
        var k :| k in pending;
        if Includes(k, p) {
          entries := entries - {k};
        }
        pending := pending - {k};
      }
    }
  }

  /** A live entry is served without invoking the call, and the map is left as it was. */
  lemma HitSkipsCall<T>(entries: map<string, CacheEntry<T>>, key: string, now: int, outcome: Outcome<T>, later: int)
    requires key in entries && now - entries[key].timestamp < CacheDuration
    ensures CacheStepSpec(entries, key, now, outcome, later) == CacheStep(Succeeded(entries[key].data), false, entries)
  {
  }

  /**
   * A miss invokes the call exactly once; success stores (data, later) under the key
   * and touches no other key; failure stores nothing.
   */
  lemma MissCallsOnce<T>(entries: map<string, CacheEntry<T>>, key: string, now: int, outcome: Outcome<T>, later: int)
    requires Lookup(entries, key, now).None?
    ensures var step := CacheStepSpec(entries, key, now, outcome, later);
      step.called && step.result == outcome
      && (outcome.Succeeded? ==> step.entries == entries[key := CacheEntry(outcome.value, later)])
      && (outcome.Failed? ==> step.entries == entries)
  {
  }

  /**
   * Two `withCache` calls on a key: the second invokes the call only when the
   * first stored nothing or its entry is at least five minutes old by then.
   */
  lemma SecondCallWithinTtl<T>(entries: map<string, CacheEntry<T>>, key: string,
                               now1: int, out1: Outcome<T>, later1: int,
                               now2: int, out2: Outcome<T>, later2: int)
    requires out1.Succeeded?
    ensures var s1 := CacheStepSpec(entries, key, now1, out1, later1);
      var s2 := CacheStepSpec(s1.entries, key, now2, out2, later2);
      s1.result.Succeeded?
      && ((now2 - (if s1.called then later1 else entries[key].timestamp) < CacheDuration) <==> !s2.called)
      && (!s2.called ==> s2.result == s1.result)
  {
  }

  /** `clearCache(p)` deletes exactly the keys that contain `p` and keeps the others with their entries. */
  lemma EvictExactlyMatching<T>(entries: map<string, CacheEntry<T>>, p: string, k: string)
    requires p != ""
    ensures k in Evict(entries, Some(p)) <==> k in entries && !Includes(k, p)
    ensures k in Evict(entries, Some(p)) ==> Evict(entries, Some(p))[k] == entries[k]
  {
  }

  /**
   * The falsy-pattern shortcut agrees with the substring rule: every key contains
   * the empty pattern, so both clear the whole map.
   */
  lemma EmptyPatternMatchesEveryKey<T>(entries: map<string, CacheEntry<T>>)
    ensures Evict(entries, Some("")) == (map k | k in entries && !Includes(k, "") :: entries[k])
  {
    forall k | k in entries ensures Includes(k, "") {
      IncludesEmpty(k);
    }
    assert (map k | k in entries && !Includes(k, "") :: entries[k]) == map[];
  }

  /** After `clearCache(p)`, a key containing `p` is a miss: the next `withCache` on it invokes the call. */
  lemma ClearedKeyIsMiss<T>(entries: map<string, CacheEntry<T>>, pattern: Option<string>, key: string,
                            now: int, outcome: Outcome<T>, later: int)
    requires pattern.None? || Includes(key, pattern.value)
    ensures CacheStepSpec(Evict(entries, pattern), key, now, outcome, later).called
  {
  }
}
