/** The client-side memoisation helpers of src/lib/cache.ts: the TTL
    key-value `DataCache`, `memoize` and `throttle`. `Date.now()` is an
    explicit `now` parameter. */
module DataCaching {
  import opened Js

  /** `defaultTTL`: five minutes, in milliseconds. */
  const DefaultTtl: int := 5 * 60 * 1000

  /** A stored value with the time it was written and the time it expires. */
  datatype CacheEntry<T> = CacheEntry(data: T, timestamp: int, expiresAt: int)

  /** `ttl || this.defaultTTL`: an absent ttl and a ttl of 0 both mean the default. */
  function EffectiveTtl(ttl: Option<int>): (r: int)
    ensures ttl.Some? && ttl.value != 0 ==> r == ttl.value
    ensures ttl.None? || ttl.value == 0 ==> r == DefaultTtl
  {
    if ttl.Some? && ttl.value != 0 then ttl.value else DefaultTtl
  }

  /** The value `get(key)` answers at time `now`: none for a missing key or
      an entry strictly past its expiry. */
  function Read<T>(entries: map<string, CacheEntry<T>>, key: string, now: int): Option<T> {
    if key in entries && now <= entries[key].expiresAt then Some(entries[key].data) else None
  }

  /** The map after `get(key)` at time `now`: an expired entry is evicted. */
  function AfterRead<T>(entries: map<string, CacheEntry<T>>, key: string, now: int): map<string, CacheEntry<T>> {
    if key in entries && now > entries[key].expiresAt then entries - {key} else entries
  }

  /** The map after `set(key, data, ttl)` at time `now`. */
  function Written<T>(entries: map<string, CacheEntry<T>>, key: string, data: T, ttl: Option<int>, now: int): map<string, CacheEntry<T>> {
    entries[key := CacheEntry(data, now, now + EffectiveTtl(ttl))]
  }

  /** `DataCache`: a map from key to entry, read and written at explicit times. */
  class DataCache<T> {
    var entries: map<string, CacheEntry<T>>

    constructor ()
      ensures entries == map[]
    {
      entries := map[];
    }

    /** `get(key)` */
    method Get(key: string, now: int) returns (r: Option<T>)
      modifies this
      ensures r == Read(old(entries), key, now)
      ensures entries == AfterRead(old(entries), key, now)
    {
      if key !in entries {
        return None;
      }
      var entry := entries[key];
      if now > entry.expiresAt {
        entries := entries - {key};
        return None;
      }
      r := Some(entry.data);
    }

    /** `set(key, data, ttl)` */
    method Set(key: string, data: T, ttl: Option<int>, now: int)
      modifies this
      ensures entries == Written(old(entries), key, data, ttl, now)
    {
      var expiresAt := now + EffectiveTtl(ttl);
      entries := entries[key := CacheEntry(data, now, expiresAt)];
    }

    /** `has(key)`: `get(key) !== null`, eviction included. */
    method Has(key: string, now: int) returns (b: bool)
      modifies this
      ensures b == Read(old(entries), key, now).Some?
      ensures entries == AfterRead(old(entries), key, now)
    {
      var r := Get(key, now);
      b := r.Some?;
    }

    /** `clear()` */
    method Clear()
      modifies this
      ensures entries == map[]
    {
      entries := map[];
    }

    /** `delete(key)` */
    method Delete(key: string)
      modifies this
      ensures entries == old(entries) - {key}
    {
      entries := entries - {key};
    }
  }

  /** A missing key reads as nothing and is not evicted from anything. */
  lemma ReadMissing<T>(entries: map<string, CacheEntry<T>>, key: string, now: int)
    requires key !in entries
    ensures Read(entries, key, now) == None
    ensures AfterRead(entries, key, now) == entries
  {
  }

  /** A value written with a time-to-live reads back until its expiry
      instant inclusive, and not one millisecond later. A ttl of 0 or none
      lasts the five-minute default. */
  lemma WrittenReadsBack<T>(entries: map<string, CacheEntry<T>>, key: string, data: T, ttl: Option<int>, now: int, later: int)
    ensures later <= now + EffectiveTtl(ttl) ==> Read(Written(entries, key, data, ttl, now), key, later) == Some(data)
    ensures later > now + EffectiveTtl(ttl) ==> Read(Written(entries, key, data, ttl, now), key, later) == None
    ensures ttl == Some(0) ==> Written(entries, key, data, ttl, now)[key].expiresAt == now + 300000
  {
  }

  /** Reading evicts exactly the expired entry of that key, and an evicted
      key keeps reading as nothing. */
  lemma ReadEvicts<T>(entries: map<string, CacheEntry<T>>, key: string, now: int)
    ensures Read(entries, key, now).None? <==> key !in AfterRead(entries, key, now) || key !in entries
    ensures forall k :: k != key ==> (k in AfterRead(entries, key, now) <==> k in entries)
    ensures Read(AfterRead(entries, key, now), key, now) == Read(entries, key, now)
  {
  }

  /** Writing or deleting a key leaves what every other key reads unchanged. */
  lemma OtherKeysUntouched<T>(entries: map<string, CacheEntry<T>>, key: string, other: string, data: T, ttl: Option<int>, now: int, at: int)
    requires other != key
    ensures Read(Written(entries, key, data, ttl, now), other, at) == Read(entries, other, at)
    ensures Read(entries - {key}, other, at) == Read(entries, other, at)
  {
  }

  /** The closure `memoize(fn, getKey)` returns: results cached by key.
      `keyOf` is `getKey` when given and `JSON.stringify` of the arguments
      otherwise. The ghost `calls` logs each key `fn` was run for, and
      `firstArgs` the arguments of that run. */
  class Memoized<A, R> {
    const fn: A -> R
    const keyOf: A -> string
    var cache: map<string, R>
    ghost var calls: seq<string>
    ghost var firstArgs: map<string, A>

    ghost predicate Valid()
      reads this
    {
      && (forall i, j :: 0 <= i < j < |calls| ==> calls[i] != calls[j])
      && (forall k :: k in cache <==> k in calls)
      && (forall k :: k in cache ==> k in firstArgs && keyOf(firstArgs[k]) == k && cache[k] == fn(firstArgs[k]))
    }

    constructor (fn: A -> R, getKey: Option<A -> string>, stringify: A -> string)
      ensures Valid() && cache == map[] && calls == []
      ensures this.fn == fn && keyOf == (if getKey.Some? then getKey.value else stringify)
    {
      this.fn := fn;
      var k: A -> string := stringify;
      if getKey.Some? {
        k := getKey.value;
      }
      this.keyOf := k;
      cache := map[];
      calls := [];
      firstArgs := map[];
    }

    /** One call of the memoised function: a cached key answers its stored
        result, even an `undefined` one; any other key runs `fn` once. */
    method Call(args: A) returns (r: R)
      requires Valid()
      modifies this
      ensures Valid()
      ensures keyOf(args) in old(cache) ==> r == old(cache)[keyOf(args)] && cache == old(cache) && calls == old(calls)
      ensures keyOf(args) !in old(cache) ==>
        r == fn(args) && cache == old(cache)[keyOf(args) := r] && calls == old(calls) + [keyOf(args)]
      ensures r == fn(firstArgs[keyOf(args)])
      ensures (forall a, b :: keyOf(a) == keyOf(b) ==> a == b) ==> r == fn(args)
    {
      var key := keyOf(args);
      if key in cache {
        return cache[key];
      }
      r := fn(args);
      cache := cache[key := r];
      calls := calls + [key];
      firstArgs := firstArgs[key := args];
    }
  }

  /** With a key function that tells arguments apart (as `JSON.stringify`
      does for plain data), memoisation is transparent: the result a
      memoised function holds for an argument's key is what `fn` gives for
      that argument, so `Call` always answers `fn(args)`. */
  lemma MemoTransparent<A, R>(m: Memoized<A, R>, args: A)
    requires m.Valid() && forall a, b :: m.keyOf(a) == m.keyOf(b) ==> a == b
    requires m.keyOf(args) in m.cache
    ensures m.cache[m.keyOf(args)] == m.fn(args)
  {
  }

  /** The times at which a throttled function runs, for calls at `times`
      with `last` the time of the previous run (0 before any). */
  function Fired(delay: int, last: int, times: seq<int>): (r: seq<int>)
    ensures |r| <= |times|
    decreases |times|
  {
    if times == [] then []
    else
      var prev := Fired(delay, last, times[..|times| - 1]);
      var now := times[|times| - 1];
      if now - LastRun(last, prev) >= delay then prev + [now] else prev
  }

  /** `lastCall` after the runs `fired`. */
  function LastRun(last: int, fired: seq<int>): int {
    if fired == [] then last else fired[|fired| - 1]
  }

  /** Runs of a throttled function are at least `delay` apart, the first at
      least `delay` after `last`, and each run happens at one of the call times. */
  lemma {:induction false} FiredSpaced(delay: int, last: int, times: seq<int>)
    ensures var r := Fired(delay, last, times);
      && (|r| > 0 ==> r[0] - last >= delay)
      && (forall i :: 0 <= i < |r| - 1 ==> r[i + 1] - r[i] >= delay)
      && (forall i :: 0 <= i < |r| ==> r[i] in times)
    decreases |times|
  {
    if times != [] {
      var init := times[..|times| - 1];
      FiredSpaced(delay, last, init);
      assert forall t :: t in init ==> t in times;
    }
  }

  /** The closure `throttle(fn, delay)` returns. The ghost `calls` and `runs`
      log the call times and the times `fn` actually ran. */
  class Throttled {
    const delay: int
    var lastCall: int
    ghost var calls: seq<int>
    ghost var runs: seq<int>

    ghost predicate Valid()
      reads this
    {
      runs == Fired(delay, 0, calls) && lastCall == LastRun(0, runs)
    }

    constructor (delay: int)
      ensures Valid() && this.delay == delay && lastCall == 0 && runs == []
    {
      this.delay := delay;
      lastCall := 0;
      calls := [];
      runs := [];
    }

    /** One call at time `now`; `ran` reports whether `fn` was invoked. */
    method Invoke(now: int) returns (ran: bool)
      requires Valid()
      modifies this
      ensures Valid()
      ensures ran <==> now - old(lastCall) >= delay
      ensures lastCall == (if ran then now else old(lastCall))
      ensures calls == old(calls) + [now]
      ensures runs == old(runs) + (if ran then [now] else [])
    {
      assert (calls + [now])[..|calls|] == calls;
      calls := calls + [now];
      if now - lastCall >= delay {
        lastCall := now;
        ran := true;
        runs := runs + [now];
      } else {
        ran := false;
      }
    }
  }
}
