/** The periodic cache janitor of the service worker (public/sw.js):
    `cleanupCaches`, run on the `cache-cleanup` periodic sync. It caps the
    image cache at its newest 100 entries and sweeps expired API responses.
    The clock reading `Date.now()` is a parameter. */
module Janitor {
  import opened Js
  import opened CacheStore
  import opened Strategies

  /** How many image entries survive a cleanup. */
  const ImageCap: nat := 100

  /** `CACHE_TTL.api`, in seconds. */
  const ApiTtlSeconds: int := 60 * 5

  /** A cached API response is expired when its `Date` header parses and it
      is strictly older than the API time-to-live. A response without a
      usable `Date` header never expires (its age would be `NaN`, and no
      comparison with `NaN` holds). */
  predicate Expired(resp: Response, now: int) {
    resp.date.Some? && now - resp.date.value > ApiTtlSeconds * 1000
  }

  /** The image cache after capping: the last `cap` entries, in order. */
  function KeepNewest(es: seq<Entry>, cap: nat): seq<Entry> {
    if |es| > cap then es[|es| - cap..] else es
  }

  /** The API cache after a sweep: the entries that have not expired, in order. */
  function SweepExpired(es: seq<Entry>, now: int): seq<Entry>
    decreases |es|
  {
    if es == [] then [] else SweepExpired(es[..|es| - 1], now) + Kept(es[|es| - 1], now)
  }

  /** What the sweep leaves of one entry. */
  function Kept(e: Entry, now: int): seq<Entry> {
    if Expired(e.response, now) then [] else [e]
  }

  /** Capping keeps exactly the newest `cap` entries: an entry survives iff
      fewer than `cap` entries were written after it. With 105 entries the
      first five go and the last hundred stay. */
  lemma KeepNewestSpec(es: seq<Entry>, cap: nat)
    requires UniqueUrls(es)
    ensures |KeepNewest(es, cap)| == if |es| > cap then cap else |es|
    ensures forall i :: 0 <= i < |es| ==> (es[i] in KeepNewest(es, cap) <==> i >= |es| - cap)
  {
    var r := KeepNewest(es, cap);
    forall i | 0 <= i < |es| ensures es[i] in r <==> i >= |es| - cap {
      if es[i] in r && |es| > cap {
        var k :| 0 <= k < |r| && r[k] == es[i];
        assert r[k] == es[|es| - cap + k];
        assert i == |es| - cap + k;
      }
      if i >= |es| - cap && |es| > cap {
        assert r[i - (|es| - cap)] == es[i];
      }
    }
  }

  /** The sweep keeps exactly the live entries: an entry stays iff it has
      not expired, so responses without a date and responses exactly at the
      time-to-live are kept. */
  lemma {:induction false} SweepExpiredSpec(es: seq<Entry>, now: int)
    ensures |SweepExpired(es, now)| <= |es|
    ensures forall e :: e in SweepExpired(es, now) <==> e in es && !Expired(e.response, now)
    decreases |es|
  {
    if es != [] {
      SweepExpiredSpec(es[..|es| - 1], now);
      assert es == es[..|es| - 1] + [es[|es| - 1]];
    }
  }

  /** Sweeping is idempotent: a second sweep at the same time changes nothing. */
  lemma {:induction false} SweepExpiredIdempotent(es: seq<Entry>, now: int)
    ensures SweepExpired(SweepExpired(es, now), now) == SweepExpired(es, now)
    decreases |es|
  {
    if es != [] {
      var init := es[..|es| - 1];
      var last := es[|es| - 1];
      SweepExpiredIdempotent(init, now);
      var s := SweepExpired(init, now);
      if Expired(last.response, now) {
        assert SweepExpired(es, now) == s + [];
        assert s + [] == s;
      } else {
        var r := s + [last];
        assert SweepExpired(es, now) == r;
        assert r[..|r| - 1] == s && r[|r| - 1] == last;
        assert SweepExpired(r, now) == SweepExpired(s, now) + [last];
      }
    }
  }

  /** A sweep never drops an entry that lacks a date, however late it runs. */
  lemma UndatedNeverSwept(es: seq<Entry>, e: Entry, now: int)
    requires e in es && e.response.date.None?
    ensures e in SweepExpired(es, now)
  {
    SweepExpiredSpec(es, now);
  }

  /** One turn of the sweep loop: the processed prefix grows by one entry. */
  lemma SweepNext(es: seq<Entry>, j: int, now: int)
    requires 0 <= j < |es|
    ensures SweepExpired(es[..j + 1], now) ==
      SweepExpired(es[..j], now) + Kept(es[j], now)
  {
    assert es[..j + 1][..j] == es[..j];
  }

  /** The sweep loop's state before and after visiting entry `j`. */
  lemma SweepLoopStep(es: seq<Entry>, j: int, now: int)
    requires 0 <= j < |es|
    ensures SweepExpired(es[..j], now) + es[j..] == SweepExpired(es[..j], now) + [es[j]] + es[j + 1..]
    ensures SweepExpired(es[..j], now) + Kept(es[j], now) + es[j + 1..]
      == SweepExpired(es[..j + 1], now) + es[j + 1..]
  {
    SweepNext(es, j, now);
    assert es[j..] == [es[j]] + es[j + 1..];
  }

  /** The sweep loop's state before the first and after the last turn. */
  lemma SweepEnds(es: seq<Entry>, now: int)
    ensures SweepExpired(es[..0], now) + es[0..] == es
    ensures SweepExpired(es[..|es|], now) + es[|es|..] == SweepExpired(es, now)
  {
    assert es[..0] == [] && es[0..] == es;
    assert es[..|es|] == es && es[|es|..] == [];
  }

  /** Deleting the oldest remaining image, whose key is `url`. */
  method DropOldest(cs: CacheStorage, url: string, ghost images: seq<Entry>, ghost i: int)
    requires cs.Valid() && ImageCache in cs.caches
    requires 0 <= i < |images| && cs.caches[ImageCache] == images[i..] && url == images[i].url
    modifies cs
    ensures cs.Valid() && cs.names == old(cs.names)
    ensures cs.caches == old(cs.caches)[ImageCache := images[i + 1..]]
  {
    RemoveUnique(images[i..], images[i].url);
    assert images[i..][1..] == images[i + 1..];
    var _ := cs.Delete(ImageCache, url);
  }

  /** The image half of `cleanupCaches`. */
  method CapImages(cs: CacheStorage)
    requires cs.Valid()
    modifies cs
    ensures cs.Valid()
    ensures cs.names == Opened(old(cs.names), ImageCache)
    ensures cs.caches == old(cs.caches)[ImageCache := KeepNewest(EntriesOf(old(cs.caches), ImageCache), ImageCap)]
  {
    cs.Open(ImageCache);
    ghost var start := cs.caches;
    ghost var images := cs.caches[ImageCache];
    assert images == EntriesOf(old(cs.caches), ImageCache);
    var imageUrls := cs.Keys(ImageCache);
    if |imageUrls| > ImageCap {
      var toDelete := imageUrls[..|imageUrls| - ImageCap];
      var i := 0;
      assert images[0..] == images;
      UpdateSame(start, ImageCache);
      while i < |toDelete|
        invariant 0 <= i <= |toDelete|
        invariant cs.Valid() && cs.names == Opened(old(cs.names), ImageCache)
        invariant cs.caches == start[ImageCache := images[i..]]
      {
        DropOldest(cs, toDelete[i], images, i);
        UpdateTwice(start, ImageCache, images[i..], images[i + 1..]);
        i := i + 1;
      }
      assert images[i..] == KeepNewest(images, ImageCap);
    } else {
      UpdateSame(start, ImageCache);
    }
    UpdateTwice(old(cs.caches), ImageCache, images, KeepNewest(images, ImageCap));
  }

  /** The API half of `cleanupCaches`: look up each key and delete it when
      its response has expired. */
  method SweepApi(cs: CacheStorage, now: int)
    requires cs.Valid()
    modifies cs
    ensures cs.Valid()
    ensures cs.names == Opened(old(cs.names), ApiCache)
    ensures cs.caches == old(cs.caches)[ApiCache := SweepExpired(EntriesOf(old(cs.caches), ApiCache), now)]
  {
    cs.Open(ApiCache);
    ghost var start := cs.caches;
    ghost var api := cs.caches[ApiCache];
    var apiUrls := cs.Keys(ApiCache);
    var j := 0;
    SweepEnds(api, now);
    UpdateSame(start, ApiCache);
    while j < |apiUrls|
      invariant 0 <= j <= |apiUrls|
      invariant cs.Valid() && cs.names == Opened(old(cs.names), ApiCache)
      invariant cs.caches == start[ApiCache := SweepExpired(api[..j], now) + api[j..]]
    {
      ghost var done := SweepExpired(api[..j], now);
      SweepLoopStep(api, j, now);
      SweepOne(cs, apiUrls[j], now, done, api[j], api[j + 1..]);
      UpdateTwice(start, ApiCache, done + api[j..], SweepExpired(api[..j + 1], now) + api[j + 1..]);
      j := j + 1;
    }
    UpdateTwice(old(cs.caches), ApiCache, EntriesOf(old(cs.caches), ApiCache),
      SweepExpired(EntriesOf(old(cs.caches), ApiCache), now));
  }

  /** The test the sweep applies to one key: look the response up, read its
      date, and compare its age with the time-to-live. */
  method CheckExpired(cs: CacheStorage, url: string, now: int, ghost done: seq<Entry>, ghost x: Entry, ghost rest: seq<Entry>)
    returns (expired: bool)
    requires cs.Valid() && ApiCache in cs.caches
    requires cs.caches[ApiCache] == done + [x] + rest && url == x.url
    ensures expired == Expired(x.response, now)
  {
    LookupMiddle(done, x, rest);
    var response := cs.Match(ApiCache, url);
    expired := false;
    if response.Some? {
      var dated := response.value.date;
      if dated.Some? {
        var age := now - dated.value;
        expired := age > ApiTtlSeconds * 1000;
      }
    }
  }

  /** The loop body of the sweep, for the entry `x` between the swept prefix
      `done` and the unvisited rest. */
  method SweepOne(cs: CacheStorage, url: string, now: int, ghost done: seq<Entry>, ghost x: Entry, ghost rest: seq<Entry>)
    requires cs.Valid() && ApiCache in cs.caches
    requires cs.caches[ApiCache] == done + [x] + rest && url == x.url
    modifies cs
    ensures cs.Valid() && cs.names == old(cs.names)
    ensures cs.caches == old(cs.caches)[ApiCache := done + Kept(x, now) + rest]
  {
    var expired := CheckExpired(cs, url, now, done, x, rest);
    if expired {
      DeleteMiddle(cs, url, done, x, rest);
      assert done + Kept(x, now) + rest == done + rest;
    } else {
      UpdateSame(cs.caches, ApiCache);
    }
  }

  /** `apiCache.delete(request)` for the entry `x` between `done` and `rest`. */
  method DeleteMiddle(cs: CacheStorage, url: string, ghost done: seq<Entry>, ghost x: Entry, ghost rest: seq<Entry>)
    requires cs.Valid() && ApiCache in cs.caches
    requires cs.caches[ApiCache] == done + [x] + rest && url == x.url
    modifies cs
    ensures cs.Valid() && cs.names == old(cs.names)
    ensures cs.caches == old(cs.caches)[ApiCache := done + rest]
  {
    RemoveMiddle(done, x, rest);
    var _ := cs.Delete(ApiCache, url);
  }

  /** `cleanupCaches`: the image cap, then the API sweep. */
  method CleanupCaches(cs: CacheStorage, now: int)
    requires cs.Valid()
    modifies cs
    ensures cs.Valid()
    ensures cs.names == Opened(Opened(old(cs.names), ImageCache), ApiCache)
    ensures cs.caches == old(cs.caches)
      [ImageCache := KeepNewest(EntriesOf(old(cs.caches), ImageCache), ImageCap)]
      [ApiCache := SweepExpired(EntriesOf(old(cs.caches), ApiCache), now)]
  {
    CapImages(cs);
    SweepApi(cs, now);
  }

  /** The `periodicsync` listener: only the `cache-cleanup` tag does anything. */
  method OnPeriodicSync(cs: CacheStorage, tag: string, now: int)
    requires cs.Valid()
    modifies cs
    ensures cs.Valid()
    ensures tag != "cache-cleanup" ==> cs.names == old(cs.names) && cs.caches == old(cs.caches)
    ensures tag == "cache-cleanup" ==>
      && cs.names == Opened(Opened(old(cs.names), ImageCache), ApiCache)
      && cs.caches == old(cs.caches)
        [ImageCache := KeepNewest(EntriesOf(old(cs.caches), ImageCache), ImageCap)]
        [ApiCache := SweepExpired(EntriesOf(old(cs.caches), ApiCache), now)]
  {
    if tag == "cache-cleanup" {
      CleanupCaches(cs, now);
    }
  }
}
