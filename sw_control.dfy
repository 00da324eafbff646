/** Cache generations and the remote-control message protocol of the
    service worker (public/sw.js): `clearOldCaches`, `clearAllCaches`,
    `precacheImages`/`precacheRoutes` and the `message` listener. The
    deletions and fetches the source runs concurrently under `Promise.all`
    run here one after another, in list order. */
module Control {
  import opened Js
  import opened CacheStore
  import opened Strategies

  /** A cache name belongs to the current generation. */
  predicate IsCurrent(name: string) {
    name in CurrentCaches
  }

  /** The cache names that survive `clearOldCaches`, in their order. */
  function KeepCurrent(names: seq<string>): (r: seq<string>)
    ensures forall n :: n in r <==> n in names && IsCurrent(n)
  {
    if names == [] then []
    else KeepCurrent(names[..|names| - 1]) + (if IsCurrent(names[|names| - 1]) then [names[|names| - 1]] else [])
  }

  /** Deleting a name that occurs once takes out exactly that occurrence. */
  lemma {:induction false} WithoutOnce(a: seq<string>, x: string, b: seq<string>)
    requires x !in a && x !in b
    ensures Without(a + [x] + b, x) == a + b
  {
    if a == [] {
      assert [x] + b == a + [x] + b;
      WithoutAbsent(b, x);
    } else {
      assert (a + [x] + b)[1..] == a[1..] + [x] + b;
      assert (a + [x] + b)[0] == a[0];
      WithoutOnce(a[1..], x, b);
      assert a + b == [a[0]] + (a[1..] + b);
    }
  }

  lemma {:induction false} WithoutAbsent(s: seq<string>, x: string)
    requires x !in s
    ensures Without(s, x) == s
  {
    if s != [] {
      WithoutAbsent(s[1..], x);
    }
  }

  /** No name occurs twice. */
  ghost predicate Distinct(names: seq<string>) {
    forall i, j :: 0 <= i < j < |names| ==> names[i] != names[j]
  }

  /** One turn of the `clearOldCaches` loop, on the name order. */
  lemma ClearOldStep(names: seq<string>, i: int)
    requires Distinct(names) && 0 <= i < |names|
    ensures !IsCurrent(names[i]) ==>
      Without(KeepCurrent(names[..i]) + names[i..], names[i]) == KeepCurrent(names[..i + 1]) + names[i + 1..]
    ensures IsCurrent(names[i]) ==>
      KeepCurrent(names[..i]) + names[i..] == KeepCurrent(names[..i + 1]) + names[i + 1..]
  {
    assert names[..i + 1] == names[..i] + [names[i]];
    assert names[..i + 1][..i] == names[..i];
    assert names[i..] == [names[i]] + names[i + 1..];
    assert names[i] !in names[..i] && names[i] !in names[i + 1..];
    if !IsCurrent(names[i]) {
      WithoutOnce(KeepCurrent(names[..i]), names[i], names[i + 1..]);
      assert KeepCurrent(names[..i]) + [names[i]] + names[i + 1..] == KeepCurrent(names[..i]) + names[i..];
    }
  }

  /** `clearOldCaches`: deletes exactly the caches whose names are outside the
      current generation; the four current caches keep their entries and
      their place in the order. */
  method ClearOldCaches(cs: CacheStorage)
    requires cs.Valid()
    modifies cs
    ensures cs.Valid()
    ensures cs.names == KeepCurrent(old(cs.names))
    ensures forall n :: n in cs.caches <==> n in old(cs.caches) && IsCurrent(n)
    ensures forall n :: n in cs.caches ==> cs.caches[n] == old(cs.caches)[n]
  {
    var names := cs.names;
    assert Distinct(names);
    var i := 0;
    while i < |names|
      invariant 0 <= i <= |names|
      invariant cs.Valid()
      invariant cs.names == KeepCurrent(names[..i]) + names[i..]
      invariant forall n :: n in cs.caches ==> n in old(cs.caches) && cs.caches[n] == old(cs.caches)[n]
    {
      ClearOldStep(names, i);
      if !IsCurrent(names[i]) {
        var _ := cs.DeleteCache(names[i]);
      }
      i := i + 1;
    }
    assert names[..i] == names;
  }

  /** `clearAllCaches` (the `CLEAR_CACHE` message): every cache is deleted,
      the current generation included. */
  method ClearAllCaches(cs: CacheStorage)
    requires cs.Valid()
    modifies cs
    ensures cs.Valid()
    ensures cs.names == [] && cs.caches == map[]
  {
    var names := cs.names;
    var i := 0;
    while i < |names|
      invariant 0 <= i <= |names|
      invariant cs.Valid()
      invariant cs.names == names[i..]
    {
      assert names[i..] == [] + [names[i]] + names[i + 1..];
      assert names[i] !in names[i + 1..] by {
        assert forall k :: i < k < |names| ==> names[k] != names[i];
      }
      WithoutOnce([], names[i], names[i + 1..]);
      var _ := cs.DeleteCache(names[i]);
      i := i + 1;
    }
    assert cs.caches.Keys == {} by {
      assert forall n :: n in cs.caches ==> n in cs.names;
    }
  }

  /** One step of a precache batch: a URL the cache already holds is skipped,
      any other is fetched and stored when ok; a failed fetch or a rejected
      `put` is swallowed. */
  function PrecacheStep(es: seq<Entry>, url: string, net: string -> NetResult): seq<Entry> {
    if HasUrl(es, url) then es else StoreIfOk(es, url, net(url))
  }

  /** The entries after precaching `urls` in order. */
  function Precached(es: seq<Entry>, urls: seq<string>, net: string -> NetResult): seq<Entry>
    decreases |urls|
  {
    if urls == [] then es
    else PrecacheStep(Precached(es, urls[..|urls| - 1], net), urls[|urls| - 1], net)
  }

  /** One precache step either leaves the cache alone or appends the ok,
      accepted response fetched for a URL the cache did not hold. */
  lemma PrecacheStepSpec(es: seq<Entry>, url: string, net: string -> NetResult)
    requires UniqueUrls(es)
    ensures var r := PrecacheStep(es, url, net);
      || r == es
      || (!HasUrl(es, url) && net(url).Ok? && IsOk(net(url).response) && PutAccepts(net(url).response) && r == es + [Entry(url, net(url).response)])
    ensures UniqueUrls(PrecacheStep(es, url, net))
    ensures forall u :: HasUrl(PrecacheStep(es, url, net), u) <==>
      HasUrl(es, u) || (u == url && net(url).Ok? && IsOk(net(url).response) && PutAccepts(net(url).response))
  {
    if !HasUrl(es, url) && net(url).Ok? && IsOk(net(url).response) && PutAccepts(net(url).response) {
      PutEntrySpec(es, url, net(url).response);
      forall u ensures HasUrl(es + [Entry(url, net(url).response)], u) <==> HasUrl(es, u) || u == url {
        HasUrlAppend(es, Entry(url, net(url).response), u);
      }
    }
  }

  /** A precache batch only appends: what the cache held stays in place and
      unchanged, and every new entry is an ok, accepted response fetched for
      a URL of the batch. */
  lemma {:induction false} PrecachedAppends(es: seq<Entry>, urls: seq<string>, net: string -> NetResult)
    requires UniqueUrls(es)
    ensures UniqueUrls(Precached(es, urls, net))
    ensures |es| <= |Precached(es, urls, net)| && Precached(es, urls, net)[..|es|] == es
    ensures forall i :: |es| <= i < |Precached(es, urls, net)| ==>
      var e := Precached(es, urls, net)[i];
      e.url in urls && net(e.url) == Ok(e.response) && IsOk(e.response) && PutAccepts(e.response)
    decreases |urls|
  {
    if urls != [] {
      var init := urls[..|urls| - 1];
      var last := urls[|urls| - 1];
      PrecachedAppends(es, init, net);
      var before := Precached(es, init, net);
      PrecacheStepSpec(before, last, net);
      assert urls == init + [last];
      var after := Precached(es, urls, net);
      assert after == PrecacheStep(before, last, net);
      if after != before {
        var e := Entry(last, net(last).response);
        assert after == before + [e];
        assert last in urls && after[|before|] == e;
        assert after[..|es|] == before[..|es|];
        assert forall i :: |es| <= i < |before| ==> after[i] == before[i] && before[i].url in init;
      }
    }
  }

  /** A URL ends up cached exactly when it was cached already or it is in
      the batch and its fetch gave an ok response that `put` accepts: one
      failure does not stop the rest of the batch. */
  lemma {:induction false} PrecachedHas(es: seq<Entry>, urls: seq<string>, net: string -> NetResult)
    requires UniqueUrls(es)
    ensures forall u :: HasUrl(Precached(es, urls, net), u) <==>
      HasUrl(es, u) || (u in urls && net(u).Ok? && IsOk(net(u).response) && PutAccepts(net(u).response))
    decreases |urls|
  {
    if urls != [] {
      var init := urls[..|urls| - 1];
      var last := urls[|urls| - 1];
      PrecachedHas(es, init, net);
      PrecachedAppends(es, init, net);
      PrecacheStepSpec(Precached(es, init, net), last, net);
      assert urls == init + [last];
    }
  }

  lemma PrecachedNext(es: seq<Entry>, urls: seq<string>, i: int, net: string -> NetResult)
    requires 0 <= i < |urls|
    ensures Precached(es, urls[..i + 1], net) == PrecacheStep(Precached(es, urls[..i], net), urls[i], net)
  {
    assert urls[..i + 1][..i] == urls[..i];
  }

  /** The callback each URL of a batch runs: look it up, and fetch and
      store it only on a miss. */
  method PrecacheUrl(cs: CacheStorage, name: string, url: string, net: string -> NetResult)
    requires cs.Valid() && name in cs.caches
    modifies cs
    ensures cs.Valid() && cs.names == old(cs.names)
    ensures cs.caches == old(cs.caches)[name := PrecacheStep(old(cs.caches)[name], url, net)]
  {
    var cached := cs.Match(name, url);
    if cached.None? {
      var outcome := net(url);
      if outcome.Ok? && IsOk(outcome.response) && PutAccepts(outcome.response) {
        cs.Put(name, url, outcome.response);
      }
    }
  }

  /** The shared body of `precacheImages` and `precacheRoutes`: open the
      cache, then precache each URL in turn. */
  method Precache(cs: CacheStorage, name: string, urls: seq<string>, net: string -> NetResult)
    requires cs.Valid()
    modifies cs
    ensures cs.Valid()
    ensures cs.names == Opened(old(cs.names), name)
    ensures cs.caches == old(cs.caches)[name := Precached(EntriesOf(old(cs.caches), name), urls, net)]
  {
    cs.Open(name);
    ghost var start := cs.caches[name];
    assert urls[..0] == [];
    var i := 0;
    while i < |urls|
      invariant 0 <= i <= |urls|
      invariant cs.Valid()
      invariant cs.names == Opened(old(cs.names), name)
      invariant cs.caches == old(cs.caches)[name := Precached(start, urls[..i], net)]
    {
      PrecachedNext(start, urls, i, net);
      PrecacheUrl(cs, name, urls[i], net);
      UpdateTwice(old(cs.caches), name, Precached(start, urls[..i], net), Precached(start, urls[..i + 1], net));
      i := i + 1;
    }
    assert urls[..i] == urls;
  }

  /** `precacheImages`: the batch goes to the image cache. `fetch`,
      `cache.match` and `cache.put` all read each URL string resolved
      against the worker's `origin`. */
  method PrecacheImages(cs: CacheStorage, origin: string, urls: seq<string>, net: string -> NetResult)
    requires cs.Valid()
    modifies cs
    ensures cs.Valid()
    ensures cs.names == Opened(old(cs.names), ImageCache)
    ensures cs.caches == old(cs.caches)[ImageCache := Precached(EntriesOf(old(cs.caches), ImageCache), ResolveAll(origin, urls), net)]
  {
    Precache(cs, ImageCache, ResolveAll(origin, urls), net);
  }

  /** `precacheRoutes`: the batch goes to the app-shell cache, each route
      resolved against the worker's `origin`. */
  method PrecacheRoutes(cs: CacheStorage, origin: string, routes: seq<string>, net: string -> NetResult)
    requires cs.Valid()
    modifies cs
    ensures cs.Valid()
    ensures cs.names == Opened(old(cs.names), AppCache)
    ensures cs.caches == old(cs.caches)[AppCache := Precached(EntriesOf(old(cs.caches), AppCache), ResolveAll(origin, routes), net)]
  {
    Precache(cs, AppCache, ResolveAll(origin, routes), net);
  }

  /** A message's optional payload. */
  datatype Payload = Payload(images: Option<seq<string>>, routes: Option<seq<string>>)

  /** `event.data`; a missing `data` reads as `{}`. */
  datatype MessageData = MessageData(msgType: Option<string>, payload: Option<Payload>)

  /** `payload?.images || []` */
  function ImagesOf(data: MessageData): seq<string> {
    if data.payload.Some? && data.payload.value.images.Some? then data.payload.value.images.value else []
  }

  /** `payload?.routes || []` */
  function RoutesOf(data: MessageData): seq<string> {
    if data.payload.Some? && data.payload.value.routes.Some? then data.payload.value.routes.value else []
  }

  /** The `message` listener. `skipWaiting` reports a call to `self.skipWaiting()`.
      An unknown or missing type changes nothing. */
  method OnMessage(cs: CacheStorage, origin: string, event: Option<MessageData>, net: string -> NetResult) returns (skipWaiting: bool)
    requires cs.Valid()
    modifies cs
    ensures cs.Valid()
    ensures var data := if event.Some? then event.value else MessageData(None, None);
      && skipWaiting == (data.msgType == Some("SKIP_WAITING"))
      && (data.msgType == Some("PRECACHE_IMAGES") ==>
            cs.names == Opened(old(cs.names), ImageCache)
            && cs.caches == old(cs.caches)[ImageCache := Precached(EntriesOf(old(cs.caches), ImageCache), ResolveAll(origin, ImagesOf(data)), net)])
      && (data.msgType == Some("PRECACHE_ROUTES") ==>
            cs.names == Opened(old(cs.names), AppCache)
            && cs.caches == old(cs.caches)[AppCache := Precached(EntriesOf(old(cs.caches), AppCache), ResolveAll(origin, RoutesOf(data)), net)])
      && (data.msgType == Some("CLEAR_CACHE") ==> cs.names == [] && cs.caches == map[])
      && (data.msgType !in {Some("PRECACHE_IMAGES"), Some("PRECACHE_ROUTES"), Some("CLEAR_CACHE")} ==>
            cs.names == old(cs.names) && cs.caches == old(cs.caches))
  {
    var data := if event.Some? then event.value else MessageData(None, None);
    skipWaiting := false;
    match data.msgType {
      case Some("PRECACHE_IMAGES") =>
        PrecacheImages(cs, origin, ImagesOf(data), net);
      case Some("PRECACHE_ROUTES") =>
        PrecacheRoutes(cs, origin, RoutesOf(data), net);
      case Some("CLEAR_CACHE") =>
        ClearAllCaches(cs);
      case Some("SKIP_WAITING") =>
        skipWaiting := true;
      case _ =>
    }
  }

  /** The `activate` listener's cache work (claiming clients is left to the platform). */
  method OnActivate(cs: CacheStorage)
    requires cs.Valid()
    modifies cs
    ensures cs.Valid()
    ensures forall n :: n in cs.caches <==> n in old(cs.caches) && n in CurrentCaches
    ensures forall n :: n in cs.caches ==> cs.caches[n] == old(cs.caches)[n]
  {
    ClearOldCaches(cs);
  }

  /** A batch where one fetch fails still stores the others: with `ok.jpg`
      answering 200 and `bad.jpg` failing, `ok.jpg` is cached and `bad.jpg` is not. */
  lemma PrecacheBatchResilient(resp: Response, net: string -> NetResult)
    requires resp.status == 200 && !resp.varyAll && net("ok.jpg") == Ok(resp) && net("bad.jpg") == Fail
    ensures HasUrl(Precached([], ["ok.jpg", "bad.jpg"], net), "ok.jpg")
    ensures !HasUrl(Precached([], ["ok.jpg", "bad.jpg"], net), "bad.jpg")
  {
    PrecachedHas([], ["ok.jpg", "bad.jpg"], net);
  }

  /** A route precached by a `PRECACHE_ROUTES` message is what an offline
      navigation to that page is answered with: the relative route and the
      navigation's absolute URL name the same entry. */
  lemma PrecachedRouteServesOffline(origin: string, resp: Response, net: string -> NetResult)
    requires IsOk(resp) && PutAccepts(resp) && net(origin + "/explore") == Ok(resp)
    ensures var shell := Precached([], ResolveAll(origin, ["/explore"]), net);
      NavigationAnswer(Lookup(shell, origin + "/explore"), Fail, None) == Some(resp)
  {
    var urls := ResolveAll(origin, ["/explore"]);
    assert StartsWith("/explore", "/");
    assert !StartsWith("/explore", "//") by { assert "/explore"[1] != '/'; }
    assert Resolve(origin, "/explore") == origin + "/explore";
    assert urls == [origin + "/explore"];
    assert urls[..0] == [];
    assert Precached([], urls, net) == PrecacheStep([], origin + "/explore", net);
    PutEntrySpec([], origin + "/explore", resp);
  }
}
