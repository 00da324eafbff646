/** The service worker's caching strategies and its fetch dispatch
    (public/sw.js). Every strategy runs to completion in one step: a
    background refresh that the source does not await is taken to finish
    before the next event, with the same network outcome as the request. */
module Strategies {
  import opened Js
  import opened CacheStore
  import opened Routing

  /** The cache names of generation "v3" (`vihaar-<kind>-${CACHE_VERSION}`);
      bumping the version token renames all four and so retires the older
      generation. */
  const AppCache: string := "vihaar-app-v3"
  const RuntimeCache: string := "vihaar-runtime-v3"
  const ImageCache: string := "vihaar-images-v3"
  const ApiCache: string := "vihaar-api-v3"

  /** The four caches of the current generation. */
  const CurrentCaches: seq<string> := [AppCache, RuntimeCache, ImageCache, ApiCache]

  /** The page a failed navigation falls back to, as the source writes it:
      a path that `caches.match` resolves against the worker's origin. */
  const OfflinePage: string := "/offline.html"

  /** The network as an oracle: a response of any status, or a rejected fetch
      (an unreachable network, or the API strategy's abort after 3000 ms). */
  datatype NetResult = Ok(response: Response) | Fail

  /** What the fetch listener does with an event: leave it to the browser, or
      answer with a promise; `Answered(None)` is a promise that resolves to
      `undefined`, which the browser turns into a network error. */
  datatype Handled = NotIntercepted | Answered(answer: Option<Response>)

  const OfflineImageSvg: string :=
    "\n        <svg width=\"400\" height=\"300\" xmlns=\"http://www.w3.org/2000/svg\">\n            <rect fill=\"#201612\" width=\"400\" height=\"300\"/>\n            <text x=\"50%\" y=\"50%\" fill=\"#666\" text-anchor=\"middle\" dy=\".3em\">\n                Image unavailable\n            </text>\n        </svg>\n    "

  /** `createOfflineImageResponse`: the placeholder SVG with the default status 200. */
  function OfflineImageResponse(): (r: Response)
    ensures r.status == 200 && r.contentType == "image/svg+xml" && IsOk(r)
  {
    Response(200, OfflineImageSvg, "image/svg+xml", None, false)
  }

  /** `new Response('Offline', { status: 503 })`; a string body gets the
      Fetch Standard's default text content type. */
  function OfflineText(): (r: Response)
    ensures r.status == 503 && !IsOk(r) && r.body == "Offline"
  {
    Response(503, "Offline", "text/plain;charset=UTF-8", None, false)
  }

  /** The API strategy's offline answer: `JSON.stringify({ error: 'Offline', cached: false })`. */
  function OfflineJson(): (r: Response)
    ensures r.status == 503 && !IsOk(r) && r.contentType == "application/json"
  {
    Response(503, "{\"error\":\"Offline\",\"cached\":false}", "application/json", None, false)
  }

  /** A fetch outcome that ends up in the cache: the worker calls `put` only
      when `response.ok` holds, and `put` rejects what the Cache interface
      refuses; the worker ignores or swallows that rejection. */
  predicate Storable(net: NetResult) {
    net.Ok? && IsOk(net.response) && PutAccepts(net.response)
  }

  /** The write every strategy makes after a fetch: a storable response is
      filed under the URL; nothing else is added, and no entry for another
      URL is lost. */
  function StoreIfOk(es: seq<Entry>, url: string, net: NetResult): (r: seq<Entry>)
    ensures Storable(net) ==> Entry(url, net.response) in r
    ensures forall e :: e in r ==> e in es || (Storable(net) && e == Entry(url, net.response))
    ensures forall e :: e in es && e.url != url ==> e in r
  {
    if Storable(net) then PutEntry(es, url, net.response) else es
  }

  /** A fetch outcome changes the cache only for its own URL, and only an ok
      response that `put` accepts is ever written: otherwise the URL answers
      as before; after a stored one it answers the new response. */
  lemma StoreIfOkSpec(es: seq<Entry>, url: string, net: NetResult)
    requires UniqueUrls(es)
    ensures UniqueUrls(StoreIfOk(es, url, net))
    ensures forall u :: u != url ==> Lookup(StoreIfOk(es, url, net), u) == Lookup(es, u)
    ensures Lookup(StoreIfOk(es, url, net), url) ==
      if net.Ok? && IsOk(net.response) && PutAccepts(net.response) then Some(net.response) else Lookup(es, url)
    ensures forall e :: e in StoreIfOk(es, url, net) && e !in es ==>
      e.url == url && net == Ok(e.response) && IsOk(e.response) && PutAccepts(e.response)
  {
    if Storable(net) {
      PutEntrySpec(es, url, net.response);
    }
  }

  /** The caches after a fetch of `url` whose outcome is written to `name`. */
  function Refreshed(caches: map<string, seq<Entry>>, name: string, url: string, net: NetResult): map<string, seq<Entry>> {
    caches[name := StoreIfOk(EntriesOf(caches, name), url, net)]
  }

  /** A cache-first answer: the hit, else the live response of any status,
      else the strategy's offline response. */
  function CacheFirstAnswer(hit: Option<Response>, net: NetResult, offline: Response): Response {
    if hit.Some? then hit.value else if net.Ok? then net.response else offline
  }

  /** A network-first answer: the live response of any status, else the
      cached entry, else the strategy's offline response. */
  function NetworkFirstAnswer(net: NetResult, cached: Option<Response>, offline: Response): Response {
    match net
    case Ok(response) => response
    case Fail => if cached.Some? then cached.value else offline
  }

  /** The navigation answer: the hit, else the live response of any status,
      else the offline-page lookup, which may find nothing. */
  function NavigationAnswer(hit: Option<Response>, net: NetResult, offlinePage: Option<Response>): Option<Response> {
    if hit.Some? then hit else if net.Ok? then Some(net.response) else offlinePage
  }

  /** The static-asset strategy opens the runtime cache only after a miss
      answered by an ok response. */
  predicate StaticOpens(hit: Option<Response>, net: NetResult) {
    hit.None? && net.Ok? && IsOk(net.response)
  }

  /** `updateCacheInBackground`: refetch and overwrite when the response is
      ok and accepted; a failure is swallowed. */
  method UpdateCacheInBackground(cs: CacheStorage, name: string, url: string, net: NetResult)
    requires cs.Valid() && name in cs.caches
    modifies cs
    ensures cs.Valid() && cs.names == old(cs.names)
    ensures cs.caches == old(cs.caches)[name := StoreIfOk(old(cs.caches)[name], url, net)]
  {
    if net.Ok? && IsOk(net.response) && PutAccepts(net.response) {
      cs.Put(name, url, net.response);
    }
  }

  /** `handleImageRequest`: cache first on the image cache. A hit is answered
      from the cache and refreshed in the background; a miss is fetched and
      stored when ok; a failed miss gets the placeholder SVG. */
  method HandleImageRequest(cs: CacheStorage, req: Request, net: NetResult) returns (r: Response)
    requires cs.Valid()
    modifies cs
    ensures cs.Valid()
    ensures cs.names == Opened(old(cs.names), ImageCache)
    ensures cs.caches == Refreshed(old(cs.caches), ImageCache, req.url, net)
    ensures r == CacheFirstAnswer(Lookup(EntriesOf(old(cs.caches), ImageCache), req.url), net, OfflineImageResponse())
  {
    cs.Open(ImageCache);
    UpdateTwice(old(cs.caches), ImageCache, EntriesOf(old(cs.caches), ImageCache),
      StoreIfOk(EntriesOf(old(cs.caches), ImageCache), req.url, net));
    var cached := cs.Match(ImageCache, req.url);
    if cached.Some? {
      UpdateCacheInBackground(cs, ImageCache, req.url, net);
      return cached.value;
    }
    if net.Fail? {
      return OfflineImageResponse();
    }
    if IsOk(net.response) && PutAccepts(net.response) {
      cs.Put(ImageCache, req.url, net.response);
    }
    r := net.response;
  }

  /** `handleStaticAsset`: cache first across every cache; a miss is fetched
      and, when ok, stored in the runtime cache (opened only then); a failed
      miss gets 503 "Offline". */
  method HandleStaticAsset(cs: CacheStorage, req: Request, net: NetResult) returns (r: Response)
    requires cs.Valid()
    modifies cs
    ensures cs.Valid()
    ensures var hit := FirstMatch(old(cs.names), old(cs.caches), req.url);
      && cs.names == (if StaticOpens(hit, net) then Opened(old(cs.names), RuntimeCache) else old(cs.names))
      && cs.caches == (if StaticOpens(hit, net) then Refreshed(old(cs.caches), RuntimeCache, req.url, net) else old(cs.caches))
      && r == CacheFirstAnswer(hit, net, OfflineText())
  {
    var cached := cs.MatchAll(req.url);
    if cached.Some? {
      return cached.value;
    }
    match net {
      case Ok(response) =>
        if IsOk(response) {
          cs.Open(RuntimeCache);
          UpdateTwice(old(cs.caches), RuntimeCache, EntriesOf(old(cs.caches), RuntimeCache),
            StoreIfOk(EntriesOf(old(cs.caches), RuntimeCache), req.url, net));
          if PutAccepts(response) {
            cs.Put(RuntimeCache, req.url, response);
          }
        }
        r := response;
      case Fail =>
        r := OfflineText();
    }
  }

  /** `handleApiRequest`: network first. A response of any status is returned
      and stored when ok; a failed or aborted fetch falls back to the cached
      entry, else to the JSON 503. */
  method HandleApiRequest(cs: CacheStorage, req: Request, net: NetResult) returns (r: Response)
    requires cs.Valid()
    modifies cs
    ensures cs.Valid()
    ensures cs.names == Opened(old(cs.names), ApiCache)
    ensures cs.caches == Refreshed(old(cs.caches), ApiCache, req.url, net)
    ensures r == NetworkFirstAnswer(net, Lookup(EntriesOf(old(cs.caches), ApiCache), req.url), OfflineJson())
  {
    cs.Open(ApiCache);
    UpdateTwice(old(cs.caches), ApiCache, EntriesOf(old(cs.caches), ApiCache),
      StoreIfOk(EntriesOf(old(cs.caches), ApiCache), req.url, net));
    match net {
      case Ok(response) =>
        if IsOk(response) && PutAccepts(response) {
          cs.Put(ApiCache, req.url, response);
        }
        r := response;
      case Fail =>
        var cached := cs.Match(ApiCache, req.url);
        r := if cached.Some? then cached.value else OfflineJson();
    }
  }

  /** `handleNavigationRequest`: stale-while-revalidate on the app-shell cache.
      With no hit the live response is returned whatever its status; when the
      fetch rejects the answer is `caches.match('/offline.html')`, resolved
      against the worker's `origin`, which may be absent (the
      `|| new Response(...)` after it never applies, because a promise is
      always truthy). */
  method HandleNavigationRequest(cs: CacheStorage, req: Request, origin: string, net: NetResult) returns (r: Option<Response>)
    requires cs.Valid()
    modifies cs
    ensures cs.Valid()
    ensures cs.names == Opened(old(cs.names), AppCache)
    ensures cs.caches == Refreshed(old(cs.caches), AppCache, req.url, net)
    ensures r == NavigationAnswer(Lookup(EntriesOf(old(cs.caches), AppCache), req.url), net,
      FirstMatch(cs.names, cs.caches, Resolve(origin, OfflinePage)))
  {
    cs.Open(AppCache);
    UpdateTwice(old(cs.caches), AppCache, EntriesOf(old(cs.caches), AppCache),
      StoreIfOk(EntriesOf(old(cs.caches), AppCache), req.url, net));
    var cached := cs.Match(AppCache, req.url);
    UpdateCacheInBackground(cs, AppCache, req.url, net);
    if cached.Some? {
      return cached;
    }
    if net.Ok? {
      return Some(net.response);
    }
    r := cs.MatchAll(Resolve(origin, OfflinePage));
  }

  /** `staleWhileRevalidate`: answer from `cacheName` when it has the URL,
      else the live response of any status, else 503 "Offline"; the fetch
      stores an ok, accepted response either way. */
  method StaleWhileRevalidate(cs: CacheStorage, req: Request, cacheName: string, net: NetResult) returns (r: Response)
    requires cs.Valid()
    modifies cs
    ensures cs.Valid()
    ensures cs.names == Opened(old(cs.names), cacheName)
    ensures cs.caches == Refreshed(old(cs.caches), cacheName, req.url, net)
    ensures r == CacheFirstAnswer(Lookup(EntriesOf(old(cs.caches), cacheName), req.url), net, OfflineText())
  {
    cs.Open(cacheName);
    UpdateTwice(old(cs.caches), cacheName, EntriesOf(old(cs.caches), cacheName),
      StoreIfOk(EntriesOf(old(cs.caches), cacheName), req.url, net));
    var cached := cs.Match(cacheName, req.url);
    UpdateCacheInBackground(cs, cacheName, req.url, net);
    if cached.Some? {
      return cached.value;
    }
    r := if net.Ok? then net.response else OfflineText();
  }

  /** The cache a route's strategy may write. */
  function TargetCache(route: Route): (r: string)
    ensures r in CurrentCaches
    ensures r == ImageCache <==> route == ImageRoute
    ensures r == ApiCache <==> route == ApiRoute
    ensures r == AppCache <==> route == NavigationRoute
  {
    match route
    case ImageRoute => ImageCache
    case ApiRoute => ApiCache
    case NavigationRoute => AppCache
    case _ => RuntimeCache
  }

  /** The fetch listener: bypassed requests are untouched and unanswered;
      every other request is answered by exactly the strategy its route
      names, which writes at most that strategy's cache. Only a navigation
      can end without a response. */
  method OnFetch(cs: CacheStorage, req: Request, origin: string, net: NetResult) returns (h: Handled)
    requires cs.Valid()
    modifies cs
    ensures cs.Valid()
    ensures h.NotIntercepted? <==> RouteOf(req) == Bypass
    ensures RouteOf(req) == Bypass ==> cs.names == old(cs.names) && cs.caches == old(cs.caches)
    ensures RouteOf(req) == ImageRoute ==>
      && h == Answered(Some(CacheFirstAnswer(Lookup(EntriesOf(old(cs.caches), ImageCache), req.url), net, OfflineImageResponse())))
      && cs.names == Opened(old(cs.names), ImageCache)
      && cs.caches == Refreshed(old(cs.caches), ImageCache, req.url, net)
    ensures RouteOf(req) == StaticRoute ==>
      var hit := FirstMatch(old(cs.names), old(cs.caches), req.url);
      && h == Answered(Some(CacheFirstAnswer(hit, net, OfflineText())))
      && cs.names == (if StaticOpens(hit, net) then Opened(old(cs.names), RuntimeCache) else old(cs.names))
      && cs.caches == (if StaticOpens(hit, net) then Refreshed(old(cs.caches), RuntimeCache, req.url, net) else old(cs.caches))
    ensures RouteOf(req) == ApiRoute ==>
      && h == Answered(Some(NetworkFirstAnswer(net, Lookup(EntriesOf(old(cs.caches), ApiCache), req.url), OfflineJson())))
      && cs.names == Opened(old(cs.names), ApiCache)
      && cs.caches == Refreshed(old(cs.caches), ApiCache, req.url, net)
    ensures RouteOf(req) == NavigationRoute ==>
      && h == Answered(NavigationAnswer(Lookup(EntriesOf(old(cs.caches), AppCache), req.url), net,
                                        FirstMatch(cs.names, cs.caches, Resolve(origin, OfflinePage))))
      && cs.names == Opened(old(cs.names), AppCache)
      && cs.caches == Refreshed(old(cs.caches), AppCache, req.url, net)
    ensures RouteOf(req) == DefaultRoute ==>
      && h == Answered(Some(CacheFirstAnswer(Lookup(EntriesOf(old(cs.caches), RuntimeCache), req.url), net, OfflineText())))
      && cs.names == Opened(old(cs.names), RuntimeCache)
      && cs.caches == Refreshed(old(cs.caches), RuntimeCache, req.url, net)
    ensures forall n :: n in old(cs.caches) && n != TargetCache(RouteOf(req)) ==>
      n in cs.caches && cs.caches[n] == old(cs.caches)[n]
    ensures h.Answered? && RouteOf(req) != NavigationRoute ==> h.answer.Some?
  {
    match RouteOf(req) {
      case Bypass =>
        h := NotIntercepted;
      case ImageRoute =>
        var r := HandleImageRequest(cs, req, net);
        h := Answered(Some(r));
      case StaticRoute =>
        var r := HandleStaticAsset(cs, req, net);
        h := Answered(Some(r));
      case ApiRoute =>
        var r := HandleApiRequest(cs, req, net);
        h := Answered(Some(r));
      case NavigationRoute =>
        var r := HandleNavigationRequest(cs, req, origin, net);
        h := Answered(r);
      case DefaultRoute =>
        var r := StaleWhileRevalidate(cs, req, RuntimeCache, net);
        h := Answered(Some(r));
    }
  }

  /** Image cache first: on a hit the answer is the cached entry whatever the
      network does, and the only possible change is that the same URL is
      overwritten by an ok, accepted refetch. */
  lemma ImageHitAnswersFromCache(es: seq<Entry>, url: string, net: NetResult, hit: Response)
    requires UniqueUrls(es) && Entry(url, hit) in es
    ensures Lookup(es, url) == Some(hit)
    ensures forall u :: u != url ==> Lookup(StoreIfOk(es, url, net), u) == Lookup(es, u)
    ensures !Storable(net) ==> StoreIfOk(es, url, net) == es
  {
    LookupUnique(es, url);
    StoreIfOkSpec(es, url, net);
  }

  /** A live non-ok response is answered but never written: the cache keeps
      exactly what it had. */
  lemma NonOkNeverStored(es: seq<Entry>, url: string, resp: Response)
    requires !IsOk(resp)
    ensures StoreIfOk(es, url, Ok(resp)) == es
  {
  }

  /** A partial response is ok but `put` rejects it, so it is answered and
      never written. */
  lemma PartialNeverStored(es: seq<Entry>, url: string, resp: Response)
    requires resp.status == 206
    ensures IsOk(resp) && StoreIfOk(es, url, Ok(resp)) == es
  {
  }
}
