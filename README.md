# Vihaar: a verified model of the caching and browsing core

Vihaar is a travel guide web app for Chhattisgarh. This project models its
logic in Dafny and proves properties of that model:

- **Offline service worker** (`public/sw.js`):
  - request routing;
  - the caching strategies for images, static assets, API calls, navigations and everything else;
  - the cache-generation cleanup;
  - the remote-control messages that precache images and routes or clear every cache;
  - the periodic janitor, which caps the image cache and sweeps expired API responses.
- **Client-side helpers**:
  - the TTL data cache, `memoize` and `throttle` (`src/lib/cache.ts`);
  - the category filters, counts, display names and rating sort (`src/lib/filters.ts`);
  - the Bhilai catalogue and its distance order (`src/lib/bhilai-places.ts`);
  - the detail-page lookup `getPlaceById` (`src/lib/data.ts`);
  - `truncateText` (`src/lib/utils.ts`);
  - the responsive `sizes` builder (`src/lib/image-config.ts`).
- **Small UI state machines**, with the markup stripped:
  - the virtual-scroll window (`VirtualScroll.tsx`);
  - the chunked "load more" feed (`ChunkedNearbyFeed.tsx`);
  - the swipe carousel (`FeaturedCarousel.tsx`);
  - the bottom-navigation tab classifier (`BottomNav.tsx`).

## Modelling choices

- **Form follows the source.** Code that mutates state is written as classes with `modifies` clauses. This covers:
  - the browser's CacheStorage;
  - `DataCache`, the `memoize` and `throttle` closures;
  - the feed, the carousel and the scroll hooks.

  Pure code is written as functions and lemmas.
- **Loops are loops.** The worker's loops are `while` loops with invariants:
  - `clearOldCaches` and `clearAllCaches`;
  - the precache batches;
  - the image cap and the API sweep.

  Each loop method is proved against a specification function (`KeepCurrent`, `Precached`, `KeepNewest`, `SweepExpired`).
- **The network is a parameter.** It is an oracle value (`NetResult`: a response of any status, or `Fail`). The precache batches take one oracle per URL. The clock (`Date.now()`) is also a parameter.
- **Strategies run to completion.**
  - A background refresh the source does not await is taken to finish within the same event, with the same network outcome.
  - `Promise.all` batches run one element after another, in list order.
- **CacheStorage** is a class holding:
  - the cache names, in creation order;
  - for each cache, its entries as an ordered list.

  `put` removes the matching entry and appends the new one, as the Cache interface of the W3C Service Workers specification does. It rejects a 206 response and one with `Vary: *`, and then nothing is stored. Requests are matched by absolute URL.
- **URL strings.** A request's `url` is absolute. The relative strings the worker passes to the Cache interface and `fetch` are resolved against the worker's origin (`Resolve`): the offline page and the precached routes and images. A path-absolute string ("/explore") takes the whole origin, and a scheme-relative one ("//host/x") takes the origin's scheme.
- **Representation.**
  - Strings are sequences of characters.
  - Ratings are in tenths of a star (4.5 is 45).
  - Pixel quantities are integers.
  - `||` on an optional string is modelled by `Truthy` (present and non-empty).

## Model

| member | source | states |
|---|---|---|
| Js.Slice | src/lib/utils.ts:34 | `slice(start, end)`: within bounds it is the subsequence; an inverted range gives nothing; never longer than the input |
| Js.RelativeIndex | src/lib/utils.ts:34 | a negative slice index counts from the end, and every index is clamped to [0, len] |
| Js.Trim | src/lib/utils.ts:34 | the trimmed string neither starts nor ends with ECMAScript whitespace and is no longer than the input |
| Js.TrimInfix | src/lib/utils.ts:34 | the trimmed string is an infix of the input, starting at the first non-whitespace character |
| Js.TrimDropsWhitespace | src/lib/utils.ts:34 | everything trimming drops on either side is whitespace |
| Js.Filter | src/lib/filters.ts:38 | `filter` keeps exactly the elements that pass, all drawn from the input |
| Js.FilterConcat | src/lib/filters.ts:47-49 | filtering distributes over concatenation, which keeps the relative order |
| Js.FilterAll | src/lib/filters.ts:32-34 | a filter every element passes returns the list itself |
| Js.FilterNone | src/components/home/ChunkedNearbyFeed.tsx:137 | a filter no element passes returns the empty list |
| Js.LowerAscii | public/sw.js:109 | case folding for the `/i` regular-expression flag: same length, with A-Z mapped to a-z and every other character kept |
| Js.NatToString | src/lib/image-config.ts:138 | a number's decimal spelling is non-empty, all digits, with no leading zero unless the number is 0 |
| Js.NatToStringValue | src/lib/image-config.ts:138 | reading the decimal spelling back gives the number |
| Js.DigitsOf | src/lib/bhilai-places.ts:489 | `replace(/\D/g, "")` leaves only digits |
| Routing.IsBypassed | public/sw.js:70-77 | the definition: a request is not intercepted when its method is not GET, its protocol does not start with "http", or its path includes "_next/webpack" |
| Routing.HasImageExtension | public/sw.js:109 | the definition: the path, folded to lower case, ends in a dot and one of the seven image extensions |
| Routing.IsImageRequest | public/sw.js:107-112 | the definition: image destination, image extension, or a hostname that contains an allow-listed domain anywhere |
| Routing.IsStaticAsset | public/sw.js:114-120 | the definition: the path starts with "/_next/static/" or ends in ".js", ".css", ".woff2" or ".woff" |
| Routing.IsApiRequest | public/sw.js:122-124 | the definition: the path starts with "/api/" |
| Routing.IsNavigationRequest | public/sw.js:126-128 | the definition: the request mode is "navigate" |
| Routing.RouteOf | public/sw.js:66-102 | the fetch listener's if-chain: each handler is chosen exactly when its test holds and every earlier test fails |
| Routing.AllowListedHostIsImage | public/sw.js:107-111 | an allow-listed CDN host makes a request an image even with no extension and under `/api/` |
| Routing.ApiImageIsImage | public/sw.js:109 | an image extension in any letter case wins over the API prefix |
| Routing.UpperCasePngIsImage | public/sw.js:109 | `.PNG` matches the case-insensitive extension test |
| Routing.PlainGetIntercepted | public/sw.js:70-77 | a GET over http(s) whose path has no underscore is intercepted |
| Routing.NonGetBypassed | public/sw.js:71 | a POST is left to the browser, whatever its URL |
| CacheStore.SchemeOf | public/sw.js:244 | the origin's scheme is a prefix of the origin that ends at its first colon |
| CacheStore.Resolve | public/sw.js:244 | the resolved URL ends with the given string, preceded by a prefix of the origin: the whole origin for a path-absolute string, the scheme for a scheme-relative one, nothing for any other |
| CacheStore.ResolveAll | public/sw.js:355-379 | each string of a list is resolved in place, and the list keeps its length |
| CacheStore.Lookup | public/sw.js:141 | `cache.match` finds nothing exactly when no entry has the URL; a hit is an entry of the cache |
| CacheStore.Remove | public/sw.js:427 | `cache.delete` removes every entry with the URL and keeps all the others |
| CacheStore.PutEntrySpec | public/sw.js:152 | `cache.put` writes its entry last, keeps URLs unique, answers the new response for its URL and leaves other URLs' answers alone |
| CacheStore.RemoveUnique | public/sw.js:427 | deleting keeps URLs unique; deleting the first entry's URL removes exactly that entry |
| CacheStore.RemoveMiddle | public/sw.js:427 | deleting a URL held once removes exactly that entry, wherever it sits |
| CacheStore.LookupMiddle | public/sw.js:421 | in a cache with unique URLs an entry's own URL finds it |
| CacheStore.Opened | public/sw.js:140 | after `caches.open` the name is listed, and nothing else is added |
| CacheStore.Without | public/sw.js:316 | after `caches.delete(name)` exactly the other names remain |
| CacheStore.FirstMatchSpec | public/sw.js:165 | `caches.match` misses exactly when no cache holds the URL |
| CacheStore.CacheStorage.constructor | public/sw.js:39 | the storage starts with no caches |
| CacheStore.CacheStorage.Open | public/sw.js:140 | creates an empty cache at the end of the order when absent; otherwise changes nothing |
| CacheStore.CacheStorage.Match | public/sw.js:141 | answers the cache's entry for the URL |
| CacheStore.CacheStorage.MatchAll | public/sw.js:165 | searches the caches in creation order and returns the first hit; nothing only when no cache holds the URL |
| CacheStore.CacheStorage.Put | public/sw.js:152 | replaces the cache's entries by the put result; every other cache is unchanged |
| CacheStore.CacheStorage.Delete | public/sw.js:427 | removes the URL's entry and reports whether there was one |
| CacheStore.CacheStorage.Keys | public/sw.js:409 | lists the cache's URLs in entry order |
| CacheStore.CacheStorage.DeleteCache | public/sw.js:316 | drops the cache and its name, and reports whether it existed |
| Strategies.OfflineImageResponse | public/sw.js:292-304 | the placeholder is a 200 `image/svg+xml` response |
| Strategies.OfflineText | public/sw.js:176 | the offline answer is a non-ok 503 with body "Offline" |
| Strategies.OfflineJson | public/sw.js:204-210 | the API offline answer is a non-ok 503 of type `application/json` |
| Strategies.StoreIfOk | public/sw.js:151-153 | a storable response is filed under the URL; nothing else is added, and no entry for another URL is lost |
| Strategies.TargetCache | public/sw.js:5-8 | each route writes one of the four current caches: images to the image cache, API calls to the API cache, navigations to the app cache, and nothing else to any of those three |
| Strategies.StoreIfOkSpec | public/sw.js:151-153 | a fetch writes only its own URL, and only an ok response that `put` accepts (not a 206, not `Vary: *`); afterwards the URL answers the new response if it was written, else what it answered before |
| Strategies.UpdateCacheInBackground | public/sw.js:279-287 | the cache is overwritten for the URL when the refetch is ok and `put` accepts it, and is untouched otherwise |
| Strategies.HandleImageRequest | public/sw.js:139-158 | cache first on the image cache: a hit answers from the cache; a miss answers the live response or, offline, the placeholder; only ok responses that `put` accepts are stored |
| Strategies.HandleStaticAsset | public/sw.js:164-178 | a hit in any cache answers; a miss answers the live response, opens the runtime cache only when it is ok and stores it there when `put` accepts it; offline gives the 503 |
| Strategies.HandleApiRequest | public/sw.js:184-212 | network first: any live response answers; a failed fetch falls back to the cached entry, else to the JSON 503 |
| Strategies.HandleNavigationRequest | public/sw.js:218-246 | the app-shell hit answers; else the live response; else whatever `caches.match('/offline.html')`, resolved against the worker's origin, gives, which may be nothing |
| Strategies.StaleWhileRevalidate | public/sw.js:251-270 | a hit answers, else the live response, else 503; an ok fetch that `put` accepts is stored either way |
| Strategies.OnFetch | public/sw.js:66-102 | bypassed requests change nothing and get no answer; every other route gets exactly its strategy's answer and cache writes (image cache first, static cache first, API network first, navigation, runtime stale-while-revalidate); other caches are untouched; only navigations can end with no response |
| Strategies.ImageHitAnswersFromCache | public/sw.js:143-146 | on an image hit the answer is the cached entry whatever the network does |
| Strategies.NonOkNeverStored | public/sw.js:151-153 | a non-ok live response is never written |
| Strategies.PartialNeverStored | public/sw.js:151-153 | a 206 response passes `response.ok`, but `put` rejects it, so nothing is written |
| Control.KeepCurrent | public/sw.js:309-318 | the surviving names are exactly the listed current-generation names |
| Control.ClearOldCaches | public/sw.js:309-318 | deletes exactly the caches outside the current generation; current caches keep their entries and order |
| Control.ClearAllCaches | public/sw.js:391-394 | every cache is deleted |
| Control.WithoutOnce | public/sw.js:316 | deleting a name held once removes exactly that occurrence |
| Control.PrecacheStepSpec | public/sw.js:350-362 | one precache step either changes nothing or appends the ok, accepted response for a URL the cache did not hold |
| Control.PrecachedAppends | public/sw.js:346-364 | a precache batch only appends, and every new entry is an ok response `put` accepted, fetched for a URL of the batch |
| Control.PrecachedHas | public/sw.js:346-364 | a URL ends up cached exactly when it was cached before, or it is in the batch and its fetch gave an ok response that `put` accepts |
| Control.PrecachedRouteServesOffline | public/sw.js:369-386 | a route precached as "/explore" is the entry an offline navigation to the absolute page URL is answered with |
| Control.PrecacheBatchResilient | public/sw.js:354-361 | one failed fetch does not stop the rest of the batch |
| Control.PrecacheUrl | public/sw.js:350-362 | a cached URL is skipped; any other is fetched and stored when the response is ok and `put` accepts it |
| Control.Precache | public/sw.js:346-364 | the loop over the batch computes `Precached` on the opened cache |
| Control.PrecacheImages | public/sw.js:346-364 | the batch, each URL resolved against the worker's origin, goes to the image cache |
| Control.PrecacheRoutes | public/sw.js:369-386 | the batch, each route resolved against the worker's origin, goes to the app-shell cache |
| Control.ImagesOf | public/sw.js:328 | the definition: `payload?.images || []`, the payload's image list, or the empty list when the payload or the list is missing |
| Control.RoutesOf | public/sw.js:331 | the definition: `payload?.routes || []`, the payload's route list, or the empty list when the payload or the list is missing |
| Control.OnMessage | public/sw.js:324-341 | each message type does its action on the payload's resolved URLs; SKIP_WAITING only skips waiting; unknown or missing types change nothing |
| Control.OnActivate | public/sw.js:53-61 | activation keeps exactly the current generation's caches, unchanged |
| Janitor.KeepNewestSpec | public/sw.js:411-414 | capping keeps exactly the newest 100 entries |
| Janitor.SweepExpiredSpec | public/sw.js:420-431 | the sweep keeps exactly the entries that are not strictly older than five minutes |
| Janitor.SweepExpiredIdempotent | public/sw.js:420-431 | a second sweep at the same time changes nothing |
| Janitor.UndatedNeverSwept | public/sw.js:423-424 | a response without a date is never swept |
| Janitor.CheckExpired | public/sw.js:421-426 | the per-key test reads the date and compares the age with the time-to-live |
| Janitor.SweepOne | public/sw.js:420-431 | one loop turn removes the visited entry exactly when it expired |
| Janitor.DeleteMiddle | public/sw.js:427 | deleting a visited key removes exactly that entry |
| Janitor.DropOldest | public/sw.js:413 | each deletion takes the oldest remaining image |
| Janitor.CapImages | public/sw.js:406-414 | the image cache ends as its newest 100 entries |
| Janitor.SweepApi | public/sw.js:416-431 | the API cache ends as its unexpired entries, in order |
| Janitor.CleanupCaches | public/sw.js:406-432 | the image cap, then the API sweep; nothing else changes |
| Janitor.OnPeriodicSync | public/sw.js:400-404 | only the `cache-cleanup` tag runs the cleanup |
| DataCaching.EffectiveTtl | src/lib/cache.ts:29 | a ttl of 0 or none means the five-minute default |
| DataCaching.DataCache.constructor | src/lib/cache.ts:13 | the cache starts empty |
| DataCaching.DataCache.Get | src/lib/cache.ts:16-26 | answers live entries; evicts an expired entry and answers null |
| DataCaching.DataCache.Set | src/lib/cache.ts:28-35 | stores the data with its write time and expiry |
| DataCaching.DataCache.Has | src/lib/cache.ts:37-39 | true exactly when `get` would answer, with the same eviction |
| DataCaching.DataCache.Clear | src/lib/cache.ts:41-43 | removes every entry |
| DataCaching.DataCache.Delete | src/lib/cache.ts:45-47 | removes exactly that key |
| DataCaching.ReadMissing | src/lib/cache.ts:18 | a missing key reads as null and evicts nothing |
| DataCaching.WrittenReadsBack | src/lib/cache.ts:20 | a written value reads back up to its expiry inclusive and not one millisecond later |
| DataCaching.ReadEvicts | src/lib/cache.ts:20-23 | a read evicts only the expired entry of its own key |
| DataCaching.OtherKeysUntouched | src/lib/cache.ts:28-35 | writing or deleting a key leaves every other key's reads unchanged |
| DataCaching.Memoized.constructor | src/lib/cache.ts:55-61 | the key function is `getKey` when given, else the stringifier; the memo starts empty |
| DataCaching.Memoized.Call | src/lib/cache.ts:61-71 | a cached key answers its stored result; a new key runs `fn` once and records it; every answer is `fn` of the first arguments seen for its key, and `fn(args)` itself when the key function tells arguments apart |
| DataCaching.MemoTransparent | src/lib/cache.ts:61-71 | with a key function that tells arguments apart, the result a memoised function holds for an argument's key is `fn` of that argument |
| DataCaching.Fired | src/lib/cache.ts:92-104 | a throttled function runs at most once per call |
| DataCaching.FiredSpaced | src/lib/cache.ts:98-103 | runs are at least `delay` apart, the first at least `delay` after time 0, and each at a call time |
| DataCaching.Throttled.constructor | src/lib/cache.ts:96 | `lastCall` starts at 0 |
| DataCaching.Throttled.Invoke | src/lib/cache.ts:98-103 | runs exactly when `now - lastCall >= delay`, and then records `now` |
| Sorting.SortBy | src/lib/filters.ts:95 | a sorted permutation of the input |
| Sorting.SortByStable | src/lib/filters.ts:95 | the sort is stable: elements with equal keys keep their relative order |
| Sorting.SortBySorted | src/lib/filters.ts:95 | sorting an already sorted list changes nothing |
| Sorting.InsertBySorted | src/lib/filters.ts:95 | inserting into a sorted list keeps it sorted |
| Filters.MapFilterToCategories | src/lib/filters.ts:10-22 | exactly the seven known ids map to a category list |
| Filters.FilterPlacesByCategory | src/lib/filters.ts:27-50 | the filter never grows the list |
| Filters.FilterIsSelection | src/lib/filters.ts:27-50 | every filter is the order-preserving selection of the places its id admits, as decided place by place by `Admits` |
| Filters.GetCategoryCount | src/lib/filters.ts:55-60 | the count is at most the number of places, and all of them for "all" |
| Filters.HasFilterResults | src/lib/filters.ts:65-70 | true exactly when some place passes the filter |
| Filters.GetCategoryDisplayName | src/lib/filters.ts:75-87 | a known id gets a non-empty heading different from the id; any other id is shown as itself |
| Filters.SortPlacesByRating | src/lib/filters.ts:92-96 | a stably sorted permutation, highest rating first |
| Filters.SortByRatingKeepsOrdered | src/lib/filters.ts:92-96 | a list already in rating order comes back unchanged |
| BhilaiPlaces.Temples | src/lib/bhilai-places.ts:467-469 | exactly the temples, all drawn from the list |
| BhilaiPlaces.NatureSpots | src/lib/bhilai-places.ts:472-474 | exactly the nature places |
| BhilaiPlaces.HistoricalSites | src/lib/bhilai-places.ts:477-479 | exactly the historical places |
| BhilaiPlaces.Attractions | src/lib/bhilai-places.ts:482-484 | exactly the art-and-craft and event places |
| BhilaiPlaces.CatalogueCategories | src/lib/bhilai-places.ts:8-460 | the catalogue uses only the five categories the lists cover |
| BhilaiPlaces.CategoryListsPartition | src/lib/bhilai-places.ts:467-484 | every catalogue place is in exactly one of the four lists |
| BhilaiPlaces.ListMembership | src/lib/bhilai-places.ts:467-484 | membership in a list is exactly the list's category test |
| BhilaiPlaces.UnitHasNoDigits | src/lib/bhilai-places.ts:489 | the " km" unit contributes no digits |
| BhilaiPlaces.DigitsKm | src/lib/bhilai-places.ts:489 | stripping non-digits from a digit string and its unit leaves the digit string |
| BhilaiPlaces.KmSpelling | src/lib/bhilai-places.ts:8-460 | the catalogue's distance strings such as "12 km" are numbers with the unit |
| BhilaiPlaces.DistanceKey | src/lib/bhilai-places.ts:489-490 | the definition: the number the distance's digits spell, and 0 for a missing distance or one with no digits |
| BhilaiPlaces.DistanceKeyOfKm | src/lib/bhilai-places.ts:489-490 | the sort key of "n km" is n |
| BhilaiPlaces.NoDigitsIsZero | src/lib/bhilai-places.ts:489-490 | a distance with no digits sorts as 0 |
| BhilaiPlaces.EntryKm | src/lib/bhilai-places.ts:8-460 | each catalogue entry's sort key is its kilometres |
| BhilaiPlaces.CatalogueDistances | src/lib/bhilai-places.ts:8-460 | the sort keys of all fifteen entries |
| BhilaiPlaces.PlacesByDistance | src/lib/bhilai-places.ts:487-493 | a permutation of the places in non-decreasing distance |
| BhilaiPlaces.NearestFirst | src/lib/bhilai-places.ts:487-493 | any distance order of the catalogue starts with Deobaloda, 3 km |
| BhilaiPlaces.FarthestLast | src/lib/bhilai-places.ts:487-493 | any distance order of the catalogue ends with Tandula Dam, 60 km |
| BhilaiPlaces.ShippedOrder | src/lib/bhilai-places.ts:487-493 | `getBhilaiPlacesByDistance()` starts with Deobaloda and ends with Tandula Dam |
| PlaceLookup.FindById | src/lib/data.ts:265 | `find` answers a place with the id from the list, and nothing only when no place has it |
| PlaceLookup.FindFirst | src/lib/data.ts:265 | `find` answers the earliest match |
| PlaceLookup.GetPlaceByIdAsWritten | src/lib/data.ts:264-266 | the lookup as written answers an inherited member exactly for a prototype name that is not an own key |
| PlaceLookup.ConstructorIsFound | src/lib/data.ts:264-266 | no source holds "constructor", yet the lookup as written answers a non-undefined value for it |
| PlaceLookup.DetailsKeysMatch | src/lib/data.ts:244-261 | each detail record is filed under its own id |
| PlaceLookup.GetPlaceById | src/lib/data.ts:264-266 | corrected lookup: an answer carries the asked id, and nothing is answered only when no source has the id |
| PlaceLookup.LookupPrecedence | src/lib/data.ts:265 | detail records win over hidden gems, which win over explore places |
| PlaceLookup.ChitrakoteFromDetails | src/lib/data.ts:244-261 | "chitrakote-falls" is in all three sources, and the detail record is the one returned |
| PlaceLookup.AsWrittenAgreesOnPlaces | src/lib/data.ts:264-266 | the lookup as written and the corrected lookup differ only on prototype names |
| TextUtils.TruncateText | src/lib/utils.ts:32-35 | text that fits is unchanged; longer text ends in "..." after at most `maxLength` kept characters |
| TextUtils.TruncatedCore | src/lib/utils.ts:34 | what precedes the ellipsis is the trimmed first `maxLength` characters |
| TextUtils.TrimmedRun | src/lib/utils.ts:34 | the trimmed text is the run from the first to the last non-whitespace character, and only whitespace is dropped |
| TextUtils.TrimEmpty | src/lib/utils.ts:34 | trimming gives the empty string exactly when the input is all whitespace |
| TextUtils.TruncateExamples | src/lib/utils.ts:32-35 | a cut inside a word keeps the word's start, and a cut after a space drops the space |
| ImageConfig.BreakpointsAscend | src/lib/image-config.ts:99-105 | the five breakpoints rise from `sm` to `2xl` |
| ImageConfig.Clauses | src/lib/image-config.ts:131-153 | three clauses with a tablet size, two without |
| ImageConfig.GenerateSizesString | src/lib/image-config.ts:131-153 | the appended string is the clause list joined by ", " |
| ImageConfig.JoinSnoc | src/lib/image-config.ts:140-150 | appending a clause appends the separator and the clause |
| ImageConfig.BreakpointDigits | src/lib/image-config.ts:138 | the breakpoints print as 640 and 1024 |
| ImageConfig.OpensWithMobile | src/lib/image-config.ts:138 | the result always begins with "(max-width: 640px) " and the mobile size |
| ImageConfig.TabletClause | src/lib/image-config.ts:140-142 | the 1024px tablet clause is present exactly when the tablet size is non-empty |
| ImageConfig.ClosingClause | src/lib/image-config.ts:144-150 | exactly one unconditional clause closes the list: desktop, else tablet, else mobile |
| ImageConfig.MobileOnly | src/lib/image-config.ts:138-150 | with only a mobile size the result is "(max-width: 640px) m, m" |
| VirtualScrolling.FloorDiv | src/components/ui/VirtualScroll.tsx:45 | `Math.floor` of a quotient: the largest multiple not above |
| VirtualScrolling.CeilDiv | src/components/ui/VirtualScroll.tsx:48 | `Math.ceil` of a quotient: the smallest multiple not below |
| VirtualScrolling.WindowAt | src/components/ui/VirtualScroll.tsx:43-52 | the window's start, end, offset and total by the component's formulas |
| VirtualScrolling.WindowBounds | src/components/ui/VirtualScroll.tsx:45-52 | the start is never negative, the end never past the list, and the offset is where the first rendered item sits |
| VirtualScrolling.WindowCoversViewport | src/components/ui/VirtualScroll.tsx:45-49 | every item overlapping the viewport is rendered |
| VirtualScrolling.PastTheEndIsEmpty | src/components/ui/VirtualScroll.tsx:51 | scrolled past the end with no overscan, nothing is rendered |
| VirtualScrolling.Rendered | src/components/ui/VirtualScroll.tsx:88-94 | the k-th rendered item gets index `startIndex + k` |
| VirtualScrolling.RenderedIndexIsGlobal | src/components/ui/VirtualScroll.tsx:88-94 | the index handed to `renderItem` is the item's own position in the full list |
| VirtualScrolling.VirtualList.constructor | src/components/ui/VirtualScroll.tsx:30-41 | defaults: overscan 3, threshold 200, scrolled to the top |
| VirtualScrolling.VirtualList.HandleScroll | src/components/ui/VirtualScroll.tsx:55-70 | records the position; the end callback fires exactly when it is given and the distance from the end is below the threshold |
| VirtualScrolling.NearEnd | src/components/ui/VirtualScroll.tsx:62-64 | the definition: the distance from the bottom of the viewport to the end of the list is below the threshold |
| VirtualScrolling.NearEndBoundary | src/components/ui/VirtualScroll.tsx:61-66 | with the default threshold a distance of 199 fires and 200 does not |
| VirtualScrolling.HorizontalList.constructor | src/components/ui/VirtualScroll.tsx:107-113 | the horizontal hook's default overscan is 2 |
| VirtualScrolling.HorizontalList.HandleScroll | src/components/ui/VirtualScroll.tsx:125-127 | records the scroll position |
| VirtualScrolling.HorizontalAtRest | src/components/ui/VirtualScroll.tsx:115-123 | at rest a 1000-pixel row of 300-pixel cards renders six |
| NearbyFeed.FilteredItems | src/components/home/ChunkedNearbyFeed.tsx:135-137 | exactly the listed items, all drawn from the list |
| NearbyFeed.FilteredIsSelection | src/components/home/ChunkedNearbyFeed.tsx:135-137 | "all" keeps everything; any other chip keeps exact category matches in order |
| NearbyFeed.HeritageListsNothing | src/components/home/ChunkedNearbyFeed.tsx:20-90 | "all" lists six cards, and "Heritage", which no card carries, lists none |
| NearbyFeed.Feed.HasMore | src/components/home/ChunkedNearbyFeed.tsx:140 | true exactly when fewer cards are shown than filtered |
| NearbyFeed.Feed.constructor | src/components/home/ChunkedNearbyFeed.tsx:129-132 | mount: "all", nothing shown, loading |
| NearbyFeed.Feed.SelectCategory | src/components/home/ChunkedNearbyFeed.tsx:143-154 | a new chip empties the list and restarts loading; the active chip changes nothing; the shown list stays a prefix of the filtered list |
| NearbyFeed.Feed.FinishInitialLoad | src/components/home/ChunkedNearbyFeed.tsx:148-151 | shows the first two filtered cards |
| NearbyFeed.Feed.LoadMoreItems | src/components/home/ChunkedNearbyFeed.tsx:157-160 | a load starts exactly when none is pending and more remain; otherwise nothing changes |
| NearbyFeed.Feed.FinishLoadMore | src/components/home/ChunkedNearbyFeed.tsx:162-167 | appends the next cards of the filtered list, as many as placeholders were shown, and keeps the prefix property |
| NearbyFeed.Feed.RemainingCount | src/components/home/ChunkedNearbyFeed.tsx:171-174 | at most a chunk of placeholders, and some exactly when more cards remain |
| NearbyFeed.Feed.RemainingLabel | src/components/home/ChunkedNearbyFeed.tsx:308 | the "remaining" count is positive exactly when more cards remain, and never below the placeholder count then |
| NearbyFeed.RemainingCountBounds | src/components/home/ChunkedNearbyFeed.tsx:171-174 | placeholders are at most a chunk, at least one and never more than remain while cards remain, and none once all are shown |
| NearbyFeed.ShownAfter | src/components/home/ChunkedNearbyFeed.tsx:93-94 | never more cards than filtered |
| NearbyFeed.ShownAfterLoads | src/components/home/ChunkedNearbyFeed.tsx:162-166 | after k loads `min(n, 2 + 2k)` cards are shown, so every card is reachable |
| Carousel.SwipeTarget | src/components/home/FeaturedCarousel.tsx:89-96 | advance iff the drag exceeds 50 and a next slide exists; go back iff it is below -50 and a previous one exists; stay in range |
| Carousel.SwipeEdges | src/components/home/FeaturedCarousel.tsx:89-96 | a drag of exactly 50 either way changes nothing; the ends do not wrap |
| Carousel.FeaturedCarousel.constructor | src/components/home/FeaturedCarousel.tsx:65-70 | first slide, not dragging, zero offset |
| Carousel.FeaturedCarousel.HandleStart | src/components/home/FeaturedCarousel.tsx:72-76 | starts a drag with both refs at the touch point |
| Carousel.FeaturedCarousel.HandleMove | src/components/home/FeaturedCarousel.tsx:78-83 | ignored unless dragging; otherwise the offset is the current position minus the start |
| Carousel.FeaturedCarousel.HandleEnd | src/components/home/FeaturedCarousel.tsx:85-99 | ignored unless dragging; otherwise ends the drag, resets the offset and applies the swipe rule |
| Carousel.FeaturedCarousel.HandleMouseLeave | src/components/home/FeaturedCarousel.tsx:113-115 | ends a drag only while one is active |
| Carousel.FeaturedCarousel.DotClick | src/components/home/FeaturedCarousel.tsx:125-128 | shows the clicked slide |
| Carousel.Swipe | src/components/home/FeaturedCarousel.tsx:101-104 | a press, move and release applies the swipe rule to the drag distance, and the index stays in range |
| BottomNav.GetActiveTab | src/components/nav/BottomNav.tsx:27-33 | "/" is home; the prefixes are checked in order; anything else is home |
| BottomNav.PrefixesDecide | src/components/nav/BottomNav.tsx:29-31 | the prefixes exclude each other, so each tab is active exactly when its own prefix is present |
| BottomNav.ActiveTabIsNavItem | src/components/nav/BottomNav.tsx:16-21 | the active tab is always one of the four nav items |
| BottomNav.PrefixExamples | src/components/nav/BottomNav.tsx:28-32 | "/explorer" lights up explore; "/search" and "/travel" light up home |

## Left out

- Install handler (public/sw.js:36-48): `cache.addAll` of the critical assets and `skipWaiting` are not modelled. `addAll` is all-or-nothing with its own failure semantics, and the handler's `clearOldCaches` call is the modelled `Control.ClearOldCaches`.
- Platform calls: `clients.claim()` (public/sw.js:58) and the push and notification-click listeners (public/sw.js:438-470) are platform calls with no cache logic.
- Concurrency is not modelled:
  - a background refresh completes within its own event, with the same network outcome as the request;
  - `Promise.all` batches run in list order, so concurrent duplicate URLs in one batch are not modelled;
  - the 3000 ms abort timer of the API strategy is one more `Fail` outcome.
- Parsing is done upstream: URL parsing is assumed done (the request carries protocol, hostname and pathname), and a `Date` header arrives already parsed to milliseconds, or as none when absent or unparsable.
- Cache entries are matched by URL only. Matching on the request headers a `Vary` header names is not modelled; only GET requests are ever stored.
- CacheStore.Resolve resolves path-absolute strings ("/explore") against the origin and scheme-relative ones ("//host/x") against its scheme. Other relative forms ("explore", "../x", "?q") are taken as absolute URLs, and dot segments are not removed; the worker passes none of them itself.
- Strategies.StoreIfOk: a `put` rejected because the storage quota is exhausted stores nothing in the source but is written in the model; the quota is not modelled. The same holds for the members below.
- Strategies.StoreIfOkSpec: does not model a `put` rejected for quota (see Strategies.StoreIfOk).
- Strategies.UpdateCacheInBackground: does not model a `put` rejected for quota (see Strategies.StoreIfOk).
- Strategies.StaleWhileRevalidate: does not model a `put` rejected for quota (see Strategies.StoreIfOk).
- Control.PrecacheUrl: does not model a `put` rejected for quota (see Strategies.StoreIfOk).
- Control.PrecacheStepSpec: does not model a `put` rejected for quota (see Strategies.StoreIfOk).
- Control.PrecachedHas: does not model a `put` rejected for quota (see Strategies.StoreIfOk).
- Janitor.SweepApi and Janitor.CleanupCaches: one `now` stands for every `Date.now()` of a sweep, whereas the source reads the clock again for each entry; entries that expire during a sweep are not modelled.
- `CACHE_TTL.images`, `CACHE_TTL.pages` and `CACHE_TTL.static` (public/sw.js:27-30) are declared but never read, so only the API time-to-live appears.
- `debounce` and `rafThrottle` (src/lib/cache.ts:77-125) are timer and frame scheduling, not state logic.
- `sortPlacesByDistance` (src/lib/filters.ts:101-109) compares `parseFloat` values; floating point is not modelled.
- DataCaching.DataCache.Get: a stored `null` reads back as a hit, whereas the source's `get` answers null for it. A stored `undefined` behaves the same in both. Data is modelled as a value of a type parameter.
- DataCaching.DataCache.Has: for a stored `null` the model answers true, whereas the source's `this.get(key) !== null` answers false.
- DataCaching.Memoized.constructor: `JSON.stringify` is a parameter (the stringifier); `MemoTransparent` and the last ensures of `Memoized.Call` assume it tells arguments apart.
- DataCaching.Throttled.Invoke: `Date.now()` is the `now` parameter; the call of `fn` itself is reported, not performed.
- Filters.MapFilterToCategories and Filters.GetCategoryDisplayName read their record literals as own keys only. For an id naming an `Object.prototype` member ("constructor", "hasOwnProperty", "__proto__", …) the source answers the inherited value, and the model answers null (the map) or the id itself (the display name). The same JavaScript behaviour is modelled for `getPlaceById` (see Findings).
- Filters.FilterPlacesByCategory, Filters.FilterIsSelection, Filters.GetCategoryCount and Filters.HasFilterResults: for an id naming an `Object.prototype` member whose `length` is not 0 ("constructor", "hasOwnProperty", "isPrototypeOf", "__proto__", …) the source calls `includes` on the inherited value and throws a TypeError for a non-empty list. The model treats such an id as unknown: it keeps the whole list, counts every place and answers true when the list is non-empty. Members of `length` 0, such as "toString", keep the list in both.
- BhilaiPlaces.CatalogueEntry keeps only id, title, category, rating and distance of each place. Distances are spelled through `Km(n)`, and `KmSpelling` shows that this spelling equals the literal "n km".
- BhilaiPlaces.DistanceKey: `parseInt` is modelled as the decimal value of the digit string, without the 2^53 precision limit.
- Js.LowerAscii, Js.Trim and Js.Slice work on characters, not UTF-16 code units.
- TextUtils.TruncateText: `text.length` and `slice` count UTF-16 code units, the model counts characters. Text outside the Basic Multilingual Plane differs: `truncateText("😀😀😀", 4)` is cut in the source (length 6) and kept whole in the model, and a source cut can split a surrogate pair.
- TextUtils.TruncatedCore: keeps the first `maxLength` characters, where the source keeps the first `maxLength` UTF-16 code units (see TextUtils.TruncateText).
- VirtualScrolling.WindowAt requires `itemHeight > 0`. A zero size divides by zero in the source (Infinity or NaN), which is not modelled. Pixel positions are integers.
- NearbyFeed.Feed.FinishLoadMore: the load-more timer reads the state current when it fires. A timer still pending when the category changes appends cards from the old category in the source; this timing race is not modelled.
- Carousel.FeaturedCarousel: the `translateX` percentage (src/components/home/FeaturedCarousel.tsx:117-118) is display arithmetic in floating point.

## Findings

| source | as written | input that shows it | evidently intended | confidence | as-written member | corrected member |
|---|---|---|---|---|---|---|
| src/lib/data.ts:264-266 | `placeDetails[id] \|\| …` reads a plain object literal, so an id naming an `Object.prototype` member answers the inherited function | `getPlaceById("constructor")` answers `Object`, not `undefined` | answer only places: own detail records, then the two lists | high, not executed | PlaceLookup.ConstructorIsFound | PlaceLookup.GetPlaceById |
