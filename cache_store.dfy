/** The browser's CacheStorage as the service worker uses it: named caches,
    created in order, each an ordered list of (URL, response) entries.
    `put` follows the Cache interface of the W3C Service Workers specification:
    a matching entry is removed and the new one is appended, so the key order
    is the order of the most recent writes. Requests are matched by URL only:
    every request the worker stores is a GET, and no response varies. */
module CacheStore {
  import opened Js

  /** A response reduced to what the worker and the Cache interface read:
      its status, body, content type, the `Date` header, already parsed to
      milliseconds (None when absent or unparsable), and whether its `Vary`
      header lists `*`. */
  datatype Response = Response(status: int, body: string, contentType: string, date: Option<int>, varyAll: bool)

  /** `response.ok`: the ok status of the Fetch Standard, 200 to 299. */
  predicate IsOk(r: Response) {
    200 <= r.status <= 299
  }

  /** Whether `cache.put` accepts the response: the put algorithm of the
      Service Workers specification rejects a partial response (206) and one
      whose `Vary` header lists `*`, and then stores nothing. */
  predicate PutAccepts(r: Response) {
    r.status != 206 && !r.varyAll
  }

  /** The scheme of an origin with its colon, as in "https:": everything up
      to and including the first ':', or the whole string when it has none. */
  function SchemeOf(origin: string): (r: string)
    ensures StartsWith(origin, r)
    ensures ':' in origin ==> |r| > 0 && r[|r| - 1] == ':' && ':' !in r[..|r| - 1]
    decreases |origin|
  {
    if origin == [] then []
    else if origin[0] == ':' then [':']
    else
      var rest := SchemeOf(origin[1..]);
      assert ':' in origin ==> ':' in origin[1..] by {
        if ':' in origin { var i :| 0 <= i < |origin| && origin[i] == ':'; assert origin[1..][i - 1] == ':'; }
      }
      assert ([origin[0]] + rest)[1..] == rest;
      [origin[0]] + rest
  }

  /** How `fetch` and the Cache interface read a URL string: a
      scheme-relative string such as "//host/x" takes the scheme of the
      worker's origin, a path-absolute one such as "/explore" the whole
      origin; any other string is taken as an absolute URL already. The
      string always ends the resolved URL, preceded by a prefix of the
      origin. */
  function Resolve(origin: string, s: string): (r: string)
    ensures EndsWith(r, s) && StartsWith(origin, r[..|r| - |s|])
    ensures !StartsWith(s, "/") ==> r == s
    ensures StartsWith(s, "/") && !StartsWith(s, "//") ==> r[..|r| - |s|] == origin
    ensures StartsWith(s, "//") ==> r[..|r| - |s|] == SchemeOf(origin)
  {
    if StartsWith(s, "//") then SchemeOf(origin) + s
    else if StartsWith(s, "/") then origin + s
    else s
  }

  /** `Resolve` applied to each string of a list. */
  function ResolveAll(origin: string, ss: seq<string>): (r: seq<string>)
    ensures |r| == |ss| && forall i :: 0 <= i < |ss| ==> r[i] == Resolve(origin, ss[i])
  {
    seq(|ss|, i requires 0 <= i < |ss| => Resolve(origin, ss[i]))
  }

  datatype Entry = Entry(url: string, response: Response)

  /** No two entries of a cache share a URL. */
  ghost predicate UniqueUrls(es: seq<Entry>) {
    forall i, j :: 0 <= i < j < |es| ==> es[i].url != es[j].url
  }

  predicate HasUrl(es: seq<Entry>, url: string) {
    exists i :: 0 <= i < |es| && es[i].url == url
  }

  /** `cache.match(url)`: the response of the first entry with that URL. */
  function Lookup(es: seq<Entry>, url: string): (r: Option<Response>)
    ensures r.None? <==> !HasUrl(es, url)
    ensures r.Some? ==> Entry(url, r.value) in es
  {
    if es == [] then None
    else if es[0].url == url then Some(es[0].response)
    else
      var r := Lookup(es[1..], url);
      assert forall i :: 1 <= i < |es| ==> es[i] == es[1..][i - 1];
      r
  }

  /** `cache.delete(url)`: every entry with that URL is gone, the rest keep their order. */
  function Remove(es: seq<Entry>, url: string): (r: seq<Entry>)
    ensures |r| <= |es|
    ensures !HasUrl(r, url)
    ensures forall e :: e in r <==> e in es && e.url != url
    ensures !HasUrl(es, url) ==> r == es
  {
    if es == [] then []
    else
      var rest := Remove(es[1..], url);
      assert es == [es[0]] + es[1..];
      if es[0].url == url then rest else [es[0]] + rest
  }

  /** `cache.put(url, resp)`: remove the matching entry, then append. */
  function PutEntry(es: seq<Entry>, url: string, resp: Response): seq<Entry> {
    Remove(es, url) + [Entry(url, resp)]
  }

  /** `cache.keys()`, as URLs in entry order. */
  function Urls(es: seq<Entry>): (r: seq<string>)
    ensures |r| == |es|
    ensures forall i :: 0 <= i < |es| ==> r[i] == es[i].url
  {
    seq(|es|, i requires 0 <= i < |es| => es[i].url)
  }

  /** Removing keeps URLs unique; in a cache with unique URLs, removing the
      URL of the first entry removes exactly that entry. */
  lemma {:induction false} RemoveUnique(es: seq<Entry>, url: string)
    requires UniqueUrls(es)
    ensures UniqueUrls(Remove(es, url))
    ensures es != [] && es[0].url == url ==> Remove(es, url) == es[1..]
  {
    if es != [] {
      RemoveUnique(es[1..], url);
      var rest := Remove(es[1..], url);
      if es[0].url != url {
        forall i, j | 0 <= i < j < |[es[0]] + rest| ensures ([es[0]] + rest)[i].url != ([es[0]] + rest)[j].url {
          if i == 0 {
            assert ([es[0]] + rest)[j] in es[1..];
          }
        }
      } else {
        assert !HasUrl(es[1..], url);
      }
    }
  }

  /** Put writes its entry last, keeps URLs unique, answers the new response for
      that URL, leaves every other URL's answer alone, and grows the cache by
      one exactly when the URL was new. */
  lemma PutEntrySpec(es: seq<Entry>, url: string, resp: Response)
    requires UniqueUrls(es)
    ensures UniqueUrls(PutEntry(es, url, resp))
    ensures PutEntry(es, url, resp)[|PutEntry(es, url, resp)| - 1] == Entry(url, resp)
    ensures Lookup(PutEntry(es, url, resp), url) == Some(resp)
    ensures forall u :: u != url ==> Lookup(PutEntry(es, url, resp), u) == Lookup(es, u)
    ensures !HasUrl(es, url) ==> PutEntry(es, url, resp) == es + [Entry(url, resp)]
  {
    RemoveUnique(es, url);
    var r := Remove(es, url);
    var p := r + [Entry(url, resp)];
    forall u | u != url ensures Lookup(p, u) == Lookup(es, u) {
      LookupUniqueAppend(r, Entry(url, resp), u);
      LookupUnique(r, u);
      LookupUnique(es, u);
    }
    LookupUniqueAppend(r, Entry(url, resp), url);
  }

  /** In a cache with unique URLs, a lookup is determined by membership. */
  lemma LookupUnique(es: seq<Entry>, u: string)
    requires UniqueUrls(es)
    ensures forall resp :: Entry(u, resp) in es ==> Lookup(es, u) == Some(resp)
  {
    forall resp | Entry(u, resp) in es ensures Lookup(es, u) == Some(resp) {
      var k :| 0 <= k < |es| && es[k] == Entry(u, resp);
      var v := Lookup(es, u).value;
      var m :| 0 <= m < |es| && es[m] == Entry(u, v);
      assert m == k;
    }
  }

  lemma LookupUniqueAppend(es: seq<Entry>, e: Entry, u: string)
    ensures Lookup(es + [e], u) == if HasUrl(es, u) then Lookup(es, u) else if e.url == u then Some(e.response) else None
  {
    if es != [] {
      assert (es + [e])[1..] == es[1..] + [e];
      LookupUniqueAppend(es[1..], e, u);
      if es[0].url != u {
        assert HasUrl(es, u) <==> HasUrl(es[1..], u) by {
          if HasUrl(es, u) {
            var i :| 0 <= i < |es| && es[i].url == u;
            assert es[1..][i - 1].url == u;
          }
          if HasUrl(es[1..], u) {
            var i :| 0 <= i < |es[1..]| && es[1..][i].url == u;
            assert es[i + 1].url == u;
          }
        }
      }
    }
  }

  /** Appending an entry adds exactly its URL. */
  lemma HasUrlAppend(es: seq<Entry>, e: Entry, u: string)
    ensures HasUrl(es + [e], u) <==> HasUrl(es, u) || e.url == u
  {
    if HasUrl(es, u) {
      var i :| 0 <= i < |es| && es[i].url == u;
      assert (es + [e])[i].url == u;
    }
    if HasUrl(es + [e], u) && e.url != u {
      var i :| 0 <= i < |es + [e]| && (es + [e])[i].url == u;
      assert es[i].url == u;
    }
    assert (es + [e])[|es|] == e;
  }

  /** In a cache with unique URLs, an entry's own URL finds it. */
  lemma LookupMiddle(a: seq<Entry>, x: Entry, b: seq<Entry>)
    requires UniqueUrls(a + [x] + b)
    ensures Lookup(a + [x] + b, x.url) == Some(x.response)
  {
    assert (a + [x] + b)[|a|] == x;
    LookupUnique(a + [x] + b, x.url);
  }

  /** `cache.delete` works entry by entry. */
  lemma {:induction false} RemoveConcat(a: seq<Entry>, b: seq<Entry>, url: string)
    ensures Remove(a + b, url) == Remove(a, url) + Remove(b, url)
  {
    if a != [] {
      assert (a + b)[1..] == a[1..] + b;
      assert (a + b)[0] == a[0];
      RemoveConcat(a[1..], b, url);
    } else {
      assert a + b == b;
    }
  }

  /** `cache.delete` of a URL held once takes out exactly that entry,
      wherever it sits. */
  lemma RemoveMiddle(a: seq<Entry>, x: Entry, b: seq<Entry>)
    requires UniqueUrls(a + [x] + b)
    ensures Remove(a + [x] + b, x.url) == a + b
  {
    UniqueSplit(a, x, b);
    RemoveAbsentAround(a, x, b);
  }

  lemma RemoveAbsentAround(a: seq<Entry>, x: Entry, b: seq<Entry>)
    requires !HasUrl(a, x.url) && !HasUrl(b, x.url)
    ensures Remove(a + [x] + b, x.url) == a + b
  {
    var ax := a + [x];
    RemoveConcat(ax, b, x.url);
    assert Remove(a + [x] + b, x.url) == Remove(ax, x.url) + Remove(b, x.url);
    RemoveConcat(a, [x], x.url);
    assert Remove(ax, x.url) == Remove(a, x.url) + Remove([x], x.url);
    RemoveOne(x);
    assert Remove(ax, x.url) == a;
  }

  lemma RemoveOne(x: Entry)
    ensures Remove([x], x.url) == []
  {
    assert [x][1..] == [];
  }

  /** The URL of an entry held once occurs nowhere else. */
  lemma UniqueSplit(a: seq<Entry>, x: Entry, b: seq<Entry>)
    requires UniqueUrls(a + [x] + b)
    ensures !HasUrl(a, x.url) && !HasUrl(b, x.url)
  {
    forall i | 0 <= i < |a| ensures a[i].url != x.url {
      assert (a + [x] + b)[i] == a[i] && (a + [x] + b)[|a|] == x;
    }
    forall i | 0 <= i < |b| ensures b[i].url != x.url {
      assert (a + [x] + b)[|a| + 1 + i] == b[i] && (a + [x] + b)[|a|] == x;
    }
  }

  /** Two writes to the same cache name: the second wins. */
  lemma UpdateTwice(m: map<string, seq<Entry>>, name: string, a: seq<Entry>, b: seq<Entry>)
    ensures m[name := a][name := b] == m[name := b]
  {
  }

  /** Writing back what a cache holds changes nothing. */
  lemma UpdateSame(m: map<string, seq<Entry>>, name: string)
    requires name in m
    ensures m[name := m[name]] == m
  {
  }

  /** The entries of a cache; a cache that does not exist yet has none. */
  function EntriesOf(caches: map<string, seq<Entry>>, name: string): seq<Entry> {
    if name in caches then caches[name] else []
  }

  /** The host's CacheStorage: cache names in creation order (what
      `caches.keys()` lists and the order `caches.match` searches) and the
      entries of each cache. */
  class CacheStorage {
    var names: seq<string>
    var caches: map<string, seq<Entry>>

    ghost predicate Valid()
      reads this
    {
      && (forall i, j :: 0 <= i < j < |names| ==> names[i] != names[j])
      && (forall n :: n in caches <==> n in names)
      && (forall n :: n in caches ==> UniqueUrls(caches[n]))
    }

    constructor ()
      ensures Valid() && names == [] && caches == map[]
    {
      names := [];
      caches := map[];
    }

    /** `caches.open(name)`: creates an empty cache at the end of the order if absent. */
    method Open(name: string)
      requires Valid()
      modifies this
      ensures Valid()
      ensures names == Opened(old(names), name)
      ensures caches == old(caches)[name := EntriesOf(old(caches), name)]
    {
      if name !in caches {
        names := names + [name];
        caches := caches[name := []];
      }
    }

    /** `cache.match(url)` on an open cache. */
    method Match(name: string, url: string) returns (r: Option<Response>)
      requires Valid() && name in caches
      ensures r == Lookup(caches[name], url)
      ensures r.Some? ==> Entry(url, r.value) in caches[name]
    {
      r := Lookup(caches[name], url);
    }

    /** `caches.match(url)`: the first hit, searching the caches in creation order. */
    method MatchAll(url: string) returns (r: Option<Response>)
      requires Valid()
      ensures r == FirstMatch(names, caches, url)
      ensures r.None? <==> forall n :: n in caches ==> !HasUrl(caches[n], url)
    {
      FirstMatchSpec(names, caches, url);
      var i := 0;
      while i < |names|
        invariant 0 <= i <= |names|
        invariant FirstMatch(names, caches, url) == FirstMatch(names[i..], caches, url)
      {
        assert names[i..][1..] == names[i + 1..];
        if names[i] in caches {
          var hit := Lookup(caches[names[i]], url);
          if hit.Some? {
            return hit;
          }
        }
        i := i + 1;
      }
      return None;
    }

    /** `cache.put(url, resp)` on an open cache. */
    method Put(name: string, url: string, resp: Response)
      requires Valid() && name in caches
      modifies this
      ensures Valid() && names == old(names)
      ensures caches == old(caches)[name := PutEntry(old(caches)[name], url, resp)]
    {
      PutEntrySpec(caches[name], url, resp);
      caches := caches[name := PutEntry(caches[name], url, resp)];
    }

    /** `cache.delete(url)` on an open cache; reports whether an entry went away. */
    method Delete(name: string, url: string) returns (deleted: bool)
      requires Valid() && name in caches
      modifies this
      ensures Valid() && names == old(names)
      ensures caches == old(caches)[name := Remove(old(caches)[name], url)]
      ensures deleted == HasUrl(old(caches)[name], url)
    {
      RemoveUnique(caches[name], url);
      deleted := HasUrl(caches[name], url);
      caches := caches[name := Remove(caches[name], url)];
    }

    /** `cache.keys()` on an open cache. */
    method Keys(name: string) returns (urls: seq<string>)
      requires Valid() && name in caches
      ensures urls == Urls(caches[name])
    {
      urls := Urls(caches[name]);
    }

    /** `caches.delete(name)`: drops the cache and its place in the order. */
    method DeleteCache(name: string) returns (deleted: bool)
      requires Valid()
      modifies this
      ensures Valid()
      ensures names == Without(old(names), name)
      ensures caches == old(caches) - {name}
      ensures deleted == (name in old(caches))
    {
      WithoutSpec(names, name);
      deleted := name in caches;
      names := Without(names, name);
      caches := caches - {name};
    }
  }

  /** The name order after `caches.open(name)`. */
  function Opened(names: seq<string>, name: string): (r: seq<string>)
    ensures name in r
    ensures forall n :: n in r <==> n in names || n == name
  {
    if name in names then names else names + [name]
  }

  /** The name order after `caches.delete(name)`. */
  function Without(names: seq<string>, name: string): (r: seq<string>)
    ensures forall n :: n in r <==> n in names && n != name
  {
    if names == [] then []
    else if names[0] == name then Without(names[1..], name)
    else [names[0]] + Without(names[1..], name)
  }

  lemma {:induction false} WithoutSpec(names: seq<string>, name: string)
    requires forall i, j :: 0 <= i < j < |names| ==> names[i] != names[j]
    ensures forall i, j :: 0 <= i < j < |Without(names, name)| ==> Without(names, name)[i] != Without(names, name)[j]
  {
    if names != [] {
      WithoutSpec(names[1..], name);
      var rest := Without(names[1..], name);
      if names[0] != name {
        forall i, j | 0 <= i < j < |[names[0]] + rest| ensures ([names[0]] + rest)[i] != ([names[0]] + rest)[j] {
          if i == 0 {
            assert ([names[0]] + rest)[j] in names[1..];
          }
        }
      }
    }
  }

  /** `caches.match(url)`: the first cache in `names` order holding the URL answers. */
  function FirstMatch(names: seq<string>, caches: map<string, seq<Entry>>, url: string): Option<Response> {
    if names == [] then None
    else if names[0] in caches && Lookup(caches[names[0]], url).Some? then Lookup(caches[names[0]], url)
    else FirstMatch(names[1..], caches, url)
  }


  /** When every cache is named, `caches.match` finds nothing exactly when no cache holds the URL. */
  lemma {:induction false} FirstMatchSpec(names: seq<string>, caches: map<string, seq<Entry>>, url: string)
    requires forall n :: n in caches ==> n in names
    ensures FirstMatch(names, caches, url).None? <==> forall n :: n in caches ==> !HasUrl(caches[n], url)
  {
    FirstMatchNone(names, caches, url);
  }

  lemma {:induction false} FirstMatchNone(names: seq<string>, caches: map<string, seq<Entry>>, url: string)
    ensures FirstMatch(names, caches, url).None? <==> forall n :: n in names && n in caches ==> !HasUrl(caches[n], url)
  {
    if names != [] {
      FirstMatchNone(names[1..], caches, url);
      assert forall n :: n in names <==> n == names[0] || n in names[1..];
    }
  }
}
