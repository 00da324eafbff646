/** Request classification of the service worker's fetch listener
    (public/sw.js): which requests are left to the browser and which
    caching strategy answers each of the others. */
module Routing {
  import opened Js

  /** A fetch event's request: `url` is its absolute URL, also parsed into
      the parts the worker reads (`url.protocol` keeps its trailing colon,
      as in "https:"). */
  datatype Request = Request(
    httpMethod: string,
    url: string,
    protocol: string,
    hostname: string,
    pathname: string,
    destination: string,
    mode: string)

  /** The handler a request goes to; `Bypass` means `respondWith` is never called. */
  datatype Route = Bypass | ImageRoute | StaticRoute | ApiRoute | NavigationRoute | DefaultRoute

  /** The image CDN allow-list. */
  const ImageDomains: seq<string> := ["images.unsplash.com", "lh3.googleusercontent.com", "img.youtube.com"]

  /** The alternatives of `/\.(jpg|jpeg|png|gif|webp|avif|svg)$/i`. */
  const ImageExtensions: seq<string> := ["jpg", "jpeg", "png", "gif", "webp", "avif", "svg"]

  /** Non-GET requests, non-http(s) schemes and the bundler's hot-reload
      requests are not intercepted. */
  predicate IsBypassed(req: Request) {
    req.httpMethod != "GET" || !StartsWith(req.protocol, "http") || Includes(req.pathname, "_next/webpack")
  }

  /** The pathname ends in a dot and an image extension, in any ASCII case. */
  predicate HasImageExtension(path: string) {
    exists ext :: ext in ImageExtensions && EndsWith(LowerAscii(path), "." + ext)
  }

  /** `isImageRequest`: image destination, image extension, or an allow-listed
      domain anywhere in the hostname (a substring test, not a suffix test). */
  predicate IsImageRequest(req: Request) {
    req.destination == "image"
    || HasImageExtension(req.pathname)
    || exists d :: d in ImageDomains && Includes(req.hostname, d)
  }

  /** `isStaticAsset`: build output or a script, stylesheet or font file. */
  predicate IsStaticAsset(path: string) {
    StartsWith(path, "/_next/static/") || EndsWith(path, ".js") || EndsWith(path, ".css")
    || EndsWith(path, ".woff2") || EndsWith(path, ".woff")
  }

  /** `isApiRequest` */
  predicate IsApiRequest(path: string) {
    StartsWith(path, "/api/")
  }

  /** `isNavigationRequest` */
  predicate IsNavigationRequest(req: Request) {
    req.mode == "navigate"
  }

  /** The fetch listener's if-chain: the first test that holds picks the handler. */
  function RouteOf(req: Request): (r: Route)
    ensures r == Bypass <==> IsBypassed(req)
    ensures r == ImageRoute <==> !IsBypassed(req) && IsImageRequest(req)
    ensures r == StaticRoute <==> !IsBypassed(req) && !IsImageRequest(req) && IsStaticAsset(req.pathname)
    ensures r == ApiRoute <==>
      !IsBypassed(req) && !IsImageRequest(req) && !IsStaticAsset(req.pathname) && IsApiRequest(req.pathname)
    ensures r == NavigationRoute <==>
      !IsBypassed(req) && !IsImageRequest(req) && !IsStaticAsset(req.pathname) && !IsApiRequest(req.pathname)
      && IsNavigationRequest(req)
    ensures r == DefaultRoute <==>
      !IsBypassed(req) && !IsImageRequest(req) && !IsStaticAsset(req.pathname) && !IsApiRequest(req.pathname)
      && !IsNavigationRequest(req)
  {
    if IsBypassed(req) then Bypass
    else if IsImageRequest(req) then ImageRoute
    else if IsStaticAsset(req.pathname) then StaticRoute
    else if IsApiRequest(req.pathname) then ApiRoute
    else if IsNavigationRequest(req) then NavigationRoute
    else DefaultRoute
  }

  /** A request to an allow-listed CDN is an image even with no extension,
      and even under `/api/`. */
  lemma AllowListedHostIsImage(req: Request)
    requires req.httpMethod == "GET" && req.protocol == "https:"
    requires req.hostname == "images.unsplash.com" && req.pathname == "/api/photo-123"
    ensures RouteOf(req) == ImageRoute
  {
    PlainGetIntercepted(req);
    IncludesAt(req.hostname, ImageDomains[0], 0);
  }

  /** An image extension wins over the API prefix, in any letter case. */
  lemma ApiImageIsImage(req: Request)
    requires req.httpMethod == "GET" && req.protocol == "http:" && req.destination == ""
    requires req.pathname == "/api/Avatar.PNG"
    ensures RouteOf(req) == ImageRoute
  {
    PlainGetIntercepted(req);
    UpperCasePngIsImage(req.pathname);
  }

  /** A GET over http(s) whose path has no underscore is intercepted. */
  lemma PlainGetIntercepted(req: Request)
    requires req.httpMethod == "GET" && StartsWith(req.protocol, "http") && '_' !in req.pathname
    ensures !IsBypassed(req)
  {
    NoInclude(req.pathname, "_next/webpack");
  }

  lemma UpperCasePngIsImage(path: string)
    requires path == "/api/Avatar.PNG"
    ensures HasImageExtension(path)
  {
    var lower := LowerAscii(path);
    assert lower[11] == '.' && lower[12] == 'p' && lower[13] == 'n' && lower[14] == 'g';
    assert lower[11..] == ".png";
    assert EndsWith(lower, "." + ImageExtensions[2]);
  }

  /** Every method other than GET is left to the browser, whatever the URL. */
  lemma NonGetBypassed(req: Request)
    requires req.httpMethod == "POST"
    ensures RouteOf(req) == Bypass
  {
  }

  /** A `text` without the first character of `sub` cannot include it. */
  lemma {:induction false} NoInclude(text: string, sub: string)
    requires |sub| > 0 && sub[0] !in text
    ensures !Includes(text, sub)
    decreases |text|
  {
    if |text| > 0 {
      assert text[0] != sub[0];
      NoInclude(text[1..], sub);
    }
  }
}
