/**
  The request-serving pipeline of server/index.js: the forced-HTTPS gate, the
  micro-cache switch, the static max-age policy, the cache parameters and the
  page-render dispatcher.

  JavaScript truthiness is written out: a value that may be `undefined` is an
  `Option`, and a string is truthy exactly when it is present and non-empty.
 */
module Server {
  import opened Wrappers

  /** The environment variables the server reads from `process.env`. */
  datatype Env = Env(
    nodeEnv: Option<string>,     // NODE_ENV
    microCache: Option<string>,  // MICRO_CACHE
    portHttps: Option<string>)   // PORT_HTTPS

  /** The fields of an Express request that this core looks at. */
  datatype Request = Request(secure: bool, hostname: string, url: string)

  /** JavaScript truthiness of a possibly undefined string. */
  predicate Truthy(s: Option<string>) {
    s.Some? && s.value != ""
  }

  // -----------------------------------------------------------------------
  // Configuration flags

  /** `isProd`: NODE_ENV is exactly "production". */
  predicate IsProd(env: Env): (r: bool)
    ensures r <==> env.nodeEnv == Some("production")
    ensures env.nodeEnv == None ==> !r
  {
    match env.nodeEnv
    case Some(v) => v == "production"
    case None => false
  }

  /** `useMicroCache`: the page cache is on unless MICRO_CACHE is exactly "false". */
  predicate UseMicroCache(env: Env): (r: bool)
    ensures r <==> env.microCache != Some("false")
    ensures env.microCache == None ==> r
  {
    match env.microCache
    case Some(v) => v != "false"
    case None => true
  }

  /** `isCacheable(req)`: every page is cacheable while the switch is on. */
  function IsCacheable(env: Env, req: Request): (r: bool)
    ensures r <==> env.microCache != Some("false")
  {
    UseMicroCache(env)
  }

  /** The request plays no part in the cacheability decision. */
  lemma CacheabilityIgnoresRequest(env: Env, a: Request, b: Request)
    ensures IsCacheable(env, a) == IsCacheable(env, b)
    ensures env.microCache == Some("false") ==> !IsCacheable(env, a)
    ensures env.microCache == None ==> IsCacheable(env, a)
  {
  }

  // -----------------------------------------------------------------------
  // Forced HTTPS

  /** What the `app.all('*')` middleware does with a request. */
  datatype Gate =
    | Next(req: Request)                      // `next()`: on to the other handlers
    | Redirect(status: int, location: string) // `res.redirect(location)`

  /** Express's default status for `res.redirect` without an explicit one. */
  const RedirectStatus := 302

  const DefaultHttpsPort := "3443"

  /** `process.env.PORT_HTTPS || 3443`, as it appears in the template string. */
  function HttpsPort(env: Env): (port: string)
    ensures port != ""
    ensures Truthy(env.portHttps) ==> port == env.portHttps.value
    ensures !Truthy(env.portHttps) ==> port == "3443"
  {
    if Truthy(env.portHttps) then env.portHttps.value else DefaultHttpsPort
  }

  /** The secure-redirect middleware. */
  function EnsureSecure(env: Env, req: Request): (g: Gate)
    ensures g.Next? <==> req.secure
    ensures g.Next? ==> g.req == req
    ensures g.Redirect? ==> g.status == 302
  {
    if req.secure then Next(req)
    else Redirect(RedirectStatus, "https://" + req.hostname + ":" + HttpsPort(env) + req.url)
  }

  /** The redirect target splits back into the scheme, the request's host,
      the HTTPS port and the request's path and query, each verbatim. */
  lemma RedirectTarget(env: Env, req: Request)
    requires !req.secure
    ensures var loc := EnsureSecure(env, req).location;
      var h, p := |req.hostname|, |HttpsPort(env)|;
      && |loc| == 8 + h + 1 + p + |req.url|
      && loc[..8] == "https://"
      && loc[8..8 + h] == req.hostname
      && loc[8 + h] == ':'
      && loc[8 + h + 1..8 + h + 1 + p] == HttpsPort(env)
      && loc[8 + h + 1 + p..] == req.url
  {
  }

  // -----------------------------------------------------------------------
  // Static assets

  /** Thirty days in milliseconds. */
  const ThirtyDaysMs: nat := 1000 * 60 * 60 * 24 * 30

  /** The `maxAge` option of `serve(path, cache)`. */
  function StaticMaxAge(cache: bool, env: Env): (ms: nat)
    ensures ms == 2_592_000_000 <==> cache && IsProd(env)
    ensures ms != 2_592_000_000 ==> ms == 0
  {
    if cache && IsProd(env) then ThirtyDaysMs else 0
  }

  /** One `app.use(path, serve(dir, cache))` mount; an omitted `cache` is false. */
  datatype Mount = Mount(path: string, dir: string, cache: bool)

  const Mounts: seq<Mount> := [
    Mount("/assets", "../dist/assets", true),
    Mount("/static", "../static", true),
    Mount("/sw.js", "../dist/sw.js", false)
  ]

  /** The service worker is never cached by the browser; the other two mounts
      are cached for thirty days exactly in production. */
  lemma MountPolicies(env: Env)
    ensures Mounts[0].path == "/assets" && Mounts[1].path == "/static"
    ensures Mounts[2].path == "/sw.js" && StaticMaxAge(Mounts[2].cache, env) == 0
    ensures forall i :: 0 <= i < 2 ==>
      StaticMaxAge(Mounts[i].cache, env) == if IsProd(env) then 2_592_000_000 else 0
  {
  }

  // -----------------------------------------------------------------------
  // The micro-cache

  /** The options an `LRU({ max, maxAge })` is built with. */
  datatype LruOptions = LruOptions(max: nat, maxAgeMs: nat)

  /** The page-level micro-cache: 100 entries, one second. */
  const MicroCacheOptions := LruOptions(100, 1000)

  /** The renderer's component cache: 1000 entries, fifteen minutes. */
  const ComponentCacheOptions := LruOptions(1000, 1000 * 60 * 15)

  /** The micro-cache holds 100 pages for one second; the component cache
      holds 1000 components for fifteen minutes. */
  lemma CacheParameters()
    ensures MicroCacheOptions.max == 100 && MicroCacheOptions.maxAgeMs == 1000
    ensures ComponentCacheOptions.max == 1000 && ComponentCacheOptions.maxAgeMs == 15 * 60 * 1000
  {
  }

  /** Rendered HTML as the renderer's callback receives it; `None` is `undefined`. */
  type Html = Option<string>

  /** What `get(key)` answers from a map of stored entries. */
  function Lookup(entries: map<string, Html>, key: string): (v: Html)
    ensures key in entries ==> v == entries[key]
    ensures key !in entries ==> v == None
  {
    if key in entries then entries[key] else None
  }

  /** The `lru-cache` instance seen only through `get` and `set`. */
  class MicroCache {
    const options: LruOptions
    var entries: map<string, Html>
    /** How many times `get` has been called. */
    var gets: nat

    constructor (options: LruOptions)
      ensures this.options == options && entries == map[] && gets == 0
    {
      this.options := options;
      entries := map[];
      gets := 0;
    }

    method Get(key: string) returns (v: Html)
      modifies this`gets
      ensures v == Lookup(entries, key)
      ensures entries == old(entries) && gets == old(gets) + 1
    {
      gets := gets + 1;
      v := Lookup(entries, key);
    }

    method Set(key: string, v: Html)
      modifies this`entries
      ensures entries == old(entries)[key := v] && gets == old(gets)
    {
      entries := entries[key := v];
    }
  }

  // -----------------------------------------------------------------------
  // The renderer and the response

  /** The structured error the application leaves in `context.state.context`. */
  datatype ErrorInfo = ErrorInfo(status: int)

  /** What `renderToString`'s callback sees: the `failure` argument (its message),
      the `html` argument, and the error found in the render context afterwards. */
  datatype RenderOutcome = RenderOutcome(failure: Option<string>, html: Html, error: Option<ErrorInfo>)

  /** The bundle renderer, abstracted to a total function of the request URL. */
  type Renderer = string -> RenderOutcome

  datatype Header = Header(name: string, value: string)

  datatype Response = Response(status: int, headers: seq<Header>, body: Html)

  /** The `Server` header value, built from the two package versions. */
  function ServerInfo(expressVersion: string, rendererVersion: string): (info: string)
    ensures |info| == 8 + |expressVersion| + 21 + |rendererVersion|
    ensures info[..8] == "express/" && info[8..8 + |expressVersion|] == expressVersion
    ensures info[8 + |expressVersion|..8 + |expressVersion| + 21] == " vue-server-renderer/"
    ensures info[|info| - |rendererVersion|..] == rendererVersion
  {
    "express/" + expressVersion + " " + "vue-server-renderer/" + rendererVersion
  }

  /** The two headers set before anything else is decided. */
  function RenderHeaders(serverInfo: string): seq<Header> {
    [Header("Content-Type", "text/html"), Header("Server", serverInfo)]
  }

  /** `error ? error.status : 200`. */
  function StatusOf(error: Option<ErrorInfo>): (status: int)
    ensures error.Some? ==> status == error.value.status
    ensures error.None? ==> status == 200
  {
    match error
    case Some(e) => e.status
    case None => 200
  }

  // -----------------------------------------------------------------------
  // The dispatcher as a function of its state

  /** The dispatcher's observable state: the micro-cache's entries, how many
      renders were invoked and how many cache reads were made. */
  datatype ServerState = ServerState(cache: map<string, Html>, renders: nat, lookups: nat)

  datatype Step = Step(state: ServerState, response: Response)

  /** One call of `render(req, res)`. */
  function Dispatch(s: ServerState, env: Env, serverInfo: string, req: Request, renderer: Renderer): (r: Step)
    ensures r.response.headers == RenderHeaders(serverInfo)
    ensures r.state.renders == s.renders || r.state.renders == s.renders + 1
    ensures r.state.renders == s.renders ==>
      && IsCacheable(env, req) && Truthy(Lookup(s.cache, req.url))
      && r.state.cache == s.cache && r.response.body == Lookup(s.cache, req.url)
    ensures r.state.cache.Keys <= s.cache.Keys + {req.url}
    ensures r.state.lookups == s.lookups + (if IsCacheable(env, req) then 1 else 0)
  {
    var headers := RenderHeaders(serverInfo);
    if IsCacheable(env, req) && Truthy(Lookup(s.cache, req.url)) then
      Step(s.(lookups := s.lookups + 1), Response(200, headers, Lookup(s.cache, req.url)))
    else
      var out := renderer(req.url);
      var cacheable := IsCacheable(env, req);
      Step(ServerState(
             if cacheable then s.cache[req.url := out.html] else s.cache,
             s.renders + 1,
             if cacheable then s.lookups + 1 else s.lookups),
           Response(StatusOf(out.error), headers, out.html))
  }

  /** A run of requests served one after another. */
  function DispatchAll(s: ServerState, env: Env, serverInfo: string, reqs: seq<Request>, renderer: Renderer): (t: ServerState)
    ensures s.renders <= t.renders <= s.renders + |reqs|
    ensures s.lookups <= t.lookups <= s.lookups + |reqs|
    decreases |reqs|
  {
    if reqs == [] then s
    else DispatchAll(Dispatch(s, env, serverInfo, reqs[0], renderer).state, env, serverInfo, reqs[1..], renderer)
  }

  /** Every response carries `Content-Type: text/html` and the `Server` header,
      hit or miss. */
  lemma HeadersOnEveryResponse(s: ServerState, env: Env, info: string, req: Request, renderer: Renderer)
    ensures var hs := Dispatch(s, env, info, req, renderer).response.headers;
      Header("Content-Type", "text/html") in hs && Header("Server", info) in hs
  {
  }

  /** A truthy cache hit is answered with the stored value and status 200; the
      renderer is not invoked and the cache is not written. */
  lemma HitShortCircuits(s: ServerState, env: Env, info: string, req: Request, renderer: Renderer)
    requires IsCacheable(env, req) && req.url in s.cache && Truthy(s.cache[req.url])
    ensures var st := Dispatch(s, env, info, req, renderer);
      && st.response.body == s.cache[req.url]
      && st.response.status == 200
      && st.state.renders == s.renders
      && st.state.cache == s.cache
  {
  }

  /** A stored value that is falsy (undefined or empty) counts as a miss. */
  lemma FalsyEntryRenders(s: ServerState, env: Env, info: string, req: Request, renderer: Renderer)
    requires IsCacheable(env, req) && req.url in s.cache && !Truthy(s.cache[req.url])
    ensures var st := Dispatch(s, env, info, req, renderer);
      st.state.renders == s.renders + 1 && st.response.body == renderer(req.url).html
  {
  }

  /** After a render the status is the context error's status, or 200. */
  lemma RenderedStatus(s: ServerState, env: Env, info: string, req: Request, renderer: Renderer)
    ensures var st := Dispatch(s, env, info, req, renderer);
      st.state.renders == s.renders + 1 ==>
        && st.response.body == renderer(req.url).html
        && (renderer(req.url).error.Some? ==> st.response.status == renderer(req.url).error.value.status)
        && (renderer(req.url).error.None? ==> st.response.status == 200)
  {
  }

  /** A cacheable miss stores the rendered html under the URL, whether or not the
      render failed and whatever the status; no other key changes. */
  lemma MissStoresUnderUrl(s: ServerState, env: Env, info: string, req: Request, renderer: Renderer)
    requires IsCacheable(env, req) && !Truthy(Lookup(s.cache, req.url))
    ensures var st := Dispatch(s, env, info, req, renderer);
      && st.state.renders == s.renders + 1
      && req.url in st.state.cache && st.state.cache[req.url] == renderer(req.url).html
      && st.state.cache.Keys == s.cache.Keys + {req.url}
      && forall k :: k in s.cache && k != req.url ==> st.state.cache[k] == s.cache[k]
  {
  }

  /** With the micro-cache off the cache is neither read nor written, and the
      renderer is invoked exactly once. */
  lemma UncacheableBypassesCache(s: ServerState, env: Env, info: string, req: Request, renderer: Renderer)
    requires !IsCacheable(env, req)
    ensures var st := Dispatch(s, env, info, req, renderer);
      && st.state.cache == s.cache
      && st.state.lookups == s.lookups
      && st.state.renders == s.renders + 1
      && st.response.body == renderer(req.url).html
  {
  }

  /** A repeat of a request whose render produced truthy html is served from
      the cache, byte for byte, whatever the renderer would now produce. */
  lemma RepeatIsServedFromCache(s: ServerState, env: Env, info: string, first: Request, again: Request,
                                renderer: Renderer, later: Renderer)
    requires IsCacheable(env, first) && again.url == first.url
    requires !Truthy(Lookup(s.cache, first.url)) && Truthy(renderer(first.url).html)
    ensures var s1 := Dispatch(s, env, info, first, renderer).state;
      var st := Dispatch(s1, env, info, again, later);
      && st.response.body == renderer(first.url).html
      && st.response.status == 200
      && st.state.renders == s.renders + 1
  {
    CacheabilityIgnoresRequest(env, first, again);
  }

  /** With MICRO_CACHE=false every request of a run is rendered, repeated URLs
      included, and the cache is never read or written. */
  lemma {:induction false} DisabledRendersEveryRequest(s: ServerState, env: Env, info: string,
                                                       reqs: seq<Request>, renderer: Renderer)
    requires env.microCache == Some("false")
    ensures var t := DispatchAll(s, env, info, reqs, renderer);
      t.renders == s.renders + |reqs| && t.cache == s.cache && t.lookups == s.lookups
    decreases |reqs|
  {
    if reqs != [] {
      var s1 := Dispatch(s, env, info, reqs[0], renderer).state;
      UncacheableBypassesCache(s, env, info, reqs[0], renderer);
      DisabledRendersEveryRequest(s1, env, info, reqs[1..], renderer);
    }
  }

  /** With the micro-cache on every request of a run reads the cache once. */
  lemma {:induction false} EnabledReadsEveryRequest(s: ServerState, env: Env, info: string,
                                                    reqs: seq<Request>, renderer: Renderer)
    requires env.microCache != Some("false")
    ensures DispatchAll(s, env, info, reqs, renderer).lookups == s.lookups + |reqs|
    decreases |reqs|
  {
    if reqs != [] {
      var s1 := Dispatch(s, env, info, reqs[0], renderer).state;
      EnabledReadsEveryRequest(s1, env, info, reqs[1..], renderer);
    }
  }

  /** Once a URL holds a truthy value, a run of requests for that URL renders
      nothing and leaves the cache as it was. */
  lemma {:induction false} CachedUrlRunRendersNothing(s: ServerState, env: Env, info: string, url: string,
                                                      reqs: seq<Request>, renderer: Renderer)
    requires env.microCache != Some("false") && Truthy(Lookup(s.cache, url))
    requires forall i :: 0 <= i < |reqs| ==> reqs[i].url == url
    ensures var t := DispatchAll(s, env, info, reqs, renderer);
      t.renders == s.renders && t.cache == s.cache
    decreases |reqs|
  {
    if reqs != [] {
      var s1 := Dispatch(s, env, info, reqs[0], renderer).state;
      assert s1.cache == s.cache && s1.renders == s.renders;
      CachedUrlRunRendersNothing(s1, env, info, url, reqs[1..], renderer);
    }
  }

  /** A run of n >= 1 requests for one URL not yet cached, whose render yields
      truthy html, renders exactly once: the first request renders and stores,
      every later one is a hit. */
  lemma {:induction false} SameUrlRunRendersOnce(s: ServerState, env: Env, info: string, url: string,
                                                 reqs: seq<Request>, renderer: Renderer)
    requires env.microCache != Some("false") && |reqs| >= 1
    requires forall i :: 0 <= i < |reqs| ==> reqs[i].url == url
    requires !Truthy(Lookup(s.cache, url)) && Truthy(renderer(url).html)
    ensures DispatchAll(s, env, info, reqs, renderer).renders == s.renders + 1
  {
    var s1 := Dispatch(s, env, info, reqs[0], renderer).state;
    assert s1.renders == s.renders + 1;
    assert Lookup(s1.cache, url) == renderer(url).html;
    CachedUrlRunRendersNothing(s1, env, info, url, reqs[1..], renderer);
  }

  // -----------------------------------------------------------------------
  // The dispatcher as the server holds it

  /** The server process: its configuration, the shared micro-cache and the
      number of renders it has invoked. */
  class App {
    const env: Env
    const serverInfo: string
    const microCache: MicroCache
    var renders: nat

    /** The state the dispatcher's specification speaks of. */
    function State(): ServerState
      reads this, microCache
    {
      ServerState(microCache.entries, renders, microCache.gets)
    }

    constructor (env: Env, expressVersion: string, rendererVersion: string)
      ensures this.env == env && serverInfo == ServerInfo(expressVersion, rendererVersion)
      ensures fresh(microCache) && microCache.options == MicroCacheOptions
      ensures State() == ServerState(map[], 0, 0)
    {
      this.env := env;
      serverInfo := ServerInfo(expressVersion, rendererVersion);
      microCache := new MicroCache(MicroCacheOptions);
      renders := 0;
    }

    /** `render(req, res)`: set the headers, answer a truthy cache hit
        directly, otherwise render, derive the status and store the html. */
    method Render(req: Request, renderer: Renderer) returns (res: Response)
      modifies this, microCache
      ensures res == Dispatch(old(State()), env, serverInfo, req, renderer).response
      ensures State() == Dispatch(old(State()), env, serverInfo, req, renderer).state
    {
      var headers := [Header("Content-Type", "text/html")];
      headers := headers + [Header("Server", serverInfo)];

      var cacheable := IsCacheable(env, req);
      if cacheable {
        var hit := microCache.Get(req.url);
        if Truthy(hit) {
          res := Response(200, headers, hit);
          return;
        }
      }

      var outcome := renderer(req.url);
      renders := renders + 1;
      res := Response(StatusOf(outcome.error), headers, outcome.html);
      if cacheable {
        microCache.Set(req.url, outcome.html);
      }
    }
  }
}
