# Render-and-cache core of a Vue server-side-rendering front end

This project models, in Dafny, the request path of an Express server that renders a
Vue application to HTML (server/index.js), and the route hooks of its client entry
(src/entry/client.js).

- **Forced HTTPS.** A middleware passes secure requests on unchanged. Every other
  request gets a 302 redirect to `https://<hostname>:<PORT_HTTPS or 3443><url>`.
- **Micro-cache switch.** Every page is cacheable unless `MICRO_CACHE` is exactly `"false"`.
- **Static max-age.** The three static mounts (`/assets`, `/static`, `/sw.js`) get a
  `maxAge` of thirty days only for mounts flagged for caching, in production.
- **Cache parameters.** The page micro-cache is an `lru-cache` holding 100 entries for
  1000 ms. The renderer's component cache holds 1000 entries for fifteen minutes.
  Both are the constants `MicroCacheOptions` and `ComponentCacheOptions`.
- **Render dispatcher.** The dispatcher sets `Content-Type` and `Server` headers. On a
  cacheable request it reads the micro-cache under `req.url`. A truthy hit ends the
  request with the stored value. Otherwise it invokes the renderer. It takes the status
  from the render context's error (200 without one). When the request is cacheable it
  stores the html under `req.url`.
- **Route hooks.** `beforeResolve` keeps the suffix of the matched components that
  starts at the first new, changed or `refetch` component, and collects their `fetch`
  hooks. The global `beforeRouteUpdate` guard runs `fetch` only when both `fetch` and
  `refetch` are present.

JavaScript truthiness is written out. A value that may be `undefined` is an
`Option`. Rendered html is `Option<string>`, and a string is truthy when present and
non-empty.

The dispatcher is a class `Server.App`. Its state is the `lru-cache` object
(`Server.MicroCache`, seen only through `get`/`set`) and a render counter. Its
`Render` method is proved equal, response and new state, to the pure
`Server.Dispatch`. The properties of the dispatcher are lemmas about `Dispatch`
and about `DispatchAll`, a run of requests. The `activated` filter is an imperative
loop (`Client.Activated`) whose local `diffed` flag becomes true and stays true. It is
proved to return the suffix that starts at `Client.FirstDiffering`.

Two behaviours of the code are kept as they are:
- The code caches the html of every cacheable miss, even a failed render (server/index.js:113).
- A cache hit is answered with Express's default status 200, because the code never
  sets a status on that path (server/index.js:104).

## Model

| member | source | states |
|---|---|---|
| `Server.IsProd` | server/index.js:13 | Production mode holds exactly when NODE_ENV is the string "production". It is off when NODE_ENV is unset. |
| `Server.UseMicroCache` | server/index.js:14 | The micro-cache is on exactly when MICRO_CACHE is not the string "false". It is on when MICRO_CACHE is unset. |
| `Server.IsCacheable` | server/index.js:14 | A request is cacheable exactly when MICRO_CACHE is not the string "false". |
| `Server.CacheabilityIgnoresRequest` | server/index.js:91 | Any two requests get the same cacheability answer. "false" disables the cache. An unset variable enables it. |
| `Server.HttpsPort` | server/index.js:27 | The redirect port is PORT_HTTPS when set and non-empty, "3443" otherwise. It is never empty. |
| `Server.EnsureSecure` | server/index.js:25-28 | A request is passed on, unchanged, exactly when it is secure. Every other request is redirected with status 302. |
| `Server.RedirectTarget` | server/index.js:27 | The redirect location splits back into "https://", the hostname, ":", the HTTPS port and the request URL, each verbatim. |
| `Server.StaticMaxAge` | server/index.js:73-76 | Max-age is 2,592,000,000 ms exactly when the mount's cache flag is set and NODE_ENV is "production". Otherwise it is 0. |
| `Server.MountPolicies` | server/index.js:79-81 | The mounts are `/assets`, `/static` and `/sw.js`, in that order. `/sw.js` always has max-age 0. `/assets` and `/static` have thirty days in production and 0 otherwise. |
| `Server.CacheParameters` | server/index.js:85 | The micro-cache holds 100 entries for 1000 ms. The component cache (line 45) holds 1000 entries for fifteen minutes. |
| `Server.MicroCache.constructor` | server/index.js:85 | A new micro-cache keeps its options and starts empty. |
| `Server.MicroCache.Get` | server/index.js:101 | `get` returns the stored value, or undefined for an absent key. It changes no entry. |
| `Server.MicroCache.Set` | server/index.js:113 | `set` stores the value under the key. No other key changes. |
| `Server.ServerInfo` | server/index.js:15-17 | The `Server` header starts with "express/" and the Express version, and ends with the renderer's version. |
| `Server.StatusOf` | server/index.js:110-111 | The status is the error's status when an error is present, and 200 otherwise. |
| `Server.Dispatch` | server/index.js:93-116 | One request: both headers are set. The renderer runs at most once. With no render, the request was a cacheable truthy hit answered from the cache, and the cache is unchanged. No key other than the URL is added. The cache is read exactly when the request is cacheable. |
| `Server.DispatchAll` | server/index.js:93-116 | A run of n requests served one after another makes at most n renders and at most n cache reads. |
| `Server.HeadersOnEveryResponse` | server/index.js:96-97 | Every response, hit or miss, carries `Content-Type: text/html` and the `Server` header. |
| `Server.HitShortCircuits` | server/index.js:100-105 | On a cacheable request with a truthy stored value, the body is that value and the status 200. No render happens and the cache is unchanged. |
| `Server.FalsyEntryRenders` | server/index.js:102 | An undefined or empty stored value is a miss. The renderer is invoked once and its html is the body. |
| `Server.RenderedStatus` | server/index.js:108-111 | Whenever a render happens, the body is the rendered html. The status is the context error's status, or 200 without one. |
| `Server.MissStoresUnderUrl` | server/index.js:113 | A cacheable miss renders once and stores the rendered html under the URL, even after a failure or a non-200 status. No other key changes. |
| `Server.UncacheableBypassesCache` | server/index.js:99-113 | With the cache off, the cache is neither read nor written. The renderer runs exactly once and its html is the body. |
| `Server.RepeatIsServedFromCache` | server/index.js:100-113 | After a cacheable miss that rendered truthy html, a repeat for the same URL returns that html with status 200 and no second render. |
| `Server.DisabledRendersEveryRequest` | server/index.js:91-113 | With MICRO_CACHE="false", a run of n requests makes exactly n renders, repeated URLs included. The cache is never read or written. |
| `Server.EnabledReadsEveryRequest` | server/index.js:99-113 | With the cache on, a run of n requests reads the cache n times. |
| `Server.CachedUrlRunRendersNothing` | server/index.js:100-105 | With the cache on and a truthy value stored under a URL, any run of requests for that URL renders nothing and leaves the cache unchanged. |
| `Server.SameUrlRunRendersOnce` | server/index.js:99-113 | With the cache on, a run of one or more requests for a URL not yet cached renders exactly once, when the render yields truthy html. |
| `Server.App.constructor` | server/index.js:83-91 | The server keeps its environment and its `Server` header value. It starts with an empty micro-cache with the 100-entry, 1000 ms options, and no renders. |
| `Server.App.Render` | server/index.js:93-116 | `render(req, res)`: the response and the new cache, render count and read count are those of `Dispatch` on the old state. |
| `Client.Differs` | src/entry/client.js:35 | The filter's test holds at every index past `prevMatched`. It fails exactly when the previous component at that index is the same one and has no `refetch`. |
| `Client.FirstDifferingFrom` | src/entry/client.js:35 | Returns the least index at or after k where the component is new, differs from the previous one or has `refetch`, or the length of `matched`. |
| `Client.FirstDiffering` | src/entry/client.js:35 | The least index whose component differs from the previous route's or has `refetch`. Every earlier index is unchanged. |
| `Client.Activated` | src/entry/client.js:33-36 | The filter with the sticky `diffed` flag returns exactly the suffix of `matched` that starts at `FirstDiffering`. |
| `Client.SelectedIffDiffersAtOrBefore` | src/entry/client.js:33-36 | Index i is kept exactly when the test holds at i or at some earlier index. So the selection is a suffix. |
| `Client.NothingActivatedIffUnchanged` | src/entry/client.js:35 | Nothing is activated exactly when `matched` equals `prevMatched` on its length, is no longer, and no component has `refetch`. |
| `Client.DeeperComponentsActivated` | src/entry/client.js:35 | Indices at or past `prevMatched.length` are always kept. `activated` has at least `matched.length - prevMatched.length` elements. |
| `Client.Fetches` | src/entry/client.js:38 | `map(c => c.fetch)` has the same length, and element i is component i's fetch. |
| `Client.Present` | src/entry/client.js:38 | `filter(fetch => !!fetch)` is no longer than its input and holds exactly the present hooks. |
| `Client.Hooks` | src/entry/client.js:38 | `hooks` is no longer than `activated`. A hook is in it exactly when some component has it as its fetch. |
| `Client.PresentAppend` | src/entry/client.js:38 | Dropping absent hooks distributes over concatenation. |
| `Client.HooksInOrder` | src/entry/client.js:38 | The hooks of a concatenation are the hooks of the first part followed by those of the second, so order is kept. |
| `Client.HooksOfOne` | src/entry/client.js:38 | A single component contributes its hook exactly when it has one. |
| `Client.HooksLengthIffAllFetch` | src/entry/client.js:38 | `hooks` is as long as `activated` exactly when every activated component has a fetch. |
| `Client.RouteUpdateGuardAsWritten` | src/entry/client.js:12-19 | As written, the guard calls `fetch` exactly when both `fetch` and `refetch` are present. Then `next` is called once, with the error if `fetch` rejects. Otherwise `next` is never called. |
| `Client.AsWrittenLeavesNavigationPending` | src/entry/client.js:13 | For a component without `refetch`, with or without `fetch`, the guard as written makes no call to `next`. |
| `Client.RouteUpdateGuard` | src/entry/client.js:12-19 | The corrected guard calls `fetch` under the same condition. It calls `next` exactly once on every path, proceeding unless `fetch` rejected. |

## Left out

- Timing: the `lru-cache` eviction and expiry (100 entries, 1000 ms; 1000 entries, 15 minutes) are not modelled. The cache is an abstract map whose `get` returns what was last `set`. Only the options are recorded.
- `Server.MicroCache.Get`: does not model that a real `get` misses for an entry older than 1000 ms or evicted by newer keys. Such a miss only turns a hit into a render, which the falsy-entry path already covers.
- `Server.RepeatIsServedFromCache`: holds only within the cache's time window and capacity, which the model does not represent. The same applies to `Server.CachedUrlRunRendersNothing` and `Server.SameUrlRunRendersOnce`.
- `Server.App.Render`: requests are modelled as served one at a time, so the read, the render and the write form one step. In the source the write happens in the asynchronous `renderToString` callback (server/index.js:109-115). So overlapping misses for the same URL each render. `Server.RepeatIsServedFromCache` and `Server.SameUrlRunRendersOnce` hold only for repeats that arrive after the first render's callback has run.
- The renderer is an abstract total function of the URL. `vue-server-renderer`, the bundle and template loading, the manifests and the development-mode renderer swap (`readyPromise`) are not part of this model.
- A throw when the render context carries no `state` is not modelled. The renderer always reports an error field.
- `Server.Dispatch`: a context error whose status is outside 100-999, or not a number, is not modelled. In the source, `res.status(...).end(html)` at server/index.js:111 then throws before any response is sent, and the cache write at line 113 never runs. The model instead answers with that status and stores the html. So `Server.MissStoresUnderUrl` ("whatever the status") and `Server.RenderedStatus` hold in the source only for statuses from 100 to 999.
- The Express app, the HTTP and HTTPS listeners, their ports, certificate loading, `NODE_TLS_REJECT_UNAUTHORIZED` and `process.exit` are transport and process I/O.
- Body parsing, compression, the API middleware and the file serving of `express.static` are library code that is not shown.
- `Date.now()` timing and console logging, including the critical-failure log line, are left out.
- Client: mixin registration, `createApp`, `replaceState`, bus events, `store.dispatch`, the `Promise.all` awaiting of hooks, the router callbacks, DOM mounting and service-worker registration are framework glue and concurrency.

## Findings

| source | as written | input that shows it | evidently intended | confidence | as-written member | corrected member |
|---|---|---|---|---|---|---|
| src/entry/client.js:13 | `if (!fetch \|\| !refetch) return next` returns the callback without calling it, so the route update never proceeds | a route update that reuses a component without `refetch` (for example `/item/1` to `/item/2`), with or without `fetch` | `return next()`: call `next` on the skip path as on the fetch path | not executed; medium (it depends on the router waiting for `next`) | `Client.RouteUpdateGuardAsWritten`, `Client.AsWrittenLeavesNavigationPending` | `Client.RouteUpdateGuard` |
