# vue-dev-server middleware: the compile-and-cache pipeline

This project models the request handler that `vueMiddleware` builds in
`vue-dev-server/middleware.js`, with caching turned on. The handler serves
three kinds of paths as JavaScript:

- a single-file component (`*.vue`) is compiled, given inline source maps and
  assembled;
- a script (`*.js`) has its bare imports rewritten;
- a package under `/__modules/` is loaded from the installed dependencies.

Every other path is passed on to the next handler. The results are kept in a
store keyed by path. Beside it sits a record of the source modification time
each entry was built from. Component and script entries are checked against
the file's current modification time. Module entries are trusted for ever.

Modules:

- `JsValues` (`js_values.dfy`): the values the store holds. A value is a
  string or a bundle object. Bundle objects are a class, so `!=` on them is
  reference identity. The module also gives JavaScript truthiness, the loose
  equality `cacheData` uses (a string against an object compares with
  `"[object Object]"`), and the body sent for a value.
- `Routing` (`routing.dfy`): first-match classification of a path, and the
  package name taken from a module path.
- `SourceMaps` (`source_maps.dfy`): the source-map comment put in front of the
  script and of each style. The comment holds a data URL (RFC 2397,
  section 3) with media type `application/json` and a base64 payload. Its
  partner is a reader that takes the payload and the original code back out
  of the decorated code.
- `VueMiddleware` (`middleware.dfy`): the class `Middleware` with fields
  `cache` and `time`. Its methods are `TryCache`, `CacheData`, eviction, and
  the handler with one method per branch. Beside the class are the pure
  functions that specify them: `Get`, `Probe`, `Write`, `CacheLookup`,
  `Produce`. `Consistent` is the invariant the handler keeps: only truthy
  times are recorded, never for a module path, and component paths hold
  bundle objects while the other paths hold strings.
- `Scenarios` (`scenarios.dfy`): sequences of requests proved from the
  handler's contract alone.

The outside world is made of parameters:

- The files are a `Disk` snapshot passed with each request. Each file carries
  its text, its modification time and whether `readFile` accepts it, since
  `stat` can succeed on a file that cannot be read.
- The component compiler (`compileToDescriptor`, `assemble`, the map encoder),
  `transformModuleImports` and `loadPkg` are functions passed in together as
  one `Producers` value. `compileToDescriptor` and `loadPkg` may reject; a
  rejection is `None`. The others are total functions, so they never throw
  (see "Left out"). The source-map round trips also require the encoder to
  produce base64 text.
- The handler also returns the list of outside operations it performed (stat,
  read, compile, rewrite, load). This lets the contract say that a cache hit
  calls no producer.

Points worth knowing about the code as written:

- `tryCache(key, true)` stats the file whether or not the key is cached. A
  stat failure rejects the request even when nothing is cached.
- A key with no recorded time is never stale, because `undefined < mtime` is
  false. A key that was never cached therefore reads as `undefined`.
- A key whose entry the store has evicted keeps its recorded time. Once the
  file is newer than that time, the key reads as `null`, like a stale entry
  (`EvictedScriptRebuilt`).
- The store's weight function multiplies the value itself (`n * 2`), not the
  value's length.

Consequences proved about the code as written:

- `UnchangedScriptStaysStale`: a script whose file was touched, but whose
  rewritten text is unchanged, is not written again. Its newer time is
  therefore not recorded, and the entry stays stale. The next request reads
  and rewrites the file again. This holds for as long as the file's
  rewritten text stays the same and the entry is not evicted; the model
  proves it for two requests in a row.
- `EmptyPackageReloaded`: an empty result is cached but reads as falsy, so it
  is produced again on every request.

## Model

| member | source | states |
|---|---|---|
| `JsValues.SfcResult.constructor` | vue-dev-server/middleware.js:100 | the bundle object carries the assembled code and the source's update time |
| `JsValues.Truthy` | vue-dev-server/middleware.js:108-139 | `!out` of the three branches: `undefined` and `null` are falsy, every bundle object is truthy, a string is truthy exactly when it is not empty |
| `JsValues.IsTruthyTime` | vue-dev-server/middleware.js:87 | `if (updateTime)`: `false`/`undefined` and `0` are falsy, every other time is truthy |
| `JsValues.LooselyEqual` | vue-dev-server/middleware.js:83-85 | `old != data` negated: nothing equals `undefined` or `null`; a stored value equals itself; strings compare by content; bundle objects by identity, whatever their contents; a string against an object compares with `"[object Object]"` |
| `JsValues.Served` | vue-dev-server/middleware.js:115-144 | the body sent is `out.code` for a bundle object and `out` itself for a string |
| `Routing.StripModulesPrefix` | vue-dev-server/middleware.js:136 | on a module path, the prefix followed by the package name is the path; any other path is returned unchanged |
| `Routing.Classify` | vue-dev-server/middleware.js:104-147 | the module branch's package name, put back behind `/__modules/`, gives the request path |
| `Routing.ClassifyOrder` | vue-dev-server/middleware.js:104-147 | first match wins: `.vue`, else `.js` (including `/__modules/x.js`), else the module prefix, else pass on; both directions of each case |
| `Routing.ExtensionsExclusive` | vue-dev-server/middleware.js:104-116 | no path ends with both `.vue` and `.js`, so the first two branches never compete |
| `Routing.EndsWithPastPrefix` | vue-dev-server/middleware.js:104-116 | a prefix with no `.` does not change whether a path ends with `.vue` or `.js` |
| `Routing.ClassifyModulePath` | vue-dev-server/middleware.js:134-136 | `/__modules/<pkg>` is served by the module branch with package name `pkg`, unless `pkg` ends in `.vue` or `.js` |
| `SourceMaps.MapComment` | vue-dev-server/middleware.js:49-53 | the comment built around an encoded map reads back, on its own, as exactly that map when the map is base64 text |
| `SourceMaps.InjectSourceMapToBlock` | vue-dev-server/middleware.js:43-59 | the block keeps its map and every other field; its original code follows the inserted comment unchanged |
| `SourceMaps.InjectSourceMapToScript` | vue-dev-server/middleware.js:61-63 | the script keeps its map and other fields; its code now starts with a `//# ...\n` comment that reads back as the encoded map followed by the original code |
| `SourceMaps.InjectSourceMapsToStyles` | vue-dev-server/middleware.js:65-67 | same length as the styles; element `i` is style `i` with the `css` (`/*# ...*/\n`) comment, in order |
| `SourceMaps.Base64Run` | vue-dev-server/middleware.js:44-51 | the base64 run at the head of a string is base64 and is followed by a non-base64 character or the end |
| `SourceMaps.Base64RunOfPayload` | vue-dev-server/middleware.js:50-51 | a base64 payload followed by the comment's closing text is read back exactly |
| `SourceMaps.ReadDelimitedRoundTrip` | vue-dev-server/middleware.js:50-51 | any opening text, a base64 payload and a closing text that starts outside the base64 alphabet, followed by code, read back as exactly that payload and that code |
| `SourceMaps.ReadInjectedComment` | vue-dev-server/middleware.js:43-59 | reading the comment of an injected block gives back the encoded map and the block's original code, for both forms |
| `SourceMaps.ReadInjectedStyles` | vue-dev-server/middleware.js:65-67 | every injected style reads back to its own encoded map and code |
| `VueMiddleware.FilePath` | vue-dev-server/middleware.js:75 | one leading `/` is removed from the key and nothing else changes |
| `VueMiddleware.Stat` | vue-dev-server/middleware.js:75 | the stat succeeds exactly when the key's file exists, and yields its mtime |
| `VueMiddleware.BundleSfc` | vue-dev-server/middleware.js:92-101 | bundling succeeds exactly when compilation succeeds and yields a script block; the result carries the file's update time unchanged |
| `VueMiddleware.BundleCarriesSourceMaps` | vue-dev-server/middleware.js:94-99 | `assemble` receives the descriptor with only script and styles replaced, each starting with a comment that reads back as its own map followed by its original code |
| `VueMiddleware.Get` | vue-dev-server/middleware.js:71 | a read yields `undefined` exactly for an absent key and the stored value otherwise, never `null` |
| `VueMiddleware.Probe` | vue-dev-server/middleware.js:70-80 | `null` exactly when a time is recorded and is strictly older than the file; otherwise the stored value; a key with no record is never stale |
| `VueMiddleware.Record` | vue-dev-server/middleware.js:87 | a falsy time leaves the record as it was; a truthy one is recorded for the key; no other key's record changes |
| `VueMiddleware.Write` | vue-dev-server/middleware.js:82-90 | it writes exactly when the stored value differs loosely from the data; afterwards the key always holds a value loosely equal to the data; no other key's value or time changes; a write stores the data itself and records a truthy time; when it does not write, both maps stay as they were |
| `VueMiddleware.WriteEqualIsNoOp` | vue-dev-server/middleware.js:82-89 | a value loosely equal to the stored one writes nothing and records no newer time, so every later read is as before |
| `VueMiddleware.WriteNewIsReadBack` | vue-dev-server/middleware.js:85-88 | a different value is written and read back; the time is recorded only when truthy; a timed read against a file no newer than it returns the value |
| `VueMiddleware.WriteKeepsOtherKeys` | vue-dev-server/middleware.js:85-88 | a write changes what no other key reads, timed or not |
| `VueMiddleware.WriteTwiceWritesOnce` | vue-dev-server/middleware.js:82-89 | writing the same value twice in a row writes once and leaves the second call without effect |
| `VueMiddleware.CacheLookup` | vue-dev-server/middleware.js:70-80 | a module path is read without a stat and is never stale; another path is rejected exactly when the stat rejects, and reads `null` exactly when its recorded time is older than the file; otherwise the stored value or `undefined` |
| `VueMiddleware.Produce` | vue-dev-server/middleware.js:108-142 | on a miss: an unreadable component or script rejects the request with a read failure; a script is produced exactly when readable, a component exactly when readable and it bundles, a package exactly when `loadPkg` resolves; the result carries the file's mtime, and a package result carries no time |
| `VueMiddleware.WriteKeepsConsistent` | vue-dev-server/middleware.js:103-147 | each branch's write (a bundle object with a time, a string with a time, a string without one) keeps the handler's invariant |
| `VueMiddleware.Middleware.constructor` | vue-dev-server/middleware.js:23-33 | the middleware starts with an empty store and no recorded times |
| `VueMiddleware.Middleware.TryCache` | vue-dev-server/middleware.js:70-80 | untimed: exactly the stored value (absent: `undefined`), time not consulted, nothing changed; timed: rejected when the stat rejects, `null` exactly when the recorded time is older than the file |
| `VueMiddleware.Middleware.CacheData` | vue-dev-server/middleware.js:82-90 | the new store, times and return value are those of `Write` on the old ones |
| `VueMiddleware.Middleware.Evict` | vue-dev-server/middleware.js:29-32 | eviction drops one entry from the store, leaves its recorded time behind, and keeps the invariant |
| `VueMiddleware.Middleware.Handle` | vue-dev-server/middleware.js:103-148 | pass-on paths change nothing and call `next`; a truthy hit is served as stored with only the stat; a miss runs the branch's producer and stores and serves its result; a rejection changes nothing; a served body is what the store now holds; module paths never get a time |
| `VueMiddleware.Middleware.ServeSfc` | vue-dev-server/middleware.js:104-115 | the `.vue` branch as above; a compiled and served component is stored as a freshly made object |
| `VueMiddleware.Middleware.ServeScript` | vue-dev-server/middleware.js:116-133 | the `.js` branch as above, storing the rewritten text with the file's time |
| `VueMiddleware.Middleware.ServeModule` | vue-dev-server/middleware.js:134-144 | the module branch as above: untimed lookup, the loaded text stored with no time, the path never timed |
| `Scenarios.ComponentServedFromCache` | vue-dev-server/middleware.js:104-115 | an uncached component is stat'ed, read and compiled once; asked again with the file untouched, it is served the same body after only the stat |
| `Scenarios.EditedComponentRecompiled` | vue-dev-server/middleware.js:73-76 | a component whose file is newer than its record is compiled again, and the new object and time replace the old ones |
| `Scenarios.UnreadableComponentFails` | vue-dev-server/readSource.js:15 | a stale component whose file passes the stat but cannot be read fails the request after the stat and the read, and changes neither the store nor the times |
| `Scenarios.EvictedScriptRebuilt` | vue-dev-server/middleware.js:70-80 | a script evicted from the store keeps its recorded time, reads as `null` once the file is newer, and is read, rewritten and stored again with the file's time |
| `Scenarios.ModuleLoadedOnce` | vue-dev-server/middleware.js:134-144 | a non-empty package is loaded once; the second request calls no producer, whatever the files have become |
| `Scenarios.EmptyPackageReloaded` | vue-dev-server/middleware.js:138-142 | an empty package body is falsy and is loaded again on every request |
| `Scenarios.RebuildUnchangedScript` | vue-dev-server/middleware.js:118-131 | a stale script whose rewritten text equals the cached one is served, but neither the store nor the times change |
| `Scenarios.UnchangedRebuildWritesNothing` | vue-dev-server/middleware.js:85-89 | the same step, stated on the maps before and after the request |
| `Scenarios.UnchangedScriptStaysStale` | vue-dev-server/middleware.js:118-131 | consequently the next request for that script, with the files and the stored text unchanged, reads and rewrites the file again |

## Left out

- File I/O: `readSource` (vue-dev-server/readSource.js) and `stat` are a `Disk` snapshot. A request sees one snapshot, so a file changing between the stat and the read is not modelled. A file `readFile` rejects is modelled by its `readable` flag; other stat/read disagreements (a file deleted in between) are not. The working directory and `path.resolve` are left out; only the leading-slash strip (`FilePath`) is kept.
- `parseUrl(req).pathname` and `req.path` are taken to be the same string, the request path.
- The LRU library (`lru-cache`, its `max` and weight function, recency order) is not part of this model. `get` and `peek` are the same map read here. Eviction is `Middleware.Evict`, the removal of any one key, which the caller chooses.
- `Middleware.Evict`: does not say which key the store evicts or when, because the library's policy is not part of this model.
- The compiler (`compileToDescriptor`, `assemble`), `transformModuleImports` and `loadPkg` are uninterpreted functions. `assemble` is taken to yield only the code of its result.
- `transformModuleImports`, `assemble` and the source-map encoder are total functions in the model, so the model does not cover any of them throwing. Only `compileToDescriptor` and `loadPkg` can reject.
- The source-map encoding `Base64.toBase64(JSON.stringify(block.map))` is an opaque function. `Base64` is not imported in middleware.js; whether it exists at run time is outside the model. Round trips assume the encoder outputs base64 text.
- The `default` case of `injectSourceMapToBlock`, which prefixes `undefined`, is left out: both callers pass `js` or `css`.
- HTTP plumbing (`send`, `setHeader`, `end`, `next`) becomes a `Response` value with the body and content type.
- async/await interleaving is left out: requests are handled one at a time, so two concurrent misses for one key are not modelled.
- The `cache: false` option is left out. `tryCache` calls `cache.get` on an undefined store in that case, so there is no bypass path in the code.
- A component path holding a string, or a script or module path holding an object, is excluded by the handler's invariant. The source would then send `undefined` or fail, and the model does not say which.
