/**
 * The middleware built by `vueMiddleware` with caching enabled: the cache
 * store and the freshness record (`cache`, `time`), the freshness check
 * (`tryCache`), the guarded write (`cacheData`), the bundling of a
 * single-file component (`bundleSFC`) and the request handler.
 *
 * File system reads are a `Disk` snapshot passed with each request; the
 * compiler, the import rewriter and the package loader are functions passed
 * in as one `Producers` value.
 */
module VueMiddleware {
  import opened Wrappers
  import opened JsValues
  import opened Routing
  import opened SourceMaps

  // ---------------------------------------------------------------------
  // The world outside the middleware
  // ---------------------------------------------------------------------

  /**
   * A source file: its text, its modification time in milliseconds, and
   * whether `readFile` accepts it (`stat` may succeed on a file that cannot
   * be read).
   */
  datatype File = File(source: string, mtime: int, readable: bool)

  /** The files under the working directory, by path relative to it. */
  type Disk = map<string, File>

  /** `key.replace(/^\//, '')`: the path relative to the working directory. */
  function FilePath(key: string): (p: string)
    ensures |key| > 0 && key[0] == '/' ==> "/" + p == key
    ensures !(|key| > 0 && key[0] == '/') ==> p == key
  {
    if |key| > 0 && key[0] == '/' then key[1..] else key
  }

  /** `stat(...).mtime.getTime()`, or None when `stat` rejects. */
  function Stat(disk: Disk, key: string): (m: Option<int>)
    ensures m.Some? <==> FilePath(key) in disk
    ensures m.Some? ==> m.value == disk[FilePath(key)].mtime
  {
    var p := FilePath(key);
    if p in disk then Some(disk[p].mtime) else None
  }

  /** The descriptor `compileToDescriptor` returns: a script block (possibly absent), styles, other fields. */
  datatype Descriptor = Descriptor(script: Option<Block>, styles: seq<Block>, others: map<string, string>)

  /**
   * The component compiler: `compileToDescriptor` (None when it throws),
   * `assemble` (the code of its result) and the map encoder.
   */
  datatype SfcCompiler = SfcCompiler(
    compile: (string, string) -> Option<Descriptor>,
    assemble: (string, Descriptor) -> string,
    encodeMap: string -> string)

  /** The producers a request may call on a miss: the component compiler, `transformModuleImports`, `loadPkg` (None when it rejects). */
  datatype Producers = Producers(sfc: SfcCompiler, transform: string -> string, loadPkg: string -> Option<string>)

  /** Why a request is rejected. */
  datatype Error =
    | StatFailed(path: string)
    | ReadFailed(path: string)
    | CompileFailed(path: string)
    | MissingScript(path: string)
    | PackageNotFound(pkg: string)

  /** What the handler does with the response. */
  datatype Response = Send(body: string, contentType: string) | Next | Failed(error: Error)

  const JavaScript: string := "application/javascript"

  /** The outside operations a request performs, in order. */
  datatype Effect =
    | StatFile(path: string)
    | ReadSource(path: string)
    | Compile(path: string)
    | RewriteImports(path: string)
    | LoadPackage(pkg: string)

  // ---------------------------------------------------------------------
  // Bundling a single-file component
  // ---------------------------------------------------------------------

  /** The code of the assembled component and the modification time of its source. */
  datatype Bundle = Bundle(code: string, updateTime: int)

  /**
   * `bundleSFC`: compile, put source maps in front of the script and of each
   * style, assemble. A missing script block makes reading its map throw.
   */
  function BundleSfc(filepath: string, file: File, sfc: SfcCompiler): (r: Result<Bundle, Error>)
    ensures r.Ok? <==> sfc.compile(filepath, file.source).Some? && sfc.compile(filepath, file.source).value.script.Some?
    ensures r.Ok? ==> r.value.updateTime == file.mtime
  {
    match sfc.compile(filepath, file.source)
    case None => Err(CompileFailed(filepath))
    case Some(d) =>
      if d.script.None? then Err(MissingScript(filepath))
      else
        var decorated := d.(script := Some(InjectSourceMapToScript(d.script.value, sfc.encodeMap)),
                            styles := InjectSourceMapsToStyles(d.styles, sfc.encodeMap));
        Ok(Bundle(sfc.assemble(filepath, decorated), file.mtime))
  }

  /**
   * What is handed to `assemble`: the descriptor with every field copied
   * except the script and the styles, each of which now starts with a
   * comment that reads back as its own encoded map followed by its
   * original code.
   */
  lemma {:induction false} BundleCarriesSourceMaps(filepath: string, file: File, sfc: SfcCompiler)
    requires BundleSfc(filepath, file, sfc).Ok?
    requires forall m :: IsBase64(sfc.encodeMap(m))
    ensures var d := sfc.compile(filepath, file.source).value;
      var styles := InjectSourceMapsToStyles(d.styles, sfc.encodeMap);
      && BundleSfc(filepath, file, sfc).value.code
         == sfc.assemble(filepath, d.(script := Some(InjectSourceMapToScript(d.script.value, sfc.encodeMap)), styles := styles))
      && ReadSourceMapComment(InjectSourceMapToScript(d.script.value, sfc.encodeMap).code, Js)
         == Some((sfc.encodeMap(d.script.value.sourceMap), d.script.value.code))
      && |styles| == |d.styles|
      && (forall i :: 0 <= i < |styles| ==>
            ReadSourceMapComment(styles[i].code, Css) == Some((sfc.encodeMap(d.styles[i].sourceMap), d.styles[i].code)))
  {
    var d := sfc.compile(filepath, file.source).value;
    ReadInjectedStyles(d.styles, sfc.encodeMap);
  }

  // ---------------------------------------------------------------------
  // The cache as values
  // ---------------------------------------------------------------------

  /** `cache.get(key)` and `cache.peek(key)`: never `null`. */
  function Get(cache: map<string, Value>, key: string): (r: Lookup)
    ensures r != Null
    ensures r == Undefined <==> key !in cache
    ensures r.Hit? ==> r.value == cache[key]
  {
    if key in cache then Hit(cache[key]) else Undefined
  }

  /** How a read treats the recorded time: trusted, or checked against the file's current mtime. */
  datatype Freshness = Trusted | Against(mtime: int)

  /**
   * What `tryCache` returns once the file has been stat'ed: `null` exactly
   * when a time is recorded and it is older than the file; otherwise the
   * stored value. A key without a record is compared as `undefined < mtime`,
   * which is false, so it is never stale.
   */
  function Probe(cache: map<string, Value>, time: map<string, int>, key: string, f: Freshness): (r: Lookup)
    ensures r == Null <==> f.Against? && key in time && time[key] < f.mtime
    ensures r != Null ==> r == Get(cache, key)
    ensures key !in time ==> r == Get(cache, key)
  {
    if f.Against? && key in time && time[key] < f.mtime then Null else Get(cache, key)
  }

  /** The state `cacheData` leaves and whether it wrote. */
  datatype Written = Written(wrote: bool, cache: map<string, Value>, time: map<string, int>)

  /** `if (updateTime) time[key] = updateTime`: a falsy time records nothing, and no other key's record changes. */
  function Record(time: map<string, int>, key: string, u: UpdateTime): (r: map<string, int>)
    ensures !IsTruthyTime(u) ==> r == time
    ensures IsTruthyTime(u) ==> key in r && r[key] == u.ms && r[key] != 0
    ensures r - {key} == time - {key}
  {
    if IsTruthyTime(u) then time[key := u.ms] else time
  }

  /**
   * `cacheData(key, data, updateTime)` on the two maps. It writes exactly
   * when the stored value differs loosely from `data`; afterwards the key
   * always holds a value loosely equal to `data`, and no other key changes.
   */
  function Write(cache: map<string, Value>, time: map<string, int>, key: string, data: Value, u: UpdateTime): (r: Written)
    ensures r.wrote <==> !LooselyEqual(Get(cache, key), data)
    ensures key in r.cache && LooselyEqual(Hit(r.cache[key]), data)
    ensures r.cache - {key} == cache - {key} && r.time - {key} == time - {key}
    ensures r.wrote ==> r.cache[key] == data && r.time == Record(time, key, u)
    ensures !r.wrote ==> r.cache == cache && r.time == time
  {
    if !LooselyEqual(Get(cache, key), data) then Written(true, cache[key := data], Record(time, key, u))
    else Written(false, cache, time)
  }

  /** A value equal to the stored one writes nothing: not the value, and not a newer time. */
  lemma WriteEqualIsNoOp(cache: map<string, Value>, time: map<string, int>, key: string, data: Value, u: UpdateTime)
    requires LooselyEqual(Get(cache, key), data)
    ensures Write(cache, time, key, data, u) == Written(false, cache, time)
    ensures forall f :: Probe(cache, time, key, f) == Probe(Write(cache, time, key, data, u).cache, Write(cache, time, key, data, u).time, key, f)
  {
  }

  /**
   * A different value is stored and read back by an untimed read; its time
   * is recorded only when truthy, and a timed read against a file no newer
   * than that time returns it.
   */
  lemma WriteNewIsReadBack(cache: map<string, Value>, time: map<string, int>, key: string, data: Value, u: UpdateTime, mtime: int)
    requires !LooselyEqual(Get(cache, key), data)
    ensures var w := Write(cache, time, key, data, u);
      && w.wrote
      && Probe(w.cache, w.time, key, Trusted) == Hit(data)
      && (IsTruthyTime(u) ==> w.time[key] == u.ms)
      && (!IsTruthyTime(u) ==> w.time == time)
      && (IsTruthyTime(u) && mtime <= u.ms ==> Probe(w.cache, w.time, key, Against(mtime)) == Hit(data))
  {
  }

  /** A write changes what no other key reads. */
  lemma WriteKeepsOtherKeys(cache: map<string, Value>, time: map<string, int>, key: string, data: Value, u: UpdateTime, other: string, f: Freshness)
    requires other != key
    ensures var w := Write(cache, time, key, data, u);
      Probe(w.cache, w.time, other, f) == Probe(cache, time, other, f)
  {
  }

  /** Writing the same value twice writes once. */
  lemma WriteTwiceWritesOnce(cache: map<string, Value>, time: map<string, int>, key: string, data: Value, u: UpdateTime, u': UpdateTime)
    ensures var w := Write(cache, time, key, data, u);
      Write(w.cache, w.time, key, data, u') == Written(false, w.cache, w.time)
  {
  }

  // ---------------------------------------------------------------------
  // What a request reads and produces
  // ---------------------------------------------------------------------

  /** The stat performed by the lookup of a request. */
  function StatEffects(path: string): seq<Effect>
    requires Classify(path) != Pass
  {
    if Classify(path).Module? then [] else [StatFile(FilePath(path))]
  }

  /** Whether `readFile` accepts the file at `file`. */
  predicate Readable(disk: Disk, file: string) {
    file in disk && disk[file].readable
  }

  /** The producer calls made on a miss; a file that cannot be read is never compiled or rewritten. */
  function ProducerEffects(path: string, disk: Disk): seq<Effect>
    requires Classify(path) != Pass
  {
    var file := FilePath(path);
    match Classify(path)
    case Sfc => if Readable(disk, file) then [ReadSource(file), Compile(file)] else [ReadSource(file)]
    case Script => if Readable(disk, file) then [ReadSource(file), RewriteImports(file)] else [ReadSource(file)]
    case Module(pkg) => [LoadPackage(pkg)]
  }

  /**
   * What `tryCache` yields for a request: module paths are read without a
   * stat and are never stale; other paths are rejected when the stat
   * rejects, and are `null` exactly when their recorded time is older than
   * the file.
   */
  function CacheLookup(cache: map<string, Value>, time: map<string, int>, path: string, disk: Disk): (r: Result<Lookup, Error>)
    requires Classify(path) != Pass
    ensures Classify(path).Module? ==> r == Ok(Get(cache, path))
    ensures r.Err? <==> !Classify(path).Module? && Stat(disk, path).None?
    ensures r.Err? ==> r.error == StatFailed(FilePath(path))
    ensures r.Ok? && r.value != Null ==> r.value == Get(cache, path)
    ensures r == Ok(Null) <==>
      !Classify(path).Module? && Stat(disk, path).Some? && path in time && time[path] < Stat(disk, path).value
  {
    if Classify(path).Module? then Ok(Probe(cache, time, path, Trusted))
    else match Stat(disk, path)
      case None => Err(StatFailed(FilePath(path)))
      case Some(m) => Ok(Probe(cache, time, path, Against(m)))
  }

  /** A freshly produced response body and the time to record with it. */
  datatype Produced = Produced(body: string, updateTime: UpdateTime)

  /**
   * What the producer of the request's branch returns on a miss. A
   * component or script is read first, and an unreadable file rejects the
   * request; what it produces carries the file's mtime. A script is
   * produced whenever it can be read, a component whenever it also bundles,
   * a package exactly when `loadPkg` resolves, and never with a time.
   */
  function Produce(path: string, disk: Disk, tools: Producers): (r: Result<Produced, Error>)
    requires Classify(path) != Pass
    ensures r.Ok? ==> (r.value.updateTime == NoTime <==> Classify(path).Module?)
    ensures !Classify(path).Module? && !Readable(disk, FilePath(path)) ==> r == Err(ReadFailed(FilePath(path)))
    ensures !Classify(path).Module? && r.Ok? ==>
      Readable(disk, FilePath(path)) && r.value.updateTime == Millis(disk[FilePath(path)].mtime)
    ensures Classify(path) == Script ==> (r.Ok? <==> Readable(disk, FilePath(path)))
    ensures Classify(path) == Sfc ==>
      (r.Ok? <==> Readable(disk, FilePath(path)) && BundleSfc(FilePath(path), disk[FilePath(path)], tools.sfc).Ok?)
    ensures Classify(path).Module? ==> (r.Ok? <==> tools.loadPkg(Classify(path).pkg).Some?)
  {
    var file := FilePath(path);
    match Classify(path)
    case Sfc =>
      if !Readable(disk, file) then Err(ReadFailed(file))
      else (match BundleSfc(file, disk[file], tools.sfc)
        case Err(e) => Err(e)
        case Ok(b) => Ok(Produced(b.code, Millis(b.updateTime))))
    case Script =>
      if !Readable(disk, file) then Err(ReadFailed(file))
      else Ok(Produced(tools.transform(disk[file].source), Millis(disk[file].mtime)))
    case Module(pkg) =>
      match tools.loadPkg(pkg)
      case None => Err(PackageNotFound(pkg))
      case Some(text) => Ok(Produced(text, NoTime))
  }

  /**
   * The state after `cacheData(path, out, p.updateTime)`: `path` now holds
   * the produced body and nothing else changed; the time is recorded unless
   * the stored value was left as it was.
   */
  ghost predicate Stored(cache0: map<string, Value>, time0: map<string, int>,
                         cache: map<string, Value>, time: map<string, int>, path: string, p: Produced)
  {
    && path in cache
    && Served(cache[path]) == p.body
    && cache == cache0[path := cache[path]]
    && time == if path in cache0 && cache0[path] == cache[path] then time0 else Record(time0, path, p.updateTime)
  }

  /**
   * One routed request, from the maps before it to the maps after it: a
   * rejected lookup fails with nothing changed; a truthy hit is served as
   * stored with no producer called; otherwise the branch's producer runs and
   * its result is served and stored, or its rejection fails the request with
   * nothing changed.
   */
  ghost predicate Handled(cache0: map<string, Value>, time0: map<string, int>,
                          cache: map<string, Value>, time: map<string, int>,
                          path: string, disk: Disk, tools: Producers, resp: Response, effects: seq<Effect>)
    requires Classify(path) != Pass
  {
    match CacheLookup(cache0, time0, path, disk)
    case Err(e) =>
      resp == Failed(e) && effects == StatEffects(path) && cache == cache0 && time == time0
    case Ok(found) =>
      if Truthy(found) then
        && resp == Send(Served(found.value), JavaScript)
        && effects == StatEffects(path)
        && cache == cache0 && time == time0
      else
        && effects == StatEffects(path) + ProducerEffects(path, disk)
        && match Produce(path, disk, tools)
           case Err(e) => resp == Failed(e) && cache == cache0 && time == time0
           case Ok(p) => resp == Send(p.body, JavaScript) && Stored(cache0, time0, cache, time, path, p)
  }

  /**
   * What the handler keeps true of one path: a recorded time is truthy and
   * belongs to a component or script path, never to a module path; a cached
   * path is a routed one, holding a bundle object exactly when it is a
   * component path.
   */
  ghost predicate EntryConsistent(cache: map<string, Value>, time: map<string, int>, k: string) {
    && (k in time ==> time[k] != 0 && (Classify(k) == Sfc || Classify(k) == Script))
    && (k in cache ==> Classify(k) != Pass && (cache[k].Obj? <==> Classify(k) == Sfc))
  }

  /** What the handler keeps true of every path. */
  ghost predicate Consistent(cache: map<string, Value>, time: map<string, int>) {
    forall k :: EntryConsistent(cache, time, k)
  }

  /** A value of the right kind for its path, written with a time only off the module branch, keeps the maps consistent. */
  lemma WriteKeepsConsistent(cache: map<string, Value>, time: map<string, int>, key: string, data: Value, u: UpdateTime)
    requires Consistent(cache, time)
    requires Classify(key) != Pass && (data.Obj? <==> Classify(key) == Sfc)
    requires Classify(key).Module? ==> u == NoTime
    ensures var w := Write(cache, time, key, data, u); Consistent(w.cache, w.time)
  {
    var w := Write(cache, time, key, data, u);
    forall k ensures EntryConsistent(w.cache, w.time, k) {
      assert EntryConsistent(cache, time, k);
    }
  }

  // ---------------------------------------------------------------------
  // The middleware object
  // ---------------------------------------------------------------------

  class Middleware {
    /** The LRU store: request path to cached value. */
    var cache: map<string, Value>
    /** The recorded source modification time per request path. */
    var time: map<string, int>

    /** What the handler keeps true of the two maps (see `Consistent`). */
    ghost predicate Valid()
      reads this
    {
      Consistent(cache, time)
    }

    /** `vueMiddleware({ cache: true })` */
    constructor ()
      ensures Valid() && cache == map[] && time == map[]
    {
      cache := map[];
      time := map[];
    }

    /**
     * `tryCache(key, checkUpdateTime)`; `fileMtime` is what `stat` returns
     * for the key's file, None when it rejects. The file is stat'ed whenever
     * the time is checked, whether or not the key is cached.
     */
    method TryCache(key: string, checkUpdateTime: bool, fileMtime: Option<int>) returns (r: Result<Lookup, Error>)
      ensures checkUpdateTime && fileMtime.None? ==> r == Err(StatFailed(FilePath(key)))
      ensures !checkUpdateTime ==> r == Ok(Get(cache, key))
      ensures checkUpdateTime && fileMtime.Some? ==>
        r.Ok? && (r.value == Null <==> key in time && time[key] < fileMtime.value)
      ensures r.Ok? ==> r.value == Probe(cache, time, key, if checkUpdateTime then Against(fileMtime.value) else Trusted)
    {
      var data := Get(cache, key);
      if checkUpdateTime {
        if fileMtime.None? {
          return Err(StatFailed(FilePath(key)));
        }
        if key in time && time[key] < fileMtime.value {
          return Ok(Null);
        }
      }
      return Ok(data);
    }

    /** `cacheData(key, data, updateTime)` */
    method CacheData(key: string, data: Value, updateTime: UpdateTime) returns (wrote: bool)
      modifies this
      ensures Written(wrote, cache, time) == Write(old(cache), old(time), key, data, updateTime)
    {
      var stored := Get(cache, key);
      if !LooselyEqual(stored, data) {
        cache := cache[key := data];
        if IsTruthyTime(updateTime) {
          time := time[key := updateTime.ms];
        }
        return true;
      } else {
        return false;
      }
    }

    /** The LRU store dropping an entry; the time record is left behind. */
    method Evict(key: string)
      requires Valid()
      modifies this
      ensures Valid()
      ensures cache == old(cache) - {key} && time == old(time)
    {
      ghost var cache0 := cache;
      cache := cache - {key};
      forall k ensures EntryConsistent(cache, time, k) {
        assert EntryConsistent(cache0, time, k);
      }
    }

    /**
     * The request handler; `tools` holds the producers a miss may call.
     */
    method Handle(path: string, disk: Disk, tools: Producers) returns (resp: Response, effects: seq<Effect>)
      requires Valid()
      modifies this
      ensures Valid()
      ensures Classify(path) == Pass ==>
        resp == Next && effects == [] && cache == old(cache) && time == old(time)
      ensures Classify(path) != Pass ==>
        Handled(old(cache), old(time), cache, time, path, disk, tools, resp, effects)
      ensures resp.Send? ==> path in cache && Served(cache[path]) == resp.body
      ensures Classify(path) == Sfc && resp.Send? && Compile(FilePath(path)) in effects ==>
        path in cache && cache[path].Obj? && fresh(cache[path].ref)
      ensures Classify(path).Module? ==> path !in time && time == old(time)
    {
      var route := Classify(path);
      if route == Sfc {
        resp, effects := ServeSfc(path, disk, tools);
      } else if route == Script {
        resp, effects := ServeScript(path, disk, tools);
      } else if route.Module? {
        resp, effects := ServeModule(path, disk, tools);
      } else {
        resp, effects := Next, [];
      }
    }

    /** The `.vue` branch: freshness-checked lookup, else bundle and store the result object. */
    method ServeSfc(path: string, disk: Disk, tools: Producers) returns (resp: Response, effects: seq<Effect>)
      requires Valid() && Classify(path) == Sfc
      modifies this
      ensures Valid()
      ensures
        Handled(old(cache), old(time), cache, time, path, disk, tools, resp, effects)
      ensures resp.Send? ==> path in cache && Served(cache[path]) == resp.body
      ensures resp.Send? && Compile(FilePath(path)) in effects ==>
        path in cache && cache[path].Obj? && fresh(cache[path].ref)
    {
      assert EntryConsistent(cache, time, path);
      var key := path;
      var file := FilePath(key);
      effects := [StatFile(file)];
      var found := TryCache(key, true, Stat(disk, key));
      if found.Err? {
        resp := Failed(found.error);
        return;
      }
      var out := found.value;
      if !Truthy(out) {
        effects := effects + [ReadSource(file)];
        if !Readable(disk, file) {
          resp := Failed(ReadFailed(file));
          return;
        }
        effects := effects + [Compile(file)];
        var bundled := BundleSfc(file, disk[file], tools.sfc);
        if bundled.Err? {
          resp := Failed(bundled.error);
          return;
        }
        var result := new SfcResult(bundled.value.code, bundled.value.updateTime);
        WriteKeepsConsistent(cache, time, key, Obj(result), Millis(result.updateTime));
        var _ := CacheData(key, Obj(result), Millis(result.updateTime));
        resp := Send(result.code, JavaScript);
      } else {
        resp := Send(Served(out.value), JavaScript);
      }
    }

    /** The `.js` branch: freshness-checked lookup, else read, rewrite imports and store the text. */
    method ServeScript(path: string, disk: Disk, tools: Producers) returns (resp: Response, effects: seq<Effect>)
      requires Valid() && Classify(path) == Script
      modifies this
      ensures Valid()
      ensures
        Handled(old(cache), old(time), cache, time, path, disk, tools, resp, effects)
      ensures resp.Send? ==> path in cache && Served(cache[path]) == resp.body
    {
      assert EntryConsistent(cache, time, path);
      var key := path;
      var file := FilePath(key);
      effects := [StatFile(file)];
      var found := TryCache(key, true, Stat(disk, key));
      if found.Err? {
        resp := Failed(found.error);
        return;
      }
      var out := found.value;
      if !Truthy(out) {
        effects := effects + [ReadSource(file)];
        if !Readable(disk, file) {
          resp := Failed(ReadFailed(file));
          return;
        }
        effects := effects + [RewriteImports(file)];
        var source := disk[file];
        var text := tools.transform(source.source);
        WriteKeepsConsistent(cache, time, key, Str(text), Millis(source.mtime));
        var _ := CacheData(key, Str(text), Millis(source.mtime));
        resp := Send(text, JavaScript);
      } else {
        resp := Send(Served(out.value), JavaScript);
      }
    }

    /** The `/__modules/` branch: trusted lookup, else load the package and store it without a time. */
    method ServeModule(path: string, disk: Disk, tools: Producers) returns (resp: Response, effects: seq<Effect>)
      requires Valid() && Classify(path).Module?
      modifies this
      ensures Valid()
      ensures
        Handled(old(cache), old(time), cache, time, path, disk, tools, resp, effects)
      ensures resp.Send? ==> path in cache && Served(cache[path]) == resp.body
      ensures path !in time && time == old(time)
    {
      assert EntryConsistent(cache, time, path);
      var key := path;
      var pkg := StripModulesPrefix(path);
      assert Classify(path) == Module(pkg);
      var found := TryCache(key, false, None);
      var out := found.value;
      if !Truthy(out) {
        effects := [LoadPackage(pkg)];
        match tools.loadPkg(pkg)
        case None =>
          resp := Failed(PackageNotFound(pkg));
        case Some(text) =>
          WriteKeepsConsistent(cache, time, key, Str(text), NoTime);
          var _ := CacheData(key, Str(text), NoTime);
          resp := Send(text, JavaScript);
      } else {
        effects := [];
        resp := Send(Served(out.value), JavaScript);
      }
    }
  }
}
