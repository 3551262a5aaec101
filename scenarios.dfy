/**
 * Sequences of requests against one middleware object, proved from the
 * handler's contract alone.
 */
module Scenarios {
  import opened Wrappers
  import opened JsValues
  import opened Routing
  import opened VueMiddleware

  /**
   * A component requested with nothing cached is stat'ed, read and compiled
   * once; asked again with the file untouched, it is served from the cache
   * after only the stat.
   */
  method ComponentServedFromCache(m: Middleware, path: string, disk: Disk, tools: Producers)
    returns (first: Response, second: Response, effects1: seq<Effect>, effects2: seq<Effect>)
    requires m.Valid() && Classify(path) == Sfc && path !in m.cache
    requires Readable(disk, FilePath(path)) && disk[FilePath(path)].mtime != 0
    requires BundleSfc(FilePath(path), disk[FilePath(path)], tools.sfc).Ok?
    modifies m
    ensures m.Valid()
    ensures var f := FilePath(path);
      && first == Send(BundleSfc(f, disk[f], tools.sfc).value.code, JavaScript)
      && effects1 == [StatFile(f), ReadSource(f), Compile(f)]
      && second == first
      && effects2 == [StatFile(f)]
  {
    first, effects1 := m.Handle(path, disk, tools);
    second, effects2 := m.Handle(path, disk, tools);
  }

  /**
   * A component whose file is newer than its recorded time is compiled
   * again, and the new object and the new time replace the old ones.
   */
  method EditedComponentRecompiled(m: Middleware, path: string, disk: Disk, tools: Producers)
    returns (resp: Response, effects: seq<Effect>)
    requires m.Valid() && Classify(path) == Sfc
    requires Readable(disk, FilePath(path)) && path in m.time && m.time[path] < disk[FilePath(path)].mtime
    requires disk[FilePath(path)].mtime != 0
    requires BundleSfc(FilePath(path), disk[FilePath(path)], tools.sfc).Ok?
    modifies m
    ensures m.Valid()
    ensures var f := FilePath(path);
      && resp == Send(BundleSfc(f, disk[f], tools.sfc).value.code, JavaScript)
      && effects == [StatFile(f), ReadSource(f), Compile(f)]
      && path in m.cache && m.cache[path].Obj? && fresh(m.cache[path].ref)
      && m.time == old(m.time)[path := disk[f].mtime]
  {
    ghost var f := FilePath(path);
    ghost var cache0 := m.cache;
    assert CacheLookup(m.cache, m.time, path, disk) == Ok(Null);
    resp, effects := m.Handle(path, disk, tools);
    assert Compile(f) in effects;
    assert path in cache0 ==> cache0[path] != m.cache[path];
  }

  /**
   * A component whose file the stat accepts but `readFile` rejects fails
   * the request, whatever is cached, once its record is older than the
   * file; the cache and the times are left as they were.
   */
  method UnreadableComponentFails(m: Middleware, path: string, disk: Disk, tools: Producers)
    returns (resp: Response, effects: seq<Effect>)
    requires m.Valid() && Classify(path) == Sfc
    requires FilePath(path) in disk && !disk[FilePath(path)].readable
    requires path in m.time && m.time[path] < disk[FilePath(path)].mtime
    modifies m
    ensures m.Valid()
    ensures var f := FilePath(path);
      && resp == Failed(ReadFailed(f))
      && effects == [StatFile(f), ReadSource(f)]
      && m.cache == old(m.cache) && m.time == old(m.time)
  {
    assert CacheLookup(m.cache, m.time, path, disk) == Ok(Null);
    resp, effects := m.Handle(path, disk, tools);
  }

  /**
   * A script the store has evicted keeps its recorded time, so once the file
   * is newer it reads as `null` rather than `undefined`; either way it is read
   * and rewritten again, and stored with the file's time.
   */
  method EvictedScriptRebuilt(m: Middleware, path: string, disk: Disk, tools: Producers)
    returns (resp: Response, effects: seq<Effect>)
    requires m.Valid() && Classify(path) == Script
    requires Readable(disk, FilePath(path)) && path in m.time && m.time[path] < disk[FilePath(path)].mtime
    requires disk[FilePath(path)].mtime != 0
    modifies m
    ensures m.Valid()
    ensures var f := FilePath(path);
      && resp == Send(tools.transform(disk[f].source), JavaScript)
      && effects == [StatFile(f), ReadSource(f), RewriteImports(f)]
      && path in m.cache && m.cache[path] == Str(tools.transform(disk[f].source))
      && m.time == old(m.time)[path := disk[f].mtime]
  {
    m.Evict(path);
    assert CacheLookup(m.cache, m.time, path, disk) == Ok(Null);
    resp, effects := m.Handle(path, disk, tools);
    assert EntryConsistent(m.cache, m.time, path);
  }

  /**
   * A package with a non-empty body is loaded once: a second request for it
   * is served from the cache whatever the files on disk have become.
   */
  method ModuleLoadedOnce(m: Middleware, path: string, disk1: Disk, disk2: Disk, tools: Producers)
    returns (first: Response, second: Response, effects1: seq<Effect>, effects2: seq<Effect>)
    requires m.Valid() && Classify(path).Module? && path !in m.cache
    requires tools.loadPkg(Classify(path).pkg).Some? && tools.loadPkg(Classify(path).pkg).value != ""
    modifies m
    ensures m.Valid()
    ensures first == Send(tools.loadPkg(Classify(path).pkg).value, JavaScript)
    ensures effects1 == [LoadPackage(Classify(path).pkg)]
    ensures second == first && effects2 == []
    ensures path !in m.time
  {
    first, effects1 := m.Handle(path, disk1, tools);
    second, effects2 := m.Handle(path, disk2, tools);
  }

  /**
   * A package whose body is empty is cached but reads as falsy, so every
   * request loads it again.
   */
  method EmptyPackageReloaded(m: Middleware, path: string, disk: Disk, tools: Producers)
    returns (first: Response, second: Response, effects1: seq<Effect>, effects2: seq<Effect>)
    requires m.Valid() && Classify(path).Module?
    requires tools.loadPkg(Classify(path).pkg) == Some("")
    requires path in m.cache ==> !Truthy(Hit(m.cache[path]))
    modifies m
    ensures m.Valid()
    ensures effects1 == effects2 == [LoadPackage(Classify(path).pkg)]
    ensures first == second == Send("", JavaScript)
  {
    first, effects1 := m.Handle(path, disk, tools);
    assert EntryConsistent(m.cache, m.time, path);
    second, effects2 := m.Handle(path, disk, tools);
  }

  /**
   * A script whose file is newer than its record but whose rewritten text
   * is what the cache already holds is served, yet `cacheData` writes
   * nothing and so records no newer time: the entry stays as it was.
   */
  method RebuildUnchangedScript(m: Middleware, path: string, disk: Disk, tools: Producers)
    returns (resp: Response, effects: seq<Effect>)
    requires m.Valid() && Classify(path) == Script
    requires Readable(disk, FilePath(path)) && path in m.time && m.time[path] < disk[FilePath(path)].mtime
    requires path in m.cache && m.cache[path] == Str(tools.transform(disk[FilePath(path)].source))
    modifies m
    ensures m.Valid()
    ensures var f := FilePath(path);
      && effects == [StatFile(f), ReadSource(f), RewriteImports(f)]
      && resp == Send(tools.transform(disk[f].source), JavaScript)
      && m.time == old(m.time) && m.cache == old(m.cache)
  {
    ghost var cache0, time0 := m.cache, m.time;
    resp, effects := m.Handle(path, disk, tools);
    assert EntryConsistent(m.cache, m.time, path);
    UnchangedRebuildWritesNothing(cache0, time0, m.cache, m.time, path, disk, tools, resp, effects);
  }

  /** The step of `RebuildUnchangedScript`, on the maps. */
  lemma UnchangedRebuildWritesNothing(cache0: map<string, Value>, time0: map<string, int>,
                                      cache: map<string, Value>, time: map<string, int>,
                                      path: string, disk: Disk, tools: Producers, resp: Response, effects: seq<Effect>)
    requires Classify(path) == Script && (path in cache ==> cache[path].Str?)
    requires Readable(disk, FilePath(path)) && path in time0 && time0[path] < disk[FilePath(path)].mtime
    requires path in cache0 && cache0[path] == Str(tools.transform(disk[FilePath(path)].source))
    requires Handled(cache0, time0, cache, time, path, disk, tools, resp, effects)
    ensures var f := FilePath(path);
      && effects == [StatFile(f), ReadSource(f), RewriteImports(f)]
      && resp == Send(tools.transform(disk[f].source), JavaScript)
      && time == time0 && cache == cache0
  {
    var text := tools.transform(disk[FilePath(path)].source);
    assert CacheLookup(cache0, time0, path, disk) == Ok(Null);
    assert Produce(path, disk, tools) == Ok(Produced(text, Millis(disk[FilePath(path)].mtime)));
    assert cache[path] == cache0[path];
  }

  /**
   * Consequently the next request for that script reads and rewrites the
   * file again: two requests in a row, with the files and the stored text
   * unchanged, both miss.
   */
  method UnchangedScriptStaysStale(m: Middleware, path: string, disk: Disk, tools: Producers)
    returns (first: Response, second: Response, effects1: seq<Effect>, effects2: seq<Effect>)
    requires m.Valid() && Classify(path) == Script
    requires Readable(disk, FilePath(path)) && path in m.time && m.time[path] < disk[FilePath(path)].mtime
    requires path in m.cache && m.cache[path] == Str(tools.transform(disk[FilePath(path)].source))
    modifies m
    ensures m.Valid()
    ensures var f := FilePath(path);
      && effects1 == effects2 == [StatFile(f), ReadSource(f), RewriteImports(f)]
      && first == second
  {
    first, effects1 := RebuildUnchangedScript(m, path, disk, tools);
    second, effects2 := RebuildUnchangedScript(m, path, disk, tools);
  }
}
