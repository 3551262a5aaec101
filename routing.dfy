/**
 * Classification of a request path, checked in the order the handler checks
 * it: `.vue` first, then `.js`, then the `/__modules/` prefix, otherwise the
 * request is passed on.
 */
module Routing {

  /** The virtual route segment under which bare module imports are served. */
  const ModulesPrefix: string := "/__modules/"

  /** `s.endsWith(suffix)` */
  predicate EndsWith(s: string, suffix: string) {
    |suffix| <= |s| && s[|s| - |suffix|..] == suffix
  }

  /** `s.startsWith(prefix)` */
  predicate StartsWith(s: string, prefix: string) {
    |prefix| <= |s| && s[..|prefix|] == prefix
  }

  /** The branch of the handler a request takes. */
  datatype Route = Sfc | Script | Module(pkg: string) | Pass

  /** `path.replace(/^\/__modules\//, '')`: drops the prefix once, when present. */
  function StripModulesPrefix(path: string): (pkg: string)
    ensures StartsWith(path, ModulesPrefix) ==> ModulesPrefix + pkg == path
    ensures !StartsWith(path, ModulesPrefix) ==> pkg == path
  {
    if StartsWith(path, ModulesPrefix) then path[|ModulesPrefix|..] else path
  }

  /** The first-match classification of the handler. */
  function Classify(path: string): (r: Route)
    ensures r.Module? ==> ModulesPrefix + r.pkg == path
  {
    if EndsWith(path, ".vue") then Sfc
    else if EndsWith(path, ".js") then Script
    else if StartsWith(path, ModulesPrefix) then Module(StripModulesPrefix(path))
    else Pass
  }

  /**
   * First match wins: `.vue` before `.js` before the module prefix; any
   * other path is passed on.
   */
  lemma ClassifyOrder(path: string)
    ensures Classify(path) == Sfc <==> EndsWith(path, ".vue")
    ensures Classify(path) == Script <==> EndsWith(path, ".js") && !EndsWith(path, ".vue")
    ensures Classify(path).Module? <==>
      StartsWith(path, ModulesPrefix) && !EndsWith(path, ".vue") && !EndsWith(path, ".js")
    ensures Classify(path) == Pass <==>
      !StartsWith(path, ModulesPrefix) && !EndsWith(path, ".vue") && !EndsWith(path, ".js")
  {
  }

  /** No path ends with both extensions, so the order of the first two tests does not matter. */
  lemma {:induction false} ExtensionsExclusive(path: string)
    ensures !(EndsWith(path, ".vue") && EndsWith(path, ".js"))
  {
    if EndsWith(path, ".vue") {
      var tail := path[|path| - 4..];
      assert path[|path| - 1] == tail[3] == 'e';
      assert path[|path| - 3..][2] == 'e' != ".js"[2];
    }
  }

  /**
   * A suffix that starts with `.` cannot reach back into a prefix without a
   * `.`: such a prefix does not change whether the path has that suffix.
   */
  lemma {:induction false} EndsWithPastPrefix(prefix: string, rest: string, suffix: string)
    requires |suffix| > 0 && suffix[0] == '.'
    requires forall i :: 0 <= i < |prefix| ==> prefix[i] != '.'
    ensures EndsWith(prefix + rest, suffix) <==> EndsWith(rest, suffix)
  {
    var s := prefix + rest;
    if |suffix| <= |rest| {
      assert s[|s| - |suffix|..] == rest[|rest| - |suffix|..];
    } else if |suffix| <= |s| {
      var i := |s| - |suffix|;
      assert s[i] == prefix[i] != '.';
      assert s[i..][0] != suffix[0];
    }
  }

  /**
   * A module path as the import rewriter writes it, `/__modules/<pkg>`, is
   * served by the module branch with package name `pkg`, unless `pkg` itself
   * ends in `.vue` or `.js`, in which case an earlier branch takes it.
   */
  lemma ClassifyModulePath(pkg: string)
    ensures Classify(ModulesPrefix + pkg) ==
      if EndsWith(pkg, ".vue") then Sfc
      else if EndsWith(pkg, ".js") then Script
      else Module(pkg)
  {
    var path := ModulesPrefix + pkg;
    assert forall i :: 0 <= i < |ModulesPrefix| ==> ModulesPrefix[i] != '.';
    EndsWithPastPrefix(ModulesPrefix, pkg, ".vue");
    EndsWithPastPrefix(ModulesPrefix, pkg, ".js");
    assert path[..|ModulesPrefix|] == ModulesPrefix;
  }
}
