/**
 * The JavaScript values the middleware stores and compares: strings (rewritten
 * scripts and package sources) and the objects produced by bundling a
 * single-file component. Objects are compared by reference, so the bundle
 * result is a class.
 */
module JsValues {

  /** The object `{ ...assembledResult, updateTime }` built for a `.vue` request. */
  class SfcResult {
    const code: string
    const updateTime: int

    constructor (code: string, updateTime: int)
      ensures this.code == code && this.updateTime == updateTime
    {
      this.code := code;
      this.updateTime := updateTime;
    }
  }

  /** A value held by the cache. */
  datatype Value = Str(s: string) | Obj(ref: SfcResult)

  /** What a cache read yields: `undefined` for an absent key, `null` for a stale entry, or a value. */
  datatype Lookup = Undefined | Null | Hit(value: Value)

  /** The second argument of `cacheData`: `false`/`undefined`, or a millisecond timestamp. */
  datatype UpdateTime = NoTime | Millis(ms: int)

  /**
   * JavaScript truthiness of a looked-up value (`if (!out)`): `undefined` and
   * `null` are falsy, every object is truthy, a string is truthy exactly when
   * it is not empty.
   */
  function Truthy(l: Lookup): (b: bool)
    ensures b ==> l.Hit?
    ensures l.Hit? && l.value.Obj? ==> b
    ensures l.Hit? && l.value.Str? ==> (b <==> l.value.s != "")
  {
    match l
    case Hit(Str(s)) => s != ""
    case Hit(Obj(_)) => true
    case _ => false
  }

  /** JavaScript truthiness of `updateTime` (`if (updateTime)`): `false`, `undefined` and `0` are falsy. */
  function IsTruthyTime(u: UpdateTime): (b: bool)
    ensures b <==> u != NoTime && u != Millis(0)
  {
    u.Millis? && u.ms != 0
  }

  /** `String({})`, the primitive an object turns into when loosely compared with a string. */
  const ObjectTag: string := "[object Object]"

  /**
   * JavaScript `old == data` where `old` (here `stored`) is what `peek`
   * returned and `data` is a value about to be stored. Nothing equals
   * `undefined` or `null`; every stored value equals itself; strings compare
   * by content, bundle objects by identity whatever their contents, and a
   * string against an object compares with the object's string form.
   */
  function LooselyEqual(stored: Lookup, data: Value): (b: bool)
    ensures b ==> stored.Hit?
    ensures stored == Hit(data) ==> b
    ensures stored.Hit? && stored.value.Str? && data.Str? ==> (b <==> stored.value.s == data.s)
    ensures stored.Hit? && stored.value.Obj? && data.Obj? ==> (b <==> stored.value.ref == data.ref)
    ensures stored.Hit? && stored.value.Str? && data.Obj? ==> (b <==> stored.value.s == ObjectTag)
    ensures stored.Hit? && stored.value.Obj? && data.Str? ==> (b <==> data.s == ObjectTag)
  {
    match (stored, data)
    case (Hit(Str(a)), Str(b)) => a == b
    case (Hit(Obj(a)), Obj(b)) => a == b
    case (Hit(Str(a)), Obj(_)) => a == ObjectTag
    case (Hit(Obj(_)), Str(b)) => b == ObjectTag
    case _ => false
  }

  /** The response body sent for a cached value: `out.code` for a bundle, `out` itself for a string. */
  function Served(v: Value): (body: string)
    ensures v.Str? ==> body == v.s
    ensures v.Obj? ==> body == v.ref.code
  {
    match v
    case Str(s) => s
    case Obj(r) => r.code
  }
}
