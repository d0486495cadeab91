/**
 * The Webpack filters of the earlier runtime library
 * (src/lib/webpackutils.ts). `byId`, `byValues` and `getModuleWithKey` are
 * the ones of `WebpackUtils`; only `store` differs.
 */
module SrcWebpackUtils {
  import opened Wrappers
  import opened JsValues
  import WebpackUtils

  /**
   * `store(name)`: `m.getName?.() === name`. The optional call skips a
   * missing `getName` but not a missing export. `getName` is what calling the
   * export's `getName` method returns.
   */
  function Store(name: string, getName: JsValue -> JsValue, e: JsValue): (r: Result<bool, string>)
    ensures r == Ok(true) <==> !Nullish(e) && Member(e, "getName").Fn? && getName(e) == Str(name)
    ensures r.Err? <==> Nullish(e) || !(Nullish(Member(e, "getName")) || Member(e, "getName").Fn?)
  {
    if Nullish(e) then Err(PropertyOfNullish(e, "getName"))
    else if Nullish(Member(e, "getName")) then Ok(false)
    else if !Member(e, "getName").Fn? then Err(WebpackUtils.NotAFunction("m.getName"))
    else Ok(getName(e) == Str(name))
  }

  /**
   * On a Flux store (an export with a dispatch token and a `getName` method)
   * both versions of `store` agree; the later one also demands the dispatch
   * token, so it refuses an export that only has a matching `getName`.
   */
  lemma StoreVersions(name: string, getName: JsValue -> JsValue, e: JsValue)
    ensures !Nullish(e) && Truthy(Member(e, "_dispatchToken")) && Member(e, "getName").Fn? ==>
              Store(name, getName, e) == WebpackUtils.Store(name, getName, e)
    ensures WebpackUtils.Store(name, getName, e) == Ok(true) ==> Store(name, getName, e) == Ok(true)
    ensures !Nullish(e) && !Truthy(Member(e, "_dispatchToken")) ==> WebpackUtils.Store(name, getName, e) == Ok(false)
  {
  }
}
