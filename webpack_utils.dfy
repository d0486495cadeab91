/**
 * The Webpack module filters of the runtime library (lib/webpackutils.ts;
 * `byId`, `byValues` and `getModuleWithKey` read the same in
 * src/lib/webpackutils.ts). BetterDiscord's `Webpack.getModule` is not part
 * of this model: its answer is a parameter.
 */
module WebpackUtils {
  import opened Wrappers
  import opened Text
  import opened JsValues

  /**
   * A module filter `(e, m, i) => boolean`: an export, its module object and
   * the module's id. Filters are taken to return without throwing.
   */
  type Filter = (JsValue, JsValue, string) -> bool

  /** `byId(id)`: the generated filter looks only at the id argument. */
  function ById(id: string): (f: Filter)
    ensures forall e, m, i :: f(e, m, i) <==> i == id
  {
    (e: JsValue, m: JsValue, i: string) => i == id
  }

  /** The values of a record, in order. */
  function ValuesOf(r: Record<JsValue>): (vs: seq<JsValue>)
    ensures |vs| == |r| && forall k :: 0 <= k < |r| ==> vs[k] == r[k].1
  {
    if r == [] then [] else [r[0].1] + ValuesOf(r[1..])
  }

  const NullToObjectError: string := "TypeError: Cannot convert undefined or null to object"

  /** `Object.values(e)`, which refuses `null` and `undefined`. */
  function Values(e: JsValue): (r: Result<seq<JsValue>, string>)
    ensures r.Err? <==> Nullish(e)
  {
    if Nullish(e) then Err(NullToObjectError) else Ok(ValuesOf(OwnProps(e)))
  }

  /** `values.some((v) => filter(v, m, i))` */
  predicate SomeValue(filter: Filter, values: seq<JsValue>, m: JsValue, i: string) {
    exists k :: 0 <= k < |values| && filter(values[k], m, i)
  }

  /** The first `n` filters each accept some value. */
  predicate MatchedUpTo(filters: seq<Filter>, values: seq<JsValue>, m: JsValue, i: string, n: nat)
    requires n <= |filters|
  {
    forall j :: 0 <= j < n ==> SomeValue(filters[j], values, m, i)
  }

  /**
   * What `byValues(...filters)` answers for `(e, m, i)`: whether every filter
   * accepts some value of `e`. `Object.values` is reached only when there is
   * a filter to check.
   */
  function ByValuesAnswer(filters: seq<Filter>, e: JsValue, m: JsValue, i: string): (r: Result<bool, string>)
    ensures filters == [] ==> r == Ok(true)
    ensures r.Err? <==> filters != [] && Nullish(e)
  {
    if filters == [] then Ok(true)
    else
      match Values(e)
      case Err(error) => Err(error)
      case Ok(values) => Ok(MatchedUpTo(filters, values, m, i, |filters|))
  }

  /**
   * The generated `byValues` filter: the `for...of` loop with its `match`
   * flag, which breaks at the first filter no value satisfies. `evaluated`
   * counts the filters that were called.
   */
  method ByValues(filters: seq<Filter>, e: JsValue, m: JsValue, i: string) returns (r: Result<bool, string>, evaluated: nat)
    ensures r == ByValuesAnswer(filters, e, m, i)
    ensures r == Ok(true) ==> evaluated == |filters|
    ensures r == Ok(false) ==>
              0 < evaluated <= |filters| && !SomeValue(filters[evaluated - 1], Values(e).value, m, i)
              && MatchedUpTo(filters, Values(e).value, m, i, evaluated - 1)
  {
    var matched := true;
    evaluated := 0;
    ghost var all := ValuesOf(OwnProps(e));
    while evaluated < |filters|
      invariant 0 <= evaluated <= |filters| && matched
      invariant evaluated > 0 ==> !Nullish(e)
      invariant MatchedUpTo(filters, all, m, i, evaluated)
    {
      var values := Values(e);
      if values.Err? {
        return Err(values.error), evaluated;
      }
      assert values.value == all;
      if !SomeValue(filters[evaluated], values.value, m, i) {
        FirstUnmatched(filters, all, m, i, evaluated);
        matched := false;
        evaluated := evaluated + 1;
        break;
      }
      MatchedOneMore(filters, all, m, i, evaluated);
      evaluated := evaluated + 1;
    }
    assert matched == MatchedUpTo(filters, all, m, i, |filters|);
    if filters != [] {
      AnswerOfValues(filters, e, m, i);
    }
    r := Ok(matched);
  }

  /** With filters to check and an object to read, the answer is about its values. */
  lemma AnswerOfValues(filters: seq<Filter>, e: JsValue, m: JsValue, i: string)
    requires filters != [] && !Nullish(e)
    ensures Values(e) == Ok(ValuesOf(OwnProps(e)))
    ensures ByValuesAnswer(filters, e, m, i) == Ok(MatchedUpTo(filters, ValuesOf(OwnProps(e)), m, i, |filters|))
  {
  }

  /** One more filter accepting some value extends the matched prefix. */
  lemma MatchedOneMore(filters: seq<Filter>, values: seq<JsValue>, m: JsValue, i: string, n: nat)
    requires n < |filters| && MatchedUpTo(filters, values, m, i, n) && SomeValue(filters[n], values, m, i)
    ensures MatchedUpTo(filters, values, m, i, n + 1)
  {
  }

  /** A filter that no value satisfies makes the whole list fail. */
  lemma FirstUnmatched(filters: seq<Filter>, values: seq<JsValue>, m: JsValue, i: string, n: nat)
    requires n < |filters| && !SomeValue(filters[n], values, m, i)
    ensures !MatchedUpTo(filters, values, m, i, |filters|)
  {
  }

  /**
   * The index of the first property, from `start` on, whose value the filter
   * accepts for module `m` with id `id`.
   */
  function FirstMatchFrom(filter: Filter, props: Record<JsValue>, m: JsValue, id: string, start: nat): (r: Option<nat>)
    requires start <= |props|
    ensures r.Some? ==> start <= r.value < |props| && filter(props[r.value].1, m, id)
    ensures r.Some? ==> forall j :: start <= j < r.value ==> !filter(props[j].1, m, id)
    ensures r.None? ==> forall j :: start <= j < |props| ==> !filter(props[j].1, m, id)
    decreases |props| - start
  {
    if start == |props| then None
    else if filter(props[start].1, m, id) then Some(start)
    else FirstMatchFrom(filter, props, m, id, start + 1)
  }

  /**
   * What `getModuleWithKey(filter)` returns: the module's exports and the
   * first export key, in enumeration order, whose value the filter accepts.
   * `found` is the module and id the search callback recorded, `None` when
   * no module matched (then `target.exports` throws).
   */
  function ModuleWithKey(filter: Filter, found: Option<(JsValue, string)>): (r: Result<(JsValue, Option<string>), string>)
    ensures r.Err? <==> found.None?
  {
    match found
    case None => Err(PropertyOfNullish(Undefined, "exports"))
    case Some((target, id)) =>
      var exports := Member(target, "exports");
      var props := OwnProps(exports);
      match FirstMatchFrom(filter, props, target, id, 0)
      case None => Ok((exports, None))
      case Some(k) => Ok((exports, Some(props[k].0)))
  }

  /**
   * The key `getModuleWithKey` picks is the first one whose value passes the
   * filter, and no key is picked only when none passes.
   */
  lemma ModuleWithKeyIsFirst(filter: Filter, target: JsValue, id: string)
    ensures var props := OwnProps(Member(target, "exports"));
            var r := ModuleWithKey(filter, Some((target, id)));
            r.Ok? && r.value.0 == Member(target, "exports")
            && (r.value.1.None? <==> forall j :: 0 <= j < |props| ==> !filter(props[j].1, target, id))
            && (r.value.1.Some? ==>
                  (exists k :: 0 <= k < |props| && props[k].0 == r.value.1.value && filter(props[k].1, target, id)
                                && forall j :: 0 <= j < k ==> !filter(props[j].1, target, id)))
  {
    var props := OwnProps(Member(target, "exports"));
    var k := FirstMatchFrom(filter, props, target, id, 0);
    if k.Some? {
      assert filter(props[k.value].1, target, id);
    }
  }

  /** The `for...in` loop of `getModuleWithKey`, which breaks at the first accepted key. */
  method GetModuleWithKey(filter: Filter, found: Option<(JsValue, string)>) returns (r: Result<(JsValue, Option<string>), string>)
    ensures r == ModuleWithKey(filter, found)
  {
    if found.None? {
      return Err(PropertyOfNullish(Undefined, "exports"));
    }
    var target := found.value.0;
    var id := found.value.1;
    var exports := Member(target, "exports");
    var props := OwnProps(exports);
    var key: Option<string> := None;
    var k := 0;
    while k < |props|
      invariant 0 <= k <= |props|
      invariant FirstMatchFrom(filter, props, target, id, 0) == FirstMatchFrom(filter, props, target, id, k)
    {
      if filter(props[k].1, target, id) {
        key := Some(props[k].0);
        break;
      }
      k := k + 1;
    }
    r := Ok((exports, key));
  }

  /**
   * `store(name)`, deprecated: `m._dispatchToken && m.getName() === name`.
   * `getName` is what calling the export's `getName` method returns.
   */
  function Store(name: string, getName: JsValue -> JsValue, e: JsValue): (r: Result<bool, string>)
    ensures r == Ok(true) <==>
              !Nullish(e) && Truthy(Member(e, "_dispatchToken")) && Member(e, "getName").Fn? && getName(e) == Str(name)
    ensures r.Err? <==> Nullish(e) || (Truthy(Member(e, "_dispatchToken")) && !Member(e, "getName").Fn?)
  {
    if Nullish(e) then Err(PropertyOfNullish(e, "_dispatchToken"))
    else if !Truthy(Member(e, "_dispatchToken")) then Ok(false)
    else if !Member(e, "getName").Fn? then Err(NotAFunction("m.getName"))
    else Ok(getName(e) == Str(name))
  }

  /** Calling a value that is not a function. */
  function NotAFunction(expression: string): string {
    "TypeError: " + expression + " is not a function"
  }

  /** The options `expectModule` reads besides the search options. */
  datatype ExpectOptions = ExpectOptions(name: JsValue, fatal: JsValue, fallback: JsValue, onError: bool)

  /** `{}`: no name, not fatal, no fallback, no callback. */
  const NoOptions: ExpectOptions := ExpectOptions(Undefined, Undefined, Undefined, false)

  /** What `expectModule` does outside its return value. */
  datatype ExpectEffect = LogError(message: string) | CallOnError

  datatype Expected = Expected(effects: seq<ExpectEffect>, outcome: Result<JsValue, string>)

  const FallbackNote: string := " Using fallback value instead."
  const ContactNote: string := "\n\nContact the plugin developer to inform them of this error."

  /** `Module '<name>'`, or the filter's source text when no name is given. */
  function ModuleHead(options: ExpectOptions, filterText: string): string {
    if Truthy(options.name) then "Module '" + ToJsString(options.name) + "'"
    else "Module query with filter '" + filterText + "'"
  }

  /** The note is added only when the call will return a truthy fallback. */
  function FallbackMessage(options: ExpectOptions): string {
    if !Truthy(options.fatal) && Truthy(options.fallback) then FallbackNote else ""
  }

  function ErrorMessage(options: ExpectOptions, filterText: string): string {
    ModuleHead(options, filterText) + (" not found." + FallbackMessage(options)) + ContactNote
  }

  /**
   * A module that was not found: log the error, call `onError`, then throw
   * when fatal or return the fallback.
   */
  function NotFound(options: ExpectOptions, filterText: string): Expected {
    var message := ErrorMessage(options, filterText);
    Expected([LogError(message)] + (if options.onError then [CallOnError] else []),
             if Truthy(options.fatal) then Err(message) else Ok(options.fallback))
  }

  /**
   * `expectModule(filter, options)`. `found` is what `Webpack.getModule`
   * returned and `filterText` is `filter.toString()`. As written, a missing
   * module with no options object reads `options.name` of `undefined`; the
   * corrected version reads the options as `{}`.
   */
  function ExpectModule(found: JsValue, filterText: string, options: Option<ExpectOptions>, asWritten: bool): (r: Expected)
    ensures Truthy(found) ==> r == Expected([], Ok(found))
    ensures !Truthy(found) && options.Some? ==>
              r.effects != [] && r.effects[0] == LogError(ErrorMessage(options.value, filterText))
              && (CallOnError in r.effects <==> options.value.onError)
              && (r.outcome.Err? <==> Truthy(options.value.fatal))
              && (r.outcome.Err? ==> r.outcome.error == ErrorMessage(options.value, filterText))
              && (r.outcome.Ok? ==> r.outcome.value == options.value.fallback)
  {
    if Truthy(found) then Expected([], Ok(found))
    else match options
      case Some(o) => NotFound(o, filterText)
      case None =>
        if asWritten then Expected([], Err(PropertyOfNullish(Undefined, "name")))
        else NotFound(NoOptions, filterText)
  }

  /**
   * The message promises a fallback exactly when the call returns a truthy
   * fallback instead of throwing.
   */
  lemma FallbackNoteHonest(found: JsValue, filterText: string, options: ExpectOptions, asWritten: bool)
    requires !Truthy(found)
    ensures var r := ExpectModule(found, filterText, Some(options), asWritten);
            (FallbackMessage(options) == FallbackNote <==> r.outcome.Ok? && Truthy(r.outcome.value))
            && (FallbackMessage(options) != FallbackNote ==> FallbackMessage(options) == [])
  {
  }

  /** The error names the module by its `name` option when given, else by the filter's text. */
  lemma ErrorNamesModule(options: ExpectOptions, filterText: string)
    ensures Truthy(options.name) ==> StartsWith(ErrorMessage(options, filterText), "Module '" + ToJsString(options.name) + "'")
    ensures !Truthy(options.name) ==> StartsWith(ErrorMessage(options, filterText), "Module query with filter '" + filterText + "'")
    ensures EndsWith(ErrorMessage(options, filterText), ContactNote)
  {
    Framed(ModuleHead(options, filterText), " not found." + FallbackMessage(options), ContactNote);
  }

  /**
   * `expectModule(filter)` with no options, for a module that is missing: as
   * written it throws a `TypeError` without logging anything.
   */
  lemma NoOptionsCrashesAsWritten(filterText: string)
    ensures ExpectModule(Undefined, filterText, None, true)
         == Expected([], Err("TypeError: Cannot read properties of undefined (reading 'name')"))
  {
    assert ToJsString(Undefined) == "undefined";
    assert PropertyOfNullish(Undefined, "name") == "TypeError: Cannot read properties of undefined (reading 'name')";
  }

  /**
   * With the options read as `{}`, the same call logs the error naming the
   * filter, with no fallback note, calls nothing and returns `undefined`.
   */
  lemma NoOptionsReportsQuery(filterText: string)
    ensures var r := ExpectModule(Undefined, filterText, None, false);
            r == Expected([LogError(ErrorMessage(NoOptions, filterText))], Ok(Undefined))
            && StartsWith(r.effects[0].message, "Module query with filter '" + filterText + "'")
            && FallbackMessage(NoOptions) == []
  {
    ErrorNamesModule(NoOptions, filterText);
  }
}
