/**
 * src/bin/index.ts, lines 22-93: the earlier command-line and config-file
 * handling, before it moved to bin/config/bundler.ts. Flag values stay raw
 * strings, the config function receives only the plugin name, and there is
 * no `format` option.
 */
module LegacyCli {
  import opened Wrappers
  import opened JsValues
  import opened Reports
  import BundlerOptions

  const LegacyConfigOptionKeys: seq<string> := ["input", "output", "bdPath", "postcssPlugins"]

  /** The property that the token at `i` writes: as the later parser, but the value is never coerced. */
  function LegacyAssignment(argv: seq<string>, i: nat): Option<(string, JsValue)>
    requires i < |argv|
  {
    var curr := argv[i];
    if !BundlerOptions.IsFlag(curr) then
      if i == 0 then Some(("input", Str(curr))) else None
    else
      var key := BundlerOptions.CamelCase(curr[2..]);
      if key in BundlerOptions.ArgOptionKeys && i + 1 < |argv| && argv[i + 1] != "" && !BundlerOptions.IsFlag(argv[i + 1]) then
        Some((key, Str(argv[i + 1])))
      else if key in BundlerOptions.ArgOptionKeys then Some((key, Bool(true)))
      else None
  }

  /** The options object the legacy `reduce` has built after the first `n` tokens. */
  function LegacyArgsObject(argv: seq<string>, n: nat): Record<JsValue>
    requires n <= |argv|
  {
    if n == 0 then [] else Assign(LegacyArgsObject(argv, n - 1), LegacyAssignment(argv, n - 1))
  }

  /** The legacy `reduce` over the first `n` tokens; its warnings are those of the later parser. */
  function LegacyArgsUpTo(argv: seq<string>, n: nat): (Record<JsValue>, seq<string>)
    requires n <= |argv|
  {
    (LegacyArgsObject(argv, n), BundlerOptions.ArgWarnings(argv, n))
  }

  /** The legacy `reduce` callback for the token at `i`. */
  method LegacyReduceStep(argv: seq<string>, i: nat, obj: Record<JsValue>, warnings: seq<string>)
    returns (obj': Record<JsValue>, warnings': seq<string>)
    requires i < |argv|
    ensures obj' == Assign(obj, LegacyAssignment(argv, i))
    ensures warnings' == warnings + BundlerOptions.Listed(BundlerOptions.ArgWarning(argv, i))
  {
    obj', warnings' := obj, warnings;
    var curr := argv[i];
    if !BundlerOptions.IsFlag(curr) && i == 0 {
      obj' := Put(obj', "input", Str(curr));
    }
    if BundlerOptions.IsFlag(curr) {
      var option := curr[2..];
      var key := BundlerOptions.CamelCase(option);
      if key in BundlerOptions.ArgOptionKeys && i + 1 < |argv| && argv[i + 1] != "" && !BundlerOptions.IsFlag(argv[i + 1]) {
        obj' := Put(obj', key, Str(argv[i + 1]));
      } else if key in BundlerOptions.ArgOptionKeys {
        obj' := Put(obj', key, Bool(true));
      } else {
        warnings' := warnings' + ["Unknown command option '" + option + "'"];
      }
    }
  }

  /** `argv.reduce(callback, {})` of the earlier entry point. */
  method LegacyParseArgs(argv: seq<string>) returns (obj: Record<JsValue>, warnings: seq<string>)
    ensures (obj, warnings) == LegacyArgsUpTo(argv, |argv|)
  {
    obj, warnings := [], [];
    var i := 0;
    while i < |argv|
      invariant 0 <= i <= |argv|
      invariant (obj, warnings) == LegacyArgsUpTo(argv, i)
    {
      obj, warnings := LegacyReduceStep(argv, i, obj, warnings);
      i := i + 1;
    }
  }

  /** What the later parser adds: a `"true"`/`"false"` value becomes a boolean. */
  function CoerceWrite(w: Option<(string, JsValue)>): Option<(string, JsValue)> {
    match w
    case Some((k, Str(s))) => Some((k, BundlerOptions.Coerce(s)))
    case _ => w
  }

  /** Token by token, the later parser is the earlier one with flag values coerced. */
  lemma AssignmentIsCoercedLegacy(argv: seq<string>, i: nat)
    requires i < |argv|
    ensures BundlerOptions.Assignment(argv, i)
            == if BundlerOptions.IsFlag(argv[i]) then CoerceWrite(LegacyAssignment(argv, i)) else LegacyAssignment(argv, i)
  {
  }

  /** Both parsers set the same keys. */
  lemma {:induction false} SameKeysAsLater(argv: seq<string>, n: nat, k: string)
    requires n <= |argv|
    ensures HasKey(LegacyArgsObject(argv, n), k) <==> HasKey(BundlerOptions.ArgsObject(argv, n), k)
  {
    if n > 0 {
      SameKeysAsLater(argv, n - 1, k);
      AssignmentIsCoercedLegacy(argv, n - 1);
      var legacy := LegacyArgsObject(argv, n - 1);
      var later := BundlerOptions.ArgsObject(argv, n - 1);
      match LegacyAssignment(argv, n - 1)
      case Some(kv) =>
        PutHasKey(legacy, kv.0, kv.1, k);
        var w := BundlerOptions.Assignment(argv, n - 1).value;
        PutHasKey(later, w.0, w.1, k);
      case None =>
    }
  }

  /** The earlier config file: an object, or a function of the plugin name alone. */
  datatype LegacyConfigModule =
    | LegacyConfigObject(value: JsValue)
    | LegacyConfigFunction(call: JsValue -> JsValue)

  function LegacyConfigValue(config: LegacyConfigModule, args: Record<JsValue>): (v: JsValue)
    ensures config.LegacyConfigFunction? ==> v == config.call(Prop(args, "plugin"))
    ensures config.LegacyConfigObject? ==> v == config.value
  {
    match config
    case LegacyConfigObject(value) => value
    case LegacyConfigFunction(call) => call(Prop(args, "plugin"))
  }

  function LegacyUnknownConfigWarnings(keys: seq<string>): (ws: seq<string>)
    ensures |ws| <= |keys|
  {
    if keys == [] then []
    else
      (if keys[0] in LegacyConfigOptionKeys then [] else ["Unknown option '" + keys[0] + "' in bundlebd.config.js"])
      + LegacyUnknownConfigWarnings(keys[1..])
  }

  /** The earlier config checks: unknown keys warned about and kept, a falsy `input` or `output` fatal. */
  function LegacyProcessConfig(config: JsValue): (r: Resolved<Record<JsValue>>)
    ensures Nullish(config) ==> r.Fatal?
    ensures !Nullish(config) ==> r.Printed() == LegacyUnknownConfigWarnings(Keys(OwnProps(config)))
    ensures r.Fatal? && !Nullish(config) ==>
      (HasKey(OwnProps(config), "input") && !Truthy(Prop(OwnProps(config), "input")))
      || (HasKey(OwnProps(config), "output") && !Truthy(Prop(OwnProps(config), "output")))
    ensures !Nullish(config)
            && ((HasKey(OwnProps(config), "input") && !Truthy(Prop(OwnProps(config), "input")))
                || (HasKey(OwnProps(config), "output") && !Truthy(Prop(OwnProps(config), "output"))))
            ==> r.Fatal?
    ensures r.Resolved? ==> r.value == OwnProps(config)
  {
    if Nullish(config) then
      Fatal([], "TypeError: Cannot read properties of " + ToJsString(config) + " (reading 'hasOwnProperty')")
    else
      var props := OwnProps(config);
      var warnings := LegacyUnknownConfigWarnings(Keys(props));
      if HasKey(props, "input") && !Truthy(Prop(props, "input")) then
        Fatal(warnings, "The 'input' option cannot be undefined.")
      else if HasKey(props, "output") && !Truthy(Prop(props, "output")) then
        Fatal(warnings, "The 'output' option cannot be undefined.")
      else Resolved(props, warnings)
  }

  function LegacyDefaultOptions(platformBdPath: Option<string>): Record<JsValue> {
    [("input", Str("src")), ("output", Str("dist")), ("dev", Bool(false))]
    + match platformBdPath
      case Some(p) => [("bdPath", Str(p))]
      case None => []
  }

  /** `{ ...defaultOptions, ...configOptions, ...argOptions }` of the earlier entry point. */
  function LegacyOptions(argv: seq<string>, configFile: Option<LegacyConfigModule>, platformBdPath: Option<string>)
    : (r: Resolved<Record<JsValue>>)
    ensures configFile.None? ==>
      r == Resolved(Spread(LegacyDefaultOptions(platformBdPath), LegacyArgsUpTo(argv, |argv|).0), LegacyArgsUpTo(argv, |argv|).1)
  {
    var (args, argWarnings) := LegacyArgsUpTo(argv, |argv|);
    match configFile
    case None => Resolved(Spread(LegacyDefaultOptions(platformBdPath), args), argWarnings)
    case Some(cfgModule) =>
      match LegacyProcessConfig(LegacyConfigValue(cfgModule, args))
      case Fatal(w, e) => Fatal(argWarnings + w, e)
      case Resolved(config, w) => Resolved(Spread(Spread(LegacyDefaultOptions(platformBdPath), config), args), argWarnings + w)
  }

  lemma {:induction false} LegacyArgsUnique(argv: seq<string>, n: nat)
    requires n <= |argv|
    ensures Unique(LegacyArgsObject(argv, n))
  {
    if n > 0 {
      LegacyArgsUnique(argv, n - 1);
      match LegacyAssignment(argv, n - 1)
      case Some(kv) => PutUnique(LegacyArgsObject(argv, n - 1), kv.0, kv.1);
      case None =>
    }
  }

  /** A config file that sets `input` or `output` to a falsy value stops the earlier run too. */
  lemma LegacyFalsyPathIsFatal(argv: seq<string>, cfgModule: LegacyConfigModule, platformBdPath: Option<string>, key: string)
    requires key == "input" || key == "output"
    requires var config := LegacyConfigValue(cfgModule, LegacyArgsUpTo(argv, |argv|).0);
             !Nullish(config) && HasKey(OwnProps(config), key) && !Truthy(Prop(OwnProps(config), key))
    ensures LegacyOptions(argv, Some(cfgModule), platformBdPath).Fatal?
  {
  }

  /** Precedence: command line over config file over defaults. */
  lemma LegacyPrecedence(argv: seq<string>, cfgModule: LegacyConfigModule, platformBdPath: Option<string>, k: string)
    requires Unique(OwnProps(LegacyConfigValue(cfgModule, LegacyArgsUpTo(argv, |argv|).0)))
    requires LegacyOptions(argv, Some(cfgModule), platformBdPath).Resolved?
    ensures var args := LegacyArgsUpTo(argv, |argv|).0;
            var config := OwnProps(LegacyConfigValue(cfgModule, args));
            Get(LegacyOptions(argv, Some(cfgModule), platformBdPath).value, k)
            == if HasKey(args, k) then Get(args, k)
               else if HasKey(config, k) then Get(config, k)
               else Get(LegacyDefaultOptions(platformBdPath), k)
  {
    var args := LegacyArgsUpTo(argv, |argv|).0;
    var config := OwnProps(LegacyConfigValue(cfgModule, args));
    LegacyArgsUnique(argv, |argv|);
    SpreadGet(Spread(LegacyDefaultOptions(platformBdPath), config), args, k);
    SpreadGet(LegacyDefaultOptions(platformBdPath), config, k);
  }
}
