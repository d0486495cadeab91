/**
 * src/config.ts: the configuration of the webpack build. `getBundleConfig`
 * reads bundlebd.config.json over the defaults and fills in `[plugin]`,
 * `getPluginConfig` reads the plugin's config.json and keeps only the known
 * metadata keys, and `getConfigs` derives from both the entry, the output
 * file and directory, the library format and the externals of the build.
 * Reading a JSON file is the parameter `readJson`: the parsed value of an
 * existing file, `None` for a missing one.
 */
module WebpackConfig {
  import opened Wrappers
  import opened Text
  import opened JsValues
  import opened Reports
  import opened Paths
  import opened FileChecks
  import SrcUtils
  import RollupConfig

  // ---- getBundleConfig ----

  /** The literal `defaultConfig`. */
  const DefaultBundleConfig: Record<JsValue> := [("entry", Str("src")), ("output", Str("dist"))]

  const PluginPlaceholder: string := "[plugin]"

  /** `argv.plugin` is truthy: given and not empty. */
  predicate PluginGiven(plugin: Option<string>) {
    plugin.Some? && plugin.value != []
  }

  function MissingPluginError(key: string): string {
    "The Bundler Configuration option '" + key + "' contains '[plugin],' but no Plugin argument was provided"
  }

  /** What `.includes` throws on a value that has no such method. */
  const IncludesTypeError: string := "TypeError: config[key].includes is not a function"

  /** What `parseString` throws when it is handed an array: arrays have no `replace`. */
  const ReplaceTypeError: string := "TypeError: prev.replace is not a function"

  function NullishTypeError(v: JsValue): string {
    "TypeError: Cannot read properties of " + ToJsString(v) + " (reading 'includes')"
  }

  /** `Object.assign(defaultConfig, parsed or {})`: the file's properties assigned onto the defaults. */
  function MergedBundleConfig(file: Option<JsValue>): Record<JsValue> {
    Spread(DefaultBundleConfig, if file.Some? then OwnProps(file.value) else [])
  }

  /** A string value that mentions the placeholder. */
  predicate NeedsPlugin(v: JsValue) {
    v.Str? && Contains(v.s, PluginPlaceholder)
  }

  /** `parseString(s, { plugin })` */
  function WithPlugin(s: string, plugin: string): string {
    SrcUtils.ParseString(s, [("plugin", plugin)], None)
  }

  /** What the loop body does with one property. */
  datatype KeyStep = Keep | Substitute(s: string) | Stop(error: string)

  /** The loop body on a string, the only kind of value the configuration is meant to hold. */
  function StringStep(key: string, s: string, plugin: Option<string>): KeyStep {
    if !Contains(s, PluginPlaceholder) then Keep
    else if PluginGiven(plugin) then Substitute(WithPlugin(s, plugin.value))
    else Stop(MissingPluginError(key))
  }

  /**
   * The loop body as written: `config[key].includes("[plugin]")` whatever the
   * value is. An array has `includes` (membership of the element), but then
   * `parseString` calls `replace` on it; `null` has no properties; a boolean,
   * number or object has no `includes`.
   */
  function StepAsWritten(key: string, v: JsValue, plugin: Option<string>): KeyStep {
    match v
    case Str(s) => StringStep(key, s, plugin)
    case Arr(items) =>
      if Str(PluginPlaceholder) !in items then Keep
      else if PluginGiven(plugin) then Stop(ReplaceTypeError)
      else Stop(MissingPluginError(key))
    case Undefined => Stop(NullishTypeError(v))
    case Null => Stop(NullishTypeError(v))
    case _ => Stop(IncludesTypeError)
  }

  /** The loop body with the evident guard: only string values are searched for the placeholder. */
  function Step(key: string, v: JsValue, plugin: Option<string>): KeyStep {
    if v.Str? then StringStep(key, v.s, plugin) else Keep
  }

  /** The configuration after the loop has visited the first `n` properties. */
  function ResolveBundleConfig(config: Record<JsValue>, n: nat, plugin: Option<string>, asWritten: bool)
    : (r: Resolved<Record<JsValue>>)
    requires n <= |config|
    ensures r.Resolved? ==> |r.value| == |config| && r.warnings == []
  {
    if n == 0 then Resolved(config, [])
    else
      match ResolveBundleConfig(config, n - 1, plugin, asWritten)
      case Fatal(w, e) => Fatal(w, e)
      case Resolved(c, w) =>
        var (key, v) := config[n - 1];
        match (if asWritten then StepAsWritten(key, v, plugin) else Step(key, v, plugin))
        case Keep => Resolved(c, w)
        case Substitute(s) => Resolved(c[n - 1 := (key, Str(s))], w)
        case Stop(e) => Fatal(w, e)
  }

  /** The bundle configuration, with the string guard. */
  function BundleConfig(file: Option<JsValue>, plugin: Option<string>): Resolved<Record<JsValue>> {
    var config := MergedBundleConfig(file);
    ResolveBundleConfig(config, |config|, plugin, false)
  }

  /** `getBundleConfig()`, given the parsed bundlebd.config.json and `argv.plugin`. */
  method GetBundleConfig(file: Option<JsValue>, plugin: Option<string>) returns (r: Resolved<Record<JsValue>>)
    ensures r == BundleConfig(file, plugin)
  {
    r := FillPlaceholders(MergedBundleConfig(file), plugin);
  }

  /**
   * The `for...in` loop of `getBundleConfig`. Assigning to the key the loop
   * is visiting replaces that property where it is.
   */
  method FillPlaceholders(merged: Record<JsValue>, plugin: Option<string>) returns (r: Resolved<Record<JsValue>>)
    ensures r == ResolveBundleConfig(merged, |merged|, plugin, false)
  {
    var config := merged;
    var i := 0;
    while i < |config|
      invariant |config| == |merged| && 0 <= i <= |config|
      invariant ResolveBundleConfig(merged, i, plugin, false) == Resolved(config, [])
    {
      // the loop has not assigned to this key yet, so its value is still the merged one
      var key := merged[i].0;
      var value := merged[i].1;
      if NeedsPlugin(value) {
        if !PluginGiven(plugin) {
          ResolveStops(merged, i, plugin, config);
          FatalIsFinal(merged, i + 1, |merged|, plugin, false);
          return Fatal([], MissingPluginError(key));
        }
        ResolveSubstitutes(merged, i, plugin, config);
        config := config[i := (key, Str(WithPlugin(value.s, plugin.value)))];
      } else {
        ResolveKeeps(merged, i, plugin, config);
      }
      i := i + 1;
    }
    r := Resolved(config, []);
  }

  /** A visit that keeps the property: its value does not mention the placeholder. */
  lemma ResolveKeeps(config: Record<JsValue>, i: nat, plugin: Option<string>, c: Record<JsValue>)
    requires i < |config| && ResolveBundleConfig(config, i, plugin, false) == Resolved(c, [])
    requires !NeedsPlugin(config[i].1)
    ensures ResolveBundleConfig(config, i + 1, plugin, false) == Resolved(c, [])
  {
  }

  /** A visit that fills in the plugin's name. */
  lemma ResolveSubstitutes(config: Record<JsValue>, i: nat, plugin: Option<string>, c: Record<JsValue>)
    requires i < |config| && ResolveBundleConfig(config, i, plugin, false) == Resolved(c, [])
    requires NeedsPlugin(config[i].1) && PluginGiven(plugin)
    ensures ResolveBundleConfig(config, i + 1, plugin, false)
         == Resolved(c[i := (config[i].0, Str(WithPlugin(config[i].1.s, plugin.value)))], [])
  {
  }

  /** A visit that stops the loop: the placeholder without a plugin argument. */
  lemma ResolveStops(config: Record<JsValue>, i: nat, plugin: Option<string>, c: Record<JsValue>)
    requires i < |config| && ResolveBundleConfig(config, i, plugin, false) == Resolved(c, [])
    requires NeedsPlugin(config[i].1) && !PluginGiven(plugin)
    ensures ResolveBundleConfig(config, i + 1, plugin, false) == Fatal([], MissingPluginError(config[i].0))
  {
  }

  /** Once the loop has stopped, later properties change nothing: the first fatal error is the result. */
  lemma {:induction false} FatalIsFinal(config: Record<JsValue>, m: nat, n: nat, plugin: Option<string>, asWritten: bool)
    requires m <= n <= |config|
    requires ResolveBundleConfig(config, m, plugin, asWritten).Fatal?
    ensures ResolveBundleConfig(config, n, plugin, asWritten) == ResolveBundleConfig(config, m, plugin, asWritten)
    decreases n - m
  {
    if m < n {
      FatalIsFinal(config, m + 1, n, plugin, asWritten);
    }
  }

  /** What a value becomes once the plugin's name is known. */
  function Substituted(v: JsValue, plugin: string): JsValue {
    if NeedsPlugin(v) then Str(WithPlugin(v.s, plugin)) else v
  }

  /** Index of the first property, among the first `n`, that needs the plugin's name. */
  function FirstNeedingPlugin(config: Record<JsValue>, n: nat): (r: Option<nat>)
    requires n <= |config|
    ensures r.Some? ==> r.value < n && NeedsPlugin(config[r.value].1)
  {
    if n == 0 then None
    else match FirstNeedingPlugin(config, n - 1)
      case Some(i) => Some(i)
      case None => if NeedsPlugin(config[n - 1].1) then Some(n - 1) else None
  }

  lemma {:induction false} FirstNeedingPluginIsFirst(config: Record<JsValue>, n: nat)
    requires n <= |config|
    ensures FirstNeedingPlugin(config, n).None? <==> forall i :: 0 <= i < n ==> !NeedsPlugin(config[i].1)
    ensures FirstNeedingPlugin(config, n).Some? ==>
      forall i :: 0 <= i < FirstNeedingPlugin(config, n).value ==> !NeedsPlugin(config[i].1)
  {
    if n > 0 {
      FirstNeedingPluginIsFirst(config, n - 1);
    }
  }

  /**
   * Without a plugin argument, the configuration is fatal exactly when some
   * string mentions `[plugin]`, and the error names the first such key;
   * otherwise it is the merged configuration unchanged.
   */
  lemma {:induction false} MissingPluginIsFatal(config: Record<JsValue>, n: nat, plugin: Option<string>)
    requires n <= |config| && !PluginGiven(plugin)
    ensures var r := ResolveBundleConfig(config, n, plugin, false);
            var first := FirstNeedingPlugin(config, n);
            (first.Some? ==> r == Fatal([], MissingPluginError(config[first.value].0)))
            && (first.None? ==> r == Resolved(config, []))
  {
    if n > 0 {
      MissingPluginIsFatal(config, n - 1, plugin);
    }
  }

  /** With a plugin argument, nothing is fatal and every string mentioning `[plugin]` has it filled in. */
  lemma {:induction false} PluginSubstituted(config: Record<JsValue>, n: nat, plugin: Option<string>)
    requires n <= |config| && PluginGiven(plugin)
    ensures ResolveBundleConfig(config, n, plugin, false).Resolved?
    ensures var c := ResolveBundleConfig(config, n, plugin, false).value;
            (forall i :: 0 <= i < n ==> c[i] == (config[i].0, Substituted(config[i].1, plugin.value)))
            && (forall i :: n <= i < |config| ==> c[i] == config[i])
  {
    if n > 0 {
      PluginSubstituted(config, n - 1, plugin);
    }
  }

  lemma StepAgreesOnString(key: string, v: JsValue, plugin: Option<string>)
    requires v.Str?
    ensures StepAsWritten(key, v, plugin) == Step(key, v, plugin)
  {
  }

  /** On a configuration of strings only, the guard changes nothing: the code as written agrees. */
  lemma {:induction false} GuardAgreesOnStrings(config: Record<JsValue>, n: nat, plugin: Option<string>)
    requires n <= |config|
    requires forall i :: 0 <= i < |config| ==> config[i].1.Str?
    ensures ResolveBundleConfig(config, n, plugin, true) == ResolveBundleConfig(config, n, plugin, false)
  {
    if n > 0 {
      GuardAgreesOnStrings(config, n - 1, plugin);
      StepAgreesOnString(config[n - 1].0, config[n - 1].1, plugin);
    }
  }

  /** The file's values take precedence over the defaults; other keys keep their defaults. */
  lemma FileOverridesDefaults(file: JsValue, k: string)
    requires Unique(OwnProps(file))
    ensures Get(MergedBundleConfig(Some(file)), k)
         == if HasKey(OwnProps(file), k) then Get(OwnProps(file), k) else Get(DefaultBundleConfig, k)
  {
    SpreadGet(DefaultBundleConfig, OwnProps(file), k);
  }

  /** The bundlebd.config.json `{"readme": true}`, which the README step reads as a flag. */
  const ReadmeFlagFile: JsValue := Obj([("readme", Bool(true))])

  lemma ReadmeFlagMerged()
    ensures MergedBundleConfig(Some(ReadmeFlagFile)) == DefaultBundleConfig + [("readme", Bool(true))]
  {
    assert Put(DefaultBundleConfig, "readme", Bool(true)) == DefaultBundleConfig + [("readme", Bool(true))];
  }

  /** The default values are too short to hold the placeholder. */
  lemma DefaultsNeedNoPlugin()
    ensures !Contains("src", PluginPlaceholder) && !Contains("dist", PluginPlaceholder)
  {
    assert IndexOf("src", PluginPlaceholder).None?;
    assert IndexOf("dist", PluginPlaceholder).None?;
  }

  /** As written, `{"readme": true}` crashes the configuration, with or without a plugin argument. */
  lemma ReadmeFlagCrashesAsWritten(plugin: Option<string>)
    ensures ResolveBundleConfig(MergedBundleConfig(Some(ReadmeFlagFile)), 3, plugin, true)
         == Fatal([], IncludesTypeError)
  {
    ReadmeFlagMerged();
    var c := DefaultBundleConfig + [("readme", Bool(true))];
    DefaultsNeedNoPlugin();
    assert ResolveBundleConfig(c, 1, plugin, true) == Resolved(c, []);
    assert ResolveBundleConfig(c, 2, plugin, true) == Resolved(c, []);
  }

  /** With the string guard, `{"readme": true}` is kept as the flag it is. */
  lemma ReadmeFlagAccepted(plugin: Option<string>)
    ensures BundleConfig(Some(ReadmeFlagFile), plugin)
         == Resolved(DefaultBundleConfig + [("readme", Bool(true))], [])
  {
    ReadmeFlagMerged();
    var c := DefaultBundleConfig + [("readme", Bool(true))];
    DefaultsNeedNoPlugin();
    assert ResolveBundleConfig(c, 1, plugin, false) == Resolved(c, []);
    assert ResolveBundleConfig(c, 2, plugin, false) == Resolved(c, []);
  }

  // ---- getPluginConfig ----

  /** The literal `defaultMeta`. */
  const DefaultMeta: Record<JsValue> := [
    ("name", Str("Plugin")), ("author", Str("Unknown")),
    ("description", Str("Plugin bundled with BundleBD")), ("version", Str("1.0.0"))
  ]

  /** `acceptedMetaKeys` */
  const AcceptedMetaKeys: seq<string> := [
    "name", "author", "description", "version", "invite", "authorId",
    "authorLink", "donate", "patreon", "website", "source", "updateUrl"
  ]

  function InvalidMetaWarning(key: string): string {
    "Invalid meta key '" + key + "' in config.json"
  }

  const ChangelogWarning: string := "Changelogs are currently only supported for plugins using ZLibrary"

  /** What reading `.meta` of a parsed `null` throws. */
  const NullConfigError: string := "TypeError: Cannot read properties of null (reading 'meta')"

  /** The metadata after the loop has visited the first `n` of `keys`: each key not accepted is deleted. */
  function FilterMeta(meta: Record<JsValue>, keys: seq<string>, n: nat): Record<JsValue>
    requires n <= |keys|
  {
    if n == 0 then meta
    else
      var m := FilterMeta(meta, keys, n - 1);
      if keys[n - 1] in AcceptedMetaKeys then m else Delete(m, keys[n - 1])
  }

  /** The warnings the loop has printed after the first `n` of `keys`. */
  function InvalidMetaWarnings(keys: seq<string>, n: nat): seq<string>
    requires n <= |keys|
  {
    if n == 0 then []
    else InvalidMetaWarnings(keys, n - 1) + if keys[n - 1] in AcceptedMetaKeys then [] else [InvalidMetaWarning(keys[n - 1])]
  }

  /** `Object.assign(defaultMeta, config.meta)` */
  function MergedMeta(config: JsValue): Record<JsValue> {
    Spread(DefaultMeta, OwnProps(Member(config, "meta")))
  }

  function ChangelogWarnings(config: JsValue): seq<string> {
    if Truthy(Member(config, "changelog")) && !Truthy(Member(config, "zlibrary")) then [ChangelogWarning] else []
  }

  /** The plugin configuration, from the parsed config.json or its absence. */
  function PluginConfig(configJson: Option<JsValue>): Resolved<Record<JsValue>> {
    match configJson
    case None => Resolved([("meta", Obj(DefaultMeta))], [])
    case Some(config) =>
      if config.Null? then Fatal([], NullConfigError)
      else
        var meta := MergedMeta(config);
        var keys := Keys(meta);
        Resolved(Spread(OwnProps(config), [("meta", Obj(FilterMeta(meta, keys, |keys|)))]),
                 InvalidMetaWarnings(keys, |keys|) + ChangelogWarnings(config))
  }

  /** The `for...in` loop over the merged metadata: it warns about and deletes every key not accepted. */
  method DeleteInvalidKeys(merged: Record<JsValue>) returns (meta: Record<JsValue>, warnings: seq<string>)
    ensures meta == FilterMeta(merged, Keys(merged), |Keys(merged)|)
    ensures warnings == InvalidMetaWarnings(Keys(merged), |Keys(merged)|)
  {
    var keys := Keys(merged);
    meta := merged;
    warnings := [];
    var i := 0;
    while i < |keys|
      invariant 0 <= i <= |keys|
      invariant meta == FilterMeta(merged, keys, i)
      invariant warnings == InvalidMetaWarnings(keys, i)
    {
      if keys[i] !in AcceptedMetaKeys {
        warnings := warnings + [InvalidMetaWarning(keys[i])];
        meta := Delete(meta, keys[i]);
      }
      i := i + 1;
    }
  }

  /** `getPluginConfig(entry)`, given the parsed config.json of the entry directory. */
  method GetPluginConfig(configJson: Option<JsValue>) returns (r: Resolved<Record<JsValue>>)
    ensures r == PluginConfig(configJson)
  {
    if configJson.None? {
      return Resolved([("meta", Obj(DefaultMeta))], []);
    }
    var config := configJson.value;
    if config.Null? {
      return Fatal([], NullConfigError);
    }
    var meta, warnings := DeleteInvalidKeys(MergedMeta(config));
    if Truthy(Member(config, "changelog")) && !Truthy(Member(config, "zlibrary")) {
      warnings := warnings + [ChangelogWarning];
    }
    r := Resolved(Spread(OwnProps(config), [("meta", Obj(meta))]), warnings);
  }

  /** A key is deleted once the loop has visited it and it is not accepted; every other key keeps its value. */
  lemma {:induction false} FilterMetaGet(meta: Record<JsValue>, keys: seq<string>, n: nat, k: string)
    requires n <= |keys|
    ensures Get(FilterMeta(meta, keys, n), k)
         == if k !in AcceptedMetaKeys && k in keys[..n] then None else Get(meta, k)
  {
    if n > 0 {
      FilterMetaGet(meta, keys, n - 1, k);
      assert keys[..n] == keys[..n - 1] + [keys[n - 1]];
    }
  }

  /** After the loop, the metadata has exactly the accepted keys it had, with their values. */
  lemma MetaKeepsOnlyAccepted(meta: Record<JsValue>, k: string)
    ensures Get(FilterMeta(meta, Keys(meta), |Keys(meta)|), k)
         == if k in AcceptedMetaKeys then Get(meta, k) else None
  {
    KeysHasKey(meta, k);
    FilterMetaGet(meta, Keys(meta), |Keys(meta)|, k);
    assert Keys(meta)[..|Keys(meta)|] == Keys(meta);
  }

  /** The four required fields are accepted keys of the defaults. */
  lemma DefaultMetaRequired(k: string)
    requires k == "name" || k == "author" || k == "description" || k == "version"
    ensures k in AcceptedMetaKeys && HasKey(DefaultMeta, k)
  {
    var t1 := DefaultMeta[1..];
    var t2 := t1[1..];
    assert t2[1..] == [("version", Str("1.0.0"))];
  }

  /**
   * The metadata always has a name, author, description and version: the
   * config.json's value when it has one, the default otherwise.
   */
  lemma MetaAlwaysComplete(config: JsValue, k: string)
    requires k == "name" || k == "author" || k == "description" || k == "version"
    requires Unique(OwnProps(Member(config, "meta")))
    ensures var meta := MergedMeta(config);
            var kept := FilterMeta(meta, Keys(meta), |Keys(meta)|);
            HasKey(kept, k)
            && Get(kept, k) == if HasKey(OwnProps(Member(config, "meta")), k)
                               then Get(OwnProps(Member(config, "meta")), k) else Get(DefaultMeta, k)
  {
    DefaultMetaRequired(k);
    MetaKeepsOnlyAccepted(MergedMeta(config), k);
    SpreadGet(DefaultMeta, OwnProps(Member(config, "meta")), k);
  }

  /** The warning names its key, so different keys give different warnings. */
  lemma WarningNamesKey(k1: string, k2: string)
    requires InvalidMetaWarning(k1) == InvalidMetaWarning(k2)
    ensures k1 == k2
  {
    var w := InvalidMetaWarning(k1);
    assert |k1| == |k2|;
    assert k1 == w[18..18 + |k1|];
    assert k2 == InvalidMetaWarning(k2)[18..18 + |k2|];
  }

  /** A warning is printed exactly for each visited key that is not accepted. */
  lemma {:induction false} WarnedExactlyInvalid(keys: seq<string>, n: nat, k: string)
    requires n <= |keys|
    ensures InvalidMetaWarning(k) in InvalidMetaWarnings(keys, n) <==> k in keys[..n] && k !in AcceptedMetaKeys
  {
    if n > 0 {
      WarnedExactlyInvalid(keys, n - 1, k);
      assert keys[..n] == keys[..n - 1] + [keys[n - 1]];
      if InvalidMetaWarning(k) == InvalidMetaWarning(keys[n - 1]) {
        WarningNamesKey(k, keys[n - 1]);
      }
    }
  }

  /** Without config.json the plugin configuration is the default metadata alone, with no warning. */
  lemma NoConfigJsonDefaults()
    ensures PluginConfig(None) == Resolved([("meta", Obj(DefaultMeta))], [])
    ensures Member(Prop(PluginConfig(None).value, "meta"), "name") == Str("Plugin")
  {
  }

  // ---- getConfigs ----

  /** `output.library` */
  datatype Library = AssignTo(name: string) | CommonJs2(exportName: string)

  /** The settings of the webpack configuration that depend on the inputs. */
  datatype WebpackSettings = WebpackSettings(
    watch: bool,
    entry: string,
    filename: string,
    outputPath: string,
    library: Library,
    externals: Record<string>,
    localIdentName: string)

  datatype Configs = Configs(webpack: WebpackSettings, plugin: Record<JsValue>, bundle: Record<JsValue>)

  function EntryDirMessage(entryDir: string): string {
    "Cannot find entry directory '" + entryDir + "'"
  }

  /** What `meta.name.replace` throws for a name that is not a string. */
  const NameTypeError: string := "TypeError: pluginConfig.meta.name.replace is not a function"

  /** `argv.development ? bundleConfig.devOutput ?? bundleConfig.output : bundleConfig.output` */
  function OutputDirectory(development: bool, bundle: Record<JsValue>): (r: JsValue)
    ensures !development ==> r == Prop(bundle, "output")
    ensures development && !Nullish(Prop(bundle, "devOutput")) ==> r == Prop(bundle, "devOutput")
    ensures development && Nullish(Prop(bundle, "devOutput")) ==> r == Prop(bundle, "output")
  {
    if development then Coalesce(Prop(bundle, "devOutput"), Prop(bundle, "output")) else Prop(bundle, "output")
  }

  /** `name.replace(/\s/g, "") + ".plugin.js"` */
  function OutputFilename(name: string): (r: string)
    ensures EndsWith(r, ".plugin.js")
    ensures forall i :: 0 <= i < |r| - 10 ==> !IsWhitespace(r[i])
  {
    var base := RemoveWhitespace(name);
    assert (base + ".plugin.js")[|base|..] == ".plugin.js";
    base + ".plugin.js"
  }

  /** The object `externals`: the global each import is taken from. */
  function Externals(name: string): Record<string> {
    [("react", "var BdApi.React"), ("react-dom", "var BdApi.ReactDOM"), ("zlibrary", "var Library"),
     ("zlibrary/plugin", "var BasePlugin"), ("pluginName", "var \"" + name + "\""), ("betterdiscord", "var BdApi")]
  }

  /** The plugin's name as the configuration reads it: `pluginConfig.meta.name`. */
  function PluginName(plugin: Record<JsValue>): JsValue {
    Member(Prop(plugin, "meta"), "name")
  }

  /** The webpack configuration's object literal, evaluated in the order of its properties. */
  function Settings(api: PathApi, development: bool, entryDir: string, bundle: Record<JsValue>, plugin: Record<JsValue>)
    : Result<WebpackSettings, string>
  {
    var entry := Prop(plugin, "entry");
    var name := PluginName(plugin);
    var out := OutputDirectory(development, bundle);
    if Truthy(entry) && !entry.Str? then Err(RollupConfig.PathTypeError(entry))
    else if !name.Str? then Err(NameTypeError)
    else if !out.Str? then Err(RollupConfig.PathTypeError(out))
    else
      Ok(WebpackSettings(
        development,
        if Truthy(entry) then JoinPath(api, entryDir, entry.s) else entryDir,
        OutputFilename(name.s),
        api.resolve(out.s),
        if Truthy(Prop(plugin, "zlibrary")) then AssignTo("Plugin") else CommonJs2("default"),
        Externals(name.s),
        name.s + "-[name]-[local]"))
  }

  /** `getConfigs()`: the three configurations, or the first fatal error. */
  function ConfigsOf(api: PathApi, fs: FileSystem, cwd: string, readJson: string -> Option<JsValue>, argv: SrcUtils.Argv)
    : Resolved<Configs>
  {
    match BundleConfig(readJson(JoinPath(api, cwd, "bundlebd.config.json")), argv.plugin)
    case Fatal(w, e) => Fatal(w, e)
    case Resolved(bundle, w) =>
      var entry := Prop(bundle, "entry");
      if !entry.Str? then Fatal(w, RollupConfig.PathTypeError(entry))
      else
        var entryDir := JoinPath(api, cwd, entry.s);
        if !CheckDirExists(fs, entryDir) then Fatal(w, EntryDirMessage(entryDir))
        else
          match PluginConfig(readJson(JoinPath(api, entryDir, "config.json")))
          case Fatal(w2, e) => Fatal(w + w2, e)
          case Resolved(plugin, w2) =>
            match Settings(api, argv.development, entryDir, bundle, plugin)
            case Err(e) => Fatal(w + w2, e)
            case Ok(settings) => Resolved(Configs(settings, plugin, bundle), w + w2)
  }

  /** `getConfigs()` step by step: the bundle configuration, the entry directory check, the plugin configuration. */
  method GetConfigs(api: PathApi, fs: FileSystem, cwd: string, readJson: string -> Option<JsValue>, argv: SrcUtils.Argv)
    returns (r: Resolved<Configs>)
    ensures r == ConfigsOf(api, fs, cwd, readJson, argv)
  {
    var bundle := GetBundleConfig(readJson(JoinPath(api, cwd, "bundlebd.config.json")), argv.plugin);
    if bundle.Fatal? {
      return Fatal(bundle.warnings, bundle.error);
    }
    var entry := Prop(bundle.value, "entry");
    if !entry.Str? {
      return Fatal(bundle.warnings, RollupConfig.PathTypeError(entry));
    }
    var entryDir := JoinPath(api, cwd, entry.s);
    var check := EnsureDirExists(fs, entryDir, Some(EntryDirMessage(entryDir)));
    if check.Fail? {
      return Fatal(bundle.warnings, check.error);
    }
    var plugin := GetPluginConfig(readJson(JoinPath(api, entryDir, "config.json")));
    if plugin.Fatal? {
      return Fatal(bundle.warnings + plugin.warnings, plugin.error);
    }
    var settings := Settings(api, argv.development, entryDir, bundle.value, plugin.value);
    if settings.Err? {
      return Fatal(bundle.warnings + plugin.warnings, settings.error);
    }
    r := Resolved(Configs(settings.value, plugin.value, bundle.value), bundle.warnings + plugin.warnings);
  }

  /** A missing entry directory stops the build, with the message naming it. */
  lemma MissingEntryDirIsFatal(api: PathApi, fs: FileSystem, cwd: string, readJson: string -> Option<JsValue>,
                               argv: SrcUtils.Argv)
    requires var b := BundleConfig(readJson(JoinPath(api, cwd, "bundlebd.config.json")), argv.plugin);
             b.Resolved? && Prop(b.value, "entry").Str?
             && !CheckDirExists(fs, JoinPath(api, cwd, Prop(b.value, "entry").s))
    ensures var b := BundleConfig(readJson(JoinPath(api, cwd, "bundlebd.config.json")), argv.plugin);
            ConfigsOf(api, fs, cwd, readJson, argv) == Fatal([], EntryDirMessage(JoinPath(api, cwd, Prop(b.value, "entry").s)))
  {
  }

  /**
   * The derived settings: the output file is the name without whitespace with
   * `.plugin.js`, the output directory is `devOutput` only in development and
   * only when set, the library is assigned to `Plugin` exactly for ZLibrary
   * plugins, and the entry is the entry directory unless config.json names one.
   */
  lemma SettingsDerived(api: PathApi, development: bool, entryDir: string, bundle: Record<JsValue>, plugin: Record<JsValue>)
    requires Settings(api, development, entryDir, bundle, plugin).Ok?
    ensures var s := Settings(api, development, entryDir, bundle, plugin).value;
            var name := PluginName(plugin).s;
            s.filename == RemoveWhitespace(name) + ".plugin.js"
            && s.watch == development
            && (development && Prop(bundle, "devOutput").Str? ==> s.outputPath == api.resolve(Prop(bundle, "devOutput").s))
            && (!development ==> s.outputPath == api.resolve(Prop(bundle, "output").s))
            && (s.library.AssignTo? <==> Truthy(Prop(plugin, "zlibrary")))
            && (!Truthy(Prop(plugin, "entry")) ==> s.entry == entryDir)
            && (Truthy(Prop(plugin, "entry")) ==> s.entry == JoinPath(api, entryDir, Prop(plugin, "entry").s))
            && Get(s.externals, "pluginName") == Some("var \"" + name + "\"")
  {
    var s := Settings(api, development, entryDir, bundle, plugin).value;
    GetIndex(s.externals, 4);
  }
}
