/**
 * src/bin/config/rollup.ts, the older rollup configuration: the same entry
 * and output checks and the same replacement table, with more globals (the
 * metadata object and ZeresPluginLibrary's exports), an `iife` bundle for
 * ZeresPluginLibrary plugins, the derived CSS-module class name only, and
 * module comments always on.
 */
module LegacyRollupConfig {
  import opened Wrappers
  import opened Text
  import opened JsValues
  import opened Paths
  import opened RollupConfig

  /**
   * The globals of the older version. `metaSource` is `stringify(meta)`;
   * src/bin/utils.ts is not part of this model, so that text is a parameter.
   */
  function LegacyGlobals(pluginName: string, metaSource: string): Record<string> {
    [("betterdiscord", "new BdApi(\"" + pluginName + "\")"),
     ("meta", metaSource),
     ("zlibrary", "Library"),
     ("zlibrary/plugin", "BasePlugin"),
     ("react", "BdApi.React"),
     ("react-dom", "BdApi.ReactDOM"),
     ("lodash", "_")]
  }

  /** `getRollupConfig(options, pluginConfig, meta)` of the older version. */
  function LegacyGetRollupConfig(env: Env, options: Record<JsValue>, pluginConfig: Record<JsValue>,
                                 meta: Record<JsValue>, metaSource: string): Result<RollupOptions, string> {
    var name := Prop(meta, "name");
    var globals := LegacyGlobals(ToJsString(name), metaSource);
    match EntryPaths(env, options, pluginConfig)
    case Err(e) => Err(e)
    case Ok((entryDir, entryPath)) =>
      match OutputFile(env, options, name, "meta.name")
      case Err(e) => Err(e)
      case Ok((file, createsOutputDir)) =>
        Ok(RollupOptions(
          entryPath,
          file,
          if Truthy(Prop(pluginConfig, "zlibrary")) then "iife" else "cjs",
          OutputGlobals(globals, Polyfilled),
          External(globals, Polyfilled),
          Derived(ToJsString(name)),
          ReplaceOptions(Delimiters, true, ReplacedUpTo(globals, |globals|)),
          Some((entryDir, Undefined)),
          None,
          createsOutputDir))
  }

  /**
   * The older configuration fails exactly where the later one's path stages
   * do; a configuration is an `iife` bundle exactly for ZeresPluginLibrary
   * plugins, always derives CSS-module class names, always comments modules
   * and never aliases imports.
   */
  lemma LegacyConfigShape(env: Env, options: Record<JsValue>, pluginConfig: Record<JsValue>,
                          meta: Record<JsValue>, metaSource: string)
    ensures var r := LegacyGetRollupConfig(env, options, pluginConfig, meta, metaSource);
      var entry := EntryPaths(env, options, pluginConfig);
      var out := OutputFile(env, options, Prop(meta, "name"), "meta.name");
      (r.Ok? <==> entry.Ok? && out.Ok?)
      && (entry.Err? ==> r == Err(entry.error))
      && (entry.Ok? && out.Err? ==> r == Err(out.error))
    ensures var r := LegacyGetRollupConfig(env, options, pluginConfig, meta, metaSource);
      r.Ok? ==>
        (r.value.format == "iife" <==> Truthy(Prop(pluginConfig, "zlibrary")))
        && (r.value.format == "cjs" <==> !Truthy(Prop(pluginConfig, "zlibrary")))
        && r.value.scopedName.Derived?
        && r.value.moduleComments.Some? && r.value.aliases.None?
  {
  }

  /** The older configuration writes `<output dir>/<name without white space>.plugin.js` as well. */
  lemma LegacyOutputPath(env: Env, options: Record<JsValue>, pluginConfig: Record<JsValue>,
                         meta: Record<JsValue>, metaSource: string)
    requires LegacyGetRollupConfig(env, options, pluginConfig, meta, metaSource).Ok?
    ensures Prop(meta, "name").Str? && Prop(options, "output").Str?
    ensures LegacyGetRollupConfig(env, options, pluginConfig, meta, metaSource).value.file
            == JoinPath(env.api, env.cwd, Prop(options, "output").s) + [env.api.sep]
               + (RemoveWhitespace(Prop(meta, "name").s) + ".plugin.js")
  {
    OutputFileNamed(env, options, Prop(meta, "name"), "meta.name");
  }

  /** None of the older globals is a polyfilled built-in. */
  lemma LegacyGlobalsNotPolyfilled(pluginName: string, metaSource: string, i: nat)
    requires i < |LegacyGlobals(pluginName, metaSource)|
    ensures LegacyGlobals(pluginName, metaSource)[i].0 !in Polyfilled
  {
  }

  /** Each older global keeps its value in the output globals. */
  lemma LegacyGlobalAt(pluginName: string, metaSource: string, i: nat)
    requires i < |LegacyGlobals(pluginName, metaSource)|
    ensures var globals := LegacyGlobals(pluginName, metaSource);
      Get(OutputGlobals(globals, Polyfilled), globals[i].0) == Some(globals[i].1)
  {
    var globals := LegacyGlobals(pluginName, metaSource);
    GetIndex(globals, i);
    LegacyGlobalsNotPolyfilled(pluginName, metaSource, i);
    ExternalsHaveGlobals(globals, Polyfilled, globals[i].0);
  }

  /** The older globals map ZeresPluginLibrary, its plugin base class, lodash and the metadata. */
  lemma LegacyGlobalValues(pluginName: string, metaSource: string)
    ensures var g := OutputGlobals(LegacyGlobals(pluginName, metaSource), Polyfilled);
      Get(g, "zlibrary") == Some("Library")
      && Get(g, "zlibrary/plugin") == Some("BasePlugin")
      && Get(g, "lodash") == Some("_")
      && Get(g, "meta") == Some(metaSource)
  {
    LegacyGlobalAt(pluginName, metaSource, 1);
    LegacyGlobalAt(pluginName, metaSource, 2);
    LegacyGlobalAt(pluginName, metaSource, 3);
    LegacyGlobalAt(pluginName, metaSource, 6);
  }
}
