/**
 * src/bin/index.ts, the earlier rollup entry point: the same start-up and
 * build steps as bin/index.ts, with a fixed tab indent, templates that take
 * no indent, and `pluginConfig.zlibrary` read from the plugin's own
 * configuration file.
 */
module LegacyBundle {
  import opened Wrappers
  import opened JsValues
  import opened Reports
  import opened RollupConfig
  import opened LegacyCli
  import opened Bundle
  import opened MetaTemplate

  /** `--version` first prints the version; anything else resolves the options. */
  function LegacyStart(argv: seq<string>, version: string, configFile: Option<LegacyConfigModule>,
                       platformBdPath: Option<string>): (r: Launch)
    ensures |argv| > 0 && argv[0] == "--version" ==> r == ShowVersion("v" + version)
    ensures !(|argv| > 0 && argv[0] == "--version") ==> r == Build(LegacyOptions(argv, configFile, platformBdPath))
  {
    if |argv| > 0 && argv[0] == "--version" then ShowVersion("v" + version)
    else Build(LegacyOptions(argv, configFile, platformBdPath))
  }

  /**
   * The templates of src/bin/templates that are not part of this model: the
   * library wrapper (code, metadata, `pluginConfig.zlibrary`) and the install
   * script.
   */
  datatype LegacyTemplates = LegacyTemplates(
    zlibrary: (string, Record<JsValue>, JsValue) -> string,
    installScript: string -> string)

  /** The wrapping order: the library wrapper, the install script, then the metadata header of src/bin/templates/meta.ts. */
  function LegacyWrapped(code: string, pluginMeta: Record<JsValue>, zlibrary: JsValue, installScript: JsValue,
                         t: LegacyTemplates): string {
    var withLibrary := if Truthy(zlibrary) then t.zlibrary(code, pluginMeta, zlibrary) else code;
    var withInstaller := if Truthy(installScript) then t.installScript(withLibrary) else withLibrary;
    Meta(withInstaller, pluginMeta)
  }

  /** The wrapping steps of the earlier `bundle()`. */
  method LegacyWrap(post: string, pluginMeta: Record<JsValue>, zlibrary: JsValue, installScript: JsValue,
                    t: LegacyTemplates) returns (code: string)
    ensures code == LegacyWrapped(post, pluginMeta, zlibrary, installScript, t)
  {
    code := post;
    if Truthy(zlibrary) {
      code := t.zlibrary(code, pluginMeta, zlibrary);
    }
    if Truthy(installScript) {
      code := t.installScript(code);
    }
    code := Meta(code, pluginMeta);
  }

  /**
   * `bundle()` of the earlier entry point. The indent unit is always a tab;
   * everything after the wrapping (import warning, write, dev copy) is the
   * same as in the later entry point, as is the error translation.
   */
  method LegacyBundleRun(generated: Result<string, string>, env: Env, options: Record<JsValue>,
                         pluginMeta: Record<JsValue>, zlibrary: JsValue, installScript: JsValue,
                         outputPath: string, t: LegacyTemplates)
    returns (effects: seq<Effect>)
    ensures generated.Err? ==> effects == [Error(TranslateError(generated.error))]
    ensures generated.Ok? ==>
      var code := LegacyWrapped(PostProcess(generated.value, "\t"), pluginMeta, zlibrary, installScript, t);
      effects == Finish(code, Truthy(zlibrary), env, options, pluginMeta, outputPath)
    ensures WellOrdered(effects)
  {
    if generated.Err? {
      return [Error(TranslateError(generated.error))];
    }
    var code := PostProcess(generated.value, "\t");
    code := LegacyWrap(code, pluginMeta, zlibrary, installScript, t);
    var warnings := ImportWarnings(code, Truthy(zlibrary));
    var copied := DevCopy(env, options, outputPath);
    effects := warnings + [WriteFile(outputPath, code), Log(DoneMessage(pluginMeta))] + copied;
  }

  /**
   * The file written to the output path holds the wrapped code and opens
   * with the metadata header, whatever the templates produce.
   */
  lemma LegacyOutputHasHeader(generated: string, env: Env, options: Record<JsValue>, pluginMeta: Record<JsValue>,
                              zlibrary: JsValue, installScript: JsValue, outputPath: string, t: LegacyTemplates)
    ensures var effects := Finish(LegacyWrapped(PostProcess(generated, "\t"), pluginMeta, zlibrary, installScript, t),
                                  Truthy(zlibrary), env, options, pluginMeta, outputPath);
      exists i :: 0 <= i < |effects| && effects[i].WriteFile? && effects[i].path == outputPath
                  && effects[i].contents == LegacyWrapped(PostProcess(generated, "\t"), pluginMeta, zlibrary, installScript, t)
                  && Text.StartsWith(effects[i].contents, HeaderOpen)
  {
    var code := LegacyWrapped(PostProcess(generated, "\t"), pluginMeta, zlibrary, installScript, t);
    var effects := Finish(code, Truthy(zlibrary), env, options, pluginMeta, outputPath);
    var w := |ImportWarnings(code, Truthy(zlibrary))|;
    assert effects[w] == WriteFile(outputPath, code);
  }
}
