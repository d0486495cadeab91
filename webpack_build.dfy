/**
 * src/index.ts: the callback webpack calls once the plugin is built. It
 * reports webpack's errors and warnings, puts the metadata object into the
 * bundle, warns about ZeresPluginLibrary imports that do not match the
 * configuration, wraps the bundle for the library, writes it under the
 * metadata header, fills in and copies the README, and in development
 * copies the plugin into BetterDiscord.
 *
 * Reading files, `JSON.stringify`, the library template's fixed texts and
 * `js-beautify` are parameters; writing and copying are effects.
 */
module WebpackBuild {
  import opened Wrappers
  import opened Text
  import opened JsValues
  import opened Paths
  import opened FileChecks
  import Bundle
  import RollupConfig
  import Stringify
  import MetaTemplate
  import LegacyZLibraryTemplate
  import SrcUtils
  import WebpackConfig

  // ---- errors and warnings ----

  /**
   * What the callback reports about the build. `err` is `err.stack || err.message`;
   * `Logger.error` ends the process, so only the first error is printed. The
   * warning branch reads the messages of `stats.toJson().errors` when
   * `asWritten` holds, and those of its `warnings` otherwise.
   */
  function StatsEffects(err: Option<string>, errors: seq<string>, warnings: seq<string>, asWritten: bool)
    : seq<Bundle.Effect>
  {
    if err.Some? then [Bundle.Error(err.value)]
    else if errors != [] then [Bundle.Error(errors[0])]
    else if warnings != [] then Warnings(if asWritten then errors else warnings)
    else []
  }

  /** One warning per message, in order. */
  function Warnings(messages: seq<string>): (r: seq<Bundle.Effect>)
    ensures |r| == |messages|
    ensures forall i :: 0 <= i < |r| ==> r[i] == Bundle.Warn(messages[i])
  {
    if messages == [] then [] else Warnings(messages[..|messages| - 1]) + [Bundle.Warn(messages[|messages| - 1])]
  }

  /** The build stopped: the rest of the callback does not run. */
  predicate Stopped(err: Option<string>, errors: seq<string>) {
    err.Some? || errors != []
  }

  /** As written, a build with warnings and no errors prints nothing at all: the loop runs over the empty `errors`. */
  lemma WarningsLostAsWritten(errors: seq<string>, warnings: seq<string>)
    requires !Stopped(None, errors)
    ensures StatsEffects(None, errors, warnings, true) == []
  {
  }

  /** `["unused import"]`: a warning webpack reports, which the callback as written never prints. */
  lemma OneWarningLostAsWritten()
    ensures StatsEffects(None, [], ["unused import"], true) == []
    ensures StatsEffects(None, [], ["unused import"], false) == [Bundle.Warn("unused import")]
  {
    assert Warnings(["unused import"]) == [Bundle.Warn("unused import")];
  }

  /**
   * The reporting step with the warnings' own messages: the error stops the
   * callback, otherwise every warning is printed.
   */
  method ReportStats(err: Option<string>, errors: seq<string>, warnings: seq<string>)
    returns (effects: seq<Bundle.Effect>)
    ensures effects == StatsEffects(err, errors, warnings, false)
  {
    if err.Some? {
      return [Bundle.Error(err.value)];
    }
    if errors != [] {
      return [Bundle.Error(errors[0])];
    }
    effects := [];
    if warnings != [] {
      var i := 0;
      while i < |warnings|
        invariant 0 <= i <= |warnings|
        invariant effects == Warnings(warnings[..i])
      {
        assert warnings[..i + 1][..i] == warnings[..i];
        effects := effects + [Bundle.Warn(warnings[i])];
        i := i + 1;
      }
      assert warnings[..|warnings|] == warnings;
    }
  }

  /** A build that did not stop prints exactly its warnings, in order, and nothing else. */
  lemma WarningsReported(errors: seq<string>, warnings: seq<string>)
    requires !Stopped(None, errors)
    ensures var r := StatsEffects(None, errors, warnings, false);
            |r| == |warnings| && forall i :: 0 <= i < |r| ==> r[i] == Bundle.Warn(warnings[i])
  {
  }

  /** A stopped build prints its first error and nothing else. */
  lemma StoppedPrintsOneError(err: Option<string>, errors: seq<string>, warnings: seq<string>, asWritten: bool)
    requires Stopped(err, errors)
    ensures var r := StatsEffects(err, errors, warnings, asWritten);
            |r| == 1 && r[0].Error?
            && r[0].message == if err.Some? then err.value else errors[0]
  {
  }

  // ---- the metadata object ----

  /** `const meta = ${metaObject};`, where the object is `JSON.stringify(meta)` with its keys unquoted. */
  function MetaDeclaration(meta: Record<JsValue>, json: JsValue -> string): string {
    "const meta = " + Stringify.UnquoteKeys(json(Obj(meta))) + ";"
  }

  /** Where `slice(0, 6)` cuts: after six characters, or at the end of a shorter text. */
  function CutAt(packed: string): (k: nat)
    ensures k <= |packed| && k <= 6
  {
    if |packed| < 6 then |packed| else 6
  }

  /** `packed.slice(0, 6) + declaration + packed.slice(6)` */
  function InsertMeta(packed: string, declaration: string): (r: string)
    ensures |r| == |packed| + |declaration|
  {
    packed[..CutAt(packed)] + declaration + packed[CutAt(packed)..]
  }

  /** The declaration sits after the first six characters, and taking it out gives back the bundle. */
  lemma InsertMetaRoundTrip(packed: string, declaration: string)
    ensures var k := CutAt(packed);
            var r := InsertMeta(packed, declaration);
            r[..k] == packed[..k]
            && r[k..k + |declaration|] == declaration
            && r[..k] + r[k + |declaration|..] == packed
  {
    var k := CutAt(packed);
    var r := InsertMeta(packed, declaration);
    assert r[k + |declaration|..] == packed[k..];
    assert packed[..k] + packed[k..] == packed;
  }

  // ---- the library warnings ----

  const LibraryMarker: string := "external_Library_namespaceObject"
  const BasePluginMarker: string := "external_BasePlugin_namespaceObject"

  const ImportsLibraryWarning: string :=
    "It appears the plugin imports ZLibrary, but is not being built with ZLibrary support. Did you mean to set 'build.zlibrary' to true in the plugin's configuration?"

  const NoBasePluginWarning: string :=
    "It appears the plugin uses ZLibrary, but does not extend ZLibrary's base Plugin class. The plugin may not work."

  /** The two warnings about the library, judged on the bundle with its metadata object. */
  function LibraryWarnings(packed: string, zlibrary: JsValue): seq<Bundle.Effect> {
    var importsLibrary := Contains(packed, LibraryMarker);
    var importsBasePlugin := Contains(packed, BasePluginMarker);
    (if (importsLibrary || importsBasePlugin) && !Truthy(zlibrary) then [Bundle.Warn(ImportsLibraryWarning)] else [])
    + (if Truthy(zlibrary) && !importsBasePlugin then [Bundle.Warn(NoBasePluginWarning)] else [])
  }

  /**
   * At most one of the two warnings: the import warning exactly when the
   * library is imported without being configured, the base-class warning
   * exactly when it is configured but its base class is not imported.
   */
  lemma LibraryWarningsExclusive(packed: string, zlibrary: JsValue)
    ensures var r := LibraryWarnings(packed, zlibrary);
            |r| <= 1 && (forall e :: e in r ==> e.Warn?)
            && (Bundle.Warn(ImportsLibraryWarning) in r
                <==> (Contains(packed, LibraryMarker) || Contains(packed, BasePluginMarker)) && !Truthy(zlibrary))
            && (Bundle.Warn(NoBasePluginWarning) in r <==> Truthy(zlibrary) && !Contains(packed, BasePluginMarker))
  {
  }

  // ---- the written plugin ----

  /** The metadata header: a doc comment with one ` * @key value` line per metadata key, in key order. */
  function Header(meta: Record<JsValue>): (r: string)
    ensures StartsWith(r, MetaTemplate.HeaderOpen) && EndsWith(r, " */\n")
  {
    var r := MetaTemplate.HeaderOpen + MetaTemplate.TagLines(meta) + " */\n";
    assert r[..|MetaTemplate.HeaderOpen|] == MetaTemplate.HeaderOpen;
    assert r[|r| - 4..] == " */\n";
    r
  }

  /**
   * `JSON.stringify`, the library template `zlibTemplate` with its fixed
   * texts, and `js-beautify`.
   */
  datatype Tools = Tools(
    json: JsValue -> string,
    jscript: string,
    guard: string,
    zlibTemplate: (string, Record<JsValue>, JsValue) -> string,
    beautify: string -> string)

  /** The template in `t` is src/templates/zlibrary.js with `t`'s texts and `JSON.stringify`. */
  ghost predicate UsesLibraryTemplate(t: Tools) {
    forall packed, meta, changelog :: t.zlibTemplate(packed, meta, changelog)
      == LegacyZLibraryTemplate.ZLibTemplate(packed, meta, changelog, t.json, t.jscript, t.guard)
  }

  /** `zlibTemplate(packed, meta, changelog)` when `zlibrary` is set. */
  function LibraryWrapped(packed: string, plugin: Record<JsValue>, meta: Record<JsValue>, t: Tools): string {
    if Truthy(Prop(plugin, "zlibrary")) then t.zlibTemplate(packed, meta, Prop(plugin, "changelog")) else packed
  }

  /** Only a plugin configured for the library is wrapped, and then by the template. */
  lemma LibraryWrappedByTemplate(packed: string, plugin: Record<JsValue>, meta: Record<JsValue>, t: Tools)
    requires UsesLibraryTemplate(t)
    ensures !Truthy(Prop(plugin, "zlibrary")) ==> LibraryWrapped(packed, plugin, meta, t) == packed
    ensures Truthy(Prop(plugin, "zlibrary")) ==>
              LibraryWrapped(packed, plugin, meta, t)
              == LegacyZLibraryTemplate.ZLibTemplate(packed, meta, Prop(plugin, "changelog"), t.json, t.jscript, t.guard)
  {
  }

  /** The file written for the plugin: the header, then the formatted bundle. */
  function PluginFile(bundled: string, plugin: Record<JsValue>, meta: Record<JsValue>, t: Tools): string {
    var packed := InsertMeta(bundled, MetaDeclaration(meta, t.json));
    Header(meta) + t.beautify(LibraryWrapped(packed, plugin, meta, t))
  }

  /** The header lists the `i`-th key on its own line, right after the lines of the keys before it. */
  lemma HeaderListsKey(meta: Record<JsValue>, i: nat)
    requires i < |meta|
    ensures var h := Header(meta);
            var line := MetaTemplate.TagLine(meta[i]);
            var at := |MetaTemplate.HeaderOpen| + |MetaTemplate.TagLines(meta[..i])|;
            at + |line| <= |h| && h[at..at + |line|] == line
  {
    var lines := MetaTemplate.TagLines(meta);
    var before := MetaTemplate.TagLines(meta[..i]);
    var line := MetaTemplate.TagLine(meta[i]);
    MetaTemplate.TagLinesPrefix(meta, i + 1);
    assert meta[..i + 1][..i] == meta[..i];
    assert MetaTemplate.TagLines(meta[..i + 1]) == before + line;
    assert lines[..|before| + |line|] == before + line;
    assert lines[|before|..|before| + |line|] == line;
    var h := Header(meta);
    var at := |MetaTemplate.HeaderOpen| + |before|;
    assert h == MetaTemplate.HeaderOpen + lines + " */\n";
    assert h[at..at + |line|] == lines[|before|..|before| + |line|];
  }

  /** The written plugin starts with the header. */
  lemma PluginFileHeader(bundled: string, plugin: Record<JsValue>, meta: Record<JsValue>, t: Tools)
    ensures StartsWith(PluginFile(bundled, plugin, meta, t), Header(meta))
  {
    var h := Header(meta);
    var f := PluginFile(bundled, plugin, meta, t);
    assert f[..|h|] == h;
  }

  function DoneMessage(meta: Record<JsValue>): string {
    "Done! Plugin '" + ToJsString(Prop(meta, "name")) + "' bundled successfully"
  }

  // ---- the README ----

  /** The metadata as `parseString` options: `replace` turns each value into its string. */
  function MetaOptions(meta: Record<JsValue>): (r: Record<string>)
    ensures |r| == |meta|
    ensures forall i :: 0 <= i < |r| ==> r[i] == (meta[i].0, ToJsString(meta[i].1))
  {
    if meta == [] then [] else MetaOptions(meta[..|meta| - 1]) + [(meta[|meta| - 1].0, ToJsString(meta[|meta| - 1].1))]
  }

  const ReadmeDelimiters: SrcUtils.Delimiters := SrcUtils.Delimiters("{{", "}}")

  /** `parseString(s, { plugin: argv.plugin })`: a missing plugin argument fills in `undefined`. */
  function WithArgvPlugin(s: string, plugin: Option<string>): string {
    SrcUtils.ParseString(s, [("plugin", if plugin.Some? then plugin.value else "undefined")], None)
  }

  /** Where the README goes: the directory a string `readme` names, or the output directory for any other truthy value. */
  function ReadmeDirectory(api: PathApi, cwd: string, readme: JsValue, plugin: Option<string>, outputPath: string): string {
    if readme.Str? then JoinPath(api, cwd, WithArgvPlugin(readme.s, plugin)) else outputPath
  }

  /** The README step: nothing unless `readme` is truthy, a warning when the entry has no README.md. */
  function ReadmeEffects(api: PathApi, cwd: string, readFile: string -> Option<string>, bundle: Record<JsValue>,
                         meta: Record<JsValue>, plugin: Option<string>, outputPath: string): seq<Bundle.Effect>
  {
    var readme := Prop(bundle, "readme");
    if !Truthy(readme) then []
    else
      var entryDir := JoinPath(api, cwd, WithArgvPlugin(ToJsString(Prop(bundle, "entry")), plugin));
      var readmePath := JoinPath(api, entryDir, "README.md");
      match readFile(readmePath)
      case None => [Bundle.Warn("Cannot find file " + readmePath)]
      case Some(text) =>
        [Bundle.WriteFile(JoinPath(api, ReadmeDirectory(api, cwd, readme, plugin, outputPath), "README.md"),
                          SrcUtils.ParseString(text, MetaOptions(meta), Some(ReadmeDelimiters)))]
  }

  /**
   * The README is written once, into the directory a string `readme` names
   * (with `[plugin]` filled in) or else into the output directory, with the
   * metadata's `{{key}}` placeholders filled in.
   */
  lemma ReadmeDestination(api: PathApi, cwd: string, readFile: string -> Option<string>, bundle: Record<JsValue>,
                          meta: Record<JsValue>, plugin: Option<string>, outputPath: string)
    requires Truthy(Prop(bundle, "readme"))
    requires readFile(JoinPath(api, JoinPath(api, cwd, WithArgvPlugin(ToJsString(Prop(bundle, "entry")), plugin)), "README.md")).Some?
    ensures var r := ReadmeEffects(api, cwd, readFile, bundle, meta, plugin, outputPath);
            var readme := Prop(bundle, "readme");
            |r| == 1 && r[0].WriteFile?
            && (readme.Str? ==> r[0].path == JoinPath(api, JoinPath(api, cwd, WithArgvPlugin(readme.s, plugin)), "README.md"))
            && (!readme.Str? ==> r[0].path == JoinPath(api, outputPath, "README.md"))
  {
  }

  /** The README's placeholders take the metadata's values: with no placeholder of any key, it is copied unchanged. */
  lemma ReadmeWithoutPlaceholders(text: string, meta: Record<JsValue>)
    requires forall i :: 0 <= i < |meta| ==> !Contains(text, "{{" + meta[i].0 + "}}")
    ensures SrcUtils.ParseString(text, MetaOptions(meta), Some(ReadmeDelimiters)) == text
  {
    var options := MetaOptions(meta);
    forall i | 0 <= i < |options|
      ensures !Contains(text, SrcUtils.Placeholder(ReadmeDelimiters, options[i].0))
    {
      assert options[i].0 == meta[i].0;
    }
    SrcUtils.ParseWithAbsent(text, options, ReadmeDelimiters);
  }

  // ---- the copy into BetterDiscord ----

  const NoBdPathWarning: string :=
    "Cannot find property 'bdPath' in bundle.config.json: Bundled plugin will not be copied to BetterDiscord"

  function InvalidBdPathWarning(bdPath: string): string {
    "'" + bdPath + "' is not a valid directory: Bundled plugin will not be copied to BetterDiscord"
  }

  /** The development step's decision; `path.resolve` throws for a `bdPath` that is not a string. */
  function DevOutcome(api: PathApi, fs: FileSystem, development: bool, bundle: Record<JsValue>, filename: string)
    : Bundle.DevCopyOutcome
  {
    var bdPath := Prop(bundle, "bdPath");
    if !development then Bundle.NotDev
    else if !Truthy(bdPath) then Bundle.NoBdPath
    else if !bdPath.Str? then Bundle.Refused(RollupConfig.PathTypeError(bdPath))
    else if bdPath.s != "none" && !CheckDirExists(fs, api.resolve(bdPath.s)) then
      Bundle.NotADirectory(InvalidBdPathWarning(bdPath.s))
    else if bdPath.s != "none" then Bundle.Copied(JoinPath(api, JoinPath(api, bdPath.s, "plugins"), filename))
    else Bundle.CopyDisabled
  }

  /** What the development step prints and copies; every path but the error ends with the watching notice. */
  function DevEffects(o: Bundle.DevCopyOutcome, from: string): (r: seq<Bundle.Effect>)
    ensures (exists i :: 0 <= i < |r| && r[i].CopyFile?) <==> o.Copied?
    ensures o.Copied? ==> r[0] == Bundle.CopyFile(from, o.to)
  {
    match o
    case NotDev => []
    case NoBdPath => [Bundle.Warn(NoBdPathWarning), Bundle.Log("Watching for changes...")]
    case Refused(e) => [Bundle.Error(e)]
    case NotADirectory(w) => [Bundle.Warn(w), Bundle.Log("Watching for changes...")]
    case Copied(to) =>
      var r := [Bundle.CopyFile(from, to), Bundle.Log("Plugin copied to BetterDiscord"), Bundle.Log("Watching for changes...")];
      assert r[0].CopyFile?;
      r
    case CopyDisabled => [Bundle.Log("Watching for changes...")]
  }

  /** The development step copies: `bdPath` is a non-empty string other than `"none"` that names a directory. */
  predicate Copies(api: PathApi, fs: FileSystem, development: bool, bundle: Record<JsValue>) {
    var bdPath := Prop(bundle, "bdPath");
    development && bdPath.Str? && bdPath.s != [] && bdPath.s != "none" && CheckDirExists(fs, api.resolve(bdPath.s))
  }

  /**
   * The copy decision: nothing outside development, nothing for `"none"`, and
   * a copy into the `plugins` folder under `bdPath` exactly when `Copies` holds;
   * as in the rollup version, an unset `bdPath` and one that is not a
   * directory are warnings.
   */
  lemma DevCopyDecision(api: PathApi, fs: FileSystem, development: bool, bundle: Record<JsValue>, filename: string)
    ensures var o := DevOutcome(api, fs, development, bundle, filename);
            var bdPath := Prop(bundle, "bdPath");
            (o.NotDev? <==> !development)
            && (o.NoBdPath? <==> development && !Truthy(bdPath))
            && (o.CopyDisabled? <==> development && bdPath == Str("none"))
            && (o.Copied? <==> Copies(api, fs, development, bundle))
            && (o.Copied? ==> o.to == JoinPath(api, JoinPath(api, bdPath.s, "plugins"), filename))
  {
  }

  // ---- the callback ----

  /** What the callback does after a build that did not stop: warn, write, then the README and the copy. */
  function Outputs(api: PathApi, fs: FileSystem, cwd: string, argv: SrcUtils.Argv, configs: WebpackConfig.Configs,
                   readFile: string -> Option<string>, bundled: string, t: Tools): seq<Bundle.Effect>
  {
    var out := JoinPath(api, configs.webpack.outputPath, configs.webpack.filename);
    var meta := OwnProps(Prop(configs.plugin, "meta"));
    var packed := InsertMeta(bundled, MetaDeclaration(meta, t.json));
    LibraryWarnings(packed, Prop(configs.plugin, "zlibrary"))
    + [Bundle.WriteFile(out, PluginFile(bundled, configs.plugin, meta, t))]
    + AfterWrite(api, fs, cwd, argv, configs, readFile, meta)
  }

  /** The log line after the write, then the README and the development step. */
  function AfterWrite(api: PathApi, fs: FileSystem, cwd: string, argv: SrcUtils.Argv, configs: WebpackConfig.Configs,
                      readFile: string -> Option<string>, meta: Record<JsValue>): seq<Bundle.Effect>
  {
    [Bundle.Log(DoneMessage(meta))]
    + ReadmeEffects(api, cwd, readFile, configs.bundle, meta, argv.plugin, configs.webpack.outputPath)
    + DevEffects(DevOutcome(api, fs, argv.development, configs.bundle, configs.webpack.filename),
                 JoinPath(api, configs.webpack.outputPath, configs.webpack.filename))
  }

  /** Everything the callback does, given the configurations and what the files hold. */
  function CallbackEffects(api: PathApi, fs: FileSystem, cwd: string, argv: SrcUtils.Argv,
                           configs: WebpackConfig.Configs, err: Option<string>, errors: seq<string>, warnings: seq<string>,
                           readFile: string -> Option<string>, bundled: string, t: Tools): seq<Bundle.Effect>
  {
    StatsEffects(err, errors, warnings, false)
    + if Stopped(err, errors) then [] else Outputs(api, fs, cwd, argv, configs, readFile, bundled, t)
  }

  /**
   * The callback, step by step as the source takes them; `bundled` is what
   * `readFileSync` returns for the output file.
   */
  method OnBuild(api: PathApi, fs: FileSystem, cwd: string, argv: SrcUtils.Argv,
                 configs: WebpackConfig.Configs, err: Option<string>, errors: seq<string>, warnings: seq<string>,
                 readFile: string -> Option<string>, bundled: string, t: Tools)
    returns (effects: seq<Bundle.Effect>)
    ensures effects == CallbackEffects(api, fs, cwd, argv, configs, err, errors, warnings, readFile, bundled, t)
  {
    effects := ReportStats(err, errors, warnings);
    if Stopped(err, errors) {
      return;
    }
    var outputPath := configs.webpack.outputPath;
    var outputFilename := configs.webpack.filename;
    var meta := OwnProps(Prop(configs.plugin, "meta"));
    var zlibrary := Prop(configs.plugin, "zlibrary");

    var packed := InsertMeta(bundled, MetaDeclaration(meta, t.json));
    effects := effects + LibraryWarnings(packed, zlibrary);
    packed := LibraryWrapped(packed, configs.plugin, meta, t);
    var header := Header(meta);
    packed := t.beautify(packed);
    effects := effects + [Bundle.WriteFile(JoinPath(api, outputPath, outputFilename), header + packed)];
    var after := [Bundle.Log(DoneMessage(meta))];
    after := after + ReadmeEffects(api, cwd, readFile, configs.bundle, meta, argv.plugin, outputPath);
    var dev := DevOutcome(api, fs, argv.development, configs.bundle, outputFilename);
    after := after + DevEffects(dev, JoinPath(api, outputPath, outputFilename));
    effects := effects + after;
  }

  /** The plugin is written, with its header, after the library warnings and before the README or any copy. */
  lemma WriteBeforeCopy(api: PathApi, fs: FileSystem, cwd: string, argv: SrcUtils.Argv, configs: WebpackConfig.Configs,
                        readFile: string -> Option<string>, bundled: string, t: Tools)
    ensures var r := Outputs(api, fs, cwd, argv, configs, readFile, bundled, t);
            var meta := OwnProps(Prop(configs.plugin, "meta"));
            var w := |LibraryWarnings(InsertMeta(bundled, MetaDeclaration(meta, t.json)), Prop(configs.plugin, "zlibrary"))|;
            w < |r|
            && r[w] == Bundle.WriteFile(JoinPath(api, configs.webpack.outputPath, configs.webpack.filename),
                                        PluginFile(bundled, configs.plugin, meta, t))
            && forall i :: 0 <= i < w ==> r[i].Warn?
  {
    var meta := OwnProps(Prop(configs.plugin, "meta"));
    var lw := LibraryWarnings(InsertMeta(bundled, MetaDeclaration(meta, t.json)), Prop(configs.plugin, "zlibrary"));
    var write := Bundle.WriteFile(JoinPath(api, configs.webpack.outputPath, configs.webpack.filename),
                                  PluginFile(bundled, configs.plugin, meta, t));
    var rest := AfterWrite(api, fs, cwd, argv, configs, readFile, meta);
    LibraryWarningsExclusive(InsertMeta(bundled, MetaDeclaration(meta, t.json)), Prop(configs.plugin, "zlibrary"));
    WarningsFirst(lw, write, rest);
  }

  lemma WarningsFirst(lw: seq<Bundle.Effect>, write: Bundle.Effect, rest: seq<Bundle.Effect>)
    requires forall e :: e in lw ==> e.Warn?
    ensures |lw| < |lw + [write] + rest| && (lw + [write] + rest)[|lw|] == write
    ensures forall i :: 0 <= i < |lw| ==> (lw + [write] + rest)[i].Warn?
  {
    assert forall i :: 0 <= i < |lw| ==> (lw + [write] + rest)[i] == lw[i];
  }
}
