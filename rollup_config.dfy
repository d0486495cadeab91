/**
 * bin/config/rollup.ts: how the resolved bundler options, the plugin's build
 * configuration and its metadata become a rollup configuration. Modelled are
 * the replacement table for `require('x')` calls, the alias entries, the
 * entry and output paths with their existence checks, the CSS-module scoped
 * name, the globals and externals, and which optional plugins are present.
 * The options of third-party plugins are left out.
 */
module RollupConfig {
  import opened Wrappers
  import opened Text
  import opened JsValues
  import opened Paths
  import opened FileChecks
  import StyleLoader

  const ResolveExtensions: seq<string> := [".js", ".ts", ".jsx", ".tsx"]

  /** Node built-ins that BetterDiscord provides; they stay `require` calls. */
  const Polyfilled: seq<string> := [
    "request", "https", "original-fs", "fs", "path", "events",
    "electron", "process", "vm", "module", "buffer", "crypto"]

  /* ---------- The file-type regular expressions ---------- */

  /** A regular expression made of `(\.ext$)` alternatives matches ids ending in one of them. */
  predicate EndsWithAny(id: string, suffixes: seq<string>) {
    suffixes != [] && (EndsWith(id, suffixes[0]) || EndsWithAny(id, suffixes[1..]))
  }

  /** `stylesRegex`; `\.s[ac]ss$` is the two suffixes `.sass` and `.scss`. */
  const StylesSuffixes: seq<string> := [".css", ".sass", ".scss", ".less", ".styl"]

  const AssetSuffixes: seq<string> := [".svg", ".png", ".jpg", ".jpeg", ".gif", ".webp"]

  /** `constRegex`: the source of `stylesRegex` followed by the asset alternatives. */
  const ConstSuffixes: seq<string> := StylesSuffixes + AssetSuffixes

  lemma {:induction false} EndsWithAnyAppend(id: string, a: seq<string>, b: seq<string>)
    ensures EndsWithAny(id, a + b) <==> EndsWithAny(id, a) || EndsWithAny(id, b)
  {
    if a != [] {
      assert (a + b)[1..] == a[1..] + b;
      EndsWithAnyAppend(id, a[1..], b);
    } else {
      assert a + b == b;
    }
  }

  /** `constRegex` accepts exactly what `stylesRegex` accepts and the six image types. */
  lemma ConstRegexExtendsStyles(id: string)
    ensures EndsWithAny(id, ConstSuffixes) <==> EndsWithAny(id, StylesSuffixes) || EndsWithAny(id, AssetSuffixes)
  {
    EndsWithAnyAppend(id, StylesSuffixes, AssetSuffixes);
  }

  /* ---------- createReplaced ---------- */

  /** The call `require('k')` that the replace plugin rewrites. */
  function RequireCall(k: string): string {
    "require('" + k + "')"
  }

  lemma RequireCallInjective(a: string, b: string)
    requires RequireCall(a) == RequireCall(b)
    ensures a == b
  {
    assert a == RequireCall(a)[9..|RequireCall(a)| - 2];
    assert b == RequireCall(b)[9..|RequireCall(b)| - 2];
  }

  /** The delimiters of the replace plugin: a match must follow `= ` and precede `;`. */
  const Delimiters: (string, string) := ("= ", ";")

  function Delimited(v: string): string {
    Delimiters.0 + v + Delimiters.1
  }

  /** The options handed to the replace plugin; `values` holds the `require('k')` entries. */
  datatype ReplaceOptions = ReplaceOptions(delimiters: (string, string), preventAssignment: bool, values: Record<string>)

  /** The replacement entries after the `for...in` loop has visited the first `n` globals. */
  function ReplacedUpTo(globals: Record<string>, n: nat): Record<string>
    requires n <= |globals|
  {
    if n == 0 then []
    else Put(ReplacedUpTo(globals, n - 1), RequireCall(globals[n - 1].0), Delimited(globals[n - 1].1))
  }

  /** `createReplaced(globals)` */
  method CreateReplaced(globals: Record<string>) returns (r: ReplaceOptions)
    ensures r.delimiters == Delimiters && r.preventAssignment
    ensures r.values == ReplacedUpTo(globals, |globals|)
  {
    var values: Record<string> := [];
    var i := 0;
    while i < |globals|
      invariant i <= |globals|
      invariant values == ReplacedUpTo(globals, i)
    {
      values := Put(values, RequireCall(globals[i].0), Delimited(globals[i].1));
      i := i + 1;
    }
    r := ReplaceOptions(Delimiters, true, values);
  }

  /** `require('k')` is replaced by `= v;` exactly for the globals `k: v`. */
  lemma {:induction false} ReplacedLookup(globals: Record<string>, n: nat, k: string)
    requires n <= |globals| && Unique(globals)
    ensures Get(ReplacedUpTo(globals, n), RequireCall(k)) ==
      match Get(globals[..n], k)
      case Some(v) => Some(Delimited(v))
      case None => None
  {
    if n > 0 {
      ReplacedLookup(globals, n - 1, k);
      var e := globals[n - 1];
      assert globals[..n] == globals[..n - 1] + [e];
      UniqueIndex(globals);
      HasKeyIndex(globals[..n - 1], e.0);
      GetAppend(globals[..n - 1], e, k);
      GetPut(ReplacedUpTo(globals, n - 1), RequireCall(e.0), Delimited(e.1), RequireCall(k));
      if RequireCall(e.0) == RequireCall(k) {
        RequireCallInjective(e.0, k);
      }
    }
  }

  /** The table holds nothing but `require('k')` entries for global keys `k`. */
  lemma {:induction false} ReplacedKeys(globals: Record<string>, n: nat, x: string)
    requires n <= |globals|
    ensures HasKey(ReplacedUpTo(globals, n), x) <==> exists i :: 0 <= i < n && x == RequireCall(globals[i].0)
  {
    if n > 0 {
      ReplacedKeys(globals, n - 1, x);
      PutHasKey(ReplacedUpTo(globals, n - 1), RequireCall(globals[n - 1].0), Delimited(globals[n - 1].1), x);
    }
  }

  /* ---------- createAliases ---------- */

  /** An alias for `@rollup/plugin-alias`: a regular expression source and its replacement. */
  datatype AliasEntry = AliasEntry(find: string, replacement: string)

  /** The entry for one alias `key: target`. */
  function AliasFor(api: PathApi, key: string, target: string): AliasEntry {
    AliasEntry(AliasPattern(key), api.resolve(ReplaceFirst(target, "/*", "$1")))
  }

  /** The regular expression source for a key: anchored, wildcard captured, backslashes escaped. */
  function AliasPattern(key: string): string {
    "^" + MapChar(ReplaceFirst(key, "/*", "(.*)"), '\\', "\\\\") + "$"
  }

  function AliasTargetError(): string {
    "TypeError: aliases[key].replace is not a function"
  }

  /**
   * The entries of `createAliases(aliases)` in key order; a target that is not
   * a string makes `replace` throw.
   */
  function Aliases(api: PathApi, aliases: Record<JsValue>): (r: Result<seq<AliasEntry>, string>)
    ensures r.Ok? <==> forall i :: 0 <= i < |aliases| ==> aliases[i].1.Str?
    ensures r.Err? ==> r.error == AliasTargetError()
    ensures r.Ok? ==> |r.value| == |aliases|
    ensures r.Ok? ==> forall i :: 0 <= i < |aliases| ==>
      aliases[i].1.Str? && r.value[i] == AliasFor(api, aliases[i].0, aliases[i].1.s)
  {
    if aliases == [] then Ok([])
    else if !aliases[0].1.Str? then Err(AliasTargetError())
    else match Aliases(api, aliases[1..])
      case Err(e) => Err(e)
      case Ok(rest) => Ok([AliasFor(api, aliases[0].0, aliases[0].1.s)] + rest)
  }

  /** `createAliases(aliases)`: one entry pushed per key, in order. */
  method CreateAliases(api: PathApi, aliases: Record<JsValue>) returns (r: Result<seq<AliasEntry>, string>)
    ensures r == Aliases(api, aliases)
  {
    var entries: seq<AliasEntry> := [];
    var i := 0;
    while i < |aliases|
      invariant i <= |aliases|
      invariant |entries| == i
      invariant forall j :: 0 <= j < i ==> aliases[j].1.Str? && entries[j] == AliasFor(api, aliases[j].0, aliases[j].1.s)
    {
      if !aliases[i].1.Str? {
        assert Aliases(api, aliases).Err?;
        return Err(AliasTargetError());
      }
      entries := entries + [AliasFor(api, aliases[i].0, aliases[i].1.s)];
      i := i + 1;
    }
    ghost var expected := Aliases(api, aliases);
    assert expected.Ok?;
    assert entries == expected.value;
    r := Ok(entries);
  }

  /** No wildcard starts inside a prefix that has none, even one ending in `/`. */
  lemma WildcardNotBefore(a: string, s: string, j: nat)
    requires !Contains(a, "/*") && StartsWith(s, a + "/")
    requires j < |a|
    ensures !StartsWith(s[j..], "/*")
  {
    if StartsWith(s[j..], "/*") {
      var t := s[j..];
      assert t[..2] == "/*";
      assert t[0] == t[..2][0] && t[1] == t[..2][1];
      assert s[j] == t[0] && s[j + 1] == t[1];
      var p := a + "/";
      assert s[..|p|] == p;
      assert s[j + 1] == s[..|p|][j + 1] == p[j + 1];
      if j + 2 <= |a| {
        assert s[j] == s[..|p|][j] == p[j] == a[j];
        assert a[j + 1] == p[j + 1];
        assert a[j..][..2] == [a[j], a[j + 1]];
        ContainsAt(a, "/*", j);
      }
    }
  }

  lemma FirstWildcard(a: string, b: string, r: string)
    requires !Contains(a, "/*")
    ensures ReplaceFirst(a + "/*" + b, "/*", r) == a + r + b
  {
    var s := a + "/*" + b;
    assert StartsWith(s, a + "/") by {
      assert s[..|a| + 1] == a + "/";
    }
    forall j | 0 <= j < |a|
      ensures !StartsWith(s[j..], "/*")
    {
      WildcardNotBefore(a, s, j);
    }
    assert s[|a|..][..2] == "/*";
    IndexOfAt(s, "/*", |a|);
    assert s[..|a|] == a && s[|a| + 2..] == b;
  }

  /** A key without wildcard and backslash gives the anchored key itself. */
  lemma PlainAliasKey(api: PathApi, key: string, target: string)
    requires !Contains(key, "/*") && '\\' !in key
    ensures AliasFor(api, key, target).find == "^" + key + "$"
  {
  }

  /** Doubling backslashes leaves a text without backslashes alone. */
  lemma WildcardKey(prefix: string, suffix: string)
    requires !Contains(prefix, "/*")
    requires '\\' !in prefix && '\\' !in suffix
    ensures AliasPattern(prefix + "/*" + suffix) == "^" + (prefix + "(.*)" + suffix) + "$"
  {
    var group := "(.*)";
    var replaced := ReplaceFirst(prefix + "/*" + suffix, "/*", group);
    assert replaced == prefix + group + suffix by {
      FirstWildcard(prefix, suffix, group);
    }
    assert MapChar(replaced, '\\', "\\\\") == replaced by {
      MapCharAppend(prefix + group, suffix, '\\', "\\\\");
      MapCharAppend(prefix, group, '\\', "\\\\");
      assert '\\' !in group;
    }
  }

  /**
   * A key made of a prefix, the wildcard and a suffix gives
   * `^prefix(.*)suffix$`; a target with the wildcard resolves
   * `tprefix$1tsuffix`.
   */
  lemma WildcardAlias(api: PathApi, prefix: string, suffix: string, tprefix: string, tsuffix: string)
    requires !Contains(prefix, "/*") && !Contains(tprefix, "/*")
    requires '\\' !in prefix && '\\' !in suffix
    ensures AliasFor(api, prefix + "/*" + suffix, tprefix + "/*" + tsuffix)
      == AliasEntry("^" + (prefix + "(.*)" + suffix) + "$", api.resolve(tprefix + "$1" + tsuffix))
  {
    WildcardKey(prefix, suffix);
    FirstWildcard(tprefix, tsuffix, "$1");
  }

  /* ---------- getRollupConfig ---------- */

  /** The globals map before the polyfilled built-ins are added. */
  function Globals(pluginName: string): Record<string> {
    [("betterdiscord", "new BdApi(\"" + pluginName + "\")"),
     ("react", "BdApi.React"),
     ("react-dom", "BdApi.ReactDOM")]
  }

  /** `names.reduce((prev, curr) => ({...prev, [curr]: "require('curr')"}), {})` */
  function PolyfillGlobals(names: seq<string>): Record<string> {
    if names == [] then []
    else Put(PolyfillGlobals(names[..|names| - 1]), names[|names| - 1], RequireCall(names[|names| - 1]))
  }

  /** The `output.globals` map: the globals, then every polyfilled name mapped to its `require`. */
  function OutputGlobals(globals: Record<string>, polyfilled: seq<string>): Record<string> {
    Spread(globals, PolyfillGlobals(polyfilled))
  }

  /** `external`: the global keys followed by the polyfilled names. */
  function External(globals: Record<string>, polyfilled: seq<string>): seq<string> {
    Keys(globals) + polyfilled
  }

  /** How CSS-module class names are generated. */
  datatype ScopedName =
    | Template(pattern: string)        // a string option, `[plugin]` already filled in
    | UserFunction(pluginName: string) // the option's function, called as (pluginName, local, file)
    | Derived(pluginName: string)      // `name-<file stem>-local`

  /** The choice on `generateCSSModuleScopedName`. */
  function ScopedNameOption(option: JsValue, pluginName: string): ScopedName {
    if Truthy(option) && option.Str? then Template(ReplaceAll(option.s, "[plugin]", pluginName))
    else if Truthy(option) && option.Fn? then UserFunction(pluginName)
    else Derived(pluginName)
  }

  /**
   * The class name for `local` in `file` when the styles plugin asks for one;
   * `call` stands for the user's function, and a template is expanded by the
   * styles plugin itself.
   */
  function ScopedClassName(api: PathApi, g: ScopedName, call: (string, string, string) -> string,
                           local: string, file: string): Option<string> {
    match g
    case Template(_) => None
    case UserFunction(name) => Some(call(name, local, file))
    case Derived(name) => Some(name + "-" + BeforeFirst(Basename(api, file), '.') + "-" + local)
  }

  /** How the injected call opens: the loader's function, then the quoted file name. */
  const LoadStyleOpening: string := "_loadStyle(\""

  /**
   * The code the styles plugin emits for a non-module stylesheet: a call of
   * the style loader's `_loadStyle` with the file's base name, which holds
   * no separator, and the variable that holds the CSS.
   */
  function InjectStyle(api: PathApi, varname: string, id: string): (r: string)
    ensures StartsWith(r, LoadStyleOpening + Basename(api, id) + "\", ")
    ensures EndsWith(r, varname + ");")
  {
    var head, tail := LoadStyleOpening + Basename(api, id) + "\", ", varname + ");";
    Framed(head, [], tail);
    assert head + [] + tail == LoadStyleOpening + Basename(api, id) + "\", " + varname + ");";
    LoadStyleOpening + Basename(api, id) + "\", " + varname + ");"
  }

  /** Stylesheet code that holds the injected call is given the style loader's import, whatever surrounds the call. */
  lemma InjectedCallImported(api: PathApi, varname: string, id: string, before: string, after: string)
    ensures var code := before + InjectStyle(api, varname, id) + after;
      StyleLoader.Transform(true, code) == Some(StyleLoader.ImportLine + code)
  {
    var call := InjectStyle(api, varname, id);
    var code := before + call + after;
    assert code[|before|..][..10] == call[..10] == "_loadStyle";
    ContainsAt(code, "_loadStyle", |before|);
  }

  /** The parts of the rollup configuration that this model follows. */
  datatype RollupOptions = RollupOptions(
    input: string,
    file: string,
    format: string,
    globals: Record<string>,
    external: seq<string>,
    scopedName: ScopedName,
    replaced: ReplaceOptions,
    moduleComments: Option<(string, JsValue)>,  // the module-comments plugin with its root and aliases
    aliases: Option<seq<AliasEntry>>,           // the alias plugin with its entries
    createsOutputDir: bool)

  /** The working directory, the path functions and the file system the configuration sees. */
  datatype Env = Env(api: PathApi, cwd: string, fs: FileSystem)

  /** `path.join` refuses anything but strings. */
  function PathTypeError(v: JsValue): string {
    "TypeError [ERR_INVALID_ARG_TYPE]: The \"path\" argument must be of type string. Received " + ToJsString(v)
  }

  function InputDirMessage(entryDir: string): string {
    "Cannot find input directory '" + entryDir + "'"
  }

  const EntryFileMessage := "Cannot resolve entry file. Check the 'entry' property in the plugin's configuration"

  /** The input directory and the entry path, after both existence checks. */
  function EntryPaths(env: Env, options: Record<JsValue>, pluginConfig: Record<JsValue>): Result<(string, string), string> {
    var input := Prop(options, "input");
    if !input.Str? then Err(PathTypeError(input)) else
    var entryDir := JoinPath(env.api, env.cwd, input.s);
    match EnsureDirExists(env.fs, entryDir, Some(InputDirMessage(entryDir)))
    case Fail(e) => Err(e)
    case Pass =>
      var entry := Prop(pluginConfig, "entry");
      if !entry.Str? then Err(PathTypeError(entry)) else
      var entryPath := JoinPath(env.api, entryDir, entry.s);
      if !ResolvesWithExtension(env.fs, entryPath, ResolveExtensions) then Err(EntryFileMessage)
      else Ok((entryDir, entryPath))
  }

  /**
   * The output file `outputDir/<name without whitespace>.plugin.js` and
   * whether the output directory has to be created first.
   */
  function OutputFile(env: Env, options: Record<JsValue>, name: JsValue, nameExpr: string): Result<(string, bool), string> {
    var output := Prop(options, "output");
    if !output.Str? then Err(PathTypeError(output)) else
    var outputDir := JoinPath(env.api, env.cwd, output.s);
    if Nullish(name) then Err(PropertyOfNullish(name, "replace"))
    else if !name.Str? then Err("TypeError: " + nameExpr + ".replace is not a function")
    else Ok((JoinPath(env.api, outputDir, RemoveWhitespace(name.s) + ".plugin.js"), !CheckDirExists(env.fs, outputDir)))
  }

  /** `getRollupConfig(options, pluginConfig, pluginMeta)`; an error ends the process. */
  function GetRollupConfig(env: Env, options: Record<JsValue>, pluginConfig: Record<JsValue>,
                           meta: Record<JsValue>): Result<RollupOptions, string> {
    var name := Prop(meta, "name");
    var globals := Globals(ToJsString(name));
    match EntryPaths(env, options, pluginConfig)
    case Err(e) => Err(e)
    case Ok((entryDir, entryPath)) =>
      match OutputFile(env, options, name, "pluginMeta.name")
      case Err(e) => Err(e)
      case Ok((file, createsOutputDir)) =>
        var format := Prop(options, "format");
        if Nullish(format) then Err(PropertyOfNullish(format, "indent")) else
        var importAliases := Prop(options, "importAliases");
        var aliases := if Truthy(importAliases) then Aliases(env.api, OwnProps(importAliases)) else Ok([]);
        match aliases
        case Err(e) => Err(e)
        case Ok(entries) =>
          Ok(RollupOptions(
            entryPath,
            file,
            "cjs",
            OutputGlobals(globals, Polyfilled),
            External(globals, Polyfilled),
            ScopedNameOption(Prop(options, "generateCSSModuleScopedName"), ToJsString(name)),
            ReplaceOptions(Delimiters, true, ReplacedUpTo(globals, |globals|)),
            if Truthy(Member(format, "moduleComments")) then Some((entryDir, importAliases)) else None,
            if Truthy(importAliases) then Some(entries) else None,
            createsOutputDir))
  }

  /* ---------- Properties ---------- */

  /** The polyfill map sends each name to its `require` and has no other key. */
  lemma {:induction false} PolyfillGlobalsGet(names: seq<string>, k: string)
    ensures Get(PolyfillGlobals(names), k) == if k in names then Some(RequireCall(k)) else None
    ensures Unique(PolyfillGlobals(names))
  {
    if names != [] {
      var init := names[..|names| - 1];
      var last := names[|names| - 1];
      PolyfillGlobalsGet(init, k);
      GetPut(PolyfillGlobals(init), last, RequireCall(last), k);
      PutUnique(PolyfillGlobals(init), last, RequireCall(last));
      assert names == init + [last];
    }
  }

  /**
   * Everything rollup treats as external has a global and every global is
   * external; each polyfilled built-in maps to its `require` call and every
   * other global keeps its value.
   */
  lemma ExternalsHaveGlobals(globals: Record<string>, polyfilled: seq<string>, k: string)
    ensures k in External(globals, polyfilled) <==> HasKey(OutputGlobals(globals, polyfilled), k)
    ensures Get(OutputGlobals(globals, polyfilled), k) ==
      if k in polyfilled then Some(RequireCall(k)) else Get(globals, k)
  {
    PolyfillGlobalsGet(polyfilled, k);
    SpreadHasKey(globals, PolyfillGlobals(polyfilled), k);
    SpreadGet(globals, PolyfillGlobals(polyfilled), k);
    KeysHasKey(globals, k);
  }

  /** The replace plugin turns `require('react')` into `= BdApi.React;`, and likewise for the other two globals. */
  lemma ReplacedGlobals(pluginName: string)
    ensures var g := Globals(pluginName);
      Get(ReplacedUpTo(g, |g|), RequireCall("react")) == Some(Delimited("BdApi.React"))
      && Get(ReplacedUpTo(g, |g|), RequireCall("react-dom")) == Some(Delimited("BdApi.ReactDOM"))
      && Get(ReplacedUpTo(g, |g|), RequireCall("betterdiscord")) == Some(Delimited("new BdApi(\"" + pluginName + "\")"))
  {
    var g := Globals(pluginName);
    assert g[..|g|] == g;
    assert Unique(g) by {
      assert Unique(g[2..]);
      assert g[1..][1..] == g[2..];
      assert !HasKey(g[2..], g[1].0);
      assert Unique(g[1..]);
      assert !HasKey(g[1..][1..], g[0].0);
    }
    GetIndex(g, 1);
    GetIndex(g, 2);
    ReplacedLookup(g, |g|, "react");
    ReplacedLookup(g, |g|, "react-dom");
    ReplacedLookup(g, |g|, "betterdiscord");
  }

  /**
   * The input directory is checked first, then the entry file: a missing
   * one stops the build with its message.
   */
  lemma EntryChecks(env: Env, options: Record<JsValue>, pluginConfig: Record<JsValue>)
    requires Prop(options, "input").Str?
    ensures var entryDir := JoinPath(env.api, env.cwd, Prop(options, "input").s);
      var r := EntryPaths(env, options, pluginConfig);
      (!CheckDirExists(env.fs, entryDir) ==> r == Err(InputDirMessage(entryDir)))
      && (CheckDirExists(env.fs, entryDir) && Prop(pluginConfig, "entry").Str?
          && !ResolvesWithExtension(env.fs, JoinPath(env.api, entryDir, Prop(pluginConfig, "entry").s), ResolveExtensions)
          ==> r == Err(EntryFileMessage))
      && (r.Ok? ==> r.value.0 == entryDir && ResolvesWithExtension(env.fs, r.value.1, ResolveExtensions))
  {
  }

  /**
   * The output file lies in the output directory and is the plugin's name
   * with every whitespace character removed, followed by `.plugin.js`.
   */
  lemma OutputFileNamed(env: Env, options: Record<JsValue>, name: JsValue, nameExpr: string)
    requires OutputFile(env, options, name, nameExpr).Ok?
    ensures name.Str? && Prop(options, "output").Str?
    ensures var file := OutputFile(env, options, name, nameExpr).value.0;
      var outputDir := JoinPath(env.api, env.cwd, Prop(options, "output").s);
      file == outputDir + [env.api.sep] + (RemoveWhitespace(name.s) + ".plugin.js")
    ensures OutputFile(env, options, name, nameExpr).value.1
            == !CheckDirExists(env.fs, JoinPath(env.api, env.cwd, Prop(options, "output").s))
  {
  }

  /**
   * An error of the path stages is the configuration's error; a configuration
   * takes its entry and output file from them, has the module-comments plugin
   * exactly when `format.moduleComments` is truthy and the alias plugin
   * exactly when `importAliases` is, with one entry per alias.
   */
  lemma ConfigStages(env: Env, options: Record<JsValue>, pluginConfig: Record<JsValue>, meta: Record<JsValue>)
    ensures var r := GetRollupConfig(env, options, pluginConfig, meta);
      var entry := EntryPaths(env, options, pluginConfig);
      (entry.Err? ==> r == Err(entry.error))
      && (entry.Ok? && OutputFile(env, options, Prop(meta, "name"), "pluginMeta.name").Err? ==>
            r == Err(OutputFile(env, options, Prop(meta, "name"), "pluginMeta.name").error))
      && (r.Ok? ==> (entry.Ok? && r.value.input == entry.value.1
                     && r.value.file == OutputFile(env, options, Prop(meta, "name"), "pluginMeta.name").value.0))
    ensures var r := GetRollupConfig(env, options, pluginConfig, meta);
      r.Ok? ==>
        (r.value.moduleComments.Some? <==> Truthy(Member(Prop(options, "format"), "moduleComments")))
        && (r.value.aliases.Some? <==> Truthy(Prop(options, "importAliases")))
        && (r.value.aliases.Some? ==> |r.value.aliases.value| == |OwnProps(Prop(options, "importAliases"))|)
  {
  }

  /**
   * In a string option the first `[plugin]` becomes the plugin's name, the
   * text before it is kept, and the rest is expanded the same way.
   */
  lemma ScopedNameTemplate(before: string, after: string, pluginName: string)
    requires !Contains(before, "[plugin]")
    ensures ScopedNameOption(Str(before + "[plugin]" + after), pluginName)
            == Template(before + pluginName + ReplaceAll(after, "[plugin]", pluginName))
  {
    var p := "[plugin]";
    assert forall i :: 0 <= i < |p| - 1 ==> p[i] != p[|p| - 1];
    ReplaceAllAt(before, p, after, pluginName);
    var option := before + p + after;
    assert option[|before|] == '[';
  }

  /** A string option without the plugin placeholder is the naming template as given. */
  lemma ScopedNamePlain(option: JsValue, pluginName: string)
    requires option.Str? && option.s != [] && !Contains(option.s, "[plugin]")
    ensures ScopedNameOption(option, pluginName) == Template(option.s)
  {
    ReplaceAllAbsent(option.s, "[plugin]", pluginName);
  }

  /** A function option is called with the plugin's name, the local name and the file. */
  lemma ScopedNameCalled(api: PathApi, option: JsValue, pluginName: string, call: (string, string, string) -> string,
                         local: string, file: string)
    requires option.Fn?
    ensures ScopedClassName(api, ScopedNameOption(option, pluginName), call, local, file) == Some(call(pluginName, local, file))
  {
  }

  /**
   * Any other option derives `<plugin>-<file stem>-<local>`, where the stem
   * holds no dot and no path separator.
   */
  lemma ScopedNameDerived(api: PathApi, option: JsValue, pluginName: string, call: (string, string, string) -> string,
                          local: string, file: string)
    requires !option.Str? && !option.Fn?
    ensures var n := ScopedClassName(api, ScopedNameOption(option, pluginName), call, local, file).value;
      StartsWith(n, pluginName + "-") && EndsWith(n, "-" + local)
      && '.' !in n[|pluginName| + 1..|n| - |local| - 1] && api.sep !in n[|pluginName| + 1..|n| - |local| - 1]
  {
    var b := Basename(api, file);
    var stem := BeforeFirst(b, '.');
    var head, tail := pluginName + "-", "-" + local;
    assert ScopedNameOption(option, pluginName) == Derived(pluginName);
    assert pluginName + "-" + stem + "-" + local == head + stem + tail;
    Framed(head, stem, tail);
    var n := head + stem + tail;
    assert n[|head|..|n| - |tail|] == stem;
    forall i | 0 <= i < |stem|
      ensures stem[i] != api.sep
    {
      assert stem[i] == b[..|stem|][i];
    }
  }
}
