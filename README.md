# BundleBD, modelled in Dafny

BundleBD bundles a BetterDiscord plugin written as a module tree (TypeScript, JSX, CSS, CSS modules, text files) into the single `<Name>.plugin.js` file that BetterDiscord loads. The repository carries three generations of the tool and the small runtime library plugins import:

- the current command-line bundler under `bin/`: option resolution from the command line, `bundlebd.config.js` and defaults; the `plugin.json` manifest; the rollup configuration (globals, aliases, CSS-module naming, output path); the rollup plugins that prefix module comments, rewrite `var` to `const`, compress template literals, inject the style loader and substitute CSS modules; and the post-processing of the bundle (indent rewrite, optional ZLibrary wrapper, meta header, dev copy into BetterDiscord's plugin folder);
- the earlier rollup CLI under `src/bin/` with its own manifest reader, rollup configuration, meta template, module-comment plugin and style loader;
- the webpack-based generation under `src/` (`config.ts`, `index.ts`, `utils.ts`, the style loader and `styles` module, and the ZLibrary template);
- the runtime helpers plugins import: `styles.ts`, `settings.ts`, `strings.ts` at the root and their `lib/` successors, plus the webpack module filters in `lib/webpackutils.ts` and `src/lib/webpackutils.ts`.

Each source file is one Dafny module. Pure transformations (plugins, templates, config builders) are functions with lemmas that state what they keep and what they rewrite. Code that works by mutation becomes imperative Dafny: the settings and strings managers and the style buffers are classes whose methods are proved against specification functions, and the loops of the manifest readers, the argument reducer, the alias and replacement builders, the placeholder filler and the module filters are methods with loop invariants. JavaScript objects are ordered key/value sequences with unique keys (insertion order stands for the order `for…in`, `Object.keys` and spreads see). A fatal `Logger.error` of the build tools is an `Err` outcome that stops the run, so only the first error of a run is ever reported; warnings are an appended list. The rollup and webpack engines, the file system and `JSON.stringify` are parameters.

The manifest readers (`bin/config/plugin.ts`, `src/bin/config/plugin.ts`) stop at the first missing required field, because `Logger.error` ends the process; the model follows that code rather than the intention of reporting every missing field.

## Model

| member | source | states |
|---|---|---|
| Bundle.VersionReadsNoConfiguration | bin/index.ts:14-19 | with `--version` first, the run only answers `v<version>`, whatever the config file and the platform's BetterDiscord path |
| Bundle.OtherwiseOptionsResolved | bin/index.ts:16-21 | any other command line goes on to resolve the bundler options |
| Bundle.ReindentFromUnchanged | bin/index.ts:34 | where no two-space indent unit matches from a position on, the indent rewrite copies the rest of the text unchanged |
| Bundle.ReindentNoDoubleSpace | bin/index.ts:34 | text without two adjacent spaces is left as it is by the indent rewrite |
| Bundle.ReindentTwoSpacesFrom | bin/index.ts:34 | with a two-space indent option, the indent rewrite changes nothing |
| Bundle.LeadingUnitsConverted | bin/index.ts:34 | a line starting with `2k` spaces gets `k` copies of the indent option in their place |
| Bundle.MidLineRunConverted | bin/index.ts:34 | the lookbehind `(?<=^| {2}|\t)` also fires in mid-line: `x    y` becomes `x  \ty` with a tab indent |
| Bundle.ReindentFixedFrom | bin/index.ts:34 | scanning the indent step's output again, after any text that agrees with the scan so far, rewrites nothing |
| Bundle.ReindentIdempotent | bin/index.ts:34 | with an indent unit that holds no space (the default tab among them) the indent step is idempotent |
| Bundle.ReindentSpacedUnitNotIdempotent | bin/index.ts:34 | with a four-space indent unit a second pass converts again: two spaces become four, then eight |
| Bundle.PostProcessPlain | bin/index.ts:32-36 | output with no double space, no `/* @__PURE__ */` and no `require('react')` line only loses its trailing white space |
| Bundle.PostProcessStripsWhenUnique | bin/index.ts:32-36 | when no `require('react')` line is left after the annotation step, the chain's result is that step's result |
| Bundle.AnnotationRemoved | bin/index.ts:35 | the annotation step keeps the text before the first `/* @__PURE__ */ `, drops that annotation and rewrites the rest the same way |
| Bundle.ReactLineCollapsed | bin/index.ts:36 | the first `\nrequire('react');\n` line collapses to one newline, with the text before and after it kept |
| Bundle.WordEnd | bin/index.ts:42-43 | the `\S+` run from a position ends at the first white-space character or the end of the code |
| Bundle.DeclaresAtMatches | bin/index.ts:42-43 | the decision at one position agrees with the regular expression `\nvar \S+ = <name>;\n` matching there |
| Bundle.DeclaresFrom | bin/index.ts:42-43 | true exactly when a `\nvar \S+ = <name>;\n` declaration starts at or after the position |
| Bundle.Declares | bin/index.ts:42-43 | `.test(code)` is true exactly when the code declares a variable bound to `Library` (or `BasePlugin`) somewhere |
| Bundle.ImportWarnings | bin/index.ts:42-52 | one warning, exactly when the code imports `Library` or `BasePlugin` and the build has no ZeresPluginLibrary support |
| Bundle.TranslateError | bin/index.ts:74-78 | rollup's missing-default-export complaint becomes the plain message; any other error is reported as is |
| Bundle.DevCopyEffects | bin/index.ts:57-71 | the dev step writes nothing, emits at most a copy and its log line, puts an error alone, and copies exactly when the decision was to copy, from the output path |
| Bundle.DevCopyDecision | bin/index.ts:57-71 | nothing outside dev mode; a warning when `bdPath` is unset; nothing for `none`; a copy into `<bdPath>/plugins/<file>` exactly when dev mode is on and `bdPath` is a real existing directory |
| Bundle.WellOrderedAround | bin/index.ts:47-71 | warnings, then the write and its log line, then a dev-copy tail: the write is at the position after the warnings and no copy precedes it |
| Bundle.Finish | bin/index.ts:42-71 | after wrapping, only the last effect can be an error, the file is written right after the import warning, and no copy precedes the write |
| Bundle.Wrap | bin/index.ts:38-40 | the library wrapper first, then the install script, then the metadata header outermost; the library configuration object gains the plugin's `info` in place |
| Bundle.Bundle | bin/index.ts:27-79 | a rollup failure gives exactly one translated error; otherwise the post-processed, wrapped code is written and copied as `Finish` says, in a well-ordered effect list |
| Bundle.ZLibraryNeverConfigured | bin/index.ts:38 | no manifest can set `pluginConfig.zlibrary` in this version, so the ZeresPluginLibrary wrapper is never applied by the composed pipeline |
| BundlerOptions.CamelFromSplit | bin/config/bundler.ts:58-61 | reading the option character by character, dropping each dash and upper-casing what follows, equals the split/capitalise/join of its dash-separated segments |
| BundlerOptions.CamelCaseIsSplitForm | bin/config/bundler.ts:58-61 | the key of a `--option` flag is the source's `split("-").map(...).join("")` formulation |
| BundlerOptions.CamelFromKeepsLetters | bin/config/bundler.ts:58-61 | the conversion removes every dash and, up to case, keeps every other character in order |
| BundlerOptions.CamelCaseKeepsLetters | bin/config/bundler.ts:58-61 | a flag's key has no dash and is the flag name without dashes, up to case |
| BundlerOptions.NoDashUnchanged | bin/config/bundler.ts:58-61 | a flag name without dashes is its own key |
| BundlerOptions.BdPathExample | bin/config/bundler.ts:58-61 | `--bd-path` sets the `bdPath` option |
| BundlerOptions.Coerce | bin/config/bundler.ts:65-67 | exactly the strings `true` and `false` become booleans; any other value is kept as the string itself |
| BundlerOptions.ArgsAsWrites | bin/config/bundler.ts:50-73 | the object the `reduce` builds is the tokens' assignments applied in order to `{}` |
| BundlerOptions.ReduceStep | bin/config/bundler.ts:50-72 | one callback call writes the token's assignment, if any, and appends its warning, if any |
| BundlerOptions.ParseArgs | bin/config/bundler.ts:50-73 | the loop over `argv` yields the options object and the warnings of the whole reduction |
| BundlerOptions.ArgsLastWins | bin/config/bundler.ts:50-73 | every command-line key holds the value of its last assignment |
| BundlerOptions.AssignmentAllowed | bin/config/bundler.ts:51-68 | every key a token writes is `input` or in the allowlist `input`, `output`, `bdPath`, `dev`, `plugin` |
| BundlerOptions.ArgKeysAllowed | bin/config/bundler.ts:24-73 | only allowlisted keys appear in the command-line options |
| BundlerOptions.OneWarningPerUnknownFlag | bin/config/bundler.ts:69 | exactly one warning per flag whose key is not allowlisted |
| BundlerOptions.FirstTokenIsInput | bin/config/bundler.ts:51-53 | a first token that is not a flag becomes `input` unless a later `--input` overrides it |
| BundlerOptions.NonFlagTokenIsInert | bin/config/bundler.ts:51-70 | a non-flag token after the first writes nothing and warns about nothing |
| BundlerOptions.ArgsUnique | bin/config/bundler.ts:50-73 | the command-line options never name a key twice |
| BundlerOptions.ConfigValue | bin/config/bundler.ts:79-83 | a function-valued config file is called with the plugin option and `dev \|\| false`; an object is used as it is |
| BundlerOptions.UnknownConfigWarnings | bin/config/bundler.ts:85-89 | at most one warning per config key |
| BundlerOptions.OneWarningPerUnknownKey | bin/config/bundler.ts:85-89 | exactly one warning per config key outside `input`, `output`, `bdPath`, `format`, `importAliases`, `postcssPlugins` |
| BundlerOptions.ProcessConfig | bin/config/bundler.ts:85-96 | a nullish config is fatal; unknown keys are warned about; the result is fatal exactly when `input` or `output` is present but falsy; a resolved config keeps exactly the config's keys and values, except that a truthy `format` becomes the default format overridden by it |
| BundlerOptions.FalsyPathIsFatal | bin/config/bundler.ts:91-92 | a config file setting `input` or `output` to a falsy value stops the whole option resolution |
| BundlerOptions.FormatMergedOverDefaults | bin/config/bundler.ts:94-99 | a truthy config `format` not overridden on the command line reaches the options merged over `moduleComments: true` and a tab indent |
| BundlerOptions.GetBundlerOptions | bin/config/bundler.ts:49-99 | without a config file the result is the defaults overridden by the command line, with the command line's warnings |
| BundlerOptions.Precedence | bin/config/bundler.ts:28-99 | each key reads from the command line, else from the config file, else from the defaults |
| BundlerOptions.UnknownConfigKeyKept | bin/config/bundler.ts:85-99 | a config key outside the allowlist is warned about yet still reaches the merged options |
| LegacyCli.LegacyReduceStep | src/bin/index.ts:49-67 | one callback call writes the token's raw-string assignment, if any, and appends the same warning as the later version |
| LegacyCli.LegacyParseArgs | src/bin/index.ts:49-68 | the loop over `argv` yields the options object and the warnings of the whole reduction |
| LegacyCli.AssignmentIsCoercedLegacy | src/bin/index.ts:62-63 | the later command line writes what the earlier one wrote, with flag values `true`/`false` turned into booleans |
| LegacyCli.SameKeysAsLater | src/bin/index.ts:49-68 | the earlier and the later command line set exactly the same keys |
| LegacyCli.LegacyConfigValue | src/bin/index.ts:77-79 | a function-valued config file is called with the plugin option only |
| LegacyCli.LegacyUnknownConfigWarnings | src/bin/index.ts:81-85 | at most one warning per config key |
| LegacyCli.LegacyProcessConfig | src/bin/index.ts:70-91 | a nullish config is fatal; unknown keys are warned about; the result is fatal exactly when `input` or `output` is present but falsy; otherwise the config is used unchanged (no `format` merge) |
| LegacyCli.LegacyFalsyPathIsFatal | src/bin/index.ts:81-93 | a config file setting `input` or `output` to a falsy value stops the earlier option resolution too |
| LegacyCli.LegacyOptions | src/bin/index.ts:26-93 | without a config file the result is the defaults overridden by the command line |
| LegacyCli.LegacyArgsUnique | src/bin/index.ts:49-68 | the command-line options never name a key twice |
| LegacyCli.LegacyPrecedence | src/bin/index.ts:93 | each key reads from the command line, else from the config file, else from the defaults |
| LegacyBundle.LegacyStart | src/bin/index.ts:42-93 | `--version` as the first token only answers `v<version>`; any other command line builds with the earlier options |
| LegacyBundle.LegacyWrap | src/bin/index.ts:110-112 | the library wrapper only for a truthy `zlibrary`, the install script only for a truthy `installScript`, and the metadata header outermost |
| LegacyBundle.LegacyBundleRun | src/bin/index.ts:99-150 | a rollup failure gives exactly one translated error; otherwise the tab-indented, post-processed and wrapped code goes through the same warning, write and dev-copy steps as the later version, in a well-ordered effect list |
| LegacyBundle.LegacyOutputHasHeader | src/bin/index.ts:112-126 | the file written to the output path holds the wrapped code and starts with the metadata comment |
| Stringify.UnquoteKeysNoColon | bin/utils.ts:27 | text with no `":` is left unchanged by the key-unquoting replacement |
| Stringify.KeyUnquoted | bin/utils.ts:27 | a quoted non-empty key without quotes inside, followed by a colon, loses its quotes and the rest is processed on |
| Stringify.UnquoteKeysQuoteFreePrefix | bin/utils.ts:27 | a prefix without any quote character passes through the replacement unchanged |
| FileChecks.EnsureDirExists | bin/utils.ts:16-24 | passes exactly when the path exists as a directory or a symbolic link; otherwise fails with the caller's message or `Cannot find directory '<path>'` |
| FileChecks.EnsureFileExists | bin/utils.ts:4-14 | with extensions, passes exactly when the path with one of them exists; without, exactly when the path exists; otherwise fails with the caller's message or `Cannot find file '<path>'` |
| PluginManifest.LastValueFound | bin/config/plugin.ts:46-52 | a key has a last value among the first `n` manifest entries exactly when one of them names it |
| PluginManifest.RouteGet | bin/config/plugin.ts:46-52 | after routing, an allowlisted key that the entries set reads its last value; every other key reads what the target held |
| PluginManifest.LastValueUnique | bin/config/plugin.ts:46-52 | on a manifest without repeated keys, the last value is the ordinary property read |
| PluginManifest.RouteKeys | bin/config/plugin.ts:46-52 | the routed object has a key exactly when the target had it or an entry sets it and it is allowlisted |
| PluginManifest.FirstMissing | bin/config/plugin.ts:57-60 | none exactly when every required key is present; otherwise the first required key in order that is absent |
| PluginManifest.Finish | bin/config/plugin.ts:57-62 | prints nothing; succeeds exactly when `name`, `author`, `description` and `version` are all present, else fails naming the first missing one; in dev mode only `version` changes, to `<version>-dev` |
| PluginManifest.CheckRequired | bin/config/plugin.ts:57-60 | the loop over the required keys stops at the first missing one |
| PluginManifest.Partition | bin/config/plugin.ts:46-52 | metadata keys go to the new metadata object, build keys into the shared configuration object, later entries overriding earlier ones, other keys nowhere |
| PluginManifest.GetPluginConfig | bin/config/plugin.ts:37-65 | without a manifest the run fails with `No manifest.json found...` and the configuration is untouched; otherwise the metadata is the routed entries checked by `Finish` and the configuration gains the routed build keys |
| PluginManifest.MetaOnlyMetaKeys | bin/config/plugin.ts:19-48 | the metadata has exactly the metadata keys the manifest sets |
| PluginManifest.BuildConfigFromDefaults | bin/config/plugin.ts:14-52 | the build configuration has exactly `entry` and `installScript`, each the manifest's last value or its default `index` / `true` |
| PluginManifest.SharedDefaultsPersist | bin/config/plugin.ts:40 | the default object is mutated in place, so a build key set by one manifest persists into a later call whose manifest does not set it |
| LegacyPluginManifest.GetPluginConfig | src/bin/config/plugin.ts:51-72 | without plugin.json one warning and both objects untouched; otherwise one warning per unknown key, metadata keys routed into the metadata object and `entry`, `installScript`, `zlibrary` into the build configuration, later entries overriding |
| LegacyPluginManifest.OneWarningPerUnknownKey | src/bin/config/plugin.ts:65-67 | exactly one warning per entry whose key is neither a metadata nor a build key |
| LegacyPluginManifest.MetaAlwaysComplete | src/bin/config/plugin.ts:22-62 | `name`, `author`, `description` and `version` are always present, holding the default when plugin.json does not set them |
| LegacyPluginManifest.ZLibraryDefault | src/bin/config/plugin.ts:29-64 | `zlibrary` is the last value plugin.json gives it, else `false` |
| RollupConfig.EndsWithAnyAppend | bin/config/rollup.ts:45-46 | a path matches an alternation of suffixes exactly when it matches one of its two halves |
| RollupConfig.ConstRegexExtendsStyles | bin/config/rollup.ts:45-46 | the const plugin's pattern accepts exactly the stylesheets and the image assets |
| RollupConfig.RequireCallInjective | bin/config/rollup.ts:54 | distinct module names give distinct `require('<name>')` keys |
| RollupConfig.CreateReplaced | bin/config/rollup.ts:48-57 | the delimiters are `= ` and `;`, assignment is prevented, and the values are the globals' replacements built key by key |
| RollupConfig.ReplacedLookup | bin/config/rollup.ts:53-55 | `require('<k>')` is replaced by `= <global>;` exactly for the globals' keys |
| RollupConfig.ReplacedKeys | bin/config/rollup.ts:53-55 | the replacement table has no key but the `require` calls of the globals |
| RollupConfig.Aliases | bin/config/rollup.ts:59-68 | succeeds exactly when every alias target is a string, with one entry per alias in order; otherwise the `.replace` type error |
| RollupConfig.CreateAliases | bin/config/rollup.ts:59-68 | the loop builds the entries `Aliases` describes |
| RollupConfig.WildcardNotBefore | bin/config/rollup.ts:63 | no `/*` occurrence starts inside an alias prefix that has none |
| RollupConfig.FirstWildcard | bin/config/rollup.ts:63-64 | `.replace("/*", r)` on `prefix/*suffix` replaces exactly the wildcard after the prefix |
| RollupConfig.PlainAliasKey | bin/config/rollup.ts:63 | an alias key without a wildcard or backslash matches itself exactly, anchored at both ends |
| RollupConfig.WildcardKey | bin/config/rollup.ts:63 | a wildcard key's pattern captures what stands in place of the `/*` |
| RollupConfig.WildcardAlias | bin/config/rollup.ts:62-65 | a wildcard alias sends the captured part into the target's wildcard position, resolved to an absolute path |
| RollupConfig.PolyfillGlobalsGet | bin/config/rollup.ts:120 | each polyfilled module is global `require('<name>')`, and no other key appears, once |
| RollupConfig.ExternalsHaveGlobals | bin/config/rollup.ts:118-130 | a module is external exactly when it has an output global; a polyfilled name reads its `require`, other names the plugin globals |
| RollupConfig.ReplacedGlobals | bin/config/rollup.ts:71-75 | `require('react')`, `require('react-dom')` and `require('betterdiscord')` become `BdApi.React`, `BdApi.ReactDOM` and `new BdApi("<name>")` |
| RollupConfig.EntryChecks | bin/config/rollup.ts:77-85 | a missing input directory fails with its message; an entry file that no extension resolves fails with the entry message; success returns the input directory and a resolvable entry |
| RollupConfig.OutputFileNamed | bin/config/rollup.ts:87-90 | the output file is `<output dir>/<name without white space>.plugin.js`, and the output directory is created exactly when it does not exist |
| RollupConfig.ConfigStages | bin/config/rollup.ts:70-185 | the entry checks run first, then the output path; a success has those paths as input and file, the module-comments plugin exactly when `format.moduleComments` is truthy, and the alias plugin, one entry per alias, exactly when `importAliases` is truthy |
| RollupConfig.ScopedNameTemplate | bin/config/rollup.ts:104-105 | in a string option the first `[plugin]` becomes the plugin name, the text before it is kept and the rest is expanded the same way |
| RollupConfig.ScopedNamePlain | bin/config/rollup.ts:104-105 | a non-empty string option without `[plugin]` is the scoped-name template as given |
| RollupConfig.ScopedNameCalled | bin/config/rollup.ts:106-107 | a function option is called with the plugin name, the local class name and the file |
| RollupConfig.ScopedNameDerived | bin/config/rollup.ts:108-110 | otherwise the class name is `<plugin>-<file stem>-<local>`, the stem holding no dot and no separator |
| RollupConfig.InjectStyle | bin/config/rollup.ts:97 | the injected code is a call of `_loadStyle` that opens with the file's quoted base name and ends with the CSS variable and `);` |
| RollupConfig.InjectedCallImported | bin/config/rollup.ts:97 | any stylesheet code that holds the injected call gets the style loader's `_loadStyle` import prepended, so the call always reaches StyleLoader.StyleBuffer.LoadStyle |
| LegacyRollupConfig.LegacyConfigShape | src/bin/config/rollup.ts:50-141 | fails exactly where the entry or output stage fails; a success is an `iife` bundle exactly for ZeresPluginLibrary plugins (`cjs` otherwise), derives CSS-module class names, always comments modules and never aliases |
| LegacyRollupConfig.LegacyOutputPath | src/bin/config/rollup.ts:71-74 | the earlier configuration writes `<output dir>/<name without white space>.plugin.js` as well |
| LegacyRollupConfig.LegacyGlobalsNotPolyfilled | src/bin/config/rollup.ts:22-59 | none of the plugin globals is a polyfilled module |
| LegacyRollupConfig.LegacyGlobalAt | src/bin/config/rollup.ts:92-95 | every plugin global keeps its value in the output globals |
| LegacyRollupConfig.LegacyGlobalValues | src/bin/config/rollup.ts:51-59 | `zlibrary`, `zlibrary/plugin`, `lodash` and `meta` map to `Library`, `BasePlugin`, `_` and the stringified metadata |
| MetaTemplate.Meta | src/bin/templates/meta.ts:3-8 | the result opens the doc comment, ends with the closing line, a blank line and the code, and is as long as the header lines plus the code |
| MetaTemplate.MetaEmpty | src/bin/templates/meta.ts:3-8 | empty metadata gives an empty doc comment before the code |
| MetaTemplate.TagLinesPrefix | src/bin/templates/meta.ts:4-6 | the tag lines of the first `i` keys are a prefix of all tag lines |
| MetaTemplate.TagLineAt | src/bin/templates/meta.ts:4-6 | key `i` appears as ` * @key value` right after the lines of the keys before it |
| ZLibraryTemplate.ConfigLiteral | bin/templates/zlibrary.ts:26-28 | the literal lists `info`, `changelog`, `defaultConfig` first, and every other key reads as in the configuration |
| ZLibraryTemplate.Wrapper | bin/templates/zlibrary.ts:28-49 | the wrapper is `const config = <literal>;`, a blank line, the guard with its four-space runs replaced by the indent, the `buildPlugin` header, the body with every line indented (BodyIndentsLines), the indented `return Plugin;`, the closing brace and the `module.exports` line |
| ZLibraryTemplate.ZLibrary | bin/templates/zlibrary.ts:5-50 | a settings object has its `info` replaced in place by the default info overridden by its own; a boolean flag uses the default info alone; the result is the wrapper around the stringified literal |
| ZLibraryTemplate.FlagConfig | bin/templates/zlibrary.ts:18-26 | for a boolean flag the literal is the default info with undefined changelog and default settings |
| ZLibraryTemplate.DefaultInfoUnique | bin/templates/zlibrary.ts:6-16 | the default info names each key once |
| ZLibraryTemplate.MergedInfoGet | bin/templates/zlibrary.ts:23 | in the merged info the plugin's own `info` keys win over the defaults, and its keys are those of both |
| ZLibraryTemplate.MergeIdempotent | bin/templates/zlibrary.ts:23 | wrapping a second time with the same metadata, as the in-place update does on a rebuild, reads the same info and keys |
| ZLibraryTemplate.BodyIndentsLines | bin/templates/zlibrary.ts:44 | the body is every line of the code prefixed by one indent unit |
| ZLibraryTemplate.GuardKeptForFourSpaces | bin/templates/zlibrary.ts:30-41 | with a four-space indent the guard is left as written |
| ZLibraryTemplate.FourSpaceRunsReplaced | bin/templates/zlibrary.ts:41 | replacing every run of four spaces by a unit without spaces leaves no four spaces in a row |
| ZLibraryTemplate.GuardReindented | bin/templates/zlibrary.ts:30-41 | with an indent unit that holds no space the re-indented guard contains no run of four spaces |
| LegacyZLibraryTemplate.ZLibTemplate | src/templates/zlibrary.js:1-64 | the result starts with the JScript block and the `config` text and ends with `return Plugin;`, the `module.exports` line and the closing comment |
| LegacyZLibraryTemplate.FalsyChangelogOmitted | src/templates/zlibrary.js:27-38 | a falsy changelog writes the info alone, as if there were none |
| LegacyZLibraryTemplate.TruthyChangelogWritten | src/templates/zlibrary.js:37 | a truthy changelog follows the info as `, changelog: <JSON without key quotes>` |
| LegacyZLibraryTemplate.PackedLinesTabbed | src/templates/zlibrary.js:56 | the packed code's lines all carry one tab |
| ModuleComments.SliceFrom | bin/plugins/modulecomments.ts:18 | `slice(n)` is the suffix from `n`, or empty past the end |
| ModuleComments.RootLabel | bin/plugins/modulecomments.ts:13-15 | a plugin file's label, the root-relative path, holds no backslash |
| ModuleComments.PackageLabel | bin/plugins/modulecomments.ts:17-19 | a node_modules file's label is one path segment: it holds no separator |
| ModuleComments.BaseLabel | bin/plugins/modulecomments.ts:31-33 | an unknown file's label is exactly its last path segment (a non-empty, separator-free suffix of the id preceded by a separator), or the id itself when that segment is empty or there is no separator |
| ModuleComments.AliasLabelOf | bin/plugins/modulecomments.ts:23-25 | an aliased file's label ends with what follows the alias target's prefix in the id |
| ModuleComments.Commented | bin/plugins/modulecomments.ts:35 | the module's code is preceded by exactly one line `// <label>` |
| ModuleComments.Transform | bin/plugins/modulecomments.ts:11-36 | the transform prefixes the code with the comment for the id's label |
| ModuleComments.FirstAliasWins | bin/plugins/modulecomments.ts:22-28 | the first alias, in key order, whose target matches gives the label, and the loop stops there |
| ModuleComments.NoAliasMatches | bin/plugins/modulecomments.ts:22-28 | when no alias matches, the alias loop finds nothing |
| ModuleComments.UnmatchedIdKept | bin/plugins/modulecomments.ts:21-33 | with aliases configured but none matching, the id stays the full path: the base-name branch is not taken |
| ModuleComments.AliasLabel | bin/plugins/modulecomments.ts:23-25 | the label is the alias key without its `*` followed by the rest of the id after the target prefix |
| ModuleComments.PackageLabelled | bin/plugins/modulecomments.ts:17-19 | `node_modules/<pkg>/<rest>` is labelled `<pkg>` |
| ModuleComments.LegacyLabel | src/bin/plugins/modulecomments.ts:10-18 | the earlier transform labels as the later one does without aliases: root-relative paths without backslashes, and otherwise the id or a suffix of it |
| ConstPlugin.LineStartReplace | bin/plugins/const.ts:12 | text without the pattern is left unchanged by the `/^…/gm` replacement |
| ConstPlugin.FixLine | bin/plugins/const.ts:12 | a line that starts with the pattern gets the replacement in its place; any other line is unchanged; no character is introduced but the replacement's |
| ConstPlugin.FixEach | bin/plugins/const.ts:12 | the line-wise fix applied to each line, keeping the number of lines |
| ConstPlugin.Transform | bin/plugins/const.ts:10-14 | the transform returns code exactly for ids the regular expression accepts |
| ConstPlugin.ConstLine | bin/plugins/const.ts:12 | a `var ` line becomes `const `, an `export var ` line `export const `, any other line is unchanged |
| ConstPlugin.PlainRun | bin/plugins/const.ts:12 | within a line, away from its start, the replacement changes nothing |
| ConstPlugin.LastLine | bin/plugins/const.ts:12 | on a single line the replacement is the line-wise fix |
| ConstPlugin.NoMatchAcrossNewline | bin/plugins/const.ts:12 | a pattern without line terminators cannot match across a newline |
| ConstPlugin.MatchedLineThenRest | bin/plugins/const.ts:12 | a matching line is replaced and the replacement continues after its newline |
| ConstPlugin.KeptLineThenRest | bin/plugins/const.ts:12 | a non-matching line is kept and the replacement continues after its newline |
| ConstPlugin.LineThenRest | bin/plugins/const.ts:12 | the replacement is the fix of the first line, the newline, then the replacement of the rest |
| ConstPlugin.ByLines | bin/plugins/const.ts:12 | on text whose only line terminator is `\n`, the replacement is the line-wise fix of every line |
| ConstPlugin.KeepsOnlyNewlines | bin/plugins/const.ts:12 | the replacement introduces no other line terminator |
| ConstPlugin.ConstEach | bin/plugins/const.ts:12 | both rewrites applied to each line, keeping the number of lines |
| ConstPlugin.TwoPasses | bin/plugins/const.ts:12 | two chained replacements are two line-wise fixes per line |
| ConstPlugin.ConstLineIsTwoFixes | bin/plugins/const.ts:12 | the two fixes, in the source's order, compose to the `var`/`export var` rewrite |
| ConstPlugin.ConstByLine | bin/plugins/const.ts:11-12 | on matched ids the transform rewrites every line by `ConstLine` |
| ConstPlugin.ConstLineIdempotent | bin/plugins/const.ts:12 | rewriting a line twice gives the same as once |
| ConstPlugin.TransformKeepsOnlyNewlines | bin/plugins/const.ts:12 | the transform introduces no other line terminator |
| ConstPlugin.ConstEachNoNewline | bin/plugins/const.ts:12 | the rewritten lines still hold no newline |
| ConstPlugin.ConstIdempotent | bin/plugins/const.ts:11-12 | applying the transform to its own output changes nothing |
| CompressedTemplates.ClosingFrom | bin/plugins/compressedtemplates.ts:12 | the lazy `.*?[^\\]` stops at the first backtick at or after the position that follows a character other than a backslash |
| CompressedTemplates.TransformAsWritten | bin/plugins/compressedtemplates.ts:10-14 | returns code exactly for ids the regular expression accepts; code without backticks comes back unchanged |
| CompressedTemplates.Transform | bin/plugins/compressedtemplates.ts:10-14 | the corrected transform: code exactly for accepted ids, unchanged when there are no backticks |
| CompressedTemplates.CompressKeepsOutside | bin/plugins/compressedtemplates.ts:12 | the corrected rewrite leaves everything outside template literals unchanged |
| CompressedTemplates.CompressLeavesNoRawNewline | bin/plugins/compressedtemplates.ts:12 | after the corrected rewrite no template literal holds a raw newline |
| CompressedTemplates.AsWrittenPlain | bin/plugins/compressedtemplates.ts:12 | as written, text before the first backtick is kept |
| CompressedTemplates.CompressPlain | bin/plugins/compressedtemplates.ts:12 | corrected, text before the first backtick is kept |
| CompressedTemplates.CompressBody | bin/plugins/compressedtemplates.ts:12 | corrected, inside a literal each raw newline becomes `\n` |
| CompressedTemplates.AsWrittenLiteral | bin/plugins/compressedtemplates.ts:12 | as written, a non-empty literal not ending in a backslash has its newlines escaped and matching resumes after it |
| CompressedTemplates.AsWrittenSingle | bin/plugins/compressedtemplates.ts:12 | as written, code with one such literal is rewritten as intended |
| CompressedTemplates.CompressSingle | bin/plugins/compressedtemplates.ts:12 | corrected, code with one literal has exactly that literal's newlines escaped |
| CompressedTemplates.SingleTemplate | bin/plugins/compressedtemplates.ts:12 | on a single non-empty literal without backslashes both versions agree |
| CompressedTemplates.AsWrittenOnExample | bin/plugins/compressedtemplates.ts:12 | `` `` ``;\n`x` `` is rewritten as written into `` `` ``;\\n`x` `` |
| CompressedTemplates.OutsideOfAsWrittenExample | bin/plugins/compressedtemplates.ts:12 | in that output the code outside literals lost its newline |
| CompressedTemplates.OutsideOfExample | bin/plugins/compressedtemplates.ts:12 | in the input the code outside literals holds a raw newline |
| CompressedTemplates.CompressKeepsExample | bin/plugins/compressedtemplates.ts:12 | the corrected rewrite leaves the example as it is |
| CompressedTemplates.AsWrittenMisreadsEmptyTemplate | bin/plugins/compressedtemplates.ts:12 | as written, an empty literal makes the pattern pair the wrong backticks and rewrite code outside any literal; the corrected rewrite keeps the example |
| StyleLoader.Transform | bin/plugins/styleloader.ts:10-14 | a stylesheet module is changed exactly when the id is accepted and the code mentions `_loadStyle`, by putting the `_loadStyle` import before the unchanged code |
| StyleLoader.ResolveId | bin/plugins/styleloader.ts:15-18 | only the id `styles` is resolved, to itself |
| StyleLoader.Load | bin/plugins/styleloader.ts:19-37 | only `styles` is loaded, as a module that imports the DOM helper and declares the empty buffer |
| StyleLoader.LegacyLoad | src/bin/plugins/styleloader.ts:17-21 | the earlier virtual module is loaded only for `styles` and opens with the buffer declaration |
| StyleLoader.Entry | bin/plugins/styleloader.ts:25 | each stylesheet is recorded as `/*<path>*/`, a newline, its CSS and a newline |
| StyleLoader.EntriesAppend | bin/plugins/styleloader.ts:24-26 | the buffer after two runs of loads is the concatenation of their entries |
| StyleLoader.EarlierLoadsKept | bin/plugins/styleloader.ts:24-26 | later loads never change what earlier ones put in the buffer |
| StyleLoader.StyleBuffer.constructor | bin/plugins/styleloader.ts:23 | the buffer starts empty |
| StyleLoader.StyleBuffer.LoadStyle | bin/plugins/styleloader.ts:24-26 | `_loadStyle` appends the stylesheet's entry to the buffer |
| StyleLoader.StyleBuffer.AddStyles | bin/plugins/styleloader.ts:27-29 | `addStyles` passes the whole buffer to `DOM.addStyle` |
| StyleLoader.StyleBuffer.RemoveStyles | bin/plugins/styleloader.ts:30-32 | `removeStyles` calls `DOM.removeStyle` |
| StyleLoader.StyleBuffer.Styles | bin/plugins/styleloader.ts:33-35 | `styles()` returns the entries of every stylesheet loaded so far, in load order |
| StylesModule.SpacedEntry | src/modules/styles.js:4 | each stylesheet is recorded as `/* <path> */`, a newline, its CSS and a newline |
| StylesModule.LoadedStyles.constructor | src/modules/styles.js:1 | the buffer starts empty |
| StylesModule.LoadedStyles.Load | src/modules/styles.js:3-5 | `load` appends the stylesheet's entry |
| StylesModule.LoadedStyles.Styles | src/modules/styles.js:7-9 | `styles()` returns the entries of every stylesheet loaded so far, in load order |
| StylesModule.SpacedBufferLonger | src/modules/styles.js:4 | for the same loads the webpack buffer is exactly two characters per stylesheet longer than the rollup one, the spaces inside the comment |
| PluginStyles.Without | styles.ts:38 | the filter removes every copy of the CSS, keeps no more entries, and changes nothing when the CSS was not added |
| PluginStyles.WithoutAppend | styles.ts:38 | filtering distributes over concatenation |
| PluginStyles.WithoutCounts | styles.ts:38 | every other CSS string keeps its number of copies; the removed one has none |
| PluginStyles.AddThenRemoveRestores | styles.ts:28-40 | adding CSS that was not added before and removing it restores the list and the injected CSS |
| PluginStyles.Styles.constructor | styles.ts:7-8 | both the bundled and the added CSS start empty |
| PluginStyles.Styles.Load | styles.ts:13-15 | `_load` appends the CSS and a newline to the bundled CSS and leaves the added list alone |
| PluginStyles.Styles.Inject | styles.ts:20-22 | `inject` passes the bundled CSS to `injectCSS` under the plugin's name |
| PluginStyles.Styles.Add | styles.ts:28-31 | `add` appends the CSS to the list and injects the bundled CSS followed by the added list joined by newlines |
| PluginStyles.Styles.Remove | styles.ts:37-40 | `remove` drops every copy of the CSS and injects what remains |
| PluginStyles.Styles.Clear | styles.ts:45-48 | `clear` calls `clearCSS` and empties the added list; the bundled CSS stays |
| WebpackStyleLoader.ExportString | src/loaders/style.js:4-7 | a CSS module exports its class-name map with the CSS text; any other stylesheet exports the CSS text |
| WebpackStyleLoader.Style | src/loaders/style.js:8-11 | the output starts with the `load` import; content without css-loader's default export follows unchanged |
| WebpackStyleLoader.ReplacesFirstExport | src/loaders/style.js:8-11 | only the first default export is replaced, by the load call and the new export |
| WebpackStyleLoader.LoaderExportEndsOnce | src/loaders/style.js:9 | the searched export's last character occurs nowhere earlier in it, so no occurrence can overlap the next |
| WebpackStyleLoader.ReplacementLoads | src/loaders/style.js:10 | the replacement starts with `load("<base name>", ...)` |
| WebpackStyleLoader.ReplacementExports | src/loaders/style.js:4-10 | the replacement ends with the module export exactly for CSS modules |
| CssModules.GreedySemicolonIsLast | bin/plugins/cssModules.ts:14 | the greedy `.*;` from a position ends at the last `;` of that line, and there is no match when the line has none |
| CssModules.ModulesMatchHereIsGreedy | bin/plugins/cssModules.ts:14 | at a position, `modules(.*) = .*;` matches with the longest group and the longest tail, or not at all |
| CssModules.FirstModulesIsLeftmost | bin/plugins/cssModules.ts:14 | the declaration match found is the leftmost one; none means no position matches |
| CssModules.ExportMatchHereIsGreedy | bin/plugins/cssModules.ts:18 | at a position, `export default .*;` matches up to the line's last `;`, or not at all |
| CssModules.FirstExportIsLeftmost | bin/plugins/cssModules.ts:18 | the export match found is the leftmost one; none means no position matches |
| CssModules.Transform | bin/plugins/cssModules.ts:10-20 | code is returned exactly for ids in the map, rewritten with the id's mapped class-name object |
| CssModules.FirstModulesIsRegexMatch | bin/plugins/cssModules.ts:14 | the replaced declaration is the regular expression's own match: leftmost, with the greedy group and tail |
| CssModules.FirstExportIsRegexMatch | bin/plugins/cssModules.ts:18 | the replaced export is the regular expression's own match: leftmost and greedy |
| CssModules.NoDeclarationExportsUndefined | bin/plugins/cssModules.ts:13-18 | without a declaration the callback never runs, so the export becomes `export default modulesundefined;` |
| CssModules.NoMatchUnchanged | bin/plugins/cssModules.ts:13-18 | code with neither a declaration nor an export comes back unchanged |
| SrcUtils.Escape | src/utils.ts:4-6 | escaping never shortens the text and leaves text without special characters unchanged |
| SrcUtils.EscapeIsLiteral | src/utils.ts:4-6 | the escaped pattern matches exactly the original text: escaping is undone by reading the pattern literally |
| SrcUtils.Interleave | src/utils.ts:24 | a global replacement of the empty pattern inserts the value before every character and at the end |
| SrcUtils.ParseStringDefault | src/utils.ts:21 | without delimiters the placeholders are `[key]` |
| SrcUtils.ParseWithInOrder | src/utils.ts:23-26 | the keys are substituted one after another, in key order |
| SrcUtils.ParseWithAbsent | src/utils.ts:23-26 | a string with none of the placeholders comes back unchanged |
| SrcUtils.Dashed | src/utils.ts:10 | the options are exactly the arguments starting with `-` |
| SrcUtils.Plain | src/utils.ts:12 | the plain arguments are exactly those not starting with `-` |
| SrcUtils.ReadArgv | src/utils.ts:8-14 | development mode exactly when `--development` or `-D` is given; a plugin name exactly when some argument does not start with `-` |
| SrcUtils.PluginIsFirstPlain | src/utils.ts:12 | the plugin name is the first plain argument with its white space removed |
| SrcUtils.PlainStartsAt | src/utils.ts:12 | the first plain argument is the first argument not starting with `-` |
| WebpackConfig.ResolveBundleConfig | src/config.ts:47-57 | a resolved configuration keeps every key, in place, and prints nothing |
| WebpackConfig.GetBundleConfig | src/config.ts:40-59 | corrected (see Findings, src/config.ts:48): the configuration file over the defaults, each `[plugin]` placeholder in a string value filled in key by key, and non-string values passed through |
| WebpackConfig.FillPlaceholders | src/config.ts:47-57 | the loop over the merged keys computes the key-by-key resolution |
| WebpackConfig.ResolveKeeps | src/config.ts:48 | a value without `[plugin]` passes unchanged |
| WebpackConfig.ResolveSubstitutes | src/config.ts:53-55 | with a plugin argument, a value with `[plugin]` has every occurrence replaced by it |
| WebpackConfig.ResolveStops | src/config.ts:49-52 | without a plugin argument, a value with `[plugin]` is fatal, naming the key |
| WebpackConfig.FatalIsFinal | src/config.ts:49-52 | once fatal, later keys change nothing: the process has exited |
| WebpackConfig.FirstNeedingPlugin | src/config.ts:47-48 | the index found is of a value holding `[plugin]` |
| WebpackConfig.FirstNeedingPluginIsFirst | src/config.ts:47-48 | none exactly when no value holds `[plugin]`; otherwise no earlier value does |
| WebpackConfig.MissingPluginIsFatal | src/config.ts:47-57 | without a plugin argument the first key whose value needs it is the one reported; with none, the configuration is unchanged |
| WebpackConfig.PluginSubstituted | src/config.ts:47-57 | with a plugin argument every value has its placeholders filled in and the rest is unchanged |
| WebpackConfig.StepAgreesOnString | src/config.ts:48-55 | on a string value, the corrected step is the one as written |
| WebpackConfig.GuardAgreesOnStrings | src/config.ts:47-57 | when every value is a string, the corrected resolution agrees with the one as written |
| WebpackConfig.FileOverridesDefaults | src/config.ts:42-46 | a key of the configuration file overrides the default `entry: "src"`, `output: "dist"` |
| WebpackConfig.ReadmeFlagMerged | src/config.ts:42-46 | `{"readme": true}` merges into the defaults followed by `readme: true` |
| WebpackConfig.DefaultsNeedNoPlugin | src/config.ts:42 | the defaults hold no `[plugin]` |
| WebpackConfig.ReadmeFlagCrashesAsWritten | src/config.ts:48 | as written, `"readme": true` makes `config[key].includes` throw a type error |
| WebpackConfig.ReadmeFlagAccepted | src/config.ts:47-58 | corrected, the configuration `{"readme": true}` resolves to the defaults with `readme: true` |
| WebpackConfig.DeleteInvalidKeys | src/config.ts:88-93 | the loop deletes every key outside the accepted metadata keys and warns once per deleted key, in key order |
| WebpackConfig.GetPluginConfig | src/config.ts:61-99 | the loop-based reader computes the plugin configuration, warnings included |
| WebpackConfig.FilterMetaGet | src/config.ts:88-93 | after the first `n` keys, a visited key outside the accepted ones is gone and every other key reads as before |
| WebpackConfig.MetaKeepsOnlyAccepted | src/config.ts:69-93 | the kept metadata holds exactly its accepted keys, with their values |
| WebpackConfig.DefaultMetaRequired | src/config.ts:62-82 | `name`, `author`, `description` and `version` are accepted and have defaults |
| WebpackConfig.MetaAlwaysComplete | src/config.ts:62-93 | those four keys are always in the kept metadata, with the configured value or the default |
| WebpackConfig.WarningNamesKey | src/config.ts:90 | distinct keys give distinct warnings |
| WebpackConfig.WarnedExactlyInvalid | src/config.ts:88-93 | a key is warned about exactly when it is present and not accepted |
| WebpackConfig.NoConfigJsonDefaults | src/config.ts:98 | without config.json the configuration is the default metadata alone, named `Plugin` |
| WebpackConfig.OutputDirectory | src/config.ts:174 | in development `devOutput` unless it is nullish, otherwise `output` |
| WebpackConfig.OutputFilename | src/config.ts:173 | the file name ends in `.plugin.js` and has no white space before it |
| WebpackConfig.GetConfigs | src/config.ts:101-258 | corrected (see Findings, src/config.ts:48): the configuration step computes what `ConfigsOf` describes: bundle configuration with the string guard, entry check, plugin configuration and derived settings |
| WebpackConfig.MissingEntryDirIsFatal | src/config.ts:104-105 | a missing entry directory is fatal with `Cannot find entry directory '<dir>'` |
| WebpackConfig.SettingsDerived | src/config.ts:167-237 | the file name is the name without white space plus `.plugin.js`; watch follows development; the output path resolves `devOutput` or `output`; the library is assigned exactly for ZeresPluginLibrary plugins; the entry is the directory or the configured file in it; `pluginName` is external as the plugin's name |
| WebpackBuild.Warnings | src/index.ts:26-28 | one warning per message, in order |
| WebpackBuild.WarningsLostAsWritten | src/index.ts:24-29 | as written, a build that did not stop reports no warning at all, whatever webpack warned |
| WebpackBuild.OneWarningLostAsWritten | src/index.ts:24-29 | the warning `unused import` is dropped as written and reported by the corrected loop |
| WebpackBuild.ReportStats | src/index.ts:15-29 | the corrected reporting step computes the corrected stats effects |
| WebpackBuild.WarningsReported | src/index.ts:24-29 | corrected, a build that did not stop reports exactly its warnings, in order |
| WebpackBuild.StoppedPrintsOneError | src/index.ts:15-23 | a failed build prints one fatal error, webpack's own or its first compilation error, and nothing more |
| WebpackBuild.CutAt | src/index.ts:39 | the cut is at six characters or the end |
| WebpackBuild.InsertMeta | src/index.ts:39 | inserting the declaration adds exactly its length |
| WebpackBuild.InsertMetaRoundTrip | src/index.ts:38-39 | the declaration sits right after the first six characters, and removing it gives back the bundle |
| WebpackBuild.LibraryWarningsExclusive | src/index.ts:41-56 | at most one warning: the import warning exactly when the bundle imports the library without library support, the base-class warning exactly when library support is on without the base class |
| WebpackBuild.Header | src/index.ts:62-65 | the header opens the doc comment and ends with ` */` and a newline |
| WebpackBuild.LibraryWrappedByTemplate | src/index.ts:59 | the bundle is wrapped by the library template exactly for ZeresPluginLibrary plugins |
| WebpackBuild.HeaderListsKey | src/index.ts:62-65 | every metadata key appears as ` * @key value` after the keys before it |
| WebpackBuild.PluginFileHeader | src/index.ts:62-70 | the written plugin file starts with the metadata header |
| WebpackBuild.MetaOptions | src/index.ts:81 | each metadata value is offered to the README as its string form, in key order |
| WebpackBuild.ReadmeDestination | src/index.ts:75-88 | a found README is written once, into the configured README directory when `readme` is a string, else into the output directory |
| WebpackBuild.ReadmeWithoutPlaceholders | src/index.ts:81 | a README without `{{key}}` placeholders is copied unchanged |
| WebpackBuild.DevEffects | src/index.ts:92-111 | a copy is made exactly when the decision was to copy, from the built file into the decided place |
| WebpackBuild.DevCopyDecision | src/index.ts:92-107 | nothing outside development; a warning when `bdPath` is unset; nothing for `none`; a copy into `<bdPath>/plugins/<file>` exactly when the directory exists |
| WebpackBuild.OnBuild | src/index.ts:14-112 | the callback produces the effects `CallbackEffects` describes, with the corrected warning report |
| WebpackBuild.WriteBeforeCopy | src/index.ts:41-70 | the plugin file is written right after the library warnings, which are all warnings, to `<output path>/<file name>` with the header and wrapped bundle |
| WebpackBuild.WarningsFirst | src/index.ts:45-70 | warnings put before the write leave it at the position after them |
| Listeners.Added | lib/settings.ts:55 | `Set.add`: the listeners afterwards are the old ones and the new one, still without duplicates, and adding a present listener changes nothing |
| Listeners.Deleted | lib/settings.ts:56-58 | `Set.delete`: the listeners afterwards are the old ones except the deleted one, still without duplicates |
| Listeners.DeletedAbsent | lib/settings.ts:56-58 | deleting a listener that is not registered changes nothing |
| Listeners.RemoverUndoesAdd | lib/settings.ts:54-59 | calling the remover `addListener` returned, for a listener that was new, restores the listeners exactly |
| Listeners.Notifications | lib/settings.ts:46 | one call per listener, in registration order, each with the key and the new value |
| Listeners.NotifyAll | lib/settings.ts:46 | the loop over the listeners makes those calls |
| SettingsManager.LookupFallsBack | lib/settings.ts:33 | a stored value that is not nullish wins; otherwise the default setting's value is read |
| SettingsManager.LookupAfterSet | lib/settings.ts:33-43 | after `set`, the key reads the new value, or its default when the value is nullish; other keys read as before |
| SettingsManager.SettingsManager.constructor | lib/settings.ts:20-25 | the defaults are stored, the settings are the loaded data or `{}`, and there are no listeners |
| SettingsManager.SettingsManager.Get | lib/settings.ts:32-35 | `get` reads the stored setting, falling back to the defaults |
| SettingsManager.SettingsManager.Set | lib/settings.ts:42-47 | `set` stores the value, saves the whole settings object, then notifies every listener in order; nothing else changes |
| SettingsManager.SettingsManager.AddListener | lib/settings.ts:54-59 | the listener is added to the set, and the returned remover deletes that listener |
| SettingsManager.SettingsManager.Remove | lib/settings.ts:56-58 | calling a remover deletes its listener only |
| SettingsManager.SettingsManager.ClearListeners | lib/settings.ts:64-66 | no listener remains; the settings are untouched |
| StaticSettings.LookupPrecedence | settings.ts:29-31 | a stored non-nullish value wins, then a non-nullish `defaultValue` argument, then the value set by `setDefaults` |
| StaticSettings.AgreesWithManager | settings.ts:29-31 | without a `defaultValue` argument, the static `get` reads as `SettingsManager.get` does |
| StaticSettings.LookupAfterSet | settings.ts:29-39 | after `set`, the key reads the new value, or its fallbacks when the value is nullish; other keys read as before |
| StaticSettings.Settings.constructor | settings.ts:11-13 | the static initialisers: the loaded data or `{}`, no defaults and no listeners |
| StaticSettings.Settings.SetDefaults | settings.ts:19-21 | `setDefaults` replaces the defaults only |
| StaticSettings.Settings.Get | settings.ts:29-31 | `get` reads by the three-way precedence |
| StaticSettings.Settings.Set | settings.ts:38-42 | `set` stores the value, saves the settings, then notifies every listener in order |
| StaticSettings.Settings.AddListener | settings.ts:49-54 | the listener is added, and the remover deletes it |
| StaticSettings.Settings.Remove | settings.ts:51-53 | calling a remover deletes its listener only |
| StaticSettings.Settings.ClearListeners | settings.ts:59-61 | no listener remains; the settings are untouched |
| Locales.DefaultLocale | lib/strings.ts:67 | a non-empty given locale is used, otherwise `en-US`; the result is never empty |
| Locales.Select | lib/strings.ts:72-74 | the current locale's table when there is one, else the default locale's; a table is selected exactly when either exists |
| Locales.Lookup | lib/strings.ts:81-83 | a non-empty string of the selected table is returned; otherwise the default table's entry; reading from a missing table (none selected, or no default table when needed) throws the property-read type error |
| Locales.MissingLocaleReadsDefault | lib/strings.ts:72-83 | when Discord's locale has no table, every key is read from the default locale's table |
| Locales.MissingStringReadsDefault | lib/strings.ts:81-83 | a string the current locale leaves out or leaves empty is read from the default locale |
| Locales.LocaleLoadedAsWritten | lib/strings.ts:69-74 | as subscribed, the unbound handler throws and the selected table stays as it was |
| Locales.LocaleLoaded | lib/strings.ts:72-74 | a handler bound to its store throws nothing and selects the new locale's table |
| Locales.LocaleSwitchIgnoredAsWritten | lib/strings.ts:69 | after switching Discord from English to French, as written the store keeps reading `Hello`; a bound handler reads `Bonjour` |
| StringsManager.StringsManager.constructor | lib/strings.ts:65-70 | stores the locales and the default locale (given or `en-US`), selects the strings at once and subscribes |
| StringsManager.StringsManager.SetLocale | lib/strings.ts:72-74 | `setLocale` selects the table for Discord's locale, falling back to the default locale's, and changes nothing else |
| StringsManager.StringsManager.OnLocaleLoadedAsWritten | lib/strings.ts:69 | a dispatched `I18N_LOAD_SUCCESS` throws and leaves the store unchanged |
| StringsManager.StringsManager.Get | lib/strings.ts:81-83 | `get` reads the string as `Locales.Lookup` says, errors included |
| StringsManager.StringsManager.Unsubscribe | lib/strings.ts:88-90 | `unsubscribe` ends the subscription and leaves the strings alone |
| StaticStrings.Strings.constructor | strings.ts:54-56 | the static initialisers: no strings, no locales, default locale `en-US` |
| StaticStrings.Strings.SetDefaultLocale | strings.ts:66-68 | `setDefaultLocale` replaces the fallback locale; the selected strings stay until the next `setLocale` |
| StaticStrings.Strings.Initialize | strings.ts:74-78 | `initialize` stores the locales, selects the strings at once and subscribes |
| StaticStrings.Strings.SetLocale | strings.ts:58-60 | `setLocale` selects the table for Discord's locale, falling back to the default locale's |
| StaticStrings.Strings.OnLocaleLoadedAsWritten | strings.ts:77 | a dispatched `I18N_LOAD_SUCCESS` throws and leaves the strings unchanged |
| StaticStrings.Strings.Get | strings.ts:85-87 | `get` reads as `Locales.Lookup` says; before `initialize` it always throws |
| StaticStrings.Strings.Unsubscribe | strings.ts:92-94 | `unsubscribe` ends the subscription and leaves the strings alone |
| WebpackUtils.ById | lib/webpackutils.ts:46-48 | the filter accepts exactly the module whose id is the given one, whatever the export and module |
| WebpackUtils.ValuesOf | lib/webpackutils.ts:60 | `Object.values` lists each own property's value, in key order |
| WebpackUtils.Values | lib/webpackutils.ts:60 | `Object.values` throws exactly on a nullish export |
| WebpackUtils.ByValuesAnswer | lib/webpackutils.ts:55-68 | no filters accept everything; the filter throws exactly when there are filters and the export is nullish; otherwise it accepts exactly when every filter is satisfied by some property value |
| WebpackUtils.ByValues | lib/webpackutils.ts:56-67 | the loop gives that answer; on acceptance every filter was evaluated; on rejection it stopped at the first filter no value satisfies, all earlier ones being satisfied |
| WebpackUtils.FirstMatchFrom | lib/webpackutils.ts:90-95 | the first export key, from a position on, whose value the filter accepts, or none when no later value is accepted |
| WebpackUtils.ModuleWithKey | lib/webpackutils.ts:75-97 | when no module matched, reading `target.exports` throws; otherwise the exports and a key are returned |
| WebpackUtils.ModuleWithKeyIsFirst | lib/webpackutils.ts:90-96 | the key is the first export key, in key order, whose value the filter accepts, and none when no value is accepted |
| WebpackUtils.GetModuleWithKey | lib/webpackutils.ts:75-97 | the loop with its `break` computes `ModuleWithKey` |
| WebpackUtils.Store | lib/webpackutils.ts:37-39 | accepts exactly a non-nullish export with a truthy dispatch token and a `getName` method returning the name; throws exactly on a nullish export or a dispatch token without a `getName` method |
| WebpackUtils.ExpectModule | lib/webpackutils.ts:105-118 | a truthy module is returned with no side effect; otherwise the error is logged first, `onError` is called exactly when given, the error is thrown exactly when `fatal` is truthy, and the fallback is returned otherwise |
| WebpackUtils.FallbackNoteHonest | lib/webpackutils.ts:110-117 | the message says it uses the fallback exactly when a truthy fallback is returned; otherwise it says nothing about one |
| WebpackUtils.ErrorNamesModule | lib/webpackutils.ts:109-111 | the message names the module when a name is given, else the filter's text, and ends by asking to contact the developer |
| WebpackUtils.NoOptionsCrashesAsWritten | lib/webpackutils.ts:105-109 | as written, a missing module searched without options makes `options.name` throw a type error and logs nothing |
| WebpackUtils.NoOptionsReportsQuery | lib/webpackutils.ts:105-118 | corrected, the missing module is logged by its filter's text and `undefined` is returned |
| SrcWebpackUtils.Store | src/lib/webpackutils.ts:11-13 | accepts exactly a non-nullish export whose `getName` method returns the name; throws exactly on a nullish export or a `getName` that is neither missing nor a function |
| SrcWebpackUtils.StoreVersions | src/lib/webpackutils.ts:11-13 | on a Flux store the two versions of `store` agree; whatever the later one accepts the earlier one accepts; without a dispatch token the later one refuses |

## Left out

- A JavaScript number is an unbounded integer in the model (`JsValues.Num`), so fractions, `NaN`, the infinities and `-0` are not represented; this changes only their truthiness and string form, and the modelled code does not compute such numbers.
- The rollup and webpack engines, their watch modes (bin/index.ts:81-98, src/bin/index.ts:151-169, src/index.ts:14) and the async build calls are external engines; a build's output code, its errors and its warnings are parameters.
- File-system access (existence checks, reads, writes, copies, `mkdir`) is a parameter: an existence predicate, an already-read file content or an already-parsed config record, and a list of recorded writes.
- `require` of `bundlebd.config.js` is modelled as the config value it yields (a record or a function of the plugin name); JSON.parse of a config that is not an object is only partly modelled.
- The platform-dependent default BetterDiscord path (bin/config/bundler.ts:38-47, src/bin/index.ts:28-40) is a parameter.
- `JSON.stringify`, `js-beautify`, `path.resolve`, `path.relative` and `path.basename` are parameters or simple string functions; `path.join` is concatenation with the platform separator (`Paths.JoinPath`) and is not normalised.
- bin/templates/meta.ts and bin/templates/installscript.ts are not part of this model; the bin pipeline takes them as parameters.
- src/lib/logger.ts and src/bin/logger.ts are not part of this model: a build `Logger.error` is a fatal outcome, a warning is an appended message, and a plain `Logger.log` line is recorded as a `Log` effect in its place among the others; only `Logger.break` and the console styling are not recorded. src/logger.ts, which src/config.ts, src/index.ts and src/utils.ts import, is not part of this model either; it is assumed to behave like src/bin/logger.ts, whose `error(message, fatal = true)` calls `process.exit(1)`, so the webpack build's fatal errors are `Err` outcomes too. lib/logger.ts is not part of this model either, and its `error` is taken as non-fatal.
- JavaScript `TypeError` messages are abbreviated to the property access they report.
- Third-party plugin and loader options (esbuild, svgr, terser, styles, cleanup), webpack rules, loaders and optimisation settings are fixed data or left out.
- bin/plugins/text.ts, src/bin/plugins/text.ts, bin/plugins/meta.ts and bin/plugins/expandedstyles.ts are thin wrappers over `JSON.stringify`/`JSON.parse` and are left out.
- The JScript self-install block and the library-download modal text are opaque constant strings.
- CompressedTemplates.Transform: `${…}` nesting and backticks inside strings, comments or regular expressions are not recognised, exactly as the regular expression does not recognise them; the model states only what the regular expression does.
- ModuleComments.Transform: alias targets are matched as literal prefixes; regular-expression metacharacters inside an alias key are not modelled.
- WebpackUtils.ExpectModule: `onError` is a flag saying whether a callback is given; a non-function `onError`, which makes `options.onError?.()` throw a TypeError, is not modelled.
- Bundle.ReindentIdempotent: the indent step is idempotent only for an indent unit without spaces; with a spaced unit such as four spaces a second pass converts again (ReindentSpacedUnitNotIdempotent), and for any unit it also converts two-space runs in the middle of a line (MidLineRunConverted).
- `$` patterns in replacement strings (`$$`, `$&`, `` $` ``, `$'`) are not expanded by the model. JavaScript expands them where the replacement is user data: the plugin name in `replaceAll("[plugin]", …)` (bin/config/rollup.ts:105), the file's base name in the style loader (src/loaders/style.js:10), the argument and meta values given to `parseString` (src/utils.ts:24), the indent option in the re-indent step (bin/index.ts:34) and in the library wrapper (bin/templates/zlibrary.ts:41 and 44), the alias key in the module-comment label (bin/plugins/modulecomments.ts:25, where the `$1` is meant to be expanded and only a `$` inside the key is not modelled), and the captured module identifier in the CSS-modules export (bin/plugins/cssModules.ts:18). The model holds for values without `$`.
- ConstPlugin: the per-line lemmas speak of text whose only line terminator is `\n`; `\r` and the Unicode line separators that `^` with the `m` flag also honours are not modelled.
- CssModules.Transform: `id in cssModules` is modelled as a key lookup; inherited prototype keys are not modelled.
- ZLibrary configurations that are truthy but neither `true` nor an object are not modelled.
- for-in enumeration of inherited keys is not modelled; objects are their own keys in insertion order.
- JavaScript lists integer-like keys (`"0"`, `"12"`) first, in ascending numeric order, before the other keys in insertion order; the model uses insertion order for every key, so it matches JavaScript only for records without integer-like keys.
- Listeners are identities compared by equality; what a listener does when called, including re-entrant calls into the settings store, is not modelled, and a call is a recorded notification.
- BdApi `loadData` is an optional record given to the constructor, `saveData`, `injectCSS` and `clearCSS` are recorded calls.
- LocaleManager's current locale is a parameter, and the Dispatcher subscription is a flag.
- `Webpack.getModule` is a parameter: a sequence of modules searched in order; filters are total and never throw.
- WebpackUtils: `getStore` (lib/webpackutils.ts:27-29) is not modelled separately; it is `store` composed with the module search.
- The `useSettingState` React hooks (lib/settings.ts:73-81, settings.ts:69-77) are not modelled.
- StaticStrings.Strings.Get: requires `Valid()`, the invariant every method of the class keeps (no table is selected before the locales are stored).

## Findings

| source | as written | input that shows it | evidently intended | confidence | as-written member | corrected member |
|---|---|---|---|---|---|---|
| bin/plugins/compressedtemplates.ts:12 | the pattern needs at least one character between the backticks, so an empty template literal (two adjacent backticks) pairs its closing backtick with the opening one of the next template, and the text between the two templates is treated as the inside of a template | the code `` ``;\n`x` `` (an empty template, a semicolon, a newline, then the template `x`) | every template literal, empty or not, is one span; text between templates is not rewritten | high, not executed | CompressedTemplates.AsWrittenMisreadsEmptyTemplate | CompressedTemplates.CompressKeepsOutside |
| src/config.ts:48 | `.includes("[plugin]")` is called on every config value, so a non-string value (a boolean, a number) throws a TypeError | `{"readme": true}` in `bundlebd.config.json` | only string values are searched for `[plugin]`; other values pass through | high, not executed | WebpackConfig.ReadmeFlagCrashesAsWritten | WebpackConfig.ReadmeFlagAccepted |
| src/index.ts:25 | the loop meant to print the warnings iterates `stats.toJson().errors`, so when a build has warnings and no errors none of the warnings is printed | a build with one warning "unused import" and no errors | every warning is printed | high, not executed | WebpackBuild.OneWarningLostAsWritten | WebpackBuild.WarningsReported |
| lib/webpackutils.ts:109 | the error message reads `options.name` although `options` is optional, so a failed query without options throws a TypeError instead of reporting the query | `expectModule(filter)` for a module that is not found | the error names the filter when no name is given | high, not executed | WebpackUtils.NoOptionsCrashesAsWritten | WebpackUtils.NoOptionsReportsQuery |
| lib/strings.ts:69 | `this.setLocale` is subscribed unbound, so when the locale changes the handler runs without its store and the selected strings stay those of the start-up locale | Discord's locale switched from en-US to fr after start-up | the strings of the new locale are selected | medium, not executed | Locales.LocaleSwitchIgnoredAsWritten | Locales.LocaleLoaded |
