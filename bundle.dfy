/**
 * bin/index.ts: the command-line entry point. It answers `--version`, or
 * resolves the options and, for every build, post-processes rollup's output
 * (indentation, annotations, a redundant `require('react')`), wraps it
 * (ZeresPluginLibrary, install script, metadata header), warns about
 * ZeresPluginLibrary imports built without support for the library, writes
 * the plugin and, in dev mode, copies it into BetterDiscord's plugin folder.
 */
module Bundle {
  import opened Wrappers
  import opened Text
  import opened JsValues
  import opened Paths
  import opened Reports
  import opened FileChecks
  import opened BundlerOptions
  import opened RollupConfig
  import opened Stringify
  import opened ZLibraryTemplate
  import PluginManifest

  // ---------------------------------------------------------------------
  // Start-up

  /** What a start of the command does: print the version, or build with the resolved options. */
  datatype Launch = ShowVersion(text: string) | Build(options: Resolved<Record<JsValue>>)

  /** `--version` as the first argument prints `v<version>` and exits before anything else. */
  function Start(argv: seq<string>, version: string, configFile: Option<ConfigModule>,
                 platformBdPath: Option<string>): Launch {
    if |argv| > 0 && argv[0] == "--version" then ShowVersion("v" + version)
    else Build(GetBundlerOptions(argv, configFile, platformBdPath))
  }

  /** Asking for the version reads no configuration: the answer is the same whatever the config file. */
  lemma VersionReadsNoConfiguration(argv: seq<string>, version: string, configA: Option<ConfigModule>,
                                    configB: Option<ConfigModule>, bdPathA: Option<string>, bdPathB: Option<string>)
    requires |argv| > 0 && argv[0] == "--version"
    ensures Start(argv, version, configA, bdPathA) == Start(argv, version, configB, bdPathB) == ShowVersion("v" + version)
  {
  }

  /** Any other start resolves the options. */
  lemma OtherwiseOptionsResolved(argv: seq<string>, version: string, configFile: Option<ConfigModule>,
                                 platformBdPath: Option<string>)
    requires |argv| == 0 || argv[0] != "--version"
    ensures Start(argv, version, configFile, platformBdPath).Build?
  {
  }

  // ---------------------------------------------------------------------
  // Post-processing

  /**
   * `(?<=^| {2}|\t) {2}` with the `m` flag matches two spaces at `p`: at the
   * start of the text or of a line, after a tab, or after two spaces of the
   * original text (the lookbehind reads the input, not the output).
   */
  predicate IndentUnitAt(s: string, p: nat) {
    p + 2 <= |s| && s[p] == ' ' && s[p + 1] == ' '
    && (p == 0 || IsLineTerminator(s[p - 1]) || s[p - 1] == '\t' || (p >= 2 && s[p - 2] == ' ' && s[p - 1] == ' '))
  }

  /** The global replacement of those matches by `indent`, scanning from `p`. */
  function ReindentFrom(s: string, indent: string, p: nat): string
    requires p <= |s|
    decreases |s| - p
  {
    if p == |s| then []
    else if IndentUnitAt(s, p) then indent + ReindentFrom(s, indent, p + 2)
    else [s[p]] + ReindentFrom(s, indent, p + 1)
  }

  function Reindent(s: string, indent: string): string {
    ReindentFrom(s, indent, 0)
  }

  const PureAnnotation: string := "/* @__PURE__ */ "
  const RequireReact: string := "\nrequire('react');\n"

  /** The chain of bin/index.ts:32-36 on rollup's output. */
  function PostProcess(output: string, indent: string): string {
    ReplaceFirst(ReplaceAll(Reindent(TrimEnd(output), indent), PureAnnotation, ""), RequireReact, "\n")
  }

  /** Where the text has no match from `p` on, the scan copies it. */
  lemma {:induction false} ReindentFromUnchanged(s: string, indent: string, p: nat)
    requires p <= |s|
    requires forall q :: p <= q < |s| ==> !IndentUnitAt(s, q)
    ensures ReindentFrom(s, indent, p) == s[p..]
    decreases |s| - p
  {
    if p < |s| {
      ReindentFromUnchanged(s, indent, p + 1);
      assert s[p..] == [s[p]] + s[p + 1..];
    }
  }

  /** Text with no two-space run is left unchanged by the indent step. */
  lemma ReindentNoDoubleSpace(s: string, indent: string)
    requires forall q :: 0 <= q < |s| - 1 ==> !(s[q] == ' ' && s[q + 1] == ' ')
    ensures Reindent(s, indent) == s
  {
    ReindentFromUnchanged(s, indent, 0);
  }

  /** With rollup's own two-space indent as the target, the indent step changes nothing. */
  lemma {:induction false} ReindentTwoSpacesFrom(s: string, p: nat)
    requires p <= |s|
    ensures ReindentFrom(s, "  ", p) == s[p..]
    decreases |s| - p
  {
    if p < |s| {
      if IndentUnitAt(s, p) {
        ReindentTwoSpacesFrom(s, p + 2);
        assert s[p..] == "  " + s[p + 2..];
      } else {
        ReindentTwoSpacesFrom(s, p + 1);
        assert s[p..] == [s[p]] + s[p + 1..];
      }
    }
  }

  /** `n` copies of a text. */
  function Repeat(s: string, n: nat): string {
    if n == 0 then [] else s + Repeat(s, n - 1)
  }

  /**
   * A line that starts with `2k` spaces (at the start of the text or after a
   * line terminator at `start - 1`) gets `k` indent units for them.
   */
  lemma {:induction false} LeadingUnitsConverted(s: string, indent: string, start: nat, j: nat, k: nat)
    requires start + 2 * k <= |s| && j <= k
    requires start == 0 || IsLineTerminator(s[start - 1])
    requires forall q :: start <= q < start + 2 * k ==> s[q] == ' '
    ensures ReindentFrom(s, indent, start + 2 * j) == Repeat(indent, k - j) + ReindentFrom(s, indent, start + 2 * k)
    decreases k - j
  {
    if j < k {
      LeadingUnitsConverted(s, indent, start, j + 1, k);
      var p := start + 2 * j;
      assert s[p] == ' ' && s[p + 1] == ' ';
      assert p > start ==> s[p - 2] == ' ' && s[p - 1] == ' ';
      assert IndentUnitAt(s, p);
      var rest := ReindentFrom(s, indent, start + 2 * k);
      calc {
        ReindentFrom(s, indent, p);
        indent + ReindentFrom(s, indent, p + 2);
        indent + (Repeat(indent, k - (j + 1)) + rest);
        (indent + Repeat(indent, k - (j + 1))) + rest;
        Repeat(indent, k - j) + rest;
      }
    }
  }

  /**
   * The lookbehind also accepts two spaces in the middle of a line, so a run of
   * four spaces after other text keeps two and converts two: `x    y`
   * becomes `x  \ty` with a tab indent, inside string literals too.
   */
  lemma MidLineRunConverted()
    ensures Reindent("x    y", "\t") == "x  \ty"
  {
    var s := "x    y";
    assert !IndentUnitAt(s, 0) && !IndentUnitAt(s, 1) && !IndentUnitAt(s, 2) && IndentUnitAt(s, 3);
    assert !IndentUnitAt(s, 5);
    assert ReindentFrom(s, "\t", 6) == [];
    assert ReindentFrom(s, "\t", 5) == "y";
    assert ReindentFrom(s, "\t", 3) == "\ty";
  }

  /** The lookbehind `(?<=^| {2}|\t)` with the `m` flag, at position `q` of `x`. */
  predicate IndentLookbehind(x: string, q: nat)
    requires q <= |x|
  {
    q == 0 || IsLineTerminator(x[q - 1]) || x[q - 1] == '\t' || (q >= 2 && x[q - 2] == ' ' && x[q - 1] == ' ')
  }

  /**
   * What the scan of `s` has written so far (`written`) when it reaches `p`:
   * where the written text would let the pattern match, so does `s` at `p`,
   * and a written text ending in a space was copied from a space of `s`.
   */
  predicate WrittenAgrees(written: string, s: string, p: nat)
    requires p <= |s|
  {
    (IndentLookbehind(written, |written|) ==> IndentLookbehind(s, p))
    && (written != [] && written[|written| - 1] == ' ' ==> p > 0 && s[p - 1] == ' ')
  }

  /** The scan copies a stretch without spaces. */
  lemma {:induction false} SpaceFreeCopied(u: string, indent: string, q: nat, n: nat)
    requires q + n <= |u| && ' ' !in u[q..q + n]
    ensures ReindentFrom(u, indent, q) == u[q..q + n] + ReindentFrom(u, indent, q + n)
    decreases n
  {
    if n > 0 {
      var head, tail := u[q..q + n], u[q + 1..q + n];
      assert head == [u[q]] + tail;
      assert u[q] == head[0] != ' ';
      assert ' ' !in tail by {
        assert forall c :: c in tail ==> c in head;
      }
      SpaceFreeCopied(u, indent, q + 1, n - 1);
      assert ReindentFrom(u, indent, q) == [u[q]] + ReindentFrom(u, indent, q + 1);
      assert [u[q]] + (tail + ReindentFrom(u, indent, q + n)) == head + ReindentFrom(u, indent, q + n);
    }
  }

  /** After a match of `s` at `p` the written text still agrees with the scan. */
  lemma UnitAgrees(s: string, indent: string, p: nat, written: string)
    requires ' ' !in indent && p <= |s| && IndentUnitAt(s, p)
    ensures WrittenAgrees(written + indent, s, p + 2)
  {
    var next := written + indent;
    assert IndentLookbehind(s, p + 2);
    if indent != [] {
      assert next[|next| - 1] == indent[|indent| - 1];
    } else {
      assert next == written;
    }
  }

  /** The second scan copies an indent unit without spaces wherever it stands. */
  lemma UnitCopied(written: string, indent: string, rest: string)
    requires ' ' !in indent
    ensures var u := (written + indent) + rest;
      ReindentFrom(u, indent, |written|) == indent + ReindentFrom(u, indent, |written + indent|)
  {
    var u := (written + indent) + rest;
    var n, m := |written|, |indent|;
    assert |written + indent| == n + m;
    assert u[n..n + m] == indent;
    calc {
      ReindentFrom(u, indent, n);
      { SpaceFreeCopied(u, indent, n, m); }
      u[n..n + m] + ReindentFrom(u, indent, n + m);
      indent + ReindentFrom(u, indent, n + m);
    }
  }

  /** A match of `s` at `p`: the scan writes the indent unit, which the second scan copies. */
  lemma UnitStep(s: string, indent: string, p: nat, written: string)
    requires ' ' !in indent && p <= |s| && IndentUnitAt(s, p)
    ensures var r2 := ReindentFrom(s, indent, p + 2);
      ReindentFrom((written + indent) + r2, indent, |written + indent|) == r2
      ==> ReindentFrom(written + ReindentFrom(s, indent, p), indent, |written|) == ReindentFrom(s, indent, p)
  {
    var r2 := ReindentFrom(s, indent, p + 2);
    assert ReindentFrom(s, indent, p) == indent + r2;
    assert written + (indent + r2) == (written + indent) + r2;
    UnitCopied(written, indent, r2);
  }

  /** No match of `s` at `p`: the scan copies `s[p]`, and neither does the second scan match there. */
  lemma CopyStep(s: string, indent: string, p: nat, written: string)
    requires p < |s| && !IndentUnitAt(s, p) && WrittenAgrees(written, s, p)
    ensures WrittenAgrees(written + [s[p]], s, p + 1)
    ensures var r1 := ReindentFrom(s, indent, p + 1);
      ReindentFrom((written + [s[p]]) + r1, indent, |written + [s[p]]|) == r1
      ==> ReindentFrom(written + ReindentFrom(s, indent, p), indent, |written|) == ReindentFrom(s, indent, p)
  {
    var next := written + [s[p]];
    assert next[|next| - 1] == s[p];
    assert |next| >= 2 ==> next[|next| - 2] == written[|written| - 1];
    var r1 := ReindentFrom(s, indent, p + 1);
    assert ReindentFrom(s, indent, p) == [s[p]] + r1;
    var u := next + r1;
    assert written + ([s[p]] + r1) == u;
    assert u[|written|] == s[p];
    if s[p] == ' ' && IndentLookbehind(written, |written|) && p + 1 < |s| {
      assert !IndentUnitAt(s, p + 1);
      assert u[|written| + 1] == s[p + 1];
    }
    assert IndentLookbehind(u, |written|) == IndentLookbehind(written, |written|);
    assert !IndentUnitAt(u, |written|);
  }

  /**
   * Scanning the output of the scan again, from where the text written
   * before it ends, finds nothing to rewrite.
   */
  lemma {:induction false} ReindentFixedFrom(s: string, indent: string, p: nat, written: string)
    requires ' ' !in indent && p <= |s| && WrittenAgrees(written, s, p)
    ensures ReindentFrom(written + ReindentFrom(s, indent, p), indent, |written|) == ReindentFrom(s, indent, p)
    decreases |s| - p
  {
    if p == |s| {
      assert |written + ReindentFrom(s, indent, p)| == |written|;
    } else if IndentUnitAt(s, p) {
      UnitAgrees(s, indent, p, written);
      UnitStep(s, indent, p, written);
      ReindentFixedFrom(s, indent, p + 2, written + indent);
    } else {
      CopyStep(s, indent, p, written);
      ReindentFixedFrom(s, indent, p + 1, written + [s[p]]);
    }
  }

  /** With an indent unit that holds no space, the indent step is idempotent. */
  lemma ReindentIdempotent(s: string, indent: string)
    requires ' ' !in indent
    ensures Reindent(Reindent(s, indent), indent) == Reindent(s, indent)
  {
    ReindentFixedFrom(s, indent, 0, []);
    assert [] + Reindent(s, indent) == Reindent(s, indent);
  }

  /** With an indent unit of four spaces, a second pass converts again. */
  lemma ReindentSpacedUnitNotIdempotent()
    ensures Reindent("  ", "    ") == "    "
    ensures Reindent(Reindent("  ", "    "), "    ") == "        "
  {
    assert IndentUnitAt("  ", 0);
    assert ReindentFrom("  ", "    ", 2) == [];
    var t := "    ";
    assert IndentUnitAt(t, 0) && IndentUnitAt(t, 2);
    assert ReindentFrom(t, "    ", 4) == [];
    assert ReindentFrom(t, "    ", 2) == "    ";
  }

  /** A text that needs none of the rewrites only loses its trailing white space. */
  lemma PostProcessPlain(output: string, indent: string)
    requires var t := TrimEnd(output);
      (forall q :: 0 <= q < |t| - 1 ==> !(t[q] == ' ' && t[q + 1] == ' '))
      && !Contains(t, PureAnnotation) && !Contains(t, RequireReact)
    ensures PostProcess(output, indent) == TrimEnd(output)
  {
    var t := TrimEnd(output);
    ReindentNoDoubleSpace(t, indent);
    ReplaceAllAbsent(t, PureAnnotation, "");
    assert IndexOf(t, RequireReact).None?;
  }

  /** The annotation-free, `require('react')`-free result of the last two steps. */
  lemma PostProcessStripsWhenUnique(output: string, indent: string)
    ensures var s := ReplaceAll(Reindent(TrimEnd(output), indent), PureAnnotation, "");
      !Contains(s, RequireReact) ==> PostProcess(output, indent) == s
  {
  }

  /** Two occurrences of the annotation can never overlap. */
  lemma PureAnnotationBorderFree()
    ensures BorderFree(PureAnnotation)
  {
    var p := PureAnnotation;
    assert |p| == 16 && p[0] == '/' && p[1] == '*' && p[15] == ' ';
    assert forall d :: 0 < d < 16 && d != 14 ==> p[d] != '/';
    forall d | 0 < d < |p|
      ensures p[d..] != p[..|p| - d]
    {
      if d == 14 {
        assert p[d..][1] == p[15] && p[..|p| - d][1] == p[1];
      } else {
        assert p[d..][0] == p[d] && p[..|p| - d][0] == p[0];
      }
    }
  }

  /**
   * The annotation step removes an annotation: text before the first one is
   * kept, the annotation is dropped, and the rest is rewritten the same way.
   */
  lemma AnnotationRemoved(k: string, rest: string)
    requires !Contains(k, PureAnnotation)
    ensures ReplaceAll(k + PureAnnotation + rest, PureAnnotation, "") == k + ReplaceAll(rest, PureAnnotation, "")
  {
    PureAnnotationBorderFree();
    forall j | 0 <= j < |k|
      ensures !StartsWith((k + PureAnnotation + rest)[j..], PureAnnotation)
    {
      NotBeforeBorderFree(k, PureAnnotation, rest, j);
    }
    ReplaceAllFrom(k, PureAnnotation, rest, "");
    assert k + "" == k;
  }

  /**
   * The last step collapses the first `\nrequire('react');\n` line to a
   * single newline and keeps everything around it.
   */
  lemma ReactLineCollapsed(output: string, indent: string, k: string, rest: string)
    requires ReplaceAll(Reindent(TrimEnd(output), indent), PureAnnotation, "") == k + RequireReact + rest
    requires forall j :: 0 <= j < |k| ==> !StartsWith((k + RequireReact + rest)[j..], RequireReact)
    ensures PostProcess(output, indent) == k + "\n" + rest
  {
    ReplaceFirstFrom(k, RequireReact, rest, "\n");
  }

  // ---------------------------------------------------------------------
  // Detecting ZeresPluginLibrary imports

  /** `\nvar \S+ = <name>;\n` matches at `i`, with the variable name ending just before `j`. */
  predicate DeclarationAt(code: string, i: nat, j: nat, name: string) {
    i + 5 < j <= |code| && code[i..i + 5] == "\nvar "
    && (forall m :: i + 5 <= m < j ==> !IsWhitespace(code[m]))
    && StartsWith(code[j..], " = " + name + ";\n")
  }

  /** The end of the run of non-white-space characters that starts at `k`. */
  function WordEnd(code: string, k: nat): (r: nat)
    requires k <= |code|
    ensures k <= r <= |code|
    ensures forall m :: k <= m < r ==> !IsWhitespace(code[m])
    ensures r < |code| ==> IsWhitespace(code[r])
    decreases |code| - k
  {
    if k == |code| || IsWhitespace(code[k]) then k else WordEnd(code, k + 1)
  }

  /** The match at `i`, decided: `\S+` must stop where the word ends, at the space before `=`. */
  predicate DeclaresAt(code: string, i: nat, name: string) {
    i + 5 <= |code| && code[i..i + 5] == "\nvar " && WordEnd(code, i + 5) > i + 5
    && StartsWith(code[WordEnd(code, i + 5)..], " = " + name + ";\n")
  }

  /** Deciding at `i` agrees with the regular expression's match at `i`. */
  lemma DeclaresAtMatches(code: string, i: nat, name: string)
    ensures DeclaresAt(code, i, name) <==> exists j: nat :: DeclarationAt(code, i, j, name)
  {
    if DeclaresAt(code, i, name) {
      assert DeclarationAt(code, i, WordEnd(code, i + 5), name);
    }
    if exists j: nat :: DeclarationAt(code, i, j, name) {
      var j: nat :| DeclarationAt(code, i, j, name);
      var r := WordEnd(code, i + 5);
      assert code[j..][0] == ' ';
      assert IsWhitespace(code[j]);
      assert r == j;
    }
  }

  /** `/\nvar \S+ = <name>;\n/.test(code)`, searching from `i`. */
  function DeclaresFrom(code: string, name: string, i: nat): (r: bool)
    requires i <= |code|
    ensures r <==> exists k, j :: i <= k && DeclarationAt(code, k, j, name)
    decreases |code| - i
  {
    DeclaresAtMatches(code, i, name);
    if i == |code| then
      assert forall k, j :: i <= k && DeclarationAt(code, k, j, name) ==> false;
      false
    else if DeclaresAt(code, i, name) then true
    else
      var rest := DeclaresFrom(code, name, i + 1);
      assert forall k, j :: i <= k && DeclarationAt(code, k, j, name) ==> k == i || i + 1 <= k;
      rest
  }

  function Declares(code: string, name: string): (r: bool)
    ensures r <==> exists k, j :: DeclarationAt(code, k, j, name)
  {
    DeclaresFrom(code, name, 0)
  }

  const ZLibraryImportWarning: string :=
    "It appears the plugin imports ZeresPluginLibrary, but is not being built with ZeresPluginLibrary support. Did you mean to set 'zlibrary' to true in the plugin's configuration?"

  // ---------------------------------------------------------------------
  // What a build does

  /** The observable effects of a build, in order. `Error` is `Logger.error`, which ends the process. */
  datatype Effect =
    | Warn(message: string)
    | Log(message: string)
    | WriteFile(path: string, contents: string)
    | CopyFile(from: string, to: string)
    | Error(message: string)

  /** The warning about library imports, when the build lacks library support. */
  function ImportWarnings(code: string, zlibrary: bool): (r: seq<Effect>)
    ensures r == [Warn(ZLibraryImportWarning)] || r == []
    ensures r != [] <==> (Declares(code, "Library") || Declares(code, "BasePlugin")) && !zlibrary
  {
    if (Declares(code, "Library") || Declares(code, "BasePlugin")) && !zlibrary then [Warn(ZLibraryImportWarning)] else []
  }

  const NoBdPathWarning: string := "Cannot find 'bd-path' option, Bundled plugin will not be copied to BetterDiscord"

  function InvalidBdPathWarning(bdPath: string): string {
    "'" + bdPath + "' is not a valid directory, Bundled plugin will not be copied to BetterDiscord"
  }

  const DefaultExportPrefix: string := "\"default\" was specified for \"output.exports\","
  const NoDefaultExportMessage: string := "No default export found. Make sure to export your plugin as the default export"

  /** The `catch` block: rollup's complaint about a missing default export gets a plain message. */
  function TranslateError(message: string): (r: string)
    ensures StartsWith(message, DefaultExportPrefix) ==> r == NoDefaultExportMessage
    ensures !StartsWith(message, DefaultExportPrefix) ==> r == message
  {
    if StartsWith(message, DefaultExportPrefix) then NoDefaultExportMessage else message
  }

  /** The plugin's place in BetterDiscord: `path.join(bdPath, "plugins", basename)`. */
  function PluginsCopyPath(api: PathApi, bdPath: string, outputPath: string): string {
    JoinPath(api, JoinPath(api, bdPath, "plugins"), Basename(api, outputPath))
  }

  /**
   * What the dev-mode step decides (bin/index.ts:58-71). `path.resolve`
   * refuses a `bdPath` that is not a string (a bare `--bd-path` flag gives
   * `true`); that error reaches the `catch` block.
   */
  datatype DevCopyOutcome =
    | NotDev
    | NoBdPath
    | CopyDisabled
    | Refused(error: string)
    | NotADirectory(warning: string)
    | Copied(to: string)

  function DevCopyOutcomeOf(env: Env, options: Record<JsValue>, outputPath: string): DevCopyOutcome {
    var bdPath := Prop(options, "bdPath");
    if !Truthy(Prop(options, "dev")) then NotDev
    else if !Truthy(bdPath) then NoBdPath
    else if bdPath == Str("none") then CopyDisabled
    else if !bdPath.Str? then Refused(TranslateError(PathTypeError(bdPath)))
    else if !CheckDirExists(env.fs, env.api.resolve(bdPath.s)) then NotADirectory(InvalidBdPathWarning(bdPath.s))
    else Copied(PluginsCopyPath(env.api, bdPath.s, outputPath))
  }

  /** The effects of the dev-mode step: at most a copy and its log line, never a write; an error comes alone. */
  function DevCopyEffects(o: DevCopyOutcome, outputPath: string): (r: seq<Effect>)
    ensures |r| <= 2
    ensures forall i :: 0 <= i < |r| ==> !r[i].WriteFile?
    ensures forall i :: 0 <= i < |r| && r[i].Error? ==> |r| == 1
    ensures (exists i :: 0 <= i < |r| && r[i].CopyFile?) <==> o.Copied?
    ensures o.Copied? ==> r[0] == CopyFile(outputPath, o.to)
  {
    match o
    case NotDev => []
    case NoBdPath => [Warn(NoBdPathWarning)]
    case CopyDisabled => []
    case Refused(e) => [Error(e)]
    case NotADirectory(w) => [Warn(w)]
    case Copied(to) =>
      var r := [CopyFile(outputPath, to), Log("Plugin copied to BetterDiscord")];
      assert r[0].CopyFile?;
      r
  }

  function DevCopy(env: Env, options: Record<JsValue>, outputPath: string): seq<Effect> {
    DevCopyEffects(DevCopyOutcomeOf(env, options, outputPath), outputPath)
  }

  /**
   * The dev-copy decision: nothing outside dev mode, a warning when `bdPath`
   * is unset, nothing for `"none"`, and a copy into the plugins folder exactly
   * when `bdPath` is any other string naming a directory.
   */
  lemma DevCopyDecision(env: Env, options: Record<JsValue>, outputPath: string)
    ensures var o := DevCopyOutcomeOf(env, options, outputPath);
      var dev := Truthy(Prop(options, "dev"));
      var bdPath := Prop(options, "bdPath");
      (o.NotDev? <==> !dev)
      && (o.NoBdPath? <==> dev && !Truthy(bdPath))
      && (o.CopyDisabled? <==> dev && bdPath == Str("none"))
      && (o.Copied? <==> dev && bdPath.Str? && bdPath.s != [] && bdPath.s != "none"
                         && CheckDirExists(env.fs, env.api.resolve(bdPath.s)))
      && (o.Copied? ==> o.to == PluginsCopyPath(env.api, bdPath.s, outputPath))
  {
  }

  /** The templates of bin/templates that are not part of this model, and `JSON.stringify`. */
  datatype Templates = Templates(
    json: JsValue -> string,
    guard: string,
    installScript: (string, string) -> string,
    meta: string -> string)

  /** The text of the ZeresPluginLibrary wrapper, given the caller's configuration object before the call. */
  function ZLibraryText(post: string, zlibrary: ZLibraryConfig, before: Record<JsValue>, meta: Record<JsValue>,
                        indent: string, t: Templates): string {
    var config := if zlibrary.Flag? then [("info", Obj(DefaultInfo(meta)))] else WithInfo(before, meta);
    Wrapper(UnquoteKeys(t.json(Obj(ConfigLiteral(config)))), post, indent, t.guard)
  }

  /** The wrapping order: the library wrapper first, then the install script, the metadata header outermost. */
  function Wrapped(code: string, zlibraryText: Option<string>, installScript: bool, indent: string, t: Templates): string {
    var withLibrary := if zlibraryText.Some? then zlibraryText.value else code;
    var withInstaller := if installScript then t.installScript(withLibrary, indent) else withLibrary;
    t.meta(withInstaller)
  }

  /** Only the last effect can be an error, and a write comes before any copy. */
  predicate WellOrdered(effects: seq<Effect>) {
    (forall i :: 0 <= i < |effects| - 1 ==> !effects[i].Error?)
    && (forall i, j :: 0 <= i < j < |effects| ==> !(effects[i].CopyFile? && effects[j].WriteFile?))
  }

  /** Warnings, then the write and its log line, then a dev-copy tail that writes nothing. */
  lemma {:induction false} WellOrderedAround(warnings: seq<Effect>, outputPath: string, code: string, done: string,
                                             copied: seq<Effect>)
    requires forall i :: 0 <= i < |warnings| ==> warnings[i].Warn?
    requires forall i :: 0 <= i < |copied| ==> !copied[i].WriteFile?
    requires forall i :: 0 <= i < |copied| && copied[i].Error? ==> |copied| == 1
    ensures var r := warnings + [WriteFile(outputPath, code), Log(done)] + copied;
      WellOrdered(r) && r[|warnings|] == WriteFile(outputPath, code)
  {
    var r := warnings + [WriteFile(outputPath, code), Log(done)] + copied;
    assert forall i :: 0 <= i < |r| && r[i].WriteFile? ==> i == |warnings|;
    assert forall i :: 0 <= i < |r| && r[i].CopyFile? ==> i >= |warnings| + 2;
  }

  function DoneMessage(pluginMeta: Record<JsValue>): string {
    "Done! Successfully bundled plugin '" + ToJsString(Prop(pluginMeta, "name")) + "'"
  }

  /** What follows the wrapping: the import warning, the write and its log line, then the dev copy. */
  function Finish(code: string, zlibrary: bool, env: Env, options: Record<JsValue>, pluginMeta: Record<JsValue>,
                  outputPath: string): (r: seq<Effect>)
    ensures WellOrdered(r)
    ensures var w := |ImportWarnings(code, zlibrary)|; w < |r| && r[w] == WriteFile(outputPath, code)
  {
    var warnings := ImportWarnings(code, zlibrary);
    var copied := DevCopy(env, options, outputPath);
    WellOrderedAround(warnings, outputPath, code, DoneMessage(pluginMeta), copied);
    warnings + [WriteFile(outputPath, code), Log(DoneMessage(pluginMeta))] + copied
  }

  /** The library text `bundle()` produces for the `zlibrary` option, from the configuration object before the call. */
  function LibraryText(post: string, zlibrary: Option<ZLibraryConfig>, before: Record<JsValue>, pluginMeta: Record<JsValue>,
                       indent: string, t: Templates): Option<string> {
    if zlibrary.None? then None else Some(ZLibraryText(post, zlibrary.value, before, pluginMeta, indent, t))
  }

  /** The wrapping steps of `bundle()`, which update a configuration object for the library in place. */
  method Wrap(post: string, pluginMeta: Record<JsValue>, zlibrary: Option<ZLibraryConfig>, installScript: bool,
              indent: string, t: Templates) returns (code: string)
    modifies if zlibrary.Some? && zlibrary.value.Settings? then {zlibrary.value.obj} else {}
    ensures var before := if zlibrary.Some? && zlibrary.value.Settings? then old(zlibrary.value.obj.fields) else [];
      code == Wrapped(post, LibraryText(post, zlibrary, before, pluginMeta, indent, t), installScript, indent, t)
    ensures zlibrary.Some? && zlibrary.value.Settings? ==>
      zlibrary.value.obj.fields == WithInfo(old(zlibrary.value.obj.fields), pluginMeta)
  {
    code := post;
    if zlibrary.Some? {
      code := ZLibrary(code, pluginMeta, zlibrary.value, indent, t.json, t.guard);
    }
    if installScript {
      code := t.installScript(code, indent);
    }
    code := t.meta(code);
  }

  /**
   * `bundle()`: `generated` is rollup's output code or the message of the error
   * it threw. `zlibrary` is `pluginConfig.zlibrary` when truthy, and
   * `installScript` whether `pluginConfig.installScript` is truthy.
   */
  method Bundle(generated: Result<string, string>, env: Env, options: Record<JsValue>, pluginMeta: Record<JsValue>,
                zlibrary: Option<ZLibraryConfig>, installScript: bool, outputPath: string, t: Templates)
    returns (effects: seq<Effect>)
    modifies if zlibrary.Some? && zlibrary.value.Settings? then {zlibrary.value.obj} else {}
    ensures generated.Err? ==> effects == [Error(TranslateError(generated.error))]
    ensures generated.Ok? ==>
      var indent := ToJsString(Member(Prop(options, "format"), "indent"));
      var post := PostProcess(generated.value, indent);
      var before := if zlibrary.Some? && zlibrary.value.Settings? then old(zlibrary.value.obj.fields) else [];
      var code := Wrapped(post, LibraryText(post, zlibrary, before, pluginMeta, indent, t), installScript, indent, t);
      effects == Finish(code, zlibrary.Some?, env, options, pluginMeta, outputPath)
    ensures zlibrary.Some? && zlibrary.value.Settings? ==>
      zlibrary.value.obj.fields == if generated.Ok? then WithInfo(old(zlibrary.value.obj.fields), pluginMeta)
                                   else old(zlibrary.value.obj.fields)
    ensures WellOrdered(effects)
  {
    if generated.Err? {
      return [Error(TranslateError(generated.error))];
    }
    var indent := ToJsString(Member(Prop(options, "format"), "indent"));
    var code := PostProcess(generated.value, indent);
    code := Wrap(code, pluginMeta, zlibrary, installScript, indent, t);
    var warnings := ImportWarnings(code, zlibrary.Some?);
    var copied := DevCopy(env, options, outputPath);
    effects := warnings + [WriteFile(outputPath, code), Log(DoneMessage(pluginMeta))] + copied;
  }

  /**
   * In this version the manifest cannot configure ZeresPluginLibrary:
   * `zlibrary` never reaches the build configuration, so the wrapper is never
   * applied and every library import draws the warning.
   */
  lemma ZLibraryNeverConfigured(entries: Record<JsValue>)
    ensures !Truthy(Prop(PluginManifest.Route(PluginManifest.DefaultPluginConfig, entries, |entries|, PluginManifest.PluginConfigKeys), "zlibrary"))
  {
    var config := PluginManifest.Route(PluginManifest.DefaultPluginConfig, entries, |entries|, PluginManifest.PluginConfigKeys);
    assert "zlibrary" !in PluginManifest.PluginConfigKeys;
    PluginManifest.RouteKeys(PluginManifest.DefaultPluginConfig, entries, |entries|, PluginManifest.PluginConfigKeys, "zlibrary");
    assert !HasKey(PluginManifest.DefaultPluginConfig, "zlibrary");
    assert Get(config, "zlibrary").None?;
  }
}
