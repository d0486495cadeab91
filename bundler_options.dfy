/**
 * bin/config/bundler.ts: the options of one bundler run, merged from the
 * built-in defaults, the project's bundlebd.config.js and the command line,
 * each later source overriding the earlier.
 */
module BundlerOptions {
  import opened Wrappers
  import opened JsValues
  import Text
  import opened Reports

  // ---- kebab-case to camelCase ----

  /** `c.toUpperCase()` for ASCII letters; every other character is kept. */
  function Upper(c: char): char {
    if 'a' <= c <= 'z' then (c as int - 32) as char else c
  }

  /** ASCII lower case, used to state what the camelCase conversion keeps. */
  function Lower(c: char): char {
    if 'A' <= c <= 'Z' then (c as int + 32) as char else c
  }

  function LowerStr(s: string): (r: string)
    ensures |r| == |s| && forall i :: 0 <= i < |s| ==> r[i] == Lower(s[i])
  {
    seq(|s|, i requires 0 <= i < |s| => Lower(s[i]))
  }

  /** `item.charAt(0).toUpperCase() + item.substring(1)` */
  function Capitalize(item: string): string {
    if item == [] then [] else [Upper(item[0])] + item[1..]
  }

  /** The capitalised segments, joined with nothing. */
  function ConcatCapitalized(segments: seq<string>): string {
    if segments == [] then [] else Capitalize(segments[0]) + ConcatCapitalized(segments[1..])
  }

  /**
   * The source's formulation, `option.split("-").map((item, i) => i !== 0 ?
   * capitalise(item) : item).join("")`: the first segment as it is, every
   * later one with its first character upper-cased.
   */
  function SplitCamelCase(option: string): string {
    var segments := Text.Split(option, '-');
    segments[0] + ConcatCapitalized(segments[1..])
  }

  /**
   * The same conversion read character by character: a dash is dropped and
   * makes the next character upper case.
   */
  function CamelFrom(s: string, upNext: bool): string {
    if s == [] then []
    else if s[0] == '-' then CamelFrom(s[1..], true)
    else [if upNext then Upper(s[0]) else s[0]] + CamelFrom(s[1..], false)
  }

  /** The key a `--option` flag sets. */
  function CamelCase(option: string): string {
    CamelFrom(option, false)
  }

  lemma {:induction false} CamelFromSplit(s: string, upNext: bool)
    ensures var segments := Text.Split(s, '-');
            CamelFrom(s, upNext)
            == (if upNext then Capitalize(segments[0]) else segments[0]) + ConcatCapitalized(segments[1..])
  {
    if s != [] {
      CamelFromSplit(s[1..], s[0] == '-');
      var rest := Text.Split(s[1..], '-');
      if s[0] == '-' {
        assert Text.Split(s, '-')[1..] == rest;
        assert ConcatCapitalized(rest) == Capitalize(rest[0]) + ConcatCapitalized(rest[1..]);
      } else {
        assert Text.Split(s, '-')[1..] == rest[1..];
        assert Text.Split(s, '-')[0] == [s[0]] + rest[0];
      }
    }
  }

  /** The character-wise conversion is the source's split/map/join. */
  lemma CamelCaseIsSplitForm(option: string)
    ensures CamelCase(option) == SplitCamelCase(option)
  {
    CamelFromSplit(option, false);
  }

  /** `s` without any `c`. */
  function Without(s: string, c: char): (r: string)
    ensures c !in r
  {
    if s == [] then [] else (if s[0] == c then [] else [s[0]]) + Without(s[1..], c)
  }

  lemma {:induction false} CamelFromKeepsLetters(s: string, upNext: bool)
    ensures '-' !in CamelFrom(s, upNext)
    ensures LowerStr(CamelFrom(s, upNext)) == LowerStr(Without(s, '-'))
  {
    if s != [] {
      CamelFromKeepsLetters(s[1..], s[0] == '-');
      if s[0] != '-' {
        var c := if upNext then Upper(s[0]) else s[0];
        assert LowerStr([c] + CamelFrom(s[1..], false)) == [Lower(c)] + LowerStr(CamelFrom(s[1..], false));
        assert LowerStr([s[0]] + Without(s[1..], '-')) == [Lower(s[0])] + LowerStr(Without(s[1..], '-'));
      }
    }
  }

  /**
   * The conversion only drops the dashes and changes the case of letters:
   * the result has no `-`, and, ignoring case, it is the option without its dashes.
   */
  lemma CamelCaseKeepsLetters(option: string)
    ensures '-' !in CamelCase(option)
    ensures LowerStr(CamelCase(option)) == LowerStr(Without(option, '-'))
  {
    CamelFromKeepsLetters(option, false);
  }

  /** An option without dashes is its own key. */
  lemma {:induction false} NoDashUnchanged(option: string)
    requires '-' !in option
    ensures CamelCase(option) == option
  {
    if option != [] {
      NoDashUnchanged(option[1..]);
    }
  }

  lemma BdPathExample()
    ensures CamelCase("bd-path") == "bdPath"
  {
    NoDashUnchanged("ath");
    assert "bd-path"[1..][1..][1..][1..] == "ath";
  }

  // ---- the command line ----

  /** The keys the command line may set. */
  const ArgOptionKeys: seq<string> := ["input", "output", "bdPath", "dev", "plugin"]

  /** The keys a config file may set without a warning. */
  const ConfigOptionKeys: seq<string> := ["input", "output", "bdPath", "format", "importAliases", "postcssPlugins"]

  predicate IsFlag(token: string) {
    Text.StartsWith(token, "--")
  }

  /** A flag's value: exactly `"true"` and `"false"` become booleans. */
  function Coerce(value: string): (v: JsValue)
    ensures v.Bool? <==> value == "true" || value == "false"
    ensures v.Str? ==> v.s == value
  {
    if value == "true" then Bool(true)
    else if value == "false" then Bool(false)
    else Str(value)
  }

  /** The property that the token at `i` writes into the options, if any. */
  function Assignment(argv: seq<string>, i: nat): Option<(string, JsValue)>
    requires i < |argv|
  {
    var curr := argv[i];
    if !IsFlag(curr) then
      if i == 0 then Some(("input", Str(curr))) else None
    else
      var key := CamelCase(curr[2..]);
      if key !in ArgOptionKeys then None
      else if i + 1 < |argv| && argv[i + 1] != "" && !IsFlag(argv[i + 1]) then Some((key, Coerce(argv[i + 1])))
      else Some((key, Bool(true)))
  }

  /** The warning that the token at `i` prints, if any. */
  function ArgWarning(argv: seq<string>, i: nat): Option<string>
    requires i < |argv|
  {
    var curr := argv[i];
    if IsFlag(curr) && CamelCase(curr[2..]) !in ArgOptionKeys then
      Some("Unknown command option '" + curr[2..] + "'")
    else None
  }

  /** The assignments made by the first `n` tokens, in order. */
  function Writes(argv: seq<string>, n: nat): (ws: seq<Option<(string, JsValue)>>)
    requires n <= |argv|
    ensures |ws| == n
  {
    if n == 0 then [] else Writes(argv, n - 1) + [Assignment(argv, n - 1)]
  }

  lemma {:induction false} WritesAt(argv: seq<string>, n: nat, i: nat)
    requires i < n <= |argv|
    ensures Writes(argv, n)[i] == Assignment(argv, i)
  {
    if i < n - 1 {
      WritesAt(argv, n - 1, i);
    }
  }

  function Listed(w: Option<string>): seq<string> {
    match w
    case Some(m) => [m]
    case None => []
  }

  /** The options object the `reduce` has built after the first `n` tokens. */
  function ArgsObject(argv: seq<string>, n: nat): Record<JsValue>
    requires n <= |argv|
  {
    if n == 0 then [] else Assign(ArgsObject(argv, n - 1), Assignment(argv, n - 1))
  }

  /** The warnings the `reduce` has printed after the first `n` tokens. */
  function ArgWarnings(argv: seq<string>, n: nat): seq<string>
    requires n <= |argv|
  {
    if n == 0 then [] else ArgWarnings(argv, n - 1) + Listed(ArgWarning(argv, n - 1))
  }

  /** The `reduce` over the first `n` tokens: the options object and the warnings printed. */
  function ArgsUpTo(argv: seq<string>, n: nat): (Record<JsValue>, seq<string>)
    requires n <= |argv|
  {
    (ArgsObject(argv, n), ArgWarnings(argv, n))
  }

  /** The options object is the tokens' assignments applied in order. */
  lemma {:induction false} ArgsAsWrites(argv: seq<string>, n: nat)
    requires n <= |argv|
    ensures ArgsObject(argv, n) == AssignAll([], Writes(argv, n))
  {
    if n > 0 {
      ArgsAsWrites(argv, n - 1);
      AssignAllSnoc([], Writes(argv, n - 1), Assignment(argv, n - 1));
    }
  }

  /** The `reduce` callback for the token at `i`: it writes at most one key and prints at most one warning. */
  method ReduceStep(argv: seq<string>, i: nat, obj: Record<JsValue>, warnings: seq<string>)
    returns (obj': Record<JsValue>, warnings': seq<string>)
    requires i < |argv|
    ensures obj' == Assign(obj, Assignment(argv, i))
    ensures warnings' == warnings + Listed(ArgWarning(argv, i))
  {
    obj', warnings' := obj, warnings;
    var curr := argv[i];
    if !IsFlag(curr) && i == 0 {
      obj' := Put(obj', "input", Str(curr));
    }
    if IsFlag(curr) {
      var option := curr[2..];
      var key := CamelCase(option);
      if i + 1 < |argv| && argv[i + 1] != "" && !IsFlag(argv[i + 1]) && key in ArgOptionKeys {
        var value := argv[i + 1];
        obj' := Put(obj', key, Coerce(value));
      } else if key in ArgOptionKeys {
        obj' := Put(obj', key, Bool(true));
      } else {
        warnings' := warnings' + ["Unknown command option '" + option + "'"];
      }
    }
  }

  /** The options the command line gives, and the warnings it prints: `argv.reduce(callback, {})`. */
  method ParseArgs(argv: seq<string>) returns (obj: Record<JsValue>, warnings: seq<string>)
    ensures (obj, warnings) == ArgsUpTo(argv, |argv|)
  {
    obj, warnings := [], [];
    var i := 0;
    while i < |argv|
      invariant 0 <= i <= |argv|
      invariant (obj, warnings) == ArgsUpTo(argv, i)
    {
      obj, warnings := ReduceStep(argv, i, obj, warnings);
      i := i + 1;
    }
  }

  /** Each key of the command-line options holds the value of its last occurrence. */
  lemma ArgsLastWins(argv: seq<string>, n: nat, k: string)
    requires n <= |argv|
    ensures Get(ArgsUpTo(argv, n).0, k) == LastWrite(Writes(argv, n), k)
  {
    ArgsAsWrites(argv, n);
    AssignAllGet([], Writes(argv, n), k);
  }

  /** Every key a token writes is allowlisted (`input` included). */
  lemma AssignmentAllowed(argv: seq<string>, i: nat)
    requires i < |argv| && Assignment(argv, i).Some?
    ensures Assignment(argv, i).value.0 in ArgOptionKeys
  {
  }

  /** A flag outside the allowlist never becomes a key; only allowlisted keys appear. */
  lemma ArgKeysAllowed(argv: seq<string>, n: nat, k: string)
    requires n <= |argv|
    requires HasKey(ArgsUpTo(argv, n).0, k)
    ensures k in ArgOptionKeys
  {
    var writes := Writes(argv, n);
    ArgsAsWrites(argv, n);
    AssignAllGet([], writes, k);
    LastWriteFound(writes, k);
    var i :| 0 <= i < |writes| && writes[i].Some? && writes[i].value.0 == k;
    WritesAt(argv, n, i);
    AssignmentAllowed(argv, i);
  }

  /** Number of flags among the first `n` tokens whose key is not allowlisted. */
  function UnknownFlags(argv: seq<string>, n: nat): nat
    requires n <= |argv|
  {
    if n == 0 then 0
    else UnknownFlags(argv, n - 1) + if IsFlag(argv[n - 1]) && CamelCase(argv[n - 1][2..]) !in ArgOptionKeys then 1 else 0
  }

  /** Exactly one warning per unknown flag. */
  lemma {:induction false} OneWarningPerUnknownFlag(argv: seq<string>, n: nat)
    requires n <= |argv|
    ensures |ArgWarnings(argv, n)| == UnknownFlags(argv, n)
  {
    if n > 0 {
      OneWarningPerUnknownFlag(argv, n - 1);
    }
  }

  /**
   * A first token that is not a flag is the input, unless a later `--input`
   * overrides it; any other non-flag token is only ever a flag's value.
   */
  lemma {:induction false} FirstTokenIsInput(argv: seq<string>, n: nat)
    requires 0 < n <= |argv| && !IsFlag(argv[0])
    requires forall i :: 1 <= i < n ==> !(Assignment(argv, i).Some? && Assignment(argv, i).value.0 == "input")
    ensures LastWrite(Writes(argv, n), "input") == Some(Str(argv[0]))
  {
    assert Writes(argv, n)[..n - 1] == Writes(argv, n - 1);
    if n > 1 {
      FirstTokenIsInput(argv, n - 1);
    }
  }

  /** A non-flag token after the first writes nothing and warns about nothing. */
  lemma NonFlagTokenIsInert(argv: seq<string>, i: nat)
    requires 0 < i < |argv| && !IsFlag(argv[i])
    ensures Assignment(argv, i).None? && ArgWarning(argv, i).None?
  {
  }

  /** The options object of the command line never names a key twice. */
  lemma ArgsUnique(argv: seq<string>, n: nat)
    requires n <= |argv|
    ensures Unique(ArgsUpTo(argv, n).0)
  {
    ArgsAsWrites(argv, n);
    AssignAllUnique([], Writes(argv, n));
  }

  // ---- the config file ----

  /** What bundlebd.config.js exports: an object, or a function of the plugin name and the dev flag. */
  datatype ConfigModule =
    | ConfigObject(value: JsValue)
    | ConfigFunction(call: (JsValue, JsValue) -> JsValue)

  /** The config a function-valued config file yields: it is called with (plugin, dev || false). */
  function ConfigValue(config: ConfigModule, args: Record<JsValue>): (v: JsValue)
    ensures config.ConfigFunction? ==> v == config.call(Prop(args, "plugin"), Or(Prop(args, "dev"), Bool(false)))
    ensures config.ConfigObject? ==> v == config.value
  {
    match config
    case ConfigObject(value) => value
    case ConfigFunction(call) => call(Prop(args, "plugin"), Or(Prop(args, "dev"), Bool(false)))
  }

  /** One warning per config key outside the allowlist, in key order. */
  function UnknownConfigWarnings(keys: seq<string>): (ws: seq<string>)
    ensures |ws| <= |keys|
  {
    if keys == [] then []
    else
      (if keys[0] in ConfigOptionKeys then [] else ["Unknown option '" + keys[0] + "' in bundlebd.config.js}"])
      + UnknownConfigWarnings(keys[1..])
  }

  function UnknownCount(keys: seq<string>): nat {
    if keys == [] then 0 else (if keys[0] in ConfigOptionKeys then 0 else 1) + UnknownCount(keys[1..])
  }

  lemma {:induction false} OneWarningPerUnknownKey(keys: seq<string>)
    ensures |UnknownConfigWarnings(keys)| == UnknownCount(keys)
  {
    if keys != [] {
      OneWarningPerUnknownKey(keys[1..]);
    }
  }

  const DefaultFormat: Record<JsValue> := [("moduleComments", Bool(true)), ("indent", Str("\t"))]

  /**
   * The config file's contribution: warnings for unknown keys (which are
   * kept), a fatal error for a present but falsy `input` or `output`, and a
   * truthy `format` shallow-merged over the default format.
   */
  function ProcessConfig(config: JsValue): (r: Resolved<Record<JsValue>>)
    ensures Nullish(config) ==> r.Fatal?
    ensures !Nullish(config) ==> r.Printed() == UnknownConfigWarnings(Keys(OwnProps(config)))
    ensures r.Fatal? && !Nullish(config) ==>
      (HasKey(OwnProps(config), "input") && !Truthy(Prop(OwnProps(config), "input")))
      || (HasKey(OwnProps(config), "output") && !Truthy(Prop(OwnProps(config), "output")))
    ensures !Nullish(config)
            && ((HasKey(OwnProps(config), "input") && !Truthy(Prop(OwnProps(config), "input")))
                || (HasKey(OwnProps(config), "output") && !Truthy(Prop(OwnProps(config), "output"))))
            ==> r.Fatal?
    ensures r.Resolved? ==> forall k :: HasKey(OwnProps(config), k) <==> HasKey(r.value, k)
    ensures r.Resolved? ==>
              Get(r.value, "format")
              == if Truthy(Prop(OwnProps(config), "format"))
                 then Some(Obj(Spread(DefaultFormat, OwnProps(Prop(OwnProps(config), "format")))))
                 else Get(OwnProps(config), "format")
    ensures r.Resolved? ==> forall k :: k != "format" ==> Get(r.value, k) == Get(OwnProps(config), k)
  {
    if Nullish(config) then
      Fatal([], "TypeError: Cannot read properties of " + ToJsString(config) + " (reading 'hasOwnProperty')")
    else
      var props := OwnProps(config);
      var warnings := UnknownConfigWarnings(Keys(props));
      if HasKey(props, "input") && !Truthy(Prop(props, "input")) then
        Fatal(warnings, "The 'input' option cannot be undefined.")
      else if HasKey(props, "output") && !Truthy(Prop(props, "output")) then
        Fatal(warnings, "The 'output' option cannot be undefined.")
      else if Truthy(Prop(props, "format")) then
        var format := Obj(Spread(DefaultFormat, OwnProps(Prop(props, "format"))));
        FormatPut(props, format);
        Resolved(Put(props, "format", format), warnings)
      else Resolved(props, warnings)
  }

  /** Setting `format` keeps the key set and every other property. */
  lemma FormatPut(props: Record<JsValue>, format: JsValue)
    requires HasKey(props, "format")
    ensures forall k :: HasKey(props, k) <==> HasKey(Put(props, "format", format), k)
    ensures forall k :: Get(Put(props, "format", format), k) == if k == "format" then Some(format) else Get(props, k)
  {
    forall k
      ensures HasKey(props, k) <==> HasKey(Put(props, "format", format), k)
      ensures Get(Put(props, "format", format), k) == if k == "format" then Some(format) else Get(props, k)
    {
      PutHasKey(props, "format", format, k);
      GetPut(props, "format", format, k);
    }
  }

  /** The defaults, with the platform's BetterDiscord folder when there is one. */
  function DefaultOptions(platformBdPath: Option<string>): Record<JsValue> {
    [("input", Str("src")), ("output", Str("dist")), ("dev", Bool(false)), ("format", Obj(DefaultFormat))]
    + match platformBdPath
      case Some(p) => [("bdPath", Str(p))]
      case None => []
  }

  /** `getBundlerOptions(argv)`: `{...defaults, ...config, ...cli}` and every warning printed on the way. */
  function GetBundlerOptions(argv: seq<string>, configFile: Option<ConfigModule>, platformBdPath: Option<string>)
    : (r: Resolved<Record<JsValue>>)
    ensures r.Resolved? ==> Unique(ArgsUpTo(argv, |argv|).0)
    ensures configFile.None? ==> r == Resolved(Spread(DefaultOptions(platformBdPath), ArgsUpTo(argv, |argv|).0), ArgsUpTo(argv, |argv|).1)
  {
    ArgsUnique(argv, |argv|);
    var (args, argWarnings) := ArgsUpTo(argv, |argv|);
    match configFile
    case None => Resolved(Spread(DefaultOptions(platformBdPath), args), argWarnings)
    case Some(cfgModule) =>
      match ProcessConfig(ConfigValue(cfgModule, args))
      case Fatal(w, e) => Fatal(argWarnings + w, e)
      case Resolved(config, w) =>
        Resolved(Spread(Spread(DefaultOptions(platformBdPath), config), args), argWarnings + w)
  }

  /**
   * Precedence: a key the command line sets has the command line's value;
   * otherwise a key of the config file has the config file's; otherwise the default.
   */
  lemma Precedence(argv: seq<string>, cfgModule: ConfigModule, platformBdPath: Option<string>, k: string)
    requires Unique(OwnProps(ConfigValue(cfgModule, ArgsUpTo(argv, |argv|).0)))
    requires GetBundlerOptions(argv, Some(cfgModule), platformBdPath).Resolved?
    ensures var args := ArgsUpTo(argv, |argv|).0;
            var config := ProcessConfig(ConfigValue(cfgModule, args)).value;
            Get(GetBundlerOptions(argv, Some(cfgModule), platformBdPath).value, k)
            == if HasKey(args, k) then Get(args, k)
               else if HasKey(config, k) then Get(config, k)
               else Get(DefaultOptions(platformBdPath), k)
  {
    var args := ArgsUpTo(argv, |argv|).0;
    var props := OwnProps(ConfigValue(cfgModule, args));
    var config := ProcessConfig(ConfigValue(cfgModule, args)).value;
    ArgsUnique(argv, |argv|);
    PutUnique(props, "format", Obj(Spread(DefaultFormat, OwnProps(Prop(props, "format")))));
    SpreadGet(Spread(DefaultOptions(platformBdPath), config), args, k);
    SpreadGet(DefaultOptions(platformBdPath), config, k);
  }

  /** A config file that sets `input` or `output` to a falsy value stops the run. */
  lemma FalsyPathIsFatal(argv: seq<string>, cfgModule: ConfigModule, platformBdPath: Option<string>, key: string)
    requires key == "input" || key == "output"
    requires var config := ConfigValue(cfgModule, ArgsUpTo(argv, |argv|).0);
             !Nullish(config) && HasKey(OwnProps(config), key) && !Truthy(Prop(OwnProps(config), key))
    ensures GetBundlerOptions(argv, Some(cfgModule), platformBdPath).Fatal?
  {
  }

  /**
   * A truthy `format` in the config file, not overridden on the command
   * line, reaches the options merged over the default format.
   */
  lemma FormatMergedOverDefaults(argv: seq<string>, cfgModule: ConfigModule, platformBdPath: Option<string>)
    requires Unique(OwnProps(ConfigValue(cfgModule, ArgsUpTo(argv, |argv|).0)))
    requires GetBundlerOptions(argv, Some(cfgModule), platformBdPath).Resolved?
    requires !HasKey(ArgsUpTo(argv, |argv|).0, "format")
    requires var config := ConfigValue(cfgModule, ArgsUpTo(argv, |argv|).0);
             Truthy(Prop(OwnProps(config), "format"))
    ensures var config := ConfigValue(cfgModule, ArgsUpTo(argv, |argv|).0);
            Get(GetBundlerOptions(argv, Some(cfgModule), platformBdPath).value, "format")
            == Some(Obj(Spread(DefaultFormat, OwnProps(Prop(OwnProps(config), "format")))))
  {
    Precedence(argv, cfgModule, platformBdPath, "format");
  }

  /** A config key outside the allowlist is warned about yet still reaches the merged options. */
  lemma UnknownConfigKeyKept(argv: seq<string>, cfgModule: ConfigModule, platformBdPath: Option<string>, k: string)
    requires var props := OwnProps(ConfigValue(cfgModule, ArgsUpTo(argv, |argv|).0)); HasKey(props, k)
    requires k !in ConfigOptionKeys
    requires GetBundlerOptions(argv, Some(cfgModule), platformBdPath).Resolved?
    ensures HasKey(GetBundlerOptions(argv, Some(cfgModule), platformBdPath).value, k)
  {
    var args := ArgsUpTo(argv, |argv|).0;
    var config := ProcessConfig(ConfigValue(cfgModule, args)).value;
    SpreadHasKey(DefaultOptions(platformBdPath), config, k);
    SpreadHasKey(Spread(DefaultOptions(platformBdPath), config), args, k);
  }
}
