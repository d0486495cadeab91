/**
 * src/utils.ts: the helpers of the webpack build. `escape` quotes the
 * characters that are special in a regular expression, `parseString` fills
 * in `[key]` placeholders (or placeholders with other delimiters), and
 * `argv` reads the command line: `--development` or `-D`, and the plugin's
 * name. The existence checks of the same file are in FileChecks.
 */
module SrcUtils {
  import opened Wrappers
  import opened Text
  import opened JsValues

  // ---- escape ----

  /** The characters of the class `[[\]{}()*+?.\\^$|]`. */
  predicate IsRegexSpecial(c: char) {
    c == '[' || c == ']' || c == '{' || c == '}' || c == '(' || c == ')' || c == '*' || c == '+'
    || c == '?' || c == '.' || c == '\\' || c == '^' || c == '$' || c == '|'
  }

  /** `escape(s)`: a backslash before every special character, other characters as they are. */
  function Escape(s: string): (r: string)
    ensures |r| >= |s|
    ensures (forall i :: 0 <= i < |s| ==> !IsRegexSpecial(s[i])) ==> r == s
  {
    if s == [] then []
    else if IsRegexSpecial(s[0]) then ['\\', s[0]] + Escape(s[1..])
    else [s[0]] + Escape(s[1..])
  }

  /** How a regular expression reads an escaped text: a backslash makes the next character literal. */
  function Literal(s: string): string
    decreases |s|
  {
    if s == [] then []
    else if s[0] == '\\' && |s| >= 2 then [s[1]] + Literal(s[2..])
    else [s[0]] + Literal(s[1..])
  }

  /** The pattern `escape(s)` stands for the text `s` itself: the regular expression matches `s` literally. */
  lemma {:induction false} EscapeIsLiteral(s: string)
    ensures Literal(Escape(s)) == s
  {
    if s != [] {
      EscapeIsLiteral(s[1..]);
      if IsRegexSpecial(s[0]) {
        assert Escape(s)[2..] == Escape(s[1..]);
      } else {
        assert Escape(s)[1..] == Escape(s[1..]);
        assert s[0] != '\\';
      }
      assert s == [s[0]] + s[1..];
    }
  }

  // ---- parseString ----

  /** `s.replace(new RegExp(escape(p), "g"), r)`: every occurrence of `p`; an empty `p` matches before every character and at the end. */
  function ReplaceGlobal(s: string, p: string, r: string): string {
    if p == [] then Interleave(s, r) else ReplaceAll(s, p, r)
  }

  /** The global replacement of the empty pattern. */
  function Interleave(s: string, r: string): (t: string)
    ensures |t| == |s| + (|s| + 1) * |r|
  {
    if s == [] then r else r + [s[0]] + Interleave(s[1..], r)
  }

  datatype Delimiters = Delimiters(open: string, close: string)

  /** The delimiters `parseString` uses when none are given. */
  const DefaultDelimiters := Delimiters("[", "]")

  function Placeholder(d: Delimiters, key: string): string {
    d.open + key + d.close
  }

  /** The `reduce` over `Object.keys(options)`: each key's placeholders replaced in turn, in key order. */
  function ParseWith(s: string, options: Record<string>, d: Delimiters): string
    decreases |options|
  {
    if options == [] then s
    else ParseWith(ReplaceGlobal(s, Placeholder(d, options[0].0), options[0].1), options[1..], d)
  }

  /** `parseString(s, options, delimeters)` */
  function ParseString(s: string, options: Record<string>, delimiters: Option<Delimiters>): string {
    ParseWith(s, options, if delimiters.Some? then delimiters.value else DefaultDelimiters)
  }

  /** Without delimiters, `parseString` is the replacement of `[key]` placeholders. */
  lemma ParseStringDefault(s: string, options: Record<string>)
    ensures ParseString(s, options, None) == ParseWith(s, options, Delimiters("[", "]"))
    ensures forall k :: Placeholder(DefaultDelimiters, k) == "[" + k + "]"
  {
  }

  /** The keys are processed in order: the replacements of the later keys apply to the result of the earlier ones. */
  lemma {:induction false} ParseWithInOrder(s: string, a: Record<string>, b: Record<string>, d: Delimiters)
    ensures ParseWith(s, a + b, d) == ParseWith(ParseWith(s, a, d), b, d)
    decreases |a|
  {
    if a == [] {
      assert a + b == b;
    } else {
      assert (a + b)[0] == a[0] && (a + b)[1..] == a[1..] + b;
      ParseWithInOrder(ReplaceGlobal(s, Placeholder(d, a[0].0), a[0].1), a[1..], b, d);
    }
  }

  /** A text with no placeholder of any key is returned unchanged. */
  lemma {:induction false} ParseWithAbsent(s: string, options: Record<string>, d: Delimiters)
    requires forall i :: 0 <= i < |options| ==> !Contains(s, Placeholder(d, options[i].0))
    ensures ParseWith(s, options, d) == s
    decreases |options|
  {
    if options != [] {
      var p := Placeholder(d, options[0].0);
      assert !Contains(s, p);
      assert p != [] by {
        if p == [] {
          assert StartsWith(s, p);
        }
      }
      ReplaceAllAbsent(s, p, options[0].1);
      assert forall i :: 0 <= i < |options[1..]| ==> options[1..][i] == options[i + 1];
      ParseWithAbsent(s, options[1..], d);
    }
  }

  // ---- argv ----

  /** `args.filter((arg) => arg.startsWith("-"))` */
  function Dashed(args: seq<string>): (r: seq<string>)
    ensures forall a :: a in r <==> a in args && StartsWith(a, "-")
  {
    if args == [] then []
    else (if StartsWith(args[0], "-") then [args[0]] else []) + Dashed(args[1..])
  }

  /** `args.filter((arg) => !arg.startsWith("-"))` */
  function Plain(args: seq<string>): (r: seq<string>)
    ensures forall a :: a in r <==> a in args && !StartsWith(a, "-")
  {
    if args == [] then []
    else (if StartsWith(args[0], "-") then [] else [args[0]]) + Plain(args[1..])
  }

  datatype Argv = Argv(development: bool, plugin: Option<string>)

  /** `argv`, read from `process.argv.slice(2)`. */
  function ReadArgv(args: seq<string>): (r: Argv)
    ensures r.development <==> "--development" in args || "-D" in args
    ensures r.plugin.Some? <==> exists a :: a in args && !StartsWith(a, "-")
  {
    var options := Dashed(args);
    var plain := Plain(args);
    assert StartsWith("--development", "-") && StartsWith("-D", "-");
    if plain != [] then
      assert plain[0] in plain;
      Argv("--development" in options || "-D" in options, Some(RemoveWhitespace(plain[0])))
    else
      Argv("--development" in options || "-D" in options, None)
  }

  /** The plugin is the first argument that does not start with `-`, with its whitespace removed. */
  lemma {:induction false} PluginIsFirstPlain(args: seq<string>, i: nat)
    requires i < |args| && !StartsWith(args[i], "-")
    requires forall j :: 0 <= j < i ==> StartsWith(args[j], "-")
    ensures ReadArgv(args).plugin == Some(RemoveWhitespace(args[i]))
  {
    PlainStartsAt(args, i);
  }

  lemma {:induction false} PlainStartsAt(args: seq<string>, i: nat)
    requires i < |args| && !StartsWith(args[i], "-")
    requires forall j :: 0 <= j < i ==> StartsWith(args[j], "-")
    ensures Plain(args) != [] && Plain(args)[0] == args[i]
  {
    if i > 0 {
      PlainStartsAt(args[1..], i - 1);
    }
  }
}
