/**
 * bin/plugins/modulecomments.ts: the rollup transform that puts a comment
 * naming each module's origin before its code. The label is the
 * root-relative path for the plugin's own files, the package name for
 * node_modules, the import alias for aliased files, and otherwise the file's
 * base name.
 */
module ModuleComments {
  import opened Wrappers
  import opened Text
  import opened JsValues
  import opened Paths

  /** The transform's options: the plugin's root and the `importAliases` object, if any. */
  datatype CommentOptions = CommentOptions(root: string, aliases: Option<Record<string>>)

  /** `s.slice(n)`: empty when `n` lies past the end. */
  function SliceFrom(s: string, n: nat): (r: string)
    ensures n <= |s| ==> r == s[n..]
    ensures n > |s| ==> r == []
  {
    if n <= |s| then s[n..] else []
  }

  /** `path.relative(root, id)` with every backslash turned into a slash. */
  function RootLabel(api: PathApi, root: string, id: string): (r: string)
    ensures '\\' !in r
  {
    MapCharRemoves(api.relative(root, id), '\\', "/");
    MapChar(api.relative(root, id), '\\', "/")
  }

  /** The first path segment after the first `node_modules` and the one separator after it. */
  function PackageLabel(api: PathApi, id: string): (r: string)
    requires Contains(id, "node_modules")
    ensures api.sep !in r
  {
    BeforeFirst(SliceFrom(id, IndexOf(id, "node_modules").value + 13), api.sep)
  }

  /** `id.split(path.sep).pop() || id`: the last segment, or the whole id when that is empty. */
  function BaseLabel(api: PathApi, id: string): (r: string)
    ensures r == id || (r != [] && api.sep !in r && EndsWith(id, r))
    ensures r != id ==> |r| < |id| && id[|id| - |r| - 1] == api.sep
  {
    var last := AfterLast(id, api.sep);
    if last == [] then id else last
  }

  /** The prefix an alias stands for: its resolved target with the first `*` removed. */
  function AliasPrefix(api: PathApi, target: string): string {
    ReplaceFirst(api.resolve(target), "*", "")
  }

  /** The alias's regular expression matches `id`: `id` starts with the alias's prefix. */
  predicate AliasMatches(api: PathApi, id: string, alias: (string, string)) {
    StartsWith(id, AliasPrefix(api, alias.1))
  }

  /** `id.replace(regex, key + "$1")`: the alias key without its first `*`, then the rest of `id`. */
  function AliasLabelOf(api: PathApi, id: string, alias: (string, string)): (r: string)
    requires AliasMatches(api, id, alias)
    ensures EndsWith(r, id[|AliasPrefix(api, alias.1)|..])
  {
    var rest := id[|AliasPrefix(api, alias.1)|..];
    Framed(ReplaceFirst(alias.0, "*", ""), [], rest);
    assert ReplaceFirst(alias.0, "*", "") + [] + rest == ReplaceFirst(alias.0, "*", "") + rest;
    ReplaceFirst(alias.0, "*", "") + rest
  }

  /** The label of the first of `aliases[i..]` that matches. */
  function FirstAliasFrom(api: PathApi, id: string, aliases: Record<string>, i: nat): Option<string>
    requires i <= |aliases|
    decreases |aliases| - i
  {
    if i == |aliases| then None
    else if AliasMatches(api, id, aliases[i]) then Some(AliasLabelOf(api, id, aliases[i]))
    else FirstAliasFrom(api, id, aliases, i + 1)
  }

  /** The label the transform chooses for `id`. */
  function Label(api: PathApi, options: CommentOptions, id: string): string {
    if StartsWith(id, options.root) then RootLabel(api, options.root, id)
    else if Contains(id, "node_modules") then PackageLabel(api, id)
    else if options.aliases.Some? then
      match FirstAliasFrom(api, id, options.aliases.value, 0)
      case Some(found) => found
      case None => id
    else BaseLabel(api, id)
  }

  /** `// label` on a line of its own, then the code. */
  function Commented(name: string, code: string): (r: string)
    ensures StartsWith(r, "// " + name + "\n") && EndsWith(r, code)
    ensures |r| == |name| + 4 + |code|
  {
    Framed("// " + name + "\n", [], code);
    assert "// " + name + "\n" + [] + code == "// " + name + "\n" + code;
    "// " + name + "\n" + code
  }

  /** `transform(code, id)`: reassigns `id` through the branches and the alias loop, which stops at the first match. */
  method Transform(api: PathApi, options: CommentOptions, code: string, id: string) returns (r: string)
    ensures r == Commented(Label(api, options, id), code)
  {
    var name := id;
    if StartsWith(id, options.root) {
      name := MapChar(api.relative(options.root, id), '\\', "/");
    } else if Contains(id, "node_modules") {
      name := BeforeFirst(SliceFrom(id, IndexOf(id, "node_modules").value + 13), api.sep);
    } else if options.aliases.Some? {
      var aliases := options.aliases.value;
      var i := 0;
      while i < |aliases|
        invariant 0 <= i <= |aliases|
        invariant name == id
        invariant FirstAliasFrom(api, id, aliases, 0) == FirstAliasFrom(api, id, aliases, i)
      {
        var prefix := ReplaceFirst(api.resolve(aliases[i].1), "*", "");
        if StartsWith(id, prefix) {
          name := ReplaceFirst(aliases[i].0, "*", "") + id[|prefix|..];
          break;
        }
        i := i + 1;
      }
    } else {
      var last := AfterLast(id, api.sep);
      name := if last == [] then id else last;
    }
    r := "// " + name + "\n" + code;
  }

  /** The first matching alias decides: a match at `i` with none before gives that alias's label. */
  lemma {:induction false} FirstAliasWins(api: PathApi, id: string, aliases: Record<string>, i: nat, j: nat)
    requires j <= i < |aliases|
    requires AliasMatches(api, id, aliases[i])
    requires forall m :: j <= m < i ==> !AliasMatches(api, id, aliases[m])
    ensures FirstAliasFrom(api, id, aliases, j) == Some(AliasLabelOf(api, id, aliases[i]))
    decreases i - j
  {
    if j < i {
      FirstAliasWins(api, id, aliases, i, j + 1);
    }
  }

  /** No alias matches: the search finds nothing. */
  lemma {:induction false} NoAliasMatches(api: PathApi, id: string, aliases: Record<string>, j: nat)
    requires j <= |aliases|
    requires forall m :: j <= m < |aliases| ==> !AliasMatches(api, id, aliases[m])
    ensures FirstAliasFrom(api, id, aliases, j).None?
    decreases |aliases| - j
  {
    if j < |aliases| {
      NoAliasMatches(api, id, aliases, j + 1);
    }
  }

  /**
   * With aliases configured, an id outside the root and node_modules that no
   * alias matches keeps its full text as the label: the base-name fallback
   * applies only without aliases.
   */
  lemma UnmatchedIdKept(api: PathApi, options: CommentOptions, id: string)
    requires !StartsWith(id, options.root) && !Contains(id, "node_modules") && options.aliases.Some?
    requires forall m :: 0 <= m < |options.aliases.value| ==> !AliasMatches(api, id, options.aliases.value[m])
    ensures Label(api, options, id) == id
  {
    NoAliasMatches(api, id, options.aliases.value, 0);
  }

  /** An aliased id is labelled with the alias key (without `*`) followed by the rest of the id. */
  lemma AliasLabel(api: PathApi, options: CommentOptions, id: string, i: nat)
    requires !StartsWith(id, options.root) && !Contains(id, "node_modules") && options.aliases.Some?
    requires i < |options.aliases.value|
    requires AliasMatches(api, id, options.aliases.value[i])
    requires forall m :: 0 <= m < i ==> !AliasMatches(api, id, options.aliases.value[m])
    ensures var alias := options.aliases.value[i];
      Label(api, options, id) == ReplaceFirst(alias.0, "*", "") + id[|AliasPrefix(api, alias.1)|..]
  {
    FirstAliasWins(api, id, options.aliases.value, i, 0);
  }

  /** A package under node_modules is labelled with its first path segment, whatever the aliases. */
  lemma PackageLabelled(api: PathApi, options: CommentOptions, pkg: string, rest: string)
    requires api.sep !in pkg
    requires !StartsWith("node_modules" + [api.sep] + pkg + [api.sep] + rest, options.root)
    ensures Label(api, options, "node_modules" + [api.sep] + pkg + [api.sep] + rest) == pkg
  {
    var id := "node_modules" + [api.sep] + pkg + [api.sep] + rest;
    assert id[..12] == "node_modules";
    IndexOfAt(id, "node_modules", 0);
    assert id[13..] == pkg + [api.sep] + rest;
    BeforeFirstAt(pkg, api.sep, rest);
  }

  /**
   * The label of src/bin/plugins/modulecomments.ts, which has no aliases: the
   * same as the later transform configured without `aliases`.
   */
  function LegacyLabel(api: PathApi, root: string, id: string): (r: string)
    ensures r == Label(api, CommentOptions(root, None), id)
    ensures StartsWith(id, root) ==> '\\' !in r
    ensures !StartsWith(id, root) && !Contains(id, "node_modules") ==> r == id || EndsWith(id, r)
  {
    if StartsWith(id, root) then MapChar(api.relative(root, id), '\\', "/")
    else if Contains(id, "node_modules") then BeforeFirst(SliceFrom(id, IndexOf(id, "node_modules").value + 13), api.sep)
    else
      var last := AfterLast(id, api.sep);
      if last == [] then id else last
  }
}
