/**
 * bin/plugins/cssModules.ts: the rollup transform that, for a stylesheet
 * whose id the options map, replaces the class-name object rollup's styles
 * plugin generated by the mapped one, and points the default export at it.
 *
 * Both replacements use a regular expression without flags, so each
 * replaces its leftmost match only, and `.` stops at a line terminator:
 * /modules(.*) = .*;/ for the object's declaration, whose group is the
 * suffix of the variable's name, and /export default .*;/ for the export.
 * The greedy `.*` makes each match run to the last `;` on its line.
 */
module CssModules {
  import opened Wrappers
  import opened Text
  import opened JsValues

  // ---- the line a `.` can cover ----

  /** The length of the first line of `t`. */
  function LineLen(t: string): (n: nat)
    ensures n <= |t|
  {
    if t == [] || IsLineTerminator(t[0]) then 0 else 1 + LineLen(t[1..])
  }

  /** The first line has no line terminator, and one ends it unless the text does. */
  lemma {:induction false} LineLenIsLine(t: string)
    ensures forall k :: 0 <= k < LineLen(t) ==> !IsLineTerminator(t[k])
    ensures LineLen(t) < |t| ==> IsLineTerminator(t[LineLen(t)])
  {
    if t != [] && !IsLineTerminator(t[0]) {
      LineLenIsLine(t[1..]);
      assert forall k :: 1 <= k < LineLen(t) ==> t[k] == t[1..][k - 1];
    }
  }

  /** The last index of `c` in `t`. */
  function LastChar(t: string, c: char): (r: Option<nat>)
    ensures r.Some? ==> r.value < |t|
  {
    if t == [] then None
    else if t[|t| - 1] == c then Some(|t| - 1)
    else LastChar(t[..|t| - 1], c)
  }

  /** The index found holds `c` and no later one does; without one, `c` does not occur. */
  lemma {:induction false} LastCharIsLast(t: string, c: char)
    ensures LastChar(t, c).Some? ==> t[LastChar(t, c).value] == c
    ensures LastChar(t, c).Some? ==> forall k :: LastChar(t, c).value < k < |t| ==> t[k] != c
    ensures LastChar(t, c).None? ==> forall k :: 0 <= k < |t| ==> t[k] != c
  {
    if t != [] && t[|t| - 1] != c {
      LastCharIsLast(t[..|t| - 1], c);
    }
  }

  /** The last index at which `p` occurs in `t`. */
  function LastAt(t: string, p: string): (r: Option<nat>)
    decreases |t|
    ensures r.Some? ==> r.value + |p| <= |t|
  {
    if |t| < |p| then None
    else if t[|t| - |p|..] == p then Some(|t| - |p|)
    else LastAt(t[..|t| - 1], p)
  }

  /** `p` occurs at the index found and at no later one; without one, it occurs nowhere. */
  lemma {:induction false} LastAtIsLast(t: string, p: string)
    decreases |t|
    ensures LastAt(t, p).Some? ==> StartsWith(t[LastAt(t, p).value..], p)
    ensures LastAt(t, p).Some? ==> forall k :: LastAt(t, p).value < k <= |t| ==> !StartsWith(t[k..], p)
    ensures LastAt(t, p).None? ==> forall k :: 0 <= k <= |t| ==> !StartsWith(t[k..], p)
  {
    if |t| >= |p| && t[|t| - |p|..] != p {
      var u := t[..|t| - 1];
      LastAtIsLast(u, p);
      forall k | 0 <= k <= |t| && StartsWith(t[k..], p)
        ensures k <= |u| && StartsWith(u[k..], p)
      {
        assert t[k..k + |p|] == p;
        assert k + |p| < |t|;
        assert u[k..][..|p|] == t[k..][..|p|];
      }
      if LastAt(u, p).Some? {
        var v := LastAt(u, p).value;
        assert u[v..][..|p|] == t[v..][..|p|];
      }
    }
  }

  // ---- what the patterns match ----

  /** `.*` can match `t[i..j]`: no line terminator in between. */
  predicate LineRun(t: string, i: nat, j: nat) {
    i <= j <= |t| && forall k :: i <= k < j ==> !IsLineTerminator(t[k])
  }

  /** `.*;` can match from `i`, with the `;` at `q`. */
  predicate RunToSemicolon(t: string, i: nat, q: nat) {
    LineRun(t, i, q) && q < |t| && t[q] == ';'
  }

  /** /modules(.*) = .*;/ matches at the start of `t`, the group being `t[7..g]` and the `;` at `q`. */
  predicate ModulesHere(t: string, g: nat, q: nat) {
    StartsWith(t, "modules") && 7 <= g && LineRun(t, 7, g) && StartsWith(t[g..], " = ")
    && RunToSemicolon(t, g + 3, q)
  }

  /** /export default .*;/ matches at the start of `t`, with the `;` at `q`. */
  predicate ExportHere(t: string, q: nat) {
    StartsWith(t, "export default ") && RunToSemicolon(t, 15, q)
  }

  // ---- how the regular expression engine picks a match ----

  /** The greedy `.*;` from `i`: the last `;` on the line. */
  function GreedySemicolon(t: string, i: nat): (r: Option<nat>)
    requires i <= |t|
    ensures r.Some? ==> i <= r.value < |t|
  {
    var n := i + LineLen(t[i..]);
    match LastChar(t[i..n], ';')
    case None => None
    case Some(k) => Some(i + k)
  }

  /** The `;` found ends a match of `.*;`, and the last one; without one, `.*;` does not match. */
  lemma GreedySemicolonIsLast(t: string, i: nat)
    requires i <= |t|
    ensures GreedySemicolon(t, i).Some? ==> RunToSemicolon(t, i, GreedySemicolon(t, i).value)
    ensures GreedySemicolon(t, i).Some? ==> forall q: nat :: RunToSemicolon(t, i, q) ==> q <= GreedySemicolon(t, i).value
    ensures GreedySemicolon(t, i).None? ==> forall q: nat :: !RunToSemicolon(t, i, q)
  {
    var n := i + LineLen(t[i..]);
    var line := t[i..n];
    LineLenIsLine(t[i..]);
    LastCharIsLast(line, ';');
    assert n < |t| ==> IsLineTerminator(t[n]) by {
      if n < |t| {
        assert t[n] == t[i..][n - i];
      }
    }
    forall q: nat | RunToSemicolon(t, i, q)
      ensures q < n && line[q - i] == ';'
    {
    }
    match LastChar(line, ';')
    case None =>
    case Some(k) =>
      assert LineRun(t, i, i + k) by {
        forall j | i <= j < i + k ensures !IsLineTerminator(t[j]) {
          assert t[j] == t[i..][j - i];
        }
      }
  }

  /** The match of /modules(.*) = .*;/ at the start of `t`: the greedy group, then the greedy tail. */
  function ModulesMatchHere(t: string): (r: Option<(nat, nat)>)
    ensures r.Some? ==> 7 <= r.value.0 <= r.value.1 < |t|
  {
    if !StartsWith(t, "modules") then None
    else match GreedySemicolon(t, 7)
      case None => None
      case Some(q) =>
        match LastAt(t[7..q], " = ")
        case None => None
        case Some(k) => Some((7 + k, q))
  }

  /**
   * The match found at the start of `t` is a match, and the one the
   * backtracking engine reaches first: the longest group, then the longest
   * tail; and there is none when no match exists.
   */
  lemma ModulesMatchHereIsGreedy(t: string)
    ensures ModulesMatchHere(t).Some? ==> ModulesHere(t, ModulesMatchHere(t).value.0, ModulesMatchHere(t).value.1)
    ensures ModulesMatchHere(t).Some? ==> forall g: nat, q: nat :: ModulesHere(t, g, q) ==>
      g <= ModulesMatchHere(t).value.0 && q <= ModulesMatchHere(t).value.1
    ensures ModulesMatchHere(t).None? ==> forall g: nat, q: nat :: !ModulesHere(t, g, q)
  {
    if StartsWith(t, "modules") {
      GreedySemicolonIsLast(t, 7);
      var last := GreedySemicolon(t, 7);
      forall g: nat, q: nat | ModulesHere(t, g, q)
        ensures last.Some? && q <= last.value && g - 7 + 3 <= last.value - 7
        ensures StartsWith(t[7..last.value][g - 7..], " = ")
      {
        assert RunToSemicolon(t, 7, q);
        assert t[7..last.value][g - 7..][..3] == t[g..][..3];
      }
      if last.Some? {
        var q := last.value;
        LastAtIsLast(t[7..q], " = ");
        match LastAt(t[7..q], " = ")
        case None =>
        case Some(k) =>
          assert t[7 + k..][..3] == t[7..q][k..][..3];
          assert LineRun(t, 7, 7 + k);
          assert RunToSemicolon(t, 7 + k + 3, q);
      }
    }
  }

  /** The leftmost match of /modules(.*) = .*;/: its start `p`, and `g`, `q` as `ModulesMatchHere` gives them for `s[p..]`. */
  function FirstModules(s: string): (r: Option<(nat, nat, nat)>)
    decreases |s|
    ensures r.Some? ==> 7 <= r.value.1 <= r.value.2 && r.value.0 + r.value.2 < |s|
  {
    match ModulesMatchHere(s)
    case Some(m) => Some((0, m.0, m.1))
    case None =>
      if s == [] then None
      else match FirstModules(s[1..])
        case None => None
        case Some(m) => Some((m.0 + 1, m.1, m.2))
  }

  /** The match is the leftmost one: no match starts earlier, and without a result there is none at all. */
  lemma {:induction false} FirstModulesIsLeftmost(s: string)
    decreases |s|
    ensures FirstModules(s).Some? ==>
      FirstModules(s).value.0 <= |s|
      && ModulesMatchHere(s[FirstModules(s).value.0..]) == Some((FirstModules(s).value.1, FirstModules(s).value.2))
    ensures FirstModules(s).Some? ==> forall j: nat, g: nat, q: nat :: 0 <= j < FirstModules(s).value.0 ==> !ModulesHere(s[j..], g, q)
    ensures FirstModules(s).None? ==> forall j: nat, g: nat, q: nat :: 0 <= j <= |s| ==> !ModulesHere(s[j..], g, q)
  {
    ModulesMatchHereIsGreedy(s);
    if ModulesMatchHere(s).None? && s != [] {
      FirstModulesIsLeftmost(s[1..]);
      assert forall j :: 1 <= j <= |s| ==> s[j..] == s[1..][j - 1..];
    }
  }

  /** The match of /export default .*;/ at the start of `t`. */
  function ExportMatchHere(t: string): (r: Option<nat>)
    ensures r.Some? ==> 15 <= r.value < |t|
  {
    if StartsWith(t, "export default ") then GreedySemicolon(t, 15) else None
  }

  /** The match found at the start of `t` is a match, the greedy one; and there is none when no match exists. */
  lemma ExportMatchHereIsGreedy(t: string)
    ensures ExportMatchHere(t).Some? ==> ExportHere(t, ExportMatchHere(t).value)
    ensures ExportMatchHere(t).Some? ==> forall q: nat :: ExportHere(t, q) ==> q <= ExportMatchHere(t).value
    ensures ExportMatchHere(t).None? ==> forall q: nat :: !ExportHere(t, q)
  {
    if StartsWith(t, "export default ") {
      GreedySemicolonIsLast(t, 15);
    }
  }

  /** The leftmost match of /export default .*;/: its start and its `;`, relative to the start. */
  function FirstExport(s: string): (r: Option<(nat, nat)>)
    decreases |s|
    ensures r.Some? ==> r.value.0 + r.value.1 < |s|
  {
    match ExportMatchHere(s)
    case Some(q) => Some((0, q))
    case None =>
      if s == [] then None
      else match FirstExport(s[1..])
        case None => None
        case Some(m) => Some((m.0 + 1, m.1))
  }

  /** The export match is the leftmost one, and the greedy one at its start. */
  lemma {:induction false} FirstExportIsLeftmost(s: string)
    decreases |s|
    ensures FirstExport(s).Some? ==>
      FirstExport(s).value.0 <= |s|
      && ExportMatchHere(s[FirstExport(s).value.0..]) == Some(FirstExport(s).value.1)
    ensures FirstExport(s).Some? ==> forall j: nat, q: nat :: 0 <= j < FirstExport(s).value.0 ==> !ExportHere(s[j..], q)
    ensures FirstExport(s).None? ==> forall j: nat, q: nat :: 0 <= j <= |s| ==> !ExportHere(s[j..], q)
  {
    ExportMatchHereIsGreedy(s);
    if ExportMatchHere(s).None? && s != [] {
      FirstExportIsLeftmost(s[1..]);
      assert forall j :: 1 <= j <= |s| ==> s[j..] == s[1..][j - 1..];
    }
  }

  // ---- the transform ----

  /** `s` with the `n` characters from `p` replaced by `r`. */
  function Splice(s: string, p: nat, n: nat, r: string): string
    requires p + n <= |s|
  {
    s[..p] + r + s[p + n..]
  }

  /** What the first replacement's callback returns. */
  function Declaration(mid: string, value: string): string {
    "modules" + mid + " = " + value + ";"
  }

  /** `${moduleId}` in a template: the captured suffix, or `undefined` when the callback never ran. */
  function Interpolated(moduleId: Option<string>): string {
    match moduleId
    case Some(m) => m
    case None => "undefined"
  }

  /** The second replacement's text. */
  function ExportStatement(moduleId: Option<string>): string {
    "export default modules" + Interpolated(moduleId) + ";"
  }

  /** The first replacement: the declaration with the mapped value, and the captured suffix. */
  function ReplaceModules(code: string, value: string): (string, Option<string>) {
    match FirstModules(code)
    case None => (code, None)
    case Some(m) =>
      var mid := code[m.0 + 7..m.0 + m.1];
      (Splice(code, m.0, m.2 + 1, Declaration(mid, value)), Some(mid))
  }

  /** The second replacement: the default export of the module object. */
  function ReplaceExport(code: string, moduleId: Option<string>): string {
    match FirstExport(code)
    case None => code
    case Some(e) => Splice(code, e.0, e.1 + 1, ExportStatement(moduleId))
  }

  /** The transform's result for an id the options map to `value`. */
  function Substituted(code: string, value: string): string {
    var replaced := ReplaceModules(code, value);
    ReplaceExport(replaced.0, replaced.1)
  }

  /** `transform(code, id)`: `moduleId` is written by the first replacement's callback and read by the second. */
  method Transform(cssModules: Record<string>, id: string, code: string) returns (r: Option<string>)
    ensures r.Some? <==> HasKey(cssModules, id)
    ensures r.Some? ==> r.value == Substituted(code, Get(cssModules, id).value)
  {
    r := None;
    if HasKey(cssModules, id) {
      var value := Get(cssModules, id).value;
      var moduleId: Option<string> := None;
      var out := code;
      var m := FirstModules(code);
      if m.Some? {
        var (p, g, q) := m.value;
        moduleId := Some(code[p + 7..p + g]);
        out := Splice(code, p, q + 1, Declaration(moduleId.value, value));
      }
      assert (out, moduleId) == ReplaceModules(code, value);
      var e := FirstExport(out);
      if e.Some? {
        out := Splice(out, e.value.0, e.value.1 + 1, ExportStatement(moduleId));
      }
      r := Some(out);
    }
  }

  /**
   * The declaration the first replacement rewrites is what the regular
   * expression matches: a match, the leftmost one, and at its start the one
   * with the longest group and then the longest tail.
   */
  lemma FirstModulesIsRegexMatch(code: string)
    requires FirstModules(code).Some?
    ensures var m := FirstModules(code).value;
      && ModulesHere(code[m.0..], m.1, m.2)
      && (forall g: nat, q: nat :: ModulesHere(code[m.0..], g, q) ==> g <= m.1 && q <= m.2)
      && (forall j: nat, g: nat, q: nat :: j < m.0 ==> !ModulesHere(code[j..], g, q))
  {
    FirstModulesIsLeftmost(code);
    ModulesMatchHereIsGreedy(code[FirstModules(code).value.0..]);
  }

  /** Likewise the default export the second replacement rewrites. */
  lemma FirstExportIsRegexMatch(code: string)
    requires FirstExport(code).Some?
    ensures var e := FirstExport(code).value;
      && ExportHere(code[e.0..], e.1)
      && (forall q: nat :: ExportHere(code[e.0..], q) ==> q <= e.1)
      && (forall j: nat, q: nat :: j < e.0 ==> !ExportHere(code[j..], q))
  {
    FirstExportIsLeftmost(code);
    ExportMatchHereIsGreedy(code[FirstExport(code).value.0..]);
  }

  /** Without a declaration to replace, the export names `modulesundefined`. */
  lemma NoDeclarationExportsUndefined(code: string, value: string)
    requires forall j: nat, g: nat, q: nat :: 0 <= j <= |code| ==> !ModulesHere(code[j..], g, q)
    ensures ReplaceModules(code, value) == (code, None)
    ensures Substituted(code, value) == ReplaceExport(code, None)
  {
    FirstModulesIsLeftmost(code);
    if FirstModules(code).Some? {
      ModulesMatchHereIsGreedy(code[FirstModules(code).value.0..]);
    }
  }

  /** Code with neither a declaration nor a default export to match is left unchanged. */
  lemma NoMatchUnchanged(code: string, value: string)
    requires forall j: nat, g: nat, q: nat :: 0 <= j <= |code| ==> !ModulesHere(code[j..], g, q)
    requires forall j: nat, q: nat :: 0 <= j <= |code| ==> !ExportHere(code[j..], q)
    ensures Substituted(code, value) == code
  {
    NoDeclarationExportsUndefined(code, value);
    FirstExportIsLeftmost(code);
    if FirstExport(code).Some? {
      ExportMatchHereIsGreedy(code[FirstExport(code).value.0..]);
    }
  }
}
