/**
 * `zlibrary` of bin/templates/zlibrary.ts: wraps the bundled code for
 * ZeresPluginLibrary. It builds the library's `config` (the plugin's `info`,
 * changelog, default settings and any further keys), a guard that offers to
 * download the library when it is missing, and a `buildPlugin` function whose
 * body is the bundled code indented by one unit.
 */
module ZLibraryTemplate {
  import opened Text
  import opened JsValues
  import opened Stringify

  /** The `zlibrary` manifest option: `true`, or a configuration object the template updates in place. */
  datatype ZLibraryConfig = Flag | Settings(obj: JsObject)

  /** `defaultInfo`, read off the plugin's metadata. */
  function DefaultInfo(meta: Record<JsValue>): Record<JsValue> {
    [("name", Prop(meta, "name")),
     ("authors", Arr([Obj([("name", Prop(meta, "author"))])])),
     ("version", Prop(meta, "version")),
     ("description", Prop(meta, "description")),
     ("github", Prop(meta, "source"))]
  }

  /** `{ ...defaultInfo, ...info }` for the user's `info` value. */
  function MergedInfo(meta: Record<JsValue>, info: JsValue): Record<JsValue> {
    Spread(DefaultInfo(meta), OwnProps(info))
  }

  /** The configuration object after `zlibraryConfig.info = { ...defaultInfo, ...zlibraryConfig.info }`. */
  function WithInfo(config: Record<JsValue>, meta: Record<JsValue>): Record<JsValue> {
    Put(config, "info", Obj(MergedInfo(meta, Prop(config, "info"))))
  }

  /** `{ info, changelog, defaultConfig, ...others }` for the destructured configuration. */
  function ConfigLiteral(config: Record<JsValue>): (r: Record<JsValue>)
    ensures |r| >= 3 && r[0].0 == "info" && r[1].0 == "changelog" && r[2].0 == "defaultConfig"
    ensures forall k :: k != "info" && k != "changelog" && k != "defaultConfig" ==> Get(r, k) == Get(config, k)
  {
    var others := Delete(Delete(Delete(config, "info"), "changelog"), "defaultConfig");
    var r := [("info", Prop(config, "info")), ("changelog", Prop(config, "changelog")),
              ("defaultConfig", Prop(config, "defaultConfig"))] + others;
    forall k | k != "info" && k != "changelog" && k != "defaultConfig" ensures Get(r, k) == Get(config, k) {
      assert r[1..][1..][1..] == others;
      assert Get(r, k) == Get(r[1..], k) == Get(r[1..][1..], k) == Get(others, k);
    }
    r
  }

  /** `code` as the body of `buildPlugin`: one indent unit first and after every newline. */
  function Body(code: string, indent: string): string {
    indent + MapChar(code, '\n', "\n" + indent)
  }

  const ExportsLine: string :=
    "module.exports = global.ZeresPluginLibrary ? buildPlugin(global.ZeresPluginLibrary.buildPlugin(config)) : class { start() {}; stop() {} };"

  /**
   * The template text. `configText` is the serialised configuration and
   * `guard` the literal text of the library-missing guard, whose runs of four
   * spaces become indent units.
   */
  function Wrapper(configText: string, code: string, indent: string, guard: string): (r: string)
    ensures StartsWith(r, "const config = " + configText + ";\n\n")
    ensures EndsWith(r, "\n\n" + indent + "return Plugin;\n}\n\n" + ExportsLine)
    ensures r == "const config = " + configText + ";\n\n"
                 + (ReplaceAll(guard, "    ", indent) + "\n\nfunction buildPlugin([BasePlugin, Library]) {\n" + Body(code, indent))
                 + ("\n\n" + indent + "return Plugin;\n}\n\n" + ExportsLine)
  {
    var head := "const config = " + configText + ";\n\n";
    var tail := "\n\n" + indent + "return Plugin;\n}\n\n" + ExportsLine;
    var middle := ReplaceAll(guard, "    ", indent) + "\n\nfunction buildPlugin([BasePlugin, Library]) {\n"
                  + Body(code, indent);
    Framed(head, middle, tail);
    head + middle + tail
  }

  /**
   * The template: the configuration is `{ info: defaultInfo }` for `true`, and
   * otherwise the caller's object, whose `info` is merged over the default
   * info in place. `json` is `JSON.stringify`, called without an indent.
   */
  method ZLibrary(code: string, meta: Record<JsValue>, zlibraryConfig: ZLibraryConfig, indent: string,
                  json: JsValue -> string, guard: string) returns (r: string)
    modifies if zlibraryConfig.Settings? then {zlibraryConfig.obj} else {}
    ensures zlibraryConfig.Settings? ==> zlibraryConfig.obj.fields == WithInfo(old(zlibraryConfig.obj.fields), meta)
    ensures var config := if zlibraryConfig.Flag? then [("info", Obj(DefaultInfo(meta)))]
                          else WithInfo(old(zlibraryConfig.obj.fields), meta);
      r == Wrapper(UnquoteKeys(json(Obj(ConfigLiteral(config)))), code, indent, guard)
  {
    var defaultInfo := DefaultInfo(meta);
    var config: Record<JsValue>;
    if zlibraryConfig.Flag? {
      config := [("info", Obj(defaultInfo))];
    } else {
      var obj := zlibraryConfig.obj;
      obj.fields := Put(obj.fields, "info", Obj(Spread(defaultInfo, OwnProps(Prop(obj.fields, "info")))));
      config := obj.fields;
    }
    r := Wrapper(UnquoteKeys(json(Obj(ConfigLiteral(config)))), code, indent, guard);
  }

  /** With `true`, the serialised `info` is exactly the default info and nothing else is configured. */
  lemma FlagConfig(meta: Record<JsValue>)
    ensures var lit := ConfigLiteral([("info", Obj(DefaultInfo(meta)))]);
      lit == [("info", Obj(DefaultInfo(meta))), ("changelog", Undefined), ("defaultConfig", Undefined)]
  {
    var config := [("info", Obj(DefaultInfo(meta)))];
    assert Delete(config, "info") == [];
  }

  lemma DefaultInfoUnique(meta: Record<JsValue>)
    ensures Unique(DefaultInfo(meta))
  {
    UniqueIndex(DefaultInfo(meta));
  }

  /** Each field of the user's `info` overrides the default; the other defaults remain. */
  lemma MergedInfoGet(meta: Record<JsValue>, info: JsValue, k: string)
    requires Unique(OwnProps(info))
    ensures Get(MergedInfo(meta, info), k)
            == if HasKey(OwnProps(info), k) then Get(OwnProps(info), k) else Get(DefaultInfo(meta), k)
    ensures HasKey(MergedInfo(meta, info), k) <==> HasKey(DefaultInfo(meta), k) || HasKey(OwnProps(info), k)
  {
    SpreadGet(DefaultInfo(meta), OwnProps(info), k);
    SpreadHasKey(DefaultInfo(meta), OwnProps(info), k);
  }

  /**
   * The in-place merge is harmless when the same object is wrapped again (as
   * on every rebuild in watch mode): merging a second time reads back the
   * same `info` and leaves every other property alone.
   */
  lemma MergeIdempotent(config: Record<JsValue>, meta: Record<JsValue>, k: string)
    ensures var once := WithInfo(config, meta);
      var twice := WithInfo(once, meta);
      Prop(twice, "info").Obj? && Prop(once, "info").Obj?
      && Get(Prop(twice, "info").fields, k) == Get(Prop(once, "info").fields, k)
      && (k != "info" ==> Get(twice, k) == Get(once, k))
  {
    var d := DefaultInfo(meta);
    var once := WithInfo(config, meta);
    var first := MergedInfo(meta, Prop(config, "info"));
    GetPut(config, "info", Obj(first), "info");
    assert Prop(once, "info") == Obj(first);
    var twice := WithInfo(once, meta);
    var second := Spread(d, first);
    GetPut(once, "info", Obj(second), "info");
    GetPut(once, "info", Obj(second), k);
    assert Prop(twice, "info") == Obj(second);
    DefaultInfoUnique(meta);
    SpreadUnique(d, OwnProps(Prop(config, "info")));
    SpreadGet(d, first, k);
    SpreadHasKey(d, OwnProps(Prop(config, "info")), k);
  }

  /** The body of `buildPlugin` is the code with every line indented by one unit. */
  lemma BodyIndentsLines(code: string, indent: string)
    ensures Body(code, indent) == Join(PrefixEach(Split(code, '\n'), indent), "\n")
  {
    PrefixLines(code, indent);
  }

  /** The number of spaces a text starts with. */
  function LeadingSpaces(t: string): nat {
    if t != [] && t[0] == ' ' then 1 + LeadingSpaces(t[1..]) else 0
  }

  /** The leading spaces are spaces, and the character after them is not one. */
  lemma {:induction false} LeadingSpacesRun(t: string, j: nat)
    ensures LeadingSpaces(t) <= |t|
    ensures j < LeadingSpaces(t) ==> t[j] == ' '
    ensures LeadingSpaces(t) < |t| ==> t[LeadingSpaces(t)] != ' '
    decreases |t|
  {
    if t != [] && t[0] == ' ' {
      if j > 0 {
        LeadingSpacesRun(t[1..], j - 1);
      } else {
        LeadingSpacesRun(t[1..], 0);
      }
    }
  }

  /** A text that starts with four spaces has them among its leading spaces. */
  lemma FourLeadingSpaces(s: string)
    requires StartsWith(s, "    ")
    ensures LeadingSpaces(s) == 4 + LeadingSpaces(s[4..])
  {
    var s1 := s[1..];
    var s2 := s1[1..];
    var s3 := s2[1..];
    assert s3[1..] == s[4..];
    assert s[0] == s[..4][0] && s1[0] == s[..4][1] && s2[0] == s[..4][2] && s3[0] == s[..4][3];
    assert LeadingSpaces(s) == 1 + LeadingSpaces(s1);
    assert LeadingSpaces(s1) == 1 + LeadingSpaces(s2);
    assert LeadingSpaces(s2) == 1 + LeadingSpaces(s3);
    assert LeadingSpaces(s3) == 1 + LeadingSpaces(s3[1..]);
  }

  /** Four leading spaces are an occurrence of the four-space run. */
  lemma LeadingRunStarts(s: string)
    ensures LeadingSpaces(s) >= 4 ==> StartsWith(s, "    ")
  {
    if LeadingSpaces(s) >= 4 {
      LeadingSpacesRun(s, 0);
      LeadingSpacesRun(s, 1);
      LeadingSpacesRun(s, 2);
      LeadingSpacesRun(s, 3);
      assert s[..4] == "    ";
    }
  }

  /** Four spaces starting at `i`. */
  predicate FourSpacesAt(t: string, i: nat)
    requires i + 4 <= |t|
  {
    t[i] == ' ' && t[i + 1] == ' ' && t[i + 2] == ' ' && t[i + 3] == ' '
  }

  /** `t.includes("    ")` finds four spaces at some position. */
  lemma {:induction false} FourSpacesFound(t: string)
    ensures Contains(t, "    ") ==> exists i :: 0 <= i && i + 4 <= |t| && FourSpacesAt(t, i)
    decreases |t|
  {
    if Contains(t, "    ") {
      if StartsWith(t, "    ") {
        assert t[..4][0] == t[0] && t[..4][1] == t[1] && t[..4][2] == t[2] && t[..4][3] == t[3];
        assert FourSpacesAt(t, 0);
      } else {
        FourSpacesFound(t[1..]);
        var i :| 0 <= i && i + 4 <= |t[1..]| && FourSpacesAt(t[1..], i);
        assert FourSpacesAt(t, i + 1);
      }
    }
  }

  /**
   * What replacing the runs of four spaces in `s` by `unit` leaves: no four
   * spaces in a row, and at most the remainder of the leading run.
   */
  predicate RunsReplaced(s: string, unit: string) {
    var t := ReplaceAll(s, "    ", unit);
    LeadingSpaces(t) <= LeadingSpaces(s) % 4
    && forall i :: 0 <= i && i + 4 <= |t| ==> !FourSpacesAt(t, i)
  }

  /** A run of four spaces at the start is replaced by the unit, which holds no space. */
  lemma RunStep(s: string, unit: string)
    requires ' ' !in unit && StartsWith(s, "    ") && RunsReplaced(s[4..], unit)
    ensures RunsReplaced(s, unit)
  {
    var t := ReplaceAll(s, "    ", unit);
    var t' := ReplaceAll(s[4..], "    ", unit);
    assert t == unit + t';
    FourLeadingSpaces(s);
    if unit != [] {
      assert t[0] == unit[0];
    } else {
      assert t == t';
    }
    forall i | 0 <= i && i + 4 <= |t|
      ensures !FourSpacesAt(t, i)
    {
      if i < |unit| {
        assert t[i] == unit[i];
      } else {
        assert FourSpacesAt(t, i) == FourSpacesAt(t', i - |unit|);
      }
    }
  }

  /** A first character that starts no run is copied, and a copied space meets fewer than three after it. */
  lemma CharStep(s: string, unit: string)
    requires s != [] && !StartsWith(s, "    ") && RunsReplaced(s[1..], unit)
    ensures RunsReplaced(s, unit)
  {
    var t := ReplaceAll(s, "    ", unit);
    var t' := ReplaceAll(s[1..], "    ", unit);
    assert t == [s[0]] + t';
    assert t[1..] == t';
    if s[0] == ' ' {
      LeadingRunStarts(s);
      LeadingSpacesRun(t', 0);
      if 3 <= |t'| {
        assert t'[LeadingSpaces(t')] != ' ';
        assert !(t'[0] == ' ' && t'[1] == ' ' && t'[2] == ' ');
      }
    }
    forall i | 1 <= i && i + 4 <= |t|
      ensures !FourSpacesAt(t, i)
    {
      assert FourSpacesAt(t, i) == FourSpacesAt(t', i - 1);
    }
  }

  /** Replacing every run of four spaces by a unit without spaces leaves no four spaces in a row. */
  lemma {:induction false} FourSpaceRunsReplaced(s: string, unit: string)
    requires ' ' !in unit
    ensures RunsReplaced(s, unit)
    decreases |s|
  {
    if StartsWith(s, "    ") {
      FourSpaceRunsReplaced(s[4..], unit);
      RunStep(s, unit);
    } else if s != [] {
      FourSpaceRunsReplaced(s[1..], unit);
      CharStep(s, unit);
    } else {
      assert ReplaceAll(s, "    ", unit) == [];
    }
  }

  /** With an indent unit that holds no space, the guard keeps no run of four spaces. */
  lemma GuardReindented(guard: string, indent: string)
    requires ' ' !in indent
    ensures !Contains(ReplaceAll(guard, "    ", indent), "    ")
  {
    FourSpaceRunsReplaced(guard, indent);
    FourSpacesFound(ReplaceAll(guard, "    ", indent));
  }

  /** With an indent of four spaces the guard is used exactly as written. */
  lemma GuardKeptForFourSpaces(guard: string)
    ensures ReplaceAll(guard, "    ", "    ") == guard
  {
    ReplaceAllSelf(guard, "    ");
  }
}
