/**
 * `zlibTemplate` of src/templates/zlibrary.js, the older ZeresPluginLibrary
 * wrapper: a JScript self-install block for users who run the file directly,
 * a `config` literal written out field by field with an optional changelog,
 * the library-missing guard and `buildPlugin` around the packed code.
 */
module LegacyZLibraryTemplate {
  import opened Text
  import opened JsValues
  import opened Stringify

  /** `"${v}"`: the value printed between double quotes, without any escaping. */
  function Quoted(v: JsValue): string {
    "\"" + ToJsString(v) + "\""
  }

  /** The `info` block of the configuration literal, up to its closing brace. */
  function InfoText(meta: Record<JsValue>): string {
    "const config = {\n    info: {\n        name: " + Quoted(Prop(meta, "name"))
    + ",\n        authors: [{\n            name: " + Quoted(Prop(meta, "author"))
    + ",\n        }],\n        version: " + Quoted(Prop(meta, "version"))
    + ",\n        description: " + Quoted(Prop(meta, "description"))
    + ",\n        github: " + Quoted(Prop(meta, "source"))
    + ",\n        github_raw: " + Quoted(Prop(meta, "updateUrl"))
    + "\n    }"
  }

  /** The changelog entry: present only for a truthy changelog, its JSON with key quotes stripped. */
  function ChangelogText(changelog: JsValue, json: JsValue -> string): string {
    if Truthy(changelog) then ", changelog: " + UnquoteKeys(json(changelog)) else ""
  }

  /** The whole configuration literal. */
  function ConfigText(meta: Record<JsValue>, changelog: JsValue, json: JsValue -> string): string {
    InfoText(meta) + ChangelogText(changelog, json) + "\n};"
  }

  const Opening: string := "\n/*@cc_on\n"
  const ElseMarker: string := "\n@else@*/\n\n"
  const Closing: string := "/*@end@*/"
  const LegacyExportsLine: string :=
    "module.exports = global.ZeresPluginLibrary ? buildPlugin(global.ZeresPluginLibrary.buildPlugin(config)) : { start: () => {}, stop: () => {} };"

  /** The packed code inside `buildPlugin`: a tab after every newline. */
  function PackedBody(packed: string): string {
    MapChar(packed, '\n', "\n\t")
  }

  /**
   * The template. `jscript` is the literal self-install block and `guard` the
   * literal library-missing guard; both are fixed text.
   */
  function ZLibTemplate(packed: string, meta: Record<JsValue>, changelog: JsValue,
                        json: JsValue -> string, jscript: string, guard: string): (r: string)
    ensures StartsWith(r, Opening + jscript + ElseMarker + ConfigText(meta, changelog, json))
    ensures EndsWith(r, "\n\n\treturn Plugin;\n}\n\n" + LegacyExportsLine + "\n\n" + Closing)
  {
    var head := Opening + jscript + ElseMarker + ConfigText(meta, changelog, json);
    var tail := "\n\n\treturn Plugin;\n}\n\n" + LegacyExportsLine + "\n\n" + Closing;
    var middle := "\n\n" + guard + "\n\nfunction buildPlugin([BasePlugin, Library]) {\n    let Plugin;\n\n    "
                  + PackedBody(packed);
    Framed(head, middle, tail);
    head + middle + tail
  }

  /** Any falsy changelog writes the same configuration as none at all. */
  lemma FalsyChangelogOmitted(meta: Record<JsValue>, changelog: JsValue, json: JsValue -> string)
    requires !Truthy(changelog)
    ensures ConfigText(meta, changelog, json) == ConfigText(meta, Undefined, json)
    ensures ConfigText(meta, changelog, json) == InfoText(meta) + "\n};"
  {
  }

  /** A truthy changelog follows the `info` block, as its JSON with the key quotes stripped. */
  lemma TruthyChangelogWritten(meta: Record<JsValue>, changelog: JsValue, json: JsValue -> string)
    requires Truthy(changelog)
    ensures var c := ConfigText(meta, changelog, json);
      var entry := ", changelog: " + UnquoteKeys(json(changelog));
      StartsWith(c, InfoText(meta)) && StartsWith(c[|InfoText(meta)|..], entry)
  {
    var entry := ", changelog: " + UnquoteKeys(json(changelog));
    Framed(InfoText(meta), entry, "\n};");
  }

  /** After the first line, every line of the packed code is indented by one tab. */
  lemma PackedLinesTabbed(packed: string)
    ensures "\t" + PackedBody(packed) == Join(PrefixEach(Split(packed, '\n'), "\t"), "\n")
  {
    PrefixLines(packed, "\t");
    assert "\n" + "\t" == "\n\t";
  }
}
