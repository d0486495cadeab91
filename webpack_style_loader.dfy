/**
 * src/loaders/style.js: the webpack loader run after css-loader on every
 * stylesheet. It imports `load` from the `styles` module and replaces
 * css-loader's default export by a call that loads the stylesheet under its
 * file's base name, followed by a new default export: the class-name map
 * with the CSS text for a CSS module, the CSS text otherwise.
 */
module WebpackStyleLoader {
  import opened Text

  /** What css-loader's output of a CSS module refers to. */
  const LocalsMarker: string := "___CSS_LOADER_EXPORT___.locals"

  /** css-loader's default export, the statement the loader replaces. */
  const LoaderExport: string := "export default ___CSS_LOADER_EXPORT___;"

  /** The text the loader's result starts with: the import of `load` and a space. */
  const ImportPrefix: string := "import { load } from \"styles\";\n "

  /** The head of a CSS module's new default export, which spreads the class-name map. */
  const LocalsHead: string := "export default { ...___CSS_LOADER_EXPORT___.locals"

  /** The rest of it, which adds the CSS text as `_content`. */
  const ContentTail: string := ", _content: ___CSS_LOADER_EXPORT___.toString() };"

  const ModuleExport: string := LocalsHead + ContentTail

  const CssExport: string := "export default ___CSS_LOADER_EXPORT___.toString();"

  /** `isModule`: the stylesheet is a CSS module exactly when its compiled text mentions the class-name map. */
  predicate IsModule(content: string) {
    Contains(content, LocalsMarker)
  }

  /** `exportString`: the new default export. */
  function ExportString(content: string): (r: string)
    ensures IsModule(content) ==> StartsWith(r, LocalsHead)
    ensures !IsModule(content) ==> r == CssExport
  {
    if IsModule(content) then
      Framed(LocalsHead, ContentTail, []);
      assert LocalsHead + ContentTail + [] == ModuleExport;
      ModuleExport
    else CssExport
  }

  const LoadOpen: string := "load(\""

  /** The end of the call to `load`: the closing quote, then css-loader's CSS text as the second argument. */
  const LoadClose: string := "\", ___CSS_LOADER_EXPORT___.toString());"

  /** The statement that takes the default export's place: the call to `load`, then the new export. */
  function Replacement(content: string, basename: string): string {
    LoadOpen + basename + LoadClose + ExportString(content)
  }

  /** `style(content)`, with `basename` standing for `path.basename(this.resourcePath)`. */
  function Style(content: string, basename: string): (r: string)
    ensures StartsWith(r, ImportPrefix)
    ensures !Contains(content, LoaderExport) ==> r[|ImportPrefix|..] == content
  {
    var body := ReplaceFirst(content, LoaderExport, Replacement(content, basename));
    Framed(ImportPrefix, body, []);
    assert ImportPrefix + body + [] == ImportPrefix + body;
    ImportPrefix + body
  }

  /**
   * The first default export is replaced, and the text before and after it is
   * kept: only the first, since a second one in `rest` stays as it is.
   */
  lemma ReplacesFirstExport(before: string, rest: string, basename: string)
    requires !Contains(before, LoaderExport)
    ensures Style(before + LoaderExport + rest, basename)
         == ImportPrefix + (before + Replacement(before + LoaderExport + rest, basename) + rest)
  {
    var content := before + LoaderExport + rest;
    LoaderExportEndsOnce();
    ReplaceFirstAt(before, LoaderExport, rest, Replacement(content, basename));
  }

  /** css-loader's export has its `;` only at its end, so no occurrence of it can overlap another's start. */
  lemma LoaderExportEndsOnce()
    ensures forall i :: 0 <= i < |LoaderExport| - 1 ==> LoaderExport[i] != LoaderExport[|LoaderExport| - 1]
  {
  }

  /** The load call names the file by its base name. */
  lemma ReplacementLoads(content: string, basename: string)
    ensures StartsWith(Replacement(content, basename), LoadOpen + basename + LoadClose)
  {
    Framed(LoadOpen + basename + LoadClose, ExportString(content), []);
    assert LoadOpen + basename + LoadClose + ExportString(content) + [] == Replacement(content, basename);
  }

  /** The new export is the module form exactly for a CSS module. */
  lemma ReplacementExports(content: string, basename: string)
    ensures IsModule(content) <==> EndsWith(Replacement(content, basename), ModuleExport)
  {
    var call := LoadOpen + basename + LoadClose;
    var r := Replacement(content, basename);
    assert r == call + ExportString(content);
    if IsModule(content) {
      assert r[|r| - |ModuleExport|..] == ModuleExport;
    } else {
      assert r[|r| - 2] == CssExport[|CssExport| - 2] == ')';
      assert ModuleExport[|ModuleExport| - 2] == ContentTail[|ContentTail| - 2] == '}';
      assert !EndsWith(r, ModuleExport) by {
        if |ModuleExport| <= |r| {
          assert r[|r| - |ModuleExport|..][|ModuleExport| - 2] == r[|r| - 2];
        }
      }
    }
  }
}
