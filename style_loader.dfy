/**
 * bin/plugins/styleloader.ts and src/bin/plugins/styleloader.ts: the rollup
 * plugin that serves the virtual module `styles` and imports its `_loadStyle`
 * into every stylesheet module that calls it. The virtual module keeps the
 * CSS of the loaded stylesheets in one buffer, `_styles`.
 */
module StyleLoader {
  import opened Wrappers
  import opened Text

  /** The id of the virtual module. */
  const VirtualId: string := "styles"

  /** The line the transform puts before a stylesheet module. */
  const ImportLine: string := "import { _loadStyle } from \"styles\"\n"

  /** The declaration of the buffer, which starts empty. */
  const BufferDeclaration: string := "let _styles = \"\";\n"

  /** The import of BetterDiscord's `DOM` API that opens the later virtual module. */
  const DomImport: string := "\nimport { DOM } from \"betterdiscord\";\n"

  /** The source of the virtual module that bin/plugins/styleloader.ts serves. */
  const ModuleSource: string :=
    DomImport + BufferDeclaration + ("export function _loadStyle(path, css) {\n"
    + "\t_styles += \"/*\" + path + \"*/\\n\" + css + \"\\n\";\n}\nexport function addStyles() {\n"
    + "\tDOM.addStyle(_styles);\n}\nexport function removeStyles() {\n\tDOM.removeStyle();\n}\n"
    + "export default function styles() {\n\treturn _styles;\n}")

  /** The source of the virtual module that src/bin/plugins/styleloader.ts serves: no DOM calls. */
  const LegacyModuleSource: string :=
    BufferDeclaration + "export function _loadStyle(path, css) {\n\t_styles += \"/*\" + path + \"*/\\n\" + css + \"\\n\";\n}\n"
    + "export default function styles() {\n\treturn _styles;\n}"

  /** `transform(code, id)`: the import line before the code of a matching id that calls `_loadStyle`; nothing otherwise. */
  function Transform(idMatches: bool, code: string): (r: Option<string>)
    ensures r.Some? <==> idMatches && Contains(code, "_loadStyle")
    ensures r.Some? ==> StartsWith(r.value, ImportLine) && r.value[|ImportLine|..] == code
  {
    if idMatches && Contains(code, "_loadStyle") then
      Framed(ImportLine, code, []);
      assert ImportLine + code + [] == ImportLine + code;
      Some(ImportLine + code)
    else None
  }

  /** `resolveId(id)`: the virtual module resolves to itself, every other id to `null`. */
  function ResolveId(id: string): (r: Option<string>)
    ensures r.Some? <==> id == VirtualId
    ensures r.Some? ==> r.value == id
  {
    if id == VirtualId then Some(id) else None
  }

  /** `load(id)` of bin/plugins/styleloader.ts: the virtual module's source for its id only. */
  function Load(id: string): (r: Option<string>)
    ensures r.Some? <==> id == VirtualId
    ensures r.Some? ==> StartsWith(r.value, DomImport + BufferDeclaration)
  {
    if id == VirtualId then
      var head := DomImport + BufferDeclaration;
      Framed(head, ModuleSource[|head|..], []);
      assert head + ModuleSource[|head|..] + [] == ModuleSource;
      Some(ModuleSource)
    else None
  }

  /** `load(id)` of src/bin/plugins/styleloader.ts. */
  function LegacyLoad(id: string): (r: Option<string>)
    ensures r.Some? <==> id == VirtualId
    ensures r.Some? ==> StartsWith(r.value, BufferDeclaration)
  {
    if id == VirtualId then
      Framed(BufferDeclaration, LegacyModuleSource[|BufferDeclaration|..], []);
      assert BufferDeclaration + LegacyModuleSource[|BufferDeclaration|..] + [] == LegacyModuleSource;
      Some(LegacyModuleSource)
    else None
  }

  /** The text `_loadStyle(path, css)` appends: the path in a comment on its own line, then the CSS and a newline. */
  function Entry(path: string, css: string): (r: string)
    ensures StartsWith(r, "/*" + path + "*/\n") && EndsWith(r, css + "\n")
  {
    Framed("/*" + path + "*/\n", [], css + "\n");
    assert "/*" + path + "*/\n" + [] + (css + "\n") == "/*" + path + "*/\n" + css + "\n";
    "/*" + path + "*/\n" + css + "\n"
  }

  /** The buffer after the given loads, in call order, with `entry` the text each load appends. */
  function Entries(loaded: seq<(string, string)>, entry: (string, string) -> string): string
    decreases |loaded|
  {
    if loaded == [] then []
    else
      var last := loaded[|loaded| - 1];
      Entries(loaded[..|loaded| - 1], entry) + entry(last.0, last.1)
  }

  /** The buffer of two runs of loads is the buffer of the first followed by that of the second. */
  lemma {:induction false} EntriesAppend(a: seq<(string, string)>, b: seq<(string, string)>,
                                         entry: (string, string) -> string)
    ensures Entries(a + b, entry) == Entries(a, entry) + Entries(b, entry)
    decreases |b|
  {
    if b == [] {
      assert a + b == a;
    } else {
      var last := b[|b| - 1];
      assert (a + b)[..|a + b| - 1] == a + b[..|b| - 1];
      EntriesAppend(a, b[..|b| - 1], entry);
    }
  }

  /** The buffer only grows: what earlier loads wrote stays its prefix. */
  lemma EarlierLoadsKept(a: seq<(string, string)>, b: seq<(string, string)>, entry: (string, string) -> string)
    ensures StartsWith(Entries(a + b, entry), Entries(a, entry))
  {
    EntriesAppend(a, b, entry);
    Framed(Entries(a, entry), Entries(b, entry), []);
    assert Entries(a, entry) + Entries(b, entry) + [] == Entries(a, entry) + Entries(b, entry);
  }

  /** A call the virtual module makes into BetterDiscord's `DOM` API. */
  datatype DomCall = AddStyle(css: string) | RemoveStyle

  /**
   * The state of the virtual module: the `_styles` buffer, and the loads made
   * so far, which determine it.
   */
  class StyleBuffer {
    var styles: string
    ghost var loaded: seq<(string, string)>

    ghost predicate Valid()
      reads this
    {
      styles == Entries(loaded, Entry)
    }

    /** The module's initialisation: `let _styles = ""`. */
    constructor()
      ensures Valid() && loaded == [] && styles == []
    {
      styles := [];
      loaded := [];
    }

    /** `_loadStyle(path, css)` */
    method LoadStyle(path: string, css: string)
      requires Valid()
      modifies this
      ensures Valid() && loaded == old(loaded) + [(path, css)]
      ensures styles == old(styles) + Entry(path, css)
    {
      styles := styles + Entry(path, css);
      loaded := loaded + [(path, css)];
      assert loaded[..|loaded| - 1] == old(loaded);
    }

    /** `addStyles()`: hands the whole buffer to `DOM.addStyle`. */
    method AddStyles() returns (call: DomCall)
      ensures call == AddStyle(styles)
    {
      call := AddStyle(styles);
    }

    /** `removeStyles()`: `DOM.removeStyle()`; the buffer stays as it is. */
    method RemoveStyles() returns (call: DomCall)
      ensures call == RemoveStyle
    {
      call := RemoveStyle;
    }

    /** `styles()`: the buffer, unchanged. */
    method Styles() returns (r: string)
      requires Valid()
      ensures r == Entries(loaded, Entry)
    {
      r := styles;
    }
  }
}
