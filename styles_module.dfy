/**
 * src/modules/styles.js: the `styles` module of the webpack build. The style
 * loader calls its `load` once for every stylesheet, and the default export
 * returns everything loaded so far.
 */
module StylesModule {
  import opened Text
  import opened StyleLoader

  /** The text `load(path, css)` appends: the path in a spaced comment on its own line, then the CSS and a newline. */
  function SpacedEntry(path: string, css: string): (r: string)
    ensures StartsWith(r, "/* " + path + " */\n") && EndsWith(r, css + "\n")
  {
    Framed("/* " + path + " */\n", [], css + "\n");
    assert "/* " + path + " */\n" + [] + (css + "\n") == "/* " + path + " */\n" + css + "\n";
    "/* " + path + " */\n" + css + "\n"
  }

  /** The module's state: the `_styles` buffer and the loads that produced it. */
  class LoadedStyles {
    var styles: string
    ghost var loaded: seq<(string, string)>

    ghost predicate Valid()
      reads this
    {
      styles == Entries(loaded, SpacedEntry)
    }

    /** The module's initialisation: `let _styles = ""`. */
    constructor()
      ensures Valid() && loaded == [] && styles == []
    {
      styles := [];
      loaded := [];
    }

    /** `load(path, css)` */
    method Load(path: string, css: string)
      requires Valid()
      modifies this
      ensures Valid() && loaded == old(loaded) + [(path, css)]
      ensures styles == old(styles) + SpacedEntry(path, css)
    {
      styles := styles + SpacedEntry(path, css);
      loaded := loaded + [(path, css)];
      assert loaded[..|loaded| - 1] == old(loaded);
    }

    /** `styles()`: the buffer, unchanged. */
    method Styles() returns (r: string)
      requires Valid()
      ensures r == Entries(loaded, SpacedEntry)
    {
      r := styles;
    }
  }

  /** For the same loads, the webpack buffer is longer than the rollup one by the two comment spaces of each entry. */
  lemma {:induction false} SpacedBufferLonger(loaded: seq<(string, string)>)
    ensures |Entries(loaded, SpacedEntry)| == |Entries(loaded, Entry)| + 2 * |loaded|
    decreases |loaded|
  {
    if loaded != [] {
      SpacedBufferLonger(loaded[..|loaded| - 1]);
      var last := loaded[|loaded| - 1];
      assert |SpacedEntry(last.0, last.1)| == |Entry(last.0, last.1)| + 2;
    }
  }
}
