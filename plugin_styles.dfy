/**
 * styles.ts: `Styles`, the helper shipped to plugins for their CSS. It keeps
 * the CSS of the bundled stylesheets (`styles`) apart from the CSS a plugin
 * adds at run time (`added`), and hands both to BetterDiscord under the
 * plugin's name.
 */
module PluginStyles {
  import opened Text

  /** A call into BetterDiscord's CSS API. */
  datatype CssCall = InjectCss(id: string, css: string) | ClearCss(id: string)

  /** `added.filter((c) => c !== css)` */
  function Without(added: seq<string>, css: string): (r: seq<string>)
    ensures css !in r
    ensures |r| <= |added|
    ensures css !in added ==> r == added
  {
    if added == [] then []
    else if added[0] == css then Without(added[1..], css)
    else
      assert added == [added[0]] + added[1..];
      [added[0]] + Without(added[1..], css)
  }

  /** Filtering two runs is filtering each: the remaining entries keep their order. */
  lemma {:induction false} WithoutAppend(a: seq<string>, b: seq<string>, css: string)
    ensures Without(a + b, css) == Without(a, css) + Without(b, css)
    decreases |a|
  {
    if a == [] {
      assert a + b == b;
    } else {
      assert (a + b)[0] == a[0] && (a + b)[1..] == a[1..] + b;
      WithoutAppend(a[1..], b, css);
    }
  }

  /** Only entries equal to `css` go: every other entry stays as often as it was there. */
  lemma {:induction false} WithoutCounts(added: seq<string>, css: string, other: string)
    requires other != css
    ensures multiset(Without(added, css))[other] == multiset(added)[other]
    ensures multiset(Without(added, css))[css] == 0
    decreases |added|
  {
    if added != [] {
      WithoutCounts(added[1..], css, other);
      assert added == [added[0]] + added[1..];
    }
  }

  /** The CSS handed to BetterDiscord: the bundled stylesheets, then the added CSS joined by newlines. */
  function Injected(styles: string, added: seq<string>): string {
    styles + Join(added, "\n")
  }

  /** Removing CSS that was just added, and was not added before, injects what was injected before. */
  lemma AddThenRemoveRestores(styles: string, added: seq<string>, css: string)
    requires css !in added
    ensures Without(added + [css], css) == added
    ensures Injected(styles, Without(added + [css], css)) == Injected(styles, added)
  {
    WithoutAppend(added, [css], css);
    assert Without([css], css) == [];
    assert added + [] == added;
  }

  /** The static state of `Styles`, with `meta.name` fixed for the plugin. */
  class Styles {
    const pluginName: string
    var styles: string
    var added: seq<string>

    /** The class's static initialisers: no stylesheets and no added CSS. */
    constructor(pluginName: string)
      ensures this.pluginName == pluginName && styles == [] && added == []
    {
      this.pluginName := pluginName;
      styles := [];
      added := [];
    }

    /** `_load(css)`: appends the stylesheet and a newline. */
    method Load(css: string)
      modifies this
      ensures styles == old(styles) + css + "\n" && added == old(added)
    {
      styles := styles + css + "\n";
    }

    /** `inject()`: the bundled stylesheets only. */
    method Inject() returns (call: CssCall)
      ensures call == InjectCss(pluginName, styles)
    {
      call := InjectCss(pluginName, styles);
    }

    /** `add(css)`: appends `css` to the added CSS and injects everything. */
    method Add(css: string) returns (call: CssCall)
      modifies this
      ensures added == old(added) + [css] && styles == old(styles)
      ensures call == InjectCss(pluginName, Injected(styles, added))
    {
      added := added + [css];
      call := InjectCss(pluginName, styles + Join(added, "\n"));
    }

    /** `remove(css)`: drops every entry equal to `css` and injects what is left. */
    method Remove(css: string) returns (call: CssCall)
      modifies this
      ensures added == Without(old(added), css) && styles == old(styles)
      ensures call == InjectCss(pluginName, Injected(styles, added))
    {
      added := Without(added, css);
      call := InjectCss(pluginName, styles + Join(added, "\n"));
    }

    /** `clear()`: clears the plugin's CSS and forgets the added CSS; the bundled stylesheets stay. */
    method Clear() returns (call: CssCall)
      modifies this
      ensures added == [] && styles == old(styles)
      ensures call == ClearCss(pluginName)
    {
      call := ClearCss(pluginName);
      added := [];
    }
  }
}
