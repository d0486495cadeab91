/**
 * `meta` of src/bin/templates/meta.ts: the BetterDiscord metadata header, a
 * doc comment with one ` * @key value` line per metadata key, placed before
 * the bundled code.
 */
module MetaTemplate {
  import opened Text
  import opened JsValues

  const HeaderOpen: string := "/**\n"
  const HeaderClose: string := " */\n\n"

  /** The line one metadata entry contributes. */
  function TagLine(entry: (string, JsValue)): string {
    " * @" + entry.0 + " " + ToJsString(entry.1) + "\n"
  }

  /** The `reduce` over `Object.keys(meta)`, accumulating from the empty string. */
  function TagLines(meta: Record<JsValue>): string {
    if meta == [] then [] else TagLines(meta[..|meta| - 1]) + TagLine(meta[|meta| - 1])
  }

  /** The header followed by the code. */
  function Meta(code: string, meta: Record<JsValue>): (r: string)
    ensures StartsWith(r, HeaderOpen)
    ensures EndsWith(r, HeaderClose + code)
    ensures |r| == |HeaderOpen| + |TagLines(meta)| + |HeaderClose| + |code|
  {
    var r := HeaderOpen + TagLines(meta) + HeaderClose + code;
    assert r[..|HeaderOpen|] == HeaderOpen;
    assert r[|r| - |HeaderClose + code|..] == HeaderClose + code;
    r
  }

  /** Without metadata the header is just the opening and the closing line. */
  lemma MetaEmpty(code: string)
    ensures Meta(code, []) == "/**\n */\n\n" + code
  {
  }

  /** Each step of the `reduce` appends exactly one line for the next key. */
  lemma {:induction false} TagLinesPrefix(meta: Record<JsValue>, i: nat)
    requires i <= |meta|
    ensures StartsWith(TagLines(meta), TagLines(meta[..i]))
    decreases |meta| - i
  {
    if i < |meta| {
      TagLinesPrefix(meta, i + 1);
      assert meta[..i + 1][..i] == meta[..i];
      assert TagLines(meta[..i + 1]) == TagLines(meta[..i]) + TagLine(meta[i]);
    } else {
      assert meta[..i] == meta;
    }
  }

  /**
   * The line of the `i`-th key sits right after the lines of the keys before
   * it, so the header lists every key once, in key order.
   */
  lemma TagLineAt(code: string, meta: Record<JsValue>, i: nat)
    requires i < |meta|
    ensures var at := |HeaderOpen| + |TagLines(meta[..i])|;
      var r := Meta(code, meta);
      at + |TagLine(meta[i])| <= |r| && r[at..at + |TagLine(meta[i])|] == TagLine(meta[i])
  {
    TagLinesPrefix(meta, i + 1);
    assert meta[..i + 1][..i] == meta[..i];
    var before := TagLines(meta[..i]);
    var line := TagLine(meta[i]);
    assert TagLines(meta[..i + 1]) == before + line;
    var lines := TagLines(meta);
    assert lines[..|before| + |line|] == before + line;
    var r := Meta(code, meta);
    assert r == HeaderOpen + lines + HeaderClose + code;
    assert r[|HeaderOpen|..|HeaderOpen| + |lines|] == lines;
    assert r[|HeaderOpen| + |before|..|HeaderOpen| + |before| + |line|] == lines[|before|..|before| + |line|];
  }
}
