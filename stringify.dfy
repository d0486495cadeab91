/**
 * `stringify` of bin/utils.ts: `JSON.stringify` followed by the global
 * replacement of `/"([^"]+)":/` by `$1:`, which strips the quotes around
 * object keys so that the text reads as a JavaScript object literal.
 */
module Stringify {
  import opened Text

  /**
   * The replacement as the regular expression performs it, scanning left to
   * right: at a `"`, the longest quote-free run that follows must be non-empty
   * and be closed by `":`; then the quotes go and the scan resumes after the
   * colon. Anywhere else the character is kept.
   */
  function UnquoteKeys(s: string): string
    decreases |s|
  {
    if s == [] then []
    else if s[0] == '"' then
      var k := BeforeFirst(s[1..], '"');
      if k != [] && |k| + 2 < |s| && s[|k| + 2] == ':' then k + ":" + UnquoteKeys(s[|k| + 3..])
      else ['"'] + UnquoteKeys(s[1..])
    else [s[0]] + UnquoteKeys(s[1..])
  }

  /** No `":` in the text: no match, so the text is unchanged. */
  lemma {:induction false} UnquoteKeysNoColon(s: string)
    requires forall i :: 0 <= i < |s| - 1 ==> !(s[i] == '"' && s[i + 1] == ':')
    ensures UnquoteKeys(s) == s
    decreases |s|
  {
    if s != [] {
      UnquoteKeysNoColon(s[1..]);
      assert s == [s[0]] + s[1..];
    }
  }

  /**
   * A quoted non-empty, quote-free key followed by a colon loses its quotes,
   * and the scan carries on with what follows the colon.
   */
  lemma KeyUnquoted(k: string, rest: string)
    requires k != [] && '"' !in k
    ensures UnquoteKeys("\"" + k + "\":" + rest) == k + ":" + UnquoteKeys(rest)
  {
    var s := "\"" + k + "\":" + rest;
    assert s[1..] == k + "\"" + (":" + rest);
    BeforeFirstAt(k, '"', ":" + rest);
    assert s[|k| + 2] == ':';
    assert s[|k| + 3..] == rest;
  }

  /** Text before the first quote passes through unchanged, whatever follows it. */
  lemma {:induction false} UnquoteKeysQuoteFreePrefix(a: string, b: string)
    requires '"' !in a
    ensures UnquoteKeys(a + b) == a + UnquoteKeys(b)
    decreases |a|
  {
    if a != [] {
      assert (a + b)[0] == a[0];
      assert (a + b)[1..] == a[1..] + b;
      UnquoteKeysQuoteFreePrefix(a[1..], b);
      assert a == [a[0]] + a[1..];
    } else {
      assert a + b == b;
    }
  }
}
