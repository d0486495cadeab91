/**
 * bin/plugins/compressedtemplates.ts: the rollup transform that, for ids its
 * regular expression accepts, puts each template literal on one line by
 * writing its raw newlines as the escape `\n`.
 *
 * The source finds template literals with the regular expression
 * /`(.*?[^\\])`/gs. That pattern does not know where a literal ends: an empty
 * literal makes it pair the wrong backticks. `AsWritten` models the pattern
 * as written; `Compress` is the scanner the transform evidently intends, and
 * `Transform` uses it.
 */
module CompressedTemplates {
  import opened Wrappers
  import opened Text

  /** The pattern's closing backtick can sit at `k`: a backtick that follows a character other than a backslash. */
  predicate Closes(s: string, k: nat) {
    1 <= k < |s| && s[k] == '`' && s[k - 1] != '\\'
  }

  /** The first position from `j` on where the pattern's closing backtick can sit (the lazy `.*?`). */
  function ClosingFrom(s: string, j: nat): (r: Option<nat>)
    ensures r.Some? ==> j <= r.value && Closes(s, r.value)
    ensures forall k: nat :: j <= k && (r.None? || k < r.value) ==> !Closes(s, k)
    decreases |s| - j
  {
    if j >= |s| then None
    else if Closes(s, j) then Some(j)
    else ClosingFrom(s, j + 1)
  }

  /**
   * `s.replace(/`(.*?[^\\])`/gs, …)`, as written: at a backtick the match
   * closes at the first backtick at least two places on that does not follow
   * a backslash, the text between has its newlines written as `\n`, and the
   * search resumes after the match; where no match starts, the character is
   * kept. A match never looks before its opening backtick, so the remaining
   * text is all the scan needs.
   */
  function AsWritten(s: string): string
    decreases |s|
  {
    if s == [] then []
    else if s[0] == '`' then
      match ClosingFrom(s, 2)
      case Some(j) => "`" + (MapChar(s[1..j], '\n', "\\n") + ("`" + AsWritten(s[j + 1..])))
      case None => [s[0]] + AsWritten(s[1..])
    else [s[0]] + AsWritten(s[1..])
  }

  /**
   * The intended scanner: a backtick opens or closes a template literal;
   * inside one, an escape (a backslash and the character after it) is kept
   * as it is and a raw newline becomes `\n`; all other text is kept.
   */
  function Compress(s: string, inside: bool): string
    decreases |s|
  {
    if s == [] then []
    else if s[0] == '`' then "`" + Compress(s[1..], !inside)
    else if inside && s[0] == '\\' && |s| >= 2 then s[..2] + Compress(s[2..], true)
    else if inside && s[0] == '\n' then "\\n" + Compress(s[1..], true)
    else [s[0]] + Compress(s[1..], inside)
  }

  /** The text outside template literals, with the backticks that delimit them, as the intended scanner reads it. */
  function Outside(s: string, inside: bool): string
    decreases |s|
  {
    if s == [] then []
    else if s[0] == '`' then "`" + Outside(s[1..], !inside)
    else if inside && s[0] == '\\' && |s| >= 2 then Outside(s[2..], true)
    else if inside then Outside(s[1..], true)
    else [s[0]] + Outside(s[1..], false)
  }

  /** No template literal holds a raw newline. */
  predicate NoRawNewlineInside(s: string, inside: bool)
    decreases |s|
  {
    if s == [] then true
    else if s[0] == '`' then NoRawNewlineInside(s[1..], !inside)
    else if inside && s[0] == '\\' && |s| >= 2 then NoRawNewlineInside(s[2..], true)
    else if inside && s[0] == '\n' then false
    else NoRawNewlineInside(s[1..], inside)
  }

  /** `transform(code, id)` as written: nothing unless the id matches. */
  function TransformAsWritten(idMatches: bool, code: string): (r: Option<string>)
    ensures r.Some? <==> idMatches
    ensures idMatches && '`' !in code ==> r == Some(code)
  {
    if idMatches then
      if '`' !in code then
        AsWrittenPlain(code, []);
        assert code + [] == code;
        Some(AsWritten(code))
      else Some(AsWritten(code))
    else None
  }

  /** `transform(code, id)` with the intended scanner: nothing unless the id matches. */
  function Transform(idMatches: bool, code: string): (r: Option<string>)
    ensures r.Some? <==> idMatches
    ensures idMatches && '`' !in code ==> r == Some(code)
  {
    if idMatches then
      if '`' !in code then
        CompressPlain(code, []);
        assert code + [] == code;
        Some(Compress(code, false))
      else Some(Compress(code, false))
    else None
  }

  /** The intended scanner keeps the text outside template literals and every delimiter. */
  lemma {:induction false} CompressKeepsOutside(s: string, inside: bool)
    ensures Outside(Compress(s, inside), inside) == Outside(s, inside)
    decreases |s|
  {
    if s == [] {
    } else if s[0] == '`' {
      CompressKeepsOutside(s[1..], !inside);
      var t := "`" + Compress(s[1..], !inside);
      assert t[0] == '`' && t[1..] == Compress(s[1..], !inside);
    } else if inside && s[0] == '\\' && |s| >= 2 {
      CompressKeepsOutside(s[2..], true);
      var t := s[..2] + Compress(s[2..], true);
      assert t[0] == '\\' && t[2..] == Compress(s[2..], true);
    } else if inside && s[0] == '\n' {
      CompressKeepsOutside(s[1..], true);
      var t := "\\n" + Compress(s[1..], true);
      assert t[0] == '\\' && t[2..] == Compress(s[1..], true);
    } else {
      CompressKeepsOutside(s[1..], inside);
      var t := [s[0]] + Compress(s[1..], inside);
      assert t[0] == s[0] && t[1..] == Compress(s[1..], inside);
    }
  }

  /** After the intended scanner, no template literal holds a raw newline. */
  lemma {:induction false} CompressLeavesNoRawNewline(s: string, inside: bool)
    ensures NoRawNewlineInside(Compress(s, inside), inside)
    decreases |s|
  {
    if s == [] {
    } else if s[0] == '`' {
      CompressLeavesNoRawNewline(s[1..], !inside);
      var t := "`" + Compress(s[1..], !inside);
      assert t[0] == '`' && t[1..] == Compress(s[1..], !inside);
    } else if inside && s[0] == '\\' && |s| >= 2 {
      CompressLeavesNoRawNewline(s[2..], true);
      var t := s[..2] + Compress(s[2..], true);
      assert t[0] == '\\' && t[2..] == Compress(s[2..], true);
    } else if inside && s[0] == '\n' {
      CompressLeavesNoRawNewline(s[1..], true);
      var t := "\\n" + Compress(s[1..], true);
      assert t[0] == '\\' && t[2..] == Compress(s[1..], true);
    } else {
      CompressLeavesNoRawNewline(s[1..], inside);
      var t := [s[0]] + Compress(s[1..], inside);
      assert t[0] == s[0] && t[1..] == Compress(s[1..], inside);
    }
  }

  /** Text without a backtick is copied by the pattern. */
  lemma {:induction false} AsWrittenPlain(a: string, b: string)
    requires '`' !in a
    ensures AsWritten(a + b) == a + AsWritten(b)
    decreases |a|
  {
    if a != [] {
      assert a[0] in a;
      assert (a + b)[0] == a[0] && (a + b)[1..] == a[1..] + b;
      assert forall c :: c in a[1..] ==> c in a;
      AsWrittenPlain(a[1..], b);
      assert a == [a[0]] + a[1..];
    } else {
      assert a + b == b;
    }
  }

  /** Text without a backtick, outside any literal, is copied by the intended scanner. */
  lemma {:induction false} CompressPlain(a: string, b: string)
    requires '`' !in a
    ensures Compress(a + b, false) == a + Compress(b, false)
    decreases |a|
  {
    if a != [] {
      assert a[0] in a;
      assert (a + b)[0] == a[0] && (a + b)[1..] == a[1..] + b;
      assert forall c :: c in a[1..] ==> c in a;
      CompressPlain(a[1..], b);
      assert a == [a[0]] + a[1..];
    } else {
      assert a + b == b;
    }
  }

  /** Inside a literal, text without backticks or backslashes has its newlines written as `\n`. */
  lemma {:induction false} CompressBody(a: string, b: string)
    requires '`' !in a && '\\' !in a
    ensures Compress(a + b, true) == MapChar(a, '\n', "\\n") + Compress(b, true)
    decreases |a|
  {
    if a != [] {
      var x := a + b;
      assert x[0] == a[0] && x[1..] == a[1..] + b;
      assert a[0] != '`' && a[0] != '\\' by { assert a[0] in a; }
      assert '`' !in a[1..] && '\\' !in a[1..] by { assert forall c :: c in a[1..] ==> c in a; }
      CompressBody(a[1..], b);
      var head := if a[0] == '\n' then "\\n" else [a[0]];
      assert Compress(x, true) == head + Compress(x[1..], true);
      assert MapChar(a, '\n', "\\n") == head + MapChar(a[1..], '\n', "\\n");
    } else {
      assert a + b == b;
    }
  }

  /**
   * The pattern on one template literal whose text has no backtick and does
   * not end in a backslash: the literal's newlines are written as `\n`.
   */
  lemma AsWrittenLiteral(body: string, rest: string)
    requires '`' !in body && body != [] && body[|body| - 1] != '\\'
    ensures AsWritten("`" + (body + ("`" + rest))) == "`" + (MapChar(body, '\n', "\\n") + ("`" + AsWritten(rest)))
  {
    var s := "`" + (body + ("`" + rest));
    var j := |body| + 1;
    assert s[1..j] == body && s[j] == '`' && s[j - 1] == body[|body| - 1] && s[j + 1..] == rest;
    forall k: nat | 2 <= k < j ensures !Closes(s, k) {
      assert s[k] == body[k - 1];
      assert body[k - 1] in body;
    }
    assert Closes(s, j);
    assert ClosingFrom(s, 2) == Some(j);
  }

  /** The pattern on one template literal between texts without backticks. */
  lemma AsWrittenSingle(pre: string, body: string, post: string)
    requires '`' !in pre && '`' !in post && '`' !in body && body != [] && body[|body| - 1] != '\\'
    ensures AsWritten(pre + ("`" + (body + ("`" + post))))
            == pre + ("`" + (MapChar(body, '\n', "\\n") + ("`" + post)))
  {
    AsWrittenPlain(pre, "`" + (body + ("`" + post)));
    AsWrittenLiteral(body, post);
    AsWrittenPlain(post, []);
    assert post + [] == post;
    assert AsWritten([]) == [];
  }

  /** The intended scanner on one template literal whose text has no backtick or backslash. */
  lemma CompressSingle(pre: string, body: string, post: string)
    requires '`' !in pre && '`' !in post && '`' !in body && '\\' !in body
    ensures Compress(pre + ("`" + (body + ("`" + post))), false)
            == pre + ("`" + (MapChar(body, '\n', "\\n") + ("`" + post)))
  {
    var afterOpen := "`" + (body + ("`" + post));
    CompressPlain(pre, afterOpen);
    assert afterOpen[0] == '`' && afterOpen[1..] == body + ("`" + post);
    CompressBody(body, "`" + post);
    CompressPlain(post, []);
    assert post + [] == post;
    var afterBody := "`" + post;
    assert afterBody[0] == '`' && afterBody[1..] == post;
  }

  /**
   * On one template literal whose text has no backtick or backslash, between
   * text without backticks, the pattern and the intended scanner agree: the
   * delimiters and the outside text are kept and the literal's newlines are
   * written as `\n`.
   */
  lemma SingleTemplate(pre: string, body: string, post: string)
    requires '`' !in pre && '`' !in post && '`' !in body && '\\' !in body && body != []
    ensures var s := pre + ("`" + (body + ("`" + post)));
      var expected := pre + ("`" + (MapChar(body, '\n', "\\n") + ("`" + post)));
      AsWritten(s) == expected && Compress(s, false) == expected
  {
    assert body[|body| - 1] in body;
    AsWrittenSingle(pre, body, post);
    CompressSingle(pre, body, post);
  }

  /** The input that shows the pattern's mistake: an empty template literal, a line break, then `x`. */
  const EmptyThenTemplate: string := "``;\n`x`"

  /** What the pattern makes of the example. */
  lemma AsWrittenOnExample()
    ensures AsWritten(EmptyThenTemplate) == "``;\\n`x`"
  {
    var s := EmptyThenTemplate;
    assert !Closes(s, 2) && !Closes(s, 3) && Closes(s, 4);
    assert ClosingFrom(s, 2) == Some(4);
    assert s[1..4] == "`;\n";
    assert MapChar("`;\n", '\n', "\\n") == "`;\\n";
    assert s[5..] == "x`" && s[5..][1..] == "`" && "`"[1..] == [];
    assert ClosingFrom("`", 2) == None;
    assert AsWritten("`") == "`";
    assert AsWritten(s[5..]) == "x`";
  }

  /** The text outside the literals of the pattern's output on the example. */
  lemma OutsideOfAsWrittenExample()
    ensures Outside("``;\\n`x`", false) == "``;\\n``"
  {
    var t := "``;\\n`x`";
    assert Outside(t[7..], true) == "`";
    assert Outside(t[6..], true) == "`";
    assert Outside(t[5..], false) == "``";
    assert Outside(t[4..], false) == "n``";
    assert Outside(t[3..], false) == "\\n``";
    assert Outside(t[2..], false) == ";\\n``";
  }

  /** The text outside the literals of the example. */
  lemma OutsideOfExample()
    ensures Outside(EmptyThenTemplate, false) == "``;\n``"
  {
    var s := EmptyThenTemplate;
    assert Outside(s[6..], true) == "`";
    assert Outside(s[5..], true) == "`";
    assert Outside(s[4..], false) == "``";
    assert Outside(s[3..], false) == "\n``";
    assert Outside(s[2..], false) == ";\n``";
  }

  /** The intended scanner leaves the example as it is. */
  lemma CompressKeepsExample()
    ensures Compress(EmptyThenTemplate, false) == EmptyThenTemplate
  {
    var s := EmptyThenTemplate;
    assert Compress(s[6..], true) == s[6..];
    assert Compress(s[5..], true) == s[5..];
    assert Compress(s[4..], false) == s[4..];
    assert Compress(s[3..], false) == s[3..];
    assert Compress(s[2..], false) == s[2..];
    assert Compress(s[1..], true) == s[1..];
  }

  /**
   * As written, the pattern reads the empty literal's closing backtick as text
   * and closes at the next literal's opening one, so the line break between
   * the two statements, outside any literal, becomes `\n`: the output reads
   * `;` followed by a stray backslash. The intended scanner keeps the input.
   */
  lemma AsWrittenMisreadsEmptyTemplate()
    ensures AsWritten(EmptyThenTemplate) == "``;\\n`x`"
    ensures Outside(AsWritten(EmptyThenTemplate), false) != Outside(EmptyThenTemplate, false)
    ensures Compress(EmptyThenTemplate, false) == EmptyThenTemplate
  {
    AsWrittenOnExample();
    OutsideOfAsWrittenExample();
    OutsideOfExample();
    CompressKeepsExample();
    assert "``;\\n``"[3] != "``;\n``"[3];
  }
}
