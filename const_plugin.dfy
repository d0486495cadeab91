/**
 * bin/plugins/const.ts: the rollup transform that, for ids its regular
 * expression accepts, turns `var ` at the start of a line into `const `, and
 * then `export var ` at the start of a line into `export const `. Both
 * patterns are `/^…/gm`: `^` matches at the start of the text and after any
 * line terminator.
 */
module ConstPlugin {
  import opened Wrappers
  import opened Text

  /** No line terminator occurs in `s`. */
  predicate NoTerminator(s: string) {
    forall c :: c in s ==> !IsLineTerminator(c)
  }

  /** The only line terminator in `s` is the line feed. */
  predicate OnlyNewlines(s: string) {
    forall c :: c in s && IsLineTerminator(c) ==> c == '\n'
  }

  /**
   * `s.replace(/^p/gm, r)` for a literal `p`. `atStart` says whether `^`
   * matches before `s[0]`, that is whether the text before it is empty or ends
   * in a line terminator. After a match the search resumes behind it, so the
   * next `^` depends on the last character of the match.
   */
  function LineStartReplace(s: string, p: string, r: string, atStart: bool): (t: string)
    requires p != []
    ensures !Contains(s, p) ==> t == s
    decreases |s|
  {
    if s == [] then []
    else if atStart && StartsWith(s, p) then r + LineStartReplace(s[|p|..], p, r, IsLineTerminator(p[|p| - 1]))
    else
      var t := [s[0]] + LineStartReplace(s[1..], p, r, IsLineTerminator(s[0]));
      assert !Contains(s, p) ==> t == [s[0]] + s[1..];
      t
  }

  /** The replacement applied to one line: only a match at its very start counts. */
  function FixLine(line: string, p: string, r: string): (t: string)
    ensures StartsWith(line, p) ==> StartsWith(t, r) && |t| == |line| - |p| + |r|
    ensures !StartsWith(line, p) ==> t == line
    ensures forall c :: c in t ==> c in line || c in r
  {
    if StartsWith(line, p) then r + line[|p|..] else line
  }

  /** `FixLine` on each line. */
  function FixEach(lines: seq<string>, p: string, r: string): (t: seq<string>)
    ensures |t| == |lines|
    ensures forall i :: 0 <= i < |lines| ==> t[i] == FixLine(lines[i], p, r)
  {
    if lines == [] then [] else [FixLine(lines[0], p, r)] + FixEach(lines[1..], p, r)
  }

  /** `transform(code, id)`: nothing (the code stays as it is) unless the id matches. */
  function Transform(idMatches: bool, code: string): (r: Option<string>)
    ensures r.Some? <==> idMatches
  {
    if idMatches then
      Some(LineStartReplace(LineStartReplace(code, "var ", "const ", true), "export var ", "export const ", true))
    else None
  }

  /** What the transform does to one line. */
  function ConstLine(line: string): (t: string)
    ensures StartsWith(line, "var ") ==> t == "const " + line[4..]
    ensures StartsWith(line, "export var ") ==> t == "export const " + line[11..]
    ensures !StartsWith(line, "var ") && !StartsWith(line, "export var ") ==> t == line
  {
    if StartsWith(line, "var ") then
      assert !StartsWith(line, "export var ") by { assert line[0] == 'v'; }
      "const " + line[4..]
    else if StartsWith(line, "export var ") then
      assert line[0] == 'e';
      "export const " + line[11..]
    else line
  }

  /** Text without a line terminator after a position where `^` does not match is copied unchanged. */
  lemma {:induction false} PlainRun(line: string, more: string, p: string, r: string)
    requires p != [] && NoTerminator(line)
    ensures LineStartReplace(line + more, p, r, false) == line + LineStartReplace(more, p, r, false)
    decreases |line|
  {
    if line != [] {
      assert (line + more)[1..] == line[1..] + more;
      assert line[0] in line;
      PlainRun(line[1..], more, p, r);
      assert line == [line[0]] + line[1..];
    } else {
      assert line + more == more;
    }
  }

  /** A last line, without a terminator, is rewritten as `FixLine` says. */
  lemma LastLine(line: string, p: string, r: string)
    requires p != [] && NoTerminator(line) && NoTerminator(p)
    ensures LineStartReplace(line, p, r, true) == FixLine(line, p, r)
  {
    if StartsWith(line, p) {
      assert p[|p| - 1] in p;
      PlainRun(line[|p|..], [], p, r);
      assert line[|p|..] + [] == line[|p|..];
    } else if line != [] {
      assert line[0] in line;
      PlainRun(line[1..], [], p, r);
      assert line[1..] + [] == line[1..];
      assert line == [line[0]] + line[1..];
    }
  }

  /** A pattern without line terminators cannot match across the end of a line it does not begin. */
  lemma NoMatchAcrossNewline(line: string, more: string, p: string)
    requires NoTerminator(p) && !StartsWith(line, p)
    ensures !StartsWith(line + "\n" + more, p)
  {
    var s := line + "\n" + more;
    if |p| <= |line| {
      assert s[..|p|] == line[..|p|];
    } else if |p| <= |s| {
      assert p[|line|] in p;
      assert s[..|p|][|line|] == s[|line|] == '\n';
    }
  }

  /** A line that begins with the pattern, then a line feed. */
  lemma MatchedLineThenRest(p: string, rest: string, more: string, r: string)
    requires p != [] && NoTerminator(rest) && NoTerminator(p)
    ensures LineStartReplace(p + (rest + ("\n" + more)), p, r, true)
            == r + (rest + ("\n" + LineStartReplace(more, p, r, true)))
  {
    var s := p + (rest + ("\n" + more));
    assert s[..|p|] == p;
    assert p[|p| - 1] in p;
    assert s[|p|..] == rest + ("\n" + more);
    PlainRun(rest, "\n" + more, p, r);
    assert ("\n" + more)[1..] == more;
  }

  /** A line that does not begin with the pattern, then a line feed. */
  lemma KeptLineThenRest(line: string, more: string, p: string, r: string)
    requires p != [] && NoTerminator(line) && NoTerminator(p) && !StartsWith(line, p)
    ensures LineStartReplace(line + "\n" + more, p, r, true)
            == line + "\n" + LineStartReplace(more, p, r, true)
  {
    var s := line + "\n" + more;
    NoMatchAcrossNewline(line, more, p);
    if line == [] {
      assert s == "\n" + more;
      assert s[1..] == more;
    } else {
      assert line[0] in line;
      assert s[1..] == line[1..] + ("\n" + more);
      PlainRun(line[1..], "\n" + more, p, r);
      assert ("\n" + more)[1..] == more;
      assert line == [line[0]] + line[1..];
    }
  }

  /** A line that ends in a line feed is rewritten as `FixLine` says, and `^` matches again after it. */
  lemma LineThenRest(line: string, more: string, p: string, r: string)
    requires p != [] && NoTerminator(line) && NoTerminator(p)
    ensures LineStartReplace(line + "\n" + more, p, r, true)
            == FixLine(line, p, r) + "\n" + LineStartReplace(more, p, r, true)
  {
    if StartsWith(line, p) {
      var rest := line[|p|..];
      assert line == p + rest;
      assert forall c :: c in rest ==> c in line;
      MatchedLineThenRest(p, rest, more, r);
      assert line + "\n" + more == p + (rest + ("\n" + more));
      var x := LineStartReplace(more, p, r, true);
      assert FixLine(line, p, r) + "\n" + x == r + (rest + ("\n" + x));
    } else {
      KeptLineThenRest(line, more, p, r);
    }
  }

  /**
   * For text whose only line terminator is the line feed, the replacement acts
   * on each line separately: a line beginning with `p` has it replaced, every
   * other line and every later occurrence within a line is kept.
   */
  lemma {:induction false} ByLines(s: string, p: string, r: string)
    requires p != [] && NoTerminator(p) && OnlyNewlines(s)
    ensures LineStartReplace(s, p, r, true) == Join(FixEach(Split(s, '\n'), p, r), "\n")
    decreases |s|
  {
    if '\n' !in s {
      SplitAbsent(s, '\n');
      LastLine(s, p, r);
    } else {
      var line := BeforeFirst(s, '\n');
      var more := s[|line| + 1..];
      assert s == line + "\n" + more;
      SplitAt(line, '\n', more);
      ByLines(more, p, r);
      var rest := FixEach(Split(more, '\n'), p, r);
      assert FixEach(Split(s, '\n'), p, r) == [FixLine(line, p, r)] + rest;
      JoinCons(FixLine(line, p, r), rest, "\n");
      LineThenRest(line, more, p, r);
    }
  }

  /** The replacement keeps the line feed the only line terminator when `r` has none. */
  lemma {:induction false} KeepsOnlyNewlines(s: string, p: string, r: string, atStart: bool)
    requires p != [] && NoTerminator(r) && OnlyNewlines(s)
    ensures OnlyNewlines(LineStartReplace(s, p, r, atStart))
    decreases |s|
  {
    if s != [] {
      if atStart && StartsWith(s, p) {
        KeepsOnlyNewlines(s[|p|..], p, r, IsLineTerminator(p[|p| - 1]));
      } else {
        KeepsOnlyNewlines(s[1..], p, r, IsLineTerminator(s[0]));
      }
    }
  }

  /** `ConstLine` on each line. */
  function ConstEach(lines: seq<string>): (t: seq<string>)
    ensures |t| == |lines|
    ensures forall i :: 0 <= i < |lines| ==> t[i] == ConstLine(lines[i])
  {
    if lines == [] then [] else [ConstLine(lines[0])] + ConstEach(lines[1..])
  }

  /** Two line-start replacements in a row act line by line, one after the other. */
  lemma TwoPasses(code: string, p1: string, r1: string, p2: string, r2: string)
    requires p1 != [] && p2 != [] && NoTerminator(p1) && NoTerminator(p2) && NoTerminator(r1)
    requires OnlyNewlines(code)
    ensures LineStartReplace(LineStartReplace(code, p1, r1, true), p2, r2, true)
            == Join(FixEach(FixEach(Split(code, '\n'), p1, r1), p2, r2), "\n")
  {
    var first := FixEach(Split(code, '\n'), p1, r1);
    ByLines(code, p1, r1);
    forall i | 0 <= i < |first| ensures '\n' !in first[i] {
      assert '\n' !in Split(code, '\n')[i];
    }
    SplitJoin(first, '\n');
    KeepsOnlyNewlines(code, p1, r1, true);
    ByLines(LineStartReplace(code, p1, r1, true), p2, r2);
  }

  /** The two per-line replacements together are `ConstLine`. */
  lemma ConstLineIsTwoFixes(line: string)
    ensures FixLine(FixLine(line, "var ", "const "), "export var ", "export const ") == ConstLine(line)
  {
    if StartsWith(line, "var ") {
      assert ("const " + line[4..])[0] == 'c';
    } else if StartsWith(line, "export var ") {
      assert line[0] == 'e';
    }
  }

  /**
   * The transform rewrites each line on its own: `var ` at the start becomes
   * `const `, `export var ` at the start becomes `export const `, and all
   * other text is kept.
   */
  lemma ConstByLine(code: string)
    requires OnlyNewlines(code)
    ensures Transform(true, code) == Some(Join(ConstEach(Split(code, '\n')), "\n"))
  {
    var lines := Split(code, '\n');
    assert NoTerminator("var ") && NoTerminator("const ") && NoTerminator("export var ");
    TwoPasses(code, "var ", "const ", "export var ", "export const ");
    var second := FixEach(FixEach(lines, "var ", "const "), "export var ", "export const ");
    forall i | 0 <= i < |lines| ensures second[i] == ConstLine(lines[i]) {
      ConstLineIsTwoFixes(lines[i]);
    }
    assert second == ConstEach(lines);
  }

  /** Rewriting a rewritten line changes nothing. */
  lemma ConstLineIdempotent(line: string)
    ensures ConstLine(ConstLine(line)) == ConstLine(line)
  {
    var t := ConstLine(line);
    if StartsWith(line, "var ") {
      assert t[0] == 'c';
    } else if StartsWith(line, "export var ") {
      assert t[7] == 'c';
      assert t[..11] != "export var " by { assert t[..11][7] == 'c'; }
      assert !StartsWith(t, "var ") by { assert t[0] == 'e'; }
    }
  }

  /** The transform keeps the line feed the only line terminator. */
  lemma TransformKeepsOnlyNewlines(code: string)
    requires OnlyNewlines(code)
    ensures OnlyNewlines(Transform(true, code).value)
  {
    assert NoTerminator("const ") && NoTerminator("export const ");
    KeepsOnlyNewlines(code, "var ", "const ", true);
    KeepsOnlyNewlines(LineStartReplace(code, "var ", "const ", true), "export var ", "export const ", true);
  }

  /** Rewritten lines hold no line feed. */
  lemma ConstEachNoNewline(lines: seq<string>)
    requires forall i :: 0 <= i < |lines| ==> '\n' !in lines[i]
    ensures forall i :: 0 <= i < |lines| ==> '\n' !in ConstEach(lines)[i]
  {
    forall i | 0 <= i < |lines| ensures '\n' !in ConstEach(lines)[i] {
      var l := lines[i];
      if StartsWith(l, "var ") {
        assert forall c :: c in l[4..] ==> c in l;
      } else if StartsWith(l, "export var ") {
        assert forall c :: c in l[11..] ==> c in l;
      }
    }
  }

  /** Applying the transform to its own output changes nothing. */
  lemma ConstIdempotent(code: string)
    requires OnlyNewlines(code)
    ensures Transform(true, Transform(true, code).value) == Transform(true, code)
  {
    var lines := Split(code, '\n');
    var out := ConstEach(lines);
    ConstByLine(code);
    TransformKeepsOnlyNewlines(code);
    ConstByLine(Join(out, "\n"));
    ConstEachNoNewline(lines);
    SplitJoin(out, '\n');
    forall i | 0 <= i < |out| ensures ConstEach(out)[i] == out[i] {
      ConstLineIdempotent(lines[i]);
    }
    assert ConstEach(out) == out;
  }
}
