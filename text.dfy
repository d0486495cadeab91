/**
 * String operations of JavaScript's `String.prototype` that the bundler uses,
 * stated over `seq<char>`: prefix and substring tests, `indexOf`, `replace`
 * with a string pattern, global replacement of a literal, `split` on one
 * character, `join`, `trimEnd` and the `\s` character class.
 */
module Text {
  import opened Wrappers

  predicate StartsWith(s: string, p: string) {
    |p| <= |s| && s[..|p|] == p
  }

  predicate EndsWith(s: string, p: string) {
    |p| <= |s| && s[|s| - |p|..] == p
  }

  /** A text framed by a head and a tail starts with the head and ends with the tail. */
  lemma Framed(head: string, middle: string, tail: string)
    ensures StartsWith(head + middle + tail, head) && EndsWith(head + middle + tail, tail)
    ensures StartsWith((head + middle + tail)[|head|..], middle)
  {
    var r := head + middle + tail;
    assert r[..|head|] == head;
    assert r[|r| - |tail|..] == tail;
    assert r[|head|..][..|middle|] == middle;
  }

  /** `s.includes(p)` */
  predicate Contains(s: string, p: string)
    decreases |s|
  {
    StartsWith(s, p) || (s != [] && Contains(s[1..], p))
  }

  /** An occurrence at any position makes `s.includes(p)` true. */
  lemma {:induction false} ContainsAt(s: string, p: string, j: nat)
    requires j <= |s| && StartsWith(s[j..], p)
    ensures Contains(s, p)
    decreases j
  {
    if j > 0 {
      assert s[1..][j - 1..] == s[j..];
      ContainsAt(s[1..], p, j - 1);
    }
  }

  /** `s.indexOf(p)`, with `None` standing for -1. */
  function IndexOf(s: string, p: string): (r: Option<nat>)
    decreases |s|
    ensures r.Some? <==> Contains(s, p)
    ensures r.Some? ==> r.value + |p| <= |s| && s[r.value..r.value + |p|] == p
    ensures r.Some? ==> forall j :: 0 <= j < r.value ==> !StartsWith(s[j..], p)
  {
    if StartsWith(s, p) then Some(0)
    else if s == [] then None
    else match IndexOf(s[1..], p)
      case None => None
      case Some(i) =>
        assert forall j :: 1 <= j < i + 1 ==> s[j..] == s[1..][j - 1..];
        Some(i + 1)
  }

  /** The first occurrence is at `k` when there is one at `k` and none before. */
  lemma IndexOfAt(s: string, p: string, k: nat)
    requires k <= |s| && StartsWith(s[k..], p)
    requires forall j :: 0 <= j < k ==> !StartsWith(s[j..], p)
    ensures IndexOf(s, p) == Some(k)
  {
    ContainsAt(s, p, k);
    var i := IndexOf(s, p).value;
    assert s[i..][..|p|] == s[i..i + |p|];
  }

  /** `s.replace(p, r)` for a string pattern without `$` patterns in `r`: the first occurrence only. */
  function ReplaceFirst(s: string, p: string, r: string): string {
    match IndexOf(s, p)
    case None => s
    case Some(i) => s[..i] + r + s[i + |p|..]
  }

  /**
   * When `p` does not occur in `k` and its last character occurs nowhere else
   * in it, the first occurrence in `k + p + rest` is the one after `k`: the
   * replacement takes its place, and `k` and `rest` are kept.
   */
  lemma ReplaceFirstAt(k: string, p: string, rest: string, r: string)
    requires p != [] && !Contains(k, p)
    requires forall i :: 0 <= i < |p| - 1 ==> p[i] != p[|p| - 1]
    ensures ReplaceFirst(k + p + rest, p, r) == k + r + rest
  {
    var s := k + p + rest;
    forall j | 0 <= j < |k|
      ensures !StartsWith(s[j..], p)
    {
      NotBefore(k, p, rest, j);
    }
    assert s[|k|..][..|p|] == p;
    IndexOfAt(s, p, |k|);
    assert s[..|k|] == k && s[|k| + |p|..] == rest;
  }

  /** The premise of `ReplaceFirstAt` rules out an occurrence starting in `k`. */
  lemma NotBefore(k: string, p: string, rest: string, j: nat)
    requires p != [] && !Contains(k, p) && j < |k|
    requires forall i :: 0 <= i < |p| - 1 ==> p[i] != p[|p| - 1]
    ensures !StartsWith((k + p + rest)[j..], p)
  {
    var s := k + p + rest;
    if j + |p| <= |k| {
      assert s[j..][..|p|] == k[j..][..|p|];
      if StartsWith(k[j..], p) {
        ContainsAt(k, p, j);
      }
    } else {
      assert s[j..][|p| - 1] == p[j + |p| - 1 - |k|];
    }
  }

  /** `s.replace(/p/g, r)` for a literal, non-empty `p`: every occurrence, left to right, without overlap. */
  function ReplaceAll(s: string, p: string, r: string): string
    requires p != []
    decreases |s|
  {
    if StartsWith(s, p) then r + ReplaceAll(s[|p|..], p, r)
    else if s == [] then []
    else [s[0]] + ReplaceAll(s[1..], p, r)
  }

  /**
   * When no occurrence of `p` starts inside `k`, the global replacement on
   * `k + p + rest` keeps `k`, replaces that occurrence and goes on after it.
   */
  lemma {:induction false} ReplaceAllFrom(k: string, p: string, rest: string, r: string)
    requires p != []
    requires forall j :: 0 <= j < |k| ==> !StartsWith((k + p + rest)[j..], p)
    ensures ReplaceAll(k + p + rest, p, r) == k + r + ReplaceAll(rest, p, r)
    decreases |k|
  {
    var s := k + p + rest;
    if k == [] {
      assert s == p + rest && s[..|p|] == p && s[|p|..] == rest;
    } else {
      assert s[0..] == s;
      assert !StartsWith(s, p) && s != [] && s[0] == k[0];
      var s' := k[1..] + p + rest;
      assert s[1..] == s';
      assert ReplaceAll(s, p, r) == [k[0]] + ReplaceAll(s', p, r);
      forall j | 0 <= j < |k| - 1
        ensures !StartsWith(s'[j..], p)
      {
        assert s'[j..] == s[j + 1..];
      }
      ReplaceAllFrom(k[1..], p, rest, r);
      assert [k[0]] + (k[1..] + r + ReplaceAll(rest, p, r)) == k + r + ReplaceAll(rest, p, r) by {
        assert [k[0]] + k[1..] == k;
      }
    }
  }

  /** The premise of `ReplaceFirstAt` serves the global replacement too. */
  lemma ReplaceAllAt(k: string, p: string, rest: string, r: string)
    requires p != [] && !Contains(k, p)
    requires forall i :: 0 <= i < |p| - 1 ==> p[i] != p[|p| - 1]
    ensures ReplaceAll(k + p + rest, p, r) == k + r + ReplaceAll(rest, p, r)
  {
    forall j | 0 <= j < |k|
      ensures !StartsWith((k + p + rest)[j..], p)
    {
      NotBefore(k, p, rest, j);
    }
    ReplaceAllFrom(k, p, rest, r);
  }

  /** The same premise makes the occurrence after `k` the first one. */
  lemma ReplaceFirstFrom(k: string, p: string, rest: string, r: string)
    requires p != []
    requires forall j :: 0 <= j < |k| ==> !StartsWith((k + p + rest)[j..], p)
    ensures ReplaceFirst(k + p + rest, p, r) == k + r + rest
  {
    var s := k + p + rest;
    assert s[|k|..][..|p|] == p;
    IndexOfAt(s, p, |k|);
    assert s[..|k|] == k && s[|k| + |p|..] == rest;
  }

  /** No proper suffix of `p` is also a prefix of it, so two occurrences never overlap. */
  predicate BorderFree(p: string) {
    forall d :: 0 < d < |p| ==> p[d..] != p[..|p| - d]
  }

  /** For a border-free `p` absent from `k`, no occurrence starts in `k`. */
  lemma NotBeforeBorderFree(k: string, p: string, rest: string, j: nat)
    requires p != [] && BorderFree(p) && !Contains(k, p) && j < |k|
    ensures !StartsWith((k + p + rest)[j..], p)
  {
    if j + |p| <= |k| {
      OccurrenceInside(k, p, rest, j);
    } else {
      OccurrenceAcross(k, p, rest, j);
    }
  }

  /** An occurrence that ends within `k` is an occurrence in `k`. */
  lemma OccurrenceInside(k: string, p: string, rest: string, j: nat)
    requires j + |p| <= |k|
    ensures StartsWith((k + p + rest)[j..], p) ==> Contains(k, p)
  {
    var s := k + p + rest;
    if StartsWith(s[j..], p) {
      assert k[j..][..|p|] == s[j..][..|p|];
      ContainsAt(k, p, j);
    }
  }

  /** An occurrence that starts in `k` and runs into the `p` after it shows a border of `p`. */
  lemma OccurrenceAcross(k: string, p: string, rest: string, j: nat)
    requires j < |k| < j + |p|
    ensures StartsWith((k + p + rest)[j..], p) ==> p[|k| - j..] == p[..|p| - (|k| - j)]
  {
    var s := k + p + rest;
    if StartsWith(s[j..], p) {
      var d := |k| - j;
      forall i | 0 <= i < |p| - d
        ensures p[d..][i] == p[..|p| - d][i]
      {
        assert s[j..][..|p|][d + i] == p[d + i];
        assert s[|k| + i] == p[i];
      }
    }
  }

  /** A text without the pattern is left alone by the global replacement. */
  lemma {:induction false} ReplaceAllAbsent(s: string, p: string, r: string)
    requires p != [] && !Contains(s, p)
    ensures ReplaceAll(s, p, r) == s
    decreases |s|
  {
    if s != [] {
      ReplaceAllAbsent(s[1..], p, r);
    }
  }

  /** Replacing a pattern by itself changes nothing. */
  lemma {:induction false} ReplaceAllSelf(s: string, p: string)
    requires p != []
    ensures ReplaceAll(s, p, p) == s
    decreases |s|
  {
    if StartsWith(s, p) {
      ReplaceAllSelf(s[|p|..], p);
      assert s == p + s[|p|..];
    } else if s != [] {
      ReplaceAllSelf(s[1..], p);
      assert s == [s[0]] + s[1..];
    }
  }

  /** The characters of JavaScript's `\s` class (white space and line terminators). */
  predicate IsWhitespace(c: char) {
    c == ' ' || c == '\t' || c == '\n' || c == '\r' || c == '\U{000B}' || c == '\U{000C}'
    || c == '\U{00A0}' || c == '\U{1680}' || ('\U{2000}' <= c <= '\U{200A}')
    || c == '\U{2028}' || c == '\U{2029}' || c == '\U{202F}' || c == '\U{205F}'
    || c == '\U{3000}' || c == '\U{FEFF}'
  }

  /** The line terminators after which `^` matches in a multiline regular expression. */
  predicate IsLineTerminator(c: char) {
    c == '\n' || c == '\r' || c == '\U{2028}' || c == '\U{2029}'
  }

  /** `s.replace(/\s/g, "")` */
  function RemoveWhitespace(s: string): (r: string)
    ensures forall i :: 0 <= i < |r| ==> !IsWhitespace(r[i])
    ensures |r| <= |s|
    ensures (forall i :: 0 <= i < |s| ==> !IsWhitespace(s[i])) ==> r == s
  {
    if s == [] then []
    else if IsWhitespace(s[0]) then RemoveWhitespace(s[1..])
    else [s[0]] + RemoveWhitespace(s[1..])
  }

  /** One character: a white-space character is dropped, any other kept. */
  lemma RemoveWhitespaceChar(c: char)
    ensures RemoveWhitespace([c]) == if IsWhitespace(c) then [] else [c]
  {
    assert [c][1..] == [];
  }

  /** Removing white space works piece by piece: it distributes over concatenation. */
  lemma {:induction false} RemoveWhitespaceAppend(a: string, b: string)
    ensures RemoveWhitespace(a + b) == RemoveWhitespace(a) + RemoveWhitespace(b)
    decreases |a|
  {
    if a == [] {
      assert a + b == b;
    } else {
      assert (a + b)[0] == a[0] && (a + b)[1..] == a[1..] + b;
      RemoveWhitespaceAppend(a[1..], b);
      if !IsWhitespace(a[0]) {
        calc {
          RemoveWhitespace(a + b);
          [a[0]] + RemoveWhitespace(a[1..] + b);
          [a[0]] + (RemoveWhitespace(a[1..]) + RemoveWhitespace(b));
          ([a[0]] + RemoveWhitespace(a[1..])) + RemoveWhitespace(b);
        }
      }
    }
  }

  /** `s.trimEnd()` */
  function TrimEnd(s: string): (r: string)
    ensures StartsWith(s, r)
    ensures r == [] || !IsWhitespace(r[|r| - 1])
    ensures forall i :: |r| <= i < |s| ==> IsWhitespace(s[i])
  {
    if s == [] then []
    else if IsWhitespace(s[|s| - 1]) then TrimEnd(s[..|s| - 1])
    else s
  }

  /** `s.split(c)` for a one-character separator. */
  function Split(s: string, c: char): (parts: seq<string>)
    ensures |parts| >= 1
    ensures forall i :: 0 <= i < |parts| ==> c !in parts[i]
  {
    if s == [] then [[]]
    else
      var rest := Split(s[1..], c);
      if s[0] == c then [[]] + rest else [[s[0]] + rest[0]] + rest[1..]
  }

  /** Text without the separator is a single part. */
  lemma {:induction false} SplitAbsent(s: string, c: char)
    requires c !in s
    ensures Split(s, c) == [s]
  {
    if s != [] {
      SplitAbsent(s[1..], c);
      assert [s[0]] + s[1..] == s;
    }
  }

  /** `parts.join(sep)` */
  function Join(parts: seq<string>, sep: string): string {
    if parts == [] then []
    else if |parts| == 1 then parts[0]
    else parts[0] + sep + Join(parts[1..], sep)
  }

  /** Splitting on a character and joining with it again gives back the text. */
  lemma {:induction false} JoinSplit(s: string, c: char)
    ensures Join(Split(s, c), [c]) == s
  {
    if s != [] {
      JoinSplit(s[1..], c);
      var rest := Split(s[1..], c);
      if s[0] == c {
        assert s == [c] + s[1..];
      } else {
        if |rest| == 1 {
          assert Join(rest, [c]) == rest[0];
        } else {
          assert Join(rest, [c]) == rest[0] + [c] + Join(rest[1..], [c]);
        }
        assert s == [s[0]] + s[1..];
      }
    }
  }

  /** The part of `s` before the first `c` (the whole text when there is none). */
  function BeforeFirst(s: string, c: char): (r: string)
    ensures StartsWith(s, r) && c !in r
    ensures |r| < |s| ==> s[|r|] == c
  {
    if s == [] || s[0] == c then [] else [s[0]] + BeforeFirst(s[1..], c)
  }

  /** The text before the first separator, when the separator follows a separator-free prefix. */
  lemma {:induction false} BeforeFirstAt(k: string, c: char, rest: string)
    requires c !in k
    ensures BeforeFirst(k + [c] + rest, c) == k
    decreases |k|
  {
    if k != [] {
      assert (k + [c] + rest)[1..] == k[1..] + [c] + rest;
      BeforeFirstAt(k[1..], c, rest);
      assert k == [k[0]] + k[1..];
    }
  }

  /** The part of `s` after the last `c` (the whole text when there is none). */
  function AfterLast(s: string, c: char): (r: string)
    ensures EndsWith(s, r) && c !in r
    ensures |r| < |s| ==> s[|s| - |r| - 1] == c
  {
    if s == [] || s[|s| - 1] == c then [] else AfterLast(s[..|s| - 1], c) + [s[|s| - 1]]
  }

  /** A part without the separator, the separator, then more text: the part comes first. */
  lemma {:induction false} SplitAt(k: string, c: char, rest: string)
    requires c !in k
    ensures Split(k + [c] + rest, c) == [k] + Split(rest, c)
    decreases |k|
  {
    var s := k + [c] + rest;
    if k == [] {
      assert s[1..] == rest;
    } else {
      assert s[1..] == k[1..] + [c] + rest;
      assert k[0] in k;
      SplitAt(k[1..], c, rest);
      assert [k[0]] + k[1..] == k;
    }
  }

  /** Joining parts without the separator and splitting again gives back the parts. */
  lemma {:induction false} SplitJoin(parts: seq<string>, c: char)
    requires parts != []
    requires forall i :: 0 <= i < |parts| ==> c !in parts[i]
    ensures Split(Join(parts, [c]), c) == parts
    decreases |parts|
  {
    if |parts| == 1 {
      SplitAbsent(parts[0], c);
    } else {
      SplitJoin(parts[1..], c);
      SplitAt(parts[0], c, Join(parts[1..], [c]));
      assert [parts[0]] + parts[1..] == parts;
    }
  }

  lemma {:induction false} SplitFirst(s: string, c: char)
    ensures Split(s, c)[0] == BeforeFirst(s, c)
  {
    if s != [] && s[0] != c {
      SplitFirst(s[1..], c);
    }
  }

  /** Every occurrence of one character replaced by a text (`s.replace(/c/g, r)`). */
  function MapChar(s: string, c: char, r: string): (t: string)
    ensures c !in s ==> t == s
  {
    if s == [] then []
    else (if s[0] == c then r else [s[0]]) + MapChar(s[1..], c, r)
  }

  lemma {:induction false} MapCharAppend(a: string, b: string, c: char, r: string)
    ensures MapChar(a + b, c, r) == MapChar(a, c, r) + MapChar(b, c, r)
  {
    if a != [] {
      assert (a + b)[1..] == a[1..] + b;
      MapCharAppend(a[1..], b, c, r);
    } else {
      assert a + b == b;
    }
  }

  /** A replacement without `c` leaves no `c` behind. */
  lemma {:induction false} MapCharRemoves(s: string, c: char, r: string)
    requires c !in r
    ensures c !in MapChar(s, c, r)
  {
    if s != [] {
      MapCharRemoves(s[1..], c, r);
    }
  }

  /** Each part with the same prefix. */
  function PrefixEach(parts: seq<string>, prefix: string): (r: seq<string>)
    ensures |r| == |parts|
    ensures forall i :: 0 <= i < |parts| ==> r[i] == prefix + parts[i]
  {
    if parts == [] then [] else [prefix + parts[0]] + PrefixEach(parts[1..], prefix)
  }

  lemma JoinCons(x: string, rest: seq<string>, sep: string)
    requires rest != []
    ensures Join([x] + rest, sep) == x + sep + Join(rest, sep)
  {
    assert ([x] + rest)[1..] == rest;
  }

  /** The step of `PrefixLines` at a newline: an empty first line, then the lines of the rest. */
  lemma PrefixLinesAtNewline(prefix: string, tail: string, lines: seq<string>)
    requires lines != [] && prefix + tail == Join(lines, "\n")
    ensures prefix + (("\n" + prefix) + tail) == Join([prefix] + lines, "\n")
  {
    JoinCons(prefix, lines, "\n");
  }

  /** The step of `PrefixLines` at another character: it joins the first line of the rest. */
  lemma PrefixLinesAtChar(prefix: string, c: char, tail: string, first: string, more: seq<string>)
    requires prefix + tail == Join([prefix + first] + more, "\n")
    ensures prefix + ([c] + tail) == Join([prefix + ([c] + first)] + more, "\n")
  {
    if more == [] {
      assert tail == (prefix + tail)[|prefix|..] == (prefix + first)[|prefix|..];
    } else {
      JoinCons(prefix + first, more, "\n");
      JoinCons(prefix + ([c] + first), more, "\n");
      var after := first + "\n" + Join(more, "\n");
      assert prefix + tail == prefix + after;
      assert tail == (prefix + tail)[|prefix|..] == (prefix + after)[|prefix|..];
    }
  }

  /**
   * Putting a prefix first and after every newline (`prefix + s.replace(/\n/g,
   * "\n" + prefix)`) prefixes every line of the text once.
   */
  lemma {:induction false} PrefixLines(s: string, prefix: string)
    ensures prefix + MapChar(s, '\n', "\n" + prefix) == Join(PrefixEach(Split(s, '\n'), prefix), "\n")
    decreases |s|
  {
    if s != [] {
      PrefixLines(s[1..], prefix);
      var rest := Split(s[1..], '\n');
      var tail := MapChar(s[1..], '\n', "\n" + prefix);
      var lines := PrefixEach(rest, prefix);
      if s[0] == '\n' {
        assert Split(s, '\n') == [[]] + rest;
        assert PrefixEach(Split(s, '\n'), prefix) == [prefix + []] + lines;
        assert prefix + [] == prefix;
        PrefixLinesAtNewline(prefix, tail, lines);
      } else {
        assert Split(s, '\n') == [[s[0]] + rest[0]] + rest[1..];
        var more := PrefixEach(rest[1..], prefix);
        assert lines == [prefix + rest[0]] + more;
        assert PrefixEach(Split(s, '\n'), prefix) == [prefix + ([s[0]] + rest[0])] + more;
        PrefixLinesAtChar(prefix, s[0], tail, rest[0], more);
      }
    }
  }

  /** Decimal digits of a natural number, as `String(n)` writes them. */
  function NatToString(n: nat): (s: string)
    ensures s != []
    ensures forall i :: 0 <= i < |s| ==> '0' <= s[i] <= '9'
    decreases n
  {
    var d := [(('0' as int) + n % 10) as char];
    if n < 10 then d else NatToString(n / 10) + d
  }
}
