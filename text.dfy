/**
 * String operations with the semantics of the Python and JavaScript built-ins the
 * source uses: substring search (`in`, `includes`, `indexOf`), `startsWith`,
 * `endswith`, `split` with a non-empty separator, `join`, `replace` of the first
 * occurrence, Python's `splitlines()` and `strip()`.
 */
module Text {

  predicate StartsWith(s: string, prefix: string) {
    |prefix| <= |s| && s[..|prefix|] == prefix
  }

  predicate EndsWith(s: string, suffix: string) {
    |suffix| <= |s| && s[|s| - |suffix|..] == suffix
  }

  /** `sub` occurs in `s` at `i`. */
  predicate OccursAt(s: string, sub: string, i: int) {
    0 <= i && i + |sub| <= |s| && s[i..i + |sub|] == sub
  }

  /** Index of the first occurrence of `sub` in `s`, or -1 (JavaScript `indexOf`, Python `find`). */
  function IndexOf(s: string, sub: string): (r: int)
    ensures -1 <= r <= |s|
    ensures r >= 0 ==> OccursAt(s, sub, r)
    ensures r >= 0 ==> forall j :: 0 <= j < r ==> !OccursAt(s, sub, j)
    ensures r == -1 ==> forall j :: 0 <= j <= |s| ==> !OccursAt(s, sub, j)
  {
    IndexFrom(s, sub, 0)
  }

  /** The first occurrence of `sub` in `s` at or after `from`, or -1. */
  function IndexFrom(s: string, sub: string, from: nat): (r: int)
    ensures -1 <= r <= |s|
    ensures r >= 0 ==> from <= r && OccursAt(s, sub, r)
    ensures r >= 0 ==> forall j :: from <= j < r ==> !OccursAt(s, sub, j)
    ensures r == -1 ==> forall j :: from <= j <= |s| ==> !OccursAt(s, sub, j)
    decreases |s| - from
  {
    if from + |sub| > |s| then -1
    else if s[from..from + |sub|] == sub then from
    else IndexFrom(s, sub, from + 1)
  }

  /** Substring test: Python `sub in s`, JavaScript `s.includes(sub)`. */
  predicate Contains(s: string, sub: string) {
    IndexOf(s, sub) >= 0
  }

  lemma ContainsWitness(s: string, sub: string, i: int)
    requires OccursAt(s, sub, i)
    ensures Contains(s, sub)
  {
  }

  lemma StartsWithContains(s: string, prefix: string)
    requires StartsWith(s, prefix)
    ensures Contains(s, prefix) && IndexOf(s, prefix) == 0
  {
    assert OccursAt(s, prefix, 0);
  }

  /** `s.replace(pattern, replacement)` in JavaScript, `s.replace(pattern, replacement, 1)` in Python. */
  function ReplaceFirst(s: string, pattern: string, replacement: string): (r: string)
  {
    var i := IndexOf(s, pattern);
    if i < 0 then s else s[..i] + replacement + s[i + |pattern|..]
  }

  lemma ReplaceFirstOfPrefix(s: string, pattern: string, replacement: string)
    requires StartsWith(s, pattern)
    ensures ReplaceFirst(s, pattern, replacement) == replacement + s[|pattern|..]
  {
    StartsWithContains(s, pattern);
  }

  /** JavaScript `s.split(sep)` for a non-empty separator (no limit). */
  function Split(s: string, sep: string): (parts: seq<string>)
    requires |sep| > 0
    ensures |parts| >= 1
    decreases |s|
  {
    var i := IndexOf(s, sep);
    if i < 0 then [s] else [s[..i]] + Split(s[i + |sep|..], sep)
  }

  /** `sep.join(parts)` in Python, `parts.join(sep)` in JavaScript. */
  function Join(parts: seq<string>, sep: string): string
  {
    if |parts| == 0 then ""
    else if |parts| == 1 then parts[0]
    else parts[0] + sep + Join(parts[1..], sep)
  }

  /** Splitting and re-joining on the same separator gives back the string. */
  lemma {:induction false} JoinSplit(s: string, sep: string)
    requires |sep| > 0
    ensures Join(Split(s, sep), sep) == s
    decreases |s|
  {
    var i := IndexOf(s, sep);
    if i >= 0 {
      var rest := s[i + |sep|..];
      JoinSplit(rest, sep);
      SplitAt(s, sep);
      JoinCons(s[..i], Split(rest, sep), sep);
      assert s[i..i + |sep|] == sep;
      SliceThree(s, i, i + |sep|);
    } else {
      assert Split(s, sep) == [s];
    }
  }

  /** Where the separator occurs, the split is the part before it followed by the split of the rest. */
  lemma SplitAt(s: string, sep: string)
    requires |sep| > 0 && IndexOf(s, sep) >= 0
    ensures var i := IndexOf(s, sep);
            var tail := Split(s[i + |sep|..], sep);
            Split(s, sep) == [s[..i]] + tail
            && |Split(s, sep)| == |tail| + 1 && Split(s, sep)[0] == s[..i]
            && forall k :: 0 < k < |Split(s, sep)| ==> Split(s, sep)[k] == tail[k - 1]
  {
  }

  /** Joining a part in front of at least one more part puts the separator between them. */
  lemma JoinCons(a: string, parts: seq<string>, sep: string)
    requires |parts| >= 1
    ensures Join([a] + parts, sep) == a + sep + Join(parts, sep)
  {
    assert ([a] + parts)[1..] == parts;
  }

  /** A string is the concatenation of three consecutive slices of it. */
  lemma SliceThree(s: string, a: int, b: int)
    requires 0 <= a <= b <= |s|
    ensures s[..a] + s[a..b] + s[b..] == s
  {
    var t := s[..a] + s[a..b] + s[b..];
    assert |t| == |s|;
    forall k | 0 <= k < |s| ensures t[k] == s[k] {
      if k < a {
        assert t[k] == s[..a][k];
      } else if k < b {
        assert t[k] == s[a..b][k - a];
      } else {
        assert t[k] == s[b..][k - b];
      }
    }
  }

  /** An occurrence past a prefix is an occurrence in the rest. */
  lemma OccursInSuffix(p: string, r: string, sub: string, j: int)
    requires OccursAt(p + r, sub, j) && j >= |p|
    ensures OccursAt(r, sub, j - |p|)
  {
    assert (p + r)[j..j + |sub|] == r[j - |p|..j - |p| + |sub|];
  }

  /** A string without the separator splits into itself alone. */
  lemma SplitWithoutSeparator(s: string, sep: string)
    requires |sep| > 0 && !Contains(s, sep)
    ensures Split(s, sep) == [s]
  {
  }

  /** The first one-character separator after a separator-free `a` is right after `a`. */
  lemma IndexOfAfterFree(a: string, c: char, b: string)
    requires forall i :: 0 <= i < |a| ==> a[i] != c
    ensures IndexOf(a + [c] + b, [c]) == |a|
  {
    var s := a + [c] + b;
    assert OccursAt(s, [c], |a|);
    forall j | 0 <= j < |a| ensures !OccursAt(s, [c], j) {
      assert s[j..j + 1] == [a[j]];
    }
  }

  /** Splitting `a + c + b` on `c`, with `a` free of `c`, gives `a` and then the parts of `b`. */
  lemma SplitAfterFree(a: string, c: char, b: string)
    requires forall i :: 0 <= i < |a| ==> a[i] != c
    ensures Split(a + [c] + b, [c]) == [a] + Split(b, [c])
  {
    IndexOfAfterFree(a, c, b);
    var s := a + [c] + b;
    assert s[..|a|] == a && s[|a| + 1..] == b;
  }

  /** A string free of a character does not contain it as a separator. */
  lemma FreeNotContains(a: string, c: char)
    requires forall i :: 0 <= i < |a| ==> a[i] != c
    ensures !Contains(a, [c])
  {
    forall j | 0 <= j <= |a| ensures !OccursAt(a, [c], j) {
      if j < |a| { assert a[j..j + 1] == [a[j]]; }
    }
  }

  /** JavaScript `parts[k]` where a missing element formats as the text "undefined". */
  function Part(parts: seq<string>, k: nat): string {
    if k < |parts| then parts[k] else "undefined"
  }

  // ---------------------------------------------------------------- Python lines

  /** The characters at which Python's `str.splitlines()` breaks a line (besides "\r\n"). */
  predicate IsLineBoundary(c: char) {
    c == '\n' || c == '\r' || c == '\U{0B}' || c == '\U{0C}' || c == '\U{1C}' || c == '\U{1D}'
    || c == '\U{1E}' || c == '\U{85}' || c == '\U{2028}' || c == '\U{2029}'
  }

  predicate NoLineBoundary(s: string) {
    forall i :: 0 <= i < |s| ==> !IsLineBoundary(s[i])
  }

  /** Python `s.splitlines()`: line boundaries are dropped; a trailing boundary adds no empty line. */
  function SplitLines(s: string): (lines: seq<string>)
    ensures forall k :: 0 <= k < |lines| ==> NoLineBoundary(lines[k])
  {
    SplitLinesFrom(s, "")
  }

  function SplitLinesFrom(s: string, current: string): (lines: seq<string>)
    requires NoLineBoundary(current)
    ensures forall k :: 0 <= k < |lines| ==> NoLineBoundary(lines[k])
    ensures s == [] ==> lines == (if current == "" then [] else [current])
    decreases |s|
  {
    if s == [] then (if current == "" then [] else [current])
    else if s[0] == '\r' && |s| > 1 && s[1] == '\n' then [current] + SplitLinesFrom(s[2..], "")
    else if IsLineBoundary(s[0]) then [current] + SplitLinesFrom(s[1..], "")
    else SplitLinesFrom(s[1..], current + [s[0]])
  }

  /** Text whose only line boundary is "\n" and which does not end with one. */
  predicate PlainLines(s: string) {
    (forall i :: 0 <= i < |s| ==> s[i] == '\n' || !IsLineBoundary(s[i]))
    && (|s| > 0 ==> s[|s| - 1] != '\n')
  }

  /** For plain text, `"\n".join(s.splitlines()) == s`. */
  lemma JoinSplitLines(s: string)
    requires PlainLines(s)
    ensures Join(SplitLines(s), "\n") == s
  {
    if s != [] {
      JoinSplitLinesFrom(s, "");
    }
  }

  lemma {:induction false} JoinSplitLinesFrom(s: string, current: string)
    requires NoLineBoundary(current)
    requires s != [] && PlainLines(s)
    ensures Join(SplitLinesFrom(s, current), "\n") == current + s
    decreases |s|
  {
    assert s[0] != '\r';
    if s[0] == '\n' {
      var rest := s[1..];
      assert rest != [];
      assert PlainLines(rest);
      JoinSplitLinesFrom(rest, "");
      var tail := SplitLinesFrom(rest, "");
      assert |tail| >= 1 by {
        if tail == [] { LinesNonEmpty(rest, ""); }
      }
      assert Join([current] + tail, "\n") == current + "\n" + Join(tail, "\n");
      assert s == "\n" + rest;
    } else {
      var rest := s[1..];
      var cur := current + [s[0]];
      if rest == [] {
        assert SplitLinesFrom(rest, cur) == [cur];
        assert current + s == cur;
      } else {
        assert PlainLines(rest);
        JoinSplitLinesFrom(rest, cur);
        assert current + s == cur + rest;
      }
    }
  }

  lemma {:induction false} LinesNonEmpty(s: string, current: string)
    requires NoLineBoundary(current)
    requires s != []
    ensures |SplitLinesFrom(s, current)| >= 1
    decreases |s|
  {
    if s[0] == '\r' && |s| > 1 && s[1] == '\n' {
    } else if IsLineBoundary(s[0]) {
    } else if |s| > 1 {
      LinesNonEmpty(s[1..], current + [s[0]]);
    }
  }

  /** Lines without boundaries whose last element is not empty split back into themselves. */
  lemma {:induction false} SplitJoinLines(lines: seq<string>)
    requires forall k :: 0 <= k < |lines| ==> NoLineBoundary(lines[k])
    requires |lines| > 0 ==> lines[|lines| - 1] != ""
    ensures SplitLines(Join(lines, "\n")) == lines
  {
    SplitJoinLinesFrom(lines, "");
    if |lines| > 0 {
      assert "" + lines[0] == lines[0];
      assert [lines[0]] + lines[1..] == lines;
    }
  }

  lemma {:induction false} SplitJoinLinesFrom(lines: seq<string>, current: string)
    requires NoLineBoundary(current)
    requires forall k :: 0 <= k < |lines| ==> NoLineBoundary(lines[k])
    requires |lines| > 0 ==> lines[|lines| - 1] != ""
    ensures SplitLinesFrom(Join(lines, "\n"), current) ==
            if |lines| == 0 then (if current == "" then [] else [current])
            else [current + lines[0]] + lines[1..]
    decreases |lines|, if |lines| == 0 then 0 else |lines[0]|
  {
    if |lines| == 0 {
    } else if |lines| == 1 {
      LineIntoCurrent(lines[0], current, []);
      assert lines[0] + [] == lines[0] && Join(lines, "\n") == lines[0];
      assert current + lines[0] != [];
      assert lines[1..] == [];
    } else {
      var text := Join(lines, "\n");
      var restText := Join(lines[1..], "\n");
      assert text == lines[0] + ("\n" + restText);
      LineIntoCurrent(lines[0], current, "\n" + restText);
      var after := "\n" + restText;
      assert SplitLinesFrom(after, current + lines[0]) ==
             [current + lines[0]] + SplitLinesFrom(restText, "") by {
        assert after[0] == '\n' && after[1..] == restText;
      }
      SplitJoinLinesFrom(lines[1..], "");
      assert lines[1..][0] == lines[1] && "" + lines[1] == lines[1];
      assert [lines[1]] + lines[2..] == lines[1..];
    }
  }

  /** Reading a line without boundaries only extends the current line. */
  lemma {:induction false} LineIntoCurrent(line: string, current: string, rest: string)
    requires NoLineBoundary(current) && NoLineBoundary(line)
    requires line != [] || rest != [] || current != []
    ensures NoLineBoundary(current + line)
    ensures SplitLinesFrom(line + rest, current) == SplitLinesFrom(rest, current + line)
    decreases |line|
  {
    assert NoLineBoundary(current + line) by {
      forall i | 0 <= i < |current + line| ensures !IsLineBoundary((current + line)[i]) {
        if i < |current| { assert (current + line)[i] == current[i]; }
        else { assert (current + line)[i] == line[i - |current|]; }
      }
    }
    if line == [] {
      assert line + rest == rest && current + line == current;
    } else {
      var s := line + rest;
      assert s[0] == line[0] && !IsLineBoundary(s[0]);
      assert s[1..] == line[1..] + rest;
      assert NoLineBoundary(line[1..]);
      LineIntoCurrent(line[1..], current + [line[0]], rest);
      assert current + [line[0]] + line[1..] == current + line;
    }
  }

  // ---------------------------------------------------------------- Python strip

  /** Python's `str.isspace()` for one character. */
  predicate IsSpace(c: char) {
    c == ' ' || c == '\t' || c == '\n' || c == '\r' || c == '\U{0B}' || c == '\U{0C}'
    || ('\U{1C}' <= c <= '\U{1F}') || c == '\U{85}' || c == '\U{A0}' || c == '\U{1680}'
    || ('\U{2000}' <= c <= '\U{200A}') || c == '\U{2028}' || c == '\U{2029}' || c == '\U{202F}'
    || c == '\U{205F}' || c == '\U{3000}'
  }

  function StripLeft(s: string): (r: string)
    ensures |r| <= |s| && r == s[|s| - |r|..]
    ensures |r| > 0 ==> !IsSpace(r[0])
    ensures forall i :: 0 <= i < |s| - |r| ==> IsSpace(s[i])
  {
    if |s| > 0 && IsSpace(s[0]) then StripLeft(s[1..]) else s
  }

  function StripRight(s: string): (r: string)
    ensures |r| <= |s| && r == s[..|r|]
    ensures |r| > 0 ==> !IsSpace(r[|r| - 1])
    ensures forall i :: |r| <= i < |s| ==> IsSpace(s[i])
  {
    if |s| > 0 && IsSpace(s[|s| - 1]) then StripRight(s[..|s| - 1]) else s
  }

  /** Python `s.strip()` with no argument. */
  function Strip(s: string): string {
    StripRight(StripLeft(s))
  }
}
