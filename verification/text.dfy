/** Line-oriented string helpers: Python's `"\n".join(lines)` and
    `text.split("\n")`, with the lemmas that make them inverse to each other. */
module Text {

  /** `s` ends with `suffix`. */
  predicate EndsWith(s: string, suffix: string)
  {
    |suffix| <= |s| && s[|s| - |suffix|..] == suffix
  }

  /** Python's `"\n".join(lines)`: a newline between consecutive lines,
      none before the first or after the last. */
  function JoinLines(lines: seq<string>): string
  {
    if |lines| == 0 then ""
    else if |lines| == 1 then lines[0]
    else lines[0] + "\n" + JoinLines(lines[1..])
  }

  /** Index of the first newline of `s`. */
  function FirstNewline(s: string): (i: nat)
    requires '\n' in s
    ensures i < |s| && s[i] == '\n'
    ensures '\n' !in s[..i]
  {
    if s[0] == '\n' then 0
    else
      assert s == [s[0]] + s[1..];
      var j := FirstNewline(s[1..]);
      assert s[..j + 1] == [s[0]] + s[1..][..j];
      j + 1
  }

  /** Python's `s.split("\n")`: always at least one piece, none containing a newline. */
  function SplitLines(s: string): (lines: seq<string>)
    ensures |lines| >= 1
    ensures forall k :: 0 <= k < |lines| ==> '\n' !in lines[k]
    decreases |s|
  {
    if '\n' !in s then [s]
    else
      var i := FirstNewline(s);
      [s[..i]] + SplitLines(s[i + 1..])
  }

  /** The text after the last newline of `s` (all of `s` when it has none). */
  function LastLine(s: string): string
  {
    var lines := SplitLines(s);
    lines[|lines| - 1]
  }

  /** A newline position with no newline before it is the first one. */
  lemma FirstNewlineUnique(s: string, j: nat)
    requires j < |s| && s[j] == '\n' && '\n' !in s[..j]
    ensures FirstNewline(s) == j
  {
  }

  lemma JoinLinesCons(line: string, rest: seq<string>)
    requires |rest| >= 1
    ensures JoinLines([line] + rest) == line + "\n" + JoinLines(rest)
  {
    assert ([line] + rest)[1..] == rest;
  }

  /** Appending a line to a non-empty list appends a newline and that line. */
  lemma {:induction false} JoinLinesSnoc(lines: seq<string>, line: string)
    requires |lines| >= 1
    ensures JoinLines(lines + [line]) == JoinLines(lines) + "\n" + line
    decreases |lines|
  {
    if |lines| == 1 {
      assert lines + [line] == [lines[0]] + [line];
      JoinLinesCons(lines[0], [line]);
    } else {
      assert lines + [line] == [lines[0]] + (lines[1..] + [line]);
      JoinLinesSnoc(lines[1..], line);
      JoinLinesCons(lines[0], lines[1..] + [line]);
    }
  }

  /** The first line of a join is a prefix of it. */
  lemma JoinLinesStartsWithFirst(lines: seq<string>)
    requires |lines| >= 1
    ensures lines[0] <= JoinLines(lines)
  {
  }

  /** A newline-free first line followed by a newline splits off as one piece. */
  lemma SplitCons(line: string, rest: string)
    requires '\n' !in line
    ensures SplitLines(line + "\n" + rest) == [line] + SplitLines(rest)
  {
    var s := line + "\n" + rest;
    var n := |line|;
    assert s[n] == '\n';
    assert s[..n] == line;
    FirstNewlineUnique(s, n);
    assert s[n + 1..] == rest;
  }

  /** Splitting undoes joining, as long as no line holds a newline. */
  lemma {:induction false} SplitJoin(lines: seq<string>)
    requires |lines| >= 1
    requires forall k :: 0 <= k < |lines| ==> '\n' !in lines[k]
    ensures SplitLines(JoinLines(lines)) == lines
    decreases |lines|
  {
    if |lines| > 1 {
      var rest := lines[1..];
      assert lines == [lines[0]] + rest;
      JoinLinesCons(lines[0], rest);
      SplitCons(lines[0], JoinLines(rest));
      SplitJoin(rest);
    }
  }

  /** Joining undoes splitting, for every string. */
  lemma {:induction false} JoinSplit(s: string)
    ensures JoinLines(SplitLines(s)) == s
    decreases |s|
  {
    if '\n' in s {
      var i := FirstNewline(s);
      JoinSplit(s[i + 1..]);
      JoinLinesCons(s[..i], SplitLines(s[i + 1..]));
      assert s == s[..i] + "\n" + s[i + 1..];
    }
  }

  /** Appending a newline and a newline-free line adds exactly that line to the split. */
  lemma {:induction false} SplitSnoc(s: string, line: string)
    requires '\n' !in line
    ensures SplitLines(s + "\n" + line) == SplitLines(s) + [line]
    ensures LastLine(s + "\n" + line) == line
    decreases |s|
  {
    var t := s + "\n" + line;
    if '\n' !in s {
      assert t[|s|] == '\n';
      assert t[..|s|] == s;
      FirstNewlineUnique(t, |s|);
      assert t[|s| + 1..] == line;
    } else {
      var i := FirstNewline(s);
      assert t[i] == '\n';
      assert t[..i] == s[..i];
      FirstNewlineUnique(t, i);
      assert t[i + 1..] == s[i + 1..] + "\n" + line;
      SplitSnoc(s[i + 1..], line);
    }
  }

  /** A suffix stays a suffix when the same text is appended to both. */
  lemma EndsWithAppend(s: string, suffix: string, tail: string)
    requires EndsWith(s, suffix)
    ensures EndsWith(s + tail, suffix + tail)
  {
    assert (s + tail)[|s + tail| - |suffix + tail|..] == s[|s| - |suffix|..] + tail;
  }
}
