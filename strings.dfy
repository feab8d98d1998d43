/** Character searches and Python 2's `str.splitlines`, the two pieces of
    string handling the client's URL and response code rely on. */
module Strings {

  /** No character of `s` is in `cs`. */
  predicate NoneOf(s: string, cs: set<char>) {
    forall i :: 0 <= i < |s| ==> s[i] !in cs
  }

  /** Index of the first character of `s` that is in `cs`, or `|s|` when there is none. */
  function IndexOfAny(s: string, cs: set<char>): (i: nat)
    ensures i <= |s|
    ensures i < |s| ==> s[i] in cs
    ensures NoneOf(s[..i], cs)
  {
    if s == [] then 0
    else if s[0] in cs then 0
    else 1 + IndexOfAny(s[1..], cs)
  }

  /** A character of `cs` preceded only by characters outside `cs` is the first one. */
  lemma IndexOfAnyAt(s: string, cs: set<char>, k: nat)
    requires k <= |s|
    requires k < |s| ==> s[k] in cs
    requires NoneOf(s[..k], cs)
    ensures IndexOfAny(s, cs) == k
  {
  }

  /** Searching past a prefix free of `cs` shifts the answer by the prefix length. */
  lemma IndexOfAnyAfter(a: string, b: string, cs: set<char>)
    requires NoneOf(a, cs)
    ensures IndexOfAny(a + b, cs) == |a| + IndexOfAny(b, cs)
  {
    var j := IndexOfAny(b, cs);
    var s := a + b;
    assert s[..|a| + j] == a + b[..j];
    IndexOfAnyAt(s, cs, |a| + j);
  }

  const LineBreaks: set<char> := {'\n', '\r'}

  /** Python 2 `str.splitlines()`: lines end at "\n", "\r" or "\r\n"; the line
      breaks are dropped, and a final line break does not start an empty line. */
  function SplitLines(s: string): (lines: seq<string>)
    ensures s == [] <==> lines == []
    ensures forall k :: 0 <= k < |lines| ==> NoneOf(lines[k], LineBreaks)
    decreases |s|
  {
    if s == [] then []
    else
      var i := IndexOfAny(s, LineBreaks);
      if i == |s| then [s]
      else
        var width := if s[i] == '\r' && i + 1 < |s| && s[i + 1] == '\n' then 2 else 1;
        [s[..i]] + SplitLines(s[i + width..])
  }

  /** Each line followed by "\n": the text whose lines are `lines`. */
  function JoinLines(lines: seq<string>): string
  {
    if lines == [] then "" else lines[0] + "\n" + JoinLines(lines[1..])
  }

  /** Splitting undoes joining, for lines that hold no line break. */
  lemma {:induction false} SplitJoinLines(lines: seq<string>)
    requires forall k :: 0 <= k < |lines| ==> NoneOf(lines[k], LineBreaks)
    ensures SplitLines(JoinLines(lines)) == lines
  {
    if lines != [] {
      SplitLinesLf(lines[0], JoinLines(lines[1..]));
      SplitJoinLines(lines[1..]);
    }
  }

  /** Lines ending in "\r\n" split the same way: the pair is one line break. */
  lemma SplitLinesCrLf(line: string, rest: string)
    requires NoneOf(line, LineBreaks)
    ensures SplitLines(line + "\r\n" + rest) == [line] + SplitLines(rest)
  {
    var s := line + ("\r\n" + rest);
    assert line + "\r\n" + rest == s;
    IndexOfAnyAfter(line, "\r\n" + rest, LineBreaks);
    assert IndexOfAny("\r\n" + rest, LineBreaks) == 0;
    var i := |line|;
    assert s[i] == '\r' && s[i + 1] == '\n';
    assert s[..i] == line;
    assert s[i + 2..] == rest;
  }

  /** A final line without a line break after it is still a line. */
  lemma {:induction false} SplitJoinLast(init: seq<string>, last: string)
    requires forall k :: 0 <= k < |init| ==> NoneOf(init[k], LineBreaks)
    requires NoneOf(last, LineBreaks) && last != ""
    ensures SplitLines(JoinLines(init) + last) == init + [last]
  {
    if init == [] {
      assert JoinLines(init) + last == last;
      SplitSingleLine(last);
    } else {
      var tail := init[1..];
      var rest := JoinLines(tail) + last;
      calc {
        SplitLines(JoinLines(init) + last);
        { JoinLinesThen(init, last); }
        SplitLines(init[0] + "\n" + rest);
        { SplitLinesLf(init[0], rest); }
        [init[0]] + SplitLines(rest);
        { SplitJoinLast(tail, last); }
        [init[0]] + (tail + [last]);
        { assert init == [init[0]] + tail; }
        init + [last];
      }
    }
  }

  lemma JoinLinesThen(lines: seq<string>, last: string)
    requires lines != []
    ensures JoinLines(lines) + last == lines[0] + "\n" + (JoinLines(lines[1..]) + last)
  {
  }

  /** Text without a line break is one line. */
  lemma SplitSingleLine(line: string)
    requires NoneOf(line, LineBreaks) && line != ""
    ensures SplitLines(line) == [line]
  {
    IndexOfAnyAfter(line, "", LineBreaks);
    assert line + "" == line;
  }

  /** "\n" ends a line. */
  lemma SplitLinesLf(line: string, rest: string)
    requires NoneOf(line, LineBreaks)
    ensures SplitLines(line + "\n" + rest) == [line] + SplitLines(rest)
  {
    var s := line + ("\n" + rest);
    assert line + "\n" + rest == s;
    IndexOfAnyAfter(line, "\n" + rest, LineBreaks);
    assert IndexOfAny("\n" + rest, LineBreaks) == 0;
    var i := |line|;
    assert s[i] == '\n';
    assert s[..i] == line;
    assert s[i + 1..] == rest;
  }

  /** A lone "\r" not followed by "\n" is a line break of its own. */
  lemma SplitLinesCr(line: string, rest: string)
    requires NoneOf(line, LineBreaks)
    requires rest == [] || rest[0] != '\n'
    ensures SplitLines(line + "\r" + rest) == [line] + SplitLines(rest)
  {
    var s := line + ("\r" + rest);
    assert line + "\r" + rest == s;
    IndexOfAnyAfter(line, "\r" + rest, LineBreaks);
    assert IndexOfAny("\r" + rest, LineBreaks) == 0;
    var i := |line|;
    assert s[i] == '\r';
    assert s[..i] == line;
    assert s[i + 1..] == rest;
  }
}
