/** Splitting catalog text into lines, as `text.split(/\r?\n/)` does. */
module LineSplit {

  /** The lines of `s`: every "\n" and every "\r\n" ends a line; a lone '\r' stays in its line.
      The regular expression cannot match the empty string, so "" gives [""]. */
  function SplitLines(s: string): (lines: seq<string>)
    ensures |lines| >= 1
    decreases |s|
  {
    if |s| == 0 then [""]
    else if s[0] == '\n' then [""] + SplitLines(s[1..])
    else if s[0] == '\r' && |s| >= 2 && s[1] == '\n' then [""] + SplitLines(s[2..])
    else
      var rest := SplitLines(s[1..]);
      [[s[0]] + rest[0]] + rest[1..]
  }

  /** Number of '\n' characters in `s`. */
  function CountLf(s: string): nat
  {
    if |s| == 0 then 0 else (if s[0] == '\n' then 1 else 0) + CountLf(s[1..])
  }

  /** `s` with each "\r\n" (taken left to right) replaced by "\n". */
  function CrlfToLf(s: string): string
  {
    if |s| >= 2 && s[0] == '\r' && s[1] == '\n' then "\n" + CrlfToLf(s[2..])
    else if |s| == 0 then ""
    else [s[0]] + CrlfToLf(s[1..])
  }

  /** The lines joined with "\n" between them. */
  function JoinLf(lines: seq<string>): string
    requires |lines| >= 1
  {
    if |lines| == 1 then lines[0] else lines[0] + "\n" + JoinLf(lines[1..])
  }

  /** Every line followed by "\n": a newline-terminated catalog. */
  function Terminated(lines: seq<string>): string
  {
    if |lines| == 0 then "" else lines[0] + "\n" + Terminated(lines[1..])
  }

  /** A line that can be written back between separators: no '\n' inside, and
      no trailing '\r' (which the split would take as part of "\r\n"). */
  predicate PlainLine(l: string)
  {
    '\n' !in l && (|l| == 0 || l[|l| - 1] != '\r')
  }

  /** One more line than there are '\n' characters. */
  lemma {:induction false} LineCount(s: string)
    ensures |SplitLines(s)| == CountLf(s) + 1
    decreases |s|
  {
    if |s| == 0 {
    } else if s[0] == '\n' {
      LineCount(s[1..]);
    } else if s[0] == '\r' && |s| >= 2 && s[1] == '\n' {
      LineCount(s[2..]);
      assert s[1..][1..] == s[2..];
      assert CountLf(s) == CountLf(s[1..]) == 1 + CountLf(s[2..]);
    } else {
      LineCount(s[1..]);
    }
  }

  /** No line holds a '\n'. */
  lemma {:induction false} LinesHaveNoLf(s: string)
    ensures forall k :: 0 <= k < |SplitLines(s)| ==> '\n' !in SplitLines(s)[k]
    decreases |s|
  {
    if |s| == 0 {
    } else if s[0] == '\n' {
      LinesHaveNoLf(s[1..]);
    } else if s[0] == '\r' && |s| >= 2 && s[1] == '\n' {
      LinesHaveNoLf(s[2..]);
    } else {
      LinesHaveNoLf(s[1..]);
      var rest := SplitLines(s[1..]);
      assert '\n' !in [s[0]] + rest[0];
      forall k | 0 <= k < |SplitLines(s)| ensures '\n' !in SplitLines(s)[k] {
        if k > 0 { assert SplitLines(s)[k] == rest[k]; }
      }
    }
  }

  lemma JoinLfCons(c: char, lines: seq<string>)
    requires |lines| >= 1
    ensures JoinLf([[c] + lines[0]] + lines[1..]) == [c] + JoinLf(lines)
  {
    var ls := [[c] + lines[0]] + lines[1..];
    if |lines| > 1 {
      assert ls[1..] == lines[1..];
    }
  }

  /** Joining the lines with "\n" gives back the text, with each "\r\n" become "\n". */
  lemma {:induction false} JoinSplitLines(s: string)
    ensures JoinLf(SplitLines(s)) == CrlfToLf(s)
    decreases |s|
  {
    if |s| == 0 {
    } else if s[0] == '\n' {
      JoinSplitLines(s[1..]);
      assert ([""] + SplitLines(s[1..]))[1..] == SplitLines(s[1..]);
    } else if s[0] == '\r' && |s| >= 2 && s[1] == '\n' {
      JoinSplitLines(s[2..]);
      assert ([""] + SplitLines(s[2..]))[1..] == SplitLines(s[2..]);
    } else {
      JoinSplitLines(s[1..]);
      JoinLfCons(s[0], SplitLines(s[1..]));
    }
  }

  lemma {:induction false} SplitPlainLine(l: string, rest: string)
    requires PlainLine(l)
    ensures SplitLines(l + "\n" + rest) == [l] + SplitLines(rest)
    decreases |l|
  {
    var s := l + "\n" + rest;
    if |l| == 0 {
      assert s == "\n" + rest && s[1..] == rest;
    } else {
      var t := l[1..];
      assert PlainLine(t);
      assert s[1..] == t + "\n" + rest;
      SplitPlainLine(t, rest);
      if l[0] == '\r' {
        assert |t| > 0;
        assert s[1] == t[0] != '\n';
      }
      assert [l[0]] + t == l;
    }
  }

  lemma {:induction false} SplitNoLf(l: string)
    requires '\n' !in l
    ensures SplitLines(l) == [l]
    decreases |l|
  {
    if |l| > 0 {
      assert '\n' !in l[1..];
      SplitNoLf(l[1..]);
      assert [l[0]] + l[1..] == l;
    }
  }

  /** Splitting `JoinLf(lines)` gives `lines` back, when only the last line may end in '\r'. */
  lemma {:induction false} SplitJoinLines(lines: seq<string>)
    requires |lines| >= 1
    requires forall k :: 0 <= k < |lines| ==> '\n' !in lines[k]
    requires forall k :: 0 <= k < |lines| - 1 ==> PlainLine(lines[k])
    ensures SplitLines(JoinLf(lines)) == lines
    decreases |lines|
  {
    if |lines| == 1 {
      SplitNoLf(lines[0]);
    } else {
      SplitJoinLines(lines[1..]);
      SplitPlainLine(lines[0], JoinLf(lines[1..]));
    }
  }

  lemma {:induction false} TerminatedIsJoin(lines: seq<string>)
    ensures Terminated(lines) == JoinLf(lines + [""])
    decreases |lines|
  {
    if |lines| > 0 {
      TerminatedIsJoin(lines[1..]);
      assert (lines + [""])[1..] == lines[1..] + [""];
    }
  }

  /** A newline-terminated catalog splits into its lines followed by one empty line. */
  lemma SplitTerminated(lines: seq<string>)
    requires forall k :: 0 <= k < |lines| ==> PlainLine(lines[k])
    ensures SplitLines(Terminated(lines)) == lines + [""]
  {
    TerminatedIsJoin(lines);
    var ls := lines + [""];
    assert forall k :: 0 <= k < |ls| - 1 ==> ls[k] == lines[k];
    SplitJoinLines(ls);
  }
}
