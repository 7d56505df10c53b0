/** Splitting a TLE line into tokens, as `line.split(/\s+/g)` does. */
module Whitespace {

  /** JavaScript's `\s`: the WhiteSpace and LineTerminator code points. */
  predicate IsWhitespace(c: char)
  {
    var n := c as int;
    n == 0x09 || n == 0x0A || n == 0x0B || n == 0x0C || n == 0x0D || n == 0x20 ||
    n == 0xA0 || n == 0x1680 || (0x2000 <= n <= 0x200A) || n == 0x2028 || n == 0x2029 ||
    n == 0x202F || n == 0x205F || n == 0x3000 || n == 0xFEFF
  }

  predicate NoWhitespace(t: string)
  {
    forall j :: 0 <= j < |t| ==> !IsWhitespace(t[j])
  }

  /** `t` occurs in `s` starting at offset `k`. */
  predicate OccursAt(t: string, s: string, k: int)
  {
    0 <= k <= |s| - |t| && s[k..k + |t|] == t
  }

  /** `t` occurs in `s` as a contiguous run of characters. */
  ghost predicate IsSubstring(t: string, s: string)
  {
    exists k :: OccursAt(t, s, k)
  }

  /** `s` after its leading run of whitespace. */
  function SkipWhitespace(s: string): (r: string)
    ensures |r| <= |s|
  {
    if |s| > 0 && IsWhitespace(s[0]) then SkipWhitespace(s[1..]) else s
  }

  /** SkipWhitespace drops exactly the leading run: what it removes is whitespace, and what
      is left is a suffix that does not start with whitespace. */
  lemma {:induction false} SkipWhitespaceDropsRun(s: string)
    ensures var r := SkipWhitespace(s);
      && r == s[|s| - |r|..]
      && (|r| == 0 || !IsWhitespace(r[0]))
      && forall k :: 0 <= k < |s| - |r| ==> IsWhitespace(s[k])
    decreases |s|
  {
    if |s| > 0 && IsWhitespace(s[0]) {
      SkipWhitespaceDropsRun(s[1..]);
    }
  }

  /** The tokens of `s`: the pieces between maximal runs of whitespace. A leading
      run gives a leading empty token and a trailing run a trailing one; "" gives [""]. */
  function Tokens(s: string): (ts: seq<string>)
    ensures |ts| >= 1
    decreases |s|
  {
    if |s| == 0 then [""]
    else if IsWhitespace(s[0]) then [""] + Tokens(SkipWhitespace(s))
    else
      var rest := Tokens(s[1..]);
      [[s[0]] + rest[0]] + rest[1..]
  }

  /** A non-empty run of whitespace: what separates two tokens. */
  predicate WhitespaceRun(w: string)
  {
    |w| >= 1 && forall j :: 0 <= j < |w| ==> IsWhitespace(w[j])
  }

  /** The tokens written out with separator seps[k] between tokens k and k+1. */
  function JoinRuns(ts: seq<string>, seps: seq<string>): string
    requires |ts| >= 1 && |seps| == |ts| - 1
  {
    if |ts| == 1 then ts[0] else ts[0] + seps[0] + JoinRuns(ts[1..], seps[1..])
  }

  /** No token holds whitespace. */
  lemma {:induction false} TokensHaveNoWhitespace(s: string)
    ensures forall k :: 0 <= k < |Tokens(s)| ==> NoWhitespace(Tokens(s)[k])
    decreases |s|
  {
    if |s| == 0 {
    } else if IsWhitespace(s[0]) {
      TokensHaveNoWhitespace(SkipWhitespace(s));
      var ts := Tokens(s);
      forall k | 0 <= k < |ts| ensures NoWhitespace(ts[k]) {
        if k > 0 { assert ts[k] == Tokens(SkipWhitespace(s))[k - 1]; }
      }
    } else {
      TokensHaveNoWhitespace(s[1..]);
      var rest := Tokens(s[1..]);
      var ts := Tokens(s);
      assert NoWhitespace(rest[0]);
      forall k | 0 <= k < |ts| ensures NoWhitespace(ts[k]) {
        if k > 0 { assert ts[k] == rest[k]; }
      }
    }
  }

  lemma PrefixIsSubstring(t: string, s: string)
    requires |t| <= |s| && s[..|t|] == t
    ensures IsSubstring(t, s)
  {
    assert OccursAt(t, s, 0);
  }

  lemma SuffixSubstring(t: string, u: string, d: nat)
    requires d <= |u| && IsSubstring(t, u[d..])
    ensures IsSubstring(t, u)
  {
    var v := u[d..];
    var k :| OccursAt(t, v, k);
    assert u[d + k..d + k + |t|] == v[k..k + |t|];
    assert OccursAt(t, u, d + k);
  }

  /** The first token is a prefix of `s`, and every token is a substring of `s`:
      tokens are pieces of the line, unconverted. */
  lemma {:induction false} TokensAreSubstrings(s: string)
    ensures |Tokens(s)[0]| <= |s| && s[..|Tokens(s)[0]|] == Tokens(s)[0]
    ensures forall k :: 0 <= k < |Tokens(s)| ==> IsSubstring(Tokens(s)[k], s)
    decreases |s|
  {
    var ts := Tokens(s);
    if |s| == 0 {
      PrefixIsSubstring("", s);
    } else if IsWhitespace(s[0]) {
      var r := SkipWhitespace(s);
      SkipWhitespaceDropsRun(s);
      TokensAreSubstrings(r);
      PrefixIsSubstring("", s);
      forall k | 0 <= k < |ts| ensures IsSubstring(ts[k], s) {
        if k > 0 {
          assert ts[k] == Tokens(r)[k - 1];
          SuffixSubstring(ts[k], s, |s| - |r|);
        }
      }
    } else {
      var rest := Tokens(s[1..]);
      TokensAreSubstrings(s[1..]);
      assert s[..|ts[0]|] == [s[0]] + s[1..][..|rest[0]|];
      PrefixIsSubstring(ts[0], s);
      forall k | 0 <= k < |ts| ensures IsSubstring(ts[k], s) {
        if k > 0 {
          assert ts[k] == rest[k];
          SuffixSubstring(ts[k], s, 1);
        }
      }
    }
  }

  /** Skipping the leading whitespace of a run followed by text that does not start with
      whitespace leaves exactly that text. */
  lemma {:induction false} TokensAfterRun(w: string, rest: string)
    requires WhitespaceRun(w)
    requires |rest| == 0 || !IsWhitespace(rest[0])
    ensures SkipWhitespace(w + rest) == rest
    decreases |w|
  {
    if |w| > 1 {
      assert (w + rest)[1..] == w[1..] + rest;
      TokensAfterRun(w[1..], rest);
    } else {
      assert (w + rest)[1..] == rest;
    }
  }

  /** A whitespace-free token followed by a run of whitespace, of any length, splits off
      as the first token: a run separates tokens just as a single space does. */
  lemma {:induction false} TokensOfRun(t: string, w: string, rest: string)
    requires NoWhitespace(t) && WhitespaceRun(w)
    requires |rest| == 0 || !IsWhitespace(rest[0])
    ensures Tokens(t + w + rest) == [t] + Tokens(rest)
    decreases |t|
  {
    var s := t + w + rest;
    if |t| == 0 {
      assert s == w + rest;
      TokensAfterRun(w, rest);
    } else {
      assert s[1..] == t[1..] + w + rest;
      TokensOfRun(t[1..], w, rest);
      assert [t[0]] + t[1..] == t;
    }
  }

  lemma {:induction false} TokensOfWord(t: string)
    requires NoWhitespace(t)
    ensures Tokens(t) == [t]
    decreases |t|
  {
    if |t| > 0 {
      TokensOfWord(t[1..]);
      assert [t[0]] + t[1..] == t;
    }
  }

  /** Tokens written back with any non-empty whitespace runs between them split into
      the same tokens again. Only the first and the last token may be empty: they stand
      for a leading and a trailing run. */
  lemma {:induction false} TokensJoinRuns(ts: seq<string>, seps: seq<string>)
    requires |ts| >= 1 && |seps| == |ts| - 1
    requires forall k :: 0 <= k < |ts| ==> NoWhitespace(ts[k])
    requires forall k :: 1 <= k < |ts| - 1 ==> |ts[k]| > 0
    requires forall k :: 0 <= k < |seps| ==> WhitespaceRun(seps[k])
    ensures Tokens(JoinRuns(ts, seps)) == ts
    decreases |ts|
  {
    if |ts| == 1 {
      TokensOfWord(ts[0]);
    } else {
      var tail := ts[1..];
      var rest := JoinRuns(tail, seps[1..]);
      TokensJoinRuns(tail, seps[1..]);
      if |tail| == 1 {
        assert rest == tail[0];
        assert |rest| == 0 || !IsWhitespace(rest[0]);
      } else {
        assert |tail[0]| > 0;
        JoinRunsStart(tail, seps[1..]);
      }
      assert WhitespaceRun(seps[0]);
      TokensOfRun(ts[0], seps[0], rest);
    }
  }

  /** The whitespace runs of `s`, in order: run k separates token k from token k+1. */
  function Separators(s: string): seq<string>
    decreases |s|
  {
    if |s| == 0 then []
    else if IsWhitespace(s[0]) then
      var r := SkipWhitespace(s);
      assert |r| < |s| by { assert r == SkipWhitespace(s[1..]); }
      [s[..|s| - |r|]] + Separators(r)
    else Separators(s[1..])
  }

  /** Writing a character in front of the first token writes it in front of the text. */
  lemma JoinRunsCons(c: char, ts: seq<string>, seps: seq<string>)
    requires |ts| >= 1 && |seps| == |ts| - 1
    ensures JoinRuns([[c] + ts[0]] + ts[1..], seps) == [c] + JoinRuns(ts, seps)
  {
    var us := [[c] + ts[0]] + ts[1..];
    if |ts| > 1 {
      assert us[1..] == ts[1..];
    }
  }

  /** Every line is its tokens with its whitespace runs between them: splitting loses
      only the runs, whatever their length. */
  lemma {:induction false} TokensRebuild(s: string)
    ensures |Separators(s)| == |Tokens(s)| - 1
    ensures forall k :: 0 <= k < |Separators(s)| ==> WhitespaceRun(Separators(s)[k])
    ensures JoinRuns(Tokens(s), Separators(s)) == s
    decreases |s|
  {
    if |s| == 0 {
    } else if IsWhitespace(s[0]) {
      var r := SkipWhitespace(s);
      assert r == SkipWhitespace(s[1..]);
      SkipWhitespaceDropsRun(s);
      var w := s[..|s| - |r|];
      TokensRebuild(r);
      assert Tokens(s) == [""] + Tokens(r);
      assert Separators(s) == [w] + Separators(r);
      JoinRunsFront("", w, Tokens(r), Separators(r));
      assert s == w + r;
    } else {
      TokensRebuild(s[1..]);
      JoinRunsCons(s[0], Tokens(s[1..]), Separators(s[1..]));
      assert s == [s[0]] + s[1..];
    }
  }

  /** A token and a separator in front of a join write them in front of its text. */
  lemma JoinRunsFront(t: string, w: string, ts: seq<string>, seps: seq<string>)
    requires |ts| >= 1 && |seps| == |ts| - 1
    ensures JoinRuns([t] + ts, [w] + seps) == t + w + JoinRuns(ts, seps)
  {
    assert ([t] + ts)[1..] == ts && ([w] + seps)[1..] == seps;
  }

  /** Only the first and the last token can be empty: a run of whitespace, however long,
      never yields an empty token between two others. */
  lemma {:induction false} InnerTokensNonEmpty(s: string)
    ensures forall k :: 1 <= k < |Tokens(s)| - 1 ==> |Tokens(s)[k]| > 0
    ensures |s| > 0 && !IsWhitespace(s[0]) ==> |Tokens(s)[0]| > 0
    decreases |s|
  {
    if |s| > 0 {
      if IsWhitespace(s[0]) {
        var r := SkipWhitespace(s);
        assert r == SkipWhitespace(s[1..]);
        SkipWhitespaceDropsRun(s);
        InnerTokensNonEmpty(r);
        var ts := Tokens(s);
        forall k | 1 <= k < |ts| - 1 ensures |ts[k]| > 0 {
          assert ts[k] == Tokens(r)[k - 1];
          if k == 1 {
            assert |Tokens(r)| >= 2;
            assert |r| > 0;
          }
        }
      } else {
        InnerTokensNonEmpty(s[1..]);
        var ts, rest := Tokens(s), Tokens(s[1..]);
        forall k | 1 <= k < |ts| - 1 ensures |ts[k]| > 0 {
          assert ts[k] == rest[k];
        }
      }
    }
  }

  lemma JoinRunsStart(ts: seq<string>, seps: seq<string>)
    requires |ts| >= 1 && |seps| == |ts| - 1 && |ts[0]| > 0
    ensures |JoinRuns(ts, seps)| > 0 && JoinRuns(ts, seps)[0] == ts[0][0]
  {
  }

  /** Two spaces separate like one: "a  b" has the tokens "a" and "b", with no empty
      token between them. */
  lemma DoubleSpace()
    ensures Tokens("a  b") == ["a", "b"]
  {
    assert "a  b" == "a" + "  " + "b";
    TokensOfRun("a", "  ", "b");
    TokensOfWord("b");
  }
}
