/** String helpers the download handler relies on: substring search (the
    standard library's `str::contains`) and the newline-terminated log that
    the status text grows into. */
module Text {

  /** `p` is a prefix of `s`. */
  predicate StartsWith(s: string, p: string)
  {
    |p| <= |s| && s[..|p|] == p
  }

  /** `p` is a suffix of `s`. */
  predicate EndsWith(s: string, p: string)
  {
    |p| <= |s| && s[|s| - |p|..] == p
  }

  /** `p` occurs in `s` starting at offset `i`. */
  ghost predicate OccursAt(s: string, p: string, i: int)
  {
    0 <= i && i + |p| <= |s| && s[i..i + |p|] == p
  }

  /** Substring search: is `p` found anywhere in `s`? */
  function Contains(s: string, p: string): bool
    decreases |s|
  {
    StartsWith(s, p) || (|s| > 0 && Contains(s[1..], p))
  }

  /** The search agrees with the positional definition of an occurrence. */
  lemma {:induction false} ContainsIff(s: string, p: string)
    ensures Contains(s, p) <==> exists i :: OccursAt(s, p, i)
    decreases |s|
  {
    if Contains(s, p) {
      if StartsWith(s, p) {
        assert OccursAt(s, p, 0);
      } else {
        ContainsIff(s[1..], p);
        var i :| OccursAt(s[1..], p, i);
        assert s[1..][i..i + |p|] == s[i + 1..i + 1 + |p|];
        assert OccursAt(s, p, i + 1);
      }
    } else if exists i :: OccursAt(s, p, i) {
      var i :| OccursAt(s, p, i);
      if i > 0 {
        assert s[1..][i - 1..i - 1 + |p|] == s[i..i + |p|];
        assert OccursAt(s[1..], p, i - 1);
        ContainsIff(s[1..], p);
      }
    }
  }

  /** Every character of a found pattern is a character of the text. */
  lemma ContainsChars(s: string, p: string, k: nat)
    requires Contains(s, p) && k < |p|
    ensures p[k] in s
  {
    ContainsIff(s, p);
    var i :| OccursAt(s, p, i);
    assert s[i..i + |p|][k] == s[i + k];
  }

  /** The status log: every message followed by a newline, in order. */
  function Log(msgs: seq<string>): (r: string)
    ensures r == [] <==> msgs == []
    ensures msgs != [] ==> r[|r| - 1] == '\n'
  {
    if msgs == [] then "" else msgs[0] + "\n" + Log(msgs[1..])
  }

  /** Logging two batches one after the other is logging them together. */
  lemma {:induction false} LogAppend(a: seq<string>, b: seq<string>)
    ensures Log(a + b) == Log(a) + Log(b)
    decreases |a|
  {
    if a == [] {
      assert a + b == b;
    } else {
      assert (a + b)[1..] == a[1..] + b;
      LogAppend(a[1..], b);
    }
  }

  /** Logging one more message appends that message and a newline. */
  lemma LogSnoc(a: seq<string>, m: string)
    ensures Log(a + [m]) == Log(a) + m + "\n"
  {
    LogAppend(a, [m]);
    assert [m][1..] == [];
  }

  /** Position of the first `c` in `s`. */
  function IndexOf(s: string, c: char): (r: nat)
    requires c in s
    ensures r < |s| && s[r] == c && c !in s[..r]
  {
    if s[0] == c then 0 else 1 + IndexOf(s[1..], c)
  }

  /** Splits newline-terminated text back into its lines (a final piece
      without a newline counts as a line too). */
  function SplitLines(s: string): seq<string>
    decreases |s|
  {
    if s == [] then []
    else if '\n' in s then
      var i := IndexOf(s, '\n');
      [s[..i]] + SplitLines(s[i + 1..])
    else [s]
  }

  /** No message of the batch holds a newline of its own. */
  ghost predicate SingleLines(msgs: seq<string>)
  {
    forall k :: 0 <= k < |msgs| ==> '\n' !in msgs[k]
  }

  /** Splitting peels off a leading line that holds no newline of its own. */
  lemma SplitLinesCons(m: string, rest: string)
    requires '\n' !in m
    ensures SplitLines(m + "\n" + rest) == [m] + SplitLines(rest)
  {
    var s := m + "\n" + rest;
    assert s[|m|] == '\n';
    var i := IndexOf(s, '\n');
    assert i == |m|;
    assert s[..i] == m;
    assert s[i + 1..] == rest;
  }

  /** The log loses nothing: its lines are exactly the logged messages. */
  lemma {:induction false} SplitLinesLog(msgs: seq<string>)
    requires SingleLines(msgs)
    ensures SplitLines(Log(msgs)) == msgs
    decreases |msgs|
  {
    if msgs != [] {
      SplitLinesCons(msgs[0], Log(msgs[1..]));
      SplitLinesLog(msgs[1..]);
      assert [msgs[0]] + msgs[1..] == msgs;
    }
  }
}
