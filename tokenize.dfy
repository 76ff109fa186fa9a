/** preg_split('/[\s,.]+/', s) with no limit and no flags: split a string at
    every maximal run of whitespace, commas and periods.  Empty pieces are
    kept, so a leading run yields an empty first piece, a trailing run an
    empty last piece, and the empty string yields one empty piece. */
module Tokenize {

  /** The characters of the class [\s,.]: PCRE's \s (space, tab, line
      feed, vertical tab, form feed, carriage return), comma and period. */
  predicate IsSeparator(c: char)
  {
    c == ' ' || c == '\t' || c == '\n' || c == '\U{B}' || c == '\U{C}' || c == '\r'
    || c == ',' || c == '.'
  }

  predicate NoSeparator(s: string)
  {
    forall k :: 0 <= k < |s| ==> !IsSeparator(s[k])
  }

  /** Index of the first separator, |s| when there is none. */
  function FirstSeparator(s: string): (i: nat)
    ensures i <= |s|
    ensures NoSeparator(s[..i])
    ensures i < |s| ==> IsSeparator(s[i])
  {
    if s == [] || IsSeparator(s[0]) then 0
    else
      var j := FirstSeparator(s[1..]);
      assert s[..1 + j] == [s[0]] + s[1..][..j];
      1 + j
  }

  /** End (exclusive) of the separator run that starts at i. */
  function RunEnd(s: string, i: nat): (j: nat)
    requires i <= |s|
    ensures i <= j <= |s|
    ensures forall k :: i <= k < j ==> IsSeparator(s[k])
    ensures j < |s| ==> !IsSeparator(s[j])
    ensures i < |s| && IsSeparator(s[i]) ==> i < j
    decreases |s| - i
  {
    if i < |s| && IsSeparator(s[i]) then RunEnd(s, i + 1) else i
  }

  /** The pieces preg_split returns, in order. */
  function Split(s: string): (pieces: seq<string>)
    ensures |pieces| >= 1
    ensures forall k :: 0 <= k < |pieces| ==> NoSeparator(pieces[k])
    decreases |s|
  {
    var i := FirstSeparator(s);
    if i == |s| then
      assert s[..i] == s;
      [s]
    else
      [s[..i]] + Split(s[RunEnd(s, i)..])
  }

  /** Reference count, one character at a time: the number of positions at
      which a separator run begins (afterSeparator says whether the
      character before s was a separator). */
  function RunStarts(s: string, afterSeparator: bool): nat
  {
    if s == [] then 0
    else (if IsSeparator(s[0]) && !afterSeparator then 1 else 0)
         + RunStarts(s[1..], IsSeparator(s[0]))
  }

  /** Number of maximal separator runs in s. */
  function Runs(s: string): nat
  {
    RunStarts(s, false)
  }

  /** Skipping a separator-free prefix of length i leaves the count unchanged. */
  lemma {:induction false} SkipPlain(s: string, after: bool, i: nat)
    requires i <= |s| && NoSeparator(s[..i])
    ensures RunStarts(s, after) == RunStarts(s[i..], if i == 0 then after else false)
    decreases i
  {
    if i > 0 {
      assert !IsSeparator(s[..i][0]);
      assert s[1..][..i - 1] == s[..i][1..];
      SkipPlain(s[1..], false, i - 1);
      assert s[1..][i - 1..] == s[i..];
    }
  }

  /** Skipping a run of separators of length m >= 1 counts it once. */
  lemma {:induction false} SkipRun(s: string, after: bool, m: nat)
    requires 1 <= m <= |s|
    requires forall k :: 0 <= k < m ==> IsSeparator(s[k])
    ensures RunStarts(s, after) == (if after then 0 else 1) + RunStarts(s[m..], true)
    decreases m
  {
    if m > 1 {
      SkipRun(s[1..], true, m - 1);
      assert s[1..][m - 1..] == s[m..];
    }
  }

  /** The count of the pieces is one more than the count of separator runs. */
  lemma {:induction false} SplitCount(s: string)
    ensures |Split(s)| == 1 + Runs(s)
    decreases |s|
  {
    var i := FirstSeparator(s);
    SkipPlain(s, false, i);
    if i < |s| {
      var j := RunEnd(s, i);
      var t := s[i..];
      SkipRun(t, false, j - i);
      assert t[j - i..] == s[j..];
      SplitCount(s[j..]);
    } else {
      assert s[i..] == [];
    }
  }

  predicate OnlySeparators(s: string)
  {
    forall k :: 0 <= k < |s| ==> IsSeparator(s[k])
  }

  /** The separator runs preg_split removes, in order, so that the pieces
      sit between them. */
  function SplitRuns(s: string): seq<string>
    decreases |s|
  {
    var i := FirstSeparator(s);
    if i == |s| then [] else [s[i..RunEnd(s, i)]] + SplitRuns(s[RunEnd(s, i)..])
  }

  /** pieces[0] + runs[0] + pieces[1] + ... + runs[n-1] + pieces[n]. */
  function Interleave(pieces: seq<string>, runs: seq<string>): string
    requires |pieces| == |runs| + 1
  {
    if runs == [] then pieces[0]
    else pieces[0] + runs[0] + Interleave(pieces[1..], runs[1..])
  }

  /** There is one run fewer than pieces, and each run is a non-empty
      string of separators. */
  lemma {:induction false} SplitRunsShape(s: string)
    ensures |SplitRuns(s)| == |Split(s)| - 1
    ensures forall k :: 0 <= k < |SplitRuns(s)| ==> SplitRuns(s)[k] != [] && OnlySeparators(SplitRuns(s)[k])
    decreases |s|
  {
    var i := FirstSeparator(s);
    if i < |s| {
      var j := RunEnd(s, i);
      SplitRunsShape(s[j..]);
      var runs := SplitRuns(s);
      assert runs == [s[i..j]] + SplitRuns(s[j..]);
      forall k | 0 <= k < |runs|
        ensures runs[k] != [] && OnlySeparators(runs[k])
      {
        if k > 0 { assert runs[k] == SplitRuns(s[j..])[k - 1]; }
      }
    }
  }

  /** Every piece strictly between two runs is non-empty. */
  lemma {:induction false} MiddlePiecesNonEmpty(s: string)
    ensures forall k :: 0 < k < |Split(s)| - 1 ==> Split(s)[k] != []
    decreases |s|
  {
    var i := FirstSeparator(s);
    if i < |s| {
      var j := RunEnd(s, i);
      var rest := s[j..];
      MiddlePiecesNonEmpty(rest);
      var pieces := Split(s);
      assert pieces == [s[..i]] + Split(rest);
      if |Split(rest)| > 1 {
        // a text that splits in two holds a separator, so rest is not empty
        // and, as the run ended before it, begins with a piece character
        assert FirstSeparator(rest) < |rest|;
        assert !IsSeparator(rest[0]);
        assert Split(rest)[0] == rest[..FirstSeparator(rest)];
      }
      forall k | 0 < k < |pieces| - 1
        ensures pieces[k] != []
      {
        assert pieces[k] == Split(rest)[k - 1];
      }
    }
  }

  /** Putting the removed runs back between the pieces rebuilds the text. */
  lemma {:induction false} SplitRebuild(s: string)
    ensures |SplitRuns(s)| == |Split(s)| - 1
    ensures Interleave(Split(s), SplitRuns(s)) == s
    decreases |s|
  {
    SplitRunsShape(s);
    var i := FirstSeparator(s);
    if i == |s| {
      assert s[..i] == s;
    } else {
      var j := RunEnd(s, i);
      SplitRebuild(s[j..]);
      RebuildStep(s, i, j);
    }
  }

  /** One step of SplitRebuild: the first piece and run, then the rest. */
  lemma RebuildStep(s: string, i: nat, j: nat)
    requires i == FirstSeparator(s) < |s| && j == RunEnd(s, i)
    requires |SplitRuns(s[j..])| == |Split(s[j..])| - 1
    requires Interleave(Split(s[j..]), SplitRuns(s[j..])) == s[j..]
    ensures |SplitRuns(s)| == |Split(s)| - 1
    ensures Interleave(Split(s), SplitRuns(s)) == s
  {
    var rest := s[j..];
    var pieces, runs := [s[..i]] + Split(rest), [s[i..j]] + SplitRuns(rest);
    SplitUnfold(s, i, j);
    assert pieces[0] == s[..i] && pieces[1..] == Split(rest);
    assert runs[0] == s[i..j] && runs[1..] == SplitRuns(rest);
    InterleaveCons(pieces, runs);
    SliceThree(s, i, j);
  }

  lemma SliceThree(s: string, i: nat, j: nat)
    requires i <= j <= |s|
    ensures s == s[..i] + s[i..j] + s[j..]
  {
  }

  /** Split and SplitRuns of a text that holds a separator, one step unfolded. */
  lemma SplitUnfold(s: string, i: nat, j: nat)
    requires i == FirstSeparator(s) < |s| && j == RunEnd(s, i)
    ensures Split(s) == [s[..i]] + Split(s[j..])
    ensures SplitRuns(s) == [s[i..j]] + SplitRuns(s[j..])
  {
  }

  lemma InterleaveCons(pieces: seq<string>, runs: seq<string>)
    requires |pieces| == |runs| + 1 && runs != []
    ensures Interleave(pieces, runs) == pieces[0] + runs[0] + Interleave(pieces[1..], runs[1..])
  {
  }

  /** The split loses nothing: the runs preg_split removes, put back between
      the pieces, rebuild the text; every run is a non-empty string of
      separators and every piece strictly between two runs is non-empty, so
      the runs are the maximal ones and the pieces are exactly the segments
      of text between them. */
  lemma SplitRoundTrip(s: string)
    ensures |SplitRuns(s)| == |Split(s)| - 1
    ensures forall k :: 0 <= k < |SplitRuns(s)| ==> SplitRuns(s)[k] != [] && OnlySeparators(SplitRuns(s)[k])
    ensures forall k :: 0 < k < |Split(s)| - 1 ==> Split(s)[k] != []
    ensures Interleave(Split(s), SplitRuns(s)) == s
  {
    SplitRunsShape(s);
    MiddlePiecesNonEmpty(s);
    SplitRebuild(s);
  }

  /** The first piece is the longest separator-free prefix of s. */
  lemma FirstPiece(s: string)
    ensures |Split(s)[0]| <= |s| && Split(s)[0] == s[..|Split(s)[0]|]
    ensures NoSeparator(Split(s)[0])
    ensures |Split(s)[0]| < |s| ==> IsSeparator(s[|Split(s)[0]|])
  {
  }

  /** A string with no separator is a single piece, itself. */
  lemma {:induction false} SplitWithoutSeparator(s: string)
    requires NoSeparator(s)
    ensures Split(s) == [s]
  {
    assert FirstSeparator(s) == |s|;
  }

  /** The example of the filter text "rock, pop". */
  lemma RockPop()
    ensures Split("rock, pop") == ["rock", "pop"]
  {
    var s := "rock, pop";
    assert FirstSeparator(s) == 4 by {
      assert !IsSeparator(s[0]) && !IsSeparator(s[1]) && !IsSeparator(s[2]) && !IsSeparator(s[3]);
      assert IsSeparator(s[4]);
      assert s[1..][1..][1..][1..] == s[4..];
    }
    assert RunEnd(s, 4) == 6;
    assert s[..4] == "rock";
    assert s[6..] == "pop";
    SplitWithoutSeparator("pop");
    assert Split(s) == [s[..4]] + Split(s[6..]);
  }
}
