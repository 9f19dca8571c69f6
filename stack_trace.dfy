/** Splitting a raw stack trace on the frame delimiter "\n\t", rejoining it,
    and the six-segment truncation the canonical logger applies to the first
    stack frame of an exception error. */
module StackTrace {
  import opened Common

  const Delimiter: string := "\n\t"

  /** The most segments of a stack the canonical log keeps. */
  const MaxSegments: nat := 6

  /** The delimiter "\n\t" starts at index `j` of `s`. */
  predicate DelimiterAt(s: string, j: int)
  {
    0 <= j && j + 1 < |s| && s[j] == '\n' && s[j + 1] == '\t'
  }

  /** `s` holds no delimiter at all. */
  ghost predicate DelimiterFree(s: string)
  {
    forall j :: !DelimiterAt(s, j)
  }

  /** The first delimiter at or after `k`, if any. */
  function FindDelimiter(s: string, k: nat): (r: Option<nat>)
    ensures r.Some? ==> k <= r.value && DelimiterAt(s, r.value)
    ensures r.Some? ==> forall j :: k <= j < r.value ==> !DelimiterAt(s, j)
    ensures r.None? ==> forall j :: k <= j ==> !DelimiterAt(s, j)
    decreases |s| - k
  {
    if k + 1 >= |s| then None
    else if DelimiterAt(s, k) then Some(k)
    else FindDelimiter(s, k + 1)
  }

  /** `strings.Split(s, "\n\t")`: the pieces between non-overlapping
      delimiters, scanned left to right; at least one piece. */
  function Split(s: string): (parts: seq<string>)
    ensures |parts| >= 1
    ensures forall i :: 0 <= i < |parts| ==> DelimiterFree(parts[i])
    decreases |s|
  {
    match FindDelimiter(s, 0)
    case None => [s]
    case Some(i) =>
      PrefixBeforeDelimiter(s, i);
      [s[..i]] + Split(s[i + 2..])
  }

  lemma PrefixBeforeDelimiter(s: string, i: nat)
    requires i <= |s|
    requires forall j :: 0 <= j < i ==> !DelimiterAt(s, j)
    ensures DelimiterFree(s[..i])
  {
    forall j ensures !DelimiterAt(s[..i], j) {
      if DelimiterAt(s[..i], j) {
        assert DelimiterAt(s, j);
      }
    }
  }

  /** A piece without a newline holds no delimiter. */
  lemma NoNewlineIsDelimiterFree(s: string)
    requires forall j :: 0 <= j < |s| ==> s[j] != '\n'
    ensures DelimiterFree(s)
  {
  }

  /** `strings.Join(parts, "\n\t")`. */
  function Join(parts: seq<string>): string
  {
    JoinWith(parts, Delimiter)
  }

  /** Lines 95-98 of the canonical logger: keep the first six segments when
      there are more than six, otherwise leave the stack as it is. */
  function TruncateStack(stack: string): string
  {
    var parts := Split(stack);
    if |parts| > MaxSegments then Join(parts[..MaxSegments]) else stack
  }

  lemma {:induction false} FindDelimiterIs(s: string, k: nat, i: nat)
    requires k <= i && DelimiterAt(s, i)
    requires forall j :: k <= j < i ==> !DelimiterAt(s, j)
    ensures FindDelimiter(s, k) == Some(i)
    decreases i - k
  {
    if k < i {
      FindDelimiterIs(s, k + 1, i);
    }
  }

  /** Splitting and rejoining gives back the original stack. */
  lemma {:induction false} JoinSplit(s: string)
    ensures Join(Split(s)) == s
    decreases |s|
  {
    match FindDelimiter(s, 0)
    case None =>
    case Some(i) =>
      var rest := s[i + 2..];
      JoinSplit(rest);
      assert Split(s) == [s[..i]] + Split(rest);
      assert s == s[..i] + Delimiter + rest;
  }

  lemma JoinTwoOrMore(parts: seq<string>)
    requires |parts| >= 2
    ensures Join(parts) == parts[0] + Delimiter + Join(parts[1..])
  {
  }

  /** Joining delimiter-free pieces and splitting again gives back the pieces. */
  lemma {:induction false} SplitJoin(parts: seq<string>)
    requires |parts| >= 1
    requires forall i :: 0 <= i < |parts| ==> DelimiterFree(parts[i])
    ensures Split(Join(parts)) == parts
    decreases |parts|
  {
    var p := parts[0];
    if |parts| == 1 {
      assert Join(parts) == p;
      assert FindDelimiter(p, 0) == None;
    } else {
      var tail := parts[1..];
      var s := Join(parts);
      JoinTwoOrMore(parts);
      assert s == p + Delimiter + Join(tail);
      assert DelimiterAt(s, |p|);
      forall j | 0 <= j < |p|
        ensures !DelimiterAt(s, j)
      {
        if j + 1 < |p| {
          assert !DelimiterAt(p, j);
          assert s[j] == p[j] && s[j + 1] == p[j + 1];
        } else {
          assert s[j + 1] == '\n';
        }
      }
      FindDelimiterIs(s, 0, |p|);
      assert s[..|p|] == p;
      assert s[|p| + 2..] == Join(tail);
      SplitJoin(tail);
    }
  }

  /** The first `k` pieces, joined, are a prefix of all of them joined. */
  lemma {:induction false} JoinPrefix(parts: seq<string>, k: nat)
    requires 1 <= k <= |parts|
    ensures Join(parts[..k]) <= Join(parts)
    decreases k
  {
    if k == 1 {
      if |parts| >= 2 {
        JoinTwoOrMore(parts);
      }
    } else {
      JoinTwoOrMore(parts);
      JoinTwoOrMore(parts[..k]);
      assert parts[..k][1..] == parts[1..][..k - 1];
      JoinPrefix(parts[1..], k - 1);
    }
  }

  /** A stack with at most six segments is left exactly as it was. */
  lemma TruncateShortStack(stack: string)
    requires |Split(stack)| <= MaxSegments
    ensures TruncateStack(stack) == stack
  {
  }

  /** The truncated stack is the original's first min(6, n) segments: it never
      has more than six and agrees with the original on the ones it keeps. */
  lemma TruncateSegments(stack: string)
    ensures var n := |Split(stack)|;
            Split(TruncateStack(stack)) ==
              Split(stack)[..if n > MaxSegments then MaxSegments else n]
    ensures |Split(TruncateStack(stack))| <= MaxSegments
  {
    var parts := Split(stack);
    if |parts| > MaxSegments {
      SplitJoin(parts[..MaxSegments]);
    } else {
      assert parts[..|parts|] == parts;
    }
  }

  /** The truncated stack is a prefix of the original one. */
  lemma TruncateIsPrefix(stack: string)
    ensures TruncateStack(stack) <= stack
  {
    var parts := Split(stack);
    if |parts| > MaxSegments {
      JoinPrefix(parts, MaxSegments);
      JoinSplit(stack);
    }
  }

  /** The ten-line stack of the canonical logger's tests keeps its first six lines. */
  lemma TruncateTenLines(ten: seq<string>)
    requires ten == ["line1", "line2", "line3", "line4", "line5",
                     "line6", "line7", "line8", "line9", "line10"]
    ensures TruncateStack(Join(ten)) == Join(["line1", "line2", "line3", "line4", "line5", "line6"])
  {
    forall i | 0 <= i < |ten|
      ensures DelimiterFree(ten[i])
    {
      NoNewlineIsDelimiterFree(ten[i]);
    }
    SplitJoin(ten);
    assert ten[..MaxSegments] == ["line1", "line2", "line3", "line4", "line5", "line6"];
  }
}
