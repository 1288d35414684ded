/** Vote statistics over the fixed 12-symbol scale
    (client/utils/voteCalculations.ts).

    A vote is `string | undefined`, written `Option<string>`.  Every
    function here is pure: the source sorts copies and maps/filters indices. */
module VoteCalculations {
  import opened Wrappers
  import opened JsValues
  import StableSort

  type Vote = Option<string>

  /** FIBONACCI_SEQUENCE: the scale, "?" last. */
  const Scale: seq<string> := ["0", "1", "2", "3", "5", "8", "13", "21", "34", "55", "89", "?"]

  /** Position of "?" on the scale. */
  const Unknown: int := 11

  /** Sort key given to `undefined`: JavaScript's Array.prototype.sort moves
      undefined elements to the end without calling the comparator, so they
      behave as if they ranked above every index the comparator can see. */
  const UndefinedKey: int := 12

  /** Array.prototype.indexOf: the first position of `x` in `s` at or
      after `from`, or -1. */
  function IndexOf(s: seq<string>, x: string, from: nat): (r: int)
    requires from <= |s|
    ensures -1 <= r < |s|
    decreases |s| - from
  {
    if from == |s| then -1
    else if s[from] == x then from
    else IndexOf(s, x, from + 1)
  }

  lemma {:induction false} IndexOfMeaning(s: seq<string>, x: string, from: nat)
    requires from <= |s|
    ensures IndexOf(s, x, from) >= 0 ==>
      from <= IndexOf(s, x, from) && s[IndexOf(s, x, from)] == x
    ensures forall j :: from <= j < |s| && (IndexOf(s, x, from) == -1 || j < IndexOf(s, x, from)) ==> s[j] != x
    decreases |s| - from
  {
    if from < |s| && s[from] != x {
      IndexOfMeaning(s, x, from + 1);
    }
  }

  /** `vote || ""`: undefined and the empty string both become "". */
  function OrEmpty(v: Vote): string {
    if v.Some? then v.value else ""
  }

  /** getVoteIndex: the position on the scale, -1 for anything off it. */
  function VoteIndex(v: Vote): (r: int)
    ensures -1 <= r < |Scale|
  {
    IndexOf(Scale, OrEmpty(v), 0)
  }

  /** getVoteIndex gives the position on the scale, and -1 exactly for
      undefined, the empty string and every string off the scale. */
  lemma VoteIndexMeaning(v: Vote)
    ensures VoteIndex(v) >= 0 ==> v == Some(Scale[VoteIndex(v)])
    ensures VoteIndex(v) == -1 <==> v.None? || v.value !in Scale
  {
    IndexOfMeaning(Scale, OrEmpty(v), 0);
    assert "" !in Scale;
  }

  /** The position of an element in the order produced by the source's
      `[...votes].sort((a, b) => getVoteIndex(a) - getVoteIndex(b))`. */
  function SortKey(v: Vote): (k: int)
    ensures -1 <= k <= UndefinedKey
  {
    if v.None? then UndefinedKey else VoteIndex(v)
  }

  /** sortVotes: a copy of `votes` ordered by SortKey, stably; the input is
      a value and so is never mutated. */
  function SortVotes(votes: seq<Vote>): (r: seq<Vote>)
    ensures multiset(r) == multiset(votes)
    ensures StableSort.Sorted(SortKey, r)
    ensures forall k :: StableSort.WithKey(SortKey, r, k) == StableSort.WithKey(SortKey, votes, k)
  {
    StableSort.SortSorted(SortKey, votes);
    StableSort.SortStable(SortKey, votes);
    StableSort.Sort(SortKey, votes)
  }

  /** getMinVote: null for no votes; otherwise the head of the sorted copy,
      which is the first vote of least SortKey, passed through `|| null`. */
  function MinVote(votes: seq<Vote>): (r: Option<string>)
    ensures |votes| == 0 ==> r.None?
    ensures |votes| > 0 ==> r == OrNull(votes[StableSort.FirstLeast(SortKey, votes)])
  {
    if |votes| == 0 then None
    else
      StableSort.SortHeadIsFirstLeast(SortKey, votes);
      OrNull(SortVotes(votes)[0])
  }

  /** getMaxVote: null for no votes; otherwise the last element of the sorted
      copy, which is the last vote of greatest SortKey, passed through
      `|| null`. */
  function MaxVote(votes: seq<Vote>): (r: Option<string>)
    ensures |votes| == 0 ==> r.None?
    ensures |votes| > 0 ==> r == OrNull(votes[StableSort.LastGreatest(SortKey, votes)])
  {
    if |votes| == 0 then None
    else
      StableSort.SortLastIsLastGreatest(SortKey, votes);
      OrNull(SortVotes(votes)[|votes| - 1])
  }

  // ---- the average ----

  /** The indices the average counts: off-scale votes (-1) and "?" (11) are
      dropped. */
  function Counted(votes: seq<Vote>): (r: seq<int>)
    ensures |r| <= |votes|
    ensures forall i :: 0 <= i < |r| ==> 0 <= r[i] < Unknown
  {
    if |votes| == 0 then []
    else
      var k := VoteIndex(votes[0]);
      var rest := Counted(votes[1..]);
      if k != -1 && k != Unknown then [k] + rest else rest
  }

  function Sum(s: seq<int>): int {
    if |s| == 0 then 0 else s[0] + Sum(s[1..])
  }

  /** Math.round(sum / n) for a non-negative sum: the integer nearest the
      mean, halves rounded up. */
  function RoundedMean(sum: int, n: int): (q: int)
    requires sum >= 0 && n > 0
    ensures 2 * n * q <= 2 * sum + n < 2 * n * (q + 1)
  {
    (2 * sum + n) / (2 * n)
  }

  /** Only one integer lies within half of the mean. */
  lemma RoundedMeanUnique(sum: int, n: int, q: int)
    requires sum >= 0 && n > 0
    requires 2 * n * q <= 2 * sum + n < 2 * n * q + 2 * n
    ensures RoundedMean(sum, n) == q
  {
    var r := RoundedMean(sum, n);
    MulLessCancel(2 * n, r, q + 1);
    MulLessCancel(2 * n, q, r + 1);
  }

  /** No symbol on the scale is empty, and only the last is "?". */
  lemma ScaleSymbol(k: int)
    requires 0 <= k < |Scale|
    ensures Scale[k] != ""
    ensures k != Unknown ==> Scale[k] != "?"
  {
    if k == 0 { assert Scale[k] == "0"; }
    else if k == 1 { assert Scale[k] == "1"; }
    else if k == 2 { assert Scale[k] == "2"; }
    else if k == 3 { assert Scale[k] == "3"; }
    else if k == 4 { assert Scale[k] == "5"; }
    else if k == 5 { assert Scale[k] == "8"; }
    else if k == 6 { assert Scale[k] == "13"; }
    else if k == 7 { assert Scale[k] == "21"; }
    else if k == 8 { assert Scale[k] == "34"; }
    else if k == 9 { assert Scale[k] == "55"; }
    else if k == 10 { assert Scale[k] == "89"; }
    else { assert Scale[k] == "?"; }
  }

  /** The index getAvgVote maps back to the scale: Math.round of the mean
      of the counted indices.  It lies between the least and the greatest
      counted index, so it is at most 10. */
  function MeanIndex(c: seq<int>): (q: int)
    requires |c| > 0 && forall i :: 0 <= i < |c| ==> 0 <= c[i] < Unknown
    ensures Sum(c) >= 0 && q == RoundedMean(Sum(c), |c|)
    ensures Least(c) <= q <= Greatest(c) && 0 <= q < Unknown
  {
    MeanWithinRange(c);
    RoundedMean(Sum(c), |c|)
  }

  /** getAvgVote: null for no votes or no counted vote; otherwise the
      scale symbol at the rounded mean of the counted indices.  The source's
      cap at the last index and its `|| null` never apply, and the result is
      never "?". */
  function AvgVote(votes: seq<Vote>): (r: Option<string>)
    ensures r.None? <==> |Counted(votes)| == 0
    ensures r.Some? ==> r.value == Scale[MeanIndex(Counted(votes))]
    ensures r != Some("?")
  {
    if |votes| == 0 then None
    else
      var indices := Counted(votes);
      if |indices| == 0 then None
      else
        var avg := MeanIndex(indices);
        var capped := if avg < |Scale| - 1 then avg else |Scale| - 1;
        ScaleSymbol(capped);
        OrNull(Some(Scale[capped]))
  }

  lemma {:induction false} SumNonNegative(s: seq<int>)
    requires forall i :: 0 <= i < |s| ==> s[i] >= 0
    ensures Sum(s) >= 0
  {
    if |s| > 0 {
      SumNonNegative(s[1..]);
    }
  }

  /** n * lo <= Sum(s) <= n * hi when every element lies in [lo, hi]. */
  lemma {:induction false} SumBounds(s: seq<int>, lo: int, hi: int)
    requires forall i :: 0 <= i < |s| ==> lo <= s[i] <= hi
    ensures |s| * lo <= Sum(s) <= |s| * hi
  {
    if |s| > 0 {
      SumBounds(s[1..], lo, hi);
      assert |s| * lo == lo + (|s| - 1) * lo;
      assert |s| * hi == hi + (|s| - 1) * hi;
    }
  }

  /** b * x < b * y implies x < y for positive b. */
  lemma MulLessCancel(b: int, x: int, y: int)
    requires b > 0 && b * x < b * y
    ensures x < y
  {
    if x >= y {
      MulMonotone(b, y, x);
    }
  }

  lemma {:induction false} MulMonotone(b: int, x: int, y: int)
    requires b >= 0 && x <= y
    ensures b * x <= b * y
    decreases b
  {
    if b > 0 {
      MulMonotone(b - 1, x, y);
      assert b * x == (b - 1) * x + x;
      assert b * y == (b - 1) * y + y;
    }
  }

  function Least(s: seq<int>): (m: int)
    requires |s| > 0
    ensures (exists j :: 0 <= j < |s| && s[j] == m) && forall j :: 0 <= j < |s| ==> m <= s[j]
  {
    if |s| == 1 then s[0]
    else
      var t := Least(s[1..]);
      assert forall j :: 1 <= j < |s| ==> t <= s[1..][j - 1] == s[j];
      if s[0] <= t then s[0] else t
  }

  function Greatest(s: seq<int>): (m: int)
    requires |s| > 0
    ensures (exists j :: 0 <= j < |s| && s[j] == m) && forall j :: 0 <= j < |s| ==> s[j] <= m
  {
    if |s| == 1 then s[0]
    else
      var t := Greatest(s[1..]);
      assert forall j :: 1 <= j < |s| ==> s[j] == s[1..][j - 1] <= t;
      if s[0] >= t then s[0] else t
  }

  /** The rounded mean lies between the least and the greatest counted
      index, so it is at most 10. */
  lemma MeanWithinRange(c: seq<int>)
    requires |c| > 0 && forall i :: 0 <= i < |c| ==> 0 <= c[i] < Unknown
    ensures Sum(c) >= 0
    ensures Least(c) <= RoundedMean(Sum(c), |c|) <= Greatest(c)
  {
    SumNonNegative(c);
    var lo, hi := Least(c), Greatest(c);
    SumBounds(c, lo, hi);
    MeanAtLeast(|c|, Sum(c), lo);
    MeanAtMost(|c|, Sum(c), hi);
  }

  lemma MeanAtLeast(n: int, sum: int, lo: int)
    requires n > 0 && sum >= 0 && n * lo <= sum
    ensures lo <= RoundedMean(sum, n)
  {
    var q := RoundedMean(sum, n);
    assert (2 * n) * lo == 2 * (n * lo);
    assert (2 * n) * lo < (2 * n) * (q + 1);
    MulLessCancel(2 * n, lo, q + 1);
  }

  lemma MeanAtMost(n: int, sum: int, hi: int)
    requires n > 0 && sum >= 0 && sum <= n * hi
    ensures RoundedMean(sum, n) <= hi
  {
    var q := RoundedMean(sum, n);
    assert (2 * n) * (hi + 1) == 2 * (n * hi) + 2 * n;
    assert (2 * n) * q < (2 * n) * (hi + 1);
    MulLessCancel(2 * n, q, hi + 1);
  }

  // ---- consequences for votes on the scale, and worked examples ----

  /** A vote of non-negative index is defined, so its sort key is its index. */
  lemma OnScaleKey(v: Vote)
    requires VoteIndex(v) >= 0
    ensures v.Some? && SortKey(v) == VoteIndex(v) && OrNull(v) == v
  {
    VoteIndexMeaning(v);
    ScaleSymbol(VoteIndex(v));
  }

  /** When every vote is on the scale, getMinVote returns a vote of least
      scale index. */
  lemma MinOnScale(votes: seq<Vote>)
    requires |votes| > 0
    requires forall j :: 0 <= j < |votes| ==> VoteIndex(votes[j]) >= 0
    ensures MinVote(votes).Some? && MinVote(votes) in votes
    ensures forall j :: 0 <= j < |votes| ==> VoteIndex(MinVote(votes)) <= VoteIndex(votes[j])
  {
    var i := StableSort.FirstLeast(SortKey, votes);
    OnScaleKey(votes[i]);
    assert MinVote(votes) == votes[i];
    forall j | 0 <= j < |votes| ensures VoteIndex(votes[i]) <= VoteIndex(votes[j]) {
      OnScaleKey(votes[j]);
      assert SortKey(votes[i]) <= SortKey(votes[j]);
    }
  }

  /** When every vote is on the scale, getMaxVote returns a vote of greatest
      scale index. */
  lemma MaxOnScale(votes: seq<Vote>)
    requires |votes| > 0
    requires forall j :: 0 <= j < |votes| ==> VoteIndex(votes[j]) >= 0
    ensures MaxVote(votes).Some? && MaxVote(votes) in votes
    ensures forall j :: 0 <= j < |votes| ==> VoteIndex(votes[j]) <= VoteIndex(MaxVote(votes))
  {
    var i := StableSort.LastGreatest(SortKey, votes);
    OnScaleKey(votes[i]);
    assert MaxVote(votes) == votes[i];
    forall j | 0 <= j < |votes| ensures VoteIndex(votes[j]) <= VoteIndex(votes[i]) {
      OnScaleKey(votes[j]);
      assert SortKey(votes[j]) <= SortKey(votes[i]);
    }
  }

  /** A defined vote off the scale has index -1. */
  lemma OffScaleIndex(s: string)
    requires s !in Scale
    ensures VoteIndex(Some(s)) == -1 && SortKey(Some(s)) == -1
  {
    VoteIndexMeaning(Some(s));
  }

  /** An off-scale vote ranks below "0", so it is the minimum. */
  lemma OffScaleIsMinimum()
    ensures MinVote([Some("7"), Some("0")]) == Some("7")
  {
    var votes := [Some("7"), Some("0")];
    OffScaleIndex("7");
    assert SortKey(votes[1]) == 0;
    var i := StableSort.FirstLeast(SortKey, votes);
    assert SortKey(votes[i]) <= SortKey(votes[0]);
    assert i == 0;
  }

  /** An empty-string vote is off the scale and ranks lowest, and `|| null`
      turns it into null. */
  lemma EmptyStringMinimumIsNull()
    ensures MinVote([Some("5"), Some("")]) == None
  {
    var votes := [Some("5"), Some("")];
    assert SortKey(votes[0]) == 4;
    OffScaleIndex("");
    var i := StableSort.FirstLeast(SortKey, votes);
    assert SortKey(votes[i]) <= SortKey(votes[1]);
    assert i == 1;
  }

  /** `sort` moves undefined last, so one undefined vote makes the maximum
      null while the minimum ignores it. */
  lemma UndefinedSortsLast()
    ensures MaxVote([None, Some("5")]) == None
    ensures MinVote([None, Some("5")]) == Some("5")
  {
    var votes: seq<Vote> := [None, Some("5")];
    assert SortKey(votes[0]) == UndefinedKey;
    assert SortKey(votes[1]) == 4;
    var i := StableSort.FirstLeast(SortKey, votes);
    assert SortKey(votes[i]) <= SortKey(votes[1]);
    assert i == 1;
    var k := StableSort.LastGreatest(SortKey, votes);
    assert SortKey(votes[0]) <= SortKey(votes[k]);
    assert k == 0;
  }

  /** Any undefined vote sorts to the end, so getMaxVote is null as soon as
      one participant has not voted. */
  lemma AnyUndefinedMaxNull(votes: seq<Vote>)
    requires None in votes
    ensures MaxVote(votes) == None
  {
    var j :| 0 <= j < |votes| && votes[j] == None;
    var k := StableSort.LastGreatest(SortKey, votes);
    assert SortKey(votes[j]) <= SortKey(votes[k]);
  }

  /** An undefined vote anywhere in the list leaves getMinVote as it is, as
      long as some vote is defined: it sorts after every defined one. */
  lemma UndefinedIgnoredByMin(a: seq<Vote>, b: seq<Vote>)
    requires exists i :: 0 <= i < |a + b| && (a + b)[i].Some?
    ensures MinVote(a + [None] + b) == MinVote(a + b)
  {
    var s, t := a + b, a + [None] + b;
    var d :| 0 <= d < |s| && s[d].Some?;
    var i := StableSort.FirstLeast(SortKey, s);
    assert SortKey(s[i]) <= SortKey(s[d]) == VoteIndex(s[d]) < UndefinedKey;
    var i' := if i < |a| then i else i + 1;
    assert t[i'] == s[i];
    forall j | 0 <= j < |t| && j != |a|
      ensures t[j] == s[if j < |a| then j else j - 1]
    {
    }
    assert StableSort.IsFirstLeast(SortKey, t, i');
    StableSort.FirstLeastUnique(SortKey, t, i', StableSort.FirstLeast(SortKey, t));
  }

  /** What one vote adds to the counted indices: its index, unless it is
      -1 or that of "?". */
  function Contribution(v: Vote): (r: seq<int>)
    ensures |r| <= 1
  {
    var k := VoteIndex(v);
    if k != -1 && k != Unknown then [k] else []
  }

  /** Counted over a non-empty list: the head's contribution, then the
      rest's. */
  lemma CountedCons(v: Vote, rest: seq<Vote>)
    ensures Counted([v] + rest) == Contribution(v) + Counted(rest)
  {
    assert ([v] + rest)[1..] == rest;
  }

  /** Counted distributes over concatenation. */
  lemma {:induction false} CountedAppend(a: seq<Vote>, b: seq<Vote>)
    ensures Counted(a + b) == Counted(a) + Counted(b)
    decreases |a|
  {
    if |a| == 0 {
      assert a + b == b;
    } else {
      CountedAppend(a[1..], b);
      CountedAppendStep(a[0], a[1..], b);
      assert [a[0]] + a[1..] == a;
    }
  }

  /** The inductive step of CountedAppend: a vote put in front. */
  lemma CountedAppendStep(v: Vote, tail: seq<Vote>, b: seq<Vote>)
    requires Counted(tail + b) == Counted(tail) + Counted(b)
    ensures Counted([v] + tail + b) == Counted([v] + tail) + Counted(b)
  {
    var c, x, y := Contribution(v), Counted(tail), Counted(b);
    assert [v] + tail + b == [v] + (tail + b);
    CountedCons(v, tail + b);
    CountedCons(v, tail);
    Associative(c, x, y);
  }

  lemma Associative(x: seq<int>, y: seq<int>, z: seq<int>)
    ensures x + (y + z) == (x + y) + z
  {
  }

  /** The average depends on the counted indices alone. */
  lemma SameCountedSameAverage(a: seq<Vote>, b: seq<Vote>)
    requires Counted(a) == Counted(b)
    ensures AvgVote(a) == AvgVote(b)
  {
    if |Counted(a)| > 0 {
      assert AvgVote(a).value == AvgVote(b).value;
    }
  }

  /** No two symbols of the scale are equal: they differ in length or in
      their first character. */
  lemma ScaleDistinct()
    ensures forall i, j :: 0 <= i < j < |Scale| ==> Scale[i] != Scale[j]
  {
    var firsts := "0123581235" + "8?";
    assert forall i :: 0 <= i < |Scale| ==> |Scale[i]| == (if 6 <= i <= 10 then 2 else 1) && Scale[i][0] == firsts[i];
  }

  /** getVoteIndex of a scale symbol is its position. */
  lemma ScaleIndex(k: int)
    requires 0 <= k < |Scale|
    ensures VoteIndex(Some(Scale[k])) == k
  {
    ScaleDistinct();
    IndexOfMeaning(Scale, Scale[k], 0);
  }

  /** A vote that is undefined, off the scale or "?" does not move the
      average, wherever it is added. */
  lemma AverageSkipsUncounted(votes: seq<Vote>, v: Vote)
    requires v.None? || v.value !in Scale || v == Some("?")
    ensures AvgVote([v] + votes) == AvgVote(votes)
    ensures AvgVote(votes + [v]) == AvgVote(votes)
  {
    VoteIndexMeaning(v);
    if v == Some("?") {
      ScaleIndex(Unknown);
    }
    CountedCons(v, votes);
    SameCountedSameAverage([v] + votes, votes);
    CountedCons(v, []);
    CountedAppend(votes, [v]);
    assert Counted(votes + [v]) == Counted(votes) + [];
    SameCountedSameAverage(votes + [v], votes);
  }

  /** With nothing on the scale but "?", there is no average. */
  lemma {:induction false} AllUncountedIsNull(votes: seq<Vote>)
    requires forall i :: 0 <= i < |votes| ==> votes[i].None? || votes[i].value !in Scale || votes[i] == Some("?")
    ensures AvgVote(votes) == None
  {
    if |votes| > 0 {
      AllUncountedIsNull(votes[1..]);
      AverageSkipsUncounted(votes[1..], votes[0]);
      assert [votes[0]] + votes[1..] == votes;
    }
  }

  /** The average of votes whose counted indices are `c`. */
  lemma AverageFromCounted(votes: seq<Vote>, c: seq<int>, q: int)
    requires Counted(votes) == c && |c| > 0 && 0 <= q < |Scale|
    requires Sum(c) >= 0 && RoundedMean(Sum(c), |c|) == q
    ensures AvgVote(votes) == Some(Scale[q])
  {
  }

  /** When every vote is a symbol other than "?", every vote counts, in
      order: Counted gives back the symbols' positions on the scale. */
  lemma {:induction false} CountedSymbols(votes: seq<Vote>, ks: seq<int>)
    requires |votes| == |ks|
    requires forall i :: 0 <= i < |ks| ==> 0 <= ks[i] < Unknown && votes[i] == Some(Scale[ks[i]])
    ensures Counted(votes) == ks
  {
    if |votes| > 0 {
      CountedSymbols(votes[1..], ks[1..]);
      assert Contribution(votes[0]) == [ks[0]] by {
        ScaleIndex(ks[0]);
      }
      assert Counted(votes) == Contribution(votes[0]) + Counted(votes[1..]) by {
        assert votes == [votes[0]] + votes[1..];
        CountedCons(votes[0], votes[1..]);
      }
      assert ks == [ks[0]] + ks[1..];
    }
  }

  /** The rounded mean of k and k + 1 is k + 1. */
  lemma MeanOfPair(k: int)
    requires k >= 0
    ensures RoundedMean(2 * k + 1, 2) == k + 1
  {
    RoundedMeanUnique(2 * k + 1, 2, k + 1);
  }

  /** The rounded mean of k, k + 1 and k + 2 is k + 1. */
  lemma MeanOfTriple(k: int)
    requires k >= 0
    ensures RoundedMean(3 * k + 3, 3) == k + 1
  {
    RoundedMeanUnique(3 * k + 3, 3, k + 1);
  }

  /** Votes that are all symbols other than "?", given by their positions
      on the scale, average to the symbol at the rounded mean of those
      positions. */
  lemma AverageOfSymbols(votes: seq<Vote>, ks: seq<int>, q: int)
    requires |votes| == |ks| > 0
    requires forall i :: 0 <= i < |ks| ==> 0 <= ks[i] < Unknown && votes[i] == Some(Scale[ks[i]])
    requires 0 <= q < |Scale| && Sum(ks) >= 0 && RoundedMean(Sum(ks), |ks|) == q
    ensures AvgVote(votes) == Some(Scale[q])
  {
    CountedSymbols(votes, ks);
    AverageFromCounted(votes, ks, q);
  }

  /** Two neighbouring symbols average to the upper one: Math.round takes
      the half up. */
  lemma AdjacentRoundsUp(k: int)
    requires 0 <= k < Unknown - 1
    ensures AvgVote([Some(Scale[k]), Some(Scale[k + 1])]) == Some(Scale[k + 1])
  {
    var ks := [k, k + 1];
    assert Sum(ks) == 2 * k + 1 by {
      assert ks[1..] == [k + 1];
      assert Sum([k + 1]) == k + 1 + Sum([]);
    }
    MeanOfPair(k);
    AverageOfSymbols([Some(Scale[k]), Some(Scale[k + 1])], ks, k + 1);
  }

  /** Three consecutive symbols average to the middle one. */
  lemma ConsecutiveAverageToMiddle(k: int)
    requires 0 <= k < Unknown - 2
    ensures AvgVote([Some(Scale[k]), Some(Scale[k + 1]), Some(Scale[k + 2])]) == Some(Scale[k + 1])
  {
    var ks := [k, k + 1, k + 2];
    assert Sum(ks) == 3 * k + 3 by {
      assert ks[1..] == [k + 1, k + 2] && ks[1..][1..] == [k + 2];
      assert Sum([k + 2]) == k + 2 + Sum([]);
    }
    MeanOfTriple(k);
    AverageOfSymbols([Some(Scale[k]), Some(Scale[k + 1]), Some(Scale[k + 2])], ks, k + 1);
  }

  /** Counted over votes that all name the same counted symbol. */
  lemma {:induction false} CountedUnanimous(votes: seq<Vote>, k: int)
    requires 0 <= k < Unknown
    requires forall i :: 0 <= i < |votes| ==> votes[i] == Some(Scale[k])
    ensures |Counted(votes)| == |votes|
    ensures forall i :: 0 <= i < |votes| ==> Counted(votes)[i] == k
  {
    if |votes| > 0 {
      ScaleIndex(k);
      CountedUnanimous(votes[1..], k);
      CountedCons(votes[0], votes[1..]);
      assert [votes[0]] + votes[1..] == votes;
    }
  }

  /** When everyone votes the same symbol other than "?", that symbol is
      the average. */
  lemma UnanimousAverage(votes: seq<Vote>, k: int)
    requires 0 <= k < Unknown && |votes| > 0
    requires forall i :: 0 <= i < |votes| ==> votes[i] == Some(Scale[k])
    ensures AvgVote(votes) == Some(Scale[k])
  {
    var c := Counted(votes);
    assert |c| > 0 && Least(c) == k && Greatest(c) == k by {
      CountedUnanimous(votes, k);
      assert c[0] == k;
    }
    assert MeanIndex(c) == k;
  }
}
