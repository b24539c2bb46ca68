/** Longest common subsequence of two line lists; it only compares lines (internal/merge/merge.go, matchIndex). */
module Lcs {
  type Matching = map<nat, nat>

  /** The length the table is meant to hold at (i, j): the LCS of o[i..] and x[j..]. */
  function LcsLen<T(==)>(o: seq<T>, x: seq<T>, i: nat, j: nat): nat
    requires i <= |o| && j <= |x|
    decreases |o| - i + |x| - j
  {
    if i == |o| || j == |x| then 0
    else if o[i] == x[j] then LcsLen(o, x, i + 1, j + 1) + 1
    else
      var down, right := LcsLen(o, x, i + 1, j), LcsLen(o, x, i, j + 1);
      if down >= right then down else right
  }

  /** The pairs picked from (i, j) on. */
  function Trace<T(==)>(o: seq<T>, x: seq<T>, i: nat, j: nat): Matching
    requires i <= |o| && j <= |x|
    decreases |o| - i + |x| - j
  {
    if i == |o| || j == |x| then map[]
    else if o[i] == x[j] then map[i := j] + Trace(o, x, i + 1, j + 1)
    else if LcsLen(o, x, i + 1, j) >= LcsLen(o, x, i, j + 1) then Trace(o, x, i + 1, j)
    else Trace(o, x, i, j + 1)
  }

  function MatchOf<T(==)>(o: seq<T>, x: seq<T>): Matching {
    Trace(o, x, 0, 0)
  }

  /** m pairs equal lines, in range from (i, j) on, and never crosses itself. */
  ghost predicate Matches<T>(o: seq<T>, x: seq<T>, m: Matching, i: nat, j: nat) {
    && (forall k :: k in m ==> i <= k < |o| && j <= m[k] < |x| && o[k] == x[m[k]])
    && (forall k, l :: k in m && l in m && k < l ==> m[k] < m[l])
  }

  /** A common subsequence, given by the positions it uses on each side. */
  ghost predicate CommonSubsequence<T>(o: seq<T>, x: seq<T>, ps: seq<(nat, nat)>, i: nat, j: nat) {
    && (forall k :: 0 <= k < |ps| ==> i <= ps[k].0 < |o| && j <= ps[k].1 < |x| && o[ps[k].0] == x[ps[k].1])
    && (forall k, l :: 0 <= k < l < |ps| ==> ps[k].0 < ps[l].0 && ps[k].1 < ps[l].1)
  }

  lemma {:induction false} TraceMatches<T>(o: seq<T>, x: seq<T>, i: nat, j: nat)
    requires i <= |o| && j <= |x|
    ensures Matches(o, x, Trace(o, x, i, j), i, j)
    ensures |Trace(o, x, i, j)| == LcsLen(o, x, i, j)
    decreases |o| - i + |x| - j
  {
    if i == |o| || j == |x| {
    } else if o[i] == x[j] {
      TraceMatches(o, x, i + 1, j + 1);
      MatchesCons(o, x, Trace(o, x, i + 1, j + 1), i, j);
    } else {
      TraceMatches(o, x, i + 1, j);
      TraceMatches(o, x, i, j + 1);
    }
  }

  lemma MatchesCons<T>(o: seq<T>, x: seq<T>, rest: Matching, i: nat, j: nat)
    requires i < |o| && j < |x| && o[i] == x[j] && Matches(o, x, rest, i + 1, j + 1)
    ensures Matches(o, x, map[i := j] + rest, i, j)
    ensures |map[i := j] + rest| == |rest| + 1
  {
    assert i !in rest;
    assert (map[i := j] + rest).Keys == {i} + rest.Keys;
  }

  lemma {:induction false} NoLongerSubsequence<T>(o: seq<T>, x: seq<T>, ps: seq<(nat, nat)>, i: nat, j: nat)
    requires i <= |o| && j <= |x| && CommonSubsequence(o, x, ps, i, j)
    ensures |ps| <= LcsLen(o, x, i, j)
    decreases |o| - i + |x| - j
  {
    if ps == [] {
    } else if i <= ps[0].0 && j <= ps[0].1 && o[i] == x[j] {
      assert forall k :: 0 < k < |ps| ==> ps[0].0 < ps[k].0 && ps[0].1 < ps[k].1;
      NoLongerSubsequence(o, x, ps[1..], i + 1, j + 1);
    } else if ps[0].0 > i {
      NoLongerSubsequence(o, x, ps, i + 1, j);
    } else {
      NoLongerSubsequence(o, x, ps, i, j + 1);
    }
  }

  /** The match map is a common subsequence and no common subsequence is longer. */
  lemma MatchOptimal<T>(o: seq<T>, x: seq<T>)
    ensures Matches(o, x, MatchOf(o, x), 0, 0)
    ensures |MatchOf(o, x)| == LcsLen(o, x, 0, 0)
    ensures forall ps :: CommonSubsequence(o, x, ps, 0, 0) ==> |ps| <= |MatchOf(o, x)|
  {
    TraceMatches(o, x, 0, 0);
    forall ps | CommonSubsequence(o, x, ps, 0, 0)
      ensures |ps| <= |MatchOf(o, x)|
    {
      NoLongerSubsequence(o, x, ps, 0, 0);
    }
  }

  /** A text is matched with itself line by line. */
  lemma {:induction false} TraceSelf<T>(o: seq<T>, i: nat)
    requires i <= |o|
    ensures forall k: nat :: k in Trace(o, o, i, i) <==> i <= k < |o|
    ensures forall k: nat :: k in Trace(o, o, i, i) ==> Trace(o, o, i, i)[k] == k
    decreases |o| - i
  {
    if i < |o| { TraceSelf(o, i + 1); }
  }

  method MatchIndex<T(==)>(o: seq<T>, x: seq<T>) returns (m: Matching)
    ensures m == MatchOf(o, x)
    ensures Matches(o, x, m, 0, 0)
    ensures forall ps :: CommonSubsequence(o, x, ps, 0, 0) ==> |ps| <= |m|
  {
    var dp := FillTable(o, x);
    m := map[];
    var i: nat, j: nat := 0, 0;
    while i < |o| && j < |x|
      invariant i <= |o| && j <= |x|
      invariant m + Trace(o, x, i, j) == MatchOf(o, x)
      invariant forall k :: k in m ==> k < i
    {
      assert dp[i + 1, j] == LcsLen(o, x, i + 1, j) by { assert RowFilled(dp, o, x, i + 1, 0); }
      assert dp[i, j + 1] == LcsLen(o, x, i, j + 1) by { assert RowFilled(dp, o, x, i, 0); }
      if o[i] == x[j] {
        assert m + Trace(o, x, i, j) == m[i := j] + Trace(o, x, i + 1, j + 1);
        m := m[i := j];
        i, j := i + 1, j + 1;
      } else if dp[i + 1, j] >= dp[i, j + 1] {
        i := i + 1;
      } else {
        j := j + 1;
      }
    }
    assert m == MatchOf(o, x);
    MatchOptimal(o, x);
  }

  /** Row k of the table is right from column j on. */
  ghost predicate RowFilled<T>(dp: array2<nat>, o: seq<T>, x: seq<T>, k: nat, j: nat)
    requires dp.Length0 == |o| + 1 && dp.Length1 == |x| + 1 && k <= |o|
    reads dp
  {
    forall l :: j <= l <= |x| ==> dp[k, l] == LcsLen(o, x, k, l)
  }

  method FillTable<T(==)>(o: seq<T>, x: seq<T>) returns (dp: array2<nat>)
    ensures fresh(dp) && dp.Length0 == |o| + 1 && dp.Length1 == |x| + 1
    ensures forall k :: 0 <= k <= |o| ==> RowFilled(dp, o, x, k, 0)
  {
    dp := new nat[|o| + 1, |x| + 1]((_, _) => 0);
    for i := |o| downto 0
      invariant forall k :: i <= k <= |o| ==> RowFilled(dp, o, x, k, 0)
      invariant forall k :: 0 <= k < i ==> dp[k, |x|] == 0
    {
      label before:
      FillRow(dp, o, x, i);
      forall k | i < k <= |o| ensures RowFilled(dp, o, x, k, 0) {
        assert old@before(RowFilled(dp, o, x, k, 0));
      }
    }
  }

  method FillRow<T(==)>(dp: array2<nat>, o: seq<T>, x: seq<T>, i: nat)
    requires dp.Length0 == |o| + 1 && dp.Length1 == |x| + 1 && i < |o|
    requires RowFilled(dp, o, x, i + 1, 0) && dp[i, |x|] == 0
    modifies dp
    ensures RowFilled(dp, o, x, i, 0)
    ensures forall k, l :: 0 <= k <= |o| && 0 <= l <= |x| && k != i ==> dp[k, l] == old(dp[k, l])
  {
    for j := |x| downto 0
      invariant RowFilled(dp, o, x, i, j)
      invariant forall k, l :: 0 <= k <= |o| && 0 <= l <= |x| && k != i ==> dp[k, l] == old(dp[k, l])
    {
      assert dp[i + 1, j] == LcsLen(o, x, i + 1, j) && dp[i + 1, j + 1] == LcsLen(o, x, i + 1, j + 1);
      if o[i] == x[j] {
        dp[i, j] := dp[i + 1, j + 1] + 1;
      } else if dp[i + 1, j] >= dp[i, j + 1] {
        dp[i, j] := dp[i + 1, j];
      } else {
        dp[i, j] := dp[i, j + 1];
      }
    }
  }
}
