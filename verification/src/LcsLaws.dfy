/** Which longest match is taken where several exist (internal/merge/merge.go, lines 155-159 and 173-177). */
module LcsLaws {
  import opened Lcs

  /** ps lists the pairs of a match map in order. */
  ghost predicate Lists(m: Matching, ps: seq<(nat, nat)>) {
    && |ps| == |m|
    && (forall n :: 0 <= n < |ps| ==> ps[n].0 in m && m[ps[n].0] == ps[n].1)
    && (forall n, l :: 0 <= n < l < |ps| ==> ps[n].0 < ps[l].0)
  }

  /** No longest common subsequence from (i, j) has an earlier line of x anywhere. */
  ghost predicate Leftmost<T>(o: seq<T>, x: seq<T>, ps: seq<(nat, nat)>, i: nat, j: nat)
    requires i <= |o| && j <= |x|
  {
    forall qs: seq<(nat, nat)>, n ::
      CommonSubsequence(o, x, qs, i, j) && |qs| == |ps| && 0 <= n < |ps| ==> ps[n].1 <= qs[n].1
  }

  /** The pairs of the trace, in order. */
  ghost function Pairs<T>(o: seq<T>, x: seq<T>, i: nat, j: nat): seq<(nat, nat)>
    requires i <= |o| && j <= |x|
    decreases |o| - i + |x| - j
  {
    if i == |o| || j == |x| then []
    else if o[i] == x[j] then [(i, j)] + Pairs(o, x, i + 1, j + 1)
    else if LcsLen(o, x, i + 1, j) >= LcsLen(o, x, i, j + 1) then Pairs(o, x, i + 1, j)
    else Pairs(o, x, i, j + 1)
  }

  lemma {:induction false} PairsListed<T>(o: seq<T>, x: seq<T>, i: nat, j: nat)
    requires i <= |o| && j <= |x|
    ensures Lists(Trace(o, x, i, j), Pairs(o, x, i, j))
    ensures CommonSubsequence(o, x, Pairs(o, x, i, j), i, j) && |Pairs(o, x, i, j)| == LcsLen(o, x, i, j)
    decreases |o| - i + |x| - j
  {
    if i == |o| || j == |x| {
    } else if o[i] == x[j] {
      PairsListed(o, x, i + 1, j + 1);
      PairsCons(o, x, i, j);
    } else if LcsLen(o, x, i + 1, j) >= LcsLen(o, x, i, j + 1) {
      PairsListed(o, x, i + 1, j);
      StartsAt(o, x, Pairs(o, x, i + 1, j), i + 1, j, i, j);
    } else {
      PairsListed(o, x, i, j + 1);
      StartsAt(o, x, Pairs(o, x, i, j + 1), i, j + 1, i, j);
    }
  }

  lemma PairsCons<T>(o: seq<T>, x: seq<T>, i: nat, j: nat)
    requires i < |o| && j < |x| && o[i] == x[j]
    requires Lists(Trace(o, x, i + 1, j + 1), Pairs(o, x, i + 1, j + 1))
    requires CommonSubsequence(o, x, Pairs(o, x, i + 1, j + 1), i + 1, j + 1)
    ensures Lists(Trace(o, x, i, j), Pairs(o, x, i, j)) && CommonSubsequence(o, x, Pairs(o, x, i, j), i, j)
  {
    TraceMatches(o, x, i + 1, j + 1);
    ListsCons(Trace(o, x, i + 1, j + 1), Pairs(o, x, i + 1, j + 1), i, j);
    WithFirst(o, x, Pairs(o, x, i + 1, j + 1), i, j);
  }

  // --- handling common subsequences ---

  /** One that starts further on is one from there. */
  lemma StartsAt<T>(o: seq<T>, x: seq<T>, ps: seq<(nat, nat)>, i: nat, j: nat, k: nat, l: nat)
    requires CommonSubsequence(o, x, ps, i, j) && (ps != [] ==> ps[0].0 >= k && ps[0].1 >= l)
    ensures CommonSubsequence(o, x, ps, k, l)
  {
    forall n | 0 <= n < |ps| ensures k <= ps[n].0 && l <= ps[n].1 {
      assert n > 0 ==> ps[0].0 < ps[n].0 && ps[0].1 < ps[n].1;
    }
  }

  lemma WithoutFirst<T>(o: seq<T>, x: seq<T>, ps: seq<(nat, nat)>, i: nat, j: nat)
    requires CommonSubsequence(o, x, ps, i, j) && ps != []
    ensures CommonSubsequence(o, x, ps[1..], ps[0].0 + 1, ps[0].1 + 1)
  {
    forall n | 0 <= n < |ps[1..]| ensures ps[0].0 + 1 <= ps[1..][n].0 && ps[0].1 + 1 <= ps[1..][n].1 {
      assert ps[1..][n] == ps[n + 1] && ps[0].0 < ps[n + 1].0 && ps[0].1 < ps[n + 1].1;
    }
  }

  lemma WithFirst<T>(o: seq<T>, x: seq<T>, ps: seq<(nat, nat)>, i: nat, j: nat)
    requires i < |o| && j < |x| && o[i] == x[j] && CommonSubsequence(o, x, ps, i + 1, j + 1)
    ensures CommonSubsequence(o, x, [(i, j)] + ps, i, j)
  {
  }

  lemma ListsCons(m: Matching, ps: seq<(nat, nat)>, i: nat, j: nat)
    requires Lists(m, ps) && forall k :: k in m ==> k > i
    ensures Lists(map[i := j] + m, [(i, j)] + ps)
  {
    assert (map[i := j] + m).Keys == {i} + m.Keys;
    forall n | 0 <= n < |ps| ensures ps[n].0 > i {}
  }

  lemma WithoutLast(m: Matching, ps: seq<(nat, nat)>)
    requires Lists(m, ps) && ps != []
    ensures Lists(m - {ps[|ps| - 1].0}, ps[..|ps| - 1])
  {
    var last := ps[|ps| - 1].0;
    assert (m - {last}).Keys == m.Keys - {last};
  }

  /** A map has one listing. */
  lemma {:induction false} ListingUnique(m: Matching, ps: seq<(nat, nat)>, qs: seq<(nat, nat)>)
    requires Lists(m, ps) && Lists(m, qs)
    ensures ps == qs
    decreases |ps|
  {
    if ps != [] {
      var k := |ps| - 1;
      SameLast(m, ps, qs);
      WithoutLast(m, ps);
      WithoutLast(m, qs);
      ListingUnique(m - {ps[k].0}, ps[..k], qs[..k]);
      assert ps == ps[..k] + [ps[k]] && qs == qs[..k] + [qs[k]];
    }
  }

  lemma SameLast(m: Matching, ps: seq<(nat, nat)>, qs: seq<(nat, nat)>)
    requires Lists(m, ps) && Lists(m, qs) && ps != []
    ensures ps[|ps| - 1] == qs[|qs| - 1]
  {
    LastListed(m, ps);
    LastListed(m, qs);
  }

  lemma LastListed(m: Matching, ps: seq<(nat, nat)>)
    requires Lists(m, ps) && ps != []
    ensures forall k :: k in m ==> k <= ps[|ps| - 1].0
  {
    ListedAll(m, ps);
  }

  lemma ListedAll(m: Matching, ps: seq<(nat, nat)>)
    requires Lists(m, ps)
    ensures forall k :: k in m ==> exists n :: 0 <= n < |ps| && ps[n].0 == k
  {
    var keys := set n | 0 <= n < |ps| :: ps[n].0;
    KeyCount(ps);
    assert keys <= m.Keys;
    SubsetAll(keys, m.Keys);
  }

  lemma SubsetAll(a: set<nat>, b: set<nat>)
    requires a <= b && |a| == |b|
    ensures a == b
  {
    assert b == a + (b - a) && |b| == |a| + |b - a|;
  }

  lemma {:induction false} KeyCount(ps: seq<(nat, nat)>)
    requires forall n, l :: 0 <= n < l < |ps| ==> ps[n].0 < ps[l].0
    ensures |set n | 0 <= n < |ps| :: ps[n].0| == |ps|
  {
    var keys := set n | 0 <= n < |ps| :: ps[n].0;
    if ps == [] {
      assert keys == {};
    } else {
      var k := |ps| - 1;
      KeyCount(ps[..k]);
      assert keys == (set n | 0 <= n < |ps[..k]| :: ps[..k][n].0) + {ps[k].0};
    }
  }

  // --- leftmost in ours or theirs ---

  /** No longest subsequence: another one, then a whole longest one strictly after its head. */
  lemma NoJoin<T>(o: seq<T>, x: seq<T>, ps: seq<(nat, nat)>, qs: seq<(nat, nat)>, n: nat, i: nat, j: nat)
    requires i <= |o| && j <= |x| && CommonSubsequence(o, x, ps, i, j) && CommonSubsequence(o, x, qs, i, j)
    requires |ps| == LcsLen(o, x, i, j) && |qs| == |ps| && n < |ps|
    ensures !(qs[n].0 < ps[n].0 && qs[n].1 < ps[n].1)
  {
    if qs[n].0 < ps[n].0 && qs[n].1 < ps[n].1 {
      var longer := qs[..n + 1] + ps[n..];
      Spliced(o, x, qs, ps, n + 1, n, i, j);
      NoLongerSubsequence(o, x, longer, i, j);
      assert false;
    }
  }

  /** The first k pairs of one common subsequence and those of another from n on, if they follow. */
  lemma Spliced<T>(
      o: seq<T>, x: seq<T>, ps: seq<(nat, nat)>, qs: seq<(nat, nat)>, k: nat, n: nat, i: nat, j: nat)
    requires CommonSubsequence(o, x, ps, i, j) && CommonSubsequence(o, x, qs, i, j) && 0 < k <= |ps| && n <= |qs|
    requires n < |qs| ==> ps[k - 1].0 < qs[n].0 && ps[k - 1].1 < qs[n].1
    ensures CommonSubsequence(o, x, ps[..k] + qs[n..], i, j)
  {
    var t := ps[..k] + qs[n..];
    forall a, b | 0 <= a < b < |t| ensures t[a].0 < t[b].0 && t[a].1 < t[b].1 {
      if a < k <= b {
        assert t[b] == qs[n + (b - k)] && t[a] == ps[a];
        assert a < k - 1 ==> ps[a].0 < ps[k - 1].0 && ps[a].1 < ps[k - 1].1;
        assert b > k ==> qs[n].0 < qs[n + (b - k)].0 && qs[n].1 < qs[n + (b - k)].1;
      }
    }
  }

  /** The last position up to n at which ps is further down base than qs. */
  lemma LastBelow(ps: seq<(nat, nat)>, qs: seq<(nat, nat)>, n: nat) returns (m: nat)
    requires n < |ps| && n < |qs| && ps[0].0 > qs[0].0
    ensures m <= n && ps[m].0 > qs[m].0 && (m < n ==> ps[m + 1].0 <= qs[m + 1].0)
  {
    m := n;
    while ps[m].0 <= qs[m].0
      invariant m <= n && (m < n ==> ps[m + 1].0 <= qs[m + 1].0)
      decreases m
    {
      m := m - 1;
    }
  }

  /** Where the two cross, the one is followed by the rest of the other. */
  lemma Crossed<T>(
      o: seq<T>, x: seq<T>, ps: seq<(nat, nat)>, qs: seq<(nat, nat)>, m: nat, n: nat, i: nat, j: nat)
    requires i < |o| && j <= |x| && CommonSubsequence(o, x, ps, i + 1, j) && CommonSubsequence(o, x, qs, i, j)
    requires |qs| == |ps| && m < n < |ps| && ps[m].1 <= qs[m].1 && ps[m + 1].0 <= qs[m + 1].0
    requires Leftmost(o, x, ps, i + 1, j)
    ensures ps[n].1 <= qs[n].1
  {
    var t := ps[..m + 1] + qs[m + 1..];
    StartsAt(o, x, ps, i + 1, j, i, j);
    assert ps[m].0 < ps[m + 1].0 && qs[m].1 < qs[m + 1].1;
    Spliced(o, x, ps, qs, m + 1, m + 1, i, j);
    assert t[n] == qs[n] && t[0] == ps[0];
    StartsAt(o, x, t, i, j, i + 1, j);
  }

  /** A subsequence that takes the very base line that is skipped is no further left. */
  lemma Crossing<T>(o: seq<T>, x: seq<T>, ps: seq<(nat, nat)>, qs: seq<(nat, nat)>, n: nat, i: nat, j: nat)
    requires i < |o| && j <= |x| && CommonSubsequence(o, x, ps, i + 1, j) && CommonSubsequence(o, x, qs, i, j)
    requires |ps| == LcsLen(o, x, i, j) && |qs| == |ps| && n < |ps| && qs[0].0 == i
    requires Leftmost(o, x, ps, i + 1, j)
    ensures ps[n].1 <= qs[n].1
  {
    var m := LastBelow(ps, qs, n);
    StartsAt(o, x, ps, i + 1, j, i, j);
    NoJoin(o, x, ps, qs, m, i, j);
    if m < n { Crossed(o, x, ps, qs, m, n, i, j); }
  }

  lemma {:induction false} TraceLeftmost<T>(o: seq<T>, x: seq<T>, i: nat, j: nat)
    requires i <= |o| && j <= |x|
    ensures Leftmost(o, x, Pairs(o, x, i, j), i, j)
    decreases |o| - i + |x| - j
  {
    PairsListed(o, x, i, j);
    if i == |o| || j == |x| {
    } else if o[i] == x[j] {
      TraceLeftmost(o, x, i + 1, j + 1);
      LeftmostCons(o, x, i, j);
    } else if LcsLen(o, x, i + 1, j) >= LcsLen(o, x, i, j + 1) {
      TraceLeftmost(o, x, i + 1, j);
      LeftmostDown(o, x, i, j);
    } else {
      TraceLeftmost(o, x, i, j + 1);
      LeftmostRight(o, x, i, j);
    }
  }

  lemma LeftmostCons<T>(o: seq<T>, x: seq<T>, i: nat, j: nat)
    requires i < |o| && j < |x| && o[i] == x[j] && Leftmost(o, x, Pairs(o, x, i + 1, j + 1), i + 1, j + 1)
    ensures Leftmost(o, x, Pairs(o, x, i, j), i, j)
  {
    var ps := Pairs(o, x, i, j);
    forall qs: seq<(nat, nat)>, n | CommonSubsequence(o, x, qs, i, j) && |qs| == |ps| && 0 <= n < |ps|
      ensures ps[n].1 <= qs[n].1
    {
      if n > 0 {
        WithoutFirst(o, x, qs, i, j);
        StartsAt(o, x, qs[1..], qs[0].0 + 1, qs[0].1 + 1, i + 1, j + 1);
        assert ps[n] == Pairs(o, x, i + 1, j + 1)[n - 1] && qs[n] == qs[1..][n - 1];
      }
    }
  }

  lemma LeftmostDown<T>(o: seq<T>, x: seq<T>, i: nat, j: nat)
    requires i < |o| && j < |x| && o[i] != x[j] && LcsLen(o, x, i + 1, j) >= LcsLen(o, x, i, j + 1)
    requires Leftmost(o, x, Pairs(o, x, i + 1, j), i + 1, j)
    ensures Leftmost(o, x, Pairs(o, x, i, j), i, j)
  {
    var ps := Pairs(o, x, i, j);
    PairsListed(o, x, i + 1, j);
    forall qs: seq<(nat, nat)>, n | CommonSubsequence(o, x, qs, i, j) && |qs| == |ps| && 0 <= n < |ps|
      ensures ps[n].1 <= qs[n].1
    {
      if qs[0].0 == i {
        Crossing(o, x, ps, qs, n, i, j);
      } else {
        StartsAt(o, x, qs, i, j, i + 1, j);
      }
    }
  }

  lemma RightSkipped<T>(o: seq<T>, x: seq<T>, qs: seq<(nat, nat)>, i: nat, j: nat)
    requires i < |o| && j < |x| && o[i] != x[j] && LcsLen(o, x, i + 1, j) < LcsLen(o, x, i, j + 1)
    requires CommonSubsequence(o, x, qs, i, j) && |qs| == LcsLen(o, x, i, j)
    ensures CommonSubsequence(o, x, qs, i, j + 1)
  {
    if qs != [] && qs[0].1 == j {
      StartsAt(o, x, qs, i, j, i + 1, j);
      NoLongerSubsequence(o, x, qs, i + 1, j);
      assert false;
    }
    StartsAt(o, x, qs, i, j, i, j + 1);
  }

  lemma LeftmostRight<T>(o: seq<T>, x: seq<T>, i: nat, j: nat)
    requires i < |o| && j < |x| && o[i] != x[j] && LcsLen(o, x, i + 1, j) < LcsLen(o, x, i, j + 1)
    requires Leftmost(o, x, Pairs(o, x, i, j + 1), i, j + 1)
    ensures Leftmost(o, x, Pairs(o, x, i, j), i, j)
  {
    var ps := Pairs(o, x, i, j);
    PairsListed(o, x, i, j + 1);
    forall qs: seq<(nat, nat)>, n | CommonSubsequence(o, x, qs, i, j) && |qs| == |ps| && 0 <= n < |ps|
      ensures ps[n].1 <= qs[n].1
    {
      RightSkipped(o, x, qs, i, j);
    }
  }

  /** Of all longest common subsequences, the match map takes in every place the earliest line of ours or theirs. */
  lemma MatchLeftmost<T>(o: seq<T>, x: seq<T>, ps: seq<(nat, nat)>, qs: seq<(nat, nat)>)
    requires Lists(MatchOf(o, x), ps)
    requires CommonSubsequence(o, x, qs, 0, 0) && |qs| == |MatchOf(o, x)|
    ensures forall n :: 0 <= n < |ps| ==> ps[n].1 <= qs[n].1
  {
    PairsListed(o, x, 0, 0);
    TraceLeftmost(o, x, 0, 0);
    ListingUnique(MatchOf(o, x), ps, Pairs(o, x, 0, 0));
  }

  // --- the side of base ---

  /** No common subsequence from (i, j) has more pairs. */
  ghost predicate Longest<T>(o: seq<T>, x: seq<T>, n: int, i: nat, j: nat) {
    forall qs: seq<(nat, nat)> :: CommonSubsequence(o, x, qs, i, j) ==> |qs| <= n
  }

  /**
   * The first of n pairs. Where it matches the next line of x, it is with the first base line
   * equal to it; where it passes lines of x over, no n pairs can be had from further down base.
   */
  ghost predicate BaseRule<T>(o: seq<T>, x: seq<T>, first: (nat, nat), n: nat, i: nat, j: nat)
    requires j < |x| && i <= first.0 <= |o|
  {
    && (first.1 == j ==> forall h :: i <= h < first.0 ==> o[h] != x[j])
    && (first.1 > j ==> Longest(o, x, n - 1, first.0 + 1, j))
  }

  /** Where the n-th pair is looked for: after the pair before it. */
  function After(ps: seq<(nat, nat)>, n: nat, i: nat, j: nat): (nat, nat)
    requires n <= |ps|
  {
    if n == 0 then (i, j) else (ps[n - 1].0 + 1, ps[n - 1].1 + 1)
  }

  ghost predicate RuleAt<T>(o: seq<T>, x: seq<T>, ps: seq<(nat, nat)>, n: nat, i: nat, j: nat)
    requires CommonSubsequence(o, x, ps, i, j) && n < |ps|
  {
    var from := After(ps, n, i, j);
    assert n > 0 ==> ps[n - 1].0 < ps[n].0 && ps[n - 1].1 < ps[n].1;
    BaseRule(o, x, ps[n], |ps| - n, from.0, from.1)
  }

  ghost predicate Rules<T>(o: seq<T>, x: seq<T>, ps: seq<(nat, nat)>, i: nat, j: nat)
    requires CommonSubsequence(o, x, ps, i, j)
  {
    forall n :: 0 <= n < |ps| ==> RuleAt(o, x, ps, n, i, j)
  }

  lemma PairsLongest<T>(o: seq<T>, x: seq<T>, i: nat, j: nat)
    requires i <= |o| && j <= |x|
    ensures CommonSubsequence(o, x, Pairs(o, x, i, j), i, j) && Longest(o, x, |Pairs(o, x, i, j)|, i, j)
  {
    PairsListed(o, x, i, j);
    forall qs: seq<(nat, nat)> | CommonSubsequence(o, x, qs, i, j) ensures |qs| <= |Pairs(o, x, i, j)| {
      NoLongerSubsequence(o, x, qs, i, j);
    }
  }

  lemma RuleDown<T>(o: seq<T>, x: seq<T>, ps: seq<(nat, nat)>, i: nat, j: nat)
    requires i < |o| && j < |x| && o[i] != x[j] && ps != []
    requires CommonSubsequence(o, x, ps, i + 1, j) && BaseRule(o, x, ps[0], |ps|, i + 1, j)
    ensures BaseRule(o, x, ps[0], |ps|, i, j)
  {
  }

  lemma RuleRight<T>(o: seq<T>, x: seq<T>, i: nat, j: nat)
    requires i < |o| && j < |x| && o[i] != x[j] && LcsLen(o, x, i + 1, j) < LcsLen(o, x, i, j + 1)
    requires Pairs(o, x, i, j + 1) != []
    ensures var ps := Pairs(o, x, i, j + 1); i <= ps[0].0 <= |o| && BaseRule(o, x, ps[0], |ps|, i, j)
  {
    var ps := Pairs(o, x, i, j + 1);
    PairsListed(o, x, i, j + 1);
    forall qs: seq<(nat, nat)> | CommonSubsequence(o, x, qs, ps[0].0 + 1, j) ensures |qs| <= |ps| - 1 {
      StartsAt(o, x, qs, ps[0].0 + 1, j, i + 1, j);
      NoLongerSubsequence(o, x, qs, i + 1, j);
    }
  }

  lemma RulesCons<T>(o: seq<T>, x: seq<T>, ps: seq<(nat, nat)>, i: nat, j: nat)
    requires i < |o| && j < |x| && o[i] == x[j]
    requires CommonSubsequence(o, x, ps, i + 1, j + 1) && Rules(o, x, ps, i + 1, j + 1)
    requires CommonSubsequence(o, x, [(i, j)] + ps, i, j)
    ensures Rules(o, x, [(i, j)] + ps, i, j)
  {
    var qs := [(i, j)] + ps;
    forall n | 0 <= n < |qs| ensures RuleAt(o, x, qs, n, i, j) {
      if n > 0 {
        assert RuleAt(o, x, ps, n - 1, i + 1, j + 1);
        assert qs[n] == ps[n - 1] && After(qs, n, i, j) == After(ps, n - 1, i + 1, j + 1);
      }
    }
  }

  /** Only the first rule depends on where the search starts. */
  lemma RulesMoved<T>(o: seq<T>, x: seq<T>, ps: seq<(nat, nat)>, i: nat, j: nat, k: nat, l: nat)
    requires CommonSubsequence(o, x, ps, i, j) && CommonSubsequence(o, x, ps, k, l) && Rules(o, x, ps, i, j)
    requires ps != [] ==> RuleAt(o, x, ps, 0, k, l)
    ensures Rules(o, x, ps, k, l)
  {
    forall n | 0 <= n < |ps| ensures RuleAt(o, x, ps, n, k, l) {
      assert RuleAt(o, x, ps, n, i, j);
    }
  }

  lemma {:induction false} TraceRules<T>(o: seq<T>, x: seq<T>, i: nat, j: nat)
    requires i <= |o| && j <= |x|
    ensures CommonSubsequence(o, x, Pairs(o, x, i, j), i, j) && Rules(o, x, Pairs(o, x, i, j), i, j)
    decreases |o| - i + |x| - j
  {
    PairsLongest(o, x, i, j);
    if i == |o| || j == |x| {
    } else if o[i] == x[j] {
      TraceRules(o, x, i + 1, j + 1);
      RulesCons(o, x, Pairs(o, x, i + 1, j + 1), i, j);
    } else if LcsLen(o, x, i + 1, j) >= LcsLen(o, x, i, j + 1) {
      TraceRules(o, x, i + 1, j);
      RulesDown(o, x, Pairs(o, x, i + 1, j), i, j);
    } else {
      TraceRules(o, x, i, j + 1);
      RulesRight(o, x, i, j);
    }
  }

  lemma RulesDown<T>(o: seq<T>, x: seq<T>, ps: seq<(nat, nat)>, i: nat, j: nat)
    requires i < |o| && j < |x| && o[i] != x[j]
    requires CommonSubsequence(o, x, ps, i + 1, j) && CommonSubsequence(o, x, ps, i, j) && Rules(o, x, ps, i + 1, j)
    ensures Rules(o, x, ps, i, j)
  {
    if ps != [] {
      assert RuleAt(o, x, ps, 0, i + 1, j);
      RuleDown(o, x, ps, i, j);
    }
    RulesMoved(o, x, ps, i + 1, j, i, j);
  }

  lemma RulesRight<T>(o: seq<T>, x: seq<T>, i: nat, j: nat)
    requires i < |o| && j < |x| && o[i] != x[j] && LcsLen(o, x, i + 1, j) < LcsLen(o, x, i, j + 1)
    requires var ps := Pairs(o, x, i, j + 1);
             && CommonSubsequence(o, x, ps, i, j + 1) && CommonSubsequence(o, x, ps, i, j)
             && Rules(o, x, ps, i, j + 1)
    ensures Rules(o, x, Pairs(o, x, i, j + 1), i, j)
  {
    var ps := Pairs(o, x, i, j + 1);
    if ps != [] { RuleRight(o, x, i, j); }
    RulesMoved(o, x, ps, i, j + 1, i, j);
  }

  /** A longest common subsequence, leftmost in x, that keeps the rule for base at every pair. */
  ghost predicate Determined<T>(o: seq<T>, x: seq<T>, ps: seq<(nat, nat)>) {
    && CommonSubsequence(o, x, ps, 0, 0) && Longest(o, x, |ps|, 0, 0)
    && Leftmost(o, x, ps, 0, 0) && Rules(o, x, ps, 0, 0)
  }

  /** The pairs from the n-th on, as a common subsequence from anywhere before them. */
  lemma RestFrom<T>(o: seq<T>, x: seq<T>, ps: seq<(nat, nat)>, n: nat, k: nat, l: nat)
    requires CommonSubsequence(o, x, ps, 0, 0) && n < |ps| && ps[n].0 >= k && ps[n].1 >= l
    ensures CommonSubsequence(o, x, ps[n..], k, l)
  {
    var rest := ps[n..];
    forall h | 0 <= h < |rest| ensures rest[h] == ps[n + h] && k <= rest[h].0 && l <= rest[h].1 {
      assert h > 0 ==> ps[n].0 < ps[n + h].0 && ps[n].1 < ps[n + h].1;
    }
    forall g, h | 0 <= g < h < |rest| ensures rest[g].0 < rest[h].0 && rest[g].1 < rest[h].1 {
      assert ps[n + g].0 < ps[n + h].0 && ps[n + g].1 < ps[n + h].1;
    }
  }

  /** Equal up to the n-th pair, and in x at it, the n-th pair of ps is no further up base. */
  lemma NotFurther<T>(o: seq<T>, x: seq<T>, ps: seq<(nat, nat)>, qs: seq<(nat, nat)>, n: nat)
    requires CommonSubsequence(o, x, ps, 0, 0) && CommonSubsequence(o, x, qs, 0, 0) && |ps| == |qs| && n < |ps|
    requires After(ps, n, 0, 0) == After(qs, n, 0, 0) && ps[n].1 == qs[n].1
    requires RuleAt(o, x, ps, n, 0, 0) && RuleAt(o, x, qs, n, 0, 0)
    ensures qs[n].0 <= ps[n].0
  {
    var from := After(ps, n, 0, 0);
    assert n > 0 ==> ps[n - 1].0 < ps[n].0 && ps[n - 1].1 < ps[n].1;
    assert o[ps[n].0] == x[ps[n].1];
    if qs[n].0 > ps[n].0 && ps[n].1 > from.1 {
      RestFrom(o, x, qs, n, ps[n].0 + 1, from.1);
    }
  }

  lemma {:induction false} SameUpTo<T>(o: seq<T>, x: seq<T>, ps: seq<(nat, nat)>, qs: seq<(nat, nat)>, n: nat)
    requires CommonSubsequence(o, x, ps, 0, 0) && CommonSubsequence(o, x, qs, 0, 0) && |ps| == |qs| && n <= |ps|
    requires Rules(o, x, ps, 0, 0) && Rules(o, x, qs, 0, 0)
    requires forall h :: 0 <= h < |ps| ==> ps[h].1 == qs[h].1
    ensures forall h :: 0 <= h < n ==> ps[h] == qs[h]
    decreases n
  {
    if n > 0 {
      SameUpTo(o, x, ps, qs, n - 1);
      assert RuleAt(o, x, ps, n - 1, 0, 0) && RuleAt(o, x, qs, n - 1, 0, 0);
      NotFurther(o, x, ps, qs, n - 1);
      NotFurther(o, x, qs, ps, n - 1);
    }
  }

  lemma OnlyOne<T>(o: seq<T>, x: seq<T>, ps: seq<(nat, nat)>, qs: seq<(nat, nat)>)
    requires Determined(o, x, ps) && Determined(o, x, qs)
    ensures ps == qs
  {
    assert |ps| == |qs|;
    forall h | 0 <= h < |ps| ensures ps[h].1 == qs[h].1 {
      assert ps[h].1 <= qs[h].1 && qs[h].1 <= ps[h].1;
    }
    SameUpTo(o, x, ps, qs, |ps|);
  }

  /**
   * The match map is determined without its algorithm: a list of pairs lists it exactly when it
   * is longest, leftmost in x and in keeping with the rule for base.
   */
  lemma MatchDetermined<T>(o: seq<T>, x: seq<T>, ps: seq<(nat, nat)>)
    ensures Lists(MatchOf(o, x), ps) <==> Determined(o, x, ps)
  {
    PairsListed(o, x, 0, 0);
    PairsLongest(o, x, 0, 0);
    TraceLeftmost(o, x, 0, 0);
    TraceRules(o, x, 0, 0);
    if Lists(MatchOf(o, x), ps) {
      ListingUnique(MatchOf(o, x), ps, Pairs(o, x, 0, 0));
    }
    if Determined(o, x, ps) {
      OnlyOne(o, x, ps, Pairs(o, x, 0, 0));
    }
  }
}
