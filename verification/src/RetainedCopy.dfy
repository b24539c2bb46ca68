/** Copy, rank, confirm, delete (internal/runner/runner.go, runRetainedCopy). */
module RetainedCopy {
  type Path = string

  /** Times are integers, in nanoseconds. */
  datatype File = File(content: string, modTime: int)
  datatype FileState = FileState(size: nat, modTime: int)

  type Store = map<Path, File>
  type Snapshot = map<Path, FileState>

  const TOLERANCE: int := 2_000_000_000
  const DAY: int := 86_400_000_000_000

  function StateOf(f: File): FileState {
    FileState(|f.content|, f.modTime)
  }

  function ScanOf(s: Store): Snapshot {
    map p | p in s :: StateOf(s[p])
  }

  predicate SameTime(a: int, b: int) {
    (if a < b then b - a else a - b) <= TOLERANCE
  }

  predicate SameFile(a: FileState, b: FileState) {
    a.size == b.size && SameTime(a.modTime, b.modTime)
  }

  /** The destination already holds the file, as far as size and time tell. */
  predicate Present(snap: Snapshot, p: Path, f: FileState) {
    p in snap && SameFile(f, snap[p])
  }

  /** The destination after copying what it lacks. */
  function Copied(src: Store, dst: Store): Store {
    CopiedOf(src, dst, src.Keys)
  }

  /** The destination once the paths in done have been looked at. */
  function CopiedOf(src: Store, dst: Store, done: set<Path>): Store {
    dst + map p | p in src && p in done && !Present(ScanOf(dst), p, StateOf(src[p])) :: src[p]
  }

  lemma CopiedNext(src: Store, dst: Store, done: set<Path>, p: Path)
    requires p in src
    ensures CopiedOf(src, dst, done + {p}) ==
            if Present(ScanOf(dst), p, StateOf(src[p])) then CopiedOf(src, dst, done)
            else CopiedOf(src, dst, done)[p := src[p]]
  {
  }

  /** Equal size, and times at most two seconds apart. */
  predicate Alike(a: File, b: File) {
    |a.content| == |b.content| && -2_000_000_000 <= a.modTime - b.modTime <= 2_000_000_000
  }

  /** The program's own test says the same. */
  lemma AlikeIsSameFile(a: File, b: File)
    ensures SameFile(StateOf(a), StateOf(b)) <==> Alike(a, b)
  {
  }

  /**
   * What a copy makes of the remote: files that local lacks stay, files that are alike stay,
   * every other local file is there as local has it, and nothing else is there.
   */
  ghost predicate CopiedOver(local: Store, before: Store, after: Store) {
    && (forall p :: p in after <==> p in before || p in local)
    && (forall p :: p in before && p !in local ==> after[p] == before[p])
    && (forall p :: p in before && p in local && Alike(local[p], before[p]) ==> after[p] == before[p])
    && (forall p :: p in local && !(p in before && Alike(local[p], before[p])) ==> after[p] == local[p])
  }

  lemma CopiedIsOver(local: Store, before: Store)
    ensures CopiedOver(local, before, Copied(local, before))
  {
    forall p | p in local && p in before
      ensures SameFile(StateOf(local[p]), StateOf(before[p])) <==> Alike(local[p], before[p])
    {
      AlikeIsSameFile(local[p], before[p]);
    }
  }

  // --- ranking ---

  datatype KeepRule = KeepRule(matches: Path -> bool, keep: int)

  function MatchesOf(snap: Snapshot, rule: KeepRule): set<Path> {
    set p | p in snap && rule.matches(p)
  }

  /** gone is what one keep-latest rule may nominate: all but keep matches, none newer than a kept one. */
  ghost predicate Nominates(snap: Snapshot, rule: KeepRule, gone: set<Path>) {
    var all := MatchesOf(snap, rule);
    if rule.keep < 1 then gone == {}
    else
      && gone <= all
      && |all - gone| == (if |all| < rule.keep then |all| else rule.keep)
      && forall g, k :: g in gone && k in all - gone ==> snap[g].modTime <= snap[k].modTime
  }

  /** The newest match of a rule is never nominated. */
  lemma NewestSpared(snap: Snapshot, rule: KeepRule, gone: set<Path>, p: Path)
    requires Nominates(snap, rule, gone) && p in snap && rule.matches(p)
    requires forall q :: q in snap && rule.matches(q) && q != p ==> snap[q].modTime < snap[p].modTime
    ensures p !in gone
  {
    var all := MatchesOf(snap, rule);
    if rule.keep >= 1 {
      SomeKept(all, gone, p);
      var k :| k in all - gone;
    }
  }

  lemma SomeKept(all: set<Path>, gone: set<Path>, p: Path)
    requires p in all && |all - gone| >= (if |all| < 1 then |all| else 1)
    ensures all - gone != {}
  {
    assert all == {p} + (all - {p});
  }

  /** A rule nominates nothing if it keeps none, and else all its matches but as many as it keeps. */
  lemma NominationsCounted(snap: Snapshot, rule: KeepRule, gone: set<Path>)
    requires Nominates(snap, rule, gone)
    ensures var n := |MatchesOf(snap, rule)|;
            |gone| == if rule.keep < 1 || n <= rule.keep then 0 else n - rule.keep
    ensures forall q :: q in gone ==> q in snap && rule.matches(q)
  {
    var all := MatchesOf(snap, rule);
    if rule.keep >= 1 {
      assert all == gone + (all - gone);
    }
  }

  ghost predicate Ranked(snap: Snapshot, ranked: seq<Path>) {
    && (forall p :: p in ranked ==> p in snap)
    && (forall i, j :: 0 <= i < j < |ranked| ==>
          ranked[i] != ranked[j] && snap[ranked[i]].modTime >= snap[ranked[j]].modTime)
  }

  lemma NewestExists(snap: Snapshot, left: set<Path>)
    requires left != {} && left <= snap.Keys
    ensures exists p :: p in left && forall q :: q in left ==> snap[q].modTime <= snap[p].modTime
  {
    var p :| p in left;
    if left != {p} {
      NewestExists(snap, left - {p});
      var m :| m in left - {p} && forall q :: q in left - {p} ==> snap[q].modTime <= snap[m].modTime;
      var best := if snap[p].modTime <= snap[m].modTime then m else p;
      assert best in left && forall q :: q in left ==> snap[q].modTime <= snap[best].modTime;
    }
  }

  /** The matches newest first; equal times in any order, as an unstable sort leaves them. */
  method RankNewest(snap: Snapshot, matches: set<Path>) returns (ranked: seq<Path>)
    requires matches <= snap.Keys
    ensures Ranked(snap, ranked)
    ensures forall p :: p in ranked <==> p in matches
    ensures |ranked| == |matches|
  {
    ranked := [];
    var left := matches;
    while left != {}
      invariant left <= matches
      invariant Ranked(snap, ranked) && |ranked| + |left| == |matches|
      invariant forall p :: p in ranked <==> p in matches - left
      invariant forall p, q :: p in ranked && q in left ==> snap[q].modTime <= snap[p].modTime
      decreases left
    {
      NewestExists(snap, left);
      var p :| p in left && forall q :: q in left ==> snap[q].modTime <= snap[p].modTime;
      RankedAppend(snap, ranked, p);
      ranked := ranked + [p];
      left := left - {p};
    }
  }

  lemma RankedAppend(snap: Snapshot, ranked: seq<Path>, p: Path)
    requires Ranked(snap, ranked) && p in snap && p !in ranked
    requires forall q :: q in ranked ==> snap[p].modTime <= snap[q].modTime
    ensures Ranked(snap, ranked + [p])
  {
  }

  /** One rule's nominations: what the ranking holds from position keep on. */
  method NominateByRule(snap: Snapshot, rule: KeepRule) returns (gone: seq<Path>)
    ensures Nominates(snap, rule, set p | p in gone)
  {
    gone := [];
    if rule.keep < 1 {
      assert (set p | p in gone) == {};
      return;
    }
    var all := MatchesOf(snap, rule);
    var ranked := RankNewest(snap, all);
    for idx := 0 to |ranked|
      invariant gone == if idx <= rule.keep then [] else ranked[rule.keep..idx]
    {
      if idx >= rule.keep {
        gone := gone + [ranked[idx]];
      }
    }
    assert gone == if |ranked| <= rule.keep then [] else ranked[rule.keep..];
    TailNominated(snap, rule, ranked, if |ranked| <= rule.keep then |ranked| else rule.keep);
  }

  lemma {:induction false} DistinctSize(xs: seq<Path>)
    requires forall i, j :: 0 <= i < j < |xs| ==> xs[i] != xs[j]
    ensures |set p | p in xs| == |xs|
  {
    if xs == [] {
      assert (set p | p in xs) == {};
    } else {
      var n := |xs| - 1;
      DistinctSize(xs[..n]);
      assert (set p | p in xs) == (set p | p in xs[..n]) + {xs[n]};
    }
  }

  lemma TailNominated(snap: Snapshot, rule: KeepRule, ranked: seq<Path>, n: nat)
    requires rule.keep >= 1 && Ranked(snap, ranked)
    requires forall p :: p in ranked <==> p in MatchesOf(snap, rule)
    requires |ranked| == |MatchesOf(snap, rule)| && n == if |ranked| <= rule.keep then |ranked| else rule.keep
    ensures Nominates(snap, rule, set p | p in ranked[n..])
  {
    var all, gone, kept := MatchesOf(snap, rule), set p | p in ranked[n..], set p | p in ranked[..n];
    assert all - gone == kept by { CutDisjoint(snap, ranked, n); }
    DistinctSize(ranked[..n]);
    forall g, k | g in gone && k in kept ensures snap[g].modTime <= snap[k].modTime {
      CutOrdered(snap, ranked, n, g, k);
    }
  }

  lemma CutDisjoint(snap: Snapshot, ranked: seq<Path>, n: nat)
    requires Ranked(snap, ranked) && n <= |ranked|
    ensures forall p :: p in ranked <==> p in ranked[..n] || p in ranked[n..]
    ensures forall p :: !(p in ranked[..n] && p in ranked[n..])
  {
    assert ranked == ranked[..n] + ranked[n..];
  }

  lemma CutOrdered(snap: Snapshot, ranked: seq<Path>, n: nat, g: Path, k: Path)
    requires Ranked(snap, ranked) && n <= |ranked| && g in ranked[n..] && k in ranked[..n]
    ensures g in snap && k in snap && snap[g].modTime <= snap[k].modTime
  {
    var i :| 0 <= i < n && ranked[..n][i] == k;
    var j :| 0 <= j < |ranked| - n && ranked[n..][j] == g;
    assert ranked[i] == k && ranked[n + j] == g;
  }

  ghost predicate Picked(picks: seq<set<Path>>, p: Path) {
    exists i :: 0 <= i < |picks| && p in picks[i]
  }

  lemma PicksExtend(picks: seq<set<Path>>, gone: seq<Path>, more: seq<Path>)
    requires forall p :: p in gone <==> Picked(picks, p)
    ensures forall p :: p in gone + more <==> Picked(picks + [set p | p in more], p)
  {
    var last := set p | p in more;
    forall p ensures p in gone + more <==> Picked(picks + [last], p) {
      if i :| 0 <= i < |picks| && p in picks[i] {
        assert p in (picks + [last])[i];
      }
      if p in more { assert p in (picks + [last])[|picks|]; }
    }
  }

  method KeepLatestCandidates(snap: Snapshot, rules: seq<KeepRule>)
    returns (gone: seq<Path>, ghost picks: seq<set<Path>>)
    ensures |picks| == |rules| && forall i :: 0 <= i < |rules| ==> Nominates(snap, rules[i], picks[i])
    ensures forall p :: p in gone <==> Picked(picks, p)
  {
    gone, picks := [], [];
    for r := 0 to |rules|
      invariant |picks| == r && forall i :: 0 <= i < r ==> Nominates(snap, rules[i], picks[i])
      invariant forall p :: p in gone <==> Picked(picks, p)
    {
      var more := NominateByRule(snap, rules[r]);
      PicksExtend(picks, gone, more);
      picks := picks + [set p | p in more];
      gone := gone + more;
    }
  }

  method RetentionCandidates(snap: Snapshot, cutoff: int) returns (expired: seq<Path>)
    ensures forall p :: p in expired <==> p in snap && snap[p].modTime < cutoff
  {
    expired := [];
    var left := snap.Keys;
    while left != {}
      invariant left <= snap.Keys
      invariant forall p :: p in expired <==> p in snap.Keys - left && snap[p].modTime < cutoff
      decreases left
    {
      var p :| p in left;
      if snap[p].modTime < cutoff {
        expired := expired + [p];
      }
      left := left - {p};
    }
  }

  // --- the job ---

  class Job {
    var local: Store
    var remote: Store

    constructor (local: Store, remote: Store)
      ensures this.local == local && this.remote == remote
    {
      this.local, this.remote := local, remote;
    }

    method CopyMissingOrChanged(dryRun: bool)
      modifies this`remote
      ensures remote == if dryRun then old(remote) else Copied(local, old(remote))
      ensures !dryRun ==> CopiedOver(local, old(remote), remote)
    {
      var srcSnap, dstSnap := ScanOf(local), ScanOf(remote);
      var left := srcSnap.Keys;
      ghost var before, done := remote, {};
      while left != {}
        invariant left <= local.Keys && done == local.Keys - left
        invariant remote == if dryRun then before else CopiedOf(local, before, done)
        decreases left
      {
        var p :| p in left;
        CopiedNext(local, before, done, p);
        left, done := left - {p}, done + {p};
        if !Present(dstSnap, p, srcSnap[p]) && !dryRun {
          remote := remote[p := File(local[p].content, srcSnap[p].modTime)];
        }
      }
      assert done == local.Keys;
      CopiedIsOver(local, old(remote));
    }

    /** The candidates that the remote confirms are removed from local, each once. */
    method SafeDeleteIfRemoteExists(localSnap: Snapshot, paths: seq<Path>, dryRun: bool)
      modifies this`local
      ensures local == if dryRun then old(local)
                       else
                         old(local)
                         - set p | p in paths && p in localSnap && Present(ScanOf(remote), p, localSnap[p])
    {
      var seen: set<Path> := {};
      ghost var gone: set<Path> := {};
      for i := 0 to |paths|
        invariant seen == set p | p in paths[..i]
        invariant gone == if dryRun then {}
                          else set p | p in seen && p in localSnap && Present(ScanOf(remote), p, localSnap[p])
        invariant local == old(local) - gone
      {
        var p := paths[i];
        assert paths[..i + 1] == paths[..i] + [p];
        if p !in seen && p in localSnap && p in remote && SameFile(localSnap[p], StateOf(remote[p])) && !dryRun {
          local := local - {p};
          gone := gone + {p};
        }
        seen := seen + {p};
      }
      assert paths[..|paths|] == paths;
    }

    /**
     * Copies, then prunes exactly what retention or a rule nominates; picks[i] is what rule i
     * nominates. now and days give the retention cutoff; zero days means no retention. What is
     * pruned keeps its content on the remote exactly if it was copied or already equal there:
     * equal size and close times alone confirm it, but do not make the contents equal.
     */
    method RunRetainedCopy(now: int, days: int, rules: seq<KeepRule>, dryRun: bool)
      returns (ghost picks: seq<set<Path>>, ghost gone: set<Path>)
      modifies this
      ensures dryRun ==> local == old(local) && remote == old(remote)
      ensures !dryRun ==> CopiedOver(old(local), old(remote), remote) && local == old(local) - gone
      ensures !dryRun ==> forall p :: p in old(local) ==> p in remote && Alike(old(local)[p], remote[p])
      ensures |picks| == |rules| && forall i :: 0 <= i < |rules| ==> Nominates(ScanOf(old(local)), rules[i], picks[i])
      ensures forall p :: p in gone <==>
                || (days > 0 && p in old(local) && old(local)[p].modTime < now - days * 86_400_000_000_000)
                || Picked(picks, p)
      ensures !dryRun ==> forall p :: p in gone ==>
                && p in old(local) && p in remote
                && (remote[p].content == old(local)[p].content <==>
                    || !(p in old(remote) && Alike(old(local)[p], old(remote)[p]))
                    || old(remote)[p].content == old(local)[p].content)
    {
      var snap := ScanOf(local);
      CopyMissingOrChanged(dryRun);
      var candidates: seq<Path> := [];
      if days > 0 {
        candidates := RetentionCandidates(snap, now - days * DAY);
      }
      var latest;
      latest, picks := KeepLatestCandidates(snap, rules);
      candidates := candidates + latest;
      gone := set p | p in candidates;
      CandidatesConfirmed(old(local), old(remote), snap, rules, picks, candidates);
      SafeDeleteIfRemoteExists(snap, candidates, dryRun);
      forall p | p in old(local) && !dryRun
        ensures p in remote && SameFile(StateOf(old(local)[p]), StateOf(remote[p]))
      {
        AllConfirmed(old(local), old(remote), p);
      }
      forall p | p in gone && !dryRun ensures p in old(local) {
        if i :| 0 <= i < |picks| && p in picks[i] {
          assert Nominates(snap, rules[i], picks[i]);
        }
      }
    }
  }

  /**
   * A file two days old whose namesake on the remote has the same size and nearly the same
   * time, but another text: it is confirmed, pruned, and its text is nowhere.
   */
  method PruneLosesText() returns (local: Store, remote: Store)
    ensures local == map[] && remote == map["a" := File("y", 1)]
  {
    var job := new Job(map["a" := File("x", 0)], map["a" := File("y", 1)]);
    ghost var picks, gone;
    picks, gone := job.RunRetainedCopy(2 * DAY, 1, [], false);
    assert gone == {"a"};
    local, remote := job.local, job.remote;
  }

  /** After the copy, the remote confirms every local file. */
  lemma AllConfirmed(src: Store, dst: Store, p: Path)
    requires p in src
    ensures p in Copied(src, dst) && SameFile(StateOf(src[p]), StateOf(Copied(src, dst)[p]))
  {
  }

  lemma CandidatesConfirmed(
      local: Store, remote: Store, snap: Snapshot, rules: seq<KeepRule>, picks: seq<set<Path>>, candidates: seq<Path>)
    requires snap == ScanOf(local)
    requires |picks| == |rules| && forall i :: 0 <= i < |rules| ==> Nominates(snap, rules[i], picks[i])
    requires forall p :: p in candidates ==> p in snap || Picked(picks, p)
    ensures (set p | p in candidates && p in snap && Present(ScanOf(Copied(local, remote)), p, snap[p])) ==
            set p | p in candidates
  {
    forall p | p in candidates ensures p in snap && Present(ScanOf(Copied(local, remote)), p, snap[p]) {
      if i :| 0 <= i < |picks| && p in picks[i] {
        assert Nominates(snap, rules[i], picks[i]);
      }
      AllConfirmed(local, remote, p);
    }
  }
}
