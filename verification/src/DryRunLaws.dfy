/** What a worktree dry run does: deletions are not held back (worktree.go, lines 258-346). */
module DryRunLaws {
  import opened Options
  import opened Ledger
  import opened Decision
  import opened Trails
  import opened LoopLaws
  import opened RunLaws
  import opened EditLaws

  ghost predicate Rehearsal(env: Env, s: State, paths: seq<Path>) {
    && env.dryRun
    && env.localSnap == ScanOf(s.local) && env.remoteSnap == ScanOf(s.remote)
    && Distinct(paths)
  }

  lemma DryPerform(env: Env, s: State, p: Path, act: Action, q: Path)
    requires env.dryRun
    ensures var t := Perform(env, s, p, act);
            && t.blobs == s.blobs
            && (q != p ==> SlotAt(t, q) == SlotAt(s, q))
            && t.local == (if act.DropLocal? then s.local - {p} else s.local)
            && t.remote == (if act.DropRemote? then s.remote - {p} else s.remote)
  {
  }

  lemma DryStep(env: Env, s: State, p: Path, q: Path)
    requires env.dryRun
    ensures var t := Step(env, s, p); var act := Choose(env, CellAt(env, s, p));
            && t.blobs == s.blobs
            && (q != p ==> SlotAt(t, q) == SlotAt(s, q))
            && t.local == (if act.DropLocal? then s.local - {p} else s.local)
            && t.remote == (if act.DropRemote? then s.remote - {p} else s.remote)
  {
    var c := CellAt(env, s, p);
    DryPerform(env, ClearedTomb(s, p, c), p, Choose(env, c), q);
  }

  lemma {:induction false} DryBlobs(env: Env, s: State, paths: seq<Path>)
    requires env.dryRun
    ensures Loop(env, s, paths).blobs == s.blobs
  {
    if paths != [] {
      DryBlobs(env, s, paths[..|paths| - 1]);
      DryStep(env, Loop(env, s, paths[..|paths| - 1]), paths[|paths| - 1], "");
    }
  }

  lemma {:induction false} DryUntouched(env: Env, s: State, paths: seq<Path>, q: Path)
    requires env.dryRun && q !in paths
    ensures SlotAt(Loop(env, s, paths), q) == SlotAt(s, q) && Loop(env, s, paths).blobs == s.blobs
  {
    if paths != [] {
      DryUntouched(env, s, paths[..|paths| - 1], q);
      DryStep(env, Loop(env, s, paths[..|paths| - 1]), paths[|paths| - 1], q);
    }
  }

  /** Where a dry run leaves one path: deleted if its decision is a deletion, else untouched. */
  lemma {:induction false} DryRunHere(env: Env, s: State, paths: seq<Path>, q: Path)
    requires Rehearsal(env, s, paths) && q in paths
    ensures var f := Loop(env, s, paths); var act := Choose(env, CellAt(env, s, q));
            && Get(f.local, q) == (if act.DropLocal? then None else Get(s.local, q))
            && Get(f.remote, q) == (if act.DropRemote? then None else Get(s.remote, q))
  {
    var n := |paths| - 1;
    var init, p := paths[..n], paths[n];
    var t := Loop(env, s, init);
    if q == p {
      DryUntouched(env, s, init, p);
      DryStep(env, t, p, p);
      SameCell(env, s, t, p);
      SameReplicas(t, s, p);
    } else {
      assert q in init;
      DryRunHere(env, s, init, q);
      DryStep(env, t, p, q);
      SameReplicas(Loop(env, s, paths), t, q);
    }
  }

  lemma SameReplicas(t: State, s: State, p: Path)
    requires SlotAt(t, p) == SlotAt(s, p)
    ensures Get(t.local, p) == Get(s.local, p) && Get(t.remote, p) == Get(s.remote, p)
  {
  }

  function Dropped(env: Env, s: State, paths: seq<Path>): (set<Path>, set<Path>) {
    (set p | p in paths && Choose(env, CellAt(env, s, p)).DropLocal?,
     set p | p in paths && Choose(env, CellAt(env, s, p)).DropRemote?)
  }

  /** A dry run writes nothing, but every deletion it plans it carries out. */
  lemma DryRunDeletes(env: Env, s: State, paths: seq<Path>)
    requires Rehearsal(env, s, paths)
    ensures var f := Loop(env, s, paths);
            && f.local == s.local - Dropped(env, s, paths).0
            && f.remote == s.remote - Dropped(env, s, paths).1
  {
    var f := Loop(env, s, paths);
    var localGone, remoteGone := Dropped(env, s, paths).0, Dropped(env, s, paths).1;
    forall q
      ensures Get(f.local, q) == Get(s.local - localGone, q) && Get(f.remote, q) == Get(s.remote - remoteGone, q)
    {
      if q in paths {
        DryRunHere(env, s, paths, q);
      } else {
        DryUntouched(env, s, paths, q);
        SameReplicas(f, s, q);
      }
    }
    SameTree(f.local, s.local - localGone);
    SameTree(f.remote, s.remote - remoteGone);
  }

  lemma SameCell(env: Env, s: State, t: State, p: Path)
    requires SlotAt(t, p) == SlotAt(s, p) && t.blobs == s.blobs
    ensures CellAt(env, t, p) == CellAt(env, s, p)
  {
    assert Get(t.files, p) == Get(s.files, p);
  }

  /**
   * The path calls for a deletion: a stale re-creation, a local file that is as recorded and
   * gone from the hub, or a hub file that is as recorded, gone locally and known to the client.
   */
  ghost predicate CallsForDeletion(env: Env, s: State, p: Path) {
    || Stale(CellAt(env, s, p))
    || (p in s.local && p !in s.remote && p in s.files && s.files[p].hash == Sum(s.local[p]))
    || PlannedAt(env, s, p)
  }

  lemma DeletionCalledFor(env: Env, s: State, p: Path)
    requires env.localSnap == ScanOf(s.local) && env.remoteSnap == ScanOf(s.remote)
    ensures var act := Choose(env, CellAt(env, s, p));
            && (act.DropLocal? || act.DropRemote? <==> CallsForDeletion(env, s, p))
            && (act.DropLocal? ==> p in s.local)
            && (act.DropRemote? ==> p in s.remote && (Stale(CellAt(env, s, p)) || PlannedAt(env, s, p)))
  {
  }

  /** A dry run leaves both replicas alone exactly when no listed path calls for a deletion. */
  lemma DryRunPureIff(env: Env, s: State, paths: seq<Path>)
    requires Rehearsal(env, s, paths)
    ensures var f := Loop(env, s, paths);
            (f.local == s.local && f.remote == s.remote) <==>
            forall p :: p in paths ==> !CallsForDeletion(env, s, p)
  {
    DryRunDeletes(env, s, paths);
    forall p | p in paths
      ensures var act := Choose(env, CellAt(env, s, p));
              && (act.DropLocal? || act.DropRemote? <==> CallsForDeletion(env, s, p))
              && (act.DropLocal? ==> p in s.local) && (act.DropRemote? ==> p in s.remote)
    {
      DeletionCalledFor(env, s, p);
    }
  }

  /** Any part of a dry run takes off the hub only planned paths and stale re-creations. */
  lemma DryRemoved(env: Env, s: State, paths: seq<Path>, p: Path)
    requires Rehearsal(env, s, paths) && p in s.remote && p !in Loop(env, s, paths).remote
    ensures PlannedAt(env, s, p) || Stale(CellAt(env, s, p))
  {
    if p in paths {
      DryRunHere(env, s, paths, p);
      DeletionCalledFor(env, s, p);
    } else {
      DryUntouched(env, s, paths, p);
      SameReplicas(Loop(env, s, paths), s, p);
    }
  }

  lemma DryPartRemoved(env: Env, s: State, paths: seq<Path>, k: nat, operations: nat, q: Path)
    requires Rehearsal(env, s, paths) && k < |paths| && q in s.remote
    requires q in Loop(env, s, paths[..k]).remote && q !in Interrupted(env, s, paths, k, operations).remote
    ensures PlannedAt(env, s, q) || Stale(CellAt(env, s, q))
  {
    var t, p := Loop(env, s, paths[..k]), paths[k];
    PartRemoves(env, t, p, Choose(env, CellAt(env, t, p)), operations, q);
    DryUntouched(env, s, paths[..k], p);
    SameCell(env, s, t, p);
    DeletionCalledFor(env, s, p);
  }

  lemma DryStopRemoved(env: Env, s: State, paths: seq<Path>, k: nat, operations: nat, q: Path)
    requires Rehearsal(env, s, paths) && q in s.remote && q !in Interrupted(env, s, paths, k, operations).remote
    ensures PlannedAt(env, s, q) || Stale(CellAt(env, s, q))
  {
    if k >= |paths| {
      DryRemoved(env, s, paths, q);
    } else if q in Loop(env, s, paths[..k]).remote {
      DryPartRemoved(env, s, paths, k, operations, q);
    } else {
      DryRemoved(env, s, paths[..k], q);
    }
  }

  /** "a" is gone from the hub and "b" from the client; a dry run removes the other copy of each. */
  lemma DryRunExample(stamp: string)
    ensures var files := map["a" := FileEntry(Sum("x"), 1), "b" := FileEntry(Sum("y"), 1)];
            var s := State(map["a" := "x"], map["b" := "y"], map[Sum("x") := "x", Sum("y") := "y"], files, map[], []);
            var env := Env(ScanOf(s.local), ScanOf(s.remote), 2, 1, stamp, true, false);
            && Rehearsal(env, s, ["a", "b"])
            && Loop(env, s, ["a", "b"]).local == map[] && Loop(env, s, ["a", "b"]).remote == map[]
  {
    var files := map["a" := FileEntry(Sum("x"), 1), "b" := FileEntry(Sum("y"), 1)];
    var s := State(map["a" := "x"], map["b" := "y"], map[Sum("x") := "x", Sum("y") := "y"], files, map[], []);
    var env := Env(ScanOf(s.local), ScanOf(s.remote), 2, 1, stamp, true, false);
    DryRunDeletes(env, s, ["a", "b"]);
    assert Choose(env, CellAt(env, s, "a")) == DropLocal && Choose(env, CellAt(env, s, "b")) == DropRemote;
    assert "a" in ["a", "b"] && "b" in ["a", "b"];
  }
}
