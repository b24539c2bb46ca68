/** The reconciler object of a worktree run (internal/runner/worktree.go, lines 126-359). */
module Reconciler {
  import opened Options
  import opened Ledger
  import BlobStore
  import M = Merge
  import opened Decision
  import opened Trails

  /** What a whole decision on p does to the run's state, and by which file operations. */
  ghost predicate Decided(env: Env, s: State, p: Path, s': State, done: seq<Files>) {
    s' == Step(env, s, p) && done == Trail(env, s, p, Choose(env, CellAt(env, s, p)))
  }

  /** A decision that the guard leaves open is the live decision, once the tombstone is cleared. */
  lemma GuardPassed(env: Env, s: State, p: Path)
    requires !Buried(CellAt(env, s, p)) || Recreated(CellAt(env, s, p))
    ensures var t := ClearedTomb(s, p, CellAt(env, s, p)); var act := ChooseLive(env, CellAt(env, t, p));
            && Choose(env, CellAt(env, s, p)) == act
            && Decided(env, s, p, Perform(env, t, p, act), Trail(env, t, p, act))
            && Known(CellAt(env, t, p)) == Known(CellAt(env, s, p))
  {
    var c := CellAt(env, s, p);
    CellWithoutTomb(env, s, p);
    LiveIgnoresTomb(env, c);
    TrailIgnoresMemory(env, s, ClearedTomb(s, p, c), p, Choose(env, c));
  }

  /** One that it handles leaves the tombstones to the action. */
  lemma GuardHandles(env: Env, s: State, p: Path)
    requires Buried(CellAt(env, s, p)) && !Recreated(CellAt(env, s, p))
    ensures var act := Choose(env, CellAt(env, s, p));
            !act.Fail? && Decided(env, s, p, Perform(env, s, p, act), Trail(env, s, p, act))
  {
  }

  class WtReconciler {
    const env: Env
    const hub: BlobStore.Store
    var local: Tree
    var remote: Tree
    var files: map<Path, FileEntry>
    var tombs: map<Path, Tombstone>
    var conflicts: seq<Path>
    /** What the disks held after each file operation so far. */
    ghost var trail: seq<Files>

    function View(): State
      reads this, hub
    {
      State(local, remote, hub.blobs, files, tombs, conflicts)
    }

    constructor (env: Env, hub: BlobStore.Store, local: Tree, remote: Tree, ledger: Ledger)
      ensures this.env == env && this.hub == hub
      ensures View() == State(local, remote, hub.blobs, ledger.files, ledger.tombstones, []) && trail == []
    {
      this.env, this.hub := env, hub;
      this.local, this.remote := local, remote;
      files, tombs, conflicts, trail := ledger.files, ledger.tombstones, [], [];
    }

    /** Resolves one path; not ok when a file it must read is missing (see FailureIsClean). */
    method Decide(p: Path) returns (ok: bool)
      modifies this, hub
      ensures ok <==> !Choose(env, CellAt(env, old(View()), p)).Fail?
      ensures |trail| >= |old(trail)| && trail[..|old(trail)|] == old(trail)
      ensures Decided(env, old(View()), p, View(), trail[|old(trail)|..])
    {
      var a, b := HashOf(env.localSnap, p), HashOf(env.remoteSnap, p);
      var l := if p in files then files[p].hash else NoHash;
      ghost var s := View();
      var handled := GuardTombstone(p, a, b, l);
      if handled {
        GuardHandles(env, s, p);
        return true;
      }
      GuardPassed(env, s, p);
      ok := DecideLive(p, a, b, l);
    }

    /** The tombstone guard: deletes a stale copy, or clears the tombstone of a re-created path. */
    method GuardTombstone(p: Path, a: Hash, b: Hash, l: Hash) returns (handled: bool)
      requires a == HashOf(env.localSnap, p) && b == HashOf(env.remoteSnap, p)
      requires l == Known(CellAt(env, View(), p))
      modifies this
      ensures var c := CellAt(env, old(View()), p);
              && (handled <==> Buried(c) && !Recreated(c))
              && View() == (if handled then Perform(env, old(View()), p, Choose(env, c))
                            else ClearedTomb(old(View()), p, c))
              && trail == old(trail) + if handled then Trail(env, old(View()), p, Choose(env, c)) else []
    {
      handled := false;
      if p in tombs && l == NoHash {
        var last := tombs[p].lastHash;
        if a == NoHash && b == NoHash {
          return true;
        } else if a == last && b == NoHash {
          DeleteLocal(p);
          return true;
        } else if b == last && a == NoHash {
          DeleteRemote(p);
          return true;
        }
        tombs := tombs - {p};
      }
    }

    /** The part of decide after the tombstone guard. */
    method DecideLive(p: Path, a: Hash, b: Hash, l: Hash) returns (ok: bool)
      requires a == HashOf(env.localSnap, p) && b == HashOf(env.remoteSnap, p)
      requires l == Known(CellAt(env, View(), p))
      modifies this, hub
      ensures ok <==> !ChooseLive(env, CellAt(env, old(View()), p)).Fail?
      ensures View() == Perform(env, old(View()), p, ChooseLive(env, CellAt(env, old(View()), p)))
      ensures trail == old(trail) + Trail(env, old(View()), p, ChooseLive(env, CellAt(env, old(View()), p)))
    {
      if a == b {
        ok := DecideConverged(p, a, l);
      } else if a == l {
        if b == NoHash {
          DeleteLocal(p);
          return true;
        }
        ok := CopyToLocal(p);
      } else if b == l {
        if a == NoHash {
          if p in files && files[p].gen > env.cursor {
            ok := CopyToLocal(p);
            return;
          }
          DeleteRemote(p);
          return true;
        }
        ok := CopyToRemote(p);
      } else {
        ok := ResolveDivergence(p, a, b, l);
      }
    }

    method DecideConverged(p: Path, a: Hash, l: Hash) returns (ok: bool)
      requires a == HashOf(env.localSnap, p) == HashOf(env.remoteSnap, p)
      requires l == Known(CellAt(env, View(), p))
      modifies this, hub
      ensures ok <==> !Converged(CellAt(env, old(View()), p)).Fail?
      ensures View() == Perform(env, old(View()), p, Converged(CellAt(env, old(View()), p)))
      ensures trail == old(trail) + Trail(env, old(View()), p, Converged(CellAt(env, old(View()), p)))
    {
      if a == NoHash {
        if p in files {
          files := files - {p};
        }
        return true;
      }
      if a != l {
        if p !in remote {
          return false;
        }
        Record(p, remote[p]);
      }
      ok := true;
    }

    method ResolveDivergence(p: Path, a: Hash, b: Hash, l: Hash) returns (ok: bool)
      requires a == HashOf(env.localSnap, p) && b == HashOf(env.remoteSnap, p)
      requires l == Known(CellAt(env, View(), p))
      modifies this, hub
      ensures ok <==> !Diverged(env, CellAt(env, old(View()), p)).Fail?
      ensures View() == Perform(env, old(View()), p, Diverged(env, CellAt(env, old(View()), p)))
      ensures trail == old(trail) + Trail(env, old(View()), p, Diverged(env, CellAt(env, old(View()), p)))
    {
      if a == NoHash {
        Flag(p);
        ok := CopyToLocal(p);
        return;
      }
      if b == NoHash {
        Flag(p);
        ok := CopyToRemote(p);
        return;
      }
      if p !in local || p !in remote {
        return false;
      }
      ok := ResolveEdits(p, l);
    }

    /** Both sides hold their own version: merge, or set ours aside. */
    method ResolveEdits(p: Path, l: Hash) returns (ok: bool)
      requires p in local && p in remote && l == Known(CellAt(env, View(), p))
      modifies this, hub
      ensures ok
      ensures View() == Perform(env, old(View()), p, EditsOf(env, CellAt(env, old(View()), p)))
      ensures trail == old(trail) + Trail(env, old(View()), p, EditsOf(env, CellAt(env, old(View()), p)))
    {
      var ours, theirs := local[p], remote[p];
      var merged := TryMerge(p, l, ours, theirs);
      if merged.Some? {
        WriteBoth(p, merged.value);
        return true;
      }
      SetAside(p, ours);
      ok := true;
    }

    /** The hub's version stays live on both replicas and ours becomes the sidecar. */
    method SetAside(p: Path, ours: Content)
      requires p in remote
      modifies this, hub
      ensures View() == Perform(env, old(View()), p, Quarantine(ours))
      ensures trail == old(trail) + Trail(env, old(View()), p, Quarantine(ours))
    {
      Flag(p);
      WriteBoth(Sidecar(p, env.stamp), ours);
      var ok := CopyToLocal(p);
      assert ok;
    }

    /** The clean merge over the ledger's version, when merging is allowed and possible. */
    method TryMerge(p: Path, l: Hash, ours: Content, theirs: Content) returns (merged: Option<Content>)
      requires l == Known(CellAt(env, View(), p))
      requires Get(local, p) == Some(ours) && Get(remote, p) == Some(theirs)
      ensures merged == MergedBy(env, CellAt(env, View(), p))
    {
      if !env.noMerge && l != NoHash && IsText(ours) && IsText(theirs) {
        var base := hub.GetBlob(l);
        if base.Some? {
          var res := M.Merge(base.value, ours, theirs);
          if res.clean {
            return Some(res.merged);
          }
        }
      }
      merged := None;
    }

    method CopyToLocal(p: Path) returns (ok: bool)
      modifies this, hub
      ensures ok <==> env.dryRun || p in old(remote)
      ensures View() == PulledAt(env, old(View()), p)
      ensures trail == old(trail) + PullTrail(env, old(View()), p)
    {
      if env.dryRun { return true; }
      if p !in remote { return false; }
      var content := remote[p];
      local := local[p := content];
      Mark();
      Record(p, content);
      ok := true;
    }

    method CopyToRemote(p: Path) returns (ok: bool)
      modifies this, hub
      ensures ok <==> env.dryRun || p in old(local)
      ensures View() == PushedAt(env, old(View()), p)
      ensures trail == old(trail) + PushTrail(env, old(View()), p)
    {
      if env.dryRun { return true; }
      if p !in local { return false; }
      var content := local[p];
      remote := remote[p := content];
      Mark();
      Record(p, content);
      ok := true;
    }

    method WriteBoth(p: Path, content: Content)
      modifies this, hub
      ensures View() == WrittenBoth(env, old(View()), p, content)
      ensures trail == old(trail) + BothTrail(env, old(View()), p, content)
    {
      if env.dryRun { return; }
      local := local[p := content];
      Mark();
      remote := remote[p := content];
      Mark();
      Record(p, content);
    }

    method Record(p: Path, content: Content)
      modifies this, hub
      ensures View() == Recorded(env, old(View()), p, content)
      ensures trail == old(trail) + RecordTrail(env, old(View()), content)
    {
      var hash := Sum(content);
      if !env.dryRun {
        hub.PutBlob(hash, content);
        Mark();
      }
      files := files[p := FileEntry(hash, env.gen)];
      tombs := tombs - {p};
    }

    method DeleteLocal(p: Path)
      modifies this
      ensures View() == Entombed(env, old(View()).(local := old(local) - {p}), p)
      ensures trail == old(trail) + Trail(env, old(View()), p, DropLocal)
    {
      local := local - {p};
      Mark();
      RecordTombstone(p);
    }

    method DeleteRemote(p: Path)
      modifies this
      ensures View() == Entombed(env, old(View()).(remote := old(remote) - {p}), p)
      ensures trail == old(trail) + Trail(env, old(View()), p, DropRemote)
    {
      remote := remote - {p};
      Mark();
      RecordTombstone(p);
    }

    method RecordTombstone(p: Path)
      modifies this
      ensures View() == Entombed(env, old(View()), p) && trail == old(trail)
    {
      var last := if p in files then files[p].hash else NoHash;
      files := files - {p};
      tombs := tombs[p := Tombstone(env.gen, last)];
    }

    method Flag(p: Path)
      modifies this
      ensures View() == Flagged(old(View()), p, true) && trail == old(trail)
    {
      conflicts := conflicts + [p];
    }

    /** A file operation is done. */
    ghost method Mark()
      modifies this`trail
      ensures trail == old(trail) + [FilesOf(View())]
    {
      trail := trail + [FilesOf(View())];
    }
  }
}
