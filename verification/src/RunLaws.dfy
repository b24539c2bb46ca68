/** What one completed worktree run promises, for every state and every visiting order. */
module RunLaws {
  import opened Options
  import opened Ledger
  import opened BlobStore
  import opened Decision
  import opened LoopLaws

  /** The paths are exactly those of either replica or either ledger map. */
  ghost predicate Listing(s: State, paths: seq<Path>) {
    forall p :: p in paths <==> p in s.local || p in s.remote || p in s.files || p in s.tombs
  }

  ghost predicate Runnable(env: Env, s: State, paths: seq<Path>) {
    Ready(env, s, paths) && Listing(s, paths)
  }

  // --- convergence ---

  /** Both replicas hold the same version, and the ledger names it. */
  ghost predicate Settled(t: Slot) {
    && t.local == t.remote
    && (t.entry.Some? <==> t.local.Some?)
    && (t.entry.Some? ==> t.entry.value.hash == Sum(t.local.value))
  }

  ghost predicate Orderly(t: Slot) {
    !(t.entry.Some? && t.tomb.Some?)
  }

  lemma AfterSettled(env: Env, c: Cell)
    requires Faithful(c)
    ensures Settled(After(env, c))
    ensures !(c.entry.Some? && c.tomb.Some?) ==> Orderly(After(env, c))
  {
    ChoiceFits(env, c);
  }

  lemma FinalSettled(env: Env, s: State, paths: seq<Path>, q: Path)
    requires Runnable(env, s, paths)
    ensures Settled(FinalSlot(env, s, paths, q))
    ensures Orderly(SlotAt(s, q)) ==> Orderly(FinalSlot(env, s, paths, q))
  {
    if q in paths {
      ReadyCell(env, s, paths, q);
      AfterSettled(env, CellAt(env, s, q));
    } else {
      assert SlotAt(s, q) == VACANT;
    }
  }

  ghost predicate InSync(s: State) {
    && s.local == s.remote
    && s.files.Keys == s.local.Keys
    && forall p :: p in s.files ==> s.files[p].hash == Sum(s.local[p])
  }

  lemma InSyncIff(s: State)
    ensures InSync(s) <==> forall p :: Settled(SlotAt(s, p))
  {
    if forall p :: Settled(SlotAt(s, p)) {
      forall p ensures p in s.local <==> p in s.remote
               ensures p in s.local ==> s.local[p] == s.remote[p]
               ensures p in s.files <==> p in s.local
               ensures p in s.files ==> s.files[p].hash == Sum(s.local[p])
      {
        assert Settled(SlotAt(s, p));
      }
      assert s.local == s.remote;
    }
  }

  ghost predicate Disjoint(s: State) {
    s.files.Keys !! s.tombs.Keys
  }

  /** After the loop both replicas agree everywhere, and the ledger is exactly what they hold. */
  lemma Convergence(env: Env, s: State, paths: seq<Path>)
    requires Runnable(env, s, paths)
    ensures InSync(Loop(env, s, paths))
    ensures Covers(Loop(env, s, paths).blobs, Loop(env, s, paths).files)
    ensures Disjoint(s) ==> Disjoint(Loop(env, s, paths))
  {
    var f := Loop(env, s, paths);
    forall q ensures Settled(SlotAt(f, q)) && (Orderly(SlotAt(s, q)) ==> Orderly(SlotAt(f, q))) {
      LoopSlot(env, s, paths, q);
      FinalSettled(env, s, paths, q);
    }
    InSyncIff(f);
    LoopGrows(env, s, paths);
    if Disjoint(s) {
      forall q | q in f.files ensures q !in f.tombs {
        assert Orderly(SlotAt(s, q));
        assert Orderly(SlotAt(f, q));
      }
    }
  }

  /** The visiting order does not matter. */
  lemma OrderIrrelevant(env: Env, s: State, paths: seq<Path>, other: seq<Path>, q: Path)
    requires Runnable(env, s, paths) && Runnable(env, s, other)
    ensures SlotAt(Loop(env, s, paths), q) == SlotAt(Loop(env, s, other), q)
  {
    LoopSlot(env, s, paths, q);
    LoopSlot(env, s, other, q);
    assert q in paths <==> q in other;
    if p :| SidecarOf(env, s, paths, q, p) {
      assert SidecarOf(env, s, other, q, p);
      if q !in paths {
        OneOwner(env, s, paths, q, p);
        OneOwner(env, s, other, q, p);
      }
    } else {
      forall p ensures !SidecarOf(env, s, other, q, p) {
        assert !SidecarOf(env, s, paths, q, p);
      }
    }
  }

  // --- fixpoint ---

  lemma IdleStep(env: Env, s: State, p: Path)
    requires env.localSnap == ScanOf(s.local) && env.remoteSnap == ScanOf(s.remote)
    requires InSync(s) && Disjoint(s)
    ensures Step(env, s, p) == s && Choose(env, CellAt(env, s, p)) == Keep
    ensures !PlannedAt(env, s, p)
  {
    assert Settled(SlotAt(s, p)) by { InSyncIff(s); }
  }

  /** A run on an already converged state changes nothing and flags nothing. */
  lemma {:induction false} Fixpoint(env: Env, s: State, paths: seq<Path>)
    requires env.localSnap == ScanOf(s.local) && env.remoteSnap == ScanOf(s.remote)
    requires InSync(s) && Disjoint(s)
    ensures Loop(env, s, paths) == s
    ensures Planned(env, s, paths) == {}
  {
    if paths != [] {
      Fixpoint(env, s, paths[..|paths| - 1]);
      IdleStep(env, s, paths[|paths| - 1]);
    }
    forall p | p in paths ensures !PlannedAt(env, s, p) { IdleStep(env, s, p); }
  }

  // --- the mass-delete guard ---

  /** The test of plannedRemoteDeletes on one path. */
  predicate PlannedAt(env: Env, s: State, p: Path) {
    var c := CellAt(env, s, p);
    && c.a != c.b && c.a != Known(c)
    && c.b == Known(c) && c.a == NoHash
    && !(c.entry.Some? && c.entry.value.gen > env.cursor)
  }

  function Planned(env: Env, s: State, paths: seq<Path>): set<Path> {
    set p | p in paths && PlannedAt(env, s, p)
  }

  predicate MassDelete(deletes: nat, tracked: nat) {
    deletes > 10 && tracked > 0 && deletes * 2 > tracked
  }

  /** Removals from the hub by the tombstone guard, which the pre-pass does not count. */
  ghost function GuardRemovals(env: Env, s: State, paths: seq<Path>): set<Path> {
    set p | p in paths && Stale(CellAt(env, s, p)) && p in s.remote
  }

  lemma RemovalReason(env: Env, s: State, p: Path)
    requires Faithful(CellAt(env, s, p)) && p in s.remote
    ensures var c := CellAt(env, s, p);
            && (After(env, c).remote.None? <==> PlannedAt(env, s, p) || Stale(c))
            && !(PlannedAt(env, s, p) && Stale(c))
  {
    ChoiceFits(env, CellAt(env, s, p));
  }

  lemma HubRemoval(env: Env, s: State, paths: seq<Path>, p: Path)
    requires Runnable(env, s, paths) && p in s.remote
    ensures p !in Loop(env, s, paths).remote <==> PlannedAt(env, s, p) || Stale(CellAt(env, s, p))
    ensures !(PlannedAt(env, s, p) && Stale(CellAt(env, s, p)))
  {
    assert p in paths;
    LoopHere(env, s, paths, p);
    RemovalReason(env, s, p);
    assert SlotAt(Loop(env, s, paths), p).remote == Get(Loop(env, s, paths).remote, p);
  }

  /** The hub loses exactly the planned paths and those the tombstone guard removes. */
  lemma GuardFaithful(env: Env, s: State, paths: seq<Path>)
    requires Runnable(env, s, paths)
    ensures s.remote.Keys - Loop(env, s, paths).remote.Keys ==
            Planned(env, s, paths) + GuardRemovals(env, s, paths)
    ensures Planned(env, s, paths) !! GuardRemovals(env, s, paths)
  {
    forall p | p in s.remote
      ensures p !in Loop(env, s, paths).remote <==> PlannedAt(env, s, p) || Stale(CellAt(env, s, p))
      ensures !(PlannedAt(env, s, p) && Stale(CellAt(env, s, p)))
    {
      HubRemoval(env, s, paths, p);
    }
    forall p | p in Planned(env, s, paths) ensures p in s.remote {
      ReadyCell(env, s, paths, p);
    }
  }

  lemma Fewer<T>(few: set<T>, many: set<T>)
    requires few <= many
    ensures |few| <= |many|
  {
    assert many == few + (many - few);
  }

  /** A run that passes the pre-pass plans at most 10 removals or at most half the tracked files. */
  lemma GuardBound(env: Env, s: State, paths: seq<Path>)
    ensures Planned(env, s, paths) <= s.files.Keys
    ensures var n := |Planned(env, s, paths)|;
            !MassDelete(n, |s.files|) <==> n <= 10 || 2 * n <= |s.files|
  {
    assert s.files.Keys == {} ==> Planned(env, s, paths) == {};
  }
}
