/** How far recorded deletions reach (internal/runner/worktree.go, lines 153-168 and 331-355). */
module DeletionLaws {
  import opened Options
  import opened Ledger
  import opened BlobStore
  import opened Decision
  import opened LoopLaws
  import opened RunLaws
  import opened EditLaws
  import opened ChangeLaws
  import opened RestartLaws

  // --- which deletions are recorded ---

  lemma RecordedHere(env: Env, c: Cell)
    requires Faithful(c) && c.entry.Some? && c.tomb.None? && After(env, c).entry.None?
    ensures After(env, c).tomb ==
            if c.ours.Some? || c.theirs.Some? then Some(Tombstone(env.gen, Known(c))) else None
  {
    ChoiceFits(env, c);
  }

  /**
   * When a tracked path leaves the ledger, a tombstone naming its version is recorded exactly
   * if some side still held the path: one deleted on both sides since is forgotten.
   */
  lemma DeletionRecordedIff(env: Env, s: State, paths: seq<Path>, p: Path)
    requires Runnable(env, s, paths) && p in s.files && p !in s.tombs && p !in Loop(env, s, paths).files
    ensures Get(Loop(env, s, paths).tombs, p) ==
            if p in s.local || p in s.remote then Some(Tombstone(env.gen, s.files[p].hash)) else None
  {
    var f := Loop(env, s, paths);
    assert p in paths;
    LoopHere(env, s, paths, p);
    assert SlotAt(f, p).entry == Get(f.files, p) && SlotAt(f, p).tomb == Get(f.tombs, p);
    RecordedHere(env, CellAt(env, s, p));
  }

  lemma DropForgotten(env: Env, c: Cell)
    requires Faithful(c) && c.entry.Some? && c.tomb.None? && (Choose(env, c).DropLocal? || Choose(env, c).DropRemote?)
    ensures After(env, c) == Slot(None, None, None, Some(Tombstone(env.gen, Known(c))))
    ensures After(env, Met(c, None, None)) == VACANT
  {
  }

  /**
   * A deletion carried out by a run whose ledger was never saved is not recorded by the next
   * run, which finds the path gone on both sides; an uninterrupted run records it.
   */
  lemma CutDeletionForgotten(
      env: Env, s: State, paths: seq<Path>, s': State, stamp: string, paths': seq<Path>, p: Path)
    requires Runnable(env, s, paths) && Resumes(env, s, s', stamp, paths') && p in s.files && p !in s.tombs
    requires Choose(env, CellAt(env, s, p)).DropLocal? || Choose(env, CellAt(env, s, p)).DropRemote?
    requires p !in s'.local && p !in s'.remote
    ensures SlotAt(Loop(Again(env, s', stamp), s', paths'), p) == VACANT
    ensures SlotAt(Loop(env, s, paths), p) == Slot(None, None, None, Some(Tombstone(env.gen, s.files[p].hash)))
  {
    assert p in paths && p in paths';
    LoopHere(env, s, paths, p);
    EndsAgain(env, s, s', stamp, paths', p);
    DropForgotten(env, CellAt(env, s, p));
  }

  // --- how far they reach ---

  /** The path is not in the ledger and x is its only copy, on one replica. */
  ghost predicate LoneCopy(c: Cell, x: Content) {
    c.entry.None? && ((c.ours == Some(x) && c.theirs.None?) || (c.theirs == Some(x) && c.ours.None?))
  }

  lemma LoneCopyAfter(env: Env, c: Cell, x: Content)
    requires Faithful(c) && LoneCopy(c, x)
    ensures Stale(c) <==> c.tomb.Some? && c.tomb.value.lastHash == Sum(x)
    ensures After(env, c) == if Stale(c) then GoneSlot(env, c) else LiveSlot(env, x)
  {
  }

  /**
   * A deletion holds against a lone copy exactly when a tombstone names that very version;
   * any other lone copy, and any copy of a deletion that left no tombstone, comes back on
   * both replicas.
   */
  lemma DeletionHoldsIff(env: Env, s: State, paths: seq<Path>, p: Path, x: Content)
    requires Runnable(env, s, paths) && LoneCopy(CellAt(env, s, p), x)
    ensures var f := Loop(env, s, paths); var held := p in s.tombs && s.tombs[p].lastHash == Sum(x);
            && (p !in f.local && p !in f.remote <==> held)
            && (LiveBoth(f, p, x) <==> !held)
  {
    assert CellAt(env, s, p).ours == Get(s.local, p) && CellAt(env, s, p).theirs == Get(s.remote, p);
    assert p in paths;
    LoopHere(env, s, paths, p);
    LoneCopyAfter(env, CellAt(env, s, p), x);
  }

  /** The guard removes a stale copy once, and forgets which version it removed. */
  lemma GuardForgetsVersion(env: Env, s: State, paths: seq<Path>, p: Path)
    requires Runnable(env, s, paths) && Stale(CellAt(env, s, p))
    ensures SlotAt(Loop(env, s, paths), p) == Slot(None, None, None, Some(Tombstone(env.gen, NoHash)))
  {
    assert p in paths;
    LoopHere(env, s, paths, p);
    StaleHere(env, CellAt(env, s, p));
  }

  /** So the same stale copy, offered again, is brought back to life. */
  lemma SecondStaleCopyReturns(
      env: Env, s: State, paths: seq<Path>, env': Env, s': State, paths': seq<Path>, p: Path, x: Content)
    requires Runnable(env, s, paths) && Stale(CellAt(env, s, p))
    requires Runnable(env', s', paths') && LoneCopy(CellAt(env', s', p), x)
    requires Get(s'.tombs, p) == Get(Loop(env, s, paths).tombs, p)
    ensures LiveBoth(Loop(env', s', paths'), p, x)
  {
    GuardForgetsVersion(env, s, paths, p);
    DeletionHoldsIff(env', s', paths', p, x);
  }

  /** The cell of a version this client has synced and then removed or renamed away. */
  lemma DroppedAfter(env: Env, c: Cell, x: Content)
    requires Faithful(c) && c.ours.None? && c.theirs == Some(x)
    requires c.entry.Some? && c.entry.value.hash == Sum(x) && c.entry.value.gen <= env.cursor
    ensures Choose(env, c) == DropRemote
    ensures After(env, c) == Slot(None, None, None, Some(Tombstone(env.gen, Sum(x))))
  {
  }

  /** The cell of a file that only this client has and the ledger has never seen. */
  lemma NewFileAfter(env: Env, c: Cell, x: Content)
    requires Faithful(c) && c.ours == Some(x) && c.theirs.None? && c.entry.None? && c.tomb.None?
    ensures After(env, c) == LiveSlot(env, x) && !Choose(env, c).Quarantine?
  {
  }

  /** The client has synced p at version x and renamed it to q, a name never used before. */
  ghost predicate RenamedAway(env: Env, s: State, p: Path, q: Path, x: Content) {
    && p != q && p in s.files && s.files[p].gen <= env.cursor
    && SlotAt(s, p) == Slot(None, Some(x), Some(FileEntry(Sum(x), s.files[p].gen)), None)
    && SlotAt(s, q) == Slot(Some(x), None, None, None)
  }

  lemma RenameAway(env: Env, s: State, paths: seq<Path>, p: Path, q: Path, x: Content)
    requires Runnable(env, s, paths) && RenamedAway(env, s, p, q, x)
    ensures SlotAt(Loop(env, s, paths), p) == Slot(None, None, None, Some(Tombstone(env.gen, Sum(x))))
    ensures SlotAt(Loop(env, s, paths), q) == LiveSlot(env, x)
  {
    assert p in paths && q in paths;
    LoopHere(env, s, paths, p);
    LoopHere(env, s, paths, q);
    DroppedAfter(env, CellAt(env, s, p), x);
    NewFileAfter(env, CellAt(env, s, q), x);
  }

  /**
   * Renaming a file away, syncing, renaming it back and syncing again deletes it under both
   * names on both replicas.
   */
  lemma RenameBackLosesFile(
      env: Env, s: State, paths: seq<Path>, env': Env, s': State, paths': seq<Path>,
      p: Path, q: Path, x: Content)
    requires Runnable(env, s, paths) && RenamedAway(env, s, p, q, x)
    requires Runnable(env', s', paths') && env'.cursor >= env.gen
    requires var f := Loop(env, s, paths);
             && q in f.local && s'.local == Renamed(f.local, q, p)
             && s'.remote == f.remote && s'.files == f.files && s'.tombs == f.tombs
    ensures var f' := Loop(env', s', paths');
            p !in f'.local && p !in f'.remote && q !in f'.local && q !in f'.remote
  {
    RenameAway(env, s, paths, p, q, x);
    RenamedBack(Loop(env, s, paths), s', p, q, env.gen, x);
    assert p in paths' && q in paths';
    LoopHere(env', s', paths', p);
    LoopHere(env', s', paths', q);
    LoneCopyAfter(env', CellAt(env', s', p), x);
    DroppedAfter(env', CellAt(env', s', q), x);
  }

  lemma RenamedBack(f: State, s': State, p: Path, q: Path, gen: int, x: Content)
    requires SlotAt(f, p) == Slot(None, None, None, Some(Tombstone(gen, Sum(x)))) && p != q
    requires SlotAt(f, q) == Slot(Some(x), Some(x), Some(FileEntry(Sum(x), gen)), None)
    requires q in f.local && s'.local == Renamed(f.local, q, p)
    requires s'.remote == f.remote && s'.files == f.files && s'.tombs == f.tombs
    ensures SlotAt(s', p) == Slot(Some(x), None, None, Some(Tombstone(gen, Sum(x))))
    ensures SlotAt(s', q) == Slot(None, Some(x), Some(FileEntry(Sum(x), gen)), None)
  {
  }

  // --- one input on which the rename and its undoing lose the file ---

  /** "a" is synced at version x and has been renamed to "b" on the client. */
  function RenamedState(x: Content): State {
    State(map["b" := x], map["a" := x], map[Sum(x) := x], map["a" := FileEntry(Sum(x), 1)], map[], [])
  }

  function EnvFor(s: State, gen: int, cursor: int, stamp: string): Env {
    Env(ScanOf(s.local), ScanOf(s.remote), gen, cursor, stamp, false, false)
  }

  lemma RenamedStateRuns(x: Content, stamp: string)
    ensures var s := RenamedState(x); var env := EnvFor(s, 2, 1, stamp);
            Runnable(env, s, ["a", "b"]) && RenamedAway(env, s, "a", "b", x)
  {
    var s := RenamedState(x);
    var env := EnvFor(s, 2, 1, stamp);
    DroppedAfter(env, CellAt(env, s, "a"), x);
    NewFileAfter(env, CellAt(env, s, "b"), x);
  }

  lemma RenamedStateEnds(x: Content, stamp: string)
    ensures var s := RenamedState(x); var f := Loop(EnvFor(s, 2, 1, stamp), s, ["a", "b"]);
            && SlotAt(f, "a") == Slot(None, None, None, Some(Tombstone(2, Sum(x))))
            && SlotAt(f, "b") == Slot(Some(x), Some(x), Some(FileEntry(Sum(x), 2)), None)
            && (forall p :: p != "a" && p != "b" ==> SlotAt(f, p) == VACANT)
            && Covers(f.blobs, f.files)
  {
    var s, paths := RenamedState(x), ["a", "b"];
    var env := EnvFor(s, 2, 1, stamp);
    RenamedStateRuns(x, stamp);
    RenameAway(env, s, paths, "a", "b", x);
    Convergence(env, s, paths);
    DroppedAfter(env, CellAt(env, s, "a"), x);
    NewFileAfter(env, CellAt(env, s, "b"), x);
    forall p | p != "a" && p != "b" ensures SlotAt(Loop(env, s, paths), p) == VACANT {
      OthersVacant(env, s, paths, p);
    }
  }

  /** The state after the first run and after renaming back. */
  lemma RenamedBackRuns(x: Content, stamp: string, stamp': string)
    ensures var s := RenamedState(x); var f := Loop(EnvFor(s, 2, 1, stamp), s, ["a", "b"]);
            && "b" in f.local
            && var s' := f.(local := Renamed(f.local, "b", "a"), conflicts := []);
               Runnable(EnvFor(s', 3, 2, stamp'), s', ["a", "b"])
  {
    RenamedStateEnds(x, stamp);
    var f := Loop(EnvFor(RenamedState(x), 2, 1, stamp), RenamedState(x), ["a", "b"]);
    assert SlotAt(f, "b").local == Get(f.local, "b");
    BackRunnable(f, x, stamp');
  }

  lemma BackRunnable(f: State, x: Content, stamp: string)
    requires SlotAt(f, "a") == Slot(None, None, None, Some(Tombstone(2, Sum(x))))
    requires SlotAt(f, "b") == Slot(Some(x), Some(x), Some(FileEntry(Sum(x), 2)), None)
    requires forall p :: p != "a" && p != "b" ==> SlotAt(f, p) == VACANT
    requires Covers(f.blobs, f.files) && "b" in f.local
    ensures var s' := f.(local := Renamed(f.local, "b", "a"), conflicts := []);
            Runnable(EnvFor(s', 3, 2, stamp), s', ["a", "b"])
  {
    var s' := f.(local := Renamed(f.local, "b", "a"), conflicts := []);
    var env' := EnvFor(s', 3, 2, stamp);
    RenamedBack(f, s', "a", "b", 2, x);
    LoneCopyAfter(env', CellAt(env', s', "a"), x);
    DroppedAfter(env', CellAt(env', s', "b"), x);
    forall p ensures p in ["a", "b"] <==> p in s'.local || p in s'.remote || p in s'.files || p in s'.tombs {
      assert p != "a" && p != "b" ==> SlotAt(f, p) == VACANT;
      assert SlotAt(s', "a").local.Some? && SlotAt(s', "b").remote.Some?;
    }
  }

  lemma OthersVacant(env: Env, s: State, paths: seq<Path>, p: Path)
    requires Runnable(env, s, paths) && p !in paths && paths == ["a", "b"]
    requires forall q :: q in paths ==> !Choose(env, CellAt(env, s, q)).Quarantine?
    ensures SlotAt(Loop(env, s, paths), p) == VACANT
  {
    LoopUntouched(env, s, paths, p);
  }

  /** Whatever the file's text and the time stamps, it is gone from both replicas. */
  lemma RenameBackExample(x: Content, stamp: string, stamp': string)
    ensures var s := RenamedState(x); var f := Loop(EnvFor(s, 2, 1, stamp), s, ["a", "b"]);
            && "b" in f.local
            && var s' := f.(local := Renamed(f.local, "b", "a"), conflicts := []);
               var f' := Loop(EnvFor(s', 3, 2, stamp'), s', ["a", "b"]);
               "a" !in f'.local && "a" !in f'.remote && "b" !in f'.local && "b" !in f'.remote
  {
    var s, paths := RenamedState(x), ["a", "b"];
    var env := EnvFor(s, 2, 1, stamp);
    RenamedStateRuns(x, stamp);
    RenamedBackRuns(x, stamp, stamp');
    var f := Loop(env, s, paths);
    var s' := f.(local := Renamed(f.local, "b", "a"), conflicts := []);
    RenameBackLosesFile(env, s, paths, EnvFor(s', 3, 2, stamp'), s', paths, "a", "b", x);
  }
}
