/** Exactly when a run carries one side's changes over, keeps the hub's version, or renumbers it. */
module ChangeLaws {
  import opened Options
  import opened Ledger
  import CleanMerge
  import opened Decision
  import opened LoopLaws
  import opened RunLaws
  import opened EditLaws

  /** No recorded deletion names the version of a lone copy. */
  ghost predicate NoStale(env: Env, s: State) {
    forall p :: !Stale(CellAt(env, s, p))
  }

  /** Without conflicts a run leaves nothing but what the listed paths' own decisions leave. */
  lemma EndsHere(env: Env, s: State, paths: seq<Path>, p: Path)
    requires Runnable(env, s, paths)
    requires forall q :: q in paths ==> !Flags(Choose(env, CellAt(env, s, q)))
    ensures Get(Loop(env, s, paths).local, p) == if p in paths then After(env, CellAt(env, s, p)).local else None
  {
    if p in paths {
      LoopHere(env, s, paths, p);
    } else {
      LoopUntouched(env, s, paths, p);
      assert SlotAt(s, p) == VACANT;
    }
    assert SlotAt(Loop(env, s, paths), p).local == Get(Loop(env, s, paths).local, p);
  }

  /** Every listed path ends as the target has it. */
  ghost predicate AllEndAs(env: Env, s: State, paths: seq<Path>, target: Tree) {
    forall p :: p in paths ==> After(env, CellAt(env, s, p)).local == Get(target, p)
  }

  lemma TreeEndsAtIff(env: Env, s: State, paths: seq<Path>, target: Tree)
    requires Runnable(env, s, paths)
    requires forall p :: p in paths ==> !Flags(Choose(env, CellAt(env, s, p)))
    requires forall p :: p in target ==> p in paths
    ensures Loop(env, s, paths).local == target <==> AllEndAs(env, s, paths, target)
  {
    forall p | p in paths ensures Get(Loop(env, s, paths).local, p) == After(env, CellAt(env, s, p)).local {
      EndsHere(env, s, paths, p);
    }
    if AllEndAs(env, s, paths, target) {
      forall p ensures Get(Loop(env, s, paths).local, p) == Get(target, p) {
        EndsHere(env, s, paths, p);
      }
      SameTree(Loop(env, s, paths).local, target);
    }
  }

  /** Without conflicts the run ends at a tree exactly when every listed path does. */
  lemma EndsAtIff(env: Env, s: State, paths: seq<Path>, target: Tree)
    requires Runnable(env, s, paths) && s.conflicts == []
    requires forall p :: p in paths ==> !Flags(Choose(env, CellAt(env, s, p)))
    requires forall p :: p in target ==> p in paths
    ensures var f := Loop(env, s, paths);
            && f.conflicts == [] && f.local == f.remote
            && (f.local == target <==> AllEndAs(env, s, paths, target))
  {
    Convergence(env, s, paths);
    NoConflicts(env, s, paths);
    TreeEndsAtIff(env, s, paths, target);
  }

  // --- one side unchanged ---

  /** Local is as recorded: the path ends as the hub has it unless a stale tombstone covers it. */
  lemma HubSide(env: Env, c: Cell)
    requires Faithful(c) && c.a == Known(c)
    ensures After(env, c).local == c.theirs <==> !Stale(c)
    ensures !Flags(Choose(env, c))
  {
    ChoiceFits(env, c);
  }

  /** The hub is as recorded: the path ends as local has it unless stale, or absent here and not yet seen. */
  lemma LocalSide(env: Env, c: Cell)
    requires Faithful(c) && c.b == Known(c)
    ensures After(env, c).local == c.ours <==>
            !Stale(c) && (c.ours.None? && c.entry.Some? ==> c.entry.value.gen <= env.cursor)
    ensures !Flags(Choose(env, c))
  {
    ChoiceFits(env, c);
  }

  /**
   * Nothing edited locally: no conflict, and both replicas end as the hub was exactly when no
   * stale tombstone is met.
   */
  lemma HubChangesPropagate(env: Env, s: State, paths: seq<Path>)
    requires Runnable(env, s, paths) && s.conflicts == []
    requires AsRecorded(s.local, s.files)
    ensures var f := Loop(env, s, paths);
            && f.conflicts == []
            && ((f.local == s.remote && f.remote == s.remote) <==> NoStale(env, s))
  {
    forall p | p in paths
      ensures !Flags(Choose(env, CellAt(env, s, p)))
      ensures After(env, CellAt(env, s, p)).local == Get(s.remote, p) <==> !Stale(CellAt(env, s, p))
    {
      ReadyCell(env, s, paths, p);
      HubSide(env, CellAt(env, s, p));
    }
    EndsAtIff(env, s, paths, s.remote);
    StaleIsListed(env, s, paths);
  }

  lemma StaleIsListed(env: Env, s: State, paths: seq<Path>)
    requires Listing(s, paths)
    ensures NoStale(env, s) <==> forall p :: p in paths ==> !Stale(CellAt(env, s, p))
  {
    forall p | Stale(CellAt(env, s, p)) ensures p in paths {
      assert Get(s.tombs, p).Some?;
    }
  }

  /**
   * Nothing edited on the hub: no conflict, and both replicas end as local was exactly when no
   * stale tombstone is met and every path absent locally had reached this client.
   */
  lemma LocalChangesPropagate(env: Env, s: State, paths: seq<Path>)
    requires Runnable(env, s, paths) && s.conflicts == []
    requires AsRecorded(s.remote, s.files)
    ensures var f := Loop(env, s, paths);
            && f.conflicts == []
            && ((f.local == s.local && f.remote == s.local) <==>
                NoStale(env, s) && forall p :: p in s.files && p !in s.local ==> s.files[p].gen <= env.cursor)
  {
    forall p | p in paths
      ensures !Flags(Choose(env, CellAt(env, s, p)))
      ensures After(env, CellAt(env, s, p)).local == Get(s.local, p) <==>
              !Stale(CellAt(env, s, p)) && (p in s.files && p !in s.local ==> s.files[p].gen <= env.cursor)
    {
      ReadyCell(env, s, paths, p);
      LocalSide(env, CellAt(env, s, p));
    }
    EndsAtIff(env, s, paths, s.local);
    StaleIsListed(env, s, paths);
  }

  // --- renames ---

  function Renamed(t: Tree, p: Path, q: Path): Tree
    requires p in t
  {
    (t - {p})[q := t[p]]
  }

  lemma EqualSidesNotStale(env: Env, s: State, r: Path)
    requires env.localSnap == ScanOf(s.local) && env.remoteSnap == ScanOf(s.remote)
    requires Get(s.local, r) == Get(s.remote, r)
    ensures !Stale(CellAt(env, s, r))
  {
  }

  lemma TrackedNotStale(env: Env, s: State, p: Path)
    requires p in s.files && s.files[p].hash != NoHash
    ensures !Stale(CellAt(env, s, p))
  {
  }

  lemma LoneCopyStaleIff(env: Env, s: State, q: Path, x: Content)
    requires env.localSnap == ScanOf(s.local) && env.remoteSnap == ScanOf(s.remote) && q !in s.files
    requires || (q !in s.local && Get(s.remote, q) == Some(x))
             || (q !in s.remote && Get(s.local, q) == Some(x))
    ensures Stale(CellAt(env, s, q)) <==> q in s.tombs && s.tombs[q].lastHash == Sum(x)
  {
  }

  /** A renamed file meets a stale tombstone exactly when its new name's tombstone holds its text. */
  lemma RenameStaleIff(env: Env, s: State, recorded: Tree, renamed: Tree, p: Path, q: Path)
    requires env.localSnap == ScanOf(s.local) && env.remoteSnap == ScanOf(s.remote)
    requires (s.local, s.remote) == (recorded, renamed) || (s.local, s.remote) == (renamed, recorded)
    requires AsRecorded(recorded, s.files)
    requires p in recorded && q !in recorded && p != q && renamed == Renamed(recorded, p, q)
    ensures NoStale(env, s) <==> !(q in s.tombs && s.tombs[q].lastHash == Sum(recorded[p]))
  {
    LoneCopyStaleIff(env, s, q, recorded[p]);
    forall r | r != q ensures !Stale(CellAt(env, s, r)) {
      if r == p {
        TrackedNotStale(env, s, p);
      } else {
        assert Get(recorded, r) == Get(renamed, r);
        EqualSidesNotStale(env, s, r);
      }
    }
  }

  /** A rename on the hub is never a conflict; it carries over unless the new name's tombstone holds the text. */
  lemma HubRenamePropagates(env: Env, s: State, paths: seq<Path>, p: Path, q: Path)
    requires Runnable(env, s, paths) && s.conflicts == []
    requires AsRecorded(s.local, s.files)
    requires p in s.local && q !in s.local && p != q && s.remote == Renamed(s.local, p, q)
    ensures var f := Loop(env, s, paths);
            && f.conflicts == []
            && ((f.local == s.remote && f.remote == s.remote) <==>
                !(q in s.tombs && s.tombs[q].lastHash == Sum(s.local[p])))
  {
    RenameStaleIff(env, s, s.local, s.remote, p, q);
    HubChangesPropagate(env, s, paths);
  }

  /** The same for a local rename, which also needs the old name's entry to have reached this client. */
  lemma LocalRenamePropagates(env: Env, s: State, paths: seq<Path>, p: Path, q: Path)
    requires Runnable(env, s, paths) && s.conflicts == []
    requires AsRecorded(s.remote, s.files)
    requires p in s.remote && q !in s.remote && p != q && s.local == Renamed(s.remote, p, q)
    ensures var f := Loop(env, s, paths);
            && f.conflicts == []
            && ((f.local == s.local && f.remote == s.local) <==>
                !(q in s.tombs && s.tombs[q].lastHash == Sum(s.remote[p])) && s.files[p].gen <= env.cursor)
  {
    RenameStaleIff(env, s, s.remote, s.local, p, q);
    LocalChangesPropagate(env, s, paths);
    OnlyRenamedAway(s, p, q);
  }

  lemma OnlyRenamedAway(s: State, p: Path, q: Path)
    requires AsRecorded(s.remote, s.files)
    requires p in s.remote && q !in s.remote && p != q && s.local == Renamed(s.remote, p, q)
    ensures forall r :: r in s.files && r !in s.local <==> r == p
  {
  }

  // --- the hub's version ---

  /** The hub keeps what it has at the path. */
  ghost predicate HubKept(env: Env, c: Cell) {
    if Stale(c) then c.theirs.None?
    else
      || c.ours == c.theirs
      || c.a == Known(c)
      || (c.ours.None? && (c.b != Known(c) || (c.entry.Some? && c.entry.value.gen > env.cursor)))
      || (&& c.ours.Some? && c.theirs.Some? && c.b != Known(c)
          && (MergedBy(env, c) == None || MergedBy(env, c) == c.theirs))
  }

  lemma HubKeptHere(env: Env, c: Cell)
    requires Faithful(c)
    ensures After(env, c).remote == c.theirs <==> HubKept(env, c)
  {
    ChoiceFits(env, c);
  }

  /** For every listed path, exactly when a run leaves the hub's version as it is. */
  lemma HubKeptIff(env: Env, s: State, paths: seq<Path>, p: Path)
    requires Runnable(env, s, paths) && p in paths
    ensures Get(Loop(env, s, paths).remote, p) == Get(s.remote, p) <==> HubKept(env, CellAt(env, s, p))
  {
    LoopHere(env, s, paths, p);
    HubKeptHere(env, CellAt(env, s, p));
    assert SlotAt(Loop(env, s, paths), p).remote == Get(Loop(env, s, paths).remote, p);
  }

  // --- an emptied local tree ---

  /** The hub's version at the path survives a client whose tree is empty. */
  ghost predicate SafeFromEmpty(env: Env, s: State, p: Path)
    requires p in s.remote
  {
    if p in s.files then s.files[p].hash == Sum(s.remote[p]) ==> s.files[p].gen > env.cursor
    else p in s.tombs ==> s.tombs[p].lastHash != Sum(s.remote[p])
  }

  lemma EmptyCell(env: Env, s: State, p: Path)
    requires env.localSnap == ScanOf(s.local) && env.remoteSnap == ScanOf(s.remote)
    requires s.local == map[] && Faithful(CellAt(env, s, p))
    ensures After(env, CellAt(env, s, p)).remote ==
            if p in s.remote && SafeFromEmpty(env, s, p) then Some(s.remote[p]) else None
    ensures !Choose(env, CellAt(env, s, p)).Quarantine?
  {
    ChoiceFits(env, CellAt(env, s, p));
  }

  /**
   * A client whose tree has been emptied keeps of the hub exactly the versions its cursor does
   * not cover, the hub's own edits and the files no tombstone names; with at most 10 tracked
   * files the pre-pass never stops it.
   */
  lemma EmptiedTreeLeaves(env: Env, s: State, paths: seq<Path>)
    requires Runnable(env, s, paths) && s.local == map[]
    ensures Loop(env, s, paths).remote == LeftByEmpty(env, s)
    ensures |s.files| <= 10 ==> !MassDelete(|Planned(env, s, paths)|, |s.files|)
  {
    forall p ensures Get(Loop(env, s, paths).remote, p) == Get(LeftByEmpty(env, s), p) {
      EmptiedTreeHere(env, s, paths, p);
    }
    SameTree(Loop(env, s, paths).remote, LeftByEmpty(env, s));
    FewTrackedPass(env, s, paths);
  }

  ghost function LeftByEmpty(env: Env, s: State): Tree {
    map p | p in s.remote && SafeFromEmpty(env, s, p) :: s.remote[p]
  }

  lemma FewTrackedPass(env: Env, s: State, paths: seq<Path>)
    ensures |s.files| <= 10 ==> !MassDelete(|Planned(env, s, paths)|, |s.files|)
  {
    GuardBound(env, s, paths);
    Fewer(Planned(env, s, paths), s.files.Keys);
  }

  lemma EmptiedTreeHere(env: Env, s: State, paths: seq<Path>, p: Path)
    requires Runnable(env, s, paths) && s.local == map[]
    ensures Get(Loop(env, s, paths).remote, p) ==
            if p in s.remote && SafeFromEmpty(env, s, p) then Some(s.remote[p]) else None
  {
    if p in paths {
      LoopHere(env, s, paths, p);
      EmptyCell(env, s, p);
    } else {
      forall q | q in paths ensures !Choose(env, CellAt(env, s, q)).Quarantine? {
        ReadyCell(env, s, paths, q);
        EmptyCell(env, s, q);
      }
      LoopUntouched(env, s, paths, p);
    }
    assert SlotAt(Loop(env, s, paths), p).remote == Get(Loop(env, s, paths).remote, p);
  }

  /** Over a hub that is as recorded, the hub is untouched exactly when the cursor covers no entry. */
  lemma EmptiedTreeKeepsHubIff(env: Env, s: State, paths: seq<Path>)
    requires Runnable(env, s, paths) && s.local == map[] && AsRecorded(s.remote, s.files)
    ensures Loop(env, s, paths).remote == s.remote <==> forall p :: p in s.files ==> s.files[p].gen > env.cursor
  {
    EmptiedTreeLeaves(env, s, paths);
    AllLeftIff(env, s);
  }

  lemma AllLeftIff(env: Env, s: State)
    requires AsRecorded(s.remote, s.files)
    ensures LeftByEmpty(env, s) == s.remote <==> forall p :: p in s.files ==> s.files[p].gen > env.cursor
  {
    forall p | p in s.files ensures p in LeftByEmpty(env, s) <==> s.files[p].gen > env.cursor {
      assert p in s.remote;
    }
    assert s.files.Keys == s.remote.Keys;
  }

  /** A reset tree under its old client id: the one file it had seen goes from the hub. */
  lemma EmptiedTreeExample(stamp: string)
    ensures var s := State(map[], map["a" := "x"], map[Sum("x") := "x"], map["a" := FileEntry(Sum("x"), 1)], map[], []);
            var env := Env(ScanOf(s.local), ScanOf(s.remote), 2, 1, stamp, false, false);
            && Runnable(env, s, ["a"]) && !MassDelete(|Planned(env, s, ["a"])|, |s.files|)
            && Loop(env, s, ["a"]).remote == map[]
  {
    var s := State(map[], map["a" := "x"], map[Sum("x") := "x"], map["a" := FileEntry(Sum("x"), 1)], map[], []);
    var env := Env(ScanOf(s.local), ScanOf(s.remote), 2, 1, stamp, false, false);
    EmptyCell(env, s, "a");
    assert Runnable(env, s, ["a"]);
    EmptiedTreeLeaves(env, s, ["a"]);
  }

  // --- a path this client never had ---

  /**
   * A tracked path that is absent locally is reported as a conflict exactly when the hub was
   * edited past the ledger, whether the client deleted it or never had it: the cursor is
   * consulted only for a hub that is as recorded.
   */
  lemma AbsentCopyFlaggedIff(env: Env, s: State, paths: seq<Path>, p: Path)
    requires Runnable(env, s, paths) && s.conflicts == []
    requires p in s.files && p !in s.local && p in s.remote
    ensures p in Loop(env, s, paths).conflicts <==> s.files[p].hash != Sum(s.remote[p])
  {
    assert p in paths;
    ReadyCell(env, s, paths, p);
    ConflictsReported(env, s, paths, p);
  }

  /** A client that has never synced reports a conflict on a file only the hub has ever edited. */
  lemma NewClientConflictExample(stamp: string)
    ensures var s := State(map[], map["a" := "y"], map[Sum("x") := "x"], map["a" := FileEntry(Sum("x"), 1)], map[], []);
            var env := Env(ScanOf(s.local), ScanOf(s.remote), 2, 0, stamp, false, false);
            Runnable(env, s, ["a"]) && "a" in Loop(env, s, ["a"]).conflicts
  {
    var s := State(map[], map["a" := "y"], map[Sum("x") := "x"], map["a" := FileEntry(Sum("x"), 1)], map[], []);
    var env := Env(ScanOf(s.local), ScanOf(s.remote), 2, 0, stamp, false, false);
    EmptyCell(env, s, "a");
    assert Runnable(env, s, ["a"]);
    AbsentCopyFlaggedIff(env, s, ["a"], "a");
  }

  // --- generation numbers ---

  lemma RenumbersHere(env: Env, c: Cell)
    requires Faithful(c) && c.entry.Some? && c.entry.value.gen < env.gen
    ensures After(env, c).entry == Some(FileEntry(c.entry.value.hash, env.gen)) <==>
            c.b == Known(c) && c.ours.None? && c.entry.value.gen > env.cursor
  {
    ChoiceFits(env, c);
    if Choose(env, c).WriteMerged? {
      CleanMerge.EditsNeverCancel(c.base.value, c.ours.value, c.theirs.value);
    }
  }

  /**
   * A run renumbers an entry whose content stays the same exactly when it pulls a recorded
   * version this client never had: two edits never merge back to the base.
   */
  lemma RenumberedIff(env: Env, s: State, paths: seq<Path>, p: Path)
    requires Runnable(env, s, paths) && p in s.files && s.files[p].gen < env.gen
    ensures Get(Loop(env, s, paths).files, p) == Some(FileEntry(s.files[p].hash, env.gen)) <==>
            p !in s.local && p in s.remote && Sum(s.remote[p]) == s.files[p].hash && s.files[p].gen > env.cursor
  {
    assert p in paths;
    LoopHere(env, s, paths, p);
    RenumbersHere(env, CellAt(env, s, p));
    assert SlotAt(Loop(env, s, paths), p).entry == Get(Loop(env, s, paths).files, p);
  }

  /** A version pulled because this client never had it is numbered anew, though nobody changed it. */
  lemma FreshPullRenumbers(env: Env, s: State, paths: seq<Path>, p: Path)
    requires Runnable(env, s, paths) && p in s.files && p !in s.local
    requires p in s.remote && s.files[p].hash == Sum(s.remote[p]) && s.files[p].gen > env.cursor
    ensures var f := Loop(env, s, paths);
            && Get(f.files, p) == Some(FileEntry(s.files[p].hash, env.gen))
            && Get(f.remote, p) == Get(s.remote, p) && Get(f.local, p) == Get(s.remote, p)
  {
    assert p in paths;
    LoopHere(env, s, paths, p);
    FreshPull(env, CellAt(env, s, p));
    assert SlotAt(Loop(env, s, paths), p).entry == Get(Loop(env, s, paths).files, p);
  }

  lemma FreshPull(env: Env, c: Cell)
    requires Faithful(c) && c.ours.None? && c.theirs.Some? && c.entry.Some?
    requires c.entry.value.hash == Sum(c.theirs.value) && c.entry.value.gen > env.cursor
    ensures After(env, c) == LiveSlot(env, c.theirs.value) && !Choose(env, c).Quarantine?
  {
  }
}
