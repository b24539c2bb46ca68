/** What one worktree run does with edits, renames and deletions. */
module EditLaws {
  import opened Options
  import opened Ledger
  import opened Merge
  import CleanMerge
  import opened Decision
  import opened LoopLaws
  import opened RunLaws

  // --- conflicts ---

  predicate Flags(act: Action) {
    act.Quarantine? || ((act.Pull? || act.Push? || act.Fail?) && act.flagged)
  }

  lemma StepConflicts(env: Env, s: State, p: Path)
    requires !env.dryRun
    ensures Step(env, s, p).conflicts == s.conflicts + if Flags(Choose(env, CellAt(env, s, p))) then [p] else []
  {
    PerformConflicts(env, ClearedTomb(s, p, CellAt(env, s, p)), p, Choose(env, CellAt(env, s, p)));
  }

  lemma PerformConflicts(env: Env, s: State, p: Path, act: Action)
    ensures Perform(env, s, p, act).conflicts == s.conflicts + if Flags(act) then [p] else []
  {
    if act.Quarantine? {
      var f := Flagged(s, p, true);
      var t := WrittenBoth(env, f, Sidecar(p, env.stamp), act.content);
      assert PulledAt(env, t, p).conflicts == t.conflicts && t.conflicts == f.conflicts;
    }
  }

  /** When the loop reaches a path, that path is still as it was at the start. */
  lemma CellReached(env: Env, s: State, paths: seq<Path>)
    requires Ready(env, s, paths) && paths != []
    ensures var n := |paths| - 1;
            CellAt(env, Loop(env, s, paths[..n]), paths[n]) == CellAt(env, s, paths[n])
  {
    var n := |paths| - 1;
    PrefixReady(env, s, paths, n);
    LoopSlot(env, s, paths[..n], paths[n]);
    NotReached(env, s, paths);
    LoopGrows(env, s, paths[..n]);
    CellUnchanged(env, s, Loop(env, s, paths[..n]), paths[n]);
  }

  /** The reported paths are those whose own decision is a conflict. */
  lemma {:induction false} ConflictsExact(env: Env, s: State, paths: seq<Path>, p: Path)
    requires Ready(env, s, paths)
    ensures p in Loop(env, s, paths).conflicts <==>
            p in s.conflicts || (p in paths && Flags(Choose(env, CellAt(env, s, p))))
  {
    if paths != [] {
      var n := |paths| - 1;
      PrefixReady(env, s, paths, n);
      ConflictsExact(env, s, paths[..n], p);
      CellReached(env, s, paths);
      StepConflicts(env, Loop(env, s, paths[..n]), paths[n]);
      assert p in paths <==> p in paths[..n] || p == paths[n];
    }
  }

  /**
   * Neither side holds the ledger's version, they differ, and no clean merge is allowed. A side
   * without the path does not hold the ledger's version, even if its client never had it.
   */
  ghost predicate TrueConflict(env: Env, c: Cell) {
    && c.ours != c.theirs
    && HashIf(c.ours) != Known(c) && HashIf(c.theirs) != Known(c)
    && !(&& !env.noMerge && c.base.Some? && c.ours.Some? && c.theirs.Some?
         && IsText(c.ours.value) && IsText(c.theirs.value)
         && MergeOf(c.base.value, c.ours.value, c.theirs.value).clean)
  }

  lemma FlagsIffConflict(env: Env, c: Cell)
    requires Faithful(c)
    ensures Flags(Choose(env, c)) <==> TrueConflict(env, c)
  {
    ChoiceFits(env, c);
  }

  /** A run reports exactly the true conflicts of the state it started from. */
  lemma ConflictsReported(env: Env, s: State, paths: seq<Path>, p: Path)
    requires Runnable(env, s, paths) && s.conflicts == []
    ensures p in Loop(env, s, paths).conflicts <==> TrueConflict(env, CellAt(env, s, p))
  {
    ConflictsExact(env, s, paths, p);
    ReadyCell(env, s, paths, p);
    FlagsIffConflict(env, CellAt(env, s, p));
    if p !in paths { assert SlotAt(s, p) == VACANT; }
  }

  // --- binary files ---

  /** A file is text exactly when its first 8000 characters hold no NUL; what comes after them does not matter. */
  lemma TextIff(s: Content)
    ensures IsText(s) <==> '\0' !in s[..if |s| < 8000 then |s| else 8000]
  {
    var head := s[..if |s| < 8000 then |s| else 8000];
    assert forall i :: 0 <= i < |head| ==> head[i] == s[i];
    if '\0' in head {
      var i :| 0 <= i < |head| && head[i] == '\0';
    }
  }

  /** A NUL within the first 8000 characters of either side keeps the sides from being merged. */
  lemma BinarySetAside(env: Env, c: Cell, i: nat)
    requires Faithful(c) && c.ours.Some? && c.theirs.Some? && c.a != c.b && c.a != Known(c) && c.b != Known(c)
    requires !Stale(c) && i < 8000
    requires || (i < |c.ours.value| && c.ours.value[i] == '\0')
             || (i < |c.theirs.value| && c.theirs.value[i] == '\0')
    ensures Choose(env, c) == Quarantine(c.ours.value)
  {
  }

  // --- no edit is lost ---

  /** x is a version of the path that differs from the ledger's, on either side. */
  ghost predicate Edit(c: Cell, x: Content) {
    (c.ours == Some(x) || c.theirs == Some(x)) && Sum(x) != Known(c)
  }

  ghost predicate LiveBoth(s: State, p: Path, x: Content) {
    Get(s.local, p) == Some(x) && Get(s.remote, p) == Some(x)
  }

  /** The run merged the two sides cleanly over the ledger's version. */
  ghost predicate MergedFrom(c: Cell, m: Content) {
    && c.base.Some? && c.ours.Some? && c.theirs.Some?
    && MergeOf(c.base.value, c.ours.value, c.theirs.value) == MergeResult(m, true, 0)
  }

  /** Every change of either side is in the merge, at its place. */
  ghost predicate HoldsBoth(c: Cell, m: Content) {
    && c.base.Some? && c.ours.Some? && c.theirs.Some?
    && CleanMerge.HasBothEdits(c.base.value, c.ours.value, c.theirs.value, m)
  }

  /** x is live on both replicas, set aside on both, or its changes are in a clean merge live on both. */
  ghost predicate Preserved(env: Env, c: Cell, f: State, p: Path, x: Content) {
    || LiveBoth(f, p, x)
    || LiveBoth(f, Sidecar(p, env.stamp), x)
    || exists m :: MergedFrom(c, m) && LiveBoth(f, p, m) && HoldsBoth(c, m)
  }

  /** Where one decision leaves an edit that no stale tombstone covers. */
  lemma EditKeptHere(env: Env, c: Cell, x: Content)
    requires Faithful(c) && Edit(c, x) && !Stale(c)
    ensures var act := Choose(env, c);
            || After(env, c).local == Some(x)
            || (act.Quarantine? && act.content == x)
            || (act.WriteMerged? && MergedFrom(c, act.content))
    ensures After(env, c).local == After(env, c).remote
  {
    ChoiceFits(env, c);
    AfterSettled(env, c);
    if c.base.Some? && c.ours.Some? && c.theirs.Some? {
      CleanMeansNone(c.base.value, c.ours.value, c.theirs.value);
    }
  }

  lemma EditKept(env: Env, s: State, paths: seq<Path>, p: Path, x: Content)
    requires Runnable(env, s, paths)
    requires Edit(CellAt(env, s, p), x) && !Stale(CellAt(env, s, p))
    ensures Preserved(env, CellAt(env, s, p), Loop(env, s, paths), p, x)
  {
    assert p in paths;
    LoopHere(env, s, paths, p);
    EditKeptHere(env, CellAt(env, s, p), x);
    if Choose(env, CellAt(env, s, p)).Quarantine? {
      SetAside(env, s, paths, p);
    }
    PreservedBy(env, CellAt(env, s, p), Loop(env, s, paths), p, x, Choose(env, CellAt(env, s, p)));
  }

  lemma PreservedBy(env: Env, c: Cell, f: State, p: Path, x: Content, act: Action)
    requires SlotAt(f, p) == AfterAction(env, c, act) && Get(f.local, p) == Get(f.remote, p)
    requires act.Quarantine? ==> LiveBoth(f, Sidecar(p, env.stamp), act.content)
    requires || Get(f.local, p) == Some(x)
             || (act.Quarantine? && act.content == x)
             || (act.WriteMerged? && MergedFrom(c, act.content))
    ensures Preserved(env, c, f, p, x)
  {
    if act.WriteMerged? && MergedFrom(c, act.content) {
      CleanMerge.BothEditsKept(c.base.value, c.ours.value, c.theirs.value);
      assert LiveBoth(f, p, act.content);
    }
  }

  lemma SetAside(env: Env, s: State, paths: seq<Path>, p: Path)
    requires Runnable(env, s, paths) && p in paths && Choose(env, CellAt(env, s, p)).Quarantine?
    ensures LiveBoth(Loop(env, s, paths), Sidecar(p, env.stamp), Choose(env, CellAt(env, s, p)).content)
  {
    var q := Sidecar(p, env.stamp);
    LoopSlot(env, s, paths, q);
    assert SidecarOf(env, s, paths, q, p);
    OneOwner(env, s, paths, q, p);
  }

  lemma CleanMeansNone(base: string, a: string, b: string)
    ensures MergeOf(base, a, b).clean <==> MergeOf(base, a, b).conflicts == 0
  {
  }

  lemma StaleHere(env: Env, c: Cell)
    requires Faithful(c) && Stale(c)
    ensures After(env, c) == GoneSlot(env, c) && !Choose(env, c).Quarantine?
    ensures exists x :: Edit(c, x)
    ensures forall m :: !MergedFrom(c, m)
  {
    assert Edit(c, if c.ours.Some? then c.ours.value else c.theirs.value);
  }

  lemma StaleLost(env: Env, s: State, paths: seq<Path>, p: Path, x: Content)
    requires Runnable(env, s, paths) && Stale(CellAt(env, s, p))
    requires SlotAt(s, Sidecar(p, env.stamp)) == VACANT
    ensures !Preserved(env, CellAt(env, s, p), Loop(env, s, paths), p, x)
  {
    var q := Sidecar(p, env.stamp);
    assert p in paths;
    ReadyCell(env, s, paths, p);
    StaleHere(env, CellAt(env, s, p));
    LoopSlot(env, s, paths, p);
    LoopSlot(env, s, paths, q);
    forall o ensures !SidecarOf(env, s, paths, q, o) {
      if q == Sidecar(o, env.stamp) { SidecarInjective(o, p, env.stamp); }
    }
  }

  /** Every edit of a path survives the run exactly when no stale tombstone covers it. */
  lemma NoLostEditIff(env: Env, s: State, paths: seq<Path>, p: Path)
    requires Runnable(env, s, paths) && SlotAt(s, Sidecar(p, env.stamp)) == VACANT
    ensures (forall x :: Edit(CellAt(env, s, p), x) ==> Preserved(env, CellAt(env, s, p), Loop(env, s, paths), p, x))
            <==> !Stale(CellAt(env, s, p))
  {
    var c := CellAt(env, s, p);
    if Stale(c) {
      ReadyCell(env, s, paths, p);
      StaleHere(env, c);
      var x :| Edit(c, x);
      StaleLost(env, s, paths, p, x);
    } else {
      forall x | Edit(c, x) ensures Preserved(env, c, Loop(env, s, paths), p, x) {
        EditKept(env, s, paths, p, x);
      }
    }
  }

  /** One file re-created with the text it had when deleted: the next run destroys it. */
  lemma StaleExample(stamp: string)
    ensures var s := State(map["a" := "x"], map[], map[], map[], map["a" := Tombstone(1, Sum("x"))], []);
            var env := Env(ScanOf(s.local), ScanOf(s.remote), 2, 1, stamp, false, false);
            && Runnable(env, s, ["a"])
            && Edit(CellAt(env, s, "a"), "x")
            && Loop(env, s, ["a"]).local == map[] && Loop(env, s, ["a"]).remote == map[]
  {
    var s := State(map["a" := "x"], map[], map[], map[], map["a" := Tombstone(1, Sum("x"))], []);
    var env := Env(ScanOf(s.local), ScanOf(s.remote), 2, 1, stamp, false, false);
    assert Choose(env, CellAt(env, s, "a")) == DropLocal;
    assert ["a"][..0] == [];
    assert Loop(env, s, ["a"]) == Step(env, s, "a");
  }

  // --- runs without quarantine or conflict ---

  lemma LoopUntouched(env: Env, s: State, paths: seq<Path>, q: Path)
    requires Ready(env, s, paths) && q !in paths
    requires forall p :: p in paths ==> !Choose(env, CellAt(env, s, p)).Quarantine?
    ensures SlotAt(Loop(env, s, paths), q) == SlotAt(s, q)
  {
    LoopSlot(env, s, paths, q);
    assert forall p :: !SidecarOf(env, s, paths, q, p);
  }

  lemma {:induction false} NoConflicts(env: Env, s: State, paths: seq<Path>)
    requires Ready(env, s, paths)
    requires forall p :: p in paths ==> !Flags(Choose(env, CellAt(env, s, p)))
    ensures Loop(env, s, paths).conflicts == s.conflicts
  {
    if paths != [] {
      var n := |paths| - 1;
      PrefixReady(env, s, paths, n);
      NoConflicts(env, s, paths[..n]);
      CellReached(env, s, paths);
      StepConflicts(env, Loop(env, s, paths[..n]), paths[n]);
    }
  }

  lemma SameTree(t: Tree, u: Tree)
    requires forall p :: Get(t, p) == Get(u, p)
    ensures t == u
  {
    forall p ensures p in t <==> p in u ensures p in t ==> t[p] == u[p] {
      assert Get(t, p) == Get(u, p);
    }
  }

  /** The tree is exactly what the ledger records. */
  ghost predicate AsRecorded(t: Tree, files: map<Path, FileEntry>) {
    t.Keys == files.Keys && forall p :: p in t ==> files[p].hash == Sum(t[p])
  }
}
