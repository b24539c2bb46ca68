/**
 * A run that stops inside a decision, between two file operations, and the run after it
 * (internal/runner/worktree.go, lines 218-346).
 */
module StopLaws {
  import opened Options
  import opened Ledger
  import opened BlobStore
  import CleanMerge
  import opened Merge
  import opened Decision
  import opened Trails
  import opened LoopLaws
  import opened RunLaws
  import opened EditLaws
  import opened RestartLaws

  /** What a run stopped after some operations of path k leaves for the next one. */
  function Left(env: Env, s: State, paths: seq<Path>, k: nat, operations: nat): State {
    Abandoned(s, Interrupted(env, s, paths, k, operations))
  }

  function ActAt(env: Env, s: State, p: Path): Action {
    Choose(env, CellAt(env, s, p))
  }

  lemma DecisionReached(env: Env, s: State, paths: seq<Path>, k: nat)
    requires Ready(env, s, paths) && k < |paths|
    ensures CellAt(env, Loop(env, s, paths[..k]), paths[k]) == CellAt(env, s, paths[k])
    ensures Loop(env, s, paths[..k + 1]) == Step(env, Loop(env, s, paths[..k]), paths[k])
  {
    PrefixReady(env, s, paths, k + 1);
    CellReached(env, s, paths[..k + 1]);
    assert paths[..k + 1][..k] == paths[..k];
  }

  lemma LeftUnsaved(env: Env, s: State, paths: seq<Path>, k: nat, operations: nat)
    requires Ready(env, s, paths)
    ensures Unsaved(s, Left(env, s, paths, k, operations)) && Intact(Left(env, s, paths, k, operations).blobs)
  {
    if k < |paths| {
      var t := Loop(env, s, paths[..k]);
      LoopGrows(env, s, paths[..k]);
      PartGrows(env, t, paths[k], ActAt(env, t, paths[k]), operations);
    } else {
      LoopGrows(env, s, paths);
    }
  }

  /** What the stop leaves on the replicas, from the state of the loop before path k. */
  lemma LeftPart(env: Env, s: State, paths: seq<Path>, k: nat, operations: nat)
    requires Ready(env, s, paths) && k < |paths|
    ensures var t, s' := Loop(env, s, paths[..k]), Left(env, s, paths, k, operations);
            PartOf(env, t, paths[k], ActAt(env, s, paths[k]), operations, FilesOf(s'))
  {
    var t := Loop(env, s, paths[..k]);
    DecisionReached(env, s, paths, k);
    ReadyCell(env, s, paths, paths[k]);
    ChoiceFits(env, CellAt(env, s, paths[k]));
    assert Get(t.remote, paths[k]) == CellAt(env, t, paths[k]).theirs;
    PartDone(env, t, paths[k], ActAt(env, s, paths[k]), operations);
  }

  lemma StepFiles(env: Env, s: State, p: Path)
    ensures FilesOf(Step(env, s, p)) == FilesOf(Perform(env, s, p, ActAt(env, s, p)))
  {
    var c := CellAt(env, s, p);
    MemoryIgnored(env, s, ClearedTomb(s, p, c), p, Choose(env, c));
  }

  lemma MemoryIgnored(env: Env, s: State, t: State, p: Path, act: Action)
    requires FilesOf(s) == FilesOf(t)
    ensures FilesOf(Perform(env, s, p, act)) == FilesOf(Perform(env, t, p, act))
  {
    TrailEnds(env, s, p, act);
    TrailEnds(env, t, p, act);
    TrailIgnoresMemory(env, s, t, p, act);
  }

  // --- all but two kinds of stop are stops between paths ---

  /** The stop is neither between the two writes of a merge nor while a version is set aside. */
  ghost predicate NotHalf(env: Env, s: State, paths: seq<Path>, k: nat, operations: nat) {
    k < |paths| ==>
      !HalfMerged(ActAt(env, s, paths[k]), operations) && !HalfAside(ActAt(env, s, paths[k]), operations)
  }

  /** Such a stop leaves the replicas as a stop before or after the path does. */
  lemma StopIsBetween(env: Env, s: State, paths: seq<Path>, k: nat, operations: nat)
    requires Runnable(env, s, paths) && NotHalf(env, s, paths, k, operations)
    ensures exists n: nat :: StoppedAfter(env, s, paths, n, Left(env, s, paths, k, operations))
  {
    var s' := Left(env, s, paths, k, operations);
    LeftUnsaved(env, s, paths, k, operations);
    if k < |paths| {
      LeftPart(env, s, paths, k, operations);
      DecisionReached(env, s, paths, k);
      StepFiles(env, Loop(env, s, paths[..k]), paths[k]);
      if operations == 0 {
        assert StoppedAfter(env, s, paths, k, s');
      } else {
        assert StoppedAfter(env, s, paths, k + 1, s');
      }
    } else {
      assert paths[..|paths|] == paths;
      assert StoppedAfter(env, s, paths, |paths|, s');
    }
  }

  // --- between the two writes of a merge ---

  /** All paths but p are as a loop over the first k left them. */
  ghost predicate OthersAsLeft(env: Env, s: State, paths: seq<Path>, k: nat, s': State, p: Path)
    requires k <= |paths|
  {
    var t := Loop(env, s, paths[..k]);
    forall q :: q != p ==> Get(s'.local, q) == Get(t.local, q) && Get(s'.remote, q) == Get(t.remote, q)
  }

  lemma OtherPathAgain(
      env: Env, s: State, paths: seq<Path>, k: nat, s': State, stamp: string, paths': seq<Path>, p: Path, q: Path)
    requires Runnable(env, s, paths) && k <= |paths| && Resumes(env, s, s', stamp, paths')
    requires OthersAsLeft(env, s, paths, k, s', p) && q != p && q in paths
    ensures SameOutcome(SlotAt(Loop(Again(env, s', stamp), s', paths'), q), SlotAt(Loop(env, s, paths), q))
    ensures q !in paths[..k] ==> FoundUntouched(s, s', q)
  {
    var t := Loop(env, s, paths[..k]);
    LoopGrows(env, s, paths[..k]);
    FoundAgain(env, s, paths, k, Abandoned(s, t), q);
    PathAgain(env, s, paths, s', stamp, paths', q);
    LoopHere(env, s, paths, q);
  }

  /** Merging the merge with the hub's version once more gives it again. */
  ghost predicate MergeHolds(c: Cell, m: Content) {
    && c.base.Some? && c.theirs.Some?
    && IsText(m) && MergeOf(c.base.value, m, c.theirs.value) == MergeResult(m, true, 0)
  }

  /** What a decision to write a merge says of its cell. */
  lemma MergedMeans(env: Env, c: Cell, m: Content)
    requires Faithful(c) && Choose(env, c) == WriteMerged(m)
    ensures !env.noMerge && c.entry.Some? && c.base.Some? && c.ours.Some? && c.theirs.Some?
    ensures c.a != Known(c) && c.b != Known(c) && IsText(c.theirs.value)
    ensures MergeOf(c.base.value, c.ours.value, c.theirs.value).clean
    ensures MergeOf(c.base.value, c.ours.value, c.theirs.value).merged == m
    ensures After(env, c) == LiveSlot(env, m)
  {
  }

  /** A tracked path on which both sides differ from the ledger and from each other. */
  lemma EditsMeet(env: Env, c: Cell)
    requires Faithful(c) && c.entry.Some? && c.ours.Some? && c.theirs.Some?
    requires c.a != Known(c) && c.b != Known(c) && c.a != c.b
    ensures Choose(env, c) == EditsOf(env, c)
  {
  }

  lemma HalfMergedHere(env: Env, c: Cell, m: Content)
    requires Faithful(c) && Choose(env, c) == WriteMerged(m)
    ensures SameOutcome(After(env, Met(c, Some(m), c.theirs)), After(env, c)) <==> MergeHolds(c, m)
  {
    MergedMeans(env, c, m);
    CleanMerge.EditsNeverCancel(c.base.value, c.ours.value, c.theirs.value);
    var c' := Met(c, Some(m), c.theirs);
    if c.theirs == Some(m) {
      MetConverged(env, c', m);
    } else {
      MetApart(env, c', m);
      RemergeHolds(env, c, c', m);
    }
  }

  lemma MetApart(env: Env, c: Cell, m: Content)
    requires Faithful(c) && c.entry.Some? && c.ours == Some(m) && c.theirs.Some? && c.theirs != Some(m)
    requires c.a != Known(c) && c.b != Known(c)
    ensures SameOutcome(After(env, c), LiveSlot(env, m)) <==> MergedBy(env, c) == Some(m)
  {
    EditsMeet(env, c);
  }

  lemma RemergeHolds(env: Env, c: Cell, c': Cell, m: Content)
    requires !env.noMerge && c.entry.Some? && Known(c) != NoHash && c.base.Some?
    requires c.theirs.Some? && IsText(c.theirs.value) && c' == Met(c, Some(m), c.theirs)
    ensures MergedBy(env, c') == Some(m) <==> MergeHolds(c, m)
  {
    CleanMeansNone(c.base.value, m, c.theirs.value);
  }

  lemma MetConverged(env: Env, c: Cell, m: Content)
    requires Faithful(c) && c.entry.Some? && c.ours == Some(m) && c.theirs == Some(m) && c.a != Known(c)
    ensures SameOutcome(After(env, c), LiveSlot(env, m))
  {
  }

  /**
   * A run stopped between the two writes of a clean merge and then run in full: every other
   * path ends as in one uninterrupted run, and the merged one does exactly when merging the
   * result with the hub's version over the same base gives the result again.
   */
  lemma HalfMergedRestart(
      env: Env, s: State, paths: seq<Path>, k: nat, stamp: string, paths': seq<Path>, q: Path)
    requires Runnable(env, s, paths) && k < |paths| && ActAt(env, s, paths[k]).WriteMerged?
    requires Resumes(env, s, Left(env, s, paths, k, 1), stamp, paths') && q in paths
    ensures var s', c := Left(env, s, paths, k, 1), CellAt(env, s, q);
            SameOutcome(SlotAt(Loop(Again(env, s', stamp), s', paths'), q), SlotAt(Loop(env, s, paths), q)) <==>
            (q == paths[k] ==> MergeHolds(c, ActAt(env, s, q).content))
  {
    var s', p := Left(env, s, paths, k, 1), paths[k];
    LeftPart(env, s, paths, k, 1);
    if q == p {
      LeftMerged(env, s, paths, k);
      ReadyCell(env, s, paths, p);
      StillListed(env, s, paths, s', stamp, paths', p);
      EndsAgain(env, s, s', stamp, paths', p);
      HalfMergedHere(env, CellAt(env, s, p), ActAt(env, s, p).content);
      LoopHere(env, s, paths, p);
    } else {
      OtherPathAgain(env, s, paths, k, s', stamp, paths', p, q);
    }
  }

  lemma LeftMerged(env: Env, s: State, paths: seq<Path>, k: nat)
    requires Runnable(env, s, paths) && k < |paths| && ActAt(env, s, paths[k]).WriteMerged?
    ensures var s', p := Left(env, s, paths, k, 1), paths[k];
            Get(s'.local, p) == Some(ActAt(env, s, p).content) && Get(s'.remote, p) == CellAt(env, s, p).theirs
  {
    LeftPart(env, s, paths, k, 1);
    DecisionReached(env, s, paths, k);
    var t := Loop(env, s, paths[..k]);
    assert CellAt(env, t, paths[k]).theirs == Get(t.remote, paths[k]);
  }

  // --- while a version is set aside ---

  lemma LeftAside(env: Env, s: State, paths: seq<Path>, k: nat, operations: nat)
    requires Runnable(env, s, paths) && k < |paths| && HalfAside(ActAt(env, s, paths[k]), operations)
    ensures var s', p := Left(env, s, paths, k, operations), paths[k]; var a := Sidecar(p, env.stamp);
            && OthersAsLeft(env, s, paths, k, s', a) && a !in paths && SlotAt(s, a) == VACANT
            && Get(s'.local, a) == Some(ActAt(env, s, p).content)
            && (Get(s'.remote, a) == Get(s'.local, a) || Get(s'.remote, a) == None)
  {
    var t, a := Loop(env, s, paths[..k]), Sidecar(paths[k], env.stamp);
    LeftPart(env, s, paths, k, operations);
    forall o ensures !SidecarOf(env, s, paths[..k], a, o) {
      if a == Sidecar(o, env.stamp) && o in paths[..k] {
        SidecarInjective(o, paths[k], env.stamp);
      }
    }
    assert paths[k] in paths;
    NothingElseLeft(env, s, paths, k, a);
    assert SlotAt(t, a).remote == Get(t.remote, a);
  }

  /**
   * A run stopped while it sets a version aside and then run in full: every listed path ends
   * as in one uninterrupted run, and the version lies aside under both runs' stamps.
   */
  lemma HalfAsideRestart(
      env: Env, s: State, paths: seq<Path>, k: nat, operations: nat, stamp: string, paths': seq<Path>, q: Path)
    requires Runnable(env, s, paths) && k < |paths| && HalfAside(ActAt(env, s, paths[k]), operations)
    requires Resumes(env, s, Left(env, s, paths, k, operations), stamp, paths')
    ensures var s', p := Left(env, s, paths, k, operations), paths[k];
            var f, f', x := Loop(env, s, paths), Loop(Again(env, s', stamp), s', paths'), ActAt(env, s, p).content;
            && (q in paths ==> SameOutcome(SlotAt(f', q), SlotAt(f, q)))
            && SlotAt(f', Sidecar(p, env.stamp)) == LiveSlot(env, x)
            && SlotAt(f', Sidecar(p, stamp)) == LiveSlot(env, x)
  {
    var s', p := Left(env, s, paths, k, operations), paths[k];
    var a := Sidecar(p, env.stamp);
    LeftAside(env, s, paths, k, operations);
    OldSidecarEnds(env, s, s', stamp, paths', a, ActAt(env, s, p).content);
    assert p !in paths[..k];
    OtherPathAgain(env, s, paths, k, s', stamp, paths', a, p);
    NewSidecarEnds(env, s, paths, s', stamp, paths', p);
    if q in paths { OtherPathAgain(env, s, paths, k, s', stamp, paths', a, q); }
  }

  // --- any stop ---

  /** The stop is between the two writes of q's merge. */
  ghost predicate StoppedInMerge(env: Env, s: State, paths: seq<Path>, k: nat, operations: nat, q: Path) {
    k < |paths| && q == paths[k] && HalfMerged(ActAt(env, s, q), operations)
  }

  /**
   * A run stopped after any file operation and then run in full, at any time stamp: a listed
   * path ends as in one uninterrupted run, unless the stop was between the two writes of its
   * merge and the merge does not hold when it is made again.
   */
  lemma StopRestart(
      env: Env, s: State, paths: seq<Path>, k: nat, operations: nat, stamp: string, paths': seq<Path>, q: Path)
    requires Runnable(env, s, paths) && q in paths
    requires Resumes(env, s, Left(env, s, paths, k, operations), stamp, paths')
    ensures var s', c := Left(env, s, paths, k, operations), CellAt(env, s, q);
            SameOutcome(SlotAt(Loop(Again(env, s', stamp), s', paths'), q), SlotAt(Loop(env, s, paths), q)) <==>
            (StoppedInMerge(env, s, paths, k, operations, q) ==> MergeHolds(c, ActAt(env, s, q).content))
  {
    var s' := Left(env, s, paths, k, operations);
    if NotHalf(env, s, paths, k, operations) {
      StopIsBetween(env, s, paths, k, operations);
      var n: nat :| StoppedAfter(env, s, paths, n, s');
      RestartConfluence(env, s, paths, n, s', stamp, paths', q);
    } else if HalfMerged(ActAt(env, s, paths[k]), operations) {
      HalfMergedRestart(env, s, paths, k, stamp, paths', q);
    } else {
      HalfAsideRestart(env, s, paths, k, operations, stamp, paths', q);
    }
  }

  /** Any part of a loop removes from the hub only planned paths and stale re-creations. */
  lemma HubRemoved(env: Env, s: State, paths: seq<Path>, p: Path)
    requires Ready(env, s, paths) && p in s.remote && p !in Loop(env, s, paths).remote
    ensures p in paths && (PlannedAt(env, s, p) || Stale(CellAt(env, s, p)))
  {
    LoopSlot(env, s, paths, p);
    assert SlotAt(s, p).remote.Some? && FinalSlot(env, s, paths, p).remote.None?;
    assert p in paths;
    RemovalReason(env, s, p);
  }

  lemma DropReason(env: Env, s: State, paths: seq<Path>, p: Path)
    requires Ready(env, s, paths) && ActAt(env, s, p).DropRemote? && p in s.remote
    ensures PlannedAt(env, s, p) || Stale(CellAt(env, s, p))
  {
    ReadyCell(env, s, paths, p);
    RemovalReason(env, s, p);
  }

  /** So does part of a decision. */
  lemma PartRemoved(env: Env, s: State, paths: seq<Path>, k: nat, operations: nat, q: Path)
    requires Ready(env, s, paths) && k < |paths|
    requires q in Loop(env, s, paths[..k]).remote && q !in Interrupted(env, s, paths, k, operations).remote
    ensures PlannedAt(env, s, q) || Stale(CellAt(env, s, q))
  {
    var t, p := Loop(env, s, paths[..k]), paths[k];
    DecisionReached(env, s, paths, k);
    PartRemoves(env, t, p, ActAt(env, t, p), operations, q);
    assert CellAt(env, t, p).theirs == Get(t.remote, p) && CellAt(env, s, p).theirs == Get(s.remote, p);
    DropReason(env, s, paths, p);
  }

  lemma StopRemoved(env: Env, s: State, paths: seq<Path>, k: nat, operations: nat, q: Path)
    requires Ready(env, s, paths) && q in s.remote && q !in Interrupted(env, s, paths, k, operations).remote
    ensures PlannedAt(env, s, q) || Stale(CellAt(env, s, q))
  {
    if k >= |paths| {
      HubRemoved(env, s, paths, q);
    } else if q in Loop(env, s, paths[..k]).remote {
      PartRemoved(env, s, paths, k, operations, q);
    } else {
      PrefixReady(env, s, paths, k);
      HubRemoved(env, s, paths[..k], q);
    }
  }
}
